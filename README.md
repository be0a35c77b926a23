# CortonaV1 core, modelled in Dafny

This project models the deterministic core of CortonaV1, a local personal-memory pipeline written in Python, and proves properties of that model.

The pipeline works in stages:

- Notes, calendar and reminder exports (JSON-like payloads) are reduced to lists of dict records.
- Each record is mapped to a canonical record (`CanonicalObject`), and the records are deduplicated by canonical id.
- Heuristic relation edges are built over every unordered pair of records: SAME_DAY, SAME_PERSON, SAME_DOMAIN and FOLLOW_UP.
- A behavioural "state" snapshot (energy, focus, velocity and stress scores) is computed from the recent records and the FOLLOW_UP edges.
- An event-driven agent mesh assembles a context per event, asks the registered agents to handle it, and runs their tool calls through a tool registry. The mesh runs a bounded FIFO event loop.

The older raw-document normaliser (`normalize/canonical_event.py`) and the embedding-text builder and indexer are modelled too.

## How the model is organised

There is one Dafny module per source file. A few helper modules stand in for Python built-ins:

- `Json`: JSON values, `dict.get` and `or`-chains, `str()`, and iteration.
- `Text`: `strip` (over the whitespace set listed under "## Left out"), ASCII `lower`, and string order.
- `Sorting`: the stable `sorted`.
- `Collections`: filter, and the "last write wins" insertion-ordered dict.
- `Tally`: counting keys and picking the most frequent.
- `Timestamps`: ISO dates and times as UTC seconds.
- `PairScan`: the nested index loop.

Each source file is modelled in the form its code takes:

- Pure expression code (rules, fallback chains, mappers) becomes functions with named results, plus lemmas.
- Loops that update variables (the relation dedup loop, the engine's relation loop and domain count, the mesh's dispatch and run loops, the planner, `normalize_string_list`, `_dedupe_canonical_objects`, `_normalize_people`, the attendee loop and the three `_normalize_*` loops) become methods with loop invariants. Each is proved equal to a specification function, and the properties are proved as lemmas about that function.
- The tool registry, the vector store and the indexer update fields in place, so they are classes. The mesh holds its collaborators in a class.

Instants are `int` UTC seconds. The UTC day of an instant is `t / 86400`; Dafny's Euclidean division floors, as Python's date does. Times that the source reads from a clock are parameters (`now`).

## Model

| member | source | states |
|---|---|---|
| RelationBuilder.Relation.Id | graph/relation_builder.py:38-48 | The relation id is "rel_" followed by a 24-character digest of (from, to, type, reason), so equal fields give equal ids. |
| RelationBuilder.MakeRelationId | graph/relation_builder.py:38-48 | A relation id is 28 characters and starts with "rel_". |
| RelationBuilder.NewRelation | graph/relation_builder.py:18-25 | A new edge carries the given endpoints, type and reason, and the default confidence 1.0. |
| RelationBuilder.OrderedPair | graph/relation_builder.py:51-52 | The pair holds the same two ids, with the smaller one first. |
| RelationBuilder.OrderedPairSymmetric | graph/relation_builder.py:51-52 | The ordered pair does not depend on the argument order. |
| RelationBuilder.AnchorDateTime | graph/relation_builder.py:55-61 | The anchor is the first present of start, due, created, updated and end. It is absent exactly when all five are absent. |
| RelationBuilder.AnchorDay | graph/relation_builder.py:64-66 | The anchor day exists exactly when the anchor does, and it is the ISO date of the anchor's UTC day. |
| RelationBuilder.NormalizedPeopleMembers | graph/relation_builder.py:69-70 | A name is in the normalised list exactly when some person, stripped and lower-cased, is that name and is non-blank. |
| RelationBuilder.PeopleSetMembers | graph/relation_builder.py:69-70 | `_people_set` holds exactly the stripped, lower-cased, non-blank people. |
| RelationBuilder.SharedPeople | graph/relation_builder.py:77-78 | The shared names are strictly ascending, and they are exactly the names in both people sets. |
| RelationBuilder.SharedPeopleSymmetric | graph/relation_builder.py:77-78 | The shared names do not depend on the order of the two records. |
| RelationBuilder.UndirectedEdge | graph/relation_builder.py:84-126 | An undirected edge joins the two records with the smaller id as `from`, and has the requested type and reason. |
| RelationBuilder.SameDayRule | graph/relation_builder.py:84-97 | The SAME_DAY edge exists exactly when both anchor days exist and are equal. Its reason is "anchor_day=" followed by that day. |
| RelationBuilder.SamePersonRule | graph/relation_builder.py:99-111 | The SAME_PERSON edge exists exactly when the records share a person. Its reason is "people=" followed by the sorted shared names joined with ",". |
| RelationBuilder.SamePersonIff | graph/relation_builder.py:99-100 | The SAME_PERSON edge exists exactly when the two people sets intersect. |
| RelationBuilder.SameDomainRule | graph/relation_builder.py:113-126 | The SAME_DOMAIN edge exists exactly when both normalised domains are non-empty and equal. Its reason is "domain=" followed by the domain. |
| RelationBuilder.SharedContextIff | graph/relation_builder.py:136-139 | The follow-up context test holds exactly when the records share a person or have an equal non-empty domain. |
| RelationBuilder.Distance | graph/relation_builder.py:133 | The distance is the absolute difference of the two instants. |
| RelationBuilder.FollowUpRule | graph/relation_builder.py:128-150 | The FOLLOW_UP edge exists exactly when both anchors exist, their gap is positive and at most 7 days, and the context is shared. It points from the earlier record to the later one, and its reason is the gap in hours. |
| RelationBuilder.BuildPairRelations | graph/relation_builder.py:81-152 | One pair yields at most four edges. |
| RelationBuilder.FollowUpConnects | graph/relation_builder.py:141-149 | A FOLLOW_UP edge joins the two records of its pair. |
| RelationBuilder.AppendRuleEdge | graph/relation_builder.py:81-152 | Appending a rule's optional edge keeps the pair's edges in strictly increasing rule order. |
| RelationBuilder.SameDayEdge | graph/relation_builder.py:84-97 | The SAME_DAY rule contributes at most one pair edge, of rule rank 0. |
| RelationBuilder.SamePersonEdge | graph/relation_builder.py:99-111 | The SAME_PERSON rule contributes at most one pair edge, of rule rank 1. |
| RelationBuilder.SameDomainEdge | graph/relation_builder.py:113-126 | The SAME_DOMAIN rule contributes at most one pair edge, of rule rank 2. |
| RelationBuilder.FollowUpEdge | graph/relation_builder.py:128-150 | The FOLLOW_UP rule contributes at most one pair edge, of rule rank 3. |
| RelationBuilder.FourRuleEdges | graph/relation_builder.py:81-152 | Four rule outcomes of ranks 0 to 3, concatenated, are in strictly increasing rule order. |
| RelationBuilder.PairRelationsRanked | graph/relation_builder.py:81-152 | A pair's edges come in the order of the four rules, each rule at most once. |
| RelationBuilder.PairRelationsShape | graph/relation_builder.py:81-152 | Every edge of a pair is well formed and joins that pair, and no type occurs twice. |
| RelationBuilder.SameDayRuleSymmetric | graph/relation_builder.py:84-97 | Swapping the records leaves the SAME_DAY edge unchanged. |
| RelationBuilder.SamePersonRuleSymmetric | graph/relation_builder.py:99-111 | Swapping the records leaves the SAME_PERSON edge unchanged. |
| RelationBuilder.SameDomainRuleSymmetric | graph/relation_builder.py:113-126 | Swapping the records leaves the SAME_DOMAIN edge unchanged. |
| RelationBuilder.FollowUpRuleSymmetric | graph/relation_builder.py:128-150 | Swapping the records leaves the FOLLOW_UP edge unchanged. |
| RelationBuilder.PairRelationsSymmetric | graph/relation_builder.py:81-152 | Swapping the records leaves the pair's edges, and so their ids, unchanged. |
| RelationBuilder.SameDayOnSameDay | graph/relation_builder.py:84-86 | Records anchored on one UTC day always get a SAME_DAY edge. |
| RelationBuilder.EdgeGrounded | graph/relation_builder.py:158-167 | Every generated edge is well formed, and its endpoints are the ids of records at two distinct positions of the input. |
| RelationBuilder.BuildRelationsProperties | graph/relation_builder.py:155-171 | The result is strictly ascending by (from, to, type), so its keys are unique. Each edge in it is the last generated edge with its key, and every generated key is present. |
| RelationBuilder.BuildRelations | graph/relation_builder.py:155-171 | The nested loop, the dedup dict and the sort compute the specified edge list. |
| RelationBuilder.NameInjective | graph/relation_builder.py:12-15 | The four relation type names are distinct. |
| RelationBuilder.PairTypeSurvives | graph/relation_builder.py:158-171 | The type of any edge generated for a pair appears in the result of build_relations. |
| RelationBuilder.PairHasAllFour | graph/relation_builder.py:84-150 | Two records anchored at different instants of one UTC day, sharing a person and a non-empty domain, trigger all four rules. |
| RelationBuilder.AllFourTypes | tests/graph/test_relation_builder.py:15-53 | When two of the records meet those conditions, build_relations returns edges of all four types. |
| RelationBuilder.RebuildRelations | graph/relation_builder.py:178-185 | The store is replaced by the built edges, and the count returned is their number. |
| StateEngine.Clamp | state/engine.py:14-15 | The clamped value lies in [lo, hi]. It is the value itself when the value is already inside, and the nearer bound otherwise. |
| StateEngine.StateAnchor | state/engine.py:26-27 | The engine's anchor is the first present of start, due, updated, created and end. Updated comes before created here, unlike in the relation rules. |
| StateEngine.RecentObjects | state/engine.py:157-159 | A record is kept exactly when it has an anchor at or after the floor. There is no upper bound, so future records count. |
| StateEngine.CountOverdue | state/engine.py:162-164 | The overdue count is at most the number of records counted. |
| StateEngine.CountUpcoming | state/engine.py:167-171 | The upcoming count is at most the number of records counted. |
| StateEngine.CountOverdueCounts | state/engine.py:162-164 | The overdue count is exactly the number of positions holding a reminder whose due time is before now. |
| StateEngine.CountUpcomingCounts | state/engine.py:167-171 | The upcoming count is exactly the number of positions holding a record whose start (else due) time lies in [now, now + 24 h]. |
| StateEngine.ActiveDomains | state/engine.py:70 | The active domains are exactly the non-blank stripped, lower-cased domains of the records, so there are at most as many as records. |
| StateEngine.DomainKey | state/engine.py:179 | A record's domain key is never empty: a blank domain counts as "general". |
| StateEngine.DomainContextIsMostFrequent | state/engine.py:174-181 | With no records the context is "general". Otherwise it is some record's key, and it beats every other key: it occurs more often, or equally often and sorts first. |
| StateEngine.ResolveDomainContext | state/engine.py:174-181 | The counting loop and the sort by (-count, name) compute the specified domain context. |
| StateEngine.FollowUpCount | state/engine.py:73-85 | The follow-up count over a prefix of the relations is at most the prefix's length. |
| StateEngine.IsCountedFollowUp | state/engine.py:74-85 | One relation is counted exactly when it is a FOLLOW_UP edge with an endpoint among the recent ids, and its created_at is absent, unparseable or at or after the floor. |
| StateEngine.CountFollowUpRelations | state/engine.py:73-85 | The loop counts exactly the relations that pass that test. |
| StateEngine.RatioOfCount | state/engine.py:87-93 | A ratio is 0 when there are no records. Otherwise the ratio times the total is the count, and the ratio lies in [0, 1] when the count is at most the total. |
| StateEngine.WindowFloor | state/engine.py:62-63 | The floor of a window of a non-negative number of days is not after now. |
| StateEngine.Calculate | state/engine.py:53-149 | calculate's filters, loops and score formulas compute the specified snapshot. |
| StateEngine.ScoresInRange | state/engine.py:95-127 | Energy, focus and velocity lie in [0, 100]. The stress probability lies in [0, 1]. |
| StateEngine.CountersBounded | state/engine.py:65-92 | Every counter is at most the recent count, the follow-up count is at most the number of relations, and the context-switch ratio lies in [0, 1]. |
| StateEngine.RatiosOfCounts | state/engine.py:87-93 | With no recent records both ratios are 0 and the context is "general". Otherwise each ratio is its count over the recent count. |
| StateEngine.StressBonus | state/engine.py:118-127 | Stress gets the +0.35 term exactly when the clamped energy is below 35. |
| StateEngine.ExampleDomain | tests/state/test_state_engine.py:8-40 | All three example records have the domain "work". |
| StateEngine.AllRecent | state/engine.py:65 | When every record is recent, the filter keeps them all, in order. |
| StateEngine.ExampleAllRecent | tests/state/test_state_engine.py:8-65 | All three example records are recent. |
| StateEngine.ExampleOverdue | tests/state/test_state_engine.py:8-65 | Exactly one example record, the reminder, is overdue. |
| StateEngine.ExampleUpcoming | tests/state/test_state_engine.py:8-65 | Exactly one example record, the event, lies in the next 24 hours. |
| StateEngine.ExampleActiveDomains | tests/state/test_state_engine.py:8-65 | The example has exactly one active domain, "work". |
| StateEngine.ExampleDomainContext | tests/state/test_state_engine.py:8-65 | The example's domain context is "work". |
| StateEngine.ExampleRelationFields | tests/state/test_state_engine.py:42-52 | The example relation is a FOLLOW_UP edge from co_1 that carries its created_at text. |
| StateEngine.ExampleFollowUp | tests/state/test_state_engine.py:42-65 | The example relation is counted when its created_at does not parse or lies inside the window. |
| StateEngine.RelationTimeHint | state/engine.py:28-31 | `_relation_time_hint` gives no hint when created_at is missing, not a string, or blank; a string created_at is read through StateEngine.HintOfText. |
| StateEngine.HintOfText | state/engine.py:30-38 | The time hint of a string created_at is that text stripped, with "Z" replaced, then parsed. |
| StateEngine.FollowUpCounted | state/engine.py:74-85 | A FOLLOW_UP edge from a recent id, with a hint that is absent or inside the window, is counted. |
| StateEngine.ExampleSnapshot | tests/state/test_state_engine.py:8-65 | The example snapshot has recent=3, overdue=1, upcoming=1, follow_up=1, one active domain, and domain "work". |
| Tally.CountKeys | state/engine.py:177-180 | The counting loop leaves each key's count equal to its number of occurrences, and lists the keys in first-occurrence order. |
| Tally.PickFirst | state/engine.py:181 | One pass over the counted items finds the item that sorts first under (-count, key). |
| Tally.CountAndPick | state/engine.py:177-181 | Counting and then picking gives the most frequent key, the smallest among equals. |
| Tally.MostFrequentIsFirst | state/engine.py:181 | The picked key is some element's key, and it beats every other key. |
| Tally.MostFrequentUnique | state/engine.py:181 | Only one key has that property, so the result does not depend on the dict's item order. |
| Tally.BeatsAsymmetric | state/engine.py:181 | Under (-count, name), no two keys beat each other. |
| Tally.BeatsTransitive | state/engine.py:181 | The order (-count, name) is transitive. |
| AgentMesh.StrItems | agents/mesh.py:90 | Each item is rendered with str(), keeping length and order. |
| AgentMesh.ExtractCanonicalIds | agents/mesh.py:87-95 | No extracted id is blank. |
| AgentMesh.CanonicalIdsFromList | agents/mesh.py:88-90 | A list under "canonical_ids" wins. Its items are kept as str(item), untrimmed and in order, exactly when they are not blank. |
| AgentMesh.CanonicalIdFromSingle | agents/mesh.py:91-95 | Otherwise there is at most one id: "canonical_id" trimmed. The list is empty exactly when that value is absent or blank. |
| AgentMesh.FirstQueryIsFirst | agents/mesh.py:98-103 | The query is the trimmed value of the first of query, text, title and content that holds a non-blank string. It is "" exactly when there is none. |
| AgentMesh.ExtractQueryText | agents/mesh.py:98-103 | The query text is trimmed, and it is empty exactly when none of query, text, title and content holds a non-blank string. |
| AgentMesh.OutcomesOfHandlers | agents/mesh.py:46-62 | The first n agents give one executed outcome per agent that handles the event, in registration order. |
| AgentMesh.DispatchSelectsHandlers | agents/mesh.py:46-62 | dispatch gives one outcome per handling agent, in registration order, and asks no other agent. |
| AgentMesh.OutcomesAligned | agents/mesh.py:51-61 | In the first n outcomes, the results line up with the calls. |
| AgentMesh.DispatchResultsAligned | agents/mesh.py:51-61 | In every outcome there are as many results as calls, and result k is the registry's execute of call k. |
| AgentMesh.ContextAssembly | agents/mesh.py:37-44 | The context carries the state, and the relations of the extracted ids. Vector memory is searched with top_k 5 only for a non-blank query, and the hits are empty otherwise. The available tools are the registered names, sorted and without repeats. |
| AgentMesh.TraceBounded | agents/mesh.py:65-76 | run dispatches at most max_events events, however many events the agents emit. |
| AgentMesh.DefaultRunBounded | agents/mesh.py:65 | With the default max_events of 50, run dispatches at most 50 events. |
| AgentMesh.RunIsDispatchesInOrder | agents/mesh.py:71-72 | run's result is the concatenation of the processed events' dispatches, in processing order. |
| AgentMesh.TraceFifo | agents/mesh.py:66-74 | The queue is FIFO: the events already queued are processed first and in order, whatever is appended behind them, up to the budget. |
| AgentMesh.EmittedSnoc | agents/mesh.py:73-74 | The emitted events of a list of outcomes are collected outcome by outcome. |
| AgentMesh.RunStep | agents/mesh.py:69-75 | One step takes the front event, dispatches it, and appends the emitted events behind the rest of the queue. |
| AgentMesh.LoopStep | agents/mesh.py:69-75 | One loop iteration preserves "outcomes so far + rest of the run = whole run". |
| AgentMesh.Enqueue | agents/mesh.py:73-74 | The queue is extended by each outcome's emitted events, in outcome order. |
| AgentMesh.CreateTaskKey | tools/registry.py:32 | "create_task" is its own registry key. |
| AgentMesh.ExampleExtraction | tests/agents/test_agent_mesh.py:80-88 | The test payload yields its one id and its query. |
| AgentMesh.ExamplePlannerCall | tests/agents/test_agent_mesh.py:80-88 | With one FOLLOW_UP edge and create_task registered, the planner's single call is executed with an ok result. |
| AgentMesh.ExampleDispatch | tests/agents/test_agent_mesh.py:80-88 | The test event gives two outcomes, planner first. The planner's one call has one ok result. |
| AgentMesh.ExampleDispatchNotes | tests/agents/test_agent_mesh.py:80-88 | In that scenario the memory agent reports the vector hits and the one relation edge. |
| AgentMesh.ExampleShape | agents/mesh.py:46-62 | Both built-ins handle RELATION_GRAPH_UPDATED, so dispatch gives the planner's outcome and then the memory agent's. |
| AgentMesh.ExampleContext | agents/mesh.py:37-44 | For one id and a non-blank query, the context holds that id's relations, the top 5 hits and create_task. |
| AgentMesh.BothHandle | agents/mesh.py:46-62 | Two agents that both accept the event give two executed outcomes, in order. |
| AgentMesh.Mesh.constructor | agents/mesh.py:21-34 | A mesh holds the given agents and collaborators. |
| AgentMesh.Mesh.Dispatch | agents/mesh.py:36-63 | On a consistent registry (keys listed once each), dispatch computes the specified outcomes, so the context facts of ContextAssembly apply to the mesh's own registry. |
| AgentMesh.Mesh.Run | agents/mesh.py:65-76 | On a consistent registry, the while loop computes the specified run outcomes and dispatches the specified events. |
| BuiltinAgents.PlanFollowUps | agents/builtin_agents.py:17-49 | The planner's loop computes the specified outcome. |
| BuiltinAgents.PlannerOutcome | agents/builtin_agents.py:17-49 | The planner emits no events, fills in no results and writes one note. It makes tool calls only when create_task is available, and then one per FOLLOW_UP edge. |
| BuiltinAgents.MemoryOutcome | agents/builtin_agents.py:60-68 | The memory agent makes no tool calls, emits no events, and writes four notes. |
| BuiltinAgents.HandleEvent | agents/builtin_agents.py:17-68 | Handling an event gives the specified outcome of that agent. |
| BuiltinAgents.HandledEventTypes | agents/builtin_agents.py:14-58 | The planner handles exactly RELATION_GRAPH_UPDATED and FOLLOW_UP_TRIGGERED. The memory agent handles exactly MEMORY_QUERY, RELATION_GRAPH_UPDATED and STATE_RECALCULATED. |
| BuiltinAgents.FollowUpEdgesMembers | agents/builtin_agents.py:22-24 | The planner's edges are exactly the relations whose relation_type is the string "FOLLOW_UP". |
| BuiltinAgents.PlannerWithoutEdges | agents/builtin_agents.py:25-27 | Without FOLLOW_UP edges the planner makes no calls and writes one note, whatever the tools. |
| BuiltinAgents.PlannerWithoutTool | agents/builtin_agents.py:29-31 | With edges but no create_task tool, the planner makes no calls and writes one note. |
| BuiltinAgents.PlannerQueuesOnePerEdge | agents/builtin_agents.py:33-48 | Otherwise there is one create_task call per edge, in order, with the title "Follow up: from -> to", the reason as details, and the state's domain. The note counts the calls. |
| BuiltinAgents.TaskCallFields | agents/builtin_agents.py:35-46 | A task call's payload holds the title, details and domain built from the edge. |
| BuiltinAgents.MemoryAgentNotes | agents/builtin_agents.py:60-68 | The memory agent makes no calls and writes four notes, starting with the hit count and the edge count. |
| BuiltinAgents.BuiltinsEmitNothing | agents/builtin_agents.py:27-68 | Neither built-in agent emits events or fills in tool results. |
| ToolRegistry.LowerKeepsStripped | tools/registry.py:32 | Lower-casing a trimmed name keeps it trimmed. |
| ToolRegistry.NormalizeNameIdempotent | tools/registry.py:32-41 | Normalising a normalised name changes nothing, so every spelling of a name reaches the same entry. |
| ToolRegistry.ExecuteMissing | tools/registry.py:40-43 | An unknown name gives ok false, no output, and the error "tool not found: " followed by the name as the caller spelled it. |
| ToolRegistry.ExecuteRegistered | tools/registry.py:35-44 | After registering, a call whose name matches up to case and surrounding whitespace runs that executor on the call's payload. |
| ToolRegistry.ExecuteOther | tools/registry.py:35-44 | Registering one name does not change how calls to other names run. |
| ToolRegistry.Registry.constructor | tools/registry.py:28-29 | A new registry is empty. |
| ToolRegistry.Registry.Register | tools/registry.py:31-35 | A name that is blank after trimming is refused and the table is unchanged. Otherwise the normalised key is bound to the executor, only that entry changes, and a new key goes at the end of the key order. |
| ToolRegistry.Registry.HasNormalized | tools/registry.py:37-38 | has gives the same answer for a name and for its normalised form. |
| ToolRegistry.Registry.Has | tools/registry.py:37-38 | In a consistent registry, has answers true exactly when the normalised name is among the registered names. |
| ToolRegistry.Registry.Execute | tools/registry.py:40-44 | For a name that is not registered, execute gives ok false and the error "tool not found: " followed by the name as spelled. |
| ToolRegistry.Registry.ListTools | tools/registry.py:46-47 | The listed tools are exactly the registered keys. The copy is a value, so changing it cannot reach the registry. |
| Providers.GetRelationsAll | agents/providers.py:15-18 | With no ids, every stored relation comes back unchanged and in order. |
| Providers.GetRelations | agents/providers.py:15-25 | The answer is no longer than the store, and every relation in it is a stored relation. |
| Providers.GetRelationsMembers | agents/providers.py:19-25 | With ids, exactly the stored relations whose from or to id is one of them come back. |
| Providers.GetRelationsInOrder | agents/providers.py:20-25 | The answer is a subsequence of the stored relations, in store order. |
| Providers.NullSearchNoHits | agents/providers.py:36-40 | A mesh wired with the null vector memory gives every context empty vector hits. |
| Providers.EmbeddingSearchDelegates | agents/providers.py:32-33 | The embedding memory answers what the indexer's query answers, for the same text and top_k. |
| Providers.EmbeddingSearchHits | agents/providers.py:32-33 | With the embedding memory and a non-blank query, the context holds the indexer's top 5 hits. |
| Providers.StoreStateInRange | agents/providers.py:48-49 | The state computed from the store keeps the engine's score bounds. |
| Indexer.BuildEmbeddingDocumentsSorted | embeddings/indexer.py:25-33 | There is one document per object, ordered by canonical id. |
| Indexer.BuildEmbeddingDocumentsPermutation | embeddings/indexer.py:25-33 | The documents are a permutation of the objects' documents. |
| Indexer.BuildEmbeddingDocumentsMembers | embeddings/indexer.py:26-32 | Each document is some object's id and text, and each object has its document. |
| Indexer.SortedIds | embeddings/indexer.py:25-33 | The ids of the sorted documents are ascending. |
| Sorting.SortByStable | embeddings/indexer.py:33 | `sorted` is stable: for every key, the elements with that key come out in their input order. So documents with a repeated canonical id keep the order of their objects. |
| Indexer.DocumentsReordered | tests/embeddings/test_indexer.py:31-51 | Two records given out of order come back ordered by id. |
| Indexer.PlanErrors | embeddings/indexer.py:44-54 | rebuild refuses with no objects, then with a vector count mismatch, then with an empty first vector, each with its message. It refuses in no other case. |
| Indexer.PlanOk | embeddings/indexer.py:48-57 | A successful rebuild stores one id and one vector per object. The vectors are the model's embedding of the texts, and the report gives the object count and the non-zero dimension. |
| Indexer.PlanIdsSorted | embeddings/indexer.py:48-56 | The stored ids are ascending. |
| Indexer.PlanIdsAligned | embeddings/indexer.py:48-50 | The k-th stored id and the k-th embedded text belong to the same object. |
| Indexer.QueryCases | embeddings/indexer.py:62-66 | A model that yields no vectors makes the query empty. Otherwise the store is searched with the first vector and top_k. |
| Indexer.QueryWith | embeddings/indexer.py:62-66 | A model that yields no vectors makes the query empty, whatever the store holds. |
| Indexer.FakeSearch | tests/embeddings/test_indexer.py:10-28 | The tests' store returns the ids of `canonical_ids[:top_k]`, each with score 1.0: the first min(top_k, len) ids for a non-negative top_k, and all but the last -top_k ids (none when that exceeds the length) for a negative one. |
| Indexer.FakeSearchNegative | tests/embeddings/test_indexer.py:26-28 | With ids ["co_1", "co_2"] and top_k = -1 the tests' store returns [("co_1", 1.0)], as the Python slice does. |
| Indexer.FakeStoreFindsSmallestId | tests/embeddings/test_indexer.py:31-85 | Rebuilding from two records given out of order succeeds with indexed count 2 and the ids sorted (the sorting test), and a top_k = 1 search finds the record with the smaller id (the query half of the rebuild-and-query test). The vector dimension of 3 is not stated, because the embedding model is abstract. |
| Indexer.VectorStore.constructor | embeddings/vector_store.py:1-12 | A new store is empty. |
| Indexer.VectorStore.Rebuild | embeddings/vector_store.py:1-12 | Rebuilding replaces the store's ids and vectors. |
| Indexer.EmbeddingIndexer.constructor | embeddings/indexer.py:39-41 | The indexer holds the given model and store. |
| Indexer.EmbeddingIndexer.Rebuild | embeddings/indexer.py:43-57 | When a check fails, rebuild returns its error and leaves the store as it was. Otherwise the store receives the sorted ids and their vectors, and the report describes them. |
| StructuredText.DedupLoop | embeddings/structured_text.py:9-19 | The loop over the people computes the specified deduplicated list. |
| StructuredText.DedupStep | embeddings/structured_text.py:11-19 | One iteration appends the trimmed entry unless it is blank or its key was seen, and appending it adds its key. |
| StructuredText.DedupSnoc | embeddings/structured_text.py:11-19 | Deduplicating one more entry appends it unless it is blank or its key was seen. |
| StructuredText.KeySetSnoc | embeddings/structured_text.py:18 | Appending a name adds exactly its key to the seen set. |
| StructuredText.NormalizePeople | embeddings/structured_text.py:8-20 | `_normalize_people` computes the specified sorted list. |
| StructuredText.DedupGrows | embeddings/structured_text.py:11-19 | Each step adds at most the key of the new entry to the seen set. |
| StructuredText.DedupCovers | embeddings/structured_text.py:11-19 | Every non-blank entry is represented by a kept name with its key. |
| StructuredText.DedupDistinct | embeddings/structured_text.py:15-18 | No two kept names have the same lower-case key. |
| StructuredText.DedupSpellings | embeddings/structured_text.py:12-19 | Every kept name is non-empty, and it is the first spelling of its key. |
| StructuredText.NormalizedPeopleFacts | embeddings/structured_text.py:8-20 | The people are non-empty, trimmed first spellings, strictly ascending by lower-case form (so without case-insensitive repeats), and every non-blank input is represented. |
| StructuredText.DedupOne | embeddings/structured_text.py:11-19 | A trimmed, non-blank first name is kept, and its key is the only one seen. |
| StructuredText.DedupRepeat | embeddings/structured_text.py:15-17 | A second spelling of a seen name is dropped. |
| StructuredText.DedupThree | embeddings/structured_text.py:11-19 | Two spellings of one name followed by another name leave the first spelling and the other name. |
| StructuredText.CaseVariantsCollapse | tests/embeddings/test_structured_text.py:5-22 | For Sam/sam/Lee-shaped input, the result is Lee then Sam, joined with ", ". |
| StructuredText.EmbeddingTextLines | embeddings/structured_text.py:23-34 | The text is exactly the title, content, people and domain lines, in that order, separated by newlines. |
| StructuredText.JoinFour | embeddings/structured_text.py:27-34 | Joining four lines puts the separator between each pair. |
| StructuredText.EmbeddingTextUsesFourFields | embeddings/structured_text.py:24-34 | Records that agree on title, content, people and domain embed alike, whatever their labels, ids, sources or timestamps. |
| StructuredText.NoPeopleBlob | embeddings/structured_text.py:26 | Without people, the people value is empty. |
| CanonicalSchema.StripAll | core/canonical_schema.py:12-25 | Every string of a list is stripped, keeping length and order. |
| CanonicalSchema.Create | core/canonical_schema.py:9-26 | Construction succeeds exactly when the three identifying fields are non-blank after stripping. The record is then valid and holds every string stripped. |
| CanonicalSchema.DefaultsHold | core/canonical_schema.py:17-26 | By default, title and content are "", domain is "general", the lists are empty, and the five timestamps are absent. |
| CanonicalSchema.CreateValidIsIdentity | core/canonical_schema.py:9-26 | Validating a valid record again gives the same record. |
| CanonicalSchema.StripAllOfStripped | core/canonical_schema.py:12 | A list of trimmed strings is unchanged by stripping. |
| CanonicalSchema.CreateOfStripped | core/canonical_schema.py:12-16 | Trimmed values with non-blank identifiers pass validation unchanged. |
| DeterministicId.HexDigits | core/deterministic_id.py:19-20 | The digest text has the requested width and only hex digits. |
| DeterministicId.Escape | core/deterministic_id.py:8-9 | The ensure_ascii escaping yields printable ASCII only. |
| DeterministicId.StableJsonOrderIndependent | core/deterministic_id.py:8-9 | Because keys are sorted, the order in which a payload's fields are written does not change the stable JSON. |
| DeterministicId.DistinctKeysStrict | core/deterministic_id.py:9 | Distinct field names, once sorted, are strictly ascending. |
| DeterministicId.HashText | core/deterministic_id.py:19-20 | The digest is below 16^24. |
| DeterministicId.Digest24 | core/deterministic_id.py:19-20 | The digest prefix is 24 hex digits. |
| DeterministicId.PrefixedId | core/deterministic_id.py:20 | A prefixed id is the prefix followed by 24 hex digits. |
| DeterministicId.HexNotSpace | core/deterministic_id.py:19-20 | A hex digit is not whitespace. |
| DeterministicId.PrefixedIdStripped | core/deterministic_id.py:20 | A prefixed id is non-blank and has no surrounding whitespace. |
| DeterministicId.MakeCanonicalId | core/deterministic_id.py:12-20 | A canonical id is "co_" followed by 24 hex digits. Being a function of its inputs, the same source fields always give the same id. |
| DeterministicId.CanonicalIdStripped | core/deterministic_id.py:12-20 | A canonical id is non-blank and trimmed, so the schema keeps it as it is. |
| Json.Keys | ingestion/export_loader.py:20-23 | A dict's keys are listed once each, and they are exactly its bound names. |
| Json.Get | ingestion/notes_mapper.py:15 | d.get(k) is None for a missing key, and otherwise the key's last binding. |
| Json.GetShadow | ingestion/notes_mapper.py:15 | A later binding of a key shadows every earlier one. |
| Json.GetOther | ingestion/notes_mapper.py:15 | Binding another key leaves a lookup unchanged. |
| Json.GetLast | ingestion/notes_mapper.py:15 | A binding with no later binding of its key is the one returned. |
| Json.Or | ingestion/notes_mapper.py:27 | `a or b` is a when a is truthy and b otherwise. It is truthy exactly when one of them is. |
| Json.OrChain | ingestion/notes_mapper.py:14-22 | An or-chain gives the first truthy operand, or the last operand when none is truthy. |
| Json.GetFirst | ingestion/notes_mapper.py:14-22 | A chain of lookups gives the first truthy field value, or the fallback when none is truthy. |
| Json.StrOfString | ingestion/common.py:39 | str() of a string is the string itself. |
| Json.StrOfNone | normalize/canonical_event.py:197 | str(None) is "None". |
| Json.Iterate | ingestion/common.py:36 | A for loop visits a list's items or a string's characters. It raises TypeError on None, booleans and numbers. |
| Json.DictsOf | ingestion/export_loader.py:18 | The dict elements of a list are exactly its dict items, no more than the list's length. |
| Json.DictsOfSnoc | ingestion/export_loader.py:18 | The comprehension over one more item adds it exactly when it is a dict. |
| Json.DictsOfIsFilter | ingestion/export_loader.py:18 | The comprehension keeps exactly the dict elements. |
| Json.DictsOfInOrder | ingestion/export_loader.py:18 | The dict elements keep their list order. |
| Timestamps.ParseIsoText | ingestion/common.py:19-30 | Blank text has no instant. |
| Timestamps.OffsetConversion | ingestion/common.py:25-28 | An explicit offset converts local time to UTC by subtracting it from a naive time, which is read as UTC. |
| Timestamps.ZuluSuffix | ingestion/common.py:23 | A trailing "Z" denotes the same instant as the naive text read as UTC. |
| Timestamps.UtcOffsetIsZero | ingestion/common.py:23 | "+00:00" is a zero offset. |
| Timestamps.DayBounds | graph/relation_builder.py:66 | An instant lies within its UTC day. |
| IngestionCommon.ParseDateTimeAbsent | ingestion/common.py:7-31 | None, blank strings, lists and dicts have no instant. |
| IngestionCommon.ParseDateTime | ingestion/common.py:7-31 | A value has no instant exactly when it is None, a list, a dict, or a string the ISO parser rejects. An integer at or below the millisecond threshold is that many epoch seconds. |
| IngestionCommon.ParseDateTimeMillis | ingestion/common.py:14-18 | A number above 10,000,000,000 is read as epoch milliseconds. The model floors instants to whole seconds, so a millisecond value and its count of whole seconds agree here. |
| IngestionCommon.ParseDateTimeSeconds | tests/api/test_pipeline_runner.py:6-10 | The test's epoch value is read as UTC seconds. |
| IngestionCommon.NormalizeStringListSnoc | ingestion/common.py:36-41 | One more element appends its trimmed text exactly when it is kept. |
| IngestionCommon.NormalizeStrings | ingestion/common.py:34-42 | The loop computes the specified list. |
| IngestionCommon.NormalizeStringListIsFilter | ingestion/common.py:34-42 | The list is the trimmed text of the elements that are not None and not blank, one each, in input order. |
| IngestionCommon.NormalizeStringListShape | ingestion/common.py:34-42 | The list is no longer than its input, and every element is non-empty and trimmed. |
| IngestionCommon.KeptText | ingestion/common.py:39-41 | A trimmed, non-blank string is kept as it is. |
| IngestionCommon.NormalizeStringListMembers | ingestion/common.py:34-42 | A text is listed exactly when some kept element has that trimmed text. |
| IngestionCommon.TextOrDefault | ingestion/notes_mapper.py:31 | `str(... or fallback).strip() or fallback` is never blank when the fallback is not. |
| IngestionCommon.TextOrDefaultAbsent | ingestion/notes_mapper.py:31 | With no truthy key, the fallback is used. |
| IngestionCommon.TextOrDefaultFirst | ingestion/notes_mapper.py:31 | A non-blank string under the first key is used, trimmed. |
| IngestionCommon.StringListOrCases | ingestion/notes_mapper.py:29-30 | With no truthy key the list is empty. A list value is normalised element by element. |
| IngestionCommon.MapAllCases | ingestion/notes_mapper.py:47-48 | A comprehension over a mapper succeeds exactly when every element maps, and then keeps length and order. Otherwise it fails with the first failure. |
| IngestionCommon.TextOrStripped | ingestion/notes_mapper.py:27-28 | The strings handed to the schema are trimmed. |
| IngestionCommon.TextOrDefaultStripped | ingestion/notes_mapper.py:31 | A defaulted string is trimmed. |
| IngestionCommon.StringListStripped | ingestion/common.py:39-41 | A normalised list holds trimmed strings only. |
| NotesMapper.SourceNoteIdCases | ingestion/notes_mapper.py:13-22 | The source id is the first truthy of id, note_id, identifier, uuid, title and created, rendered as text, and otherwise "unknown_note". |
| NotesMapper.MapNoteFails | ingestion/notes_mapper.py:29-30 | A note maps exactly when its tags and people can be iterated. A failure over the tags is the one reported. |
| NotesMapper.MapNote | ingestion/notes_mapper.py:25-44 | A mapped note is a valid canonical record, and mapping succeeds only when the tags and people can be iterated. |
| NotesMapper.MapNoteFields | ingestion/notes_mapper.py:25-44 | The record has the id derived from the source id, the note source and type, trimmed title and content, only the created and updated instants, the normalised people and labels, "notes" as the fallback domain, and it is valid. |
| NotesMapper.SourceNamesStripped | ingestion/notes_mapper.py:9-10 | The source name and record type are non-blank and trimmed. |
| NotesMapper.CreateOfMapped | ingestion/notes_mapper.py:33-44 | The schema accepts the mapped fields unchanged. |
| NotesMapper.MappedFieldsStripped | ingestion/notes_mapper.py:27-31 | Every string the mapper produces is trimmed. |
| NotesMapper.FolderIsDomain | tests/ingestion/test_mappers.py:6-20 | A non-blank "folder" string becomes the domain, trimmed. |
| CalendarMapper.SourceEventIdCases | ingestion/calendar_mapper.py:13-21 | The source id is the first truthy of id, event_id, iCalUID, summary and created, and otherwise "unknown_event". |
| CalendarMapper.ExtractEventTimeCases | ingestion/calendar_mapper.py:24-27 | A dict time is read from "dateTime", falling back to "date". Any other value is parsed directly. |
| CalendarMapper.ExtractEventTimeMissing | ingestion/calendar_mapper.py:24-27 | A dict with neither key has no instant. |
| CalendarMapper.AttendeesMembers | ingestion/calendar_mapper.py:34-40 | A person is listed exactly when some dict attendee's e-mail is kept, with that trimmed text. None and blank e-mails are skipped. |
| CalendarMapper.EmailsMembers | ingestion/calendar_mapper.py:35-39 | The e-mail values are exactly those of the dict attendees. |
| CalendarMapper.TwoAttendees | tests/ingestion/test_mappers.py:23-36 | Two attendees with addresses become the people, in attendee order. |
| CalendarMapper.NormalizeTwoTexts | ingestion/common.py:34-42 | Two trimmed, non-blank strings are kept as they are. |
| CalendarMapper.TwoEmails | ingestion/calendar_mapper.py:35-39 | The e-mail values of two dict attendees are their addresses, in order. |
| CalendarMapper.MapEventFails | ingestion/calendar_mapper.py:34-41 | An event maps exactly when its attendees and labels can be iterated. A failure over the attendees is the one reported. |
| CalendarMapper.MapEvent | ingestion/calendar_mapper.py:30-57 | A mapped event is a valid canonical record, and mapping succeeds only when the attendees and labels can be iterated. |
| CalendarMapper.MapEventFields | ingestion/calendar_mapper.py:30-57 | The record has the id derived from the source id, type "event", trimmed title and content, start and end through the time extraction, no due instant, the created and updated instants, the people and labels, "calendar" as the fallback domain, and it is valid. |
| CalendarMapper.SourceNamesStripped | ingestion/calendar_mapper.py:9-10 | The source name and record type are non-blank and trimmed. |
| CalendarMapper.CreateOfMapped | ingestion/calendar_mapper.py:44-57 | The schema accepts the mapped fields unchanged. |
| CalendarMapper.MappedFieldsStripped | ingestion/calendar_mapper.py:32-42 | Every string the mapper produces is trimmed. |
| RemindersMapper.SourceReminderIdCases | ingestion/reminders_mapper.py:13-22 | The source id is the first truthy of id, reminder_id, identifier, uuid, title and createdDate, and otherwise "unknown_reminder". |
| RemindersMapper.MapReminderFails | ingestion/reminders_mapper.py:29-30 | A reminder maps exactly when its tags and assignees can be iterated. A failure over the tags is the one reported. |
| RemindersMapper.MapReminder | ingestion/reminders_mapper.py:25-45 | A mapped reminder is a valid canonical record, and mapping succeeds only when the tags and assignees can be iterated. |
| RemindersMapper.MapReminderFields | ingestion/reminders_mapper.py:25-45 | The record has the id derived from the source id, type "reminder", no start or end, due from dueDate or due_at, the created and updated instants, people from assignees or people, "tasks" as the fallback domain, and it is valid. |
| RemindersMapper.SourceNamesStripped | ingestion/reminders_mapper.py:9-10 | The source name and record type are non-blank and trimmed. |
| RemindersMapper.CreateOfMapped | ingestion/reminders_mapper.py:33-45 | The schema accepts the mapped fields unchanged. |
| RemindersMapper.MappedFieldsStripped | ingestion/reminders_mapper.py:27-31 | Every string the mapper produces is trimmed. |
| RemindersMapper.ListIsDomain | tests/ingestion/test_mappers.py:39-50 | A non-blank "list" string becomes the domain, trimmed. |
| RemindersMapper.DueDateIsDue | tests/ingestion/test_mappers.py:39-50 | A "dueDate" string is parsed into the due instant. |
| ExportLoader.FirstListCases | ingestion/export_loader.py:20-23 | The key loop finds nothing exactly when no preferred key holds a list. Otherwise it stops at the first key that does. |
| ExportLoader.AsRecordsFails | ingestion/export_loader.py:25 | Only a scalar payload is refused, with its type in the message. |
| ExportLoader.AsRecords | ingestion/export_loader.py:13-25 | as_records raises exactly for a scalar payload. A list payload gives at most as many records as it has items. |
| ExportLoader.AsRecordsNone | ingestion/export_loader.py:15-16 | A missing payload has no records. |
| ExportLoader.AsRecordsList | ingestion/export_loader.py:17-18 | A list payload gives exactly its dict elements, in order. |
| ExportLoader.AsRecordsWrapped | ingestion/export_loader.py:19-23 | A dict payload gives the dict elements of the first list under a preferred key, in order. |
| ExportLoader.AsRecordsSingle | ingestion/export_loader.py:24 | A dict without such a list is itself the one record. |
| PipelineRunner.DedupeCanonicalObjects | api/pipeline_runner.py:64-70 | The dict loop computes the last-write-wins list in first-occurrence order. |
| PipelineRunner.DedupeProperties | api/pipeline_runner.py:64-70 | The ids are pairwise distinct and in first-occurrence order. Each kept object is the last input object with its id, and every input id is kept. |
| PipelineRunner.DedupeKeepsLast | api/pipeline_runner.py:67-69 | No later input object has a kept object's id. |
| PipelineRunner.DedupeDistinct | api/pipeline_runner.py:64-70 | Objects with distinct ids come through unchanged. |
| PipelineRunner.MapPayloadsLengths | api/pipeline_runner.py:41-47 | Each mapped list has one record per dict record of its payload. |
| PipelineRunner.Run | api/pipeline_runner.py:32-62 | A run fails exactly when reducing or mapping a payload fails. Otherwise the same deduplicated list is upserted and used for the relation rebuild. The report counts the mapped lists, the deduplicated objects (at most their sum) and the stored relations. |
| PairScan.StorePairs | graph/relation_builder.py:158-167 | The nested pair loop leaves the dict holding, per key, the last item generated in loop order. |
| PairScan.AllItemsOrigin | graph/relation_builder.py:158-160 | Every generated item comes from a pair of positions i < j. |
| PairScan.AllItemsComplete | graph/relation_builder.py:158-160 | Every item of every pair i < j is generated. |
| PairScan.RowItemsOrigin | graph/relation_builder.py:159-160 | Every item of a row comes from a later partner. |
| PairScan.RowItemsComplete | graph/relation_builder.py:159-160 | Every partner's items are in the row. |
| CanonicalEvent.FirstPresentCases | normalize/canonical_event.py:43-62 | The key loop finds nothing exactly when every key is missing or None. Otherwise it stops at the first key holding something. |
| CanonicalEvent.PickStringKeepsEmpty | normalize/canonical_event.py:43-51 | An empty string stops `_pick_string`, whereas the mappers' or-chains skip it. |
| CanonicalEvent.Strs | normalize/canonical_event.py:60 | Each item is rendered with str(), keeping length and order. |
| CanonicalEvent.PickListOfStringsCases | normalize/canonical_event.py:54-62 | A list is stringified item by item, a scalar becomes a singleton, and absence gives []. |
| CanonicalEvent.RecordsFromPayloadCases | normalize/canonical_event.py:65-75 | A list gives its dict elements, in order. A dict gives the dicts of the list under its key. Anything else gives []. |
| CanonicalEvent.DigitCharCode | normalize/canonical_event.py:86 | A digit prints as its character. |
| CanonicalEvent.NatToStringInjective | normalize/canonical_event.py:86 | Distinct indexes print differently. |
| CanonicalEvent.EventIdsByIndexDiffer | normalize/canonical_event.py:86-162 | Records without a source id get distinct ids from their positions. |
| CanonicalEvent.EventIdsCanCollide | normalize/canonical_event.py:86-162 | The index fallback can meet a real source id: source id "3" and the record at position 3 with no id share an id. |
| CanonicalEvent.ReminderStatusCases | normalize/canonical_event.py:115-131 | A non-empty explicit status wins. Otherwise the status is "completed" exactly when the flag reads "true", "True" or "1", and "open" else. |
| CanonicalEvent.CompletedFlag | normalize/canonical_event.py:115-116 | A boolean true flag counts as completed, since str(True) is "True". |
| CanonicalEvent.ParticipantsOfSnoc | normalize/canonical_event.py:152-158 | One more attendee appends its contribution, if any. |
| CanonicalEvent.CollectParticipants | normalize/canonical_event.py:149-158 | The attendee loop computes the specified participants. |
| CanonicalEvent.ParticipantsOfMembers | normalize/canonical_event.py:149-158 | There is at most one participant per attendee, and a name is listed exactly when some attendee contributes it: a dict its e-mail or display name, another non-None value its str(). |
| CanonicalEvent.NormalizeAppleNotes | normalize/canonical_event.py:78-106 | The notes loop computes the specified records. |
| CanonicalEvent.NormalizeAppleReminders | normalize/canonical_event.py:109-140 | The reminders loop computes the specified records. |
| CanonicalEvent.NormalizeGoogleCalendar | normalize/canonical_event.py:143-182 | The calendar loop computes the specified records. |
| CanonicalEvent.NormalizeRawDocument | normalize/canonical_event.py:185-199 | A document fails exactly when its source is not one of the three, with "Unsupported source: " and the source. Otherwise it gives that source's records. |
| CanonicalEvent.NormalizedShape | normalize/canonical_event.py:78-182 | There is one record per dict record, in payload order, each with the document's source and an id under that source's prefix. |

## Left out

- SHA-256 is not modelled. `DeterministicId.HashText` is a stand-in: a deterministic 24-hex-digit function of the stable JSON text. The model relies only on determinism, the prefix, the length and the hex alphabet, so collision-freedom is neither claimed nor proved.
- RelationBuilder.Relation.Id: the relation id is derived from (from, to, type, reason) rather than stored as a field. Every edge the builder creates has exactly that id, so nothing is lost.
- Clocks are parameters. The engine's `now` and the state provider's `datetime.now()` (`agents/providers.py:48-49`) are passed in. The mesh holds one snapshot for the whole run, where the source asks the state provider again for each dispatch.
- `make_event` (`agents/mesh.py:79-84`) only stamps the wall-clock time, so it is not modelled. Events are built directly with their `emittedAt`.
- Timestamps.ParseIsoText: only a subset of `datetime.fromisoformat` is parsed: `YYYY-MM-DD`, optionally followed by `T` or a space, `HH:MM[:SS[.fraction]]` and a `±HH:MM` offset. Fractions of a second are dropped. Other forms that Python accepts are read as absent.
- IngestionCommon.ParseDateTime: epoch milliseconds and fractional epoch seconds are floored to whole seconds, where Python keeps the fraction, so differences below one second are lost. This shows in the FOLLOW_UP rule's strict `timedelta(0) < delta` test (`graph/relation_builder.py:138`): two records 0.8 s apart that share a person get an edge in Python and none in the model. `datetime`-typed inputs are not modelled, since JSON payloads never hold them. An epoch value too large for `datetime.fromtimestamp` raises in Python but is accepted here.
- Floating point is modelled as Dafny `real`. IEEE rounding is not modelled. The "%.2f" (`delta_hours`) and "%.3f" (`stress_probability`) renderings round half up on the exact value.
- `strip()` removes space, tab, line feed, carriage return, vertical tab, form feed, the separators 0x1C–0x1F, NEL (0x85) and no-break space (0xA0). It does not remove the other Unicode whitespace that Python strips (such as U+2028 or U+3000). `lower()` acts on ASCII letters only. `str()` of floats and of list/dict values is simplified: quotes in the elements are not escaped.
- The SQLite store (`storage/sqlite_store.py`) is replaced by sequences: schema creation, upsert and fetch are not modelled. The fetch order is taken as given, and `db_path` is a parameter of the pipeline run.
- Telemetry (timing and JSONL logging) is not modelled.
- The embedding model and the vector store are abstract functions. Tool executors (`tools/builtin_tools.py`) are abstract total functions from payload to result.
- `CanonicalEvent.to_dict` / `asdict` is not modelled: the normaliser returns the records themselves.
- `load_json_file`, `normalize_raw_file`, `run_pipeline_from_files`, the CLI runners and the file ingesters are file I/O and are not modelled.
- Python's agent protocol (any object with `handles`/`handle`) becomes a datatype. It holds the two built-ins plus a `Custom` agent made of two functions, so agents hold no mutable state.
- RelationBuilder.RebuildRelations: the `objects=None` path of `rebuild_and_store_relations` (`graph/relation_builder.py:179-180`), which fetches the records from the store, is not modelled; the method always takes the records.
- RelationBuilder.AllFourTypes: the test's concrete records are not evaluated. The lemma proves the general condition they meet: two records anchored at different instants of one UTC day, sharing a person and a non-empty domain.
