/** The memory and state providers the agent mesh is wired with: a graph
    memory answering which stored relations touch a set of records, a
    vector memory that either finds nothing or asks the embedding indexer,
    and a state provider computing the snapshot from everything stored. */
module Providers {
  import opened Json
  import opened Collections
  import opened CanonicalSchema
  import opened StateEngine
  import opened Indexer
  import opened AgentContracts
  import opened AgentMesh

  /** The records and relations the store holds, in the order it returns
      them. */
  datatype Store = Store(objects: seq<CanonicalObject>, relations: seq<Fields>)

  function Wanted(canonicalIds: seq<string>): set<string> {
    set id | id in canonicalIds
  }

  /** str(relation.get("from_canonical_id")) in wanted or
      str(relation.get("to_canonical_id")) in wanted */
  predicate Touches(wanted: set<string>, rel: Fields) {
    Str(Get(rel, "from_canonical_id")) in wanted || Str(Get(rel, "to_canonical_id")) in wanted
  }

  function TouchesAny(wanted: set<string>): Fields -> bool {
    rel => Touches(wanted, rel)
  }

  /** SQLiteGraphMemoryProvider.get_relations */
  function GetRelations(store: Store, canonicalIds: seq<string>): (r: seq<Fields>)
    ensures |r| <= |store.relations|
    ensures forall rel :: rel in r ==> rel in store.relations
  {
    if canonicalIds == [] then store.relations
    else Filter(store.relations, TouchesAny(Wanted(canonicalIds)))
  }

  /** Without ids every stored relation comes back, unchanged and in order. */
  lemma GetRelationsAll(store: Store)
    ensures GetRelations(store, []) == store.relations
  {
  }

  /** With ids, exactly the stored relations whose source or target is one
      of them come back. */
  lemma GetRelationsMembers(store: Store, canonicalIds: seq<string>, rel: Fields)
    requires canonicalIds != []
    ensures rel in GetRelations(store, canonicalIds)
        <==> rel in store.relations
             && (exists id :: id in canonicalIds
                   && (Str(Get(rel, "from_canonical_id")) == id || Str(Get(rel, "to_canonical_id")) == id))
  {
    var wanted := Wanted(canonicalIds);
    if Touches(wanted, rel) {
      if Str(Get(rel, "from_canonical_id")) in wanted {
        var id := Str(Get(rel, "from_canonical_id"));
        assert id in canonicalIds;
      } else {
        var id := Str(Get(rel, "to_canonical_id"));
        assert id in canonicalIds;
      }
    }
  }

  /** The answer is a subsequence of the stored relations: they keep their
      store order. */
  lemma GetRelationsInOrder(store: Store, canonicalIds: seq<string>)
    ensures exists idx :: Embeds(GetRelations(store, canonicalIds), store.relations, idx)
  {
    if canonicalIds == [] {
      var rs := store.relations;
      var idx := seq(|rs|, k requires 0 <= k < |rs| => k);
      assert GetRelations(store, canonicalIds) == rs;
      assert Embeds(rs, rs, idx);
    } else {
      var p := TouchesAny(Wanted(canonicalIds));
      FilterInOrder(store.relations, p);
      assert Embeds(GetRelations(store, canonicalIds), store.relations, FilterIndices(store.relations, p));
    }
  }

  /** NullVectorMemoryProvider.search */
  function NullSearch(text: string, topK: int): seq<(string, real)> {
    []
  }

  /** A mesh wired with the null vector memory gives every agent an empty
      list of vector hits, whatever the event asks for. */
  lemma NullSearchNoHits(env: Env, e: AgentEvent)
    requires env.search == NullSearch
    ensures ContextOf(env, e).vectorHits == []
  {
  }

  /** EmbeddingVectorMemoryProvider.search, as the function the mesh calls:
      the indexer's query against the store's current contents. */
  function EmbeddingSearch(indexer: EmbeddingIndexer): (string, int) -> seq<(string, real)>
    reads indexer.store
  {
    var model, search := indexer.model, indexer.store.Searcher();
    (text: string, topK: int) => QueryWith(model, search, text, topK)
  }

  /** The embedding vector memory answers exactly what the indexer's query
      answers for the same text and top_k. */
  lemma EmbeddingSearchDelegates(indexer: EmbeddingIndexer, text: string, topK: int)
    ensures EmbeddingSearch(indexer)(text, topK) == indexer.Query(text, topK)
  {
  }

  /** A mesh wired with the embedding vector memory gives the agents the
      indexer's top five hits for a non-blank query. */
  lemma EmbeddingSearchHits(env: Env, indexer: EmbeddingIndexer, e: AgentEvent)
    requires env.search == EmbeddingSearch(indexer)
    requires ExtractQueryText(e.payload) != []
    ensures ContextOf(env, e).vectorHits == indexer.Query(ExtractQueryText(e.payload), 5)
  {
    EmbeddingSearchDelegates(indexer, ExtractQueryText(e.payload), TopK);
  }

  /** StoreBackedStateProvider.get_state: the engine's snapshot of
      everything stored, at the given instant. */
  function StoreState(store: Store, now: int, config: Config): Snapshot {
    Calc(store.objects, store.relations, now, config)
  }

  /** The state the mesh receives from the store keeps the engine's
      bounds. */
  lemma StoreStateInRange(store: Store, now: int, config: Config)
    ensures var s := StoreState(store, now, config);
      0.0 <= s.energyLevel <= 100.0 && 0.0 <= s.focusIndex <= 100.0
      && 0.0 <= s.executionVelocity <= 100.0 && 0.0 <= s.stressProbability <= 1.0
  {
    ScoresInRange(store.objects, store.relations, now, config);
  }
}
