/** The embedding indexer: every canonical record becomes a document (its id
    and its structured text), the documents are ordered by id, their texts
    are embedded by a model, and the ids and vectors replace the contents of
    a vector store, unless one of the indexer's checks fails. */
module Indexer {
  import opened Wrappers
  import opened Text
  import opened Collections
  import opened Sorting
  import opened CanonicalSchema
  import opened StructuredText

  datatype IndexedDocument = IndexedDocument(canonicalId: string, text: string)

  datatype IndexReport = IndexReport(indexedCount: nat, vectorDimension: nat)

  type Vector = seq<real>

  /** EmbeddingModel.embed_texts: one vector per text, in any case a list
      of lists; nothing about its length is assumed. */
  type EmbeddingModel = seq<string> -> seq<Vector>

  /** VectorStore.search over the store's contents. */
  type SearchFn = (seq<string>, seq<Vector>, Vector, int) -> seq<(string, real)>

  const NoObjectsError := "No canonical objects available to index"
  const CountMismatchError := "Embedding model returned vector count mismatch"
  const EmptyVectorsError := "Embedding model returned empty vectors"

  function DocumentOf(o: CanonicalObject): IndexedDocument {
    IndexedDocument(o.canonicalId, EmbeddingText(o))
  }

  /** The documents in the order of the objects, before sorting. */
  function Documents(objects: seq<CanonicalObject>): seq<IndexedDocument> {
    seq(|objects|, i requires 0 <= i < |objects| => DocumentOf(objects[i]))
  }

  function DocKey(d: IndexedDocument): seq<string> {
    [d.canonicalId]
  }

  /** build_embedding_documents */
  function BuildEmbeddingDocuments(objects: seq<CanonicalObject>): seq<IndexedDocument> {
    SortBy(Documents(objects), DocKey)
  }

  function Texts(docs: seq<IndexedDocument>): seq<string> {
    seq(|docs|, i requires 0 <= i < |docs| => docs[i].text)
  }

  function Ids(docs: seq<IndexedDocument>): seq<string> {
    seq(|docs|, i requires 0 <= i < |docs| => docs[i].canonicalId)
  }

  /** One document per object, ordered by canonical id (stably, as
      Python's sorted). */
  lemma BuildEmbeddingDocumentsSorted(objects: seq<CanonicalObject>)
    ensures |BuildEmbeddingDocuments(objects)| == |objects|
    ensures SortedBy(BuildEmbeddingDocuments(objects), DocKey)
  {
    SortBySorted(Documents(objects), DocKey);
  }

  /** Every object's document is present as many times as the object
      occurs. */
  lemma BuildEmbeddingDocumentsPermutation(objects: seq<CanonicalObject>)
    ensures multiset(BuildEmbeddingDocuments(objects)) == multiset(Documents(objects))
  {
    SortByPermutation(Documents(objects), DocKey);
  }

  /** Each document is the id and text of some object, and each object has
      its document. */
  lemma BuildEmbeddingDocumentsMembers(objects: seq<CanonicalObject>)
    ensures forall d :: d in BuildEmbeddingDocuments(objects) <==> exists o :: o in objects && d == DocumentOf(o)
  {
    var unsorted := Documents(objects);
    SortByElements(unsorted, DocKey);
    ImageMembers(objects, DocumentOf, unsorted);
  }

  /** The ids of the sorted documents are ascending. */
  lemma SortedIds(docs: seq<IndexedDocument>)
    requires SortedBy(docs, DocKey)
    ensures var ids := Ids(docs);
      forall i, j :: 0 <= i < j < |ids| ==> !StrLess(ids[j], ids[i])
  {
    var ids := Ids(docs);
    forall i, j | 0 <= i < j < |ids| ensures !StrLess(ids[j], ids[i]) {
      assert KeyLessEq(DocKey(docs[i]), DocKey(docs[j]));
      SingletonKeyLess(ids[j], ids[i]);
    }
  }

  /** Two records given out of order come back ordered by id. */
  lemma DocumentsReordered(a: CanonicalObject, b: CanonicalObject)
    requires StrLess(a.canonicalId, b.canonicalId)
    ensures BuildEmbeddingDocuments([b, a]) == [DocumentOf(a), DocumentOf(b)]
  {
    var da, db := DocumentOf(a), DocumentOf(b);
    var unsorted := Documents([b, a]);
    assert unsorted == [db, da];
    assert unsorted[1..] == [da] && unsorted[1..][1..] == [];
    SingletonKeyLess(a.canonicalId, b.canonicalId);
    assert KeyLess(DocKey(da), DocKey(db));
    assert SortBy([da], DocKey) == Insert(da, [], DocKey) == [da];
    assert [da][1..] == [];
    assert Insert(db, [da], DocKey) == [da] + Insert(db, [], DocKey);
  }

  /** What a successful rebuild writes into the store. */
  datatype IndexPlan = IndexPlan(ids: seq<string>, vectors: seq<Vector>)

  /** The checks of EmbeddingIndexer.rebuild, in their order, and the ids
      and vectors it hands to the store when they all pass. */
  function Plan(model: EmbeddingModel, objects: seq<CanonicalObject>): Result<IndexPlan> {
    var docs := BuildEmbeddingDocuments(objects);
    if docs == [] then Err(NoObjectsError)
    else
      var vectors := model(Texts(docs));
      if |vectors| != |Ids(docs)| then Err(CountMismatchError)
      else if vectors == [] || vectors[0] == [] then Err(EmptyVectorsError)
      else Ok(IndexPlan(Ids(docs), vectors))
  }

  function ReportOf(p: IndexPlan): IndexReport {
    IndexReport(|p.ids|, if p.vectors == [] then 0 else |p.vectors[0]|)
  }

  /** What the model is asked to embed: the sorted documents' texts. */
  function EmbeddedTexts(objects: seq<CanonicalObject>): seq<string> {
    Texts(BuildEmbeddingDocuments(objects))
  }

  /** The three ways rebuild refuses, each with its message, and the fact
      that it refuses in no other case. */
  lemma PlanErrors(model: EmbeddingModel, objects: seq<CanonicalObject>)
    ensures var vectors := model(EmbeddedTexts(objects));
      var p := Plan(model, objects);
      (objects == [] ==> p == Err(NoObjectsError))
      && (objects != [] && |vectors| != |objects| ==> p == Err(CountMismatchError))
      && (objects != [] && |vectors| == |objects| && vectors[0] == [] ==> p == Err(EmptyVectorsError))
      && (p.Ok? <==> objects != [] && |vectors| == |objects| && vectors[0] != [])
  {
    BuildEmbeddingDocumentsSorted(objects);
  }

  /** A successful rebuild stores one id and one vector per object, the
      vectors being the model's answer for the sorted texts, and reports the
      object count and the (non-zero) dimension of the first vector. */
  lemma PlanOk(model: EmbeddingModel, objects: seq<CanonicalObject>)
    requires Plan(model, objects).Ok?
    ensures var p := Plan(model, objects).value;
      var texts := EmbeddedTexts(objects);
      |p.ids| == |objects| && |p.vectors| == |objects| && |texts| == |objects|
      && p.vectors == model(texts)
      && ReportOf(p) == IndexReport(|objects|, |p.vectors[0]|)
      && ReportOf(p).vectorDimension > 0
  {
    BuildEmbeddingDocumentsSorted(objects);
  }

  /** The stored ids are in ascending order. */
  lemma PlanIdsSorted(model: EmbeddingModel, objects: seq<CanonicalObject>)
    requires Plan(model, objects).Ok?
    ensures var ids := Plan(model, objects).value.ids;
      forall i, j :: 0 <= i < j < |ids| ==> !StrLess(ids[j], ids[i])
  {
    BuildEmbeddingDocumentsSorted(objects);
    SortedIds(BuildEmbeddingDocuments(objects));
  }

  /** The k-th stored id and the k-th embedded text belong to the same
      object. */
  lemma PlanIdsAligned(model: EmbeddingModel, objects: seq<CanonicalObject>)
    requires Plan(model, objects).Ok?
    ensures var ids, texts := Plan(model, objects).value.ids, EmbeddedTexts(objects);
      |ids| == |texts|
      && forall k :: 0 <= k < |ids| ==>
           exists o :: o in objects && ids[k] == o.canonicalId && texts[k] == EmbeddingText(o)
  {
    var docs := BuildEmbeddingDocuments(objects);
    BuildEmbeddingDocumentsMembers(objects);
    var ids, texts := Plan(model, objects).value.ids, EmbeddedTexts(objects);
    forall k | 0 <= k < |ids|
      ensures exists o :: o in objects && ids[k] == o.canonicalId && texts[k] == EmbeddingText(o)
    {
      assert docs[k] in docs;
      var o :| o in objects && docs[k] == DocumentOf(o);
      assert ids[k] == o.canonicalId && texts[k] == EmbeddingText(o);
    }
  }

  /** EmbeddingIndexer.query against a model and a search over the store. */
  function QueryWith(model: EmbeddingModel, search: (Vector, int) -> seq<(string, real)>,
                     text: string, topK: int): (r: seq<(string, real)>)
    ensures model([text]) == [] ==> r == []
  {
    var vectors := model([text]);
    if vectors == [] then [] else search(vectors[0], topK)
  }

  /** A model that yields nothing makes the query empty whatever the store
      holds; otherwise the store is searched with the first vector. */
  lemma QueryCases(model: EmbeddingModel, search: (Vector, int) -> seq<(string, real)>, text: string, topK: int)
    ensures model([text]) == [] ==> QueryWith(model, search, text, topK) == []
    ensures model([text]) != [] ==> QueryWith(model, search, text, topK) == search(model([text])[0], topK)
  {
  }

  /** The end of the Python slice `xs[:end]` over a list of the given
      length: a negative end counts from the back, and either kind is
      clamped to the list. */
  function SliceEnd(length: nat, end: int): (n: nat)
    ensures n <= length
    ensures end >= 0 ==> n == (if end < length then end else length)
    ensures end < 0 ==> n == (if length + end > 0 then length + end else 0)
  {
    if end >= 0 then (if end < length then end else length)
    else if length + end > 0 then length + end else 0
  }

  /** The in-memory store of the indexer's tests: the ids of
      `canonical_ids[:top_k]`, each with score 1.0, whatever the query. */
  function FakeSearch(ids: seq<string>, vectors: seq<Vector>, query: Vector, topK: int): (r: seq<(string, real)>)
    ensures |r| == SliceEnd(|ids|, topK)
    ensures forall k :: 0 <= k < |r| ==> r[k] == (ids[k], 1.0)
  {
    var n := SliceEnd(|ids|, topK);
    seq(n, k requires 0 <= k < n => (ids[k], 1.0))
  }

  /** A negative top_k drops that many ids from the back, as the slice does:
      two ids and top_k = -1 give the first id alone. */
  lemma FakeSearchNegative(query: Vector)
    ensures FakeSearch(["co_1", "co_2"], [], query, -1) == [("co_1", 1.0)]
  {
  }

  /** Rebuilding from two records given out of order and searching the fake
      store for one hit finds the record with the smaller id. */
  lemma FakeStoreFindsSmallestId(model: EmbeddingModel, a: CanonicalObject, b: CanonicalObject, query: Vector)
    requires StrLess(a.canonicalId, b.canonicalId)
    requires var v := model([DocumentOf(a).text, DocumentOf(b).text]); |v| == 2 && v[0] != []
    ensures Plan(model, [b, a]).Ok?
    ensures var p := Plan(model, [b, a]).value;
      p.ids == [a.canonicalId, b.canonicalId]
      && ReportOf(p).indexedCount == 2
      && FakeSearch(p.ids, p.vectors, query, 1) == [(a.canonicalId, 1.0)]
  {
    DocumentsReordered(a, b);
    var docs := BuildEmbeddingDocuments([b, a]);
    assert Texts(docs) == [DocumentOf(a).text, DocumentOf(b).text];
    assert Ids(docs) == [a.canonicalId, b.canonicalId];
  }

  /** A vector store: the protocol's rebuild replaces its contents, search
      answers from them. */
  class VectorStore {
    var ids: seq<string>
    var vectors: seq<Vector>
    const searchFn: SearchFn

    constructor(searchFn: SearchFn)
      ensures ids == [] && vectors == [] && this.searchFn == searchFn
    {
      ids := [];
      vectors := [];
      this.searchFn := searchFn;
    }

    /** VectorStore.rebuild */
    method Rebuild(newIds: seq<string>, newVectors: seq<Vector>)
      modifies this
      ensures ids == newIds && vectors == newVectors
    {
      ids := newIds;
      vectors := newVectors;
    }

    /** VectorStore.search, as a function of the current contents. */
    function Searcher(): (Vector, int) -> seq<(string, real)>
      reads this
    {
      var ids, vectors, f := ids, vectors, searchFn;
      (q: Vector, k: int) => f(ids, vectors, q, k)
    }
  }

  /** EmbeddingIndexer: a model and the store it writes to. */
  class EmbeddingIndexer {
    const model: EmbeddingModel
    const store: VectorStore

    constructor(model: EmbeddingModel, store: VectorStore)
      ensures this.model == model && this.store == store
    {
      this.model := model;
      this.store := store;
    }

    /** rebuild: on a failed check the store is left as it was and the
        error is returned; otherwise the store receives the plan's ids and
        vectors and the report describes them. */
    method Rebuild(objects: seq<CanonicalObject>) returns (r: Result<IndexReport>)
      modifies store
      ensures Plan(model, objects).Err? ==>
        r == Err(Plan(model, objects).error)
        && store.ids == old(store.ids) && store.vectors == old(store.vectors)
      ensures Plan(model, objects).Ok? ==>
        r == Ok(ReportOf(Plan(model, objects).value))
        && store.ids == Plan(model, objects).value.ids
        && store.vectors == Plan(model, objects).value.vectors
    {
      var documents := BuildEmbeddingDocuments(objects);
      if documents == [] {
        return Err(NoObjectsError);
      }
      var texts := Texts(documents);
      var canonicalIds := Ids(documents);
      var vectors := model(texts);
      if |vectors| != |canonicalIds| {
        return Err(CountMismatchError);
      }
      if vectors == [] || vectors[0] == [] {
        return Err(EmptyVectorsError);
      }
      store.Rebuild(canonicalIds, vectors);
      return Ok(IndexReport(|canonicalIds|, |vectors[0]|));
    }

    /** query */
    function Query(text: string, topK: int): seq<(string, real)>
      reads store
    {
      QueryWith(model, store.Searcher(), text, topK)
    }
  }
}
