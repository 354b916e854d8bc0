/** ChromaVectorStore (odyssey/agent/vector_store.py) over an abstract
    collection: a map from document id to its text and metadata, with the
    add/delete/count behaviour of an in-memory collection. Similarity ranking
    is the collection's business; a query's raw answer is an input. */
module VectorStore {
  import opened Common
  import opened Json

  /** A document given to `add_documents`: `text`, `metadata` and `id` are
      optional keys. */
  datatype InputDoc = InputDoc(text: Option<string>, metadata: Option<Obj>, id: Option<string>)

  /** What the collection stores under an id. */
  datatype Entry = Entry(text: string, metadata: Obj)

  /** The raw answer of `collection.query` for a single query text (each field
      a list of rows; an empty list stands for a missing or empty field), or the
      exception the call raised. */
  datatype QueryReply =
    | QueryFailed(error: Exc)
    | QueryAnswer(ids: seq<seq<string>>, documents: seq<seq<string>>,
                  metadatas: seq<seq<Obj>>, distances: seq<seq<real>>)

  /** One formatted query result; absent columns are None. */
  datatype Hit = Hit(id: string, text: Option<string>, metadata: Option<Obj>, distance: Option<real>)

  /** A document is kept when its text is truthy. */
  predicate Keeps(d: InputDoc) {
    TruthyStr(d.text)
  }

  function MetadataOf(d: InputDoc): Obj {
    if d.metadata.Some? then d.metadata.value else map[]
  }

  function TextOf(d: InputDoc): string {
    if d.text.Some? then d.text.value else ""
  }

  /** The ids `add_documents` assigns, one per kept document in order: the
      document's own truthy id, else the next fresh UUID. */
  function KeptIds(documents: seq<InputDoc>, uuid: nat -> string): (r: seq<string>)
    ensures |r| == |Filter(documents, Keeps)|
  {
    var kept := Filter(documents, Keeps);
    seq(|kept|, j requires 0 <= j < |kept| => OrElse(kept[j].id, uuid(j)))
  }

  /** The text and metadata (default {}) stored for each kept document. */
  function KeptEntries(documents: seq<InputDoc>): (r: seq<Entry>)
    ensures |r| == |Filter(documents, Keeps)|
  {
    var kept := Filter(documents, Keeps);
    seq(|kept|, j requires 0 <= j < |kept| => Entry(TextOf(kept[j]), MetadataOf(kept[j])))
  }

  /** The collection after adding `ids[k]` with `entries[k]`, in order: a later
      duplicate id overwrites an earlier one. */
  function AddAll(m: map<string, Entry>, ids: seq<string>, entries: seq<Entry>): (r: map<string, Entry>)
    requires |ids| == |entries|
    ensures r.Keys == m.Keys + Elems(ids)
    ensures forall k :: k in m && k !in ids ==> r[k] == m[k]
  {
    if ids == [] then m
    else
      var n := |ids| - 1;
      assert Elems(ids) == Elems(ids[..n]) + {ids[n]} by {
        assert ids == ids[..n] + [ids[n]];
      }
      AddAll(m, ids[..n], entries[..n])[ids[n] := entries[n]]
  }

  /** Does an entry's metadata agree with every key of a `where` filter?
      A missing key reads as None. */
  predicate Matches(e: Entry, filter: Obj) {
    forall k :: k in filter ==> Get(e.metadata, k, JNull) == filter[k]
  }

  /** The collection after `delete(ids=ids, where=filter)`: by ids when any
      are given, otherwise by metadata filter. */
  function DeleteFrom(m: map<string, Entry>, ids: seq<string>, filter: Obj): (r: map<string, Entry>)
    ensures r.Keys <= m.Keys
    ensures forall k :: k in r ==> r[k] == m[k]
    ensures ids != [] ==> r.Keys == m.Keys - Elems(ids)
    ensures ids == [] ==> forall k :: k in m ==> (k in r <==> !Matches(m[k], filter))
  {
    if ids != [] then m - Elems(ids)
    else map k | k in m && !Matches(m[k], filter) :: m[k]
  }

  lemma UnionCard<T>(a: set<T>, b: set<T>)
    ensures |a + b| == |a| + |b - a|
  {
    assert a + b == a + (b - a);
    assert a * (b - a) == {};
  }

  lemma DiffCard<T>(a: set<T>, b: set<T>)
    ensures |a - b| == |a| - |a * b|
  {
    assert a == (a - b) + (a * b);
    assert (a - b) * (a * b) == {};
  }

  /** The i-th formatted result, or None where reading a column raises
      IndexError (the column is non-empty but shorter than the id row). */
  function HitAt(ids: seq<string>, documents: seq<seq<string>>, metadatas: seq<seq<Obj>>,
                 distances: seq<seq<real>>, i: nat): (r: Option<Hit>)
    requires i < |ids|
    ensures r.Some? ==> r.value.id == ids[i]
  {
    var docsOn := documents != [] && documents[0] != [];
    var metasOn := metadatas != [] && metadatas[0] != [];
    var distsOn := distances != [] && distances[0] != [];
    if (docsOn && i >= |documents[0]|) || (metasOn && i >= |metadatas[0]|) || (distsOn && i >= |distances[0]|) then None
    else Some(Hit(ids[i],
                  if docsOn then Some(documents[0][i]) else None,
                  if metasOn then Some(metadatas[0][i]) else None,
                  if distsOn then Some(distances[0][i]) else None))
  }

  /** What `query_similar_documents` returns for a query with `top_k` and the
      collection's raw answer. */
  function QueryResults(topK: int, reply: QueryReply): (r: seq<Hit>)
  {
    if topK <= 0 || reply.QueryFailed? || reply.ids == [] then []
    else
      var row := reply.ids[0];
      if forall i :: 0 <= i < |row| ==> HitAt(row, reply.documents, reply.metadatas, reply.distances, i).Some?
      then seq(|row|, i requires 0 <= i < |row| => HitAt(row, reply.documents, reply.metadatas, reply.distances, i).value)
      else []
  }

  lemma QueryResultsShape(topK: int, reply: QueryReply)
    ensures topK <= 0 ==> QueryResults(topK, reply) == []
    ensures reply.QueryFailed? ==> QueryResults(topK, reply) == []
    ensures var r := QueryResults(topK, reply);
            r != [] ==> reply.QueryAnswer? && |r| == |reply.ids[0]| &&
                        forall i :: 0 <= i < |r| ==> r[i].id == reply.ids[0][i]
  {
  }

  class ChromaVectorStore {
    var docs: map<string, Entry>

    constructor ()
      ensures docs == map[]
    {
      docs := map[];
    }

    /** `add_documents`: keeps the documents whose text is truthy and gives each
        kept document its own id or the next fresh UUID (`uuid(k)` for the k-th
        kept document). */
    method AddDocuments(documents: seq<InputDoc>, uuid: nat -> string, addError: Option<Exc>)
      returns (r: Result<seq<string>>)
      modifies this
      ensures Filter(documents, Keeps) == [] ==> r == Ok([]) && docs == old(docs)
      ensures Filter(documents, Keeps) != [] && addError.Some? ==> r == Raised(addError.value) && docs == old(docs)
      ensures Filter(documents, Keeps) != [] && addError.None? ==>
                r == Ok(KeptIds(documents, uuid)) && docs == AddAll(old(docs), KeptIds(documents, uuid), KeptEntries(documents))
    {
      var texts: seq<string> := [];
      var metas: seq<Obj> := [];
      var ids: seq<string> := [];
      ghost var kept: seq<InputDoc> := [];
      var i := 0;
      while i < |documents|
        invariant 0 <= i <= |documents|
        invariant kept == Filter(documents[..i], Keeps)
        invariant docs == old(docs)
        invariant |texts| == |metas| == |ids| == |kept|
        invariant forall j :: 0 <= j < |kept| ==>
                    texts[j] == TextOf(kept[j]) && metas[j] == MetadataOf(kept[j]) &&
                    ids[j] == OrElse(kept[j].id, uuid(j))
      {
        var doc := documents[i];
        FilterSnoc(documents, i, Keeps);
        if TruthyStr(doc.text) {
          texts := texts + [TextOf(doc)];
          metas := metas + [MetadataOf(doc)];
          ids := ids + [OrElse(doc.id, uuid(|ids|))];
          kept := kept + [doc];
        }
        i := i + 1;
      }
      assert documents[..i] == documents;
      if texts == [] {
        return Ok([]);
      }
      if addError.Some? {
        return Raised(addError.value);
      }
      var entries := seq(|texts|, j requires 0 <= j < |texts| => Entry(texts[j], metas[j]));
      assert ids == KeptIds(documents, uuid);
      assert entries == KeptEntries(documents);
      docs := AddAll(docs, ids, entries);
      return Ok(ids);
    }

    /** `query_similar_documents`: no query for `top_k <= 0`; otherwise the
        rows of the answer's first result, and [] on any failure. */
    method QuerySimilarDocuments(queryText: string, topK: int, filter: Obj, reply: QueryReply)
      returns (r: seq<Hit>)
      ensures r == QueryResults(topK, reply)
    {
      if topK <= 0 || reply.QueryFailed? || reply.ids == [] {
        return [];
      }
      var row := reply.ids[0];
      var formatted: seq<Hit> := [];
      var i := 0;
      while i < |row|
        invariant 0 <= i <= |row|
        invariant |formatted| == i
        invariant forall j :: 0 <= j < i ==> HitAt(row, reply.documents, reply.metadatas, reply.distances, j) == Some(formatted[j])
      {
        var hit := HitAt(row, reply.documents, reply.metadatas, reply.distances, i);
        if hit.None? {
          // IndexError while formatting: the except branch returns [].
          return [];
        }
        formatted := formatted + [hit.value];
        i := i + 1;
      }
      return formatted;
    }

    /** `delete_documents`: ValueError when neither ids nor a filter is given. */
    method DeleteDocuments(ids: seq<string>, filter: Obj) returns (r: Result<()>)
      modifies this
      ensures ids == [] && filter == map[] ==>
                r == Raised(Exc("ValueError", "Either 'ids' or 'metadata_filter' must be provided for deletion.")) &&
                docs == old(docs)
      ensures ids != [] || filter != map[] ==> r == Ok(()) && docs == DeleteFrom(old(docs), ids, filter)
    {
      if ids == [] && filter == map[] {
        return Raised(Exc("ValueError", "Either 'ids' or 'metadata_filter' must be provided for deletion."));
      }
      docs := DeleteFrom(docs, ids, filter);
      return Ok(());
    }

    /** `get_collection_count` */
    method GetCollectionCount() returns (n: nat)
      ensures n == |docs|
    {
      return |docs|;
    }
  }

  /** Adding grows the count by the number of ids not yet present. */
  lemma AddGrowsCount(m: map<string, Entry>, ids: seq<string>, entries: seq<Entry>)
    requires |ids| == |entries|
    ensures |AddAll(m, ids, entries)| == |m| + |Elems(ids) - m.Keys|
  {
    var r := AddAll(m, ids, entries);
    assert |r| == |r.Keys|;
    assert |m| == |m.Keys|;
    UnionCard(m.Keys, Elems(ids));
  }

  /** Deleting by ids shrinks the count by the number of those ids present. */
  lemma DeleteShrinksCount(m: map<string, Entry>, ids: seq<string>, filter: Obj)
    requires ids != []
    ensures |DeleteFrom(m, ids, filter)| == |m| - |m.Keys * Elems(ids)|
  {
    var r := DeleteFrom(m, ids, filter);
    assert |r| == |r.Keys|;
    assert |m| == |m.Keys|;
    DiffCard(m.Keys, Elems(ids));
  }
}
