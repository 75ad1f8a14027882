/** The adapter around the Chroma collection (smart_librarian/vector_store.py):
    how catalog records are turned into indexed entries, and how a query's
    raw answer is normalised into a list of uniform results.  The store's
    similarity search and the embedding service are not modelled; the
    collection is seen only through `count`, `add` and delete-and-recreate. */
module VectorStore {
  import opened Common
  import opened Text
  import opened Tools

  /** Metadata as this program stores it: string keys, string values. */
  type Metadata = map<string, string>

  /** One entry of the collection, as `add` receives it. */
  datatype Record = Record(id: string, document: string, metadata: Metadata)

  /** Three parallel lists, as `add` takes them, read as one list of entries. */
  function Zip(ids: seq<string>, documents: seq<string>, metadatas: seq<Metadata>): (rs: seq<Record>)
    requires |ids| == |documents| == |metadatas|
    ensures |rs| == |ids|
    ensures forall i :: 0 <= i < |rs| ==> rs[i] == Record(ids[i], documents[i], metadatas[i])
  {
    seq(|ids|, i requires 0 <= i < |ids| => Record(ids[i], documents[i], metadatas[i]))
  }

  /** A named, persisted collection: its entries in the order they were added. */
  class Collection {
    var records: seq<Record>

    constructor ()
      ensures records == []
    {
      records := [];
    }

    /** `collection.count()`. */
    function Count(): nat
      reads this
    {
      |records|
    }

    /** `collection.add(ids=..., documents=..., metadatas=...)`: one batch,
        appended after what the collection already holds. */
    method Add(ids: seq<string>, documents: seq<string>, metadatas: seq<Metadata>)
      requires |ids| == |documents| == |metadatas|
      modifies this
      ensures records == old(records) + Zip(ids, documents, metadatas)
    {
      records := records + Zip(ids, documents, metadatas);
    }

    /** `delete_collection(name)` followed by `get_or_create_collection(name)`:
        the collection comes back empty. */
    method Reset()
      modifies this
      ensures records == []
    {
      records := [];
    }
  }

  // ---------------------------------------------------------------------
  // index_books

  const ThemeSeparator: string := ", "

  /** `f"book-{i+1:03d}-{title}"` for the book at 0-based position i. */
  function BookId(i: nat, title: string): string {
    "book-" + Pad3(i + 1) + "-" + title
  }

  /** The text block that is embedded for a book. */
  function BookDocument(b: Book): string {
    "Titlu: " + b.title + "\nTeme: " + Join(b.themes, ThemeSeparator)
    + "\nRezumat scurt: " + b.shortSummary + "\n"
  }

  /** The scalar metadata of a book: exactly a title and the joined themes. */
  function BookMetadata(b: Book): (m: Metadata)
    ensures m.Keys == {"title", "themes"}
    ensures m["title"] == b.title
    ensures m["themes"] == Join(b.themes, ThemeSeparator)
  {
    map["title" := b.title, "themes" := Join(b.themes, ThemeSeparator)]
  }

  /** The entry indexed for the book at 0-based position i. */
  function IndexRecord(i: nat, b: Book): Record {
    Record(BookId(i, b.title), BookDocument(b), BookMetadata(b))
  }

  /** The entries `index_books` hands to `add`, one per book, in catalog order. */
  function IndexedRecords(books: seq<Book>): (rs: seq<Record>)
    ensures |rs| == |books|
    ensures forall i :: 0 <= i < |rs| ==> "title" in rs[i].metadata && rs[i].metadata["title"] == books[i].title
  {
    seq(|books|, i requires 0 <= i < |books| => IndexRecord(i, books[i]))
  }

  /** Reads an id of the form `book-<digits>-<title>` with at least three
      digits back into its ordinal and its title. */
  function ParseBookId(id: string): Option<(nat, string)> {
    if |id| < 5 || id[..5] != "book-" then None
    else
      var rest := id[5..];
      var d := LeadingDigits(rest);
      if d < 3 || d == |rest| || rest[d] != '-' then None
      else Some((DigitsValue(rest[..d]), rest[d + 1..]))
  }

  /** The id of the i-th book carries the 1-based ordinal i + 1, zero-padded
      to at least three digits, and then the title: it reads back as both. */
  lemma {:induction false} BookIdRoundTrip(i: nat, title: string)
    ensures ParseBookId(BookId(i, title)) == Some((i + 1, title))
  {
    var p := Pad3(i + 1);
    var id := BookId(i, title);
    var rest := p + "-" + title;
    assert id == "book-" + rest;
    assert id[..5] == "book-" && id[5..] == rest;
    assert ("-" + title)[0] == '-';
    assert rest == p + ("-" + title);
    LeadingDigitsOf(p, "-" + title);
    assert rest[..|p|] == p;
    assert rest[|p| + 1..] == title;
    Pad3RoundTrip(i + 1);
  }

  /** Two books of one catalog never share an id, even when their titles are
      equal: the ordinal tells them apart. */
  lemma {:induction false} IndexedIdsDistinct(books: seq<Book>)
    ensures forall i, j :: 0 <= i < j < |books| ==> IndexedRecords(books)[i].id != IndexedRecords(books)[j].id
  {
    forall i, j | 0 <= i < j < |books|
      ensures IndexedRecords(books)[i].id != IndexedRecords(books)[j].id
    {
      BookIdRoundTrip(i, books[i].title);
      BookIdRoundTrip(j, books[j].title);
    }
  }

  /** `index_books(collection, books)`: builds the three lists in one pass
      and adds them in one batch, and only when there is at least one book. */
  method IndexBooks(c: Collection, books: seq<Book>)
    modifies c
    ensures c.records == old(c.records) + IndexedRecords(books)
  {
    var ids: seq<string> := [];
    var documents: seq<string> := [];
    var metadatas: seq<Metadata> := [];
    for i := 0 to |books|
      invariant |ids| == |documents| == |metadatas| == i
      invariant forall j :: 0 <= j < i ==> Record(ids[j], documents[j], metadatas[j]) == IndexRecord(j, books[j])
    {
      var b := books[i];
      ids := ids + [BookId(i, b.title)];
      documents := documents + [BookDocument(b)];
      metadatas := metadatas + [BookMetadata(b)];
    }
    if |ids| > 0 {
      c.Add(ids, documents, metadatas);
      assert Zip(ids, documents, metadatas) == IndexedRecords(books);
    } else {
      assert IndexedRecords(books) == [];
    }
  }

  // ---------------------------------------------------------------------
  // semantic_search

  /** One key of the store's query answer: absent, present with the value
      None, or present with one list per query text (each list possibly None). */
  datatype Column<T> = Missing | Null | Lists(lists: seq<Option<seq<T>>>)

  /** The answer of `collection.query` for one query text. */
  datatype QueryResponse = QueryResponse(
    ids: Column<string>,
    documents: Column<string>,
    metadatas: Column<Metadata>,
    distances: Column<real>)

  /** `res.get(key, [[]])[0] or []`: the list for the first (only) query
      text; an absent key reads as an empty list. */
  function FirstList<T>(c: Column<T>): Result<seq<T>> {
    match c
    case Missing => Ok([])
    case Null => Err(TypeError)
    case Lists(ls) => if |ls| == 0 then Err(IndexError) else Ok(ls[0].GetOr([]))
  }

  /** One retrieved entry in the uniform shape the rest of the program reads. */
  datatype SearchResult = SearchResult(
    id: Option<string>,
    document: string,
    metadata: Metadata,
    distance: Option<real>,
    score: Option<real>)

  /** The i-th normalised result. */
  function ResultAt(docs: seq<string>, metas: seq<Metadata>, ids: seq<string>, dists: seq<real>, i: nat): SearchResult
    requires i < |docs|
  {
    var d := if i < |dists| then Some(dists[i]) else None;
    SearchResult(
      if i < |ids| then Some(ids[i]) else None,
      docs[i],
      if i < |metas| then metas[i] else map[],
      d,
      if d.Some? then Some(1.0 - d.value) else None)
  }

  /** The normalised list: one result per returned document, in the store's
      order; a position where ids, metadatas or distances fall short gets
      None, an empty metadata map and None; the score is defined exactly
      when the distance is, and is then 1 - distance. */
  function Normalised(docs: seq<string>, metas: seq<Metadata>, ids: seq<string>, dists: seq<real>): (out: seq<SearchResult>)
    ensures |out| == |docs|
    ensures forall i :: 0 <= i < |out| ==>
      && out[i].document == docs[i]
      && (out[i].id.Some? <==> i < |ids|) && (i < |ids| ==> out[i].id.value == ids[i])
      && (i < |metas| ==> out[i].metadata == metas[i]) && (i >= |metas| ==> out[i].metadata == map[])
      && (out[i].distance.Some? <==> i < |dists|) && (i < |dists| ==> out[i].distance.value == dists[i])
    ensures forall i :: 0 <= i < |out| ==>
      && (out[i].score.Some? <==> out[i].distance.Some?)
      && (out[i].score.Some? ==> out[i].score.value == 1.0 - out[i].distance.value)
  {
    seq(|docs|, i requires 0 <= i < |docs| => ResultAt(docs, metas, ids, dists, i))
  }

  /** What `semantic_search` returns for a query answer: the four lists are
      read in the order documents, metadatas, ids, distances (the first that
      cannot be read raises), then normalised. */
  function SearchResults(res: QueryResponse): (r: Result<seq<SearchResult>>)
    ensures r.Ok? <==> FirstList(res.documents).Ok? && FirstList(res.metadatas).Ok?
                       && FirstList(res.ids).Ok? && FirstList(res.distances).Ok?
    ensures r.Ok? ==> |r.value| == |FirstList(res.documents).value|
  {
    var docs :- FirstList(res.documents);
    var metas :- FirstList(res.metadatas);
    var ids :- FirstList(res.ids);
    var dists :- FirstList(res.distances);
    Ok(Normalised(docs, metas, ids, dists))
  }

  /** Keys missing from the answer behave as empty lists: no ids, empty
      metadata and no distance or score for any result. */
  lemma {:induction false} MissingKeysAreEmpty(res: QueryResponse)
    requires res.ids == Missing && res.metadatas == Missing && res.distances == Missing
    requires FirstList(res.documents).Ok?
    ensures SearchResults(res).Ok?
    ensures forall i :: 0 <= i < |SearchResults(res).value| ==>
      var r := SearchResults(res).value[i];
      r.id == None && r.metadata == map[] && r.distance == None && r.score == None
  {
  }

  /** `semantic_search(collection, query, k)` after the store has answered:
      reads the four lists and builds the result list in one indexed loop. */
  method SemanticSearch(res: QueryResponse) returns (r: Result<seq<SearchResult>>)
    ensures r == SearchResults(res)
  {
    var docs :- FirstList(res.documents);
    var metas :- FirstList(res.metadatas);
    var ids :- FirstList(res.ids);
    var dists :- FirstList(res.distances);
    var out: seq<SearchResult> := [];
    for i := 0 to |docs|
      invariant |out| == i
      invariant forall j :: 0 <= j < i ==> out[j] == ResultAt(docs, metas, ids, dists, j)
    {
      var d := if i < |dists| then Some(dists[i]) else None;
      out := out + [SearchResult(
        if i < |ids| then Some(ids[i]) else None,
        docs[i],
        if i < |metas| then metas[i] else map[],
        d,
        if d.Some? then Some(1.0 - d.value) else None)];
    }
    assert out == Normalised(docs, metas, ids, dists);
    return Ok(out);
  }
}
