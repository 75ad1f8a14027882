/** The retrieval step (smart_librarian/rag.py): rendering the retrieved
    results as the context block handed to the chat model, and the rule that
    decides when the collection is (re)indexed from the catalog.  Reading the
    catalog file is not modelled: the catalog is a parameter. */
module Rag {
  import opened Common
  import opened Text
  import opened Tools
  import opened VectorStore

  // ---------------------------------------------------------------------
  // retrieved_context_snippets

  const EntrySeparator: string := "\n---\n"

  /** The block for the result of 1-based rank `rank`. */
  function ContextEntry(rank: nat, title: string, document: string): string {
    "[" + NatToString(rank) + "] Titlu: " + title + "\n" + document
  }

  /** The rendered blocks, ranked from 1 in input order; reading the title of
      a result whose metadata has none raises KeyError. */
  function ContextLines(results: seq<SearchResult>): (r: Result<seq<string>>)
    ensures r.Ok? <==> forall i :: 0 <= i < |results| ==> "title" in results[i].metadata
    ensures r.Err? ==> r.error == KeyError("title")
    ensures r.Ok? ==> |r.value| == |results|
    ensures r.Ok? ==> forall i :: 0 <= i < |results| ==>
      "title" in results[i].metadata
      && r.value[i] == ContextEntry(i + 1, results[i].metadata["title"], results[i].document)
    decreases |results|
  {
    if |results| == 0 then Ok([])
    else
      var n := |results| - 1;
      var init :- ContextLines(results[..n]);
      if "title" !in results[n].metadata then Err(KeyError("title"))
      else Ok(init + [ContextEntry(n + 1, results[n].metadata["title"], results[n].document)])
  }

  /** What `retrieved_context_snippets(results)` returns (or raises): the
      blocks joined by the separator line; no results give the empty text. */
  function Context(results: seq<SearchResult>): (r: Result<string>)
    ensures r.Ok? <==> ContextLines(results).Ok?
    ensures results == [] ==> r == Ok("")
  {
    var lines :- ContextLines(results);
    Ok(Join(lines, EntrySeparator))
  }

  /** One more result adds one separator and its own block, ranked after
      the others. */
  lemma {:induction false} ContextSnoc(results: seq<SearchResult>, last: SearchResult)
    requires |results| > 0 && Context(results).Ok? && "title" in last.metadata
    ensures Context(results + [last]).Ok?
    ensures Context(results + [last]).value
      == Context(results).value + EntrySeparator
         + ContextEntry(|results| + 1, last.metadata["title"], last.document)
  {
    var all := results + [last];
    assert all[..|results|] == results;
    JoinSnoc(ContextLines(results).value,
      ContextEntry(|results| + 1, last.metadata["title"], last.document), EntrySeparator);
  }

  /** n results give n blocks and exactly n - 1 separators: the context is as
      long as its blocks plus n - 1 separator lines. */
  lemma {:induction false} ContextLength(results: seq<SearchResult>)
    requires |results| > 0 && Context(results).Ok?
    ensures |Context(results).value|
      == TotalLength(ContextLines(results).value) + (|results| - 1) * |EntrySeparator|
  {
    JoinLength(ContextLines(results).value, EntrySeparator);
  }

  /** `retrieved_context_snippets`: collects the blocks in a list, then joins. */
  method RetrievedContextSnippets(results: seq<SearchResult>) returns (r: Result<string>)
    ensures r == Context(results)
  {
    var lines: seq<string> := [];
    for i := 0 to |results|
      invariant |lines| == i
      invariant forall j :: 0 <= j < i ==>
        "title" in results[j].metadata
        && lines[j] == ContextEntry(j + 1, results[j].metadata["title"], results[j].document)
    {
      var rank := i + 1;
      if "title" !in results[i].metadata {
        return Err(KeyError("title"));
      }
      var title := results[i].metadata["title"];
      var doc := results[i].document;
      lines := lines + [ContextEntry(rank, title, doc)];
    }
    assert lines == ContextLines(results).value;
    return Ok(Join(lines, EntrySeparator));
  }

  // ---------------------------------------------------------------------
  // build_or_load_store

  /** The catalog is (re)indexed exactly when a rebuild is asked for or the
      collection is empty. */
  predicate Reindexes(count: nat, rebuild: bool) {
    rebuild || count == 0
  }

  /** The entries of the collection after `build_or_load_store`: a rebuild
      empties it first; the catalog is then added when `Reindexes` holds. */
  function StoreAfter(records: seq<Record>, catalog: seq<Book>, rebuild: bool): (rs: seq<Record>)
    ensures rebuild ==> rs == IndexedRecords(catalog)
    ensures !rebuild && |records| > 0 ==> rs == records
    ensures |records| == 0 ==> rs == IndexedRecords(catalog)
  {
    var base := if rebuild then [] else records;
    if Reindexes(|records|, rebuild) then base + IndexedRecords(catalog) else base
  }

  /** Loading again, without a rebuild, what was just built or loaded changes
      nothing. */
  lemma {:induction false} StoreAfterIdempotent(records: seq<Record>, catalog: seq<Book>, rebuild: bool)
    ensures StoreAfter(StoreAfter(records, catalog, rebuild), catalog, false)
      == StoreAfter(records, catalog, rebuild)
  {
  }

  /** After a rebuild the collection holds exactly the catalog's entries,
      whatever it held before: one per catalog record, in catalog order, with
      pairwise distinct ids. */
  lemma {:induction false} RebuildHoldsCatalog(records: seq<Record>, catalog: seq<Book>)
    ensures StoreAfter(records, catalog, true) == IndexedRecords(catalog)
    ensures |IndexedRecords(catalog)| == |catalog|
    ensures forall i :: 0 <= i < |catalog| ==> IndexedRecords(catalog)[i] == IndexRecord(i, catalog[i])
    ensures forall i, j :: 0 <= i < j < |catalog| ==> IndexedRecords(catalog)[i].id != IndexedRecords(catalog)[j].id
  {
    IndexedIdsDistinct(catalog);
  }

  /** Every title stored in a freshly indexed collection resolves through
      the summary table built from the same catalog. */
  lemma {:induction false} IndexedTitlesResolve(catalog: seq<Book>, i: nat, lower: string -> string)
    requires i < |catalog|
    ensures "title" in IndexedRecords(catalog)[i].metadata
    ensures BuildTable(catalog).Valid()
    ensures Lookup(BuildTable(catalog), IndexedRecords(catalog)[i].metadata["title"], lower)
      in BuildTable(catalog).entries.Values
  {
    CatalogTitleResolves(catalog, i, lower);
  }

  /** `build_or_load_store`: delete-and-recreate on a rebuild, then index the
      catalog when a rebuild was asked for or the collection is empty. */
  method BuildOrLoadStore(c: Collection, catalog: seq<Book>, rebuild: bool)
    modifies c
    ensures c.records == StoreAfter(old(c.records), catalog, rebuild)
  {
    if rebuild {
      c.Reset();
    }
    if rebuild || c.Count() == 0 {
      IndexBooks(c, catalog);
    }
  }

  /** The first `build_or_load_store` in a fresh store directory: the
      collection is created empty, so the catalog is indexed whether or not
      a rebuild is asked for, and the new collection holds exactly the
      catalog's entries. */
  method OpenFreshStore(catalog: seq<Book>, rebuild: bool) returns (c: Collection)
    ensures fresh(c)
    ensures c.records == IndexedRecords(catalog)
  {
    c := new Collection();
    BuildOrLoadStore(c, catalog, rebuild);
  }
}
