/** The title -> full summary table built from the book catalog, and the
    lookup tool the chat model may call (smart_librarian/tools.py).

    Python's `str.lower()` is not modelled character by character: every
    member that compares titles without regard to case takes it as the
    parameter `lower`. */
module Tools {
  import opened Common

  /** One catalog record. */
  datatype Book = Book(title: string, shortSummary: string, themes: seq<string>, fullSummary: string)

  /** A Python `dict[str, str]`: `keys` lists the keys in insertion order (the
      order `dict.keys()` iterates in) and `entries` holds the values. */
  datatype SummaryTable = SummaryTable(keys: seq<string>, entries: map<string, string>) {
    ghost predicate Valid() {
      && (forall i, j :: 0 <= i < j < |keys| ==> keys[i] != keys[j])
      && (forall k :: k in entries <==> k in keys)
    }
  }

  /** `d[k] = v`: a new key goes to the end, an existing key keeps its place. */
  function Insert(t: SummaryTable, k: string, v: string): SummaryTable {
    if k in t.entries then SummaryTable(t.keys, t.entries[k := v])
    else SummaryTable(t.keys + [k], t.entries[k := v])
  }

  /** How `d[k] = v` changes the keys and the values. */
  lemma {:induction false} InsertEffect(t: SummaryTable, k: string, v: string)
    ensures Insert(t, k, v).entries == t.entries[k := v]
    ensures Insert(t, k, v).keys == if k in t.entries then t.keys else t.keys + [k]
  {
  }

  /** `d[k] = v` on a dict keeps it a dict: the old keys keep their order (a
      new key only goes after them), k maps to v and every other key keeps
      its value. */
  lemma {:induction false} InsertKeepsDict(t: SummaryTable, k: string, v: string)
    requires t.Valid()
    ensures Insert(t, k, v).Valid()
    ensures |t.keys| <= |Insert(t, k, v).keys| <= |t.keys| + 1
    ensures Insert(t, k, v).keys[..|t.keys|] == t.keys
    ensures k in Insert(t, k, v).entries && Insert(t, k, v).entries[k] == v
    ensures forall j :: j in t.entries && j != k ==> j in Insert(t, k, v).entries && Insert(t, k, v).entries[j] == t.entries[j]
    ensures forall j :: j in Insert(t, k, v).entries ==> j == k || j in t.entries
  {
    InsertEffect(t, k, v);
    if k !in t.entries {
      assert (t.keys + [k])[..|t.keys|] == t.keys;
    }
  }

  /** `{b.title: b.full_summary for b in books}`. */
  function BuildTable(books: seq<Book>): SummaryTable
    decreases |books|
  {
    if |books| == 0 then SummaryTable([], map[])
    else
      var last := books[|books| - 1];
      Insert(BuildTable(books[..|books| - 1]), last.title, last.fullSummary)
  }

  /** The table built from any catalog is a well-formed dict. */
  lemma {:induction false} BuildTableValid(books: seq<Book>)
    ensures BuildTable(books).Valid()
    decreases |books|
  {
    if |books| > 0 {
      var n := |books| - 1;
      var t := BuildTable(books[..n]);
      BuildTableValid(books[..n]);
      InsertKeepsDict(t, books[n].title, books[n].fullSummary);
    }
  }

  /** The position of the first book with the given title, or |books| when
      no book has it. */
  function IndexOfTitle(books: seq<Book>, title: string): (i: nat)
    ensures i <= |books|
    ensures i < |books| ==> books[i].title == title
    ensures forall j :: 0 <= j < i ==> books[j].title != title
    decreases |books|
  {
    if |books| == 0 then 0
    else if books[0].title == title then 0
    else 1 + IndexOfTitle(books[1..], title)
  }

  /** A title seen in a prefix keeps its first position when the catalog grows. */
  lemma {:induction false} IndexOfTitlePrefix(books: seq<Book>, n: nat, k: string)
    requires n <= |books| && IndexOfTitle(books[..n], k) < n
    ensures IndexOfTitle(books, k) == IndexOfTitle(books[..n], k)
  {
    var b := IndexOfTitle(books[..n], k);
    assert books[b] == books[..n][b];
    assert forall j :: 0 <= j < b ==> books[j] == books[..n][j];
  }

  /** The table has a key for every catalog title ... */
  lemma {:induction false} BuildTableHasTitles(books: seq<Book>)
    ensures forall i :: 0 <= i < |books| ==> books[i].title in BuildTable(books).entries
    decreases |books|
  {
    if |books| > 0 {
      var n := |books| - 1;
      var init := books[..n];
      BuildTableHasTitles(init);
      InsertEffect(BuildTable(init), books[n].title, books[n].fullSummary);
      assert forall i :: 0 <= i < n ==> books[i] == init[i];
    }
  }

  /** ... and no key that is not a catalog title. */
  lemma {:induction false} BuildTableOnlyTitles(books: seq<Book>)
    ensures forall k :: k in BuildTable(books).entries ==> IndexOfTitle(books, k) < |books|
    decreases |books|
  {
    if |books| > 0 {
      var n := |books| - 1;
      var init := books[..n];
      BuildTableOnlyTitles(init);
      InsertEffect(BuildTable(init), books[n].title, books[n].fullSummary);
      forall k | k in BuildTable(books).entries
        ensures IndexOfTitle(books, k) < |books|
      {
        if k != books[n].title {
          IndexOfTitlePrefix(books, n, k);
        }
      }
    }
  }

  /** A later book with a duplicate title overrides the earlier one: a title
      maps to the full summary of the LAST book carrying it. */
  lemma {:induction false} BuildTableLastWins(books: seq<Book>, i: nat)
    requires i < |books|
    requires forall j :: i < j < |books| ==> books[j].title != books[i].title
    ensures books[i].title in BuildTable(books).entries
    ensures BuildTable(books).entries[books[i].title] == books[i].fullSummary
    decreases |books|
  {
    var n := |books| - 1;
    var init := books[..n];
    InsertEffect(BuildTable(init), books[n].title, books[n].fullSummary);
    if i < n {
      BuildTableLastWins(init, i);
    }
  }

  /** The titles at the positions where they occur for the first time, in
      catalog order: each distinct title once. */
  function FirstOccurrences(books: seq<Book>): seq<string>
    decreases |books|
  {
    if |books| == 0 then []
    else
      var n := |books| - 1;
      FirstOccurrences(books[..n]) + (if IndexOfTitle(books, books[n].title) == n then [books[n].title] else [])
  }

  /** The last book's title is already a key of the table built from the
      books before it exactly when it occurs earlier in the catalog. */
  lemma {:induction false} LastTitleSeen(books: seq<Book>)
    requires |books| > 0
    ensures books[|books| - 1].title in BuildTable(books[..|books| - 1]).entries
      <==> IndexOfTitle(books, books[|books| - 1].title) < |books| - 1
  {
    var n := |books| - 1;
    var init := books[..n];
    var title := books[n].title;
    if title in BuildTable(init).entries {
      BuildTableOnlyTitles(init);
      IndexOfTitlePrefix(books, n, title);
    } else {
      BuildTableHasTitles(init);
      forall j | 0 <= j < n
        ensures books[j].title != title
      {
        assert books[j] == init[j];
      }
    }
  }

  /** The keys come in the order in which their titles first occur in the
      catalog (a duplicate title does not move its key). */
  lemma {:induction false} BuildTableOrder(books: seq<Book>)
    ensures BuildTable(books).keys == FirstOccurrences(books)
    decreases |books|
  {
    if |books| > 0 {
      var n := |books| - 1;
      var init := books[..n];
      BuildTableOrder(init);
      LastTitleSeen(books);
      InsertEffect(BuildTable(init), books[n].title, books[n].fullSummary);
    }
  }

  // ---------------------------------------------------------------------
  // get_summary_by_title

  const NotFoundPrefix: string := "(Nu am găsit un rezumat pentru titlul: "

  /** The reply for a title the table does not know: it names the title. */
  function NotFoundMessage(title: string): (m: string)
    ensures |m| == |NotFoundPrefix| + |title| + 1
    ensures m[|NotFoundPrefix|..|NotFoundPrefix| + |title|] == title
  {
    NotFoundPrefix + title + ")"
  }

  /** The table holds a non-empty summary under exactly this key. */
  predicate ExactHit(t: SummaryTable, title: string) {
    title in t.entries && t.entries[title] != ""
  }

  /** The position of the first key, in table order, whose lower-case form is
      that of `title`. */
  function FirstCaseInsensitive(keys: seq<string>, title: string, lower: string -> string): (r: Option<nat>)
    ensures r.Some? ==> r.value < |keys| && lower(keys[r.value]) == lower(title)
    ensures r.Some? ==> forall j :: 0 <= j < r.value ==> lower(keys[j]) != lower(title)
    ensures r.None? ==> forall j :: 0 <= j < |keys| ==> lower(keys[j]) != lower(title)
    decreases |keys|
  {
    if |keys| == 0 then None
    else if lower(keys[0]) == lower(title) then Some(0)
    else match FirstCaseInsensitive(keys[1..], title, lower)
      case None => None
      case Some(i) => Some(i + 1)
  }

  /** What `get_summary_by_title(title)` returns: the summary stored under the
      exact title if it is non-empty; otherwise the value of the first key in
      table order that equals the title up to case; otherwise the not-found
      message.  The result is always a value of the table or that message. */
  function Lookup(t: SummaryTable, title: string, lower: string -> string): (r: string)
    requires t.Valid()
    ensures ExactHit(t, title) ==> r == t.entries[title]
    ensures !ExactHit(t, title) ==>
      forall i :: 0 <= i < |t.keys| && lower(t.keys[i]) == lower(title)
        && (forall j :: 0 <= j < i ==> lower(t.keys[j]) != lower(title))
        ==> r == t.entries[t.keys[i]]
    ensures !ExactHit(t, title) && (forall i :: 0 <= i < |t.keys| ==> lower(t.keys[i]) != lower(title))
      ==> r == NotFoundMessage(title)
    ensures r in t.entries.Values || r == NotFoundMessage(title)
  {
    if ExactHit(t, title) then t.entries[title]
    else match FirstCaseInsensitive(t.keys, title, lower)
      case Some(i) => t.entries[t.keys[i]]
      case None => NotFoundMessage(title)
  }

  /** Lookup ignores case for titles that are not exact hits: two such titles
      with the same lower-case form get the same summary, as long as some key
      matches them (otherwise each gets a not-found message naming itself). */
  lemma {:induction false} LookupCaseInsensitive(t: SummaryTable, a: string, b: string, lower: string -> string)
    requires t.Valid()
    requires lower(a) == lower(b) && !ExactHit(t, a) && !ExactHit(t, b)
    requires exists i :: 0 <= i < |t.keys| && lower(t.keys[i]) == lower(a)
    ensures Lookup(t, a, lower) == Lookup(t, b, lower)
  {
    assert FirstCaseInsensitive(t.keys, a, lower) == FirstCaseInsensitive(t.keys, b, lower);
  }

  /** Every title of the catalog resolves: looking it up in the table built
      from that catalog yields a value stored in the table, never the
      not-found message; and a title whose last book has a non-empty full
      summary yields exactly that summary. */
  lemma {:induction false} CatalogTitleResolves(books: seq<Book>, i: nat, lower: string -> string)
    requires i < |books|
    ensures BuildTable(books).Valid()
    ensures ExactHit(BuildTable(books), books[i].title)
      || FirstCaseInsensitive(BuildTable(books).keys, books[i].title, lower).Some?
    ensures Lookup(BuildTable(books), books[i].title, lower) in BuildTable(books).entries.Values
    ensures (forall j :: i < j < |books| ==> books[j].title != books[i].title) && books[i].fullSummary != ""
      ==> Lookup(BuildTable(books), books[i].title, lower) == books[i].fullSummary
  {
    var t := BuildTable(books);
    var title := books[i].title;
    BuildTableValid(books);
    BuildTableHasTitles(books);
    if !ExactHit(t, title) {
      assert title in t.keys;
      var p :| 0 <= p < |t.keys| && t.keys[p] == title;
      var m := FirstCaseInsensitive(t.keys, title, lower);
      assert m.Some?;
      assert t.keys[m.value] in t.entries;
    }
    if (forall j :: i < j < |books| ==> books[j].title != title) {
      BuildTableLastWins(books, i);
    }
  }

  /** `get_summary_by_title`: an exact lookup, then a linear search over the
      keys in table order that returns at the first case-insensitive match.
      Only reads the table. */
  method GetSummaryByTitle(t: SummaryTable, title: string, lower: string -> string) returns (r: string)
    requires t.Valid()
    ensures r == Lookup(t, title, lower)
  {
    if title in t.entries && t.entries[title] != "" {
      return t.entries[title];
    }
    var i := 0;
    while i < |t.keys|
      invariant 0 <= i <= |t.keys|
      invariant forall j :: 0 <= j < i ==> lower(t.keys[j]) != lower(title)
    {
      var key := t.keys[i];
      if lower(key) == lower(title) {
        return t.entries[key];
      }
      i := i + 1;
    }
    return NotFoundMessage(title);
  }
}
