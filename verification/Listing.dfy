/** The census against the control plane's own listing, and the leaks it can show. */
module Listing {
  import opened Wrappers
  import opened Census

  /** A listing's order: when a sandbox was created, then which one. */
  datatype Key = Key(createdAt: int, id: int)

  predicate Before(a: Key, b: Key) { a.createdAt < b.createdAt || (a.createdAt == b.createdAt && a.id < b.id) }

  datatype Sandbox = Sandbox(key: Key, row: Row)

  /** A tenant's sandboxes, newest first. */
  predicate NewestFirst(table: seq<Sandbox>)
  {
    forall i, j :: 0 <= i < j < |table| ==> Before(table[j].key, table[i].key)
  }

  /** The sandboxes strictly after a cursor in that order. */
  function Past(table: seq<Sandbox>, after: Option<Key>): seq<Sandbox>
  {
    if after.None? || table == [] then table
    else (if Before(table[0].key, after.value) then [table[0]] else []) + Past(table[1..], after)
  }

  function Rows(table: seq<Sandbox>): (r: seq<Row>)
    ensures |r| == |table| && forall i :: 0 <= i < |table| ==> r[i] == table[i].row
  {
    seq(|table|, i requires 0 <= i < |table| => table[i].row)
  }

  function AsPage(table: seq<Sandbox>): (r: seq<Option<Row>>)
    ensures |r| == |table| && forall i :: 0 <= i < |table| ==> r[i] == Some(table[i].row)
  {
    seq(|table|, i requires 0 <= i < |table| => Some(table[i].row))
  }

  /** One page: the rows past the cursor, cut to the limit, and the last of them as the next
      cursor when any were held back. */
  function ListPage(table: seq<Sandbox>, limit: nat, after: Option<Key>): Answer<Key>
    requires limit >= 1
  {
    var page := Past(table, after);
    if |page| > limit then Page(AsPage(page[..limit]), At(page[limit - 1].key))
    else Page(AsPage(page), NoNext)
  }

  function ServerOf(table: seq<Sandbox>, limit: nat): Server<Key>
    requires limit >= 1
  {
    (k: nat, after: Option<Key>) => ListPage(table, limit, after)
  }

  // ----- Paging through a fixed listing -----

  lemma {:induction false} PastNothing(table: seq<Sandbox>, key: Key)
    requires forall i :: 0 <= i < |table| ==> Before(table[i].key, key)
    ensures Past(table, Some(key)) == table
  {
    if table != [] {
      PastNothing(table[1..], key);
    }
  }

  /** Paging from a row of the table resumes right after it. */
  lemma {:induction false} PastRow(table: seq<Sandbox>, i: nat)
    requires NewestFirst(table) && i < |table|
    ensures Past(table, Some(table[i].key)) == table[i + 1..]
  {
    if i == 0 {
      PastNothing(table[1..], table[0].key);
    } else {
      PastRow(table[1..], i - 1);
    }
  }

  lemma {:induction false} ObjectsOfPage(table: seq<Sandbox>)
    ensures Objects(AsPage(table)) == Rows(table)
  {
    if table != [] {
      ObjectsOfPage(table[1..]);
      assert AsPage(table)[1..] == AsPage(table[1..]);
      assert Rows(table) == [table[0].row] + Rows(table[1..]);
    }
  }

  /** Where page `k` begins when every page before it was full. */
  function Offset(limit: nat, k: nat): nat
  {
    if k == 0 then 0 else Offset(limit, k - 1) + limit
  }

  lemma {:induction false} OffsetsGrow(limit: nat, i: nat, j: nat)
    requires limit >= 1 && i < j
    ensures Offset(limit, i) + limit <= Offset(limit, j)
  {
    if i + 1 < j {
      OffsetsGrow(limit, i, j - 1);
    }
  }

  function Cut(table: seq<Sandbox>, at: nat): nat { if at < |table| then at else |table| }

  /** Page `k` as the listing serves it from an offset. */
  function PageFrom(table: seq<Sandbox>, limit: nat, at: nat): Answer<Key>
    requires limit >= 1 && at <= |table|
  {
    Page(AsPage(table[at..Cut(table, at + limit)]),
         if at + limit < |table| then At(table[at + limit - 1].key) else NoNext)
  }

  lemma {:induction false} PageOf(table: seq<Sandbox>, limit: nat, k: nat)
    requires NewestFirst(table) && limit >= 1 && (k == 0 || Offset(limit, k) < |table|)
    ensures Offset(limit, k) <= |table|
    ensures PageAt(ServerOf(table, limit), k) == PageFrom(table, limit, Offset(limit, k))
  {
    var at := Offset(limit, k);
    if k > 0 {
      PageOf(table, limit, k - 1);
      assert After(ServerOf(table, limit), k) == Some(table[at - 1].key);
      PastRow(table, at - 1);
    }
    PageIsFrom(table, limit, at);
  }

  lemma {:induction false} PageIsFrom(table: seq<Sandbox>, limit: nat, at: nat)
    requires limit >= 1 && at <= |table|
    ensures var page := table[at..];
            PageFrom(table, limit, at) ==
              if |page| > limit then Page(AsPage(page[..limit]), At(page[limit - 1].key)) else Page(AsPage(page), NoNext)
  {
    var page := table[at..];
    assert |page| > limit ==> page[..limit] == table[at..at + limit] && page[limit - 1] == table[at + limit - 1];
    assert |page| <= limit ==> page == table[at..Cut(table, at + limit)];
  }

  lemma {:induction false} RowsStep(table: seq<Sandbox>, limit: nat, k: nat, at: nat, to: nat)
    requires limit >= 1 && at <= |table| && to == Cut(table, at + limit) && RowsUpTo(ServerOf(table, limit), k) == Rows(table[..at])
    requires PageAt(ServerOf(table, limit), k) == PageFrom(table, limit, at)
    ensures RowsUpTo(ServerOf(table, limit), k + 1) == Rows(table[..to])
  {
    ObjectsOfPage(table[at..to]);
    assert Rows(table[..to]) == Rows(table[..at]) + Rows(table[at..to]) by {
      assert table[..to] == table[..at] + table[at..to];
    }
  }

  lemma {:induction false} RowsOf(table: seq<Sandbox>, limit: nat, k: nat)
    requires NewestFirst(table) && limit >= 1 && (k <= 1 || Offset(limit, k - 1) < |table|)
    ensures RowsUpTo(ServerOf(table, limit), k) == Rows(table[..Cut(table, Offset(limit, k))])
    decreases k
  {
    if k == 0 {
      assert table[..0] == [];
    } else {
      RowsOf(table, limit, k - 1);
      RowsNext(table, limit, k - 1);
    }
  }

  lemma {:induction false} RowsNext(table: seq<Sandbox>, limit: nat, k: nat)
    requires NewestFirst(table) && limit >= 1 && (k == 0 || Offset(limit, k) < |table|)
    requires RowsUpTo(ServerOf(table, limit), k) == Rows(table[..Cut(table, Offset(limit, k))])
    ensures RowsUpTo(ServerOf(table, limit), k + 1) == Rows(table[..Cut(table, Offset(limit, k + 1))])
  {
    PageOf(table, limit, k);
    RowsStep(table, limit, k, Offset(limit, k), Cut(table, Offset(limit, k + 1)));
  }

  /** How many pages a listing takes: one for an empty one, else enough for every row. */
  function PageCount(limit: nat, size: nat): (n: nat)
    requires limit >= 1
    ensures n >= 1 && size <= Offset(limit, n) && (n == 1 || Offset(limit, n - 1) < size)
  {
    if size <= limit then assert Offset(limit, 1) == limit; 1 else 1 + PageCount(limit, size - limit)
  }

  predicate PagesNeeded(table: seq<Sandbox>, limit: nat, n: nat)
  {
    n >= 1 && |table| <= Offset(limit, n) && (n == 1 || Offset(limit, n - 1) < |table|)
  }

  lemma {:induction false} FullPage(table: seq<Sandbox>, limit: nat, n: nat, k: nat)
    requires NewestFirst(table) && limit >= 1 && PagesNeeded(table, limit, n) && k < n - 1
    ensures var page, last := PageAt(ServerOf(table, limit), k), Offset(limit, k) + limit - 1;
            last < |table| && Continues(page) && page.next.cursor == table[last].key
  {
    OffsetsGrow(limit, k, n - 1);
    PageOf(table, limit, k);
  }

  lemma {:induction false} ListingCompletes(table: seq<Sandbox>, limit: nat, n: nat)
    requires NewestFirst(table) && limit >= 1 && PagesNeeded(table, limit, n)
    ensures Complete(ServerOf(table, limit), n)
    ensures RowsUpTo(ServerOf(table, limit), n) == Rows(table)
  {
    var server := ServerOf(table, limit);
    forall k | 0 <= k < n - 1 ensures Continues(PageAt(server, k)) {
      FullPage(table, limit, n, k);
    }
    forall i, j | 0 <= i < j < n - 1 ensures PageAt(server, i).next.cursor != PageAt(server, j).next.cursor {
      FullPage(table, limit, n, i);
      FullPage(table, limit, n, j);
      OffsetsGrow(limit, i, j);
    }
    PageOf(table, limit, n - 1);
    RowsOf(table, limit, n);
    assert table[..|table|] == table;
  }

  lemma {:induction false} CompleteUnique<C>(server: Server<C>, m: nat, n: nat)
    requires Complete(server, m) && Complete(server, n)
    ensures m == n
  {
  }

  /** Against the control plane's listing the census is exact: it counts if and only if the
      listing fits in 500 pages, and then its total, its per-state counts and its non-terminal
      ids are those of the whole table. */
  method CensusOfListing(table: seq<Sandbox>, limit: nat) returns (report: Report)
    requires NewestFirst(table) && limit >= 1
    ensures var n := PageCount(limit, |table|);
            report == if n <= CENSUS_PAGE_LIMIT then Summary(Rows(table), n) else Unavailable
  {
    ghost var n := PageCount(limit, |table|);
    ListingCompletes(table, limit, n);
    report := SandboxCensus(ServerOf(table, limit));
    if report.Counted? {
      CompleteUnique(ServerOf(table, limit), report.pages, n);
    } else {
      assert n > CENSUS_PAGE_LIMIT;
    }
  }

  // ----- The leak delta -----

  datatype NewIds = Withheld | Ids(ids: set<string>)

  datatype Delta = NoAccounting | Delta(before: nat, after: nat, unseen: NewIds)

  function ToSet(ids: seq<string>): set<string> { set i | i in ids }

  /** What is held at the end that was not held at the start. */
  function LeakDelta(before: Report, after: Report): Delta
  {
    if before.Unavailable? || after.Unavailable? then NoAccounting
    else
      Delta(before.nonterminal, after.nonterminal,
            if before.truncated || after.truncated then Withheld
            else Ids(ToSet(after.ids) - ToSet(before.ids)))
  }

  /** Every id live in a table. */
  ghost function LiveIds(table: seq<Sandbox>): set<string>
  {
    set i | 0 <= i < |table| && IsLive(table[i].row) :: IdText(table[i].row)
  }

  lemma {:induction false} LiveIdsOfRows(table: seq<Sandbox>)
    ensures ToSet(Live(Rows(table))) == LiveIds(table)
  {
    if table != [] {
      var rest := table[1..];
      LiveIdsOfRows(rest);
      assert Rows(table)[1..] == Rows(rest);
      assert Live(Rows(table)) == LiveId(table[0].row) + Live(Rows(rest));
      assert ToSet(Live(Rows(table))) == ToSet(LiveId(table[0].row)) + ToSet(Live(Rows(rest)));
      assert LiveIds(table) == ToSet(LiveId(table[0].row)) + LiveIds(rest) by {
        assert forall i :: 0 <= i < |rest| ==> rest[i] == table[i + 1];
        assert forall i :: 1 <= i < |table| ==> table[i] == rest[i - 1];
      }
    }
  }

  /** Between two censuses of the listing, the delta is exactly the ids live at the end and not
      at the start when neither id list was cut at the cap, and it is withheld whenever either
      was. */
  lemma {:induction false} LeakDeltaExact(before: seq<Sandbox>, after: seq<Sandbox>, m: nat, n: nat)
    ensures var delta := LeakDelta(Summary(Rows(before), m), Summary(Rows(after), n));
            var cut := |Live(Rows(before))| > CENSUS_ID_CAP || |Live(Rows(after))| > CENSUS_ID_CAP;
            && delta.Delta?
            && delta.before == |Live(Rows(before))| && delta.after == |Live(Rows(after))|
            && delta.unseen == if cut then Withheld else Ids(LiveIds(after) - LiveIds(before))
  {
    LiveIdsOfRows(before);
    LiveIdsOfRows(after);
  }

  /** Two censuses of the listing and the delta between them: refused exactly when either needs
      more than 500 pages, and otherwise exact. */
  method LeakBetween(before: seq<Sandbox>, after: seq<Sandbox>, limit: nat) returns (delta: Delta)
    requires NewestFirst(before) && NewestFirst(after) && limit >= 1
    ensures delta == NoAccounting
        <==> PageCount(limit, |before|) > CENSUS_PAGE_LIMIT || PageCount(limit, |after|) > CENSUS_PAGE_LIMIT
    ensures var cut := |Live(Rows(before))| > CENSUS_ID_CAP || |Live(Rows(after))| > CENSUS_ID_CAP;
            delta.Delta? ==>
              && delta.before == |Live(Rows(before))| && delta.after == |Live(Rows(after))|
              && delta.unseen == if cut then Withheld else Ids(LiveIds(after) - LiveIds(before))
  {
    var start := CensusOfListing(before, limit);
    var end := CensusOfListing(after, limit);
    LeakDeltaExact(before, after, PageCount(limit, |before|), PageCount(limit, |after|));
    delta := LeakDelta(start, end);
  }
}
