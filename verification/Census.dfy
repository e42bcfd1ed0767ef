/** The paginated sandbox census and the leak delta drawn from two of them. */
module Census {
  import opened Wrappers
  import opened Sequences

  /** A sandbox as the listing reports it; either member may be missing. */
  datatype Row = Row(id: Option<string>, state: Option<string>)

  datatype NextPage<C> = NoNext | Unusable | At(cursor: C)

  /** What one request comes back with. A row that is not an object is `None`. */
  datatype Answer<C> = Refused | NotAPage | Page(rows: seq<Option<Row>>, next: NextPage<C>)

  /** The server's answer to the n-th request, which carries a cursor after the first page. */
  type Server<!C> = (nat, Option<C>) -> Answer<C>

  datatype Report =
    | Unavailable
    | Counted(total: nat, pages: nat, byState: map<string, nat>, nonterminal: nat, ids: seq<string>, truncated: bool)

  const CENSUS_ID_CAP: nat := 50
  const CENSUS_PAGE_LIMIT: nat := 500
  const TERMINAL: set<string> := {"destroyed", "failed"}

  // ----- Reading rows -----

  function Objects(rows: seq<Option<Row>>): seq<Row>
  {
    if rows == [] then [] else (if rows[0].Some? then [rows[0].value] else []) + Objects(rows[1..])
  }

  function StateText(r: Row): string { if r.state.Some? then r.state.value else "unknown" }

  function IdText(r: Row): string { if r.id.Some? then r.id.value else "None" }

  predicate IsLive(r: Row) { (if r.state.Some? then r.state.value else "") !in TERMINAL }

  function LiveId(r: Row): seq<string> { if IsLive(r) then [IdText(r)] else [] }

  function Live(rows: seq<Row>): seq<string> { FlatMap(LiveId, rows) }

  function Count(m: map<string, nat>, s: string): nat { if s in m then m[s] else 0 }

  function Tally(m: map<string, nat>, rows: seq<Row>): map<string, nat>
    decreases |rows|
  {
    if rows == [] then m else
      var s := StateText(rows[0]);
      Tally(m[s := Count(m, s) + 1], rows[1..])
  }

  function InState(rows: seq<Row>, s: string): nat
  {
    if rows == [] then 0 else (if StateText(rows[0]) == s then 1 else 0) + InState(rows[1..], s)
  }

  /** The tally holds, for every state, the number of rows in it. */
  lemma {:induction false} TallyCounts(m: map<string, nat>, rows: seq<Row>, s: string)
    ensures Count(Tally(m, rows), s) == Count(m, s) + InState(rows, s)
    decreases |rows|
  {
    if rows != [] {
      var t := StateText(rows[0]);
      TallyCounts(m[t := Count(m, t) + 1], rows[1..], s);
    }
  }

  lemma {:induction false} TallyConcat(m: map<string, nat>, a: seq<Row>, b: seq<Row>)
    ensures Tally(Tally(m, a), b) == Tally(m, a + b)
    decreases |a|
  {
    if a == [] {
      assert a + b == b;
    } else {
      var t := StateText(a[0]);
      TallyConcat(m[t := Count(m, t) + 1], a[1..], b);
      assert (a + b)[1..] == a[1..] + b;
    }
  }

  /** The running counts of a census. */
  datatype Counts = Counts(states: map<string, nat>, live: seq<string>, total: nat)

  function CountsOf(rows: seq<Row>): Counts { Counts(Tally(map[], rows), Live(rows), |rows|) }

  function AddRows(c: Counts, rows: seq<Row>): Counts
  {
    Counts(Tally(c.states, rows), c.live + Live(rows), c.total + |rows|)
  }

  /** Counting page by page agrees with counting all the rows at once. */
  lemma {:induction false} AddRowsConcat(a: seq<Row>, b: seq<Row>)
    ensures AddRows(CountsOf(a), b) == CountsOf(a + b)
  {
    TallyConcat(map[], a, b);
    FlatMapConcat(LiveId, a, b);
  }

  function Reported(c: Counts, pages: nat): Report
  {
    Counted(c.total, pages, c.states, |c.live|,
            if |c.live| > CENSUS_ID_CAP then c.live[..CENSUS_ID_CAP] else c.live, |c.live| > CENSUS_ID_CAP)
  }

  /** What a census of a set of rows says. */
  function Summary(rows: seq<Row>, pages: nat): Report { Reported(CountsOf(rows), pages) }

  // ----- The pages a server leads through -----

  /** The cursor carried by request `k`: the one page `k - 1` ended with. */
  function After<C>(server: Server<C>, k: nat): Option<C>
    decreases k, 0
  {
    if k == 0 then None
    else
      match PageAt(server, k - 1)
      case Page(_, At(c)) => Some(c)
      case _ => None
  }

  function PageAt<C>(server: Server<C>, k: nat): Answer<C>
    decreases k, 1
  {
    server(k, After(server, k))
  }

  predicate Continues<C>(a: Answer<C>) { a.Page? && a.next.At? }

  /** The first `n` pages each lead on, by cursors that are all different. */
  predicate Chain<C(==)>(server: Server<C>, n: nat)
  {
    && (forall k :: 0 <= k < n ==> Continues(PageAt(server, k)))
    && (forall i, j :: 0 <= i < j < n ==> PageAt(server, i).next.cursor != PageAt(server, j).next.cursor)
  }

  /** The listing ends after exactly `n` pages. */
  predicate Complete<C(==)>(server: Server<C>, n: nat)
  {
    n >= 1 && Chain(server, n - 1) && PageAt(server, n - 1).Page? && PageAt(server, n - 1).next.NoNext?
  }

  function RowsUpTo<C>(server: Server<C>, n: nat): seq<Row>
  {
    if n == 0 then []
    else RowsUpTo(server, n - 1) + (if PageAt(server, n - 1).Page? then Objects(PageAt(server, n - 1).rows) else [])
  }

  /** Whatever the server does, the census ends; it reports a count exactly when the listing
      ends within 500 pages through cursors that never repeat, and then the count is that of
      every row of every page. */
  method SandboxCensus<C(==)>(server: Server<C>) returns (report: Report)
    ensures report.Counted? <==> exists n :: 1 <= n <= CENSUS_PAGE_LIMIT && Complete(server, n)
    ensures report.Counted? ==> Complete(server, report.pages) && report == Summary(RowsUpTo(server, report.pages), report.pages)
  {
    var counts := Counts(map[], [], 0);
    var after: Option<C>, seen: set<C> := None, {};
    for page := 0 to CENSUS_PAGE_LIMIT
      invariant Chain(server, page) && after == After(server, page)
      invariant seen == CursorsOf(server, page)
      invariant counts == CountsOf(RowsUpTo(server, page))
      invariant forall n :: 1 <= n <= page ==> !Complete(server, n)
    {
      var answer := server(page, after);
      assert answer == PageAt(server, page);
      if !answer.Page? {
        NoCompletion(server, page);
        return Unavailable;
      }
      var rows := Objects(answer.rows);
      AddRowsConcat(RowsUpTo(server, page), rows);
      counts := AddRows(counts, rows);
      if answer.next.NoNext? {
        assert Complete(server, page + 1);
        return Reported(counts, page + 1);
      }
      if answer.next.Unusable? {
        NoCompletion(server, page);
        return Unavailable;
      }
      var cursor := answer.next.cursor;
      if cursor in seen {
        RepeatedCursor(server, page);
        return Unavailable;
      }
      ChainGrows(server, page);
      seen := seen + {cursor};
      after := Some(cursor);
    }
    return Unavailable;
  }

  function CursorsOf<C(==)>(server: Server<C>, n: nat): set<C>
    requires Chain(server, n)
  {
    set k | 0 <= k < n :: PageAt(server, k).next.cursor
  }

  /** A page that neither ends the listing nor leads on leaves it incomplete for good. */
  lemma {:induction false} NoCompletion<C>(server: Server<C>, page: nat)
    requires !Continues(PageAt(server, page)) && !(PageAt(server, page).Page? && PageAt(server, page).next.NoNext?)
    requires forall n :: 1 <= n <= page ==> !Complete(server, n)
    ensures forall n :: 1 <= n ==> !Complete(server, n)
  {
    forall n | 1 <= n ensures !Complete(server, n) {
      assert n > page + 1 && Chain(server, n - 1) ==> Continues(PageAt(server, page));
    }
  }

  lemma {:induction false} RepeatedCursor<C>(server: Server<C>, page: nat)
    requires Chain(server, page) && Continues(PageAt(server, page))
    requires PageAt(server, page).next.cursor in CursorsOf(server, page)
    requires forall n :: 1 <= n <= page ==> !Complete(server, n)
    ensures forall n :: 1 <= n ==> !Complete(server, n)
  {
    var i :| 0 <= i < page && PageAt(server, i).next.cursor == PageAt(server, page).next.cursor;
    forall n | 1 <= n ensures !Complete(server, n) {
      assert n > page + 1 ==> !Chain(server, n - 1);
    }
  }

  lemma {:induction false} ChainGrows<C>(server: Server<C>, page: nat)
    requires Chain(server, page) && Continues(PageAt(server, page))
    requires PageAt(server, page).next.cursor !in CursorsOf(server, page)
    ensures Chain(server, page + 1)
    ensures CursorsOf(server, page + 1) == CursorsOf(server, page) + {PageAt(server, page).next.cursor}
    ensures !Complete(server, page + 1)
    ensures After(server, page + 1) == Some(PageAt(server, page).next.cursor)
  {
    forall i | 0 <= i < page ensures PageAt(server, i).next.cursor != PageAt(server, page).next.cursor {
      assert PageAt(server, i).next.cursor in CursorsOf(server, page);
    }
  }
}
