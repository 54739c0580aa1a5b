/** The Python engine's paged scan of a source table (extractor/extractor.py, _extract and
    build_page_query) over a durable watermark (extractor/watermark_manager.py). */
module Extraction {
  import opened Options

  /** What a row holds besides its key: the cursor column, as seconds since 1970, and everything else. */
  datatype Columns = Columns(cursor: Option<int>, body: int)

  datatype Row = Row(pk: int, cols: Columns)

  type Table = map<int, Columns>

  predicate In(t: Table, r: Row) { r.pk in t && t[r.pk] == r.cols }

  datatype Watermark = Watermark(cursor: Option<int>, lastPk: Option<int>)

  const MIN_PK: int := -0x8000_0000_0000_0000
  const EPOCH: int := 0

  /** The three page queries: NULL-cursor rows by key, dated rows by cursor and key, all rows by key. */
  datatype Query = NullRows(after: int) | Dated(cursor: int, after: int) | ByKey(after: int)

  predicate InNullPhase(usable: bool, start: Option<Watermark>) {
    usable && (start.None? || start.value.cursor.None?)
  }

  function PageQuery(usable: bool, start: Option<Watermark>): Query {
    var lastPk := if start.Some? && start.value.lastPk.Some? then start.value.lastPk.value else MIN_PK;
    if usable then
      if InNullPhase(usable, start) then NullRows(lastPk) else Dated(start.value.cursor.value, lastPk)
    else ByKey(lastPk)
  }

  predicate Selects(q: Query, r: Row) {
    match q
    case NullRows(k) => r.cols.cursor.None? && r.pk > k
    case Dated(c, k) => r.cols.cursor.Some? && (r.cols.cursor.value > c || (r.cols.cursor.value == c && r.pk > k))
    case ByKey(k) => r.pk > k
  }

  /** The order of a scan: NULL-cursor rows by key, then dated rows by cursor and key; by key alone
      where the table has no usable cursor. */
  predicate Before(usable: bool, a: Row, b: Row) {
    if !usable then a.pk < b.pk
    else if a.cols.cursor.None? then b.cols.cursor.Some? || a.pk < b.pk
    else b.cols.cursor.Some? &&
         (a.cols.cursor.value < b.cols.cursor.value || (a.cols.cursor.value == b.cols.cursor.value && a.pk < b.pk))
  }

  predicate Ascends(usable: bool, rows: seq<Row>) {
    forall i, j | 0 <= i < j < |rows| :: Before(usable, rows[i], rows[j])
  }

  /** What the database returns for one page query: the first n selected rows, in order. */
  ghost predicate IsPage(usable: bool, t: Table, q: Query, n: nat, page: seq<Row>) {
    && |page| <= n
    && Ascends(usable, page)
    && (forall r | r in page :: In(t, r) && Selects(q, r))
    && (forall r :: In(t, r) && Selects(q, r) ==>
        r in page || (|page| == n && (page == [] || Before(usable, page[|page| - 1], r))))
  }

  // ---- The query itself ----

  predicate IsLeast(usable: bool, rows: set<Row>, r: Row) {
    r in rows && forall o | o in rows :: o == r || Before(usable, r, o)
  }

  predicate DistinctKeys(rows: set<Row>) { forall a, b | a in rows && b in rows && a.pk == b.pk :: a == b }

  method Least(usable: bool, rows: set<Row>) returns (least: Row)
    requires rows != {} && DistinctKeys(rows)
    ensures IsLeast(usable, rows, least)
  {
    least :| least in rows;
    var todo := rows - {least};
    while todo != {}
      invariant todo <= rows && least in rows && least !in todo
      invariant forall o | o in rows && o !in todo :: o == least || Before(usable, least, o)
    {
      var o :| o in todo;
      if Before(usable, o, least) { least := o; }
      todo := todo - {o};
    }
  }

  /** SELECT … WHERE … ORDER BY … LIMIT n. */
  method Fetch(usable: bool, t: Table, q: Query, n: nat) returns (page: seq<Row>)
    ensures IsPage(usable, t, q, n, page)
  {
    var rest := set k | k in t && Selects(q, Row(k, t[k])) :: Row(k, t[k]);
    page := [];
    assert forall r :: In(t, r) && Selects(q, r) ==> r in rest by {
      forall r | In(t, r) && Selects(q, r) ensures r in rest { assert r == Row(r.pk, t[r.pk]); }
    }
    while |page| < n && rest != {}
      invariant |page| <= n && Ascends(usable, page)
      invariant forall r | r in rest || r in page :: In(t, r) && Selects(q, r)
      invariant forall r :: In(t, r) && Selects(q, r) ==> r in page || r in rest
      invariant forall a, r | a in page && r in rest :: Before(usable, a, r)
      decreases n - |page|
    {
      var r := Least(usable, rest);
      page := page + [r];
      rest := rest - {r};
    }
  }

  // ---- Positions of a scan ----

  /** The position just after a row: the query the next page uses. */
  function Next(q: Query, r: Row): Query
    requires Selects(q, r)
  {
    match q
    case NullRows(_) => NullRows(r.pk)
    case Dated(_, _) => Dated(r.cols.cursor.value, r.pk)
    case ByKey(_) => ByKey(r.pk)
  }

  /** The rows a scan at position q has still to read: those its query selects and, while it reads
      NULL-cursor rows, the dated rows of its second phase. */
  predicate Ahead(q: Query, r: Row) {
    Selects(q, r) || (q.NullRows? && Selects(Dated(EPOCH, MIN_PK), r))
  }

  /** Rows a scan from the beginning reads. */
  predicate Reachable(usable: bool, r: Row) { Ahead(PageQuery(usable, None), r) }

  predicate Fits(usable: bool, q: Query) { usable <==> !q.ByKey? }

  lemma NextAdvances(usable: bool, q: Query, last: Row, r: Row)
    requires Fits(usable, q) && Selects(q, last)
    ensures Ahead(Next(q, last), r) <==> Ahead(q, r) && Before(usable, last, r)
  {
  }

  /** What a scan from q0 that has asked its first i queries and stands at `at` has done: read, in scan
      order, rows that were there, and left none of the rows behind it unread that were there throughout. */
  ghost predicate Scanned(usable: bool, src: nat -> Table, i: nat, q0: Query, read: seq<Row>, at: Query) {
    && Fits(usable, q0) && Fits(usable, at)
    && Ascends(usable, read)
    && (forall r | r in read :: Ahead(q0, r) && !Ahead(at, r) && Seen(src, i, r))
    && (forall r :: Stable(src, i, r) && Ahead(q0, r) ==> r in read || Ahead(at, r))
    && (forall r, a :: Ahead(at, r) && a in read ==> Before(usable, a, r))
    && (forall r :: Ahead(at, r) ==> Ahead(q0, r))
  }

  /** The row was in the source at one of the first i queries, or at all of them. */
  ghost predicate Seen(src: nat -> Table, i: nat, r: Row) { exists j: nat :: j < i && In(src(j), r) }
  ghost predicate Stable(src: nat -> Table, i: nat, r: Row) { forall j: nat | j < i :: In(src(j), r) }

  function Moved(at: Query, page: seq<Row>): Query
    requires forall r | r in page :: Selects(at, r)
  {
    if page == [] then at else Next(at, page[|page| - 1])
  }

  lemma MovedPast(usable: bool, at: Query, page: seq<Row>, r: Row)
    requires Fits(usable, at) && Ascends(usable, page) && forall p | p in page :: Selects(at, p)
    ensures Ahead(Moved(at, page), r) ==> Ahead(at, r) && forall p | p in page :: Before(usable, p, r)
    ensures r in page ==> !Ahead(Moved(at, page), r)
    ensures page != [] && Ahead(at, r) && Before(usable, page[|page| - 1], r) ==> Ahead(Moved(at, page), r)
  {
    if page != [] {
      var last := page[|page| - 1];
      NextAdvances(usable, at, last, r);
    }
  }

  /** Reading one page keeps the account of the scan. */
  lemma PageKeeps(usable: bool, src: nat -> Table, i: nat, n: nat, q0: Query, read: seq<Row>, at: Query, page: seq<Row>)
    requires n >= 1 && Scanned(usable, src, i, q0, read, at) && IsPage(usable, src(i), at, n, page)
    ensures Scanned(usable, src, i + 1, q0, read + page, Moved(at, page))
    ensures |page| < n ==> forall r :: Stable(src, i + 1, r) ==> !Selects(Moved(at, page), r)
  {
    var now := Moved(at, page);
    forall r | Ahead(now, r) ensures Ahead(q0, r) && forall a | a in read + page :: Before(usable, a, r) {
      MovedPast(usable, at, page, r);
    }
    forall r | r in read + page ensures Ahead(q0, r) && !Ahead(now, r) && Seen(src, i + 1, r) {
      MovedPast(usable, at, page, r);
      if r in page { assert In(src(i), r); }
    }
    forall r | Stable(src, i + 1, r) ensures Stable(src, i, r) && In(src(i), r) {}
    forall r | Stable(src, i + 1, r) && Ahead(q0, r) ensures r in read + page || Ahead(now, r) {
      assert Stable(src, i, r) && (r in read || Ahead(at, r));
      if r !in read { LeftOver(usable, src(i), at, n, page, r); }
    }
    if |page| < n {
      forall r | Stable(src, i + 1, r) ensures !Selects(now, r) {
        MovedPast(usable, at, page, r);
        NotSelectedAgain(usable, src(i), at, n, page, r);
      }
    }
    assert Ascends(usable, read + page);
  }

  lemma LeftOver(usable: bool, t: Table, at: Query, n: nat, page: seq<Row>, r: Row)
    requires Fits(usable, at) && IsPage(usable, t, at, n, page) && n >= 1 && In(t, r) && Ahead(at, r)
    ensures r in page || Ahead(Moved(at, page), r)
  {
    MovedPast(usable, at, page, r);
  }

  lemma NotSelectedAgain(usable: bool, t: Table, at: Query, n: nat, page: seq<Row>, r: Row)
    requires Fits(usable, at) && IsPage(usable, t, at, n, page) && |page| < n && In(t, r)
    ensures !Selects(Moved(at, page), r)
  {
    MovedPast(usable, at, page, r);
  }

  /** Moving on to the dated rows once no NULL-cursor row is left. */
  lemma SwitchKeeps(usable: bool, src: nat -> Table, i: nat, q0: Query, read: seq<Row>, at: Query)
    requires Scanned(usable, src, i, q0, read, at) && at.NullRows?
    requires forall r :: Stable(src, i, r) ==> !Selects(at, r)
    ensures Scanned(usable, src, i, q0, read, Dated(EPOCH, MIN_PK))
  {
    forall r | Ahead(Dated(EPOCH, MIN_PK), r) ensures Ahead(at, r) {}
  }

  // ---- The run ----

  function Applied(live: Table, rows: seq<Row>): Table {
    if rows == [] then live
    else
      var last := rows[|rows| - 1];
      Applied(live, rows[..|rows| - 1])[last.pk := last.cols]
  }

  /** Where a run starts: the stored watermark, moved back by the lookback once it names a cursor. */
  function StartOf(usable: bool, stored: Option<Watermark>, lookback: int): Option<Watermark> {
    if !usable then None
    else if stored.Some? && stored.value.cursor.Some? && lookback > 0 then
      Some(Watermark(Some(stored.value.cursor.value - lookback), None))
    else stored
  }

  /** The durable state of one table and target: its watermark row and its live rows. */
  class Target {
    var watermark: Option<Watermark>
    var live: Table

    constructor (stored: Option<Watermark>, rows: Table)
      ensures watermark == stored && live == rows
    {
      watermark, live := stored, rows;
    }

    method Update(cursor: Option<int>, lastPk: Option<int>)
      modifies this`watermark
      ensures watermark == Some(Watermark(cursor, lastPk))
    {
      watermark := Some(Watermark(cursor, lastPk));
    }

    method Reset()
      modifies this`watermark
      ensures watermark == None
    {
      watermark := None;
    }

    /** The warehouse applies every row a Python page stages, or refuses the whole page. */
    method Upsert(rows: seq<Row>, fenced: bool) returns (written: bool)
      modifies this`live
      ensures written == !fenced && live == if fenced then old(live) else Applied(old(live), rows)
    {
      written := !fenced;
      if fenced { return; }
      assert rows[..0] == [];
      for i := 0 to |rows|
        invariant live == Applied(old(live), rows[..i])
      {
        assert rows[..i + 1][..i] == rows[..i];
        live := live[rows[i].pk := rows[i].cols];
      }
      assert rows[..|rows|] == rows;
    }
  }

  ghost predicate Static(src: nat -> Table) { forall i: nat :: src(i) == src(0) }

  /** A run of _extract that is fenced, or dies, at its first commit after `commits` of them; src(i) is
      the source as the i-th page query sees it. */
  method Extract(target: Target, usable: bool, lookback: int, n: nat, src: nat -> Table, commits: nat)
      returns (read: seq<Row>, finished: bool, queries: nat, ghost at: Query)
    requires n >= 1
    modifies target
    ensures Scanned(usable, src, queries, PageQuery(usable, StartOf(usable, old(target.watermark), lookback)), read, at)
    ensures finished ==> forall r :: Stable(src, queries, r) ==> !Ahead(at, r)
    ensures target.live == Applied(old(target.live), read)
    ensures usable ==> ResumesAt(target.watermark, old(target.watermark), lookback, read, at)
    ensures !usable ==> target.watermark == old(target.watermark)
    ensures Static(src) && commits > |src(0)| + 1 ==> finished
  {
    var start := StartOf(usable, target.watermark, lookback);
    var nullPhase := InNullPhase(usable, start);
    var left: nat := commits;
    read, finished, queries := [], false, 0;
    ghost var q0 := PageQuery(usable, start);
    at := q0;
    while true
      invariant Scanned(usable, src, queries, q0, read, at)
      invariant at == PageQuery(usable, start)
      invariant nullPhase == InNullPhase(usable, start)
      invariant target.live == Applied(old(target.live), read)
      invariant usable ==> ResumesAt(target.watermark, old(target.watermark), lookback, read, at)
      invariant !usable ==> target.watermark == old(target.watermark)
      invariant !finished && commits <= left + |read| + (if q0.NullRows? && !at.NullRows? then 1 else 0)
      invariant q0.NullRows? || !at.NullRows?
      decreases left
    {
      var page := Fetch(usable, src(queries), PageQuery(usable, start), n);
      PageKeeps(usable, src, queries, n, q0, read, at, page);
      queries := queries + 1;
      if page != [] {
        AppliedTwice(old(target.live), read, page);
        var written, next := StorePage(target, usable, nullPhase, page, left == 0, at);
        if !written {
          ReadWithin(usable, src, queries, q0, read + page, Moved(at, page));
          OneMoreQuery(usable, src, queries - 1, q0, read, at);
          return;
        }
        left := left - 1;
        start := next;
        read := read + page;
      }
      at := Moved(at, page);
      if |page| < n {
        if !nullPhase {
          finished := true;
          return;
        }
        if left == 0 {
          ReadWithin(usable, src, queries, q0, read, at);
          return;
        }
        SwitchKeeps(usable, src, queries, q0, read, at);
        left := left - 1;
        nullPhase := false;
        start := Some(Watermark(Some(EPOCH), None));
        at := Dated(EPOCH, MIN_PK);
        target.Update(Some(EPOCH), None);
      }
    }
  }

  /** Writes one page and its watermark in one commit, unless it is fenced; returns where the scan then
      stands. */
  method StorePage(target: Target, usable: bool, nullPhase: bool, page: seq<Row>, fenced: bool, ghost at: Query)
      returns (written: bool, next: Option<Watermark>)
    requires page != [] && Fits(usable, at) && (nullPhase <==> at.NullRows?) && forall r | r in page :: Selects(at, r)
    modifies target
    ensures written == !fenced
    ensures fenced ==> target.live == old(target.live) && target.watermark == old(target.watermark)
    ensures written ==> target.live == Applied(old(target.live), page)
    ensures PageQuery(usable, next) == Moved(at, page) && next.Some? && (nullPhase <==> InNullPhase(usable, next))
    ensures written ==> target.watermark == if usable then next else old(target.watermark)
  {
    var last := page[|page| - 1];
    assert last in page;
    next := Some(Watermark(if nullPhase || !usable then None else last.cols.cursor, Some(last.pk)));
    written := target.Upsert(page, fenced);
    if written && usable { target.Update(next.value.cursor, next.value.lastPk); }
  }

  /** A query whose page is lost changes nothing. */
  lemma OneMoreQuery(usable: bool, src: nat -> Table, i: nat, q0: Query, read: seq<Row>, at: Query)
    requires Scanned(usable, src, i, q0, read, at)
    ensures Scanned(usable, src, i + 1, q0, read, at)
  {
    forall r | r in read ensures Seen(src, i + 1, r) {
      assert Seen(src, i, r);
      var j: nat :| j < i && In(src(j), r);
      assert j < i + 1 && In(src(j), r);
    }
    forall r | Stable(src, i + 1, r) ensures Stable(src, i, r) {}
  }

  /** The durable watermark is where the scan stands, unless it has committed nothing. */
  ghost predicate ResumesAt(now: Option<Watermark>, was: Option<Watermark>, lookback: int, read: seq<Row>, at: Query) {
    || (now.Some? && PageQuery(true, now) == at)
    || (now == was && read == [] && at == PageQuery(true, StartOf(true, was, lookback)))
  }

  lemma {:induction false} AppliedTwice(live: Table, a: seq<Row>, b: seq<Row>)
    ensures Applied(Applied(live, a), b) == Applied(live, a + b)
  {
    if b == [] { assert a + b == a; }
    else {
      AppliedTwice(live, a, b[..|b| - 1]);
      assert (a + b)[..|a + b| - 1] == a + b[..|b| - 1];
    }
  }

  /** A scan of an unchanging source reads no more rows than it has. */
  lemma ReadWithin(usable: bool, src: nat -> Table, i: nat, q0: Query, read: seq<Row>, at: Query)
    requires Scanned(usable, src, i, q0, read, at)
    ensures Static(src) ==> |read| <= |src(0)|
  {
    if Static(src) {
      forall r | r in read ensures In(src(0), r) {
        assert Seen(src, i, r);
        var j: nat :| j < i && In(src(j), r);
        assert src(j) == src(0);
      }
      RowsFit(usable, src(0), read);
    }
  }

  lemma {:induction false} RowsFit(usable: bool, t: Table, rows: seq<Row>)
    requires Ascends(usable, rows) && forall r | r in rows :: In(t, r)
    ensures |rows| <= |t|
    decreases |rows|
  {
    if rows == [] {
    } else {
      var last := rows[|rows| - 1];
      var rest := rows[..|rows| - 1];
      var smaller := t - {last.pk};
      forall r | r in rest ensures In(smaller, r) {
        var i :| 0 <= i < |rest| && rest[i] == r;
        assert Before(usable, rows[i], rows[|rows| - 1]);
        assert In(t, r) && In(t, last) by { assert rows[i] in rows && last in rows; }
      }
      RowsFit(usable, smaller, rest);
      assert last in rows;
      assert t.Keys == smaller.Keys + {last.pk};
      assert |t.Keys| == |smaller.Keys| + 1;
    }
  }
}
