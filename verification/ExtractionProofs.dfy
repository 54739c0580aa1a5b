/** What the paged scan guarantees over any number of runs, each of which may die at any commit. */
module ExtractionProofs {
  import opened Options
  import opened Extraction

  /** Every row the watermark claims to have passed is in the warehouse. */
  ghost predicate Complete(t: Table, watermark: Option<Watermark>, live: Table) {
    forall r :: In(t, r) && Reachable(true, r) && !Ahead(PageQuery(true, watermark), r) ==> In(live, r)
  }

  lemma StartIsEarlier(stored: Option<Watermark>, lookback: int, r: Row)
    ensures Ahead(PageQuery(true, stored), r) ==> Ahead(PageQuery(true, StartOf(true, stored, lookback)), r)
  {
  }

  lemma {:induction false} AppliedHolds(t: Table, live: Table, rows: seq<Row>, r: Row)
    requires In(t, r) && (forall x | x in rows :: In(t, x)) && (r in rows || In(live, r))
    ensures In(Applied(live, rows), r)
    decreases |rows|
  {
    if rows == [] {
    } else {
      var last := rows[|rows| - 1];
      assert last in rows;
      if r.pk != last.pk {
        assert rows == rows[..|rows| - 1] + [last];
        AppliedHolds(t, live, rows[..|rows| - 1], r);
      }
    }
  }

  lemma ReadFromStatic(usable: bool, src: nat -> Table, i: nat, q0: Query, read: seq<Row>, at: Query, r: Row)
    requires Static(src) && Scanned(usable, src, i, q0, read, at)
    ensures r in read ==> In(src(0), r)
    ensures In(src(0), r) ==> Stable(src, i, r)
  {
    if r in read {
      assert Seen(src, i, r);
      var j: nat :| j < i && In(src(j), r);
      assert src(j) == src(0);
    }
    forall j: nat | j < i ensures src(j) == src(0) {}
  }

  /** On an unchanging source, wherever a run stops, its watermark is again truthful. */
  lemma RunKeepsComplete(src: nat -> Table, i: nat, was: Option<Watermark>, lookback: int, live: Table,
                         read: seq<Row>, at: Query, now: Option<Watermark>)
    requires Static(src) && Complete(src(0), was, live)
    requires Scanned(true, src, i, PageQuery(true, StartOf(true, was, lookback)), read, at)
    requires ResumesAt(now, was, lookback, read, at)
    ensures Complete(src(0), now, Applied(live, read))
  {
    var t := src(0);
    var q0 := PageQuery(true, StartOf(true, was, lookback));
    if now.Some? && PageQuery(true, now) == at {
      forall r | In(t, r) && Reachable(true, r) && !Ahead(at, r) ensures In(Applied(live, read), r) {
        StartIsEarlier(was, lookback, r);
        ReadFromStatic(true, src, i, q0, read, at, r);
        assert r in read || In(live, r);
        forall x | x in read ensures In(t, x) { ReadFromStatic(true, src, i, q0, read, at, x); }
        AppliedHolds(t, live, read, r);
      }
    }
  }

  /** After a finished run over an unchanging source nothing is behind: every reachable row is live. */
  lemma FinishedHoldsAll(src: nat -> Table, i: nat, was: Option<Watermark>, lookback: int, live: Table,
                         read: seq<Row>, at: Query, r: Row)
    requires Static(src) && Complete(src(0), was, live)
    requires Scanned(true, src, i, PageQuery(true, StartOf(true, was, lookback)), read, at)
    requires forall r :: Stable(src, i, r) ==> !Ahead(at, r)
    requires In(src(0), r) && Reachable(true, r)
    ensures In(Applied(live, read), r)
  {
    var t := src(0);
    var q0 := PageQuery(true, StartOf(true, was, lookback));
    StartIsEarlier(was, lookback, r);
    ReadFromStatic(true, src, i, q0, read, at, r);
    forall x | x in read ensures In(t, x) { ReadFromStatic(true, src, i, q0, read, at, x); }
    AppliedHolds(t, live, read, r);
  }

  /** A scan from a reset watermark that runs to its end reads exactly the reachable rows. It reads them
      in scan order, hence each once. Rows dated before 1970 are not among them. */
  lemma FreshScanReadsIff(usable: bool, src: nat -> Table, i: nat, read: seq<Row>, at: Query, r: Row)
    requires Static(src) && Scanned(usable, src, i, PageQuery(usable, None), read, at)
    requires forall r :: Stable(src, i, r) ==> !Ahead(at, r)
    ensures Ascends(usable, read)
    ensures r in read <==> In(src(0), r)
                           && (if usable && r.cols.cursor.Some?
                               && r.cols.cursor.value != 0 then r.cols.cursor.value > 0
                               else r.pk > -0x8000_0000_0000_0000)
  {
    ReadFromStatic(usable, src, i, PageQuery(usable, None), read, at, r);
  }

  /** A run that ends, after one that left watermark W, has read a row present throughout it exactly when
      the row has a cursor no older than W minus the lookback, however late the row became visible. */
  lemma LookbackReadsIff(src: nat -> Table, i: nat, w: Watermark, lookback: int, read: seq<Row>, at: Query, r: Row)
    requires w.cursor.Some? && lookback > 0
    requires Scanned(true, src, i, PageQuery(true, StartOf(true, Some(w), lookback)), read, at)
    requires forall r :: Stable(src, i, r) ==> !Ahead(at, r)
    requires Stable(src, i, r)
    ensures r in read <==> r.cols.cursor.Some?
                           && (r.cols.cursor.value > w.cursor.value - lookback
                               || (r.cols.cursor.value == w.cursor.value - lookback
                                   && r.pk > -0x8000_0000_0000_0000))
  {
  }

  /** Without a lookback, or from a watermark still among the rows without a cursor, a run that ends has read
      exactly the rows after the watermark's own position. */
  lemma ResumeReadsIff(src: nat -> Table, i: nat, w: Watermark, lookback: int, read: seq<Row>, at: Query, r: Row)
    requires w.cursor.None? || lookback <= 0
    requires Scanned(true, src, i, PageQuery(true, StartOf(true, Some(w), lookback)), read, at)
    requires forall r :: Stable(src, i, r) ==> !Ahead(at, r)
    requires Stable(src, i, r)
    ensures var key := if w.lastPk.Some? then w.lastPk.value else -0x8000_0000_0000_0000;
            r in read <==>
            match w.cursor
            case Some(c) => r.cols.cursor.Some? && (r.cols.cursor.value > c || (r.cols.cursor.value == c && r.pk > key))
            case None =>
              if r.cols.cursor.None? then r.pk > key
              else r.cols.cursor.value > 0 || (r.cols.cursor.value == 0 && r.pk > -0x8000_0000_0000_0000)
  {
  }

  /** One run: the source as its queries see it, and how many commits it lives through. */
  datatype Run = Run(src: nat -> Table, commits: nat)

  /** The row is in the source whenever any of the runs looks. */
  ghost predicate AlwaysThere(runs: seq<Run>, r: Row) {
    forall k, i: nat | 0 <= k < |runs| :: In(runs[k].src(i), r)
  }

  ghost predicate Behind(runs: seq<Run>, from: Query, seen: seq<Row>, at: Query) {
    forall r :: AlwaysThere(runs, r) && Ahead(from, r) ==> r in seen || Ahead(at, r)
  }

  /** One more run, dead or alive, loses no row. */
  lemma RunLosesNothing(runs: seq<Run>, run: Run, i: nat, from: Query, seen: seq<Row>,
                        was: Option<Watermark>, lookback: int, read: seq<Row>, at: Query, now: Option<Watermark>)
    requires Behind(runs, from, seen, PageQuery(true, StartOf(true, was, lookback)))
    requires Scanned(true, run.src, i, PageQuery(true, StartOf(true, was, lookback)), read, at)
    requires ResumesAt(now, was, lookback, read, at)
    ensures Behind(runs + [run], from, seen + read, PageQuery(true, StartOf(true, now, lookback)))
    ensures (forall r :: Stable(run.src, i, r) ==> !Ahead(at, r)) ==>
              forall r :: AlwaysThere(runs + [run], r) && Ahead(from, r) ==> r in seen + read
  {
    forall r | AlwaysThere(runs + [run], r) && Ahead(from, r)
      ensures Stable(run.src, i, r) && (r in seen + read || Ahead(at, r))
      ensures r in seen + read || Ahead(PageQuery(true, StartOf(true, now, lookback)), r)
    {
      ThereInEach(runs, run, i, r);
      StartIsEarlier(now, lookback, r);
    }
  }

  lemma ThereInEach(runs: seq<Run>, run: Run, i: nat, r: Row)
    requires AlwaysThere(runs + [run], r)
    ensures AlwaysThere(runs, r) && Stable(run.src, i, r)
  {
    var all := runs + [run];
    assert all[|runs|] == run;
    forall k, j: nat | 0 <= k < |runs| ensures In(runs[k].src(j), r) { assert all[k] == runs[k]; }
    forall j: nat | j < i ensures In(run.src(j), r) { assert In(all[|runs|].src(j), r); }
  }

  ghost predicate AllSee(runs: seq<Run>, t: Table) { forall k, i: nat | 0 <= k < |runs| :: runs[k].src(i) == t }

  /** Incremental runs one after another over a changing source, each dying where it dies. No row that is
      there throughout and lies ahead of the first run's start is lost; the watermark of an unchanging
      source never claims an unwritten row; and one run that ends makes up for all that died. */
  method RunAll(target: Target, lookback: int, n: nat, runs: seq<Run>, ghost t: Table)
      returns (seen: seq<Row>, finished: bool)
    requires n >= 1
    modifies target
    ensures Behind(runs, PageQuery(true, StartOf(true, old(target.watermark), lookback)), seen,
                   PageQuery(true, StartOf(true, target.watermark, lookback)))
    ensures var from := PageQuery(true, StartOf(true, old(target.watermark), lookback));
            finished ==> forall r :: AlwaysThere(runs, r) && Ahead(from, r) ==> r in seen
    ensures AllSee(runs, t) && Complete(t, old(target.watermark), old(target.live)) ==>
              && Complete(t, target.watermark, target.live)
              && (finished ==> forall r :: In(t, r) && Reachable(true, r) ==> In(target.live, r))
    ensures AllSee(runs, t) && runs != [] && runs[|runs| - 1].commits > |t| + 1 ==> finished
  {
    seen, finished := [], false;
    ghost var from := PageQuery(true, StartOf(true, target.watermark, lookback));
    ghost var sound := AllSee(runs, t) && Complete(t, target.watermark, target.live);
    assert runs[..0] == [];
    for k := 0 to |runs|
      invariant Behind(runs[..k], from, seen, PageQuery(true, StartOf(true, target.watermark, lookback)))
      invariant finished ==> forall r :: AlwaysThere(runs[..k], r) && Ahead(from, r) ==> r in seen
      invariant sound ==> Complete(t, target.watermark, target.live)
      invariant sound && finished ==> forall r :: In(t, r) && Reachable(true, r) ==> In(target.live, r)
      invariant AllSee(runs, t) && k > 0 && runs[k - 1].commits > |t| + 1 ==> finished
    {
      ghost var was, live := target.watermark, target.live;
      var read, done, i, at := Extract(target, true, lookback, n, runs[k].src, runs[k].commits);
      RunLosesNothing(runs[..k], runs[k], i, from, seen, was, lookback, read, at, target.watermark);
      assert runs[..k + 1] == runs[..k] + [runs[k]];
      if AllSee(runs, t) { SeesOne(runs, k, t); }
      if sound {
        RunKeepsComplete(runs[k].src, i, was, lookback, live, read, at, target.watermark);
        if done { AllLive(runs[k].src, i, was, lookback, live, read, at); }
      }
      seen, finished := seen + read, done;
    }
    assert runs[..|runs|] == runs;
  }

  lemma SeesOne(runs: seq<Run>, k: nat, t: Table)
    requires AllSee(runs, t) && k < |runs|
    ensures Static(runs[k].src) && runs[k].src(0) == t
  {
    forall i: nat ensures runs[k].src(i) == t {}
  }

  lemma AllLive(src: nat -> Table, i: nat, was: Option<Watermark>, lookback: int, live: Table, read: seq<Row>,
                at: Query)
    requires Static(src) && Complete(src(0), was, live)
    requires Scanned(true, src, i, PageQuery(true, StartOf(true, was, lookback)), read, at)
    requires forall r :: Stable(src, i, r) ==> !Ahead(at, r)
    ensures forall r :: In(src(0), r) && Reachable(true, r) ==> In(Applied(live, read), r)
  {
    forall r | In(src(0), r) && Reachable(true, r) ensures In(Applied(live, read), r) {
      FinishedHoldsAll(src, i, was, lookback, live, read, at, r);
    }
  }

  /** Nothing is claimed by a watermark that was never set. */
  lemma NoWatermarkIsComplete(t: Table, live: Table)
    ensures Complete(t, None, live)
  {
  }
}
