/** Under an honest warehouse, isolation quarantines exactly the bad records and settles every other
    record exactly once, in batch order. */
module IsolationExact {
  import opened Options
  import opened Routing
  import opened Batches
  import opened Isolation
  import opened IsolationProofs

  /** The good records of one disposition, in order. */
  function Good(rs: seq<Record>, d: Disposition, snap: Snapshot, skipUnknown: bool, bad: set<Record>): seq<Record>
    decreases |rs|
  {
    if rs == [] then []
    else if Dispose(rs[0], snap, skipUnknown) == d && rs[0] !in bad
    then [rs[0]] + Good(rs[1..], d, snap, skipUnknown, bad)
    else Good(rs[1..], d, snap, skipUnknown, bad)
  }

  function Bad(rs: seq<Record>, bad: set<Record>): seq<Record>
    decreases |rs|
  {
    if rs == [] then []
    else if rs[0] in bad then [rs[0]] + Bad(rs[1..], bad)
    else Bad(rs[1..], bad)
  }

  /** From turn k on, the warehouse rejects a part exactly when it contains a bad record; nothing is fenced,
      lost or rebalanced, and dead letters are accepted. */
  ghost predicate Honest(env: nat -> Io, k: nat, bad: set<Record>, tps: set<Partition>) {
    forall n: nat | k <= n ::
      && env(n).revoked == {} && tps <= env(n).owned
      && (forall part :: env(n).verdict(part) == if exists r | r in part :: r in bad then Data else Ok)
      && (forall r :: env(n).quarantine(r) == Ok)
  }

  /** No record is on hold, every bad record is one the sink writes, all in the partitions `tps`. */
  ghost predicate Plainly(rs: seq<Record>, snap: Snapshot, skipUnknown: bool, bad: set<Record>, tps: set<Partition>) {
    forall r | r in rs ::
      && r.tp in tps
      && Dispose(r, snap, skipUnknown) != Hold
      && (r in bad ==> Dispose(r, snap, skipUnknown) == Write)
  }

  lemma {:induction false} GoodAppend(a: seq<Record>, b: seq<Record>, d: Disposition, snap: Snapshot,
                                      skipUnknown: bool, bad: set<Record>)
    ensures Good(a + b, d, snap, skipUnknown, bad) ==
            Good(a, d, snap, skipUnknown, bad) + Good(b, d, snap, skipUnknown, bad)
    decreases |a|
  {
    if a == [] { assert a + b == b; }
    else {
      assert (a + b)[1..] == a[1..] + b;
      GoodAppend(a[1..], b, d, snap, skipUnknown, bad);
    }
  }

  lemma {:induction false} BadAppend(a: seq<Record>, b: seq<Record>, bad: set<Record>)
    ensures Bad(a + b, bad) == Bad(a, bad) + Bad(b, bad)
    decreases |a|
  {
    if a == [] { assert a + b == b; }
    else {
      assert (a + b)[1..] == a[1..] + b;
      BadAppend(a[1..], b, bad);
    }
  }

  lemma {:induction false} NoneBad(rs: seq<Record>, bad: set<Record>)
    requires forall r | r in rs :: r !in bad
    ensures Bad(rs, bad) == []
    decreases |rs|
  {
    if rs == [] {
    } else {
      NoneBad(rs[1..], bad);
    }
  }

  lemma {:induction false} KeepEverything(rs: seq<Record>, owned: set<Partition>)
    requires forall r | r in rs :: r.tp in owned
    ensures Keep(rs, owned) == rs
    decreases |rs|
  {
    if rs == [] {
    } else {
      KeepEverything(rs[1..], owned);
    }
  }

  lemma {:induction false} KeepAllEverything(work: seq<seq<Record>>, owned: set<Partition>)
    requires forall r | r in Flat(work) :: r.tp in owned
    ensures KeepAll(work, owned) == work
    decreases |work|
  {
    if work == [] {
    } else {
      assert Flat(work) == work[0] + Flat(work[1..]);
      forall r | r in work[0] ensures r.tp in owned { assert r in Flat(work); }
      forall r | r in Flat(work[1..]) ensures r.tp in owned { assert r in Flat(work); }
      KeepEverything(work[0], owned);
      KeepAllEverything(work[1..], owned);
    }
  }

  lemma {:induction false} WithoutNothing(rs: seq<Record>)
    ensures Without(rs, {}) == rs
    decreases |rs|
  {
    if rs == [] {
    } else {
      WithoutNothing(rs[1..]);
    }
  }

  lemma {:induction false} MinusTwice(rs: seq<Record>, a: set<Record>, b: set<Record>)
    ensures Minus(Minus(rs, a), b) == Minus(rs, a + b)
    decreases |rs|
  {
    if rs == [] {
    } else {
      MinusTwice(rs[1..], a, b);
      if rs[0] !in a {
        var rest := Minus(rs[1..], a);
        assert ([rs[0]] + rest)[1..] == rest;
      }
    }
  }

  lemma {:induction false} MinusAll(rs: seq<Record>, gone: set<Record>)
    requires forall r | r in rs :: r in gone
    ensures Minus(rs, gone) == []
    decreases |rs|
  {
    if rs == [] {
    } else {
      MinusAll(rs[1..], gone);
    }
  }

  lemma OneTakesGood(p: Plan, r: Record, snap: Snapshot, skipUnknown: bool)
    requires p.held == map[] && Dispose(r, snap, skipUnknown) != Hold
    ensures
      var q := PlanOne(p, r, snap, skipUnknown);
      && q.held == map[] && Passed(p.next, [r], q.next)
      && q.writes == p.writes + (if Dispose(r, snap, skipUnknown) == Write then [r] else [])
      && q.skips == p.skips + (if Dispose(r, snap, skipUnknown) == Skip then [r] else [])
  {
  }

  /** A pass over records none of which is bad or on hold takes them all. */
  lemma {:induction false} PlanTakesAll(p: Plan, rs: seq<Record>, snap: Snapshot, skipUnknown: bool, bad: set<Record>,
                                        q: Plan)
    requires p.held == map[] && q == PlanFrom(p, rs, snap, skipUnknown)
    requires forall r | r in rs :: r !in bad && Dispose(r, snap, skipUnknown) != Hold
    ensures q.held == map[] && Passed(p.next, rs, q.next)
    ensures q.writes == p.writes + Good(rs, Write, snap, skipUnknown, bad)
    ensures q.skips == p.skips + Good(rs, Skip, snap, skipUnknown, bad)
    decreases |rs|
  {
    if rs == [] {
    } else {
      var r, rest := rs[0], rs[1..];
      var p' := PlanOne(p, r, snap, skipUnknown);
      assert r in rs && forall x | x in rest :: x in rs;
      OneTakesGood(p, r, snap, skipUnknown);
      PlanTakesAll(p', rest, snap, skipUnknown, bad, q);
      PassedChain(p.next, [r], p'.next, rest, q.next);
      assert rs == [r] + rest;
      GoodCons(p.writes, r, rest, Write, snap, skipUnknown, bad);
      GoodCons(p.skips, r, rest, Skip, snap, skipUnknown, bad);
    }
  }

  lemma GoodCons(front: seq<Record>, r: Record, rest: seq<Record>, d: Disposition, snap: Snapshot, skipUnknown: bool,
                 bad: set<Record>)
    requires r !in bad
    ensures front + Good([r] + rest, d, snap, skipUnknown, bad)
         == front + (if Dispose(r, snap, skipUnknown) == d then [r] else []) + Good(rest, d, snap, skipUnknown, bad)
  {
    assert ([r] + rest)[1..] == rest;
  }

  lemma {:induction false} PlanTakesSome(p: Plan, rs: seq<Record>, snap: Snapshot, skipUnknown: bool)
    requires p.held == map[] && (forall r | r in rs :: Dispose(r, snap, skipUnknown) != Hold)
    requires p.next != map[] || rs != []
    ensures PlanFrom(p, rs, snap, skipUnknown).next != map[]
    decreases |rs|
  {
    if rs == [] {
    } else {
      var p' := PlanOne(p, rs[0], snap, skipUnknown);
      assert rs[0].tp in p'.next;
      PlanTakesSome(p', rs[1..], snap, skipUnknown);
    }
  }

  /** The stored offsets have passed every record of `rs`, and none has fallen. */
  ghost predicate Passed(before: Offsets, rs: seq<Record>, after: Offsets) {
    && (forall r | r in rs :: r.tp in after && r.offset < after[r.tp])
    && (forall tp | tp in before :: tp in after && before[tp] <= after[tp])
  }

  /** What an honest isolation of the records `rs` makes of a buffer and a store. */
  ghost predicate Exact(iso: Iso, s: Store, rs: seq<Record>, snap: Snapshot, skipUnknown: bool, bad: set<Record>,
                        iso': Iso, s': Store) {
    && s'.applied == s.applied + Good(rs, Write, snap, skipUnknown, bad)
    && s'.skipped == s.skipped + Good(rs, Skip, snap, skipUnknown, bad)
    && iso'.quarantined == iso.quarantined + Bad(rs, bad)
    && iso'.buffer == Minus(iso.buffer, set r | r in rs)
    && Passed(s.offsets, rs, s'.offsets)
  }

  lemma PassedChain(o: Offsets, a: seq<Record>, o1: Offsets, b: seq<Record>, o2: Offsets)
    requires Passed(o, a, o1) && Passed(o1, b, o2)
    ensures Passed(o, a + b, o2)
  {
  }

  lemma Associate(x: seq<Record>, y: seq<Record>, z: seq<Record>)
    ensures (x + y) + z == x + (y + z)
  {
  }

  lemma ExactChain(iso: Iso, s: Store, a: seq<Record>, iso1: Iso, s1: Store, b: seq<Record>, iso2: Iso, s2: Store,
                   snap: Snapshot, skipUnknown: bool, bad: set<Record>)
    requires Exact(iso, s, a, snap, skipUnknown, bad, iso1, s1) && Exact(iso1, s1, b, snap, skipUnknown, bad, iso2, s2)
    ensures Exact(iso, s, a + b, snap, skipUnknown, bad, iso2, s2)
  {
    GoodAppend(a, b, Write, snap, skipUnknown, bad);
    GoodAppend(a, b, Skip, snap, skipUnknown, bad);
    BadAppend(a, b, bad);
    Associate(s.applied, Good(a, Write, snap, skipUnknown, bad), Good(b, Write, snap, skipUnknown, bad));
    Associate(s.skipped, Good(a, Skip, snap, skipUnknown, bad), Good(b, Skip, snap, skipUnknown, bad));
    Associate(iso.quarantined, Bad(a, bad), Bad(b, bad));
    MinusTwice(iso.buffer, set r | r in a, set r | r in b);
    assert (set r | r in a + b) == (set r | r in a) + (set r | r in b);
    PassedChain(s.offsets, a, s1.offsets, b, s2.offsets);
  }

  lemma GoodPart(iso: Iso, part: seq<Record>, s: Store, skipUnknown: bool, bad: set<Record>, q: Plan)
    requires iso.held == map[] && q == PlanOf(part, iso.snap, iso.held, skipUnknown)
    requires forall r | r in part :: r !in bad && Dispose(r, iso.snap, skipUnknown) != Hold
    ensures q.held == map[]
    ensures Exact(iso, s, part, iso.snap, skipUnknown, bad,
                  iso.(held := q.held, buffer := Minus(iso.buffer, Processed(part, q.held)),
                       commit := Merge(iso.commit, q.next), fenced := 0),
                  Commit(Publish(s, q.letters), q))
  {
    PlanTakesAll(Empty(iso.held), part, iso.snap, skipUnknown, bad, q);
    NoneBad(part, bad);
    assert Processed(part, q.held) == set r | r in part;
  }

  lemma BadRecord(iso: Iso, r: Record, s: Store, skipUnknown: bool, bad: set<Record>)
    requires r in bad
    ensures
      var q := QuarantinePlan(r);
      Exact(iso, s, [r], iso.snap, skipUnknown, bad,
            iso.(buffer := Minus(iso.buffer, {r}), commit := Merge(iso.commit, q.next),
                quarantined := iso.quarantined + [r]),
            After(s, q, Ok))
  {
    assert [r][1..] == [];
    assert Bad([r], bad) == [r] + Bad([], bad) && Good([r], Write, iso.snap, skipUnknown, bad) == [];
    assert Good([r], Skip, iso.snap, skipUnknown, bad) == [];
    assert (set x | x in [r]) == {r};
    assert s.applied + [] == s.applied && s.skipped + [] == s.skipped;
  }

  /** One honest turn on a part settles it or splits it. */
  lemma SettleExact(iso: Iso, part: seq<Record>, s: Store, io: Io, limit: nat, skipUnknown: bool, bad: set<Record>)
      returns (settled: seq<Record>)
    requires part != [] && iso.held == map[]
    requires forall r | r in part :: Dispose(r, iso.snap, skipUnknown) != Hold
    requires io.verdict(part) == if exists r | r in part :: r in bad then Data else Ok
    requires forall r :: io.quarantine(r) == Ok
    requires |part| == 1 && part[0] in bad ==> |iso.quarantined| < limit
    ensures
      var t := Settle(iso, part, s, io, limit, skipUnknown);
      && t.Running? && t.iso.held == map[] && t.iso.snap == iso.snap
      && part + Flat(iso.work) == settled + Flat(t.iso.work)
      && Exact(iso, s, settled, iso.snap, skipUnknown, bad, t.iso, t.store)
  {
    var t := Settle(iso, part, s, io, limit, skipUnknown);
    var q := PlanOf(part, iso.snap, iso.held, skipUnknown);
    PlanTakesSome(Empty(iso.held), part, iso.snap, skipUnknown);
    settled := part;
    if exists r | r in part :: r in bad {
      var s' := After(s, q, Data);
      if |part| > 1 {
        FlatHalves(part, |part| / 2, iso.work);
        ExactNothing(iso, s, skipUnknown, bad, t.iso, t.store);
        assert [] + Flat(t.iso.work) == Flat(t.iso.work);
        settled := [];
      } else {
        assert part == [part[0]] && part[1..] == [] && Bad(part, bad) == [part[0]] + Bad([], bad);
        BadRecord(iso, part[0], s', skipUnknown, bad);
      }
    } else {
      GoodPart(iso, part, s, skipUnknown, bad, q);
    }
  }

  /** The next part is a bad record, and no more may be quarantined. */
  predicate AtLimit(iso: Iso, limit: nat, bad: set<Record>) {
    iso.work != [] && |iso.work[0]| == 1 && iso.work[0][0] in bad && |iso.quarantined| >= limit
  }

  /** One honest turn settles the front of the work or splits it, unless it comes up against the limit. */
  lemma TurnExact(iso: Iso, s: Store, env: nat -> Io, n: nat, limit: nat, skipUnknown: bool, bad: set<Record>,
                  tps: set<Partition>)
      returns (settled: seq<Record>)
    requires iso.work != [] && iso.held == map[] && Honest(env, n, bad, tps)
    requires Plainly(Flat(iso.work), iso.snap, skipUnknown, bad, tps) && !AtLimit(iso, limit, bad)
    ensures
      var t := OneTurn(iso, s, env(n), limit, skipUnknown);
      && t.Running? && t.iso.held == map[] && t.iso.snap == iso.snap
      && Flat(iso.work) == settled + Flat(t.iso.work)
      && Exact(iso, s, settled, iso.snap, skipUnknown, bad, t.iso, t.store)
  {
    KeepAllEverything(iso.work, env(n).owned);
    WithoutNothing(iso.buffer);
    assert KeepAlive(iso, env(n)) == iso;
    var part := iso.work[0];
    var rest := iso.(work := iso.work[1..]);
    assert Flat(iso.work) == part + Flat(rest.work);
    if part == [] {
      settled := [];
      ExactNothing(iso, s, skipUnknown, bad, rest, s);
      assert part + Flat(rest.work) == [] + Flat(rest.work);
    } else {
      assert forall r | r in part :: r in Flat(iso.work);
      settled := SettleExact(rest, part, s, env(n), limit, skipUnknown, bad);
      var t := OneTurn(iso, s, env(n), limit, skipUnknown);
      assert Exact(iso, s, settled, iso.snap, skipUnknown, bad, t.iso, t.store) by {
        assert Exact(rest, s, settled, iso.snap, skipUnknown, bad, t.iso, t.store);
      }
    }
  }

  lemma BadFirst(iso: Iso, bad: set<Record>)
    requires iso.work != [] && |iso.work[0]| == 1 && iso.work[0][0] in bad
    ensures |Bad(Flat(iso.work), bad)| > 0
  {
    var r := iso.work[0][0];
    assert iso.work[0] == [r] && Flat(iso.work) == [r] + Flat(iso.work[1..]);
    assert ([r] + Flat(iso.work[1..]))[0] == r;
  }

  lemma ExactNothing(iso: Iso, s: Store, skipUnknown: bool, bad: set<Record>, iso': Iso, s': Store)
    requires iso'.quarantined == iso.quarantined && iso'.buffer == iso.buffer
    requires s'.applied == s.applied && s'.skipped == s.skipped && s'.offsets == s.offsets
    ensures Exact(iso, s, [], iso.snap, skipUnknown, bad, iso', s')
  {
    MinusNothing(iso.buffer);
    assert (set r: Record | r in []) == {};
    assert s.applied + [] == s.applied && s.skipped + [] == s.skipped && iso.quarantined + [] == iso.quarantined;
  }

  lemma {:induction false} MinusNothing(rs: seq<Record>)
    ensures Minus(rs, {}) == rs
    decreases |rs|
  {
    if rs == [] {
    } else {
      MinusNothing(rs[1..]);
    }
  }

  /** Bisection is exact: with at most `limit` bad records, an honest isolation ends normally, has
      quarantined exactly the bad records, applied and skipped every other record of its kind once and in
      batch order, stored an offset past every record, and left none of them in the buffer. */
  lemma {:induction false} RunExact(iso: Iso, s: Store, env: nat -> Io, n: nat, limit: nat, skipUnknown: bool,
                                    bad: set<Record>, tps: set<Partition>)
    requires iso.fenced < 5 && iso.held == map[] && Honest(env, n, bad, tps)
    requires Plainly(Flat(iso.work), iso.snap, skipUnknown, bad, tps)
    requires |iso.quarantined| + |Bad(Flat(iso.work), bad)| <= limit
    ensures
      var e := Run(iso, s, env, n, limit, skipUnknown);
      e.fault == None && Exact(iso, s, Flat(iso.work), iso.snap, skipUnknown, bad, e.iso, e.store)
    decreases Weight(iso.work), 5 - iso.fenced
  {
    if iso.work == [] {
      ExactNothing(iso, s, skipUnknown, bad, iso, s);
    } else {
      TurnShrinks(iso, s, env(n), limit, skipUnknown);
      if AtLimit(iso, limit, bad) { BadFirst(iso, bad); }
      var settled := TurnExact(iso, s, env, n, limit, skipUnknown, bad, tps);
      var t := OneTurn(iso, s, env(n), limit, skipUnknown);
      BadAppend(settled, Flat(t.iso.work), bad);
      assert forall r | r in Flat(t.iso.work) :: r in Flat(iso.work);
      RunExact(t.iso, t.store, env, n + 1, limit, skipUnknown, bad, tps);
      var e := Run(t.iso, t.store, env, n + 1, limit, skipUnknown);
      ExactChain(iso, s, settled, t.iso, t.store, Flat(t.iso.work), e.iso, e.store, iso.snap, skipUnknown, bad);
    }
  }

  /** The whole buffer, isolated. */
  lemma BisectionIsExact(batch: seq<Record>, snap: Snapshot, s: Store, env: nat -> Io, limit: nat, skipUnknown: bool,
                         bad: set<Record>, tps: set<Partition>)
    requires Honest(env, 0, bad, tps) && Plainly(batch, snap, skipUnknown, bad, tps) && |Bad(batch, bad)| <= limit
    ensures
      var e := Run(Start(batch, batch, snap), s, env, 0, limit, skipUnknown);
      && e.fault == None
      && e.iso.quarantined == Bad(batch, bad)
      && e.iso.buffer == []
      && e.store.applied == s.applied + Good(batch, Write, snap, skipUnknown, bad)
      && e.store.skipped == s.skipped + Good(batch, Skip, snap, skipUnknown, bad)
      && forall r | r in batch :: r.tp in e.store.offsets && r.offset < e.store.offsets[r.tp]
  {
    var iso := Start(batch, batch, snap);
    OneFlat(batch);
    RunExact(iso, s, env, 0, limit, skipUnknown, bad, tps);
    MinusAll(batch, set r | r in batch);
  }
}
