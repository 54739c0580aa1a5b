/** Isolation and the fence: a fenced part is routed anew under the refreshed ownership, only a fifth fence in
    a row ends an isolation, and too many rejected records trip the breaker. */
module IsolationFences {
  import opened Options
  import opened Ownership
  import opened Routing
  import opened Batches
  import opened Isolation
  import opened IsolationProofs
  import opened IsolationExact
  import opened PassMeaning
  import opened Delivery
  import opened RetryOutcomes
  import opened Retrying

  // ---- Exact through fences ----

  /** A fence on the whole batch costs nothing but its dead letters: the batch is next again, under the
      refreshed snapshot. */
  lemma FencedTurn(batch: seq<Record>, snap: Snapshot, s: Store, io: Io, limit: nat, skipUnknown: bool, fenced: nat,
                   tps: set<Partition>)
    requires batch != [] && fenced < 4 && io.verdict(batch) == Fenced && io.revoked == {} && tps <= io.owned
    requires PlanOf(batch, snap, map[], skipUnknown).next != map[] && forall r | r in batch :: r.tp in tps
    ensures
      var plan := PlanOf(batch, snap, map[], skipUnknown);
      OneTurn(Start(batch, batch, snap).(fenced := fenced), s, io, limit, skipUnknown)
      == Running(Start(batch, batch, io.refreshed).(fenced := fenced + 1), Publish(s, plan.letters))
  {
    OneFlat(batch);
    KeepAllEverything([batch], io.owned);
    WithoutNothing(batch);
    assert [batch][1..] == [] && [batch] + [] == [batch];
  }

  /** The snapshot the k-th turn of a fenced isolation decides on. */
  function SnapAt(snap: Snapshot, env: nat -> Io, k: nat): Snapshot {
    if k == 0 then snap else env(k - 1).refreshed
  }

  /** The first k answers are fences under stale snapshots that find something to store. */
  ghost predicate FencedFirst(batch: seq<Record>, snap: Snapshot, env: nat -> Io, k: nat, skipUnknown: bool,
                              tps: set<Partition>) {
    forall i: nat | i < k ::
      && env(i).verdict(batch) == Fenced && env(i).revoked == {} && tps <= env(i).owned
      && PlanOf(batch, SnapAt(snap, env, i), map[], skipUnknown).next != map[]
  }

  lemma {:induction false} AfterFences(batch: seq<Record>, snap: Snapshot, s: Store, env: nat -> Io, k: nat,
                                       limit: nat, skipUnknown: bool, tps: set<Partition>)
      returns (s': Store)
    requires batch != [] && k <= 4 && FencedFirst(batch, snap, env, k, skipUnknown, tps)
    requires forall r | r in batch :: r.tp in tps
    ensures s' == s.(letters := s'.letters) && s.letters <= s'.letters
    ensures Run(Start(batch, batch, snap), s, env, 0, limit, skipUnknown) ==
            Run(Start(batch, batch, SnapAt(snap, env, k)).(fenced := k), s', env, k, limit, skipUnknown)
  {
    if k == 0 {
      s' := s;
    } else {
      var before := AfterFences(batch, snap, s, env, k - 1, limit, skipUnknown, tps);
      FencedTurn(batch, SnapAt(snap, env, k - 1), before, env(k - 1), limit, skipUnknown, k - 1, tps);
      s' := Publish(before, PlanOf(batch, SnapAt(snap, env, k - 1), map[], skipUnknown).letters);
    }
  }

  /** A batch fenced up to four times because its ownership was stale, then answered honestly under the
      refreshed one: the isolation ends as if it had begun with the good snapshot. Exactly the bad records
      are quarantined, every other is settled once and in order as the good snapshot says, and nothing
      stays buffered. */
  lemma ExactAfterFences(batch: seq<Record>, stale: Snapshot, good: Snapshot, s: Store, env: nat -> Io, k: nat,
                         limit: nat, skipUnknown: bool, bad: set<Record>, tps: set<Partition>)
    requires batch != [] && k <= 4 && FencedFirst(batch, stale, env, k, skipUnknown, tps)
    requires SnapAt(stale, env, k) == good && Honest(env, k, bad, tps)
    requires Plainly(batch, good, skipUnknown, bad, tps) && |Bad(batch, bad)| <= limit
    ensures
      var e := Run(Start(batch, batch, stale), s, env, 0, limit, skipUnknown);
      && e.fault == None
      && e.iso.quarantined == Bad(batch, bad)
      && e.iso.buffer == []
      && e.store.applied == s.applied + Good(batch, Write, good, skipUnknown, bad)
      && e.store.skipped == s.skipped + Good(batch, Skip, good, skipUnknown, bad)
      && forall r | r in batch :: r.tp in e.store.offsets && r.offset < e.store.offsets[r.tp]
  {
    var s' := AfterFences(batch, stale, s, env, k, limit, skipUnknown, tps);
    ExactFrom(batch, good, s', env, k, limit, skipUnknown, bad, tps);
  }

  /** An honest isolation is exact however many fences have gone before. */
  lemma ExactFrom(batch: seq<Record>, snap: Snapshot, s: Store, env: nat -> Io, k: nat, limit: nat, skipUnknown: bool,
                  bad: set<Record>, tps: set<Partition>)
    requires k <= 4 && Honest(env, k, bad, tps) && Plainly(batch, snap, skipUnknown, bad, tps)
    requires |Bad(batch, bad)| <= limit
    ensures
      var e := Run(Start(batch, batch, snap).(fenced := k), s, env, k, limit, skipUnknown);
      && e.fault == None
      && e.iso.quarantined == Bad(batch, bad)
      && e.iso.buffer == []
      && e.store.applied == s.applied + Good(batch, Write, snap, skipUnknown, bad)
      && e.store.skipped == s.skipped + Good(batch, Skip, snap, skipUnknown, bad)
      && forall r | r in batch :: r.tp in e.store.offsets && r.offset < e.store.offsets[r.tp]
  {
    OneFlat(batch);
    RunExact(Start(batch, batch, snap).(fenced := k), s, env, k, limit, skipUnknown, bad, tps);
    MinusAll(batch, set r | r in batch);
  }

  // ---- Too many bad records ----

  /** The records `rs` were settled up to the first bad one beyond the limit. */
  ghost predicate StopsShort(iso: Iso, s: Store, rs: seq<Record>, limit: nat, skipUnknown: bool, bad: set<Record>,
                             settled: seq<Record>, e: End) {
    && settled <= rs && |settled| < |rs| && rs[|settled|] in bad
    && |iso.quarantined| + |Bad(settled, bad)| == limit
    && e.fault == Some(LimitReached)
    && Exact(iso, s, settled, iso.snap, skipUnknown, bad, e.iso, e.store)
  }

  lemma StopsLater(iso: Iso, s: Store, front: seq<Record>, iso1: Iso, s1: Store, rs: seq<Record>, limit: nat,
                   skipUnknown: bool, bad: set<Record>, settled: seq<Record>, e: End)
    requires Exact(iso, s, front, iso.snap, skipUnknown, bad, iso1, s1) && iso1.snap == iso.snap
    requires StopsShort(iso1, s1, rs, limit, skipUnknown, bad, settled, e)
    ensures StopsShort(iso, s, front + rs, limit, skipUnknown, bad, front + settled, e)
  {
    ExactChain(iso, s, front, iso1, s1, settled, e.iso, e.store, iso.snap, skipUnknown, bad);
    BadAppend(front, settled, bad);
    assert (front + rs)[|front + settled|] == rs[|settled|];
    assert front + rs == front + settled + rs[|settled|..];
  }

  /** What is left after a turn still has too many. */
  lemma TurnTooMany(iso: Iso, s: Store, io: Io, limit: nat, skipUnknown: bool, bad: set<Record>, tps: set<Partition>,
                    front: seq<Record>)
    requires iso.work != [] && Plainly(Flat(iso.work), iso.snap, skipUnknown, bad, tps)
    requires |iso.quarantined| <= limit < |iso.quarantined| + |Bad(Flat(iso.work), bad)|
    requires
      var t := OneTurn(iso, s, io, limit, skipUnknown);
      && t.Running? && Flat(iso.work) == front + Flat(t.iso.work)
      && t.iso.quarantined == iso.quarantined + Bad(front, bad)
    ensures
      var t := OneTurn(iso, s, io, limit, skipUnknown);
      && Plainly(Flat(t.iso.work), iso.snap, skipUnknown, bad, tps)
      && |t.iso.quarantined| <= limit < |t.iso.quarantined| + |Bad(Flat(t.iso.work), bad)|
  {
    var t := OneTurn(iso, s, io, limit, skipUnknown);
    BadAppend(front, Flat(t.iso.work), bad);
    assert forall x | x in Flat(t.iso.work) :: x in Flat(iso.work);
    TurnQuarantines(iso, s, io, limit, skipUnknown);
  }

  lemma TurnQuarantines(iso: Iso, s: Store, io: Io, limit: nat, skipUnknown: bool)
    requires iso.work != [] && |iso.quarantined| <= limit
    ensures var t := OneTurn(iso, s, io, limit, skipUnknown); t.Running? ==> |t.iso.quarantined| <= limit
  {
    KeepAllShrinks(iso.work, io.owned);
  }

  /** With more bad records than may be quarantined, an honest isolation stops at the first one too many: the
      records before it are settled as ever, the bad ones among them quarantined, and the rest stays. */
  lemma {:induction false} RunTooMany(iso: Iso, s: Store, env: nat -> Io, n: nat, limit: nat, skipUnknown: bool,
                                      bad: set<Record>, tps: set<Partition>)
      returns (settled: seq<Record>)
    requires iso.fenced < 5 && iso.held == map[] && Honest(env, n, bad, tps)
    requires Plainly(Flat(iso.work), iso.snap, skipUnknown, bad, tps)
    requires |iso.quarantined| <= limit < |iso.quarantined| + |Bad(Flat(iso.work), bad)|
    ensures StopsShort(iso, s, Flat(iso.work), limit, skipUnknown, bad, settled,
                       Run(iso, s, env, n, limit, skipUnknown))
    decreases Weight(iso.work), 5 - iso.fenced
  {
    assert iso.work != [];
    TurnShrinks(iso, s, env(n), limit, skipUnknown);
    var t := OneTurn(iso, s, env(n), limit, skipUnknown);
    if AtLimit(iso, limit, bad) {
      StopsAtLimit(iso, s, env(n), limit, skipUnknown, bad, tps);
      settled := [];
    } else {
      var front := TurnExact(iso, s, env, n, limit, skipUnknown, bad, tps);
      TurnTooMany(iso, s, env(n), limit, skipUnknown, bad, tps, front);
      var later := RunTooMany(t.iso, t.store, env, n + 1, limit, skipUnknown, bad, tps);
      StopsLater(iso, s, front, t.iso, t.store, Flat(t.iso.work), limit, skipUnknown, bad, later,
                 Run(t.iso, t.store, env, n + 1, limit, skipUnknown));
      settled := front + later;
    }
  }

  lemma StopsAtLimit(iso: Iso, s: Store, io: Io, limit: nat, skipUnknown: bool, bad: set<Record>, tps: set<Partition>)
    requires AtLimit(iso, limit, bad) && Plainly(Flat(iso.work), iso.snap, skipUnknown, bad, tps)
    requires |iso.quarantined| == limit
    requires iso.held == map[] && io.revoked == {} && tps <= io.owned && io.verdict(iso.work[0]) == Data
    ensures
      var t := OneTurn(iso, s, io, limit, skipUnknown);
      && t.Stopped?
      && StopsShort(iso, s, Flat(iso.work), limit, skipUnknown, bad, [], End(t.iso, t.store, Some(t.fault)))
  {
    KeepAllEverything(iso.work, io.owned);
    WithoutNothing(iso.buffer);
    assert KeepAlive(iso, io) == iso;
    var part := iso.work[0];
    assert part == [part[0]] && Flat(iso.work) == part + Flat(iso.work[1..]) && part[0] in Flat(iso.work);
    PlanTakesSome(Empty(iso.held), part, iso.snap, skipUnknown);
    var t := OneTurn(iso, s, io, limit, skipUnknown);
    ExactNothing(iso, s, skipUnknown, bad, t.iso, t.store);
  }

  /** So a batch with more bad records than the limit trips the breaker, having quarantined exactly the first
      `limit` of them and applied the good records before the next. */
  lemma TooManyBadTrips(w: Status, s: Store, a: Attempt, c: Config, bad: set<Record>, tps: set<Partition>)
      returns (settled: seq<Record>)
    requires Answer(PlanOf(w.buffer, a.snap, map[], c.skipUnknown), a.verdict) == Data && !w.tripped
    requires Honest(a.isolation, 0, bad, tps) && Plainly(w.buffer, a.isolationSnap, c.skipUnknown, bad, tps)
    requires |Bad(w.buffer, bad)| > QuarantineLimit(c, |w.buffer|)
    ensures settled <= w.buffer && |settled| < |w.buffer| && w.buffer[|settled|] in bad
    ensures |Bad(settled, bad)| == QuarantineLimit(c, |w.buffer|)
    ensures
      var end := OneAttempt(w, s, a, c);
      && end.ending == Again && end.status.tripped
      && end.status.quarantined == w.quarantined + Bad(settled, bad)
      && end.store.applied == s.applied + Good(settled, Write, a.isolationSnap, c.skipUnknown, bad)
      && end.status.buffer == Without(Minus(w.buffer, set r | r in settled), a.revoked)
  {
    var s' := After(s, PlanOf(w.buffer, a.snap, map[], c.skipUnknown), Data);
    assert OneAttempt(w, s, a, c) == IsolateAttempt(w, s', a, c);
    var start, limit := Start(w.buffer, w.buffer, a.isolationSnap), QuarantineLimit(c, |w.buffer|);
    OneFlat(w.buffer);
    settled := RunTooMany(start, s', a.isolation, 0, limit, c.skipUnknown, bad, tps);
    TripsWhere(w, s', a, c, start, settled, bad, Run(start, s', a.isolation, 0, limit, c.skipUnknown));
  }

  lemma TripsWhere(w: Status, s: Store, a: Attempt, c: Config, start: Iso, settled: seq<Record>, bad: set<Record>,
                   e: End)
    requires start == Start(w.buffer, w.buffer, a.isolationSnap) && !w.tripped
    requires StopsShort(start, s, w.buffer, QuarantineLimit(c, |w.buffer|), c.skipUnknown, bad, settled, e)
    ensures
      var end := Isolated(w, e, a);
      && end.ending == Again && end.status.tripped
      && end.status.quarantined == w.quarantined + Bad(settled, bad)
      && end.store.applied == s.applied + Good(settled, Write, a.isolationSnap, c.skipUnknown, bad)
      && end.status.buffer == Without(Minus(w.buffer, set r | r in settled), a.revoked)
  {
  }

  // ---- Five fences in a row ----

  /** The answer one turn meets; none if nothing is left of its part. */
  function Told(iso: Iso, io: Io, skipUnknown: bool): seq<Verdict>
    requires iso.work != []
  {
    KeepAllShrinks(iso.work, io.owned);
    var part := KeepAlive(iso, io).work[0];
    if part == [] then [] else [Answer(PlanOf(part, iso.snap, iso.held, skipUnknown), io.verdict(part))]
  }

  /** What the warehouse answers, part by part. */
  function Answers(iso: Iso, s: Store, env: nat -> Io, n: nat, limit: nat, skipUnknown: bool): seq<Verdict>
    requires iso.fenced < 5
    decreases Weight(iso.work), 5 - iso.fenced
  {
    if iso.work == [] then []
    else
      TurnShrinks(iso, s, env(n), limit, skipUnknown);
      var t := OneTurn(iso, s, env(n), limit, skipUnknown);
      Told(iso, env(n), skipUnknown)
      + if t.Running? then Answers(t.iso, t.store, env, n + 1, limit, skipUnknown) else []
  }

  /** The fences since the last part that went through. */
  function FencesSinceOk(answers: seq<Verdict>): nat {
    if answers == [] || answers[|answers| - 1] == Ok then 0
    else FencesSinceOk(answers[..|answers| - 1]) + if answers[|answers| - 1] == Fenced then 1 else 0
  }

  lemma {:induction false} FencesGoOn(a: seq<Verdict>, b: seq<Verdict>)
    ensures FencesSinceOk(a + b) == FencesSinceOk(b) + if Ok in b then 0 else FencesSinceOk(a)
    decreases |b|
  {
    if b == [] {
      assert a + b == a;
    } else {
      var front := b[..|b| - 1];
      assert (a + b)[..|a + b| - 1] == a + front;
      assert b == front + [b[|b| - 1]];
      FencesGoOn(a, front);
    }
  }

  /** The fences in a row once these answers have come. */
  function Row(fenced: nat, answers: seq<Verdict>): nat {
    FencesSinceOk(answers) + if Ok in answers then 0 else fenced
  }

  lemma RowGoesOn(fenced: nat, a: seq<Verdict>, b: seq<Verdict>)
    ensures Row(fenced, a + b) == Row(Row(fenced, a), b)
  {
    FencesGoOn(a, b);
  }

  lemma TurnCountsFences(iso: Iso, s: Store, io: Io, limit: nat, skipUnknown: bool)
    requires iso.work != [] && iso.fenced < 5
    ensures
      var t, row := OneTurn(iso, s, io, limit, skipUnknown), Row(iso.fenced, Told(iso, io, skipUnknown));
      if t.Running? then t.iso.fenced == row else row <= 5 && (t.fault == FencedOut <==> row == 5)
  {
    KeepAllShrinks(iso.work, io.owned);
    var part := KeepAlive(iso, io).work[0];
    if part == [] {
      assert Told(iso, io, skipUnknown) == [];
    } else {
      var v := Answer(PlanOf(part, iso.snap, iso.held, skipUnknown), io.verdict(part));
      assert [v][..0] == [] && FencesSinceOk([v]) == if v == Fenced then 1 else 0;
    }
  }

  /** An isolation is fenced out exactly by its fifth fence with no part going through in between. */
  lemma {:induction false} RunFencedOutIff(iso: Iso, s: Store, env: nat -> Io, n: nat, limit: nat, skipUnknown: bool)
    requires iso.fenced < 5
    ensures
      var row := Row(iso.fenced, Answers(iso, s, env, n, limit, skipUnknown));
      row <= 5 && (Run(iso, s, env, n, limit, skipUnknown).fault == Some(FencedOut) <==> row == 5)
    decreases Weight(iso.work), 5 - iso.fenced
  {
    if iso.work == [] {
    } else {
      TurnShrinks(iso, s, env(n), limit, skipUnknown);
      TurnCountsFences(iso, s, env(n), limit, skipUnknown);
      var t := OneTurn(iso, s, env(n), limit, skipUnknown);
      if t.Running? {
        RunFencedOutIff(t.iso, t.store, env, n + 1, limit, skipUnknown);
        RowGoesOn(iso.fenced, Told(iso, env(n), skipUnknown), Answers(t.iso, t.store, env, n + 1, limit, skipUnknown));
      } else {
        assert Told(iso, env(n), skipUnknown) + [] == Told(iso, env(n), skipUnknown);
      }
    }
  }

  // ---- Fresh decisions pass ----

  ghost predicate PlainSources(rs: seq<Record>) { forall r | r in rs && r.parsed.Change? :: Plain(r.parsed.sourceId) }

  /** What is decided on the ownership it commits under passes the fence and the skip checks, unless it skips
      a table that has an ownership row. */
  lemma FreshPassesIff(m: Meta, batch: seq<Record>, snap: Snapshot, held: Offsets, skipUnknown: bool)
    requires ValidMeta(m) && Shows(snap, m, m.registered) && PlainSources(batch)
    ensures var plan := PlanOf(batch, snap, held, skipUnknown);
            Passes(m, plan, snap) <==> !SkipsOwned(m, plan, snap)
  {
    var plan := PlanOf(batch, snap, held, skipUnknown);
    forall r | r in plan.writes
      ensures r.parsed.Change?
      ensures var route := snap.RouteOf(r.parsed.sourceId, r.parsed.table);
              var key := (r.parsed.sourceId, r.parsed.table);
              Accepts(if key in m.rows then Some(m.rows[key]) else None, KAFKA, route.target, route.epoch)
    {
      ListedKinds(batch, snap, held, skipUnknown, r);
      ListedDraws(batch, snap, held, skipUnknown, r);
      DisposeMeans(snap, r, skipUnknown);
    }
    forall r | r in plan.skips
      ensures r.parsed.Change?
      ensures Stale(m, CheckFor(snap, r.parsed.sourceId, r.parsed.table)) <==> OwnedSkip(m, snap, r)
    {
      ListedKinds(batch, snap, held, skipUnknown, r);
      SkipPassesIff(m, snap, r.parsed.sourceId, r.parsed.table);
    }
  }

  lemma ListedDraws(batch: seq<Record>, snap: Snapshot, held: Offsets, skipUnknown: bool, r: Record)
    requires r in PlanOf(batch, snap, held, skipUnknown).writes
    ensures r in batch
  {
    PassMeans(batch, snap, held, skipUnknown);
    ChosenHolds(batch, At(batch, snap, held, x => Ours(snap, x)), r);
  }

  /** A turn under the ownership `m`, `m'` being that of the next: the warehouse fences only what does not
      pass, the refresh loads what stands then, and no table with an ownership row is skipped. */
  ghost predicate FencesStale(iso: Iso, io: Io, m: Meta, m': Meta, skipUnknown: bool)
    requires iso.work != []
  {
    var plan := PlanOf(PartOf(iso, io), iso.snap, iso.held, skipUnknown);
    && ValidMeta(m) && Shows(io.refreshed, m', m'.registered) && PlainSources(PartOf(iso, io))
    && !SkipsOwned(m, plan, iso.snap)
    && (Answer(plan, io.verdict(PartOf(iso, io))) == Fenced ==> !Passes(m, plan, iso.snap))
  }

  ghost predicate RunFencesStale(iso: Iso, s: Store, env: nat -> Io, metas: nat -> Meta, n: nat, limit: nat,
                                 skipUnknown: bool)
    requires iso.fenced < 5
    decreases Weight(iso.work), 5 - iso.fenced
  {
    iso.work != [] ==>
      && FencesStale(iso, env(n), metas(n), metas(n + 1), skipUnknown)
      && (TurnShrinks(iso, s, env(n), limit, skipUnknown);
          var t := OneTurn(iso, s, env(n), limit, skipUnknown);
          t.Running? ==> RunFencesStale(t.iso, t.store, env, metas, n + 1, limit, skipUnknown))
  }

  /** How many more fences may come: those in a row, one if the snapshot is not the present one, and one for
      each change of ownership still to come. */
  ghost function Debt(iso: Iso, m: Meta, changes: nat): nat {
    iso.fenced + (if Shows(iso.snap, m, m.registered) then 0 else 1) + changes
  }

  lemma StaleNow(iso: Iso, s: Store, env: nat -> Io, metas: nat -> Meta, n: nat, limit: nat, skipUnknown: bool)
    requires iso.fenced < 5 && iso.work != [] && RunFencesStale(iso, s, env, metas, n, limit, skipUnknown)
    ensures FencesStale(iso, env(n), metas(n), metas(n + 1), skipUnknown)
    ensures
      var t := OneTurn(iso, s, env(n), limit, skipUnknown);
      t.Running? ==> t.iso.fenced < 5 && RunFencesStale(t.iso, t.store, env, metas, n + 1, limit, skipUnknown)
  {
    TurnShrinks(iso, s, env(n), limit, skipUnknown);
  }

  lemma CountedNow(metas: nat -> Meta, changes: nat -> nat, n: nat)
    requires Counts(metas, changes)
    ensures changes(n) == changes(n + 1) + if metas(n + 1) == metas(n) then 0 else 1
  {
  }

  /** How often the ownership still changes after each turn. */
  ghost predicate Counts(metas: nat -> Meta, changes: nat -> nat) {
    forall k: nat :: changes(k) == changes(k + 1) + if metas(k + 1) == metas(k) then 0 else 1
  }

  /** What a turn does to the fences in a row and to the snapshot. */
  lemma TurnMoves(iso: Iso, s: Store, io: Io, limit: nat, skipUnknown: bool)
    requires iso.work != []
    ensures
      var t, part := OneTurn(iso, s, io, limit, skipUnknown), PartOf(iso, io);
      if part != [] && Answer(PlanOf(part, iso.snap, iso.held, skipUnknown), io.verdict(part)) == Fenced then
        && t.iso.fenced == iso.fenced + 1
        && if t.Running? then t.iso.snap == io.refreshed else iso.fenced >= 4
      else if t.Running? then t.iso.fenced <= iso.fenced && t.iso.snap == iso.snap
      else t.fault != FencedOut
  {
    KeepAllShrinks(iso.work, io.owned);
  }

  lemma TurnPaysDebt(iso: Iso, s: Store, io: Io, m: Meta, m': Meta, limit: nat, skipUnknown: bool, more: nat)
    requires iso.work != [] && FencesStale(iso, io, m, m', skipUnknown)
    requires Debt(iso, m, more + if m' == m then 0 else 1) <= 4
    ensures var t := OneTurn(iso, s, io, limit, skipUnknown);
            if t.Running? then Debt(t.iso, m', more) <= 4 else t.fault != FencedOut
  {
    TurnMoves(iso, s, io, limit, skipUnknown);
    var part := PartOf(iso, io);
    if Shows(iso.snap, m, m.registered) { FreshPassesIff(m, part, iso.snap, iso.held, skipUnknown); }
  }

  lemma StaleTurn(iso: Iso, s: Store, env: nat -> Io, metas: nat -> Meta, changes: nat -> nat, n: nat, limit: nat,
                  skipUnknown: bool)
    requires iso.fenced < 5 && iso.work != [] && RunFencesStale(iso, s, env, metas, n, limit, skipUnknown)
    requires Counts(metas, changes) && Debt(iso, metas(n), changes(n)) <= 4
    ensures
      var t := OneTurn(iso, s, env(n), limit, skipUnknown);
      if t.Running? then
        && t.iso.fenced < 5 && RunFencesStale(t.iso, t.store, env, metas, n + 1, limit, skipUnknown)
        && Debt(t.iso, metas(n + 1), changes(n + 1)) <= 4
      else t.fault != FencedOut
  {
    StaleNow(iso, s, env, metas, n, limit, skipUnknown);
    CountedNow(metas, changes, n);
    TurnPaysDebt(iso, s, env(n), metas(n), metas(n + 1), limit, skipUnknown, changes(n + 1));
  }

  /** The turn keeps what holds of an isolation, its store and its turn number, and is not the fifth fence. */
  ghost predicate KeepsGoing(t: Turn, n: nat, good: (Iso, Store, nat) -> bool) {
    if t.Running? then good(t.iso, t.store, n + 1) else t.fault != FencedOut
  }

  lemma {:induction false} NeverBy(iso: Iso, s: Store, env: nat -> Io, n: nat, limit: nat, skipUnknown: bool,
                                   good: (Iso, Store, nat) -> bool)
    requires iso.fenced < 5 && good(iso, s, n)
    requires forall i: Iso, at: Store, k: nat :: i.fenced < 5 && i.work != [] && good(i, at, k) ==>
      KeepsGoing(OneTurn(i, at, env(k), limit, skipUnknown), k, good)
    ensures Run(iso, s, env, n, limit, skipUnknown).fault != Some(FencedOut)
    decreases Weight(iso.work), 5 - iso.fenced
  {
    if iso.work == [] {
    } else {
      TurnShrinks(iso, s, env(n), limit, skipUnknown);
      var t := OneTurn(iso, s, env(n), limit, skipUnknown);
      assert KeepsGoing(t, n, good);
      if t.Running? { NeverBy(t.iso, t.store, env, n + 1, limit, skipUnknown, good); }
    }
  }

  /** A worker whose refreshes show the ownership that stands is never fenced out, as long as it changes at
      most three times while the isolation runs. */
  lemma NeverFencedOut(iso: Iso, s: Store, env: nat -> Io, metas: nat -> Meta, changes: nat -> nat, n: nat, limit: nat,
                       skipUnknown: bool)
    requires iso.fenced < 5 && RunFencesStale(iso, s, env, metas, n, limit, skipUnknown)
    requires Counts(metas, changes) && Debt(iso, metas(n), changes(n)) <= 4
    ensures Run(iso, s, env, n, limit, skipUnknown).fault != Some(FencedOut)
  {
    var good := (i: Iso, at: Store, k: nat) =>
      && i.fenced < 5 && RunFencesStale(i, at, env, metas, k, limit, skipUnknown)
      && Debt(i, metas(k), changes(k)) <= 4;
    forall i: Iso, at: Store, k: nat | i.fenced < 5 && i.work != [] && good(i, at, k)
      ensures KeepsGoing(OneTurn(i, at, env(k), limit, skipUnknown), k, good)
    {
      StaleTurn(i, at, env, metas, changes, k, limit, skipUnknown);
    }
    NeverBy(iso, s, env, n, limit, skipUnknown, good);
  }

  /** From an isolation's start, whatever snapshot it starts with. */
  lemma IsolationNotFencedOut(batch: seq<Record>, snap: Snapshot, s: Store, env: nat -> Io, metas: nat -> Meta,
                              changes: nat -> nat, limit: nat, skipUnknown: bool)
    requires RunFencesStale(Start(batch, batch, snap), s, env, metas, 0, limit, skipUnknown)
    requires Counts(metas, changes) && changes(0) <= 3
    ensures Run(Start(batch, batch, snap), s, env, 0, limit, skipUnknown).fault != Some(FencedOut)
  {
    NeverFencedOut(Start(batch, batch, snap), s, env, metas, changes, 0, limit, skipUnknown);
  }
}
