/** What the retry loop guarantees for any outside world: nothing is lost, returned offsets never run
    ahead of the stored ones, and an open breaker stops all quarantining. */
module RetryProofs {
  import opened Batches
  import opened Isolation
  import opened IsolationProofs
  import opened Retrying

  lemma AttemptSafe(w: Status, s: Store, a: Attempt, c: Config)
    requires StoreSafe(s) && Safe(w.buffer, Settled(s))
    ensures
      var step := OneAttempt(w, s, a, c);
      StoreSafe(step.store) && Settled(s) <= Settled(step.store) && Safe(step.status.buffer, Settled(step.store))
  {
    var plan := PlanOf(w.buffer, a.snap, map[], c.skipUnknown);
    var v := Answer(plan, a.verdict);
    var s' := After(s, plan, v);
    PassSafe(w.buffer, a.snap, c.skipUnknown, s, v, plan);
    SafeWithout(w.buffer, Settled(s'), a.revoked, Settled(s'));
    if v == Data && !w.tripped {
      IsolationSafe(w, s', a, c);
    }
  }

  lemma IsolationSafe(w: Status, s: Store, a: Attempt, c: Config)
    requires StoreSafe(s) && Safe(w.buffer, Settled(s))
    ensures
      var step := IsolateAttempt(w, s, a, c);
      StoreSafe(step.store) && Settled(s) <= Settled(step.store) && Safe(step.status.buffer, Settled(step.store))
  {
    var limit := QuarantineLimit(c, |w.buffer|);
    IsolationRunSafe(w.buffer, s, a, limit, c.skipUnknown);
    IsolatedSafe(w, Run(Start(w.buffer, w.buffer, a.isolationSnap), s, a.isolation, 0, limit, c.skipUnknown), a);
  }

  lemma IsolatedSafe(w: Status, e: End, a: Attempt)
    requires Safe(e.iso.buffer, Settled(e.store)) && Safe(Without(e.iso.buffer, a.revoked), Settled(e.store))
    ensures var step := Isolated(w, e, a); step.store == e.store && Safe(step.status.buffer, Settled(step.store))
  {
  }

  lemma IsolationRunSafe(buffer: seq<Record>, s: Store, a: Attempt, limit: nat, skipUnknown: bool)
    requires StoreSafe(s) && Safe(buffer, Settled(s))
    ensures
      var e := Run(Start(buffer, buffer, a.isolationSnap), s, a.isolation, 0, limit, skipUnknown);
      && StoreSafe(e.store) && Settled(s) <= Settled(e.store)
      && Safe(e.iso.buffer, Settled(e.store)) && Safe(Without(e.iso.buffer, a.revoked), Settled(e.store))
  {
    var start := Start(buffer, buffer, a.isolationSnap);
    StartSafe(buffer, buffer, a.isolationSnap, Settled(s));
    RunSafe(start, s, a.isolation, 0, limit, skipUnknown);
    var e := Run(start, s, a.isolation, 0, limit, skipUnknown);
    SafeWithout(e.iso.buffer, Settled(e.store), a.revoked, Settled(e.store));
  }

  /** No loss over a whole call, whatever the warehouse, the broker and the rebalances do. */
  lemma {:induction false} RetrySafe(w: Status, s: Store, env: nat -> Attempt, n: nat, stop: nat, c: Config)
    requires StoreSafe(s) && Safe(w.buffer, Settled(s))
    ensures
      var end := Retry(w, s, env, n, stop, c);
      StoreSafe(end.store) && Settled(s) <= Settled(end.store) && Safe(end.status.buffer, Settled(end.store))
    decreases stop - n
  {
    if n < stop && w.buffer != [] {
      AttemptSafe(w, s, env(n), c);
      var step := OneAttempt(w, s, env(n), c);
      if step.ending == Again { RetrySafe(step.status, step.store, env, n + 1, stop, c); }
    }
  }

  /** Returned offsets are stored offsets. */
  ghost predicate Stored(commit: Offsets, stored: Offsets) {
    forall tp | tp in commit :: tp in stored && commit[tp] <= stored[tp]
  }

  lemma AfterStores(commit: Offsets, s: Store, p: Plan, v: Verdict)
    requires Stored(commit, s.offsets)
    ensures Stored(commit, After(s, p, v).offsets) && Stored(s.offsets, After(s, p, v).offsets)
    ensures v == Ok ==> Stored(Merge(commit, p.next), After(s, p, v).offsets)
  {
  }

  lemma TurnStores(iso: Iso, s: Store, io: Io, limit: nat, skipUnknown: bool)
    requires iso.work != [] && Stored(iso.commit, s.offsets)
    ensures var t := OneTurn(iso, s, io, limit, skipUnknown);
            && Stored(t.iso.commit, t.store.offsets)
            && Stored(s.offsets, t.store.offsets)
  {
    KeepAllShrinks(iso.work, io.owned);
    var alive := KeepAlive(iso, io);
    if alive.work[0] != [] { SettleStores(alive.(work := alive.work[1..]), alive.work[0], s, io, limit, skipUnknown); }
  }

  lemma SettleStores(iso: Iso, part: seq<Record>, s: Store, io: Io, limit: nat, skipUnknown: bool)
    requires part != [] && Stored(iso.commit, s.offsets)
    ensures var t := Settle(iso, part, s, io, limit, skipUnknown);
            && Stored(t.iso.commit, t.store.offsets)
            && Stored(s.offsets, t.store.offsets)
  {
    var plan := PlanOf(part, iso.snap, iso.held, skipUnknown);
    var v := Answer(plan, io.verdict(part));
    AfterStores(iso.commit, s, plan, v);
    if v == Data && |part| == 1 {
      AfterStores(iso.commit, After(s, plan, v), QuarantinePlan(part[0]), io.quarantine(part[0]));
    }
  }

  lemma {:induction false} RunStores(iso: Iso, s: Store, env: nat -> Io, n: nat, limit: nat, skipUnknown: bool)
    requires iso.fenced < 5 && Stored(iso.commit, s.offsets)
    ensures
      var e := Run(iso, s, env, n, limit, skipUnknown);
      Stored(e.iso.commit, e.store.offsets) && Stored(s.offsets, e.store.offsets)
    decreases Weight(iso.work), 5 - iso.fenced
  {
    if iso.work == [] {
    } else {
      var t := OneTurn(iso, s, env(n), limit, skipUnknown);
      TurnShrinks(iso, s, env(n), limit, skipUnknown);
      TurnStores(iso, s, env(n), limit, skipUnknown);
      if t.Running? { RunStores(t.iso, t.store, env, n + 1, limit, skipUnknown); }
    }
  }

  lemma AttemptStores(w: Status, s: Store, a: Attempt, c: Config)
    requires Stored(w.commit, s.offsets)
    ensures var step := OneAttempt(w, s, a, c);
            && Stored(step.status.commit, step.store.offsets)
            && Stored(s.offsets, step.store.offsets)
  {
    var plan := PlanOf(w.buffer, a.snap, map[], c.skipUnknown);
    var v := Answer(plan, a.verdict);
    AfterStores(w.commit, s, plan, v);
    if v == Data && !w.tripped { IsolationStores(w, After(s, plan, v), a, c); }
  }

  lemma IsolationStores(w: Status, s: Store, a: Attempt, c: Config)
    requires Stored(w.commit, s.offsets)
    ensures var step := IsolateAttempt(w, s, a, c);
            && Stored(step.status.commit, step.store.offsets)
            && Stored(s.offsets, step.store.offsets)
  {
    var limit := QuarantineLimit(c, |w.buffer|);
    var start := Start(w.buffer, w.buffer, a.isolationSnap);
    RunStores(start, s, a.isolation, 0, limit, c.skipUnknown);
    var e := Run(start, s, a.isolation, 0, limit, c.skipUnknown);
    StoredMerge(w.commit, e.iso.commit, e.store.offsets);
    IsolatedStores(w, e, a);
  }

  lemma IsolatedStores(w: Status, e: End, a: Attempt)
    requires Stored(w.commit, e.store.offsets) && Stored(Merge(w.commit, e.iso.commit), e.store.offsets)
    ensures var step := Isolated(w, e, a); step.store == e.store && Stored(step.status.commit, step.store.offsets)
  {
  }

  lemma StoredMerge(a: Offsets, b: Offsets, stored: Offsets)
    requires forall tp | tp in b :: tp in stored && b[tp] <= stored[tp]
    ensures Stored(a, stored) ==> Stored(Merge(a, b), stored)
  {
  }

  /** What the worker reports to Kafka never runs ahead of the warehouse. */
  lemma {:induction false} RetryStores(w: Status, s: Store, env: nat -> Attempt, n: nat, stop: nat, c: Config)
    requires Stored(w.commit, s.offsets)
    ensures
      var end := Retry(w, s, env, n, stop, c);
      Stored(end.status.commit, end.store.offsets) && Stored(s.offsets, end.store.offsets)
    decreases stop - n
  {
    if n < stop && w.buffer != [] {
      AttemptStores(w, s, env(n), c);
      var step := OneAttempt(w, s, env(n), c);
      if step.ending == Again { RetryStores(step.status, step.store, env, n + 1, stop, c); }
    }
  }

  /** The breaker: a call that starts with it open quarantines nothing, and closes it only by settling
      the whole buffer. */
  lemma {:induction false} OpenBreakerQuarantinesNothing(w: Status, s: Store, env: nat -> Attempt, n: nat, stop: nat,
                                                         c: Config)
    requires w.tripped
    ensures
      var end := Retry(w, s, env, n, stop, c);
      end.status.quarantined == w.quarantined && (end.status.tripped <==> end.ending != Finished)
    decreases stop - n
  {
    if n < stop && w.buffer != [] {
      var step := OneAttempt(w, s, env(n), c);
      if step.ending == Again { OpenBreakerQuarantinesNothing(step.status, step.store, env, n + 1, stop, c); }
    }
  }

  /** Once an attempt opens the breaker, the rest of the call quarantines nothing more. */
  lemma TrippingIsFinal(w: Status, s: Store, env: nat -> Attempt, n: nat, stop: nat, c: Config)
    requires n < stop && w.buffer != []
    ensures
      var step := OneAttempt(w, s, env(n), c);
      step.status.tripped ==> Retry(w, s, env, n, stop, c).status.quarantined == step.status.quarantined
  {
    var step := OneAttempt(w, s, env(n), c);
    if step.status.tripped && step.ending == Again {
      OpenBreakerQuarantinesNothing(step.status, step.store, env, n + 1, stop, c);
    }
  }
}
