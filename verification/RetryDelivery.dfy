/** The retry loop inside the whole sink: a call of processWithRetry is a run of the machine's steps, so
    what holds of every execution holds of the worker's calls. */
module RetryDelivery {
  import opened Options
  import opened Routing
  import opened Batches
  import opened Isolation
  import opened IsolationExact
  import opened Retrying
  import opened Delivery
  import opened DeliveryProofs

  ghost predicate Leads(states: seq<State>, steps: seq<Step>, c: Config, s: State, s': State) {
    Trace(states, steps, c) && states[0] == s && states[|states| - 1] == s'
  }

  ghost predicate Reaches(s: State, s': State, c: Config) { exists states, steps :: Leads(states, steps, c, s, s') }

  lemma ReachesItself(s: State, c: Config)
    ensures Reaches(s, s, c)
  {
    assert Leads([s], [], c, s, s);
  }

  lemma {:induction false} TracesJoin(ps: seq<State>, xs: seq<Step>, bs: seq<State>, ys: seq<Step>, c: Config)
    requires Trace(ps, xs, c) && Trace(bs, ys, c) && ps[|ps| - 1] == bs[0]
    ensures Trace(ps + bs[1..], xs + ys, c)
  {
    var all, steps := ps + bs[1..], xs + ys;
    forall i | 0 <= i < |steps| ensures Enabled(all[i], steps[i], c) && all[i + 1] == Next(all[i], steps[i], c) {
      if i >= |xs| {
        var k := i - |xs|;
        assert all[i] == bs[k] && all[i + 1] == bs[k + 1];
      }
    }
  }

  lemma ReachesOn(s: State, s': State, s'': State, c: Config)
    requires Reaches(s, s', c) && Reaches(s', s'', c)
    ensures Reaches(s, s'', c)
  {
    var ps, xs :| Leads(ps, xs, c, s, s');
    var bs, ys :| Leads(bs, ys, c, s', s'');
    TracesJoin(ps, xs, bs, ys, c);
    assert Leads(ps + bs[1..], xs + ys, c, s, s'');
  }

  lemma ReachesNext(s: State, s': State, step: Step, c: Config)
    requires Reaches(s, s', c) && Enabled(s', step, c)
    ensures Reaches(s, Next(s', step, c), c)
  {
    var s'' := Next(s', step, c);
    assert Leads([s', s''], [step], c, s', s'');
    ReachesOn(s, s', s'', c);
  }

  // ---- Answers that can come ----

  /** The warehouse gives this answer under some ownership. */
  ghost predicate CanCome(p: Plan, snap: Snapshot, v: Verdict) { exists m :: ValidMeta(m) && Legitimate(m, p, snap, v) }

  /** One turn of an isolation meets an answer that can come. */
  ghost predicate TurnCanCome(iso: Iso, io: Io, skipUnknown: bool)
    requires iso.work != []
  {
    && io.refreshed.Filtered()
    && (PartOf(iso, io) != [] ==>
          var plan := PlanOf(PartOf(iso, io), iso.snap, iso.held, skipUnknown);
          CanCome(plan, iso.snap, Answer(plan, io.verdict(PartOf(iso, io)))))
  }

  ghost predicate RunCanCome(iso: Iso, s: Store, env: nat -> Io, n: nat, limit: nat, skipUnknown: bool)
    requires iso.fenced < 5
    decreases Weight(iso.work), 5 - iso.fenced
  {
    iso.work != [] ==>
      && TurnCanCome(iso, env(n), skipUnknown)
      && (TurnShrinks(iso, s, env(n), limit, skipUnknown);
          var t := OneTurn(iso, s, env(n), limit, skipUnknown);
          t.Running? ==> RunCanCome(t.iso, t.store, env, n + 1, limit, skipUnknown))
  }

  ghost predicate AttemptCanCome(w: Status, s: Store, a: Attempt, c: Config) {
    var plan := PlanOf(w.buffer, a.snap, map[], c.skipUnknown);
    var v := Answer(plan, a.verdict);
    && a.snap.Filtered() && a.isolationSnap.Filtered()
    && CanCome(plan, a.snap, v)
    && (v == Data && !w.tripped ==>
          RunCanCome(Start(w.buffer, w.buffer, a.isolationSnap), After(s, plan, v), a.isolation, 0,
                     QuarantineLimit(c, |w.buffer|), c.skipUnknown))
  }

  ghost predicate RetryCanCome(w: Status, s: Store, env: nat -> Attempt, n: nat, stop: nat, c: Config)
    decreases stop - n
  {
    n < stop && w.buffer != [] ==>
      && AttemptCanCome(w, s, env(n), c)
      && var step := OneAttempt(w, s, env(n), c);
         step.ending == Again ==> RetryCanCome(step.status, step.store, env, n + 1, stop, c)
  }

  // ---- Steps ----

  /** Worker w collects this buffer, with this breaker, and the warehouse holds this store. */
  ghost predicate Stands(s: State, w: nat, buffer: seq<Record>, tripped: bool, store: Store) {
    w < |s.workers| && s.workers[w].mode == Collecting(buffer) && s.workers[w].tripped == tripped && s.store == store
  }

  lemma PassReaches(s: State, w: nat, a: Attempt, c: Config) returns (s': State)
    requires w < |s.workers| && s.workers[w].mode.Collecting? && a.snap.Filtered() && a.isolationSnap.Filtered()
    requires var plan := PlanOf(BufferOf(s.workers[w]), a.snap, map[], c.skipUnknown);
             CanCome(plan, a.snap, Answer(plan, a.verdict))
    ensures var plan := PlanOf(BufferOf(s.workers[w]), a.snap, map[], c.skipUnknown);
            var v := Answer(plan, a.verdict);
            && Reaches(s, s', c) && w < |s'.workers| && s'.store == After(s.store, plan, v)
            && s'.workers[w] == AfterProcess(s.workers[w], plan, v, a.isolationSnap, c)
  {
    var plan := PlanOf(BufferOf(s.workers[w]), a.snap, map[], c.skipUnknown);
    var m :| ValidMeta(m) && Legitimate(m, plan, a.snap, Answer(plan, a.verdict));
    ReachesItself(s, c);
    ReachesNext(s, s, ChangeOwnership(m), c);
    var s1 := Next(s, ChangeOwnership(m), c);
    var pass := Step.Process(w, a.snap, a.verdict, a.isolationSnap);
    ReachesNext(s, s1, pass, c);
    s' := Next(s1, pass, c);
  }

  lemma RevokeReaches(s: State, w: nat, tps: set<Partition>, c: Config) returns (s': State)
    requires w < |s.workers|
    ensures Reaches(s, s', c) && w < |s'.workers| && s'.store == s.store
    ensures s'.workers[w] ==
            SetBuffer(s.workers[w], Without(BufferOf(s.workers[w]), tps)).(pos := s.workers[w].pos - tps)
  {
    ReachesItself(s, c);
    ReachesNext(s, s, Revoke(w, tps), c);
    s' := Next(s, Revoke(w, tps), c);
  }

  /** A revocation in the keep-alive poll is a revocation, then a poll that revokes nothing. */
  lemma SameTurn(iso: Iso, s: Store, io: Io, limit: nat, skipUnknown: bool)
    requires iso.work != []
    ensures
      var dropped := iso.(buffer := Without(iso.buffer, io.revoked));
      && OneTurn(dropped, s, io.(revoked := {}), limit, skipUnknown) == OneTurn(iso, s, io, limit, skipUnknown)
      && PartOf(dropped, io.(revoked := {})) == PartOf(iso, io)
  {
    var dropped := iso.(buffer := Without(iso.buffer, io.revoked));
    WithoutNothing(dropped.buffer);
    assert KeepAlive(dropped, io.(revoked := {})) == KeepAlive(iso, io);
    KeepAllShrinks(iso.work, io.owned);
    var alive := KeepAlive(iso, io);
    if alive.work[0] != [] { SameSettle(alive.(work := alive.work[1..]), alive.work[0], s, io, limit, skipUnknown); }
  }

  lemma SameSettle(iso: Iso, part: seq<Record>, s: Store, io: Io, limit: nat, skipUnknown: bool)
    requires part != []
    ensures Settle(iso, part, s, io.(revoked := {}), limit, skipUnknown) == Settle(iso, part, s, io, limit, skipUnknown)
  {
  }

  lemma TurnReaches(s: State, w: nat, io: Io, c: Config) returns (s': State)
    requires w < |s.workers| && s.workers[w].mode.Isolating? && s.workers[w].mode.iso.work != []
    requires TurnCanCome(s.workers[w].mode.iso, io, c.skipUnknown)
    ensures var worker := s.workers[w];
            var t := OneTurn(worker.mode.iso, s.store, io, worker.mode.limit, c.skipUnknown);
            && Reaches(s, s', c) && w < |s'.workers| && s'.store == t.store
            && s'.workers[w] == AfterTurn(worker.(pos := worker.pos - io.revoked), t)
  {
    var worker := s.workers[w];
    var iso := worker.mode.iso;
    SameTurn(iso, s.store, io, worker.mode.limit, c.skipUnknown);
    var s1 := RevokeReaches(s, w, io.revoked, c);
    var m: Meta;
    var plan := PlanOf(PartOf(iso, io), iso.snap, iso.held, c.skipUnknown);
    if PartOf(iso, io) != [] {
      m :| ValidMeta(m) && Legitimate(m, plan, iso.snap, Answer(plan, io.verdict(PartOf(iso, io))));
    } else {
      m := Meta(map[], {});
    }
    ReachesNext(s, s1, ChangeOwnership(m), c);
    var s2 := Next(s1, ChangeOwnership(m), c);
    var turn := Step.IsolationTurn(w, io.(revoked := {}));
    ReachesNext(s, s2, turn, c);
    s' := Next(s2, turn, c);
  }

  /** Where an isolation leaves its worker. */
  ghost predicate Left(s: State, w: nat, tripped: bool, e: End) {
    && w < |s.workers| && s.store == e.store
    && if e.fault == Some(Failed(Fatal)) then s.workers[w] == IDLE
       else Stands(s, w, e.iso.buffer, tripped || e.fault == Some(LimitReached), e.store)
  }

  lemma {:induction false} RunReaches(s: State, w: nat, env: nat -> Io, n: nat, c: Config) returns (s': State)
    requires w < |s.workers| && s.workers[w].mode.Isolating? && s.workers[w].mode.iso.fenced < 5
    requires RunCanCome(s.workers[w].mode.iso, s.store, env, n, s.workers[w].mode.limit, c.skipUnknown)
    ensures var worker := s.workers[w];
            var e := Run(worker.mode.iso, s.store, env, n, worker.mode.limit, c.skipUnknown);
            Reaches(s, s', c) && Left(s', w, worker.tripped, e)
    decreases Weight(s.workers[w].mode.iso.work), 5 - s.workers[w].mode.iso.fenced
  {
    var worker := s.workers[w];
    var iso, limit := worker.mode.iso, worker.mode.limit;
    if iso.work == [] {
      var io := Io({}, {}, _ => Ok, _ => Ok, Snapshot(map[], {}));
      ReachesItself(s, c);
      ReachesNext(s, s, IsolationTurn(w, io), c);
      s' := Next(s, IsolationTurn(w, io), c);
    } else {
      TurnShrinks(iso, s.store, env(n), limit, c.skipUnknown);
      var t := OneTurn(iso, s.store, env(n), limit, c.skipUnknown);
      var s1 := TurnReaches(s, w, env(n), c);
      s' := s1;
      if t.Running? {
        s' := RunReaches(s1, w, env, n + 1, c);
        ReachesOn(s, s1, s', c);
      }
    }
  }

  ghost predicate StandsAfter(s: State, w: nat, done: Attempted) {
    && w < |s.workers| && s.store == done.store
    && if done.ending == Dead then s.workers[w] == IDLE
       else Stands(s, w, done.status.buffer, done.status.tripped, done.store)
  }

  /** One attempt is a pass, the turns of an isolation if there is one, and a revocation. */
  lemma AttemptReaches(s: State, w: nat, status: Status, a: Attempt, c: Config) returns (s': State)
    requires Stands(s, w, status.buffer, status.tripped, s.store) && AttemptCanCome(status, s.store, a, c)
    ensures Reaches(s, s', c) && StandsAfter(s', w, OneAttempt(status, s.store, a, c))
  {
    var plan := PlanOf(status.buffer, a.snap, map[], c.skipUnknown);
    var v := Answer(plan, a.verdict);
    s' := PassReaches(s, w, a, c);
    if v == Data && !status.tripped {
      s' := IsolationReaches(s, s', w, status, a, c);
    } else if v != Ok && v != Fatal {
      var s1 := s';
      s' := RevokeReaches(s1, w, a.revoked, c);
      ReachesOn(s, s1, s', c);
    }
  }

  lemma IsolationReaches(s: State, s1: State, w: nat, status: Status, a: Attempt, c: Config) returns (s': State)
    requires Reaches(s, s1, c) && w < |s1.workers| && !s1.workers[w].tripped && !status.tripped
    requires s1.workers[w].mode ==
            Isolating(Start(status.buffer, status.buffer, a.isolationSnap), QuarantineLimit(c, |status.buffer|))
    requires RunCanCome(Start(status.buffer, status.buffer, a.isolationSnap), s1.store, a.isolation, 0,
                        QuarantineLimit(c, |status.buffer|), c.skipUnknown)
    ensures Reaches(s, s', c) && StandsAfter(s', w, IsolateAttempt(status, s1.store, a, c))
  {
    var limit := QuarantineLimit(c, |status.buffer|);
    var e := Run(Start(status.buffer, status.buffer, a.isolationSnap), s1.store, a.isolation, 0, limit, c.skipUnknown);
    var s2 := RunReaches(s1, w, a.isolation, 0, c);
    ReachesOn(s, s1, s2, c);
    s' := EndReaches(s, s2, w, status, e, a, c);
  }

  lemma EndReaches(s: State, s2: State, w: nat, status: Status, e: End, a: Attempt, c: Config) returns (s': State)
    requires Reaches(s, s2, c) && Left(s2, w, false, e) && !status.tripped
    ensures Reaches(s, s', c) && StandsAfter(s', w, Isolated(status, e, a))
  {
    s' := s2;
    if e.fault != None && e.fault != Some(Failed(Fatal)) {
      s' := RevokeReaches(s2, w, a.revoked, c);
      ReachesOn(s, s2, s', c);
    }
  }

  /** A whole call of the retry loop is a run of the machine, if only answers come that the warehouse can
      give: the machine ends with the call's buffer, breaker and store. */
  lemma {:induction false} RetryReaches(s: State, w: nat, status: Status, env: nat -> Attempt, n: nat, stop: nat,
                                        c: Config)
      returns (s': State)
    requires Stands(s, w, status.buffer, status.tripped, s.store) && RetryCanCome(status, s.store, env, n, stop, c)
    ensures Reaches(s, s', c) && StandsAfter(s', w, Retry(status, s.store, env, n, stop, c))
    decreases stop - n
  {
    if n >= stop || status.buffer == [] {
      ReachesItself(s, c);
      s' := s;
    } else {
      var step := OneAttempt(status, s.store, env(n), c);
      s' := AttemptReaches(s, w, status, env(n), c);
      if step.ending == Again {
        var s1 := s';
        s' := RetryReaches(s1, w, step.status, env, n + 1, stop, c);
        ReachesOn(s, s1, s', c);
      }
    }
  }

  /** No loss carries over to the worker's calls: a call made at the end of any execution leaves every log
      position below a stored offset accounted for. */
  lemma CallLosesNothing(states: seq<State>, steps: seq<Step>, w: nat, status: Status, env: nat -> Attempt, stop: nat,
                         c: Config)
      returns (s': State)
    requires Execution(states, steps, c)
    requires var s := states[|steps|];
             Stands(s, w, status.buffer, status.tripped, s.store) && RetryCanCome(status, s.store, env, 0, stop, c)
    ensures var end := Retry(status, states[|steps|].store, env, 0, stop, c);
            && StandsAfter(s', w, end)
            && forall tp, o | tp in end.store.offsets && 0 <= o < end.store.offsets[tp] :: Accounted(s', tp, o)
  {
    var s := states[|steps|];
    s' := RetryReaches(s, w, status, env, 0, stop, c);
    var more, extra :| Leads(more, extra, c, s, s');
    TracesJoin(states, steps, more, extra, c);
    var all := states + more[1..];
    assert all[|all| - 1] == s' && all[0] == states[0];
    NoLoss(all, steps + extra, c, |all| - 1);
  }
}
