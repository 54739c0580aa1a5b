/** What a call of the retry loop returns: the partitions it leaves on hold, the records it leaves in the
    buffer, and the offsets it reports. */
module RetryReturns {
  import opened Options
  import opened Routing
  import opened Batches
  import opened Isolation
  import opened IsolationOrder
  import opened PassMeaning
  import opened RetryOutcomes
  import opened Retrying

  // ---- Holds ----

  lemma {:induction false} MinusHolds(rs: seq<Record>, gone: set<Record>, r: Record)
    ensures r in Minus(rs, gone) <==> r in rs && r !in gone
    decreases |rs|
  {
    if rs == [] {
    } else {
      assert rs == [rs[0]] + rs[1..];
      MinusHolds(rs[1..], gone, r);
    }
  }

  /** The record waits: one of a paused table comes first in its partition, at or before its offset. */
  ghost predicate Waits(batch: seq<Record>, snap: Snapshot, r: Record) {
    exists i: nat | i < |batch| :: batch[i].tp == r.tp && FirstPaused(batch, i, snap) && batch[i].offset <= r.offset
  }

  /** What a settled pass leaves in the buffer: the records that wait, among them one of each held partition
      whose table is paused. */
  lemma PassLeaves(batch: seq<Record>, snap: Snapshot, skipUnknown: bool, r: Record)
    ensures var held := PlanOf(batch, snap, map[], skipUnknown).held;
            var left := Minus(batch, Processed(batch, held));
            && (r in left <==> r in batch && Waits(batch, snap, r))
            && (r.tp in held <==> exists x :: x in left && x.tp == r.tp && OnHold(snap, x))
  {
    var held := PlanOf(batch, snap, map[], skipUnknown).held;
    var left := Minus(batch, Processed(batch, held));
    PassMeans(batch, snap, map[], skipUnknown);
    MinusHolds(batch, Processed(batch, held), r);
    HeldFrom(batch, snap, held, r);
    if r.tp in held {
      var i: nat :| i < |batch| && batch[i].tp == r.tp && FirstPaused(batch, i, snap) && held[r.tp] == batch[i].offset;
      MinusHolds(batch, Processed(batch, held), batch[i]);
      assert batch[i] in left;
    }
    if x :| x in left && x.tp == r.tp && OnHold(snap, x) {
      MinusHolds(batch, Processed(batch, held), x);
    }
  }

  /** A partition is held from the first record of a paused table. */
  lemma HeldFrom(batch: seq<Record>, snap: Snapshot, held: Offsets, r: Record)
    requires HoldsAre(held, batch, snap, map[])
    ensures r.tp in held && held[r.tp] <= r.offset <==> Waits(batch, snap, r)
  {
    if Waits(batch, snap, r) {
      var i: nat :| i < |batch| && batch[i].tp == r.tp && FirstPaused(batch, i, snap) && batch[i].offset <= r.offset;
      assert r.tp in held;
      var j: nat :| j < |batch| && batch[j].tp == r.tp && FirstPaused(batch, j, snap) && held[r.tp] == batch[j].offset;
      assert i == j;
    }
  }

  /** An isolation adds nothing to the buffer. */
  lemma {:induction false} RunDraws(iso: Iso, s: Store, env: nat -> Io, n: nat, limit: nat, skipUnknown: bool)
    requires iso.fenced < 5
    ensures forall r | r in Run(iso, s, env, n, limit, skipUnknown).iso.buffer :: r in iso.buffer
    decreases Weight(iso.work), 5 - iso.fenced
  {
    if iso.work == [] {
    } else {
      var t := OneTurn(iso, s, env(n), limit, skipUnknown);
      TurnShrinks(iso, s, env(n), limit, skipUnknown);
      TurnDraws(iso, s, env(n), limit, skipUnknown);
      if t.Running? { RunDraws(t.iso, t.store, env, n + 1, limit, skipUnknown); }
    }
  }

  lemma TurnDraws(iso: Iso, s: Store, io: Io, limit: nat, skipUnknown: bool)
    requires iso.work != []
    ensures forall r | r in OneTurn(iso, s, io, limit, skipUnknown).iso.buffer :: r in iso.buffer
  {
    KeepAllShrinks(iso.work, io.owned);
    var buffer, part := Without(iso.buffer, io.revoked), KeepAlive(iso, io).work[0];
    var held := PlanOf(part, iso.snap, iso.held, skipUnknown).held;
    forall r ensures r in buffer ==> r in iso.buffer
             ensures r in Minus(buffer, Processed(part, held)) ==> r in buffer
             ensures part != [] && r in Minus(buffer, {part[0]}) ==> r in buffer
    {
      WithoutHolds(iso.buffer, io.revoked, r);
      MinusHolds(buffer, Processed(part, held), r);
      if part != [] { MinusHolds(buffer, {part[0]}, r); }
    }
  }

  lemma AttemptDraws(w: Status, s: Store, a: Attempt, c: Config)
    ensures forall r | r in OneAttempt(w, s, a, c).status.buffer :: r in w.buffer
  {
    var plan := PlanOf(w.buffer, a.snap, map[], c.skipUnknown);
    var s' := After(s, plan, Answer(plan, a.verdict));
    var start, limit := Start(w.buffer, w.buffer, a.isolationSnap), QuarantineLimit(c, |w.buffer|);
    RunDraws(start, s', a.isolation, 0, limit, c.skipUnknown);
    var left := Run(start, s', a.isolation, 0, limit, c.skipUnknown).iso.buffer;
    forall r ensures r in Minus(w.buffer, Processed(w.buffer, plan.held)) ==> r in w.buffer
             ensures r in Without(w.buffer, a.revoked) ==> r in w.buffer
             ensures r in Without(left, a.revoked) ==> r in w.buffer
    {
      MinusHolds(w.buffer, Processed(w.buffer, plan.held), r);
      WithoutHolds(w.buffer, a.revoked, r);
      WithoutHolds(left, a.revoked, r);
    }
  }

  /** What an attempt that settles the buffer returns. */
  ghost predicate Settles(w: Status, a: Attempt, end: Status) {
    && (forall tp :: tp in end.held <==>
          tp in a.assignment && exists r :: r in end.buffer && r.tp == tp && OnHold(a.snap, r))
    && (forall r :: r in end.buffer <==> r in w.buffer && Waits(w.buffer, a.snap, r))
  }

  lemma AttemptSettles(w: Status, s: Store, a: Attempt, c: Config)
    requires OneAttempt(w, s, a, c).ending == Finished
    ensures Settles(w, a, OneAttempt(w, s, a, c).status)
  {
    var end := OneAttempt(w, s, a, c).status;
    forall tp ensures tp in end.held <==>
      tp in a.assignment && exists r :: r in end.buffer && r.tp == tp && OnHold(a.snap, r)
    {
      PassLeaves(w.buffer, a.snap, c.skipUnknown, Record(tp, 0, Nothing));
    }
    forall r ensures r in end.buffer <==> r in w.buffer && Waits(w.buffer, a.snap, r) {
      PassLeaves(w.buffer, a.snap, c.skipUnknown, r);
    }
  }

  /** A call that finishes does so at an attempt k, on the buffer and store it then has. The holds it
      returns are the assigned partitions with a buffered record of a table paused in that attempt's
      snapshot, and what it leaves in the buffer is exactly what waits behind such a record. */
  lemma {:induction false} HoldsReturned(w: Status, s: Store, env: nat -> Attempt, n: nat, stop: nat, c: Config)
      returns (k: nat, last: Status, store: Store)
    requires Retry(w, s, env, n, stop, c).ending == Finished
    ensures n <= k < stop && Retry(w, s, env, n, stop, c) == OneAttempt(last, store, env(k), c)
    ensures forall r | r in last.buffer :: r in w.buffer
    ensures Settles(last, env(k), Retry(w, s, env, n, stop, c).status)
    decreases stop - n
  {
    var step := OneAttempt(w, s, env(n), c);
    if step.ending == Again {
      AttemptDraws(w, s, env(n), c);
      k, last, store := HoldsReturned(step.status, step.store, env, n + 1, stop, c);
    } else {
      k, last, store := n, w, s;
      AttemptSettles(w, s, env(n), c);
    }
  }

  // ---- What a sleep takes away ----

  /** Nothing of a partition revoked while an attempt sleeps stays in the buffer or on hold. An attempt that
      neither settles nor isolates leaves everything else as it was, and one whose isolation is cut short
      returns none of its offsets. */
  lemma SleptWithoutRevoked(w: Status, s: Store, a: Attempt, c: Config, r: Record)
    requires OneAttempt(w, s, a, c).ending == Again
    ensures
      var plan := PlanOf(w.buffer, a.snap, map[], c.skipUnknown);
      var isolates := Answer(plan, a.verdict) == Data && !w.tripped;
      var step := OneAttempt(w, s, a, c);
      && (!isolates ==>
            && step.status.commit == w.commit
            && (r in step.status.buffer <==> r in w.buffer && r.tp !in a.revoked)
            && (r.tp in step.status.held <==> r.tp in w.held && r.tp !in a.revoked))
      && (isolates && Run(Start(w.buffer, w.buffer, a.isolationSnap), After(s, plan, Data), a.isolation, 0,
                          QuarantineLimit(c, |w.buffer|), c.skipUnknown).fault != None ==>
            && step.status.commit == w.commit
            && (r.tp in a.revoked ==> r !in step.status.buffer && r.tp !in step.status.held))
  {
    WithoutHolds(w.buffer, a.revoked, r);
    var plan := PlanOf(w.buffer, a.snap, map[], c.skipUnknown);
    var e := Run(Start(w.buffer, w.buffer, a.isolationSnap), After(s, plan, Data), a.isolation, 0,
                 QuarantineLimit(c, |w.buffer|), c.skipUnknown);
    WithoutHolds(e.iso.buffer, a.revoked, r);
  }

  // ---- How a call ends ----

  /** The error that ends an isolation, if one does. */
  function IsolationFault(w: Status, s: Store, a: Attempt, c: Config): Option<Fault> {
    Run(Start(w.buffer, w.buffer, a.isolationSnap), s, a.isolation, 0, QuarantineLimit(c, |w.buffer|),
        c.skipUnknown).fault
  }

  /** The attempt meets an error for good: in the pass itself or in the isolation it starts. */
  predicate MeetsFatal(w: Status, s: Store, a: Attempt, c: Config) {
    var plan := PlanOf(w.buffer, a.snap, map[], c.skipUnknown);
    var v := Answer(plan, a.verdict);
    v == Fatal || (v == Data && !w.tripped && IsolationFault(w, After(s, plan, v), a, c) == Some(Failed(Fatal)))
  }

  /** A call ends by the first attempt that goes through or meets an error for good, and by nothing else: no
      attempt before it did, and every other answer is waited out. */
  lemma {:induction false} EndsAsAnswered(w: Status, s: Store, env: nat -> Attempt, n: nat, stop: nat, c: Config)
      returns (k: nat, last: Status, store: Store)
    requires Retry(w, s, env, n, stop, c).ending != Again
    ensures n <= k < stop && last.buffer != [] && Retry(w, s, env, n, stop, c) == OneAttempt(last, store, env(k), c)
    ensures var end, plan := Retry(w, s, env, n, stop, c), PlanOf(last.buffer, env(k).snap, map[], c.skipUnknown);
            && (end.ending == Finished <==> Answer(plan, env(k).verdict) == Ok)
            && (end.ending == Dead <==> MeetsFatal(last, store, env(k), c))
    decreases stop - n
  {
    var step := OneAttempt(w, s, env(n), c);
    if step.ending == Again {
      k, last, store := EndsAsAnswered(step.status, step.store, env, n + 1, stop, c);
    } else {
      k, last, store := n, w, s;
    }
  }

  /** And an attempt after which the call goes on has neither gone through nor met an error for good. */
  lemma GoesOnIff(w: Status, s: Store, a: Attempt, c: Config)
    ensures OneAttempt(w, s, a, c).ending == Again <==>
            && Answer(PlanOf(w.buffer, a.snap, map[], c.skipUnknown), a.verdict) != Ok
            && !MeetsFatal(w, s, a, c)
  {
  }

  // ---- Offsets ----

  /** A turn that goes on stores what it collects. */
  lemma TurnCollects(iso: Iso, s: Store, io: Io, limit: nat, skipUnknown: bool, was: Offsets)
    requires iso.work != [] && s.offsets == Merge(was, iso.commit)
    ensures var t := OneTurn(iso, s, io, limit, skipUnknown);
            t.Running? ==> t.store.offsets == Merge(was, t.iso.commit)
  {
    KeepAllShrinks(iso.work, io.owned);
    var alive := KeepAlive(iso, io);
    if alive.work[0] != [] {
      SettleCollects(alive.(work := alive.work[1..]), alive.work[0], s, io, limit, skipUnknown, was);
    }
  }

  lemma SettleCollects(iso: Iso, part: seq<Record>, s: Store, io: Io, limit: nat, skipUnknown: bool, was: Offsets)
    requires part != [] && s.offsets == Merge(was, iso.commit)
    ensures var t := Settle(iso, part, s, io, limit, skipUnknown);
            t.Running? ==> t.store.offsets == Merge(was, t.iso.commit)
  {
    var plan := PlanOf(part, iso.snap, iso.held, skipUnknown);
    var v := Answer(plan, io.verdict(part));
    MergeAssociates(was, iso.commit, plan.next);
    if v == Data { RefusedCollects(iso, part, After(s, plan, v), io, limit, was); }
  }

  lemma RefusedCollects(iso: Iso, part: seq<Record>, s: Store, io: Io, limit: nat, was: Offsets)
    requires part != [] && s.offsets == Merge(was, iso.commit)
    ensures var t := Refused(iso, part, s, io, limit); t.Running? ==> t.store.offsets == Merge(was, t.iso.commit)
  {
    MergeAssociates(was, iso.commit, QuarantinePlan(part[0]).next);
  }

  lemma {:induction false} RunCollects(iso: Iso, s: Store, env: nat -> Io, n: nat, limit: nat, skipUnknown: bool,
                                       was: Offsets)
    requires iso.fenced < 5 && s.offsets == Merge(was, iso.commit)
    ensures var e := Run(iso, s, env, n, limit, skipUnknown);
            e.fault == None ==> e.store.offsets == Merge(was, e.iso.commit)
    decreases Weight(iso.work), 5 - iso.fenced
  {
    if iso.work == [] {
    } else {
      var t := OneTurn(iso, s, env(n), limit, skipUnknown);
      TurnShrinks(iso, s, env(n), limit, skipUnknown);
      TurnCollects(iso, s, env(n), limit, skipUnknown, was);
      if t.Running? { RunCollects(t.iso, t.store, env, n + 1, limit, skipUnknown, was); }
    }
  }

  /** No commit of this attempt loses its reply, and an isolation it starts comes to its end. */
  ghost predicate Clean(w: Status, s: Store, a: Attempt, c: Config) {
    var plan := PlanOf(w.buffer, a.snap, map[], c.skipUnknown);
    var v := Answer(plan, a.verdict);
    && v != Transient(true)
    && (v == Data && !w.tripped ==>
          Run(Start(w.buffer, w.buffer, a.isolationSnap), After(s, plan, v), a.isolation, 0,
              QuarantineLimit(c, |w.buffer|), c.skipUnknown).fault == None)
  }

  ghost predicate CleanCall(w: Status, s: Store, env: nat -> Attempt, n: nat, stop: nat, c: Config)
    decreases stop - n
  {
    n < stop && w.buffer != [] ==>
      && Clean(w, s, env(n), c)
      && var step := OneAttempt(w, s, env(n), c);
         step.ending == Again ==> CleanCall(step.status, step.store, env, n + 1, stop, c)
  }

  lemma AttemptCollects(w: Status, s: Store, a: Attempt, c: Config, was: Offsets)
    requires Clean(w, s, a, c) && s.offsets == Merge(was, w.commit)
    ensures var step := OneAttempt(w, s, a, c); step.store.offsets == Merge(was, step.status.commit)
  {
    var plan := PlanOf(w.buffer, a.snap, map[], c.skipUnknown);
    var v := Answer(plan, a.verdict);
    var s' := After(s, plan, v);
    MergeAssociates(was, w.commit, plan.next);
    if v == Data && !w.tripped { IsolationCollects(w, s', a, c, was); }
  }

  lemma IsolationCollects(w: Status, s: Store, a: Attempt, c: Config, was: Offsets)
    requires s.offsets == Merge(was, w.commit)
    requires Run(Start(w.buffer, w.buffer, a.isolationSnap), s, a.isolation, 0, QuarantineLimit(c, |w.buffer|),
                 c.skipUnknown).fault == None
    ensures var step := IsolateAttempt(w, s, a, c); step.store.offsets == Merge(was, step.status.commit)
  {
    var start, limit := Start(w.buffer, w.buffer, a.isolationSnap), QuarantineLimit(c, |w.buffer|);
    assert Merge(s.offsets, map[]) == s.offsets;
    RunCollects(start, s, a.isolation, 0, limit, c.skipUnknown, s.offsets);
    var e := Run(start, s, a.isolation, 0, limit, c.skipUnknown);
    MergeAssociates(was, w.commit, e.iso.commit);
    IsolatedCollects(w, e, a, was);
  }

  lemma IsolatedCollects(w: Status, e: End, a: Attempt, was: Offsets)
    requires e.fault == None && e.store.offsets == Merge(was, Merge(w.commit, e.iso.commit))
    ensures var step := Isolated(w, e, a); step.store.offsets == Merge(was, step.status.commit)
  {
  }

  /** A call with no lost reply and no isolation cut short returns all it has stored: the stored offsets
      are those from before, raised to the returned ones. */
  lemma {:induction false} StoredIsReturned(w: Status, s: Store, env: nat -> Attempt, n: nat, stop: nat, c: Config,
                                            was: Offsets)
    requires CleanCall(w, s, env, n, stop, c) && s.offsets == Merge(was, w.commit)
    ensures var end := Retry(w, s, env, n, stop, c); end.store.offsets == Merge(was, end.status.commit)
    decreases stop - n
  {
    if n >= stop || w.buffer == [] {
    } else {
      AttemptCollects(w, s, env(n), c, was);
      var step := OneAttempt(w, s, env(n), c);
      if step.ending == Again { StoredIsReturned(step.status, step.store, env, n + 1, stop, c, was); }
    }
  }

  /** From the start of a call, which has returned nothing yet. */
  lemma CallReturnsWhatItStored(w: Status, s: Store, env: nat -> Attempt, stop: nat, c: Config)
    requires CleanCall(w, s, env, 0, stop, c) && w.commit == map[]
    ensures var end := Retry(w, s, env, 0, stop, c); end.store.offsets == Merge(s.offsets, end.status.commit)
  {
    assert Merge(s.offsets, map[]) == s.offsets;
    StoredIsReturned(w, s, env, 0, stop, c, s.offsets);
  }
}
