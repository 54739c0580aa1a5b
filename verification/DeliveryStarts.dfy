/** Where a worker takes up its partitions: at the stored offset, so that it neither passes over what is not
    stored yet nor reads again what is. */
module DeliveryStarts {
  import opened Routing
  import opened Batches
  import opened Isolation
  import opened IsolationProofs
  import opened IsolationExact
  import opened PassMeaning
  import opened Delivery
  import opened DeliveryProofs
  import opened Session
  import opened RetryOutcomes
  import opened RetryDelivery

  /** The offset a partition's next owner begins with. */
  function StartOf(s: Store, tp: Partition): nat { if tp in s.offsets then s.offsets[tp] else 0 }

  /** A rebalance that gives a worker partitions: it will fetch each of them from the stored offset on, goes
      on with its others where it was, and keeps what it has in hand. Nothing else changes. */
  lemma AssignStarts(s: State, w: nat, tps: set<Partition>, c: Config)
    requires Inv(s) && Enabled(s, Assign(w, tps), c)
    ensures
      var s' := Next(s, Assign(w, tps), c);
      var pos, pos' := s.workers[w].pos, s'.workers[w].pos;
      && pos'.Keys == pos.Keys + tps
      && (forall tp | tp in tps :: pos'[tp] == StartOf(s.store, tp))
      && (forall tp | tp in pos && tp !in tps :: pos'[tp] == pos[tp])
      && s' == WithWorker(s, w, s.workers[w].(pos := pos'), s.store)
  {
  }

  /** A rebalance that takes partitions away: nothing of them stays buffered or is fetched any more, and all
      the rest does. */
  lemma RevokeDrops(s: State, w: nat, tps: set<Partition>, c: Config, r: Record)
    requires w < |s.workers|
    ensures
      var worker, worker' := s.workers[w], Next(s, Revoke(w, tps), c).workers[w];
      && (r in BufferOf(worker') <==> r in BufferOf(worker) && r.tp !in tps)
      && worker'.pos.Keys == worker.pos.Keys - tps
      && forall tp | tp in worker'.pos :: worker'.pos[tp] == worker.pos[tp]
  {
    WithoutHolds(BufferOf(s.workers[w]), tps, r);
  }

  /** A worker that crashes and starts again has nothing in hand and takes its partitions up from what is
      stored. */
  lemma RestartsFromStore(s: State, w: nat, tps: set<Partition>, c: Config)
    requires Inv(s) && w < |s.workers| && tps <= s.log.Keys
    ensures
      var crashed := Next(s, Crash(w), c);
      var s' := Next(crashed, Assign(w, tps), c);
      && Enabled(crashed, Assign(w, tps), c) && s'.store == s.store
      && InHand(s'.workers[w]) == [] && s'.workers[w].pos == map tp | tp in tps :: StartOf(s.store, tp)
  {
    StepKeepsCrash(s, w, c);
    AssignStarts(Next(s, Crash(w), c), w, tps, c);
  }

  lemma StepKeepsCrash(s: State, w: nat, c: Config)
    requires Inv(s) && w < |s.workers|
    ensures Inv(Next(s, Crash(w), c))
  {
    IdleOk(s.log, Settled(s.store));
    InvWithWorker(s, w, IDLE, s.store);
  }

  // ---- Nothing below the stored offset is fetched again ----

  /** Of this partition the worker neither has nor will fetch a record below an offset. */
  ghost predicate NoneBelow(worker: Worker, tp: Partition, start: nat) {
    && (forall r | r in InHand(worker) && r.tp == tp :: start <= r.offset)
    && (tp in worker.pos ==> start <= worker.pos[tp])
  }

  lemma SettleInHand(iso: Iso, part: seq<Record>, s: Store, io: Io, limit: nat, skipUnknown: bool)
    requires part != []
    ensures var t := Settle(iso, part, s, io, limit, skipUnknown);
            && (forall r | r in t.iso.buffer :: r in iso.buffer)
            && (t.Running? ==> forall r | r in Flat(t.iso.work) :: r in part || r in Flat(iso.work))
  {
    var q := PlanOf(part, iso.snap, iso.held, skipUnknown);
    var v := Answer(q, io.verdict(part));
    MinusDraws(iso.buffer, Processed(part, q.held));
    MinusDraws(iso.buffer, {part[0]});
    if v == Fenced {
      FlatCons(part, iso.work);
    } else if v == Data && |part| > 1 {
      FlatHalves(part, |part| / 2, iso.work);
    }
  }

  /** A turn of an isolation takes up no record it did not have. */
  lemma TurnInHand(worker: Worker, s: Store, io: Io, skipUnknown: bool)
    requires worker.mode.Isolating? && worker.mode.iso.work != []
    ensures var worker' := AfterTurn(worker, OneTurn(worker.mode.iso, s, io, worker.mode.limit, skipUnknown));
            forall r | r in InHand(worker') :: r in InHand(worker)
  {
    var iso := worker.mode.iso;
    KeepAllShrinks(iso.work, io.owned);
    FlatKeep(iso.work, io.owned);
    KeepDraws(Flat(iso.work), io.owned);
    WithoutDraws(iso.buffer, io.revoked);
    var alive := KeepAlive(iso, io);
    var part, rest := alive.work[0], alive.(work := alive.work[1..]);
    assert Flat(alive.work) == part + Flat(rest.work);
    assert forall r | r in part || r in Flat(rest.work) :: r in part + Flat(rest.work);
    if part != [] { SettleInHand(rest, part, s, io, worker.mode.limit, skipUnknown); }
  }

  lemma ProcessInHand(worker: Worker, plan: Plan, v: Verdict, isolationSnap: Snapshot, c: Config)
    requires worker.mode.Collecting?
    ensures forall r | r in InHand(AfterProcess(worker, plan, v, isolationSnap, c)) :: r in InHand(worker)
  {
    var buffer := BufferOf(worker);
    MinusDraws(buffer, Processed(buffer, plan.held));
    OneFlat(buffer);
  }

  lemma PollNoneBelow(worker: Worker, log: Log, t: Partition, tp: Partition, start: nat)
    requires worker.mode.Collecting? && NoneBelow(worker, tp, start)
    requires t in worker.pos && t in log && worker.pos[t] < |log[t]|
    ensures NoneBelow(Polled(worker, log, t), tp, start)
  {
  }

  lemma RevokeNoneBelow(worker: Worker, tps: set<Partition>, tp: Partition, start: nat)
    requires NoneBelow(worker, tp, start)
    ensures NoneBelow(SetBuffer(worker, Without(BufferOf(worker), tps)).(pos := worker.pos - tps), tp, start)
  {
    WithoutDraws(BufferOf(worker), tps);
  }

  /** A step that does not assign the partition to the worker anew. */
  predicate Spares(step: Step, w: nat, tp: Partition) { step.Assign? && step.w == w ==> tp !in step.tps }

  lemma StepNoneBelow(s: State, step: Step, c: Config, w: nat, tp: Partition, start: nat)
    requires Enabled(s, step, c) && w < |s.workers| && Spares(step, w, tp) && NoneBelow(s.workers[w], tp, start)
    ensures var s' := Next(s, step, c); w < |s'.workers| && NoneBelow(s'.workers[w], tp, start)
  {
    var worker := s.workers[w];
    if !Of(step, w) {
      OthersLeave(s, w, step, c);
    } else {
      match step
      case Poll(_, t) => PollNoneBelow(worker, s.log, t, tp, start);
      case Process(_, snap, verdict, isolationSnap) =>
        var plan := PlanOf(BufferOf(worker), snap, map[], c.skipUnknown);
        ProcessInHand(worker, plan, Answer(plan, verdict), isolationSnap, c);
      case IsolationTurn(_, io) =>
        if worker.mode.iso.work != [] { TurnInHand(worker, s.store, io, c.skipUnknown); }
      case Revoke(_, tps) => RevokeNoneBelow(worker, tps, tp, start);
      case Assign(_, tps) =>
      case Crash(_) =>
    }
  }

  lemma {:induction false} RunNoneBelow(states: seq<State>, steps: seq<Step>, c: Config, w: nat, a: nat, b: nat,
                                        tp: Partition, start: nat)
    requires Trace(states, steps, c) && a <= b < |states| && w < |states[a].workers|
    requires NoneBelow(states[a].workers[w], tp, start) && forall k | a <= k < b :: Spares(steps[k], w, tp)
    ensures w < |states[b].workers| && NoneBelow(states[b].workers[w], tp, start)
    decreases b - a
  {
    if a == b {
    } else {
      RunNoneBelow(states, steps, c, w, a, b - 1, tp, start);
      StepNoneBelow(states[b - 1], steps[b - 1], c, w, tp, start);
    }
  }

  /** In every execution, from the assignment of a partition to the worker's next one: the worker has in hand
      no record of it below the offset that was stored when it was assigned. */
  lemma StartsAtStored(states: seq<State>, steps: seq<Step>, c: Config, a: nat, b: nat, tp: Partition)
    requires Execution(states, steps, c) && a < b < |states|
    requires steps[a].Assign? && tp in steps[a].tps && Listens(states[a], steps[a], steps[a].w)
    requires forall k | a < k < b :: Spares(steps[k], steps[a].w, tp)
    ensures steps[a].w < |states[b].workers|
    ensures NoneBelow(states[b].workers[steps[a].w], tp, StartOf(states[a].store, tp))
  {
    InvHolds(states, steps, c, a);
    AssignStarts(states[a], steps[a].w, steps[a].tps, c);
    RunNoneBelow(states, steps, c, steps[a].w, a + 1, b, tp, StartOf(states[a].store, tp));
  }

  // ---- Nothing above it is passed over ----

  /** The records of a partition from one offset to another. */
  function Payloads(log: Log, tp: Partition, lo: nat, hi: nat): seq<Record>
    requires tp in log && lo <= hi <= |log[tp]|
    decreases hi
  {
    if lo == hi then []
    else if log[tp][hi - 1].Marker? then Payloads(log, tp, lo, hi - 1)
    else Payloads(log, tp, lo, hi - 1) + [RecordAt(log, tp, hi - 1)]
  }

  lemma {:induction false} PayloadsAre(log: Log, tp: Partition, lo: nat, hi: nat)
    requires tp in log && lo <= hi <= |log[tp]|
    ensures forall r :: r in Payloads(log, tp, lo, hi) <==>
              exists o: nat | lo <= o < hi :: log[tp][o].Payload? && r == RecordAt(log, tp, o)
    decreases hi
  {
    if lo == hi {
    } else {
      PayloadsAre(log, tp, lo, hi - 1);
    }
  }

  /** A worker that has fetched a partition up to an offset. */
  ghost predicate HasFetched(s: State, w: nat, tp: Partition, lo: nat, hi: nat, rest: State) {
    && tp in s.log && lo <= hi <= |s.log[tp]| && w < |s.workers| == |rest.workers|
    && s == WithWorker(rest, w, Worker(Collecting(Payloads(s.log, tp, lo, hi)), map[tp := hi], false), rest.store)
  }

  lemma {:induction false} Fetches(s: State, w: nat, tp: Partition, lo: nat, hi: nat, c: Config) returns (s': State)
    requires HasFetched(s, w, tp, lo, lo, s) && lo <= hi <= |s.log[tp]|
    ensures Reaches(s, s', c) && HasFetched(s', w, tp, lo, hi, s)
    decreases hi
  {
    if hi == lo {
      ReachesItself(s, c);
      s' := s;
    } else {
      var before := Fetches(s, w, tp, lo, hi - 1, c);
      ReachesNext(s, before, Poll(w, tp), c);
      s' := Next(before, Poll(w, tp), c);
      assert map[tp := hi - 1][tp := hi] == map[tp := hi];
      assert s.workers[w := s'.workers[w]] == s'.workers;
    }
  }

  /** A worker that starts anew can always catch up. Given a partition, it fetches what lies above the stored
      offset, and one pass that goes through applies exactly the records of tables KAFKA writes, in order
      and on top of what was there, leaves nothing in the buffer, and stores an offset past the last. */
  lemma CatchesUp(s: State, w: nat, tp: Partition, snap: Snapshot, c: Config) returns (s': State)
    requires Inv(s) && w < |s.workers| && s.workers[w] == IDLE && tp in s.log && snap.Filtered()
    requires var rs := Payloads(s.log, tp, StartOf(s.store, tp), |s.log[tp]|);
             && (forall r | r in rs :: !OnHold(snap, r))
             && Legitimate(s.meta, PlanOf(rs, snap, map[], c.skipUnknown), snap, Ok)
    ensures Reaches(s, s', c) && w < |s'.workers| && BufferOf(s'.workers[w]) == []
    ensures var rs := Payloads(s.log, tp, StartOf(s.store, tp), |s.log[tp]|);
            && s'.store.applied == s.store.applied + Chosen(rs, set i: nat | i < |rs| && Ours(snap, rs[i]))
            && forall r | r in rs :: tp in s'.store.offsets && r.offset < s'.store.offsets[tp]
  {
    var start := StartOf(s.store, tp);
    var rs := Payloads(s.log, tp, start, |s.log[tp]|);
    AssignStarts(s, w, {tp}, c);
    var s1 := Next(s, Assign(w, {tp}), c);
    ReachesItself(s, c);
    ReachesNext(s, s, Assign(w, {tp}), c);
    assert s1.workers[w].pos == map[tp := start];
    var s2 := Fetches(s1, w, tp, start, |s.log[tp]|, c);
    ReachesOn(s, s1, s2, c);
    var plan := PlanOf(rs, snap, map[], c.skipUnknown);
    var pass := Step.Process(w, snap, Ok, snap);
    assert Answer(plan, Ok) == Ok;
    ReachesNext(s, s2, pass, c);
    s' := Next(s2, pass, c);
    PassTakesAll(rs, tp, snap, c.skipUnknown);
    PayloadsAre(s.log, tp, start, |s.log[tp]|);
    MinusAll(rs, Processed(rs, plan.held));
  }

  /** A pass over one partition with nothing on hold takes every record of it. */
  lemma PassTakesAll(rs: seq<Record>, tp: Partition, snap: Snapshot, skipUnknown: bool)
    requires forall r | r in rs :: !OnHold(snap, r)
    ensures var plan := PlanOf(rs, snap, map[], skipUnknown);
            && plan.held == map[] && (forall r | r in rs :: r.tp in plan.next && r.offset < plan.next[r.tp])
            && plan.writes == Chosen(rs, set i: nat | i < |rs| && Ours(snap, rs[i]))
  {
    PassMeans(rs, snap, map[], skipUnknown);
    AllReached(rs, snap);
    assert At(rs, snap, map[], r => Ours(snap, r)) == set i: nat | i < |rs| && Ours(snap, rs[i]);
    NothingHeld(PlanOf(rs, snap, map[], skipUnknown).held, rs, snap);
  }

  lemma NothingHeld(held: Offsets, rs: seq<Record>, snap: Snapshot)
    requires HoldsAre(held, rs, snap, map[]) && forall r | r in rs :: !OnHold(snap, r)
    ensures held == map[]
  {
    assert forall i: nat | i < |rs| :: rs[i] in rs;
    assert held.Keys == {};
  }

  lemma AllReached(rs: seq<Record>, snap: Snapshot)
    requires forall r | r in rs :: !OnHold(snap, r)
    ensures forall i: nat | i < |rs| :: Reached(rs, i, snap, map[])
  {
    assert forall i: nat | i < |rs| :: rs[i] in rs;
  }
}
