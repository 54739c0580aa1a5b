/** No loss over whole runs of the sink. */
module DeliveryProofs {
  import opened Routing
  import opened Batches
  import opened Isolation
  import opened IsolationProofs
  import opened Delivery

  // ---- Nothing is invented: every list is drawn from the log ----

  lemma {:induction false} MinusDraws(rs: seq<Record>, gone: set<Record>)
    ensures forall r | r in Minus(rs, gone) :: r in rs
    decreases |rs|
  {
    if rs == [] {
    } else {
      MinusDraws(rs[1..], gone);
    }
  }

  lemma {:induction false} WithoutDraws(rs: seq<Record>, tps: set<Partition>)
    ensures forall r | r in Without(rs, tps) :: r in rs
    ensures forall id | id in Ids(rs) && id.0 !in tps :: id in Ids(Without(rs, tps))
    decreases |rs|
  {
    if rs == [] {
    } else {
      WithoutDraws(rs[1..], tps);
      assert rs == [rs[0]] + rs[1..];
      IdsCons(rs[0], rs[1..]);
      if rs[0].tp !in tps { IdsCons(rs[0], Without(rs[1..], tps)); }
    }
  }

  lemma {:induction false} KeepDraws(rs: seq<Record>, owned: set<Partition>)
    ensures forall r | r in Keep(rs, owned) :: r in rs
    decreases |rs|
  {
    if rs == [] {
    } else {
      KeepDraws(rs[1..], owned);
    }
  }

  /** What a plan lists is in the log, and its offsets are within it. */
  ghost predicate PlanInLog(p: Plan, log: Log) {
    && AllInLog(log, p.writes) && AllInLog(log, p.letters) && AllInLog(log, p.skips) && AllInLog(log, p.ignored)
    && Fits(log, p.next)
    && forall r | r in p.ignored :: r.parsed == Nothing
  }

  lemma OneInLog(p: Plan, r: Record, snap: Snapshot, skipUnknown: bool, log: Log)
    requires PlanInLog(p, log) && InLog(log, r)
    ensures PlanInLog(PlanOne(p, r, snap, skipUnknown), log)
  {
  }

  lemma {:induction false} PlanDraws(p: Plan, batch: seq<Record>, snap: Snapshot, skipUnknown: bool, log: Log)
    requires PlanInLog(p, log) && AllInLog(log, batch)
    ensures PlanInLog(PlanFrom(p, batch, snap, skipUnknown), log)
    decreases |batch|
  {
    if batch == [] {
    } else {
      OneInLog(p, batch[0], snap, skipUnknown, log);
      assert forall r | r in batch[1..] :: r in batch;
      PlanDraws(PlanOne(p, batch[0], snap, skipUnknown), batch[1..], snap, skipUnknown, log);
    }
  }

  lemma AfterGenuine(s: Store, p: Plan, v: Verdict, log: Log)
    requires Genuine(s, log) && PlanInLog(p, log)
    ensures Genuine(After(s, p, v), log)
  {
    if v.Unpublished? { ChosenAreThere(p.letters, v.sent); }
  }

  lemma SettleGenuine(iso: Iso, part: seq<Record>, s: Store, io: Io, limit: nat, skipUnknown: bool, log: Log)
    requires part != [] && Genuine(s, log)
    requires AllInLog(log, part) && AllInLog(log, Flat(iso.work)) && AllInLog(log, iso.buffer)
    requires iso.snap.Filtered() && io.refreshed.Filtered()
    ensures
      var t := Settle(iso, part, s, io, limit, skipUnknown);
      && Genuine(t.store, log) && AllInLog(log, t.iso.buffer)
      && (t.Running? ==> AllInLog(log, Flat(t.iso.work)) && t.iso.snap.Filtered())
  {
    var q := PlanOf(part, iso.snap, iso.held, skipUnknown);
    var v := Answer(q, io.verdict(part));
    var s' := After(s, q, v);
    PlanDraws(Empty(iso.held), part, iso.snap, skipUnknown, log);
    AfterGenuine(s, q, v, log);
    MinusDraws(iso.buffer, Processed(part, q.held));
    MinusDraws(iso.buffer, {part[0]});
    assert part[0] in part;
    AfterGenuine(s', QuarantinePlan(part[0]), io.quarantine(part[0]), log);
    if v == Fenced {
      FlatCons(part, iso.work);
    } else if v == Data && |part| > 1 {
      FlatHalves(part, |part| / 2, iso.work);
    }
  }

  lemma TurnGenuine(iso: Iso, s: Store, io: Io, limit: nat, skipUnknown: bool, log: Log)
    requires iso.work != [] && Genuine(s, log)
    requires AllInLog(log, Flat(iso.work)) && AllInLog(log, iso.buffer)
    requires iso.snap.Filtered() && io.refreshed.Filtered()
    ensures
      var t := OneTurn(iso, s, io, limit, skipUnknown);
      && Genuine(t.store, log) && AllInLog(log, t.iso.buffer)
      && (t.Running? ==> AllInLog(log, Flat(t.iso.work)) && t.iso.snap.Filtered())
  {
    FlatKeep(iso.work, io.owned);
    KeepDraws(Flat(iso.work), io.owned);
    KeepAllShrinks(iso.work, io.owned);
    WithoutDraws(iso.buffer, io.revoked);
    var alive := KeepAlive(iso, io);
    var part := alive.work[0];
    var rest := alive.(work := alive.work[1..]);
    assert Flat(alive.work) == part + Flat(rest.work);
    assert forall r | r in part :: r in Flat(alive.work);
    assert forall r | r in Flat(rest.work) :: r in Flat(alive.work);
    if part != [] {
      SettleGenuine(rest, part, s, io, limit, skipUnknown, log);
    }
  }

  // ---- Workers are not disturbed by others ----

  ghost predicate Grows(log: Log, log': Log) {
    forall tp | tp in log :: tp in log' && log[tp] <= log'[tp]
  }

  /** A worker's guarantees survive anything that only settles more or lengthens the log. */
  lemma WorkerUndisturbed(w: Worker, log: Log, done: set<Id>, log': Log, done': set<Id>)
    requires WorkerOk(w, log, done) && Grows(log, log') && done <= done'
    ensures WorkerOk(w, log', done')
  {
    SafeMore(BufferOf(w), done, done');
    if w.mode.Isolating? {
      SafeMore(Without(Flat(w.mode.iso.work), w.mode.iso.held.Keys), done, done');
    }
  }

  lemma IdleOk(log: Log, done: set<Id>)
    ensures WorkerOk(IDLE, log, done)
  {
  }

  /** A step that changes one worker and the store. */
  lemma InvWithWorker(s: State, w: nat, worker: Worker, store: Store)
    requires Inv(s) && w < |s.workers|
    requires StoreSafe(store) && Genuine(store, s.log) && Settled(s.store) <= Settled(store)
    requires WorkerOk(worker, s.log, Settled(store))
    ensures Inv(WithWorker(s, w, worker, store))
  {
    var s' := WithWorker(s, w, worker, store);
    forall i | 0 <= i < |s'.workers| ensures WorkerOk(s'.workers[i], s'.log, Settled(s'.store)) {
      if i != w { WorkerUndisturbed(s.workers[i], s.log, Settled(s.store), s.log, Settled(store)); }
    }
  }

  lemma AppendKeeps(s: State, tp: Partition, entry: Entry, c: Config)
    requires Inv(s)
    ensures Inv(Next(s, Append(tp, entry), c))
    ensures Settled(s.store) <= Settled(Next(s, Append(tp, entry), c).store)
  {
    var s' := Next(s, Append(tp, entry), c);
    var tape := if tp in s.log then s.log[tp] else [];
    assert Grows(s.log, s'.log);
    assert forall r | InLog(s.log, r) :: InLog(s'.log, r);
    IdsAppend(s.store.ignored, [Record(tp, |tape|, Nothing)]);
    assert InLog(s'.log, Record(tp, |tape|, Nothing)) || entry.Payload?;
    forall i | 0 <= i < |s'.workers| ensures WorkerOk(s'.workers[i], s'.log, Settled(s'.store)) {
      WorkerUndisturbed(s.workers[i], s.log, Settled(s.store), s'.log, Settled(s'.store));
    }
  }

  /** Markers in the log are settled from the start. */
  ghost predicate MarkersSettled(s: State) {
    forall tp, o | tp in s.log && 0 <= o < |s.log[tp]| && s.log[tp][o].Marker? :: (tp, o) in Settled(s.store)
  }

  lemma PollKeeps(s: State, w: nat, tp: Partition, c: Config)
    requires Inv(s) && MarkersSettled(s) && Enabled(s, Poll(w, tp), c)
    ensures Inv(Next(s, Poll(w, tp), c))
  {
    var worker := s.workers[w];
    PolledOk(worker, s.log, tp, Settled(s.store));
    InvWithWorker(s, w, Polled(worker, s.log, tp), s.store);
  }

  lemma PolledOk(worker: Worker, log: Log, tp: Partition, done: set<Id>)
    requires worker.mode.Collecting? && WorkerOk(worker, log, done)
    requires tp in worker.pos && tp in log && worker.pos[tp] < |log[tp]|
    requires log[tp][worker.pos[tp]].Marker? ==> (tp, worker.pos[tp]) in done
    ensures WorkerOk(Polled(worker, log, tp), log, done)
  {
    var o := worker.pos[tp];
    var buffer := BufferOf(worker);
    var r := RecordAt(log, tp, o);
    var worker' := Polled(worker, log, tp);
    assert Below(tp, o + 1) <= Below(tp, o) + {(tp, o)};
    IdsAppend(buffer, [r]);
    assert Ids([r]) == {IdOf(r)} by { assert [r][0] == r; }
    assert Covers(done + Ids(BufferOf(worker')), worker'.pos);
    if log[tp][o].Payload? {
      SafeSplit(buffer, [r], done);
      assert Safe([r], done + Ids(buffer));
    }
  }

  lemma ProcessKeeps(s: State, w: nat, snap: Snapshot, verdict: Verdict, isolationSnap: Snapshot, c: Config)
    requires Inv(s) && Enabled(s, Process(w, snap, verdict, isolationSnap), c)
    ensures Inv(Next(s, Process(w, snap, verdict, isolationSnap), c))
    ensures Settled(s.store) <= Settled(Next(s, Process(w, snap, verdict, isolationSnap), c).store)
  {
    var worker := s.workers[w];
    var buffer := BufferOf(worker);
    var plan := PlanOf(buffer, snap, map[], c.skipUnknown);
    var v := Answer(plan, verdict);
    var store := After(s.store, plan, v);
    PassSafe(buffer, snap, c.skipUnknown, s.store, v, plan);
    PlanDraws(Empty(map[]), buffer, snap, c.skipUnknown, s.log);
    AfterGenuine(s.store, plan, v, s.log);
    WorkerUndisturbed(worker, s.log, Settled(s.store), s.log, Settled(store));
    ProcessedWorkerOk(worker, s.log, Settled(store), plan, v, isolationSnap, c);
    InvWithWorker(s, w, AfterProcess(worker, plan, v, isolationSnap, c), store);
  }

  lemma ProcessedWorkerOk(worker: Worker, log: Log, done: set<Id>, plan: Plan, v: Verdict, isolationSnap: Snapshot,
                          c: Config)
    requires worker.mode.Collecting? && WorkerOk(worker, log, done) && isolationSnap.Filtered()
    requires var buffer := BufferOf(worker);
             v == Ok ==>
               && Safe(Minus(buffer, Processed(buffer, plan.held)), done)
               && Ids(buffer) <= done + Ids(Minus(buffer, Processed(buffer, plan.held)))
    ensures WorkerOk(AfterProcess(worker, plan, v, isolationSnap, c), log, done)
  {
    var buffer := BufferOf(worker);
    MinusDraws(buffer, Processed(buffer, plan.held));
    StartSafe(buffer, buffer, isolationSnap, done);
    OneFlat(buffer);
    IdleOk(log, done);
  }

  lemma TurnKeeps(s: State, w: nat, io: Io, c: Config)
    requires Inv(s) && Enabled(s, IsolationTurn(w, io), c)
    ensures Inv(Next(s, IsolationTurn(w, io), c))
    ensures Settled(s.store) <= Settled(Next(s, IsolationTurn(w, io), c).store)
  {
    var worker := s.workers[w];
    var iso := worker.mode.iso;
    if iso.work == [] {
      InvWithWorker(s, w, worker.(mode := Collecting(iso.buffer)), s.store);
    } else {
      var t := OneTurn(iso, s.store, io, worker.mode.limit, c.skipUnknown);
      TurnSafe(iso, s.store, io, worker.mode.limit, c.skipUnknown, t);
      TurnGenuine(iso, s.store, io, worker.mode.limit, c.skipUnknown, s.log);
      TurnedWorkerOk(worker, s.log, Settled(s.store), t);
      InvWithWorker(s, w, AfterTurn(worker, t), t.store);
    }
  }

  lemma TurnedWorkerOk(worker: Worker, log: Log, before: set<Id>, t: Turn)
    requires worker.mode.Isolating? && WorkerOk(worker, log, before) && before <= Settled(t.store)
    requires Safe(t.iso.buffer, Settled(t.store)) && AllInLog(log, t.iso.buffer)
    requires Ids(Without(worker.mode.iso.buffer, {})) <= Settled(t.store) + Ids(t.iso.buffer)
    requires t.Running? ==> IsoSafe(t.iso, Settled(t.store)) && AllInLog(log, Flat(t.iso.work)) && t.iso.snap.Filtered()
    ensures WorkerOk(AfterTurn(worker, t), log, Settled(t.store))
  {
    var buffer := worker.mode.iso.buffer;
    WithoutDraws(buffer, {});
    assert Ids(buffer) <= Ids(Without(buffer, {}));
    IdleOk(log, Settled(t.store));
  }

  lemma RevokeKeeps(s: State, w: nat, tps: set<Partition>, c: Config)
    requires Inv(s) && w < |s.workers|
    ensures Inv(Next(s, Revoke(w, tps), c))
  {
    var worker := s.workers[w];
    var done := Settled(s.store);
    SafeWithout(BufferOf(worker), done, tps, done);
    WithoutDraws(BufferOf(worker), tps);
    var worker' := Next(s, Revoke(w, tps), c).workers[w];
    forall tp | tp in worker'.pos ensures Below(tp, worker'.pos[tp]) <= done + Ids(BufferOf(worker')) {
      assert Below(tp, worker.pos[tp]) <= done + Ids(BufferOf(worker));
    }
    InvWithWorker(s, w, worker', s.store);
  }

  /** The stored offset of an assigned partition is never beyond the log: the fatal branch is dead. */
  lemma AssignKeeps(s: State, w: nat, tps: set<Partition>, c: Config)
    requires Inv(s) && Enabled(s, Assign(w, tps), c)
    ensures Inv(Next(s, Assign(w, tps), c))
    ensures Next(s, Assign(w, tps), c).workers[w].pos.Keys == s.workers[w].pos.Keys + tps
  {
    InvWithWorker(s, w, Next(s, Assign(w, tps), c).workers[w], s.store);
  }

  lemma StepKeeps(s: State, step: Step, c: Config)
    requires Inv(s) && MarkersSettled(s) && Enabled(s, step, c)
    ensures Inv(Next(s, step, c)) && MarkersSettled(Next(s, step, c))
    ensures Settled(s.store) <= Settled(Next(s, step, c).store)
  {
    match step
    case Append(tp, entry) =>
      AppendKeeps(s, tp, entry, c);
      AppendMarks(s, tp, entry, c);
    case ChangeOwnership(meta) =>
    case Poll(w, tp) => PollKeeps(s, w, tp, c);
    case Process(w, snap, verdict, isolationSnap) => ProcessKeeps(s, w, snap, verdict, isolationSnap, c);
    case IsolationTurn(w, io) => TurnKeeps(s, w, io, c);
    case Revoke(w, tps) => RevokeKeeps(s, w, tps, c);
    case Assign(w, tps) => AssignKeeps(s, w, tps, c);
    case Crash(w) =>
      IdleOk(s.log, Settled(s.store));
      InvWithWorker(s, w, IDLE, s.store);
  }

  lemma AppendMarks(s: State, tp: Partition, entry: Entry, c: Config)
    requires MarkersSettled(s)
    ensures MarkersSettled(Next(s, Append(tp, entry), c))
  {
    var s' := Next(s, Append(tp, entry), c);
    var tape := if tp in s.log then s.log[tp] else [];
    var mark := Record(tp, |tape|, Nothing);
    IdsAppend(s.store.ignored, [mark]);
    assert IdOf(mark) in Ids([mark]) by { assert [mark][0] == mark; }
    forall t, o | t in s'.log && 0 <= o < |s'.log[t]| && s'.log[t][o].Marker? ensures (t, o) in Settled(s'.store) {
      assert (t, o) == IdOf(mark) || (t in s.log && o < |s.log[t]| && s.log[t][o] == s'.log[t][o]);
    }
  }

  lemma {:induction false} InvHolds(states: seq<State>, steps: seq<Step>, c: Config, i: nat)
    requires Execution(states, steps, c) && i < |states|
    ensures Inv(states[i]) && MarkersSettled(states[i])
  {
    if i == 0 {
      var s := states[0];
      forall j | 0 <= j < |s.workers| ensures WorkerOk(s.workers[j], s.log, Settled(s.store)) {
        IdleOk(s.log, Settled(s.store));
      }
    } else {
      InvHolds(states, steps, c, i - 1);
      StepKeeps(states[i - 1], steps[i - 1], c);
    }
  }

  /** A position of the log is accounted for: applied to the warehouse, dead-lettered, skipped after a
      passed check, or empty. */
  ghost predicate Accounted(s: State, tp: Partition, o: nat) {
    exists r: Record ::
      && r.tp == tp && r.offset == o && InLog(s.log, r)
      && (r in s.store.applied || r in s.store.letters || r in s.store.skipped
          || (r in s.store.ignored && r.parsed == Nothing))
  }

  lemma SettledIsAccounted(s: State, tp: Partition, o: nat)
    requires Genuine(s.store, s.log) && (tp, o) in Settled(s.store)
    ensures Accounted(s, tp, o)
  {
    if (tp, o) in Ids(s.store.applied) {
      var i :| 0 <= i < |s.store.applied| && IdOf(s.store.applied[i]) == (tp, o);
      assert s.store.applied[i] in s.store.applied;
    } else if (tp, o) in Ids(s.store.letters) {
      var i :| 0 <= i < |s.store.letters| && IdOf(s.store.letters[i]) == (tp, o);
      assert s.store.letters[i] in s.store.letters;
    } else if (tp, o) in Ids(s.store.skipped) {
      var i :| 0 <= i < |s.store.skipped| && IdOf(s.store.skipped[i]) == (tp, o);
      assert s.store.skipped[i] in s.store.skipped;
    } else {
      var i :| 0 <= i < |s.store.ignored| && IdOf(s.store.ignored[i]) == (tp, o);
      assert s.store.ignored[i] in s.store.ignored;
    }
  }

  lemma {:induction false} FirstIsSafe(rs: seq<Record>, k: nat, done: set<Id>)
    requires Safe(rs, done) && k < |rs| && forall j | 0 <= j < k :: rs[j].tp != rs[k].tp
    ensures Below(rs[k].tp, rs[k].offset) <= done
    decreases k
  {
    if k == 0 {
    } else {
      var rest := rs[1..];
      FirstIsSafe(rest, k - 1, done + {IdOf(rs[0])});
      assert rest[k - 1] == rs[k];
    }
  }

  /** No loss: in every execution, every position below a partition's stored offset is accounted for,
      and so is every position before a worker's first buffered record of a partition. */
  lemma NoLoss(states: seq<State>, steps: seq<Step>, c: Config, i: nat)
    requires Execution(states, steps, c) && i < |states|
    ensures
      var s := states[i];
      && (forall tp, o | tp in s.store.offsets && 0 <= o < s.store.offsets[tp] :: Accounted(s, tp, o))
      && (forall w, k, o |
            && 0 <= w < |s.workers| && 0 <= k < |BufferOf(s.workers[w])|
            && (forall j | 0 <= j < k :: BufferOf(s.workers[w])[j].tp != BufferOf(s.workers[w])[k].tp)
            && 0 <= o < BufferOf(s.workers[w])[k].offset ::
              Accounted(s, BufferOf(s.workers[w])[k].tp, o))
  {
    var s := states[i];
    InvHolds(states, steps, c, i);
    forall tp, o | tp in s.store.offsets && 0 <= o < s.store.offsets[tp] ensures Accounted(s, tp, o) {
      assert (tp, o) in Below(tp, s.store.offsets[tp]);
      SettledIsAccounted(s, tp, o);
    }
    forall w, k, o |
      && 0 <= w < |s.workers| && 0 <= k < |BufferOf(s.workers[w])|
      && (forall j | 0 <= j < k :: BufferOf(s.workers[w])[j].tp != BufferOf(s.workers[w])[k].tp)
      && 0 <= o < BufferOf(s.workers[w])[k].offset
      ensures Accounted(s, BufferOf(s.workers[w])[k].tp, o)
    {
      var rs := BufferOf(s.workers[w]);
      FirstIsSafe(rs, k, Settled(s.store));
      assert (rs[k].tp, o) in Below(rs[k].tp, rs[k].offset);
      SettledIsAccounted(s, rs[k].tp, o);
    }
  }
}
