/** The whole sink: any number of workers over one Kafka log and one warehouse, in any interleaving of
    polls, writes, isolation turns, rebalances, crashes and ownership changes. Nothing keeps two workers
    from holding the same partition: a stale worker's late write is an ordinary step. Nor need the
    assignment an isolation turn sees be the one its worker's rebalances told it. */
module Delivery {
  import opened Options
  import opened Ownership
  import opened Routing
  import opened Batches
  import opened Isolation
  import opened IsolationProofs

  /** A position of the log: a record, or a transaction marker consumers never see. */
  datatype Entry = Marker | Payload(parsed: Parsed)

  type Log = map<Partition, seq<Entry>>

  /** An isolation's quarantine limit is fixed by the batch it starts with. */
  datatype Mode = Collecting(buffer: seq<Record>) | Isolating(iso: Iso, limit: nat)

  /** `pos` maps each partition the worker believes it owns to the next offset it will fetch. */
  datatype Worker = Worker(mode: Mode, pos: Offsets, tripped: bool)

  datatype State = State(log: Log, meta: Meta, workers: seq<Worker>, store: Store)

  function BufferOf(w: Worker): seq<Record> {
    match w.mode
    case Collecting(buffer) => buffer
    case Isolating(iso, _) => iso.buffer
  }

  const IDLE := Worker(Collecting([]), map[], false)

  datatype Step =
    | Append(tp: Partition, entry: Entry)
    | ChangeOwnership(meta: Meta)
    | Poll(w: nat, tp: Partition)
    | Process(w: nat, snap: Snapshot, verdict: Verdict, isolationSnap: Snapshot)
    | IsolationTurn(w: nat, io: Io)
    | Revoke(w: nat, tps: set<Partition>)
    | Assign(w: nat, tps: set<Partition>)
    | Crash(w: nat)

  /** The fence and the skip checks one transaction must pass to commit. */
  ghost predicate Passes(m: Meta, p: Plan, snap: Snapshot) {
    && (forall r | r in p.writes && r.parsed.Change? ::
          var route := snap.RouteOf(r.parsed.sourceId, r.parsed.table);
          var key := (r.parsed.sourceId, r.parsed.table);
          Accepts(if key in m.rows then Some(m.rows[key]) else None, KAFKA, route.target, route.epoch))
    && (forall r | r in p.skips && r.parsed.Change? :: !Stale(m, CheckFor(snap, r.parsed.sourceId, r.parsed.table)))
  }

  /** A verdict the warehouse may give: it commits only what passes. */
  ghost predicate Legitimate(m: Meta, p: Plan, snap: Snapshot, v: Verdict) {
    v == Ok || v == Transient(true) ==> Passes(m, p, snap)
  }

  /** The part an isolation turn takes from the front of its work. */
  function PartOf(iso: Iso, io: Io): seq<Record>
    requires iso.work != []
  {
    KeepAllShrinks(iso.work, io.owned);
    KeepAlive(iso, io).work[0]
  }

  ghost predicate Enabled(s: State, step: Step, c: Config) {
    match step
    case Append(tp, entry) => true
    case ChangeOwnership(meta) => ValidMeta(meta)
    case Poll(w, tp) =>
      && w < |s.workers| && s.workers[w].mode.Collecting?
      && tp in s.workers[w].pos && tp in s.log && s.workers[w].pos[tp] < |s.log[tp]|
    case Process(w, snap, verdict, isolationSnap) =>
      && w < |s.workers| && s.workers[w].mode.Collecting?
      && snap.Filtered() && isolationSnap.Filtered()
      && var plan := PlanOf(BufferOf(s.workers[w]), snap, map[], c.skipUnknown);
         Legitimate(s.meta, plan, snap, Answer(plan, verdict))
    case IsolationTurn(w, io) =>
      && w < |s.workers| && s.workers[w].mode.Isolating?
      && io.revoked == {} && io.refreshed.Filtered()
      && var iso := s.workers[w].mode.iso;
         iso.work != [] && PartOf(iso, io) != [] ==>
           var plan := PlanOf(PartOf(iso, io), iso.snap, iso.held, c.skipUnknown);
           Legitimate(s.meta, plan, iso.snap, Answer(plan, io.verdict(PartOf(iso, io))))
    case Revoke(w, tps) => w < |s.workers|
    case Assign(w, tps) => w < |s.workers| && tps <= s.log.Keys
    case Crash(w) => w < |s.workers|
  }

  function RecordAt(log: Log, tp: Partition, o: nat): Record
    requires tp in log && o < |log[tp]|
  {
    Record(tp, o, if log[tp][o].Marker? then Nothing else log[tp][o].parsed)
  }

  function SetBuffer(w: Worker, buffer: seq<Record>): Worker {
    match w.mode
    case Collecting(_) => w.(mode := Collecting(buffer))
    case Isolating(iso, limit) => w.(mode := Isolating(iso.(buffer := buffer), limit))
  }

  function WithWorker(s: State, w: nat, worker: Worker, store: Store): State
    requires w < |s.workers|
  {
    s.(workers := s.workers[w := worker], store := store)
  }

  /** onPartitionsAssigned: start from the stored offset, or from the beginning without one; a stored
      offset beyond the log stops the worker. */
  function Assigned(s: State, w: Worker, tps: set<Partition>): Worker {
    if exists tp | tp in tps && tp in s.log && tp in s.store.offsets :: s.store.offsets[tp] > |s.log[tp]| then IDLE
    else
      w.(pos := map tp | tp in w.pos.Keys + tps ::
           if tp !in tps then w.pos[tp] else if tp in s.store.offsets then s.store.offsets[tp] else 0)
  }

  /** A worker that has fetched one more entry of a partition; markers reach no consumer. */
  function Polled(worker: Worker, log: Log, tp: Partition): Worker
    requires tp in worker.pos && tp in log && worker.pos[tp] < |log[tp]|
  {
    var o := worker.pos[tp];
    var moved := worker.(pos := worker.pos[tp := o + 1]);
    if log[tp][o].Marker? then moved else SetBuffer(moved, BufferOf(moved) + [RecordAt(log, tp, o)])
  }

  /** A worker after a pass over its whole buffer. */
  function AfterProcess(worker: Worker, plan: Plan, v: Verdict, isolationSnap: Snapshot, c: Config): Worker {
    var buffer := BufferOf(worker);
    if v == Ok then SetBuffer(worker, Minus(buffer, Processed(buffer, plan.held))).(tripped := false)
    else if v == Data && !worker.tripped then
      worker.(mode := Isolating(Start(buffer, buffer, isolationSnap), QuarantineLimit(c, |buffer|)))
    else if v == Fatal then IDLE
    else worker
  }

  /** A worker after one turn of an isolation. */
  function AfterTurn(worker: Worker, t: Turn): Worker
    requires worker.mode.Isolating?
  {
    match t
    case Running(iso, _) => worker.(mode := Isolating(iso, worker.mode.limit))
    case Stopped(iso, _, fault) =>
      if fault == Failed(Fatal) then IDLE
      else worker.(mode := Collecting(iso.buffer), tripped := worker.tripped || fault == LimitReached)
  }

  function Next(s: State, step: Step, c: Config): State {
    match step
    case Append(tp, entry) =>
      var tape := if tp in s.log then s.log[tp] else [];
      var s' := s.(log := s.log[tp := tape + [entry]]);
      // A marker's position is empty from the start.
      if entry.Marker? then s'.(store := s.store.(ignored := s.store.ignored + [Record(tp, |tape|, Nothing)])) else s'
    case ChangeOwnership(meta) => s.(meta := meta)
    case Poll(w, tp) =>
      if w < |s.workers| && tp in s.workers[w].pos && tp in s.log && s.workers[w].pos[tp] < |s.log[tp]| then
        WithWorker(s, w, Polled(s.workers[w], s.log, tp), s.store)
      else s
    case Process(w, snap, verdict, isolationSnap) =>
      if w < |s.workers| then
        var worker := s.workers[w];
        var buffer := BufferOf(worker);
        var plan := PlanOf(buffer, snap, map[], c.skipUnknown);
        var v := Answer(plan, verdict);
        WithWorker(s, w, AfterProcess(worker, plan, v, isolationSnap, c), After(s.store, plan, v))
      else s
    case IsolationTurn(w, io) =>
      if w < |s.workers| && s.workers[w].mode.Isolating? then
        var worker := s.workers[w];
        var iso := worker.mode.iso;
        if iso.work == [] then WithWorker(s, w, worker.(mode := Collecting(iso.buffer)), s.store)
        else
          var t := OneTurn(iso, s.store, io, worker.mode.limit, c.skipUnknown);
          WithWorker(s, w, AfterTurn(worker, t), t.store)
      else s
    case Revoke(w, tps) =>
      if w < |s.workers| then
        var worker := s.workers[w];
        WithWorker(s, w, SetBuffer(worker, Without(BufferOf(worker), tps)).(pos := worker.pos - tps), s.store)
      else s
    case Assign(w, tps) =>
      if w < |s.workers| then WithWorker(s, w, Assigned(s, s.workers[w], tps), s.store) else s
    case Crash(w) =>
      if w < |s.workers| then WithWorker(s, w, IDLE, s.store) else s
  }

  /** `n` idle workers, an empty warehouse and any log of records. */
  ghost predicate Init(s: State) {
    && ValidMeta(s.meta)
    && s.store == Store([], [], [], [], map[])
    && (forall i | 0 <= i < |s.workers| :: s.workers[i] == IDLE)
    && (forall tp, o | tp in s.log && 0 <= o < |s.log[tp]| :: s.log[tp][o].Payload?)
  }

  /** States that follow one another by steps. */
  ghost predicate Trace(states: seq<State>, steps: seq<Step>, c: Config) {
    && |states| == |steps| + 1
    && forall i | 0 <= i < |steps| :: Enabled(states[i], steps[i], c) && states[i + 1] == Next(states[i], steps[i], c)
  }

  ghost predicate Execution(states: seq<State>, steps: seq<Step>, c: Config) {
    Trace(states, steps, c) && Init(states[0])
  }

  // ---- The invariant ----

  ghost predicate InLog(log: Log, r: Record) {
    r.tp in log && r.offset < |log[r.tp]| && r == RecordAt(log, r.tp, r.offset)
  }

  ghost predicate AllInLog(log: Log, rs: seq<Record>) { forall r | r in rs :: InLog(log, r) }

  /** Offsets within the log. */
  ghost predicate Fits(log: Log, m: Offsets) { forall tp | tp in m :: tp in log && m[tp] <= |log[tp]| }

  /** Everything below a worker's fetch positions is settled or in its buffer, and everything before a
      record it buffers or isolates is settled or comes earlier in line. */
  ghost predicate WorkerOk(w: Worker, log: Log, done: set<Id>) {
    && AllInLog(log, BufferOf(w))
    && Safe(BufferOf(w), done)
    && Fits(log, w.pos)
    && Covers(done + Ids(BufferOf(w)), w.pos)
    && (w.mode.Isolating? ==>
          && IsoSafe(w.mode.iso, done)
          && AllInLog(log, Flat(w.mode.iso.work))
          && w.mode.iso.snap.Filtered())
  }

  /** Everything stored comes from the log. */
  ghost predicate Genuine(s: Store, log: Log) {
    && Fits(log, s.offsets)
    && AllInLog(log, s.applied) && AllInLog(log, s.letters) && AllInLog(log, s.skipped) && AllInLog(log, s.ignored)
    && forall r | r in s.ignored :: r.parsed == Nothing
  }

  ghost predicate Inv(s: State) {
    && ValidMeta(s.meta)
    && StoreSafe(s.store) && Genuine(s.store, s.log)
    && forall i | 0 <= i < |s.workers| :: WorkerOk(s.workers[i], s.log, Settled(s.store))
  }
}
