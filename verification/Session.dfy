/** One worker between two rebalances, within an execution of the whole sink: over any number of polls,
    passes and isolations it applies each of its partitions' records at most once, in offset order. */
module Session {
  import opened Routing
  import opened Batches
  import opened Isolation
  import opened IsolationProofs
  import opened IsolationOrder
  import opened IsolationExact
  import opened Delivery

  // ---- What a turn depends on ----

  /** What a part adds to the applied records. */
  function Adds(iso: Iso, part: seq<Record>, io: Io, skipUnknown: bool): seq<Record> {
    var plan := PlanOf(part, iso.snap, iso.held, skipUnknown);
    var v := Answer(plan, io.verdict(part));
    if v == Ok || v == Transient(true) then plan.writes else []
  }

  lemma SettleAdds(iso: Iso, part: seq<Record>, s: Store, io: Io, limit: nat, skipUnknown: bool)
    requires part != []
    ensures Settle(iso, part, s, io, limit, skipUnknown).store.applied == s.applied + Adds(iso, part, io, skipUnknown)
  {
  }

  /** Two turns move on in the same way, collected offsets and store aside. */
  ghost predicate Alike(t: Turn, u: Turn) {
    && t.Running? == u.Running?
    && t.iso.(commit := map[]) == u.iso.(commit := map[])
    && (t.Stopped? ==> t.fault == u.fault)
  }

  lemma SettleMoves(iso: Iso, part: seq<Record>, s: Store, io: Io, limit: nat, skipUnknown: bool, front: Offsets,
                    s': Store)
    requires part != []
    ensures
      var t := Settle(iso, part, s, io, limit, skipUnknown);
      var u := Settle(iso.(commit := front), part, s', io, limit, skipUnknown);
      Alike(t, u)
  {
    var plan := PlanOf(part, iso.snap, iso.held, skipUnknown);
    var v := Answer(plan, io.verdict(part));
    if v == Data {
      RefusedMoves(iso, part, After(s, plan, v), io, limit, front, After(s', plan, v));
    }
  }

  lemma RefusedMoves(iso: Iso, part: seq<Record>, s: Store, io: Io, limit: nat, front: Offsets, s': Store)
    requires part != []
    ensures Alike(Refused(iso, part, s, io, limit), Refused(iso.(commit := front), part, s', io, limit))
  {
  }

  /** A turn depends neither on the offsets an isolation has collected for its caller nor on what is
      stored: it moves on in the same way and applies the same records. */
  lemma TurnDependsOn(iso: Iso, s: Store, io: Io, limit: nat, skipUnknown: bool, front: Offsets, s': Store)
      returns (added: seq<Record>)
    requires iso.work != []
    ensures
      var t := OneTurn(iso, s, io, limit, skipUnknown);
      var u := OneTurn(iso.(commit := front), s', io, limit, skipUnknown);
      && Alike(t, u)
      && t.store.applied == s.applied + added && u.store.applied == s'.applied + added
  {
    KeepAllShrinks(iso.work, io.owned);
    var alive := KeepAlive(iso, io);
    assert KeepAlive(iso.(commit := front), io) == alive.(commit := front);
    if alive.work[0] == [] {
      added := [];
    } else {
      var part, rest := alive.work[0], alive.(work := alive.work[1..]);
      added := Adds(rest, part, io, skipUnknown);
      SettleMoves(rest, part, s, io, limit, skipUnknown, front, s');
      SettleAdds(rest, part, s, io, limit, skipUnknown);
      SettleAdds(rest.(commit := front), part, s', io, limit, skipUnknown);
    }
  }

  // ---- The invariant ----

  /** Every buffered record is still to be worked on, or waits behind its partition's hold. */
  ghost predicate Linked(iso: Iso) {
    forall r | r in iso.buffer :: if r.tp in iso.held then iso.held[r.tp] <= r.offset else r in Flat(iso.work)
  }

  ghost predicate Calm(s0: Store, buffer: seq<Record>, front: Offsets, s: Store) {
    && s0.applied <= s.applied
    && Ordered(buffer)
    && Fronts(front, map[], buffer)
    && WritesInOrder(New(s0, s), front)
    && s.offsets == Merge(s0.offsets, front)
  }

  /** Neither offsets nor records reach beyond what was fetched, as far as it is still fetched. */
  ghost predicate Bounded(m: Offsets, pos: Offsets) { forall tp | tp in m && tp in pos :: m[tp] <= pos[tp] }

  ghost predicate Fetched(rs: seq<Record>, pos: Offsets) { forall r | r in rs && r.tp in pos :: r.offset < pos[r.tp] }

  ghost predicate Waiting(s0: Store, buffer: seq<Record>, front: Offsets, pos: Offsets, s: Store) {
    Calm(s0, buffer, front, s) && Bounded(front, pos) && Fetched(buffer, pos)
  }

  ghost predicate Working(s0: Store, iso: Iso, pos: Offsets, s: Store, limit: nat) {
    && Going(s0, iso, s) && Linked(iso) && Ordered(iso.buffer)
    && Bounded(iso.commit, pos) && Fetched(iso.buffer, pos) && Fetched(Flat(iso.work), pos)
    && |iso.quarantined| <= limit
  }

  /** The worker in a store `s` of its own, which began as `s0`; `front` is how far its commits have come. */
  ghost predicate Fine(s0: Store, worker: Worker, front: Offsets, s: Store) {
    match worker.mode
    case Collecting(buffer) => Waiting(s0, buffer, front, worker.pos, s)
    case Isolating(iso, limit) => Working(s0, iso.(commit := front), worker.pos, s, limit)
  }

  lemma {:induction false} MinusOrdered(rs: seq<Record>, gone: set<Record>)
    requires Ordered(rs)
    ensures Ordered(Minus(rs, gone)) && forall r | r in Minus(rs, gone) :: r in rs && r !in gone
    decreases |rs|
  {
    if rs == [] {
    } else {
      OrderedHead(rs);
      MinusOrdered(rs[1..], gone);
      OrderedCons(rs[0], Minus(rs[1..], gone));
      assert rs == [rs[0]] + rs[1..];
    }
  }

  lemma {:induction false} PlanBounded(p: Plan, batch: seq<Record>, snap: Snapshot, skipUnknown: bool, pos: Offsets)
    requires Bounded(p.next, pos) && Fetched(batch, pos)
    ensures Bounded(PlanFrom(p, batch, snap, skipUnknown).next, pos)
    decreases |batch|
  {
    if batch == [] {
    } else {
      assert batch[0] in batch;
      assert forall r | r in batch[1..] :: r in batch;
      PlanBounded(PlanOne(p, batch[0], snap, skipUnknown), batch[1..], snap, skipUnknown, pos);
    }
  }

  /** A new hold is at a record of the batch. */
  lemma {:induction false} HoldsComeFrom(p: Plan, batch: seq<Record>, snap: Snapshot, skipUnknown: bool, q: Plan)
    requires q == PlanFrom(p, batch, snap, skipUnknown)
    ensures forall tp | tp in q.held && tp !in p.held :: exists h | h in batch :: h.tp == tp && h.offset == q.held[tp]
    ensures forall tp | tp in p.held :: tp in q.held && q.held[tp] == p.held[tp]
    decreases |batch|
  {
    if batch == [] {
    } else {
      HoldsComeFrom(PlanOne(p, batch[0], snap, skipUnknown), batch[1..], snap, skipUnknown, q);
      assert batch[0] in batch;
      assert forall r | r in batch[1..] :: r in batch;
    }
  }

  /** After a settled part, what stays buffered is the rest of the work or waits behind a hold. */
  lemma PartLinked(buffer: seq<Record>, held: Offsets, part: seq<Record>, rest: seq<Record>, snap: Snapshot,
                   skipUnknown: bool, q: Plan)
    requires q == PlanOf(part, snap, held, skipUnknown) && Ordered(part + rest) && Ordered(buffer)
    requires forall r | r in buffer :: if r.tp in held then held[r.tp] <= r.offset else r in part + rest
    ensures forall r | r in Minus(buffer, Processed(part, q.held)) ::
      if r.tp in q.held then q.held[r.tp] <= r.offset else r in rest
  {
    HoldsComeFrom(Empty(held), part, snap, skipUnknown, q);
    MinusOrdered(buffer, Processed(part, q.held));
    OrderedSplit(part, rest);
  }

  lemma LinkedIsCalm(s0: Store, iso: Iso, s: Store, rs: seq<Record>)
    requires s0.applied <= s.applied && WritesInOrder(New(s0, s), iso.commit)
    requires s.offsets == Merge(s0.offsets, iso.commit)
    requires Ordered(iso.buffer) && Barrier(iso.commit, iso.held) && Fronts(iso.commit, iso.held, rs)
    requires forall r | r in iso.buffer :: if r.tp in iso.held then iso.held[r.tp] <= r.offset else r in rs
    ensures Calm(s0, iso.buffer, iso.commit, s)
  {
  }

  lemma PolledFine(s0: Store, worker: Worker, front: Offsets, s: Store, log: Log, tp: Partition)
    requires Fine(s0, worker, front, s) && worker.mode.Collecting?
    requires tp in worker.pos && tp in log && worker.pos[tp] < |log[tp]|
    ensures Fine(s0, Polled(worker, log, tp), front, s)
  {
    var buffer := BufferOf(worker);
    var r := RecordAt(log, tp, worker.pos[tp]);
    var more := buffer + [r];
    forall i, j | 0 <= i < j < |more| && more[i].tp == more[j].tp ensures more[i].offset < more[j].offset {
      if j == |buffer| { assert buffer[i] in buffer; }
    }
  }

  lemma BatchFine(s0: Store, buffer: seq<Record>, front: Offsets, pos: Offsets, s: Store, snap: Snapshot,
                  skipUnknown: bool, plan: Plan)
    requires Waiting(s0, buffer, front, pos, s) && plan == PlanOf(buffer, snap, map[], skipUnknown)
    ensures Waiting(s0, Minus(buffer, Processed(buffer, plan.held)), Merge(front, plan.next), pos,
                    Commit(Publish(s, plan.letters), plan))
  {
    var store := Commit(Publish(s, plan.letters), plan);
    var iso := Iso([], buffer, map[], snap, [], 0, front);
    assert buffer + Flat(iso.work) == buffer && buffer + [] == buffer;
    CommittedPart(s0, iso, buffer, s, skipUnknown, plan, store);
    PartLinked(buffer, map[], buffer, [], snap, skipUnknown, plan);
    MinusOrdered(buffer, Processed(buffer, plan.held));
    PlanBounded(Empty(map[]), buffer, snap, skipUnknown, pos);
    var left := Minus(buffer, Processed(buffer, plan.held));
    LinkedIsCalm(s0, iso.(held := plan.held, commit := Merge(front, plan.next), buffer := left), store, []);
  }

  lemma IdleFine(s0: Store, front: Offsets, s: Store)
    requires s0.applied <= s.applied && WritesInOrder(New(s0, s), front) && s.offsets == Merge(s0.offsets, front)
    ensures Fine(s0, IDLE, front, s)
  {
  }

  lemma ProcessedFine(s0: Store, worker: Worker, front: Offsets, s: Store, snap: Snapshot, verdict: Verdict,
                      isolationSnap: Snapshot,
                      c: Config, plan: Plan)
      returns (front': Offsets)
    requires Fine(s0, worker, front, s) && worker.mode.Collecting? && verdict != Transient(true)
    requires plan == PlanOf(BufferOf(worker), snap, map[], c.skipUnknown)
    ensures var v := Answer(plan, verdict);
            Fine(s0, AfterProcess(worker, plan, v, isolationSnap, c), front', After(s, plan, v))
  {
    var buffer := BufferOf(worker);
    var v := Answer(plan, verdict);
    front' := front;
    if v == Ok {
      front' := Merge(front, plan.next);
      BatchFine(s0, buffer, front, worker.pos, s, snap, c.skipUnknown, plan);
    } else {
      assert New(s0, After(s, plan, v)) == New(s0, s);
      if v == Data && !worker.tripped {
        OneFlat(buffer);
      } else if v == Fatal {
        IdleFine(s0, front, After(s, plan, v));
      }
    }
  }

  /** What stays buffered is the part in hand, the rest of the work, or waits behind a hold. */
  ghost predicate LinkedTo(iso: Iso, part: seq<Record>, pos: Offsets) {
    && (forall r | r in iso.buffer ::
          if r.tp in iso.held then iso.held[r.tp] <= r.offset else r in part + Flat(iso.work))
    && Ordered(iso.buffer) && Bounded(iso.commit, pos) && Fetched(iso.buffer, pos)
    && Fetched(part, pos) && Fetched(Flat(iso.work), pos)
  }

  lemma SettleOkPart(iso: Iso, part: seq<Record>, skipUnknown: bool, pos: Offsets, q: Plan)
    requires Ordered(part + Flat(iso.work)) && LinkedTo(iso, part, pos)
    requires q == PlanOf(part, iso.snap, iso.held, skipUnknown)
    ensures
      var left := Minus(iso.buffer, Processed(part, q.held));
      && Linked(iso.(held := q.held, buffer := left)) && Ordered(left)
      && Bounded(Merge(iso.commit, q.next), pos) && Fetched(left, pos)
  {
    PartLinked(iso.buffer, iso.held, part, Flat(iso.work), iso.snap, skipUnknown, q);
    MinusOrdered(iso.buffer, Processed(part, q.held));
    PlanBounded(Empty(iso.held), part, iso.snap, skipUnknown, pos);
  }

  lemma SettleBadRecord(iso: Iso, r: Record, pos: Offsets)
    requires LinkedTo(iso, [r], pos)
    ensures
      var left := Minus(iso.buffer, {r});
      && Linked(iso.(buffer := left)) && Ordered(left) && Fetched(left, pos)
      && Bounded(Merge(iso.commit, QuarantinePlan(r).next), pos)
  {
    MinusOrdered(iso.buffer, {r});
    assert r in [r];
  }

  lemma SettleLinked(iso: Iso, part: seq<Record>, s: Store, io: Io, limit: nat, skipUnknown: bool, pos: Offsets,
                     t: Turn)
    requires part != [] && Ordered(part + Flat(iso.work)) && LinkedTo(iso, part, pos)
    requires t == Settle(iso, part, s, io, limit, skipUnknown) && t.Running?
    ensures Linked(t.iso) && Ordered(t.iso.buffer)
    ensures Bounded(t.iso.commit, pos) && Fetched(t.iso.buffer, pos) && Fetched(Flat(t.iso.work), pos)
  {
    var q := PlanOf(part, iso.snap, iso.held, skipUnknown);
    var v := Answer(q, io.verdict(part));
    if v == Ok {
      SettleOkPart(iso, part, skipUnknown, pos, q);
    } else if v == Fenced {
      FlatCons(part, iso.work);
    } else if |part| > 1 {
      FlatHalves(part, |part| / 2, iso.work);
    } else {
      assert part == [part[0]];
      SettleBadRecord(iso, part[0], pos);
    }
  }

  lemma SettleFine(s0: Store, iso: Iso, part: seq<Record>, s: Store, io: Io, limit: nat, skipUnknown: bool,
                   pos: Offsets, t: Turn)
    requires part != [] && Facing(s0, iso, part, s) && t == Settle(iso, part, s, io, limit, skipUnknown)
    requires LinkedTo(iso, part, pos) && |iso.quarantined| <= limit
    requires io.verdict(part) != Transient(true) && io.quarantine(part[0]) != Transient(true)
    ensures t.Running? ==> Working(s0, t.iso, pos, t.store, limit)
    ensures t.Stopped? ==> Waiting(s0, t.iso.buffer, t.iso.commit, pos, t.store)
  {
    SettleInOrder(s0, iso, part, s, io, limit, skipUnknown, t);
    if t.Stopped? {
      assert t.iso.buffer == iso.buffer && t.iso.commit == iso.commit;
      LinkedIsCalm(s0, t.iso, t.store, part + Flat(iso.work));
    } else {
      SettleLinked(iso, part, s, io, limit, skipUnknown, pos, t);
    }
  }

  lemma {:induction false} KeepHolds(rs: seq<Record>, owned: set<Partition>, r: Record)
    ensures r in Keep(rs, owned) <==> r in rs && r.tp in owned
    decreases |rs|
  {
    if rs == [] {
    } else {
      assert rs == [rs[0]] + rs[1..];
      KeepHolds(rs[1..], owned, r);
    }
  }

  /** The assignment a poll reports has the partitions of what is buffered; the rest leaves the work. */
  ghost predicate Covered(iso: Iso, io: Io) { io.revoked == {} && forall r | r in iso.buffer :: r.tp in io.owned }

  lemma KeepAliveWorking(s0: Store, iso: Iso, pos: Offsets, s: Store, limit: nat, io: Io)
    requires Working(s0, iso, pos, s, limit) && Covered(iso, io)
    ensures Working(s0, KeepAlive(iso, io), pos, s, limit)
  {
    FlatKeep(iso.work, io.owned);
    KeepAliveInOrder(iso, io, New(s0, s));
    WithoutNothing(iso.buffer);
    forall r | r in Flat(iso.work) { KeepHolds(Flat(iso.work), io.owned, r); }
    forall r | r in Keep(Flat(iso.work), io.owned) ensures r in Flat(iso.work) {
      KeepHolds(Flat(iso.work), io.owned, r);
    }
  }

  /** Nothing buffered is disowned, and no commit's fate is unknown. */
  ghost predicate Undisturbed(iso: Iso, io: Io) {
    && Covered(iso, io)
    && (forall part :: io.verdict(part) != Transient(true))
    && (forall r :: io.quarantine(r) != Transient(true))
  }

  lemma TurnFine(s0: Store, iso: Iso, pos: Offsets, s: Store, io: Io, limit: nat, skipUnknown: bool, t: Turn)
    requires iso.work != [] && Working(s0, iso, pos, s, limit) && Undisturbed(iso, io)
    requires t == OneTurn(iso, s, io, limit, skipUnknown)
    ensures t.Running? ==> Working(s0, t.iso, pos, t.store, limit)
    ensures t.Stopped? ==> Waiting(s0, t.iso.buffer, t.iso.commit, pos, t.store)
  {
    KeepAliveWorking(s0, iso, pos, s, limit, io);
    KeepAllShrinks(iso.work, io.owned);
    var alive := KeepAlive(iso, io);
    var part := alive.work[0];
    var rest := alive.(work := alive.work[1..]);
    assert Flat(alive.work) == part + Flat(rest.work);
    if part == [] {
      assert part + Flat(rest.work) == Flat(rest.work);
    } else {
      SettleFine(s0, rest, part, s, io, limit, skipUnknown, pos, t);
    }
  }

  /** The worker a step belongs to, if any. */
  predicate Of(step: Step, w: nat) { !step.Append? && !step.ChangeOwnership? && step.w == w }

  lemma OthersLeave(s: State, w: nat, step: Step, c: Config)
    requires w < |s.workers| && !Of(step, w)
    ensures var s' := Next(s, step, c); w < |s'.workers| && s'.workers[w] == s.workers[w]
    ensures !step.Process? && !step.IsolationTurn? ==> Next(s, step, c).store.applied == s.store.applied
  {
  }

  // ---- In line, whatever happens ----

  /** The records a worker still has to deal with. */
  function InHand(worker: Worker): seq<Record> {
    match worker.mode
    case Collecting(buffer) => buffer
    case Isolating(iso, _) => iso.buffer + Flat(iso.work)
  }

  /** What a worker holds is in offset order and was fetched, and an isolation still has all of its buffer
      to work on that is not on hold. */
  ghost predicate InLine(worker: Worker) {
    && Ordered(BufferOf(worker)) && Fetched(InHand(worker), worker.pos)
    && (worker.mode.Isolating? ==>
          var iso := worker.mode.iso;
          Ordered(Flat(iso.work)) && Linked(iso) && |iso.quarantined| <= worker.mode.limit)
  }

  lemma InLineIsFine(worker: Worker, s: Store)
    requires InLine(worker)
    ensures Fine(s, worker, map[], s)
  {
    assert Merge(s.offsets, map[]) == s.offsets;
    if worker.mode.Isolating? {
      assert forall r | r in worker.mode.iso.buffer || r in Flat(worker.mode.iso.work) :: r in InHand(worker);
    }
  }

  lemma FineIsInLine(s0: Store, worker: Worker, front: Offsets, s: Store)
    requires Fine(s0, worker, front, s)
    ensures InLine(worker)
  {
  }

  /** What the consumer's rebalance listener sees to: a partition is assigned only when nothing of it is in
      hand any more, and what is buffered belongs to the assignment. */
  ghost predicate Listens(s: State, step: Step, w: nat) {
    match step
    case Assign(v, tps) => v == w && v < |s.workers| ==> forall r | r in InHand(s.workers[v]) :: r.tp !in tps
    case IsolationTurn(v, io) =>
      v == w && v < |s.workers| && s.workers[v].mode.Isolating? ==>
        forall r | r in s.workers[v].mode.iso.buffer :: r.tp in io.owned
    case _ => true
  }

  lemma ProcessInLine(s: Store, worker: Worker, snap: Snapshot, verdict: Verdict, isolationSnap: Snapshot, c: Config,
                      plan: Plan)
    requires InLine(worker) && worker.mode.Collecting? && plan == PlanOf(BufferOf(worker), snap, map[], c.skipUnknown)
    ensures InLine(AfterProcess(worker, plan, Answer(plan, verdict), isolationSnap, c))
  {
    if Answer(plan, verdict) != Transient(true) {
      InLineIsFine(worker, s);
      var answer := Answer(plan, verdict);
      assert Answer(plan, answer) == answer;
      var front := ProcessedFine(s, worker, map[], s, snap, answer, isolationSnap, c, plan);
      FineIsInLine(s, AfterProcess(worker, plan, answer, isolationSnap, c), front, After(s, plan, answer));
    }
  }

  lemma SettleKeepsLine(iso: Iso, part: seq<Record>, s: Store, io: Io, limit: nat, skipUnknown: bool, pos: Offsets,
                        t: Turn)
    requires part != [] && Facing(s, iso, part, s) && t == Settle(iso, part, s, io, limit, skipUnknown)
    requires LinkedTo(iso, part, pos) && |iso.quarantined| <= limit
    ensures t.Running? ==> Working(s, t.iso, pos, t.store, limit)
    ensures t.Stopped? ==> t.iso.buffer == iso.buffer
  {
    SettleInOrder(s, iso, part, s, io, limit, skipUnknown, t);
    if t.Running? { SettleLinked(iso, part, s, io, limit, skipUnknown, pos, t); }
  }

  lemma TurnInLine(s: Store, worker: Worker, io: Io, skipUnknown: bool)
    requires InLine(worker) && worker.mode.Isolating? && worker.mode.iso.work != [] && Covered(worker.mode.iso, io)
    ensures InLine(AfterTurn(worker, OneTurn(worker.mode.iso, s, io, worker.mode.limit, skipUnknown)))
  {
    var iso, limit := worker.mode.iso, worker.mode.limit;
    InLineIsFine(worker, s);
    var clean := iso.(commit := map[]);
    var added := TurnDependsOn(iso, s, io, limit, skipUnknown, map[], s);
    var t, u := OneTurn(iso, s, io, limit, skipUnknown), OneTurn(clean, s, io, limit, skipUnknown);
    KeepAliveWorking(s, clean, worker.pos, s, limit, io);
    KeepAllShrinks(clean.work, io.owned);
    var alive := KeepAlive(clean, io);
    var part, rest := alive.work[0], alive.(work := alive.work[1..]);
    assert Flat(alive.work) == part + Flat(rest.work);
    if part == [] {
      assert part + Flat(rest.work) == Flat(rest.work);
    } else {
      SettleKeepsLine(rest, part, s, io, limit, skipUnknown, worker.pos, u);
    }
    SameLine(s, worker, t, u);
  }

  lemma SameLine(s: Store, worker: Worker, t: Turn, u: Turn)
    requires worker.mode.Isolating? && Alike(t, u)
    requires u.Running? ==> Working(s, u.iso, worker.pos, u.store, worker.mode.limit)
    requires u.Stopped? ==> Ordered(u.iso.buffer) && Fetched(u.iso.buffer, worker.pos)
    ensures InLine(AfterTurn(worker, t))
  {
    assert t.iso.(commit := u.iso.commit) == u.iso;
    assert t.iso.work == u.iso.work && t.iso.buffer == u.iso.buffer && t.iso.held == u.iso.held;
  }

  lemma {:induction false} WithoutKeepsOrder(rs: seq<Record>, tps: set<Partition>)
    requires Ordered(rs)
    ensures Ordered(Without(rs, tps)) && forall r | r in Without(rs, tps) :: r in rs && r.tp !in tps
    decreases |rs|
  {
    if rs == [] {
    } else {
      OrderedHead(rs);
      WithoutKeepsOrder(rs[1..], tps);
      OrderedCons(rs[0], Without(rs[1..], tps));
      assert rs == [rs[0]] + rs[1..];
    }
  }

  lemma RevokedInLine(worker: Worker, tps: set<Partition>)
    requires InLine(worker)
    ensures InLine(SetBuffer(worker, Without(BufferOf(worker), tps)).(pos := worker.pos - tps))
  {
    WithoutKeepsOrder(BufferOf(worker), tps);
  }

  lemma StepInLine(s: State, w: nat, step: Step, c: Config)
    requires w < |s.workers| && Enabled(s, step, c) && Listens(s, step, w) && InLine(s.workers[w])
    ensures var s' := Next(s, step, c); w < |s'.workers| && InLine(s'.workers[w])
  {
    var worker := s.workers[w];
    if !Of(step, w) {
      OthersLeave(s, w, step, c);
    } else {
      match step
      case Poll(_, tp) =>
        InLineIsFine(worker, s.store);
        PolledFine(s.store, worker, map[], s.store, s.log, tp);
        FineIsInLine(s.store, Polled(worker, s.log, tp), map[], s.store);
      case Process(_, snap, verdict, isolationSnap) =>
        ProcessInLine(s.store, worker, snap, verdict, isolationSnap, c,
                      PlanOf(BufferOf(worker), snap, map[], c.skipUnknown));
      case IsolationTurn(_, io) =>
        if worker.mode.iso.work != [] { TurnInLine(s.store, worker, io, c.skipUnknown); }
      case Revoke(_, tps) => RevokedInLine(worker, tps);
      case Assign(_, tps) =>
      case Crash(_) =>
    }
  }

  /** In every execution whose rebalances reach a worker through its listener, whatever is in its hands is
      in line, whatever the replies, revocations and assignments were. */
  lemma {:induction false} ExecutionInLine(states: seq<State>, steps: seq<Step>, c: Config, w: nat, i: nat)
    requires Execution(states, steps, c) && i < |states| && w < |states[i].workers|
    requires forall k | 0 <= k < i :: Listens(states[k], steps[k], w)
    ensures InLine(states[i].workers[w])
  {
    if i == 0 {
    } else {
      SameWorkers(states[i - 1], steps[i - 1], c);
      ExecutionInLine(states, steps, c, w, i - 1);
      StepInLine(states[i - 1], w, steps[i - 1], c);
    }
  }

  lemma SameWorkers(s: State, step: Step, c: Config)
    ensures |Next(s, step, c).workers| == |s.workers|
  {
  }

  // ---- Within an execution ----

  /** A step between two rebalances of worker w: its own, without a lost reply, or one of the others, none
      of which writes to the partitions `mine`. */
  ghost predicate Quiet(s: State, step: Step, c: Config, w: nat, mine: set<Partition>) {
    match step
    case Append(_, _) => true
    case ChangeOwnership(_) => true
    case Poll(_, _) => true
    case Process(v, _, verdict, _) => if v == w then verdict != Transient(true) else AddsOutside(s, step, c, mine)
    case IsolationTurn(v, io) =>
      if v == w then v < |s.workers| && s.workers[v].mode.Isolating? && Undisturbed(s.workers[v].mode.iso, io)
      else AddsOutside(s, step, c, mine)
    case Revoke(v, _) => v != w
    case Assign(v, _) => v != w
    case Crash(v) => v != w
  }

  ghost predicate AddsOutside(s: State, step: Step, c: Config, mine: set<Partition>) {
    var s' := Next(s, step, c);
    && s.store.applied <= s'.store.applied
    && forall r | r in s'.store.applied[|s.store.applied|..] :: r.tp !in mine
  }

  lemma {:induction false} KeepNone(rs: seq<Record>, mine: set<Partition>)
    requires forall r | r in rs :: r.tp !in mine
    ensures Keep(rs, mine) == []
    decreases |rs|
  {
    if rs == [] {
    } else {
      KeepNone(rs[1..], mine);
    }
  }

  /** The worker's own store `own` has the same records of its partitions as the warehouse. */
  ghost predicate Mirrors(s0: Store, s: Store, own: Store, mine: set<Partition>) {
    && s0.applied <= s.applied && s0.applied <= own.applied
    && Keep(New(s0, s), mine) == Keep(New(s0, own), mine)
  }

  lemma BothAdd(s0: Store, s: Store, s': Store, own: Store, own': Store, added: seq<Record>, mine: set<Partition>)
    requires Mirrors(s0, s, own, mine) && s'.applied == s.applied + added && own'.applied == own.applied + added
    ensures Mirrors(s0, s', own', mine)
  {
    assert New(s0, s') == New(s0, s) + added && New(s0, own') == New(s0, own) + added;
    KeepAppend(New(s0, s), added, mine);
    KeepAppend(New(s0, own), added, mine);
  }

  lemma OthersAdd(s0: Store, s: Store, s': Store, own: Store, mine: set<Partition>)
    requires Mirrors(s0, s, own, mine) && s.applied <= s'.applied
    requires forall r | r in s'.applied[|s.applied|..] :: r.tp !in mine
    ensures Mirrors(s0, s', own, mine)
  {
    var added := s'.applied[|s.applied|..];
    assert New(s0, s') == New(s0, s) + added;
    KeepAppend(New(s0, s), added, mine);
    KeepNone(added, mine);
    assert Keep(New(s0, s), mine) + [] == Keep(New(s0, s), mine);
  }

  lemma OwnProcess(s0: Store, s: State, w: nat, step: Step, c: Config, front: Offsets, own: Store, mine: set<Partition>)
      returns (front': Offsets, own': Store)
    requires step.Process? && step.w == w && Enabled(s, step, c) && step.verdict != Transient(true)
    requires Fine(s0, s.workers[w], front, own) && Mirrors(s0, s.store, own, mine)
    ensures var s' := Next(s, step, c); Fine(s0, s'.workers[w], front', own') && Mirrors(s0, s'.store, own', mine)
  {
    var plan := PlanOf(BufferOf(s.workers[w]), step.snap, map[], c.skipUnknown);
    var v := Answer(plan, step.verdict);
    front' := ProcessedFine(s0, s.workers[w], front, own, step.snap, step.verdict, step.isolationSnap, c, plan);
    own' := After(own, plan, v);
    var added := if v == Ok then plan.writes else [];
    BothAdd(s0, s.store, After(s.store, plan, v), own, own', added, mine);
  }

  lemma OwnTurn(s0: Store, s: State, w: nat, io: Io, c: Config, front: Offsets, own: Store, mine: set<Partition>)
      returns (front': Offsets, own': Store)
    requires Enabled(s, IsolationTurn(w, io), c) && Undisturbed(s.workers[w].mode.iso, io)
    requires Fine(s0, s.workers[w], front, own) && Mirrors(s0, s.store, own, mine)
    ensures var s' := Next(s, IsolationTurn(w, io), c);
            Fine(s0, s'.workers[w], front', own') && Mirrors(s0, s'.store, own', mine)
  {
    var worker := s.workers[w];
    var iso, limit := worker.mode.iso, worker.mode.limit;
    front', own' := front, own;
    if iso.work == [] {
      LinkedIsCalm(s0, iso.(commit := front), own, []);
    } else {
      var added := TurnDependsOn(iso, s.store, io, limit, c.skipUnknown, front, own);
      var t, u := OneTurn(iso, s.store, io, limit, c.skipUnknown),
          OneTurn(iso.(commit := front), own, io, limit, c.skipUnknown);
      TurnFine(s0, iso.(commit := front), worker.pos, own, io, limit, c.skipUnknown, u);
      front', own' := u.iso.commit, u.store;
      BothAdd(s0, s.store, t.store, own, own', added, mine);
      TurnedFine(s0, worker, t, u);
    }
  }

  lemma TurnedFine(s0: Store, worker: Worker, t: Turn, u: Turn)
    requires worker.mode.Isolating? && t.Running? == u.Running? && t.iso.(commit := map[]) == u.iso.(commit := map[])
    requires t.Stopped? ==> t.fault == u.fault
    requires u.Running? ==> Working(s0, u.iso, worker.pos, u.store, worker.mode.limit)
    requires u.Stopped? ==> Waiting(s0, u.iso.buffer, u.iso.commit, worker.pos, u.store)
    ensures Fine(s0, AfterTurn(worker, t), u.iso.commit, u.store)
  {
    assert t.iso.(commit := u.iso.commit) == u.iso;
    if u.Stopped? { IdleFine(s0, u.iso.commit, u.store); }
  }

  lemma OtherStep(s0: Store, s: State, w: nat, step: Step, c: Config, own: Store, mine: set<Partition>)
    requires w < |s.workers| && !Of(step, w) && Quiet(s, step, c, w, mine) && Mirrors(s0, s.store, own, mine)
    ensures var s' := Next(s, step, c); w < |s'.workers| && s'.workers[w] == s.workers[w]
    ensures Mirrors(s0, Next(s, step, c).store, own, mine)
  {
    OthersLeave(s, w, step, c);
    if step.Process? || step.IsolationTurn? { OthersAdd(s0, s.store, Next(s, step, c).store, own, mine); }
  }

  lemma QuietStep(s0: Store, s: State, w: nat, step: Step, c: Config, front: Offsets, own: Store, mine: set<Partition>)
      returns (front': Offsets, own': Store)
    requires w < |s.workers| && Enabled(s, step, c) && Quiet(s, step, c, w, mine)
    requires Fine(s0, s.workers[w], front, own) && Mirrors(s0, s.store, own, mine)
    ensures var s' := Next(s, step, c);
            w < |s'.workers| && Fine(s0, s'.workers[w], front', own') && Mirrors(s0, s'.store, own', mine)
  {
    front', own' := front, own;
    if !Of(step, w) {
      OtherStep(s0, s, w, step, c, own, mine);
    } else if step.Poll? {
      PolledFine(s0, s.workers[w], front, own, s.log, step.tp);
    } else if step.Process? {
      front', own' := OwnProcess(s0, s, w, step, c, front, own, mine);
    } else {
      front', own' := OwnTurn(s0, s, w, step.io, c, front, own, mine);
    }
  }

  lemma {:induction false} QuietRun(states: seq<State>, steps: seq<Step>, c: Config, w: nat, a: nat, b: nat,
                                    mine: set<Partition>)
      returns (front: Offsets, own: Store)
    requires Trace(states, steps, c) && a <= b < |states| && w < |states[a].workers| && InLine(states[a].workers[w])
    requires forall i | a <= i < b :: Quiet(states[i], steps[i], c, w, mine)
    ensures w < |states[b].workers| && Fine(states[a].store, states[b].workers[w], front, own)
    ensures Mirrors(states[a].store, states[b].store, own, mine)
    decreases b - a
  {
    if a == b {
      front, own := map[], states[a].store;
      InLineIsFine(states[a].workers[w], own);
    } else {
      front, own := QuietRun(states, steps, c, w, a, b - 1, mine);
      front, own := QuietStep(states[a].store, states[b - 1], w, steps[b - 1], c, front, own, mine);
    }
  }

  /** In every execution, from any moment on until the worker's next rebalance, buffered and isolated
      records it came with included: with no commit of unknown fate, a worker that alone writes to its
      partitions applies their records in strictly rising offset order, so each at most once, whatever the
      other workers do to other partitions meanwhile. */
  lemma AppliedOnceInOrder(states: seq<State>, steps: seq<Step>, c: Config, w: nat, a: nat, b: nat,
                           mine: set<Partition>)
    requires Execution(states, steps, c) && a <= b < |states| && w < |states[a].workers|
    requires forall i | 0 <= i < a :: Listens(states[i], steps[i], w)
    requires forall i | a <= i < b :: Quiet(states[i], steps[i], c, w, mine)
    ensures states[a].store.applied <= states[b].store.applied
    ensures Ordered(Keep(states[b].store.applied[|states[a].store.applied|..], mine))
  {
    ExecutionInLine(states, steps, c, w, a);
    var front, own := QuietRun(states, steps, c, w, a, b, mine);
    assert Ordered(New(states[a].store, own));
    KeepOrdered(New(states[a].store, own), mine);
  }
}
