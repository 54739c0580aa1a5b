/** The sink worker as an object: a buffer and a circuit breaker, changed in place (SinkWorker.java). */
module SinkWorker {
  import opened Options
  import opened Routing
  import opened Batches
  import opened Isolation
  import opened PassMeaning
  import opened Retrying

  /** The warehouse and the dead-letter topic, as the worker's writes leave them. */
  class Warehouse {
    var store: Store

    constructor (store: Store)
      ensures this.store == store
    {
      this.store := store;
    }

    /** WarehouseWriter.write with the verdict its transaction meets: each offset is upserted with
        GREATEST, or nothing at all is stored. */
    method Write(plan: Plan, verdict: Verdict)
      modifies this
      ensures store == if verdict == Ok || verdict == Transient(true) then Commit(old(store), plan) else old(store)
    {
      if verdict != Ok && verdict != Transient(true) { return; }
      var offsets := store.offsets;
      var todo := plan.next.Keys;
      while todo != {}
        invariant todo <= plan.next.Keys
        invariant offsets == Merge(store.offsets, map tp | tp in plan.next && tp !in todo :: plan.next[tp])
        invariant store == old(store)
      {
        var tp :| tp in todo;
        todo := todo - {tp};
        offsets := Raise(offsets, tp, plan.next[tp]);
      }
      assert plan.next == map tp | tp in plan.next && tp !in todo :: plan.next[tp];
      store := Store(store.applied + plan.writes, store.letters, store.skipped + plan.skips,
                     store.ignored + plan.ignored, offsets);
    }
  }

  class Worker {
    var buffer: seq<Record>
    var held: set<Partition>
    var quarantineTripped: bool
    var quarantined: seq<Record>
    const warehouse: Warehouse
    const config: Config

    constructor (warehouse: Warehouse, config: Config)
      ensures this.warehouse == warehouse && this.config == config
      ensures buffer == [] && held == {} && !quarantineTripped && quarantined == []
    {
      this.warehouse := warehouse;
      this.config := config;
      buffer, held, quarantineTripped, quarantined := [], {}, false, [];
    }

    /** A revoked or lost partition leaves the buffer and the holds. */
    method DropBuffered(partitions: set<Partition>)
      modifies this`buffer, this`held
      ensures buffer == Without(old(buffer), partitions) && held == old(held) - partitions
    {
      var kept := [];
      for i := 0 to |buffer|
        invariant buffer == old(buffer)
        invariant kept + Without(buffer[i..], partitions) == Without(buffer, partitions)
      {
        if buffer[i].tp !in partitions { kept := kept + [buffer[i]]; }
      }
      buffer := kept;
      held := held - partitions;
    }

    method RemoveProcessed(batch: seq<Record>, heldFrom: Offsets)
      modifies this`buffer
      ensures buffer == Minus(old(buffer), Processed(batch, heldFrom))
    {
      var processed: set<Record> := {};
      for i := 0 to |batch|
        invariant processed == Processed(batch[..i], heldFrom)
      {
        if batch[i].tp !in heldFrom || batch[i].offset < heldFrom[batch[i].tp] {
          processed := processed + {batch[i]};
        }
      }
      assert batch[..|batch|] == batch;
      RemoveAll(processed);
    }

    method RemoveAll(gone: set<Record>)
      modifies this`buffer
      ensures buffer == Minus(old(buffer), gone)
    {
      var kept := [];
      for i := 0 to |buffer|
        invariant buffer == old(buffer)
        invariant kept + Minus(buffer[i..], gone) == Minus(buffer, gone)
      {
        if buffer[i] !in gone { kept := kept + [buffer[i]]; }
      }
      buffer := kept;
    }

    /** Route a batch: fill the lists, the next offsets and the holds. */
    method RouteBatch(batch: seq<Record>, snap: Snapshot, alreadyHeld: Offsets) returns (plan: Plan)
      ensures plan == PlanOf(batch, snap, alreadyHeld, config.skipUnknown)
      ensures PassIs(plan, batch, snap, alreadyHeld, config.skipUnknown)
      ensures plan.next == map[] ==> Taken(plan) == []
    {
      var writes, letters, skips, ignored := [], [], [], [];
      var next: Offsets := map[];
      var heldFrom: Offsets := alreadyHeld;
      for i := 0 to |batch|
        invariant PlanFrom(Plan(writes, letters, skips, ignored, next, heldFrom), batch[i..], snap, config.skipUnknown)
          == PlanOf(batch, snap, alreadyHeld, config.skipUnknown)
        invariant next == map[] ==> writes == letters == skips == ignored == []
      {
        var r := batch[i];
        ghost var p := Plan(writes, letters, skips, ignored, next, heldFrom);
        assert batch[i..][0] == r && batch[i..][1..] == batch[i + 1..];
        assert PlanFrom(p, batch[i..], snap, config.skipUnknown)
            == PlanFrom(PlanOne(p, r, snap, config.skipUnknown), batch[i + 1..], snap, config.skipUnknown);
        if r.tp !in heldFrom {
          var kind := Dispose(r, snap, config.skipUnknown);
          if kind == Hold {
            heldFrom := heldFrom[r.tp := r.offset];
          } else {
            next := Raise(next, r.tp, r.offset + 1);
            assert r.tp in next;
            match kind {
              case Write => writes := writes + [r];
              case Letter => letters := letters + [r];
              case Skip => skips := skips + [r];
              case Ignore => ignored := ignored + [r];
            }
          }
        }
        assert Plan(writes, letters, skips, ignored, next, heldFrom) == PlanOne(p, r, snap, config.skipUnknown);
      }
      plan := Plan(writes, letters, skips, ignored, next, heldFrom);
      assert PassIs(plan, batch, snap, alreadyHeld, config.skipUnknown) by {
        PassMeans(batch, snap, alreadyHeld, config.skipUnknown);
      }
    }

    /** One pass over a batch: route it, publish the dead letters, write rows and offsets. */
    method Process(batch: seq<Record>, snap: Snapshot, alreadyHeld: Offsets, verdict: Verdict)
      returns (answer: Verdict, plan: Plan)
      modifies warehouse
      ensures plan == PlanOf(batch, snap, alreadyHeld, config.skipUnknown)
      ensures answer == Answer(plan, verdict)
      ensures warehouse.store == After(old(warehouse.store), plan, answer)
    {
      plan := RouteBatch(batch, snap, alreadyHeld);
      answer := if plan.next == map[] then Ok else verdict;
      if answer.Unpublished? {
        warehouse.store := Publish(warehouse.store, Chosen(plan.letters, answer.sent));
        return;
      }
      if plan.letters != [] { warehouse.store := Publish(warehouse.store, plan.letters); }
      if plan.next != map[] {
        warehouse.Write(plan, answer);
      } else {
        EmptyCommit(warehouse.store, plan);
      }
    }

    static lemma EmptyCommit(s: Store, p: Plan)
      requires p.next == map[] && Taken(p) == []
      ensures Commit(s, p) == s && Publish(s, p.letters) == s
    {
      assert |Taken(p)| == 0;
      assert Merge(s.offsets, p.next) == s.offsets;
    }

    /** Dead-letter one record, store its offset and drop it from the buffer. */
    method Quarantine(r: Record, verdict: Verdict)
      modifies this`buffer, this`quarantined, warehouse
      ensures warehouse.store == After(old(warehouse.store), QuarantinePlan(r), verdict)
      ensures buffer == if verdict == Ok then Minus(old(buffer), {r}) else old(buffer)
      ensures quarantined == if verdict == Ok then old(quarantined) + [r] else old(quarantined)
    {
      if verdict.Unpublished? {
        warehouse.store := Publish(warehouse.store, Chosen([r], verdict.sent));
        return;
      }
      warehouse.store := Publish(warehouse.store, [r]);
      warehouse.Write(QuarantinePlan(r), verdict);
      if verdict == Ok {
        RemoveAll({r});
        quarantined := quarantined + [r];
      }
    }

    /** The isolation under way, as a value. */
    ghost function IsoNow(work: seq<seq<Record>>, heldFrom: Offsets, snap: Snapshot, base: nat, fencedInARow: nat,
                          commit: Offsets): Iso
      requires base <= |quarantined|
      reads this
    {
      Iso(work, buffer, heldFrom, snap, quarantined[base..], fencedInARow, commit)
    }

    /** What one turn does with the part it took from the front of the work. */
    method SettlePart(rest: seq<seq<Record>>, part: seq<Record>, heldFrom: Offsets, snap: Snapshot, fencedInARow: nat,
                      commit: Offsets, io: Io, limit: nat, base: nat)
      returns (work: seq<seq<Record>>, heldFrom': Offsets, snap': Snapshot, fencedInARow': nat, commit': Offsets,
          fault: Option<Fault>)
      requires part != [] && base <= |quarantined|
      modifies this`buffer, this`quarantined, warehouse
      ensures base <= |quarantined| && quarantined[..base] == old(quarantined[..base])
      ensures
        var iso := old(IsoNow(rest, heldFrom, snap, base, fencedInARow, commit));
        var t := Settle(iso, part, old(warehouse.store), io, limit, config.skipUnknown);
        && t.store == warehouse.store
        && t.iso == IsoNow(work, heldFrom', snap', base, fencedInARow', commit')
        && fault == (if t.Running? then None else Some(t.fault))
    {
      work, heldFrom', snap', fencedInARow', commit', fault := rest, heldFrom, snap, fencedInARow, commit, None;
      var answer, plan := Process(part, snap, heldFrom, io.verdict(part));
      match answer {
        case Ok =>
          heldFrom' := plan.held;
          RemoveProcessed(part, plan.held);
          commit' := Merge(commit, plan.next);
          fencedInARow' := 0;
        case Fenced =>
          fencedInARow' := fencedInARow + 1;
          if fencedInARow' >= 5 {
            fault := Some(FencedOut);
          } else {
            snap' := io.refreshed;
            work := [part] + rest;
          }
        case Data =>
          if |part| > 1 {
            var mid := |part| / 2;
            work := [part[..mid], part[mid..]] + rest;
          } else if |quarantined| - base >= limit {
            fault := Some(LimitReached);
          } else {
            commit', fault := SettleBad(part[0], commit, io.quarantine(part[0]), base);
          }
        case _ =>
          fault := Some(Failed(answer));
      }
    }

    /** The single record a bisection came down to. */
    method SettleBad(r: Record, commit: Offsets, w: Verdict, base: nat) returns (commit': Offsets, fault: Option<Fault>)
      requires base <= |quarantined|
      modifies this`buffer, this`quarantined, warehouse
      ensures warehouse.store == After(old(warehouse.store), QuarantinePlan(r), w)
      ensures base <= |quarantined| && quarantined[..base] == old(quarantined[..base])
      ensures
        if w == Ok then
          && buffer == Minus(old(buffer), {r}) && quarantined[base..] == old(quarantined[base..]) + [r]
          && commit' == Merge(commit, QuarantinePlan(r).next) && fault == None
        else buffer == old(buffer) && quarantined == old(quarantined) && commit' == commit && fault == Some(Failed(w))
    {
      Quarantine(r, w);
      commit', fault := commit, None;
      if w == Ok {
        commit' := Merge(commit, QuarantinePlan(r).next);
      } else {
        fault := Some(Failed(w));
      }
    }

    /** One turn: keep the work in step with the assignment, then take its first part. It brings the
        isolation nearer to its end. */
    method TakeTurn(todo: seq<seq<Record>>, heldFrom: Offsets, snap: Snapshot, fencedInARow: nat, commit: Offsets,
                    io: Io, limit: nat, base: nat)
      returns (work: seq<seq<Record>>, heldFrom': Offsets, snap': Snapshot, fencedInARow': nat, commit': Offsets,
          fault: Option<Fault>)
      requires todo != [] && base <= |quarantined| && fencedInARow < 5
      modifies this`buffer, this`held, this`quarantined, warehouse
      ensures base <= |quarantined| && quarantined[..base] == old(quarantined[..base])
      ensures
        var iso := old(IsoNow(todo, heldFrom, snap, base, fencedInARow, commit));
        var t := OneTurn(iso, old(warehouse.store), io, limit, config.skipUnknown);
        && t.store == warehouse.store
        && t.iso == IsoNow(work, heldFrom', snap', base, fencedInARow', commit')
        && fault == (if t.Running? then None else Some(t.fault))
      ensures fault == None ==>
        && fencedInARow' < 5
        && (Weight(work) < Weight(todo) || (Weight(work) == Weight(todo) && fencedInARow' > fencedInARow))
    {
      TurnShrinks(IsoNow(todo, heldFrom, snap, base, fencedInARow, commit), warehouse.store, io, limit,
                  config.skipUnknown);
      KeepAllShrinks(todo, io.owned);
      DropBuffered(io.revoked);
      work := KeepAll(todo, io.owned);
      var part := work[0];
      work, heldFrom', snap', fencedInARow', commit', fault := work[1..], heldFrom, snap, fencedInARow, commit, None;
      if part != [] {
        work, heldFrom', snap', fencedInARow', commit', fault :=
          SettlePart(work, part, heldFrom, snap, fencedInARow, commit, io, limit, base);
      }
    }

    /** Isolation by bisection, turn by turn. It always ends, and ends exactly as `Run` says. */
    method Isolate(batch: seq<Record>, snapshot: Snapshot, env: nat -> Io)
        returns (commit: Offsets, heldFrom: Offsets, fault: Option<Fault>)
      modifies this`buffer, this`held, this`quarantined, warehouse
      ensures
        var limit := QuarantineLimit(config, |batch|);
        var e := Run(Start(batch, old(buffer), snapshot), old(warehouse.store), env, 0, limit, config.skipUnknown);
        && commit == e.iso.commit && heldFrom == e.iso.held && fault == e.fault
        && buffer == e.iso.buffer
        && quarantined == old(quarantined) + e.iso.quarantined
        && warehouse.store == e.store
    {
      var limit := QuarantineLimit(config, |batch|);
      var base := |quarantined|;
      ghost var e := Run(Start(batch, buffer, snapshot), warehouse.store, env, 0, limit, config.skipUnknown);
      var snap := snapshot;
      var work := [batch];
      var fencedInARow, n := 0, 0;
      commit, heldFrom, fault := map[], map[], None;
      assert IsoNow(work, heldFrom, snap, base, fencedInARow, commit) == Start(batch, buffer, snapshot);
      while work != [] && fault == None
        invariant base <= |quarantined| && quarantined[..base] == old(quarantined)
        invariant fault == None ==> fencedInARow < 5
        invariant fault == None ==>
          Run(IsoNow(work, heldFrom, snap, base, fencedInARow, commit), warehouse.store, env, n, limit,
              config.skipUnknown)
          == e
        invariant fault != None ==>
          e == End(IsoNow(work, heldFrom, snap, base, fencedInARow, commit), warehouse.store, fault)
        decreases fault == None, Weight(work), if fault == None then 5 - fencedInARow else 0
      {
        work, heldFrom, snap, fencedInARow, commit, fault :=
          TakeTurn(work, heldFrom, snap, fencedInARow, commit, env(n), limit, base);
        n := n + 1;
      }
      assert quarantined == quarantined[..base] + quarantined[base..];
    }

    function StatusNow(commit: Offsets): Status
      reads this
    {
      Status(buffer, held, quarantineTripped, quarantined, commit)
    }

    /** One attempt of the retry loop. */
    method TryOnce(a: Attempt, commit: Offsets) returns (commit': Offsets, ending: Ending)
      modifies this, warehouse
      ensures
        var step := OneAttempt(old(StatusNow(commit)), old(warehouse.store), a, config);
        StatusNow(commit') == step.status && warehouse.store == step.store && ending == step.ending
    {
      commit', ending := commit, Again;
      var batch := buffer;
      var answer, plan := Process(batch, a.snap, map[], a.verdict);
      match answer {
        case Ok =>
          RemoveProcessed(batch, plan.held);
          held := plan.held.Keys * a.assignment;
          commit' := Merge(commit, plan.next);
          quarantineTripped := false;
          ending := Finished;
        case Fatal =>
          ending := Dead;
        case Data =>
          if quarantineTripped {
            DropBuffered(a.revoked);
          } else {
            commit', ending := IsolateBuffer(a, commit);
          }
        case _ =>
          DropBuffered(a.revoked);
      }
    }

    /** The part of an attempt that deals with a rejected batch. */
    method IsolateBuffer(a: Attempt, commit: Offsets) returns (commit': Offsets, ending: Ending)
      requires !quarantineTripped
      modifies this, warehouse
      ensures
        var step := IsolateAttempt(old(StatusNow(commit)), old(warehouse.store), a, config);
        StatusNow(commit') == step.status && warehouse.store == step.store && ending == step.ending
    {
      commit', ending := commit, Again;
      var isolated, heldFrom, fault := Isolate(buffer, a.isolationSnap, a.isolation);
      held := heldFrom.Keys * a.assignment;
      if fault == None {
        commit' := Merge(commit, isolated);
      } else if fault == Some(Failed(Fatal)) {
        ending := Dead;
      } else {
        if fault == Some(LimitReached) { quarantineTripped := true; }
        DropBuffered(a.revoked);
      }
    }

    /** Process the buffer until it settles, isolating rejected batches unless the breaker is open. */
    method ProcessWithRetry(env: nat -> Attempt, stop: nat) returns (commit: Offsets, ending: Ending)
      modifies this, warehouse
      ensures
        var end := Retry(old(StatusNow(map[])), old(warehouse.store), env, 0, stop, config);
        StatusNow(commit) == end.status && warehouse.store == end.store && ending == end.ending
    {
      ghost var end := Retry(StatusNow(map[]), warehouse.store, env, 0, stop, config);
      commit, ending := map[], Again;
      var n := 0;
      while n < stop && buffer != [] && ending == Again
        invariant n <= stop
        invariant ending == Again ==> Retry(StatusNow(commit), warehouse.store, env, n, stop, config) == end
        invariant ending != Again ==>
                StatusNow(commit) == end.status && warehouse.store == end.store && ending == end.ending
        decreases stop - n
      {
        commit, ending := TryOnce(env(n), commit);
        n := n + 1;
      }
    }
  }
}
