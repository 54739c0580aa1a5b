/** Two ways a call of the retry loop goes against expectation: a commit whose reply is lost is written
    again, and a skip of a table that has an ownership row never gets through. */
module RetryOutcomes {
  import opened Routing
  import opened Batches
  import opened Isolation
  import opened IsolationExact
  import opened Retrying
  import opened Delivery

  // ---- Lost replies ----

  /** A pass over the buffer under this snapshot writes the record: no record of its partition up to it is
      on hold, and its table is KAFKA's. */
  ghost predicate Writes(buffer: seq<Record>, snap: Snapshot, skipUnknown: bool, r: Record) {
    exists i :: 0 <= i < |buffer| && buffer[i] == r && TakenAt(buffer, i, snap, map[], skipUnknown)
        && Dispose(r, snap, skipUnknown) == Write
  }

  lemma {:induction false} PickHolds(batch: seq<Record>, n: nat, snap: Snapshot, held: Offsets, skipUnknown: bool,
                                     d: Disposition, r: Record)
    requires n <= |batch|
    ensures r in Pick(batch, n, snap, held, skipUnknown, d) <==>
            exists i :: 0 <= i < n && batch[i] == r && TakenAt(batch, i, snap, held, skipUnknown)
                && Dispose(r, snap, skipUnknown) == d
  {
    if n == 0 {
    } else {
      PickHolds(batch, n - 1, snap, held, skipUnknown, d, r);
    }
  }

  lemma WritesIff(buffer: seq<Record>, snap: Snapshot, skipUnknown: bool, r: Record)
    ensures r in PlanOf(buffer, snap, map[], skipUnknown).writes <==> Writes(buffer, snap, skipUnknown, r)
  {
    PlanMeans(buffer, |buffer|, snap, map[], skipUnknown);
    assert buffer[..|buffer|] == buffer;
    PickHolds(buffer, |buffer|, snap, map[], skipUnknown, Write, r);
  }

  lemma {:induction false} OrderedHasEachOnce(rs: seq<Record>, r: Record)
    requires Ordered(rs)
    ensures multiset(rs)[r] == if r in rs then 1 else 0
    decreases |rs|
  {
    if rs == [] {
    } else {
      var rest := rs[1..];
      assert rs == [rs[0]] + rest;
      assert forall i | 0 <= i < |rest| :: rest[i] == rs[i + 1];
      OrderedHasEachOnce(rest, r);
      forall j | 0 <= j < |rest| ensures rest[j] != rs[0] { assert rs[j + 1] == rest[j]; }
    }
  }

  lemma WritesOrdered(buffer: seq<Record>, snap: Snapshot, skipUnknown: bool)
    requires Ordered(buffer)
    ensures Ordered(PlanOf(buffer, snap, map[], skipUnknown).writes)
  {
    assert buffer + [] == buffer;
    PassStopsAtHold(Empty(map[]), buffer, [], snap, skipUnknown, PlanOf(buffer, snap, map[], skipUnknown));
  }

  /** A call whose first attempt commits and loses the reply, and whose second gets through: what it
      applies is what the first pass wrote, then what the second writes of the buffer that is left. */
  lemma LostReplyThenOk(w: Status, s: Store, env: nat -> Attempt, n: nat, stop: nat, c: Config)
    requires n + 2 <= stop && env(n).verdict == Transient(true) && env(n + 1).verdict == Ok
    requires PlanOf(w.buffer, env(n).snap, map[], c.skipUnknown).next != map[]
    ensures
      Retry(w, s, env, n, stop, c).store.applied ==
        s.applied + PlanOf(w.buffer, env(n).snap, map[], c.skipUnknown).writes
        + PlanOf(Without(w.buffer, env(n).revoked), env(n + 1).snap, map[], c.skipUnknown).writes
  {
    var first := OneAttempt(w, s, env(n), c);
    assert first.status.buffer == Without(w.buffer, env(n).revoked) && first.ending == Again;
    assert Retry(w, s, env, n, stop, c) == Retry(first.status, first.store, env, n + 1, stop, c);
  }

  /** Exactly which records such a call applies twice: those of partitions still assigned that both passes
      write. All others it applies at most once. */
  lemma LostReplyRepeatsIff(w: Status, s: Store, env: nat -> Attempt, n: nat, stop: nat, c: Config, r: Record)
    requires n + 2 <= stop && env(n).verdict == Transient(true) && env(n + 1).verdict == Ok
    requires PlanOf(w.buffer, env(n).snap, map[], c.skipUnknown).next != map[] && Ordered(w.buffer)
    ensures
      var all := Retry(w, s, env, n, stop, c).store.applied;
      && s.applied <= all
      && var added := all[|s.applied|..];
      && multiset(added)[r] <= 2
      && (multiset(added)[r] == 2 <==>
            && Writes(w.buffer, env(n).snap, c.skipUnknown, r)
            && Writes(Without(w.buffer, env(n).revoked), env(n + 1).snap, c.skipUnknown, r))
  {
    LostReplyThenOk(w, s, env, n, stop, c);
    var left := Without(w.buffer, env(n).revoked);
    WithoutOrdered(w.buffer, env(n).revoked);
    TwoPassesRepeatIff(w.buffer, env(n).snap, left, env(n + 1).snap, c.skipUnknown, r);
    AfterPrefix(s.applied, PlanOf(w.buffer, env(n).snap, map[], c.skipUnknown).writes,
                PlanOf(left, env(n + 1).snap, map[], c.skipUnknown).writes, Retry(w, s, env, n, stop, c).store.applied);
  }

  lemma AfterPrefix(a: seq<Record>, b: seq<Record>, d: seq<Record>, all: seq<Record>)
    requires all == a + b + d
    ensures a <= all && all[|a|..] == b + d
  {
  }

  lemma TwoPassesRepeatIff(one: seq<Record>, snap1: Snapshot, two: seq<Record>, snap2: Snapshot, skipUnknown: bool,
                           r: Record)
    requires Ordered(one) && Ordered(two)
    ensures
      var first, second := PlanOf(one, snap1, map[], skipUnknown).writes, PlanOf(two, snap2, map[], skipUnknown).writes;
      var added := multiset(first + second);
      added[r] <= 2 && (added[r] == 2 <==> Writes(one, snap1, skipUnknown, r) && Writes(two, snap2, skipUnknown, r))
  {
    WritesOrdered(one, snap1, skipUnknown);
    WritesOrdered(two, snap2, skipUnknown);
    OrderedHasEachOnce(PlanOf(one, snap1, map[], skipUnknown).writes, r);
    OrderedHasEachOnce(PlanOf(two, snap2, map[], skipUnknown).writes, r);
    WritesIff(one, snap1, skipUnknown, r);
    WritesIff(two, snap2, skipUnknown, r);
  }

  lemma {:induction false} WithoutOrdered(rs: seq<Record>, tps: set<Partition>)
    requires Ordered(rs)
    ensures Ordered(Without(rs, tps)) && forall r | r in Without(rs, tps) :: r in rs
    decreases |rs|
  {
    if rs == [] {
    } else {
      OrderedHead(rs);
      WithoutOrdered(rs[1..], tps);
      OrderedCons(rs[0], Without(rs[1..], tps));
      assert rs == [rs[0]] + rs[1..];
    }
  }

  /** With nothing revoked and ownership unchanged the whole batch is applied twice. */
  lemma LostReplyAppliesTwice(w: Status, s: Store, env: nat -> Attempt, n: nat, stop: nat, c: Config)
    requires n + 2 <= stop && env(n).verdict == Transient(true) && env(n + 1).verdict == Ok
    requires env(n).revoked == {} && env(n + 1).snap == env(n).snap
    requires PlanOf(w.buffer, env(n).snap, map[], c.skipUnknown).writes != []
    ensures
      var writes := PlanOf(w.buffer, env(n).snap, map[], c.skipUnknown).writes;
      var end := Retry(w, s, env, n, stop, c);
      end.ending == Finished && end.store.applied == s.applied + writes + writes && !Ordered(writes + writes)
  {
    var writes := PlanOf(w.buffer, env(n).snap, map[], c.skipUnknown).writes;
    WithoutNothing(w.buffer);
    WritesGiveOffsets(Empty(map[]), w.buffer, env(n).snap, c.skipUnknown);
    LostReplyThenOk(w, s, env, n, stop, c);
    var twice := writes + writes;
    assert twice[0] == writes[0] && twice[|writes|] == writes[0];
    var first := OneAttempt(w, s, env(n), c);
    assert Retry(w, s, env, n, stop, c) == Retry(first.status, first.store, env, n + 1, stop, c);
  }

  lemma {:induction false} WritesGiveOffsets(p: Plan, batch: seq<Record>, snap: Snapshot, skipUnknown: bool)
    requires p.writes != [] ==> p.next != map[]
    ensures var q := PlanFrom(p, batch, snap, skipUnknown); q.writes != [] ==> q.next != map[]
    decreases |batch|
  {
    if batch == [] {
    } else {
      var q := PlanOne(p, batch[0], snap, skipUnknown);
      assert batch[0].tp in q.next || q.next == p.next;
      WritesGiveOffsets(q, batch[1..], snap, skipUnknown);
    }
  }

  // ---- Skips that never pass ----

  /** The pass skips a record of a table that has an ownership row. */
  ghost predicate SkipsOwned(m: Meta, p: Plan, snap: Snapshot) {
    exists r :: r in p.skips && OwnedSkip(m, snap, r)
  }

  /** The record is routed to SKIP and its table has an ownership row. */
  ghost predicate OwnedSkip(m: Meta, snap: Snapshot, r: Record) {
    && r.parsed.Change?
    && snap.RouteOf(r.parsed.sourceId, r.parsed.table).target == SKIP
    && (r.parsed.sourceId, r.parsed.table) in m.rows
  }

  /** Under such ownership the warehouse cannot commit the pass. */
  lemma OwnedSkipBlocks(m: Meta, p: Plan, snap: Snapshot, v: Verdict)
    requires ValidMeta(m) && snap.Filtered() && SkipsOwned(m, p, snap) && Legitimate(m, p, snap, v)
    ensures v != Ok && v != Transient(true)
  {
    var r :| r in p.skips && OwnedSkip(m, snap, r);
    SkipPassesIff(m, snap, r.parsed.sourceId, r.parsed.table);
  }

  /** Each pass of the call, under the ownership of its moment, skips a record of a table that has a row. */
  ghost predicate AlwaysSkipsOwned(w: Status, s: Store, env: nat -> Attempt, metas: nat -> Meta, n: nat, stop: nat,
                                   c: Config)
    decreases stop - n
  {
    n < stop && w.buffer != [] ==>
      var plan := PlanOf(w.buffer, env(n).snap, map[], c.skipUnknown);
      && ValidMeta(metas(n)) && env(n).snap.Filtered()
      && SkipsOwned(metas(n), plan, env(n).snap)
      && Legitimate(metas(n), plan, env(n).snap, Answer(plan, env(n).verdict))
      && var step := OneAttempt(w, s, env(n), c);
         step.ending == Again ==> AlwaysSkipsOwned(step.status, step.store, env, metas, n + 1, stop, c)
  }

  /** Such a call never finishes, however often ownership is refreshed: it goes on until shutdown, an empty
      buffer or a fatal error. */
  lemma {:induction false} OwnedSkipNeverFinishes(w: Status, s: Store, env: nat -> Attempt, metas: nat -> Meta, n: nat,
                                                  stop: nat, c: Config)
    requires AlwaysSkipsOwned(w, s, env, metas, n, stop, c)
    ensures Retry(w, s, env, n, stop, c).ending != Finished
    decreases stop - n
  {
    if n < stop && w.buffer != [] {
      var plan := PlanOf(w.buffer, env(n).snap, map[], c.skipUnknown);
      OwnedSkipBlocks(metas(n), plan, env(n).snap, Answer(plan, env(n).verdict));
      IsolationNeverFinishes(w, After(s, plan, Answer(plan, env(n).verdict)), env(n), c);
      var step := OneAttempt(w, s, env(n), c);
      if step.ending == Again { OwnedSkipNeverFinishes(step.status, step.store, env, metas, n + 1, stop, c); }
    }
  }

  lemma IsolationNeverFinishes(w: Status, s: Store, a: Attempt, c: Config)
    ensures IsolateAttempt(w, s, a, c).ending != Finished
  {
  }

  /** A pass that reaches a record of a table with an ownership row, routed to SKIP: its partition has no
      record on hold up to it. */
  ghost predicate ReachesSkip(buffer: seq<Record>, snap: Snapshot, skipUnknown: bool, r: Record) {
    && r in buffer && r.parsed.Change? && snap.RouteOf(r.parsed.sourceId, r.parsed.table).target == SKIP
    && forall x | x in buffer && x.tp == r.tp :: Dispose(x, snap, skipUnknown) != Hold
  }

  lemma {:induction false} NoHoldNotBlocked(batch: seq<Record>, n: nat, tp: Partition, snap: Snapshot,
                                            skipUnknown: bool)
    requires n <= |batch| && forall x | x in batch && x.tp == tp :: Dispose(x, snap, skipUnknown) != Hold
    ensures !Blocked(batch, n, tp, snap, map[], skipUnknown)
  {
    if n == 0 {
    } else {
      assert batch[n - 1] in batch;
      NoHoldNotBlocked(batch, n - 1, tp, snap, skipUnknown);
    }
  }

  lemma ReachedIsSkipped(buffer: seq<Record>, snap: Snapshot, skipUnknown: bool, r: Record)
    requires ReachesSkip(buffer, snap, skipUnknown, r)
    ensures r in PlanOf(buffer, snap, map[], skipUnknown).skips
  {
    var i :| 0 <= i < |buffer| && buffer[i] == r;
    NoHoldNotBlocked(buffer, i + 1, r.tp, snap, skipUnknown);
    PlanMeans(buffer, |buffer|, snap, map[], skipUnknown);
    assert buffer[..|buffer|] == buffer;
    PickHolds(buffer, |buffer|, snap, map[], skipUnknown, Skip, r);
  }

  lemma {:induction false} WithoutHolds(rs: seq<Record>, tps: set<Partition>, r: Record)
    ensures r in Without(rs, tps) <==> r in rs && r.tp !in tps
    decreases |rs|
  {
    if rs == [] {
    } else {
      assert rs == [rs[0]] + rs[1..];
      WithoutHolds(rs[1..], tps, r);
    }
  }

  /** The buffer at attempt i of a call that neither finishes nor isolates. */
  function BufferAt(buffer: seq<Record>, env: nat -> Attempt, n: nat, i: nat): seq<Record>
    decreases i - n
  {
    if n >= i then buffer else BufferAt(Without(buffer, env(n).revoked), env, n + 1, i)
  }

  /** Attempt i meets a table with an ownership row, a snapshot that routes it to SKIP with nothing of the
      record's partition on hold, no revocation of it, and an answer the warehouse can give. */
  ghost predicate Meets(w: Status, env: nat -> Attempt, n: nat, i: nat, m: Meta, c: Config, r: Record) {
    && ValidMeta(m) && r.parsed.Change? && (r.parsed.sourceId, r.parsed.table) in m.rows
    && env(i).snap.Filtered() && ReachesSkip(w.buffer, env(i).snap, c.skipUnknown, r)
    && r.tp !in env(i).revoked && (env(i).verdict == Data ==> w.tripped)
    && var plan := PlanOf(BufferAt(w.buffer, env, n, i), env(i).snap, map[], c.skipUnknown);
       Legitimate(m, plan, env(i).snap, Answer(plan, env(i).verdict))
  }

  lemma MeetsLater(w: Status, env: nat -> Attempt, n: nat, i: nat, m: Meta, c: Config, r: Record, w': Status)
    requires Meets(w, env, n, i, m, c, r) && n < i && r.tp !in env(n).revoked
    requires w'.buffer == Without(w.buffer, env(n).revoked) && w'.tripped == w.tripped
    ensures Meets(w', env, n + 1, i, m, c, r)
  {
    WithoutHolds(w.buffer, env(n).revoked, r);
    forall x | x in w'.buffer ensures x in w.buffer { WithoutHolds(w.buffer, env(n).revoked, x); }
  }

  /** The same from what is known before the call: a buffered record of a table that has an ownership row,
      in a source the snapshots know, keeps a call from finishing, as long as its partition is neither
      revoked nor on hold and nothing is isolated. */
  lemma {:induction false} BufferedSkipNeverFinishes(w: Status, s: Store, env: nat -> Attempt, metas: nat -> Meta,
                                                     n: nat, stop: nat, c: Config, r: Record)
    requires forall i | n <= i < stop :: Meets(w, env, n, i, metas(i), c, r)
    ensures Retry(w, s, env, n, stop, c).ending != Finished
    decreases stop - n
  {
    if n >= stop || w.buffer == [] {
    } else {
      assert Meets(w, env, n, n, metas(n), c, r);
      var plan := PlanOf(w.buffer, env(n).snap, map[], c.skipUnknown);
      ReachedIsSkipped(w.buffer, env(n).snap, c.skipUnknown, r);
      OwnedSkipBlocks(metas(n), plan, env(n).snap, Answer(plan, env(n).verdict));
      var step := OneAttempt(w, s, env(n), c);
      if step.ending == Again {
        forall i | n + 1 <= i < stop ensures Meets(step.status, env, n + 1, i, metas(i), c, r) {
          MeetsLater(w, env, n, i, metas(i), c, r, step.status);
        }
        BufferedSkipNeverFinishes(step.status, step.store, env, metas, n + 1, stop, c, r);
      }
    }
  }
}
