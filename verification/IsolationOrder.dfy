/** Isolation never passes a hold and applies each partition's records at most once, in offset order. */
module IsolationOrder {
  import opened Routing
  import opened Batches
  import opened Isolation
  import opened IsolationProofs

  /** The offsets returned so far end before every record still to be worked on. */
  ghost predicate Fronts(commit: Offsets, held: Offsets, rs: seq<Record>) {
    forall r | r in rs && r.tp in commit && r.tp !in held :: commit[r.tp] <= r.offset
  }

  /** Halfway through an isolation that has applied the records `applied`, in this order. */
  ghost predicate InOrder(iso: Iso, applied: seq<Record>) {
    && Ordered(Flat(iso.work))
    && Barrier(iso.commit, iso.held)
    && Fronts(iso.commit, iso.held, Flat(iso.work))
    && WritesInOrder(applied, iso.commit)
  }

  lemma {:induction false} KeepOrdered(rs: seq<Record>, owned: set<Partition>)
    requires Ordered(rs)
    ensures Ordered(Keep(rs, owned))
    ensures forall r | r in Keep(rs, owned) :: r in rs
    decreases |rs|
  {
    if rs == [] {
    } else {
      OrderedHead(rs);
      KeepOrdered(rs[1..], owned);
      OrderedCons(rs[0], Keep(rs[1..], owned));
      assert rs == [rs[0]] + rs[1..];
    }
  }

  lemma KeepAliveInOrder(iso: Iso, io: Io, applied: seq<Record>)
    requires InOrder(iso, applied)
    ensures InOrder(KeepAlive(iso, io), applied)
  {
    FlatKeep(iso.work, io.owned);
    KeepOrdered(Flat(iso.work), io.owned);
  }

  lemma AppendInOrder(applied: seq<Record>, commit: Offsets, writes: seq<Record>, next: Offsets)
    requires WritesInOrder(applied, commit) && WritesInOrder(writes, next)
    requires forall r | r in writes && r.tp in commit :: commit[r.tp] <= r.offset
    ensures WritesInOrder(applied + writes, Merge(commit, next))
  {
    var all := applied + writes;
    forall i, j | 0 <= i < j < |all| && all[i].tp == all[j].tp ensures all[i].offset < all[j].offset {
      if i < |applied| <= j {
        assert all[j] == writes[j - |applied|] && all[j] in writes;
      }
    }
  }

  lemma {:induction false} WritesComeFrom(p: Plan, batch: seq<Record>, snap: Snapshot, skipUnknown: bool, q: Plan)
    requires q == PlanFrom(p, batch, snap, skipUnknown)
    ensures forall r | r in q.writes :: r in p.writes || (r in batch && r.tp !in p.held)
    decreases |batch|
  {
    if batch == [] {
    } else {
      WritesComeFrom(PlanOne(p, batch[0], snap, skipUnknown), batch[1..], snap, skipUnknown, q);
    }
  }

  lemma OrderedSplit(a: seq<Record>, b: seq<Record>)
    requires Ordered(a + b)
    ensures Ordered(a) && Ordered(b)
    ensures forall r, r' | r in a && r' in b && r.tp == r'.tp :: r.offset < r'.offset
  {
    var all := a + b;
    assert forall i | 0 <= i < |a| :: all[i] == a[i];
    assert forall i | 0 <= i < |b| :: all[|a| + i] == b[i];
  }

  /** A part of the work committed in one transaction extends the applied records in order. */
  lemma CommitInOrder(iso: Iso, part: seq<Record>, skipUnknown: bool, applied: seq<Record>, q: Plan)
    requires Ordered(part + Flat(iso.work)) && Barrier(iso.commit, iso.held)
    requires Fronts(iso.commit, iso.held, part + Flat(iso.work)) && WritesInOrder(applied, iso.commit)
    requires q == PlanOf(part, iso.snap, iso.held, skipUnknown)
    ensures WritesInOrder(applied + q.writes, Merge(iso.commit, q.next))
    ensures Barrier(Merge(iso.commit, q.next), q.held) && Barrier(q.next, q.held)
    ensures Fronts(Merge(iso.commit, q.next), q.held, Flat(iso.work))
    ensures HoldsOn(Empty(iso.held), q)
  {
    PassStopsAtHold(Empty(iso.held), part, Flat(iso.work), iso.snap, skipUnknown, q);
    assert forall r | r in part :: r in part + Flat(iso.work);
    assert forall r | r in Flat(iso.work) :: r in part + Flat(iso.work);
    HoldsStayAhead(iso.commit, Empty(iso.held), part, iso.snap, skipUnknown, q);
    WritesComeFrom(Empty(iso.held), part, iso.snap, skipUnknown, q);
    AppendInOrder(applied, iso.commit, q.writes, q.next);
  }

  lemma QuarantineInOrder(iso: Iso, r: Record, skipUnknown: bool, applied: seq<Record>)
    requires Ordered([r] + Flat(iso.work)) && Barrier(iso.commit, iso.held) && r.tp !in iso.held
    requires Fronts(iso.commit, iso.held, [r] + Flat(iso.work)) && WritesInOrder(applied, iso.commit)
    ensures
      var next := QuarantinePlan(r).next;
      InOrder(iso.(commit := Merge(iso.commit, next)), applied)
  {
    OrderedSplit([r], Flat(iso.work));
    assert [r][0] == r;
    AppendInOrder(applied, iso.commit, [], QuarantinePlan(r).next);
    assert applied + [] == applied;
    assert forall x | x in Flat(iso.work) :: x in [r] + Flat(iso.work);
  }

  /** The records applied since the store was `s0`. */
  function New(s0: Store, s: Store): seq<Record>
    requires |s0.applied| <= |s.applied|
  {
    s.applied[|s0.applied|..]
  }

  /** An isolation under way since the store was `s0`: in order, and the stored offsets are the initial
      ones raised to what would be returned. */
  ghost predicate Going(s0: Store, iso: Iso, s: Store) {
    && s0.applied <= s.applied
    && InOrder(iso, New(s0, s))
    && s.offsets == Merge(s0.offsets, iso.commit)
  }

  /** No partition on hold has a stored offset beyond its hold, unless it already had it. */
  ghost predicate StoredBarrier(before: Offsets, held: Offsets, stored: Offsets) {
    forall tp | tp in held && tp in stored ::
      stored[tp] <= held[tp] || (tp in before && stored[tp] == before[tp])
  }

  /** What an isolation has guaranteed when it ends, also by an exception. */
  ghost predicate Ended(s0: Store, iso: Iso, s: Store) {
    && s0.applied <= s.applied
    && Ordered(New(s0, s))
    && Barrier(iso.commit, iso.held)
    && StoredBarrier(s0.offsets, iso.held, s.offsets)
  }

  lemma GoingEnds(s0: Store, iso: Iso, s: Store)
    requires Going(s0, iso, s)
    ensures Ended(s0, iso, s)
  {
  }

  lemma MergeAssociates(a: Offsets, b: Offsets, c: Offsets)
    ensures Merge(Merge(a, b), c) == Merge(a, Merge(b, c))
  {
  }

  /** Work whose front part has been taken out. */
  ghost predicate Facing(s0: Store, iso: Iso, part: seq<Record>, s: Store) {
    && s0.applied <= s.applied
    && Ordered(part + Flat(iso.work))
    && Barrier(iso.commit, iso.held)
    && Fronts(iso.commit, iso.held, part + Flat(iso.work))
    && WritesInOrder(New(s0, s), iso.commit)
    && s.offsets == Merge(s0.offsets, iso.commit)
  }

  lemma CommittedPart(s0: Store, iso: Iso, part: seq<Record>, s: Store, skipUnknown: bool, q: Plan, s': Store)
    requires Facing(s0, iso, part, s) && q == PlanOf(part, iso.snap, iso.held, skipUnknown)
    requires s' == Commit(Publish(s, q.letters), q)
    ensures Going(s0, iso.(held := q.held, commit := Merge(iso.commit, q.next)), s')
    ensures Ended(s0, iso, s')
  {
    CommitInOrder(iso, part, skipUnknown, New(s0, s), q);
    OrderedSplit(part, Flat(iso.work));
    MergeAssociates(s0.offsets, iso.commit, q.next);
    assert New(s0, s') == New(s0, s) + q.writes;
  }

  lemma QuarantinedPart(s0: Store, iso: Iso, r: Record, s: Store, skipUnknown: bool, w: Verdict)
    requires Facing(s0, iso, [r], s) && PlanOf([r], iso.snap, iso.held, skipUnknown).next != map[]
    ensures
      var s' := After(s, QuarantinePlan(r), w);
      && Ended(s0, iso, s')
      && (w == Ok ==> Going(s0, iso.(commit := Merge(iso.commit, QuarantinePlan(r).next)), s'))
  {
    PlanSnoc(Empty(iso.held), [], r, iso.snap, skipUnknown);
    assert [] + [r] == [r] && r.tp !in iso.held;
    QuarantineInOrder(iso, r, skipUnknown, New(s0, s));
    MergeAssociates(s0.offsets, iso.commit, QuarantinePlan(r).next);
    AfterSettles(s, QuarantinePlan(r), w);
    assert After(s, QuarantinePlan(r), w).applied == s.applied;
  }

  lemma SettleInOrder(s0: Store, iso: Iso, part: seq<Record>, s: Store, io: Io, limit: nat, skipUnknown: bool, t: Turn)
    requires part != [] && Facing(s0, iso, part, s) && |iso.quarantined| <= limit
    requires t == Settle(iso, part, s, io, limit, skipUnknown)
    ensures Ended(s0, t.iso, t.store) && |t.iso.quarantined| <= limit
    ensures t.Running? ==> Going(s0, t.iso, t.store)
    ensures t.Stopped? && io.verdict(part) != Transient(true) && io.quarantine(part[0]) != Transient(true) ==>
      Facing(s0, t.iso, part, t.store) && t.iso.held == iso.held && t.iso.work == iso.work
  {
    var q := PlanOf(part, iso.snap, iso.held, skipUnknown);
    var v := Answer(q, io.verdict(part));
    var s' := After(s, q, v);
    if v == Ok || v == Transient(true) {
      CommittedPart(s0, iso, part, s, skipUnknown, q, s');
    } else {
      assert Facing(s0, iso, part, s');
      if v == Fenced {
        FlatCons(part, iso.work);
      } else if v == Data && |part| > 1 {
        FlatHalves(part, |part| / 2, iso.work);
      } else if v == Data && |iso.quarantined| < limit {
        assert part == [part[0]];
        QuarantinedPart(s0, iso, part[0], s', skipUnknown, io.quarantine(part[0]));
      }
    }
  }

  lemma TurnInOrder(s0: Store, iso: Iso, s: Store, io: Io, limit: nat, skipUnknown: bool, t: Turn)
    requires iso.work != [] && Going(s0, iso, s) && |iso.quarantined| <= limit
    requires t == OneTurn(iso, s, io, limit, skipUnknown)
    ensures Ended(s0, t.iso, t.store) && |t.iso.quarantined| <= limit
    ensures t.Running? ==> Going(s0, t.iso, t.store)
  {
    KeepAliveInOrder(iso, io, New(s0, s));
    KeepAllShrinks(iso.work, io.owned);
    var alive := KeepAlive(iso, io);
    var part := alive.work[0];
    var rest := alive.(work := alive.work[1..]);
    assert Flat(alive.work) == part + Flat(rest.work);
    if part == [] {
      assert part + Flat(rest.work) == Flat(rest.work);
    } else {
      SettleInOrder(s0, rest, part, s, io, limit, skipUnknown, t);
    }
  }

  /** Hold barrier and order, for a whole isolation under any answers and rebalances: neither a returned
      nor a stored offset passes a partition's first record on hold, even though ownership is re-read
      between turns; each partition's records are applied at most once, in offset order; and at most
      `limit` records are quarantined. */
  lemma {:induction false} RunInOrder(s0: Store, iso: Iso, s: Store, env: nat -> Io, n: nat, limit: nat,
                                      skipUnknown: bool)
    requires iso.fenced < 5 && |iso.quarantined| <= limit && Going(s0, iso, s)
    ensures
      var e := Run(iso, s, env, n, limit, skipUnknown);
      Ended(s0, e.iso, e.store) && |e.iso.quarantined| <= limit
    decreases Weight(iso.work), 5 - iso.fenced
  {
    if iso.work == [] {
      GoingEnds(s0, iso, s);
    } else {
      var t := OneTurn(iso, s, env(n), limit, skipUnknown);
      TurnShrinks(iso, s, env(n), limit, skipUnknown);
      TurnInOrder(s0, iso, s, env(n), limit, skipUnknown, t);
      if t.Running? {
        RunInOrder(s0, t.iso, t.store, env, n + 1, limit, skipUnknown);
      }
    }
  }

  lemma StartGoing(batch: seq<Record>, buffer: seq<Record>, snap: Snapshot, s: Store)
    requires Ordered(batch)
    ensures Going(s, Start(batch, buffer, snap), s)
  {
    FlatCons(batch, []);
    assert [batch] + [] == [batch] && batch + Flat([]) == batch;
    assert Merge(s.offsets, map[]) == s.offsets;
  }

  /** A whole isolation of an ordered batch: what it applies is in order and each record once, no offset it
      stores or returns passes a hold, and it quarantines at most the batch's limit. */
  lemma IsolationInOrder(batch: seq<Record>, buffer: seq<Record>, snap: Snapshot, s: Store, env: nat -> Io, c: Config)
    requires Ordered(batch)
    ensures
      var limit := QuarantineLimit(c, |batch|);
      var e := Run(Start(batch, buffer, snap), s, env, 0, limit, c.skipUnknown);
      && s.applied <= e.store.applied && Ordered(New(s, e.store))
      && Barrier(e.iso.commit, e.iso.held) && StoredBarrier(s.offsets, e.iso.held, e.store.offsets)
      && |e.iso.quarantined| <= limit
  {
    StartGoing(batch, buffer, snap, s);
    RunInOrder(s, Start(batch, buffer, snap), s, env, 0, QuarantineLimit(c, |batch|), c.skipUnknown);
  }
}
