/** One pass of the sink over a batch of records: what is written, dead-lettered, skipped or held, and
    how far each partition's offset may advance (SinkWorker.process). */
module Batches {
  import opened Routing

  datatype Partition = Partition(topic: string, index: int)

  /** What the envelope parser makes of a record's bytes. */
  datatype Parsed = Poison | Nothing | Change(sourceId: string, table: string)

  datatype Record = Record(tp: Partition, offset: nat, parsed: Parsed)

  type Id = (Partition, nat)
  type Offsets = map<Partition, nat>

  function IdOf(r: Record): Id { (r.tp, r.offset) }

  function Ids(rs: seq<Record>): set<Id> { set i | 0 <= i < |rs| :: IdOf(rs[i]) }

  /** All positions of a partition below an offset. */
  function Below(tp: Partition, bound: nat): set<Id> { set o | 0 <= o < bound :: (tp, o) }

  /** Dead letters and skips follow the configured policy for unregistered sources. */
  datatype Disposition = Write | Letter | Skip | Ignore | Hold

  function Dispose(r: Record, snap: Snapshot, skipUnknown: bool): Disposition {
    match r.parsed
    case Poison => Letter
    case Nothing => Ignore
    case Change(s, t) =>
      match snap.RouteOf(s, t).target
      case HOLD => Hold
      case PROD => Write
      case SHADOW => Write
      case SKIP => Skip
      case UNKNOWN_SOURCE => if skipUnknown then Skip else Letter
  }

  /** The lists one pass fills, its per-partition next offsets and its holds. */
  datatype Plan = Plan(
    writes: seq<Record>, letters: seq<Record>, skips: seq<Record>, ignored: seq<Record>,
    next: Offsets, held: Offsets)

  function Larger(a: nat, b: nat): nat { if a >= b then a else b }

  /** Map.merge with Math::max; also GREATEST in the warehouse's offset upsert. */
  function Raise(m: Offsets, tp: Partition, v: nat): Offsets {
    m[tp := if tp in m then Larger(m[tp], v) else v]
  }

  function Merge(m: Offsets, n: Offsets): Offsets {
    map tp | tp in m.Keys + n.Keys ::
      if tp !in m then n[tp] else if tp !in n then m[tp] else Larger(m[tp], n[tp])
  }

  function PlanOne(p: Plan, r: Record, snap: Snapshot, skipUnknown: bool): Plan {
    if r.tp in p.held then p else
    var next := Raise(p.next, r.tp, r.offset + 1);
    match Dispose(r, snap, skipUnknown)
    case Hold => p.(held := p.held[r.tp := r.offset])
    case Write => p.(writes := p.writes + [r], next := next)
    case Letter => p.(letters := p.letters + [r], next := next)
    case Skip => p.(skips := p.skips + [r], next := next)
    case Ignore => p.(ignored := p.ignored + [r], next := next)
  }

  function Empty(held: Offsets): Plan { Plan([], [], [], [], map[], held) }

  function PlanFrom(p: Plan, batch: seq<Record>, snap: Snapshot, skipUnknown: bool): Plan
    decreases |batch|
  {
    if batch == [] then p else PlanFrom(PlanOne(p, batch[0], snap, skipUnknown), batch[1..], snap, skipUnknown)
  }

  function PlanOf(batch: seq<Record>, snap: Snapshot, held: Offsets, skipUnknown: bool): Plan {
    PlanFrom(Empty(held), batch, snap, skipUnknown)
  }

  /** The records of a plan, each in exactly one list. */
  function Taken(p: Plan): seq<Record> { p.writes + p.letters + p.skips + p.ignored }

  function TakenIds(p: Plan): set<Id> { Ids(p.writes) + Ids(p.letters) + Ids(p.skips) + Ids(p.ignored) }

  // ---- Sequences of records whose predecessors are settled ----

  /** Every position before a record is already in `done` or is a record earlier in the sequence. */
  ghost predicate Safe(rs: seq<Record>, done: set<Id>)
    decreases |rs|
  {
    rs == [] || (Below(rs[0].tp, rs[0].offset) <= done && Safe(rs[1..], done + {IdOf(rs[0])}))
  }

  function Without(rs: seq<Record>, tps: set<Partition>): seq<Record>
    decreases |rs|
  {
    if rs == [] then []
    else if rs[0].tp in tps then Without(rs[1..], tps)
    else [rs[0]] + Without(rs[1..], tps)
  }

  /** `a` is included in `b`, positions of the partitions `tps` aside. */
  ghost predicate Within(a: set<Id>, b: set<Id>, tps: set<Partition>) {
    forall id | id in a && id.0 !in tps :: id in b
  }

  lemma IdsCons(r: Record, rs: seq<Record>)
    ensures Ids([r] + rs) == {IdOf(r)} + Ids(rs)
  {
    var all := [r] + rs;
    assert all[0] == r;
    forall i | 0 <= i < |rs| ensures IdOf(rs[i]) in Ids(all) { assert all[i + 1] == rs[i]; }
  }

  lemma IdsAppend(a: seq<Record>, b: seq<Record>)
    ensures Ids(a + b) == Ids(a) + Ids(b)
  {
    var all := a + b;
    forall i | 0 <= i < |a| ensures IdOf(a[i]) in Ids(all) { assert all[i] == a[i]; }
    forall i | 0 <= i < |b| ensures IdOf(b[i]) in Ids(all) { assert all[|a| + i] == b[i]; }
  }

  /** Dropping whole partitions from a safe sequence keeps the rest safe, also when the dropped
      partitions' positions are forgotten. */
  lemma {:induction false} SafeWithout(rs: seq<Record>, done: set<Id>, tps: set<Partition>, done': set<Id>)
    requires Safe(rs, done) && Within(done, done', tps)
    ensures Safe(Without(rs, tps), done')
    decreases |rs|
  {
    if rs == [] {
    } else {
      if rs[0].tp in tps {
        SafeWithout(rs[1..], done + {IdOf(rs[0])}, tps, done');
      } else {
        SafeWithout(rs[1..], done + {IdOf(rs[0])}, tps, done' + {IdOf(rs[0])});
        var rest := Without(rs[1..], tps);
        assert ([rs[0]] + rest)[1..] == rest;
      }
    }
  }

  lemma {:induction false} SafeMore(rs: seq<Record>, done: set<Id>, done': set<Id>)
    requires Safe(rs, done) && done <= done'
    ensures Safe(rs, done')
    decreases |rs|
  {
    if rs == [] {
    } else {
      SafeMore(rs[1..], done + {IdOf(rs[0])}, done' + {IdOf(rs[0])});
    }
  }

  lemma {:induction false} SafeSplit(a: seq<Record>, b: seq<Record>, done: set<Id>)
    ensures Safe(a + b, done) <==> Safe(a, done) && Safe(b, done + Ids(a))
    decreases |a|
  {
    if a == [] {
      assert a + b == b && done + Ids(a) == done;
    } else {
      assert (a + b)[1..] == a[1..] + b;
      SafeSplit(a[1..], b, done + {IdOf(a[0])});
      assert a == [a[0]] + a[1..];
      IdsCons(a[0], a[1..]);
      assert done + {IdOf(a[0])} + Ids(a[1..]) == done + Ids(a);
    }
  }

  /** Keeps the records of `rs` that are not in `gone`. */
  function Minus(rs: seq<Record>, gone: set<Record>): seq<Record>
    decreases |rs|
  {
    if rs == [] then []
    else if rs[0] in gone then Minus(rs[1..], gone)
    else [rs[0]] + Minus(rs[1..], gone)
  }

  /** Removing settled records from a safe sequence keeps it safe. */
  lemma {:induction false} SafeMinus(rs: seq<Record>, gone: set<Record>, done: set<Id>, done': set<Id>)
    requires Safe(rs, done) && done <= done'
    requires forall r | r in gone && r in rs :: IdOf(r) in done'
    ensures Safe(Minus(rs, gone), done')
    decreases |rs|
  {
    if rs == [] {
    } else {
      if rs[0] in gone {
        assert done + {IdOf(rs[0])} <= done';
        SafeMinus(rs[1..], gone, done + {IdOf(rs[0])}, done');
      } else {
        SafeMinus(rs[1..], gone, done + {IdOf(rs[0])}, done' + {IdOf(rs[0])});
        var rest := Minus(rs[1..], gone);
        assert ([rs[0]] + rest)[1..] == rest;
      }
    }
  }

  /** Every position below a map's offsets is settled. */
  ghost predicate Covers(done: set<Id>, m: Offsets) {
    forall tp | tp in m :: Below(tp, m[tp]) <= done
  }

  /** Halfway through a pass: once the plan's lists are settled, so is everything below its offsets and
      its holds, and what is still to come (held partitions aside) is safe. */
  ghost predicate Ready(p: Plan, rs: seq<Record>, done: set<Id>) {
    && Safe(Without(rs, p.held.Keys), done + TakenIds(p))
    && Covers(done + TakenIds(p), p.next)
    && Covers(done + TakenIds(p), p.held)
  }

  lemma OneIsSafe(p: Plan, r: Record, tail: seq<Record>, snap: Snapshot, skipUnknown: bool, done: set<Id>, p': Plan)
    requires Ready(p, [r] + tail, done) && p' == PlanOne(p, r, snap, skipUnknown)
    ensures Ready(p', tail, done)
    ensures p.held.Keys <= p'.held.Keys
    ensures r.tp !in p'.held ==> IdOf(r) in TakenIds(p')
    ensures TakenIds(p) <= TakenIds(p') <= TakenIds(p) + {IdOf(r)}
  {
    assert ([r] + tail)[1..] == tail;
    if r.tp !in p.held {
      var rest := Without(tail, p.held.Keys);
      assert Without([r] + tail, p.held.Keys) == [r] + rest && ([r] + rest)[1..] == rest;
      if Dispose(r, snap, skipUnknown) == Hold {
        HoldIsSafe(r, tail, p.held, done + TakenIds(p));
      } else {
        TakeIsSafe(p, p', r, done);
      }
    }
  }

  /** One pass over the head `batch` of a safe sequence keeps what follows safe and takes every record of
      the partitions it does not hold. */
  lemma {:induction false} PlanIsSafe(p: Plan, batch: seq<Record>, rest: seq<Record>, snap: Snapshot, skipUnknown: bool,
                                      done: set<Id>, q: Plan)
    requires Ready(p, batch + rest, done)
    requires q == PlanFrom(p, batch, snap, skipUnknown)
    ensures Ready(q, rest, done)
    ensures p.held.Keys <= q.held.Keys
    ensures forall r | r in batch && r.tp !in q.held :: IdOf(r) in TakenIds(q)
    ensures TakenIds(p) <= TakenIds(q) <= TakenIds(p) + Ids(batch)
    decreases |batch|
  {
    if batch == [] {
      assert batch + rest == rest;
    } else {
      var r := batch[0];
      var tail := batch[1..];
      assert batch + rest == [r] + (tail + rest);
      var p' := PlanOne(p, r, snap, skipUnknown);
      OneIsSafe(p, r, tail + rest, snap, skipUnknown, done, p');
      PlanIsSafe(p', tail, rest, snap, skipUnknown, done, q);
      assert batch == [r] + tail;
      IdsCons(r, tail);
    }
  }

  lemma HoldIsSafe(r: Record, tail: seq<Record>, held: Offsets, done: set<Id>)
    requires r.tp !in held && Covers(done, held)
    requires Below(r.tp, r.offset) <= done
    requires Safe(Without(tail, held.Keys), done + {IdOf(r)})
    ensures var held' := held[r.tp := r.offset]; Safe(Without(tail, held'.Keys), done) && Covers(done, held')
  {
    SafeWithout(Without(tail, held.Keys), done + {IdOf(r)}, {r.tp}, done);
    WithoutTwice(tail, held.Keys, {r.tp});
    assert held[r.tp := r.offset].Keys == held.Keys + {r.tp};
  }

  lemma {:induction false} WithoutTwice(rs: seq<Record>, a: set<Partition>, b: set<Partition>)
    ensures Without(Without(rs, a), b) == Without(rs, a + b)
    decreases |rs|
  {
    if rs == [] {
    } else {
      WithoutTwice(rs[1..], a, b);
      if rs[0].tp !in a {
        var rest := Without(rs[1..], a);
        assert ([rs[0]] + rest)[1..] == rest;
      }
    }
  }

  lemma TakeIsSafe(p: Plan, p': Plan, r: Record, done: set<Id>)
    requires p'.next == Raise(p.next, r.tp, r.offset + 1) && p'.held == p.held
    requires
      || p' == p.(writes := p.writes + [r], next := p'.next)
      || p' == p.(letters := p.letters + [r], next := p'.next)
      || p' == p.(skips := p.skips + [r], next := p'.next)
      || p' == p.(ignored := p.ignored + [r], next := p'.next)
    requires Covers(done + TakenIds(p), p.next) && Below(r.tp, r.offset) <= done + TakenIds(p)
    ensures TakenIds(p') == TakenIds(p) + {IdOf(r)}
    ensures done + TakenIds(p') == done + TakenIds(p) + {IdOf(r)}
    ensures Covers(done + TakenIds(p'), p'.next)
  {
    IdsAppend(p.writes, [r]);
    IdsAppend(p.letters, [r]);
    IdsAppend(p.skips, [r]);
    IdsAppend(p.ignored, [r]);
    assert Ids([r]) == {IdOf(r)} by { assert [r][0] == r; }
    assert Below(r.tp, r.offset + 1) <= Below(r.tp, r.offset) + {IdOf(r)};
  }

  // ---- What a pass means, without following it ----

  /** Partition `tp` is held once the first n records are seen. */
  ghost predicate Blocked(batch: seq<Record>, n: int, tp: Partition, snap: Snapshot, held: Offsets, skipUnknown: bool)
    requires 0 <= n <= |batch|
  {
    || tp in held
    || (n > 0 && batch[n - 1].tp == tp && Dispose(batch[n - 1], snap, skipUnknown) == Hold)
    || (n > 0 && Blocked(batch, n - 1, tp, snap, held, skipUnknown))
  }

  /** The pass takes record i: its partition was not held before, and no record of the partition up to
      and including i is on hold. */
  ghost predicate TakenAt(batch: seq<Record>, i: int, snap: Snapshot, held: Offsets, skipUnknown: bool) {
    0 <= i < |batch| && !Blocked(batch, i + 1, batch[i].tp, snap, held, skipUnknown)
  }

  /** Record i is the first of its partition found on hold. */
  ghost predicate FirstHold(batch: seq<Record>, i: int, snap: Snapshot, held: Offsets, skipUnknown: bool) {
    && 0 <= i < |batch|
    && Dispose(batch[i], snap, skipUnknown) == Hold
    && !Blocked(batch, i, batch[i].tp, snap, held, skipUnknown)
  }

  /** The taken records of one disposition, in batch order. */
  ghost function Pick(batch: seq<Record>, n: nat, snap: Snapshot, held: Offsets, skipUnknown: bool,
                      d: Disposition): seq<Record>
    requires n <= |batch|
  {
    if n == 0 then []
    else
      Pick(batch, n - 1, snap, held, skipUnknown, d)
      + (if TakenAt(batch, n - 1, snap, held, skipUnknown) && Dispose(batch[n - 1], snap, skipUnknown) == d
         then [batch[n - 1]] else [])
  }

  lemma {:induction false} PlanSnoc(p: Plan, batch: seq<Record>, r: Record, snap: Snapshot, skipUnknown: bool)
    ensures PlanFrom(p, batch + [r], snap, skipUnknown) ==
            PlanOne(PlanFrom(p, batch, snap, skipUnknown), r, snap, skipUnknown)
    decreases |batch|
  {
    if batch == [] {
      assert (batch + [r])[1..] == [];
    } else {
      assert (batch + [r])[1..] == batch[1..] + [r];
      PlanSnoc(PlanOne(p, batch[0], snap, skipUnknown), batch[1..], r, snap, skipUnknown);
    }
  }

  /** Each list holds the taken records of its kind, in order. */
  ghost predicate ListsMean(p: Plan, batch: seq<Record>, n: nat, snap: Snapshot, held: Offsets, skipUnknown: bool)
    requires n <= |batch|
  {
    && p.writes == Pick(batch, n, snap, held, skipUnknown, Write)
    && p.letters == Pick(batch, n, snap, held, skipUnknown, Letter)
    && p.skips == Pick(batch, n, snap, held, skipUnknown, Skip)
    && p.ignored == Pick(batch, n, snap, held, skipUnknown, Ignore)
  }

  /** A partition is held from its first record on hold, or as before. */
  ghost predicate HoldsMean(h: Offsets, batch: seq<Record>, n: nat, snap: Snapshot, held: Offsets, skipUnknown: bool)
    requires n <= |batch|
  {
    && (forall tp :: tp in h <==> Blocked(batch, n, tp, snap, held, skipUnknown))
    && (forall tp | tp in held :: h[tp] == held[tp])
    && (forall i | 0 <= i < n && FirstHold(batch, i, snap, held, skipUnknown) ::
          batch[i].tp in h && h[batch[i].tp] == batch[i].offset)
  }

  /** A partition's next offset is one past the largest record taken from it. */
  ghost predicate NextMeans(next: Offsets, batch: seq<Record>, n: nat, snap: Snapshot, held: Offsets, skipUnknown: bool)
    requires n <= |batch|
  {
    && (forall i | 0 <= i < n && TakenAt(batch, i, snap, held, skipUnknown) ::
          batch[i].tp in next && batch[i].offset < next[batch[i].tp])
    && (forall tp | tp in next ::
          exists i | 0 <= i < n ::
            TakenAt(batch, i, snap, held, skipUnknown) && batch[i].tp == tp && next[tp] == batch[i].offset + 1)
  }

  lemma HoldsStep(h: Offsets, batch: seq<Record>, n: nat, snap: Snapshot, held: Offsets, skipUnknown: bool)
    requires n < |batch| && HoldsMean(h, batch, n, snap, held, skipUnknown)
    ensures
      var r := batch[n];
      var h' := if r.tp !in h && Dispose(r, snap, skipUnknown) == Hold then h[r.tp := r.offset] else h;
      HoldsMean(h', batch, n + 1, snap, held, skipUnknown)
  {
  }

  lemma TakenStep(h: Offsets, batch: seq<Record>, n: nat, snap: Snapshot, held: Offsets, skipUnknown: bool)
    requires n < |batch| && HoldsMean(h, batch, n, snap, held, skipUnknown)
    ensures TakenAt(batch, n, snap, held, skipUnknown) <==>
      batch[n].tp !in h && Dispose(batch[n], snap, skipUnknown) != Hold
  {
  }

  lemma NextStep(next: Offsets, batch: seq<Record>, n: nat, snap: Snapshot, held: Offsets, skipUnknown: bool)
    requires n < |batch| && NextMeans(next, batch, n, snap, held, skipUnknown)
    ensures
      var r := batch[n];
      var next' := if TakenAt(batch, n, snap, held, skipUnknown) then Raise(next, r.tp, r.offset + 1) else next;
      NextMeans(next', batch, n + 1, snap, held, skipUnknown)
  {
  }

  lemma ListsStep(p: Plan, batch: seq<Record>, n: nat, snap: Snapshot, held: Offsets, skipUnknown: bool)
    requires n < |batch| && ListsMean(p, batch, n, snap, held, skipUnknown)
    requires TakenAt(batch, n, snap, held, skipUnknown) <==>
      batch[n].tp !in p.held && Dispose(batch[n], snap, skipUnknown) != Hold
    ensures ListsMean(PlanOne(p, batch[n], snap, skipUnknown), batch, n + 1, snap, held, skipUnknown)
  {
  }

  ghost predicate Means(p: Plan, batch: seq<Record>, n: nat, snap: Snapshot, held: Offsets, skipUnknown: bool)
    requires n <= |batch|
  {
    && ListsMean(p, batch, n, snap, held, skipUnknown)
    && HoldsMean(p.held, batch, n, snap, held, skipUnknown)
    && NextMeans(p.next, batch, n, snap, held, skipUnknown)
  }

  lemma MeansStep(p: Plan, batch: seq<Record>, n: nat, snap: Snapshot, held: Offsets, skipUnknown: bool)
    requires n < |batch| && Means(p, batch, n, snap, held, skipUnknown)
    ensures Means(PlanOne(p, batch[n], snap, skipUnknown), batch, n + 1, snap, held, skipUnknown)
  {
    TakenStep(p.held, batch, n, snap, held, skipUnknown);
    ListsStep(p, batch, n, snap, held, skipUnknown);
    HoldsStep(p.held, batch, n, snap, held, skipUnknown);
    NextStep(p.next, batch, n, snap, held, skipUnknown);
  }

  /** The pass over the first n records, stated record by record. */
  lemma {:induction false} PlanMeans(batch: seq<Record>, n: nat, snap: Snapshot, held: Offsets, skipUnknown: bool)
    requires n <= |batch|
    ensures Means(PlanOf(batch[..n], snap, held, skipUnknown), batch, n, snap, held, skipUnknown)
  {
    if n > 0 {
      var m := n - 1;
      PlanMeans(batch, m, snap, held, skipUnknown);
      assert batch[..n] == batch[..m] + [batch[m]];
      PlanSnoc(Empty(held), batch[..m], batch[m], snap, skipUnknown);
      MeansStep(PlanOf(batch[..m], snap, held, skipUnknown), batch, m, snap, held, skipUnknown);
    } else {
      NothingMeans(batch, snap, held, skipUnknown);
      assert batch[..0] == [];
    }
  }

  lemma NothingMeans(batch: seq<Record>, snap: Snapshot, held: Offsets, skipUnknown: bool)
    ensures Means(Empty(held), batch, 0, snap, held, skipUnknown)
  {
  }

  /** A partition's records come in strictly increasing offset order. */
  ghost predicate Ordered(rs: seq<Record>) {
    forall i, j | 0 <= i < j < |rs| && rs[i].tp == rs[j].tp :: rs[i].offset < rs[j].offset
  }

  lemma OrderedHead(rs: seq<Record>)
    requires Ordered(rs) && rs != []
    ensures Ordered(rs[1..]) && forall r | r in rs[1..] && r.tp == rs[0].tp :: rs[0].offset < r.offset
  {
    var rest := rs[1..];
    assert forall i | 0 <= i < |rest| :: rest[i] == rs[i + 1];
  }

  lemma OrderedCons(r: Record, rest: seq<Record>)
    requires Ordered(rest) && forall x | x in rest && x.tp == r.tp :: r.offset < x.offset
    ensures Ordered([r] + rest)
  {
    var all := [r] + rest;
    forall i, j | 0 <= i < j < |all| && all[i].tp == all[j].tp ensures all[i].offset < all[j].offset {
      assert all[j] == rest[j - 1] && rest[j - 1] in rest;
    }
  }

  /** No offset a pass would store goes beyond the record it holds the partition at. */
  ghost predicate Barrier(next: Offsets, held: Offsets) {
    forall tp | tp in next && tp in held :: next[tp] <= held[tp]
  }

  /** The offsets stored so far end before every record still to come. */
  ghost predicate Ahead(next: Offsets, rs: seq<Record>) {
    forall i | 0 <= i < |rs| && rs[i].tp in next :: next[rs[i].tp] <= rs[i].offset
  }

  /** The writes so far are in order and end before the offsets that cover them. */
  ghost predicate WritesInOrder(writes: seq<Record>, next: Offsets) {
    && Ordered(writes)
    && forall i | 0 <= i < |writes| :: writes[i].tp in next && writes[i].offset < next[writes[i].tp]
  }

  /** Halfway through a pass over an ordered batch. */
  ghost predicate Steady(p: Plan, rs: seq<Record>) {
    Ordered(rs) && Ahead(p.next, rs) && Barrier(p.next, p.held) && WritesInOrder(p.writes, p.next)
  }

  /** q continues p: what was held stays held, at the same record and with the same next offset. */
  ghost predicate HoldsOn(p: Plan, q: Plan) {
    forall tp | tp in p.held ::
      && tp in q.held && q.held[tp] == p.held[tp]
      && (tp in q.next ==> tp in p.next && q.next[tp] == p.next[tp])
  }

  lemma OneStopsAtHold(p: Plan, r: Record, rest: seq<Record>, snap: Snapshot, skipUnknown: bool, q: Plan)
    requires Steady(p, [r] + rest) && q == PlanOne(p, r, snap, skipUnknown)
    ensures Steady(q, rest) && HoldsOn(p, q)
  {
    TailOrdered(p.next, r, rest);
    if r.tp !in p.held && Dispose(r, snap, skipUnknown) != Hold { OneTakes(p.next, p.writes, r, rest); }
  }

  lemma OneTakes(next: Offsets, writes: seq<Record>, r: Record, rest: seq<Record>)
    requires WritesInOrder(writes, next) && Ahead(next, rest)
    requires r.tp in next ==> next[r.tp] <= r.offset
    requires forall i | 0 <= i < |rest| && rest[i].tp == r.tp :: r.offset < rest[i].offset
    ensures Ahead(Raise(next, r.tp, r.offset + 1), rest)
    ensures WritesInOrder(writes, Raise(next, r.tp, r.offset + 1))
    ensures WritesInOrder(writes + [r], Raise(next, r.tp, r.offset + 1))
  {
  }

  lemma TailOrdered(next: Offsets, r: Record, rest: seq<Record>)
    requires Ordered([r] + rest) && Ahead(next, [r] + rest)
    ensures Ordered(rest) && Ahead(next, rest)
    ensures r.tp in next ==> next[r.tp] <= r.offset
    ensures forall i | 0 <= i < |rest| && rest[i].tp == r.tp :: r.offset < rest[i].offset
  {
    var all := [r] + rest;
    assert all[0] == r;
    assert forall i | 0 <= i < |rest| :: rest[i] == all[i + 1];
  }

  /** A pass over an ordered batch, with `tail` still to come: the offsets it stores never pass a hold or
      a later record, and what it writes is in order. */
  lemma {:induction false} PassStopsAtHold(p: Plan, batch: seq<Record>, tail: seq<Record>, snap: Snapshot,
                                           skipUnknown: bool, q: Plan)
    requires Steady(p, batch + tail) && q == PlanFrom(p, batch, snap, skipUnknown)
    ensures Steady(q, tail) && HoldsOn(p, q)
    decreases |batch|
  {
    if batch == [] {
      assert batch + tail == tail;
    } else {
      assert batch + tail == [batch[0]] + (batch[1..] + tail);
      var p' := PlanOne(p, batch[0], snap, skipUnknown);
      OneStopsAtHold(p, batch[0], batch[1..] + tail, snap, skipUnknown, p');
      PassStopsAtHold(p', batch[1..], tail, snap, skipUnknown, q);
    }
  }

  /** Offsets that end before the records of a batch end before its holds. */
  lemma {:induction false} HoldsStayAhead(c: Offsets, p: Plan, batch: seq<Record>, snap: Snapshot, skipUnknown: bool,
                                          q: Plan)
    requires Barrier(c, p.held) && q == PlanFrom(p, batch, snap, skipUnknown)
    requires forall r | r in batch && r.tp in c && r.tp !in p.held :: c[r.tp] <= r.offset
    ensures Barrier(c, q.held)
    decreases |batch|
  {
    if batch == [] {
    } else {
      HoldsStayAhead(c, PlanOne(p, batch[0], snap, skipUnknown), batch[1..], snap, skipUnknown, q);
    }
  }
}
