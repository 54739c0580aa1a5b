/** The commits a call of the retry loop makes, passes and isolated parts alike, and how often they apply a
    record: a repeat always follows a commit whose reply was lost. */
module RetryCommits {
  import opened Routing
  import opened Batches
  import opened Isolation
  import opened IsolationProofs
  import opened IsolationOrder
  import opened IsolationExact
  import opened Retrying
  import opened RetryOutcomes

  /** What one transaction wrote, and whether its reply was lost. */
  datatype Transaction = Transaction(writes: seq<Record>, lost: bool)

  function CommitOf(p: Plan, v: Verdict): seq<Transaction> {
    if v == Ok then [Transaction(p.writes, false)]
    else if v == Transient(true) then [Transaction(p.writes, true)]
    else []
  }

  function PartCommits(iso: Iso, part: seq<Record>, io: Io, skipUnknown: bool): seq<Transaction> {
    var plan := PlanOf(part, iso.snap, iso.held, skipUnknown);
    CommitOf(plan, Answer(plan, io.verdict(part)))
  }

  function TurnCommits(iso: Iso, io: Io, skipUnknown: bool): seq<Transaction>
    requires iso.work != []
  {
    KeepAllShrinks(iso.work, io.owned);
    var alive := KeepAlive(iso, io);
    if alive.work[0] == [] then [] else PartCommits(alive.(work := alive.work[1..]), alive.work[0], io, skipUnknown)
  }

  function RunCommits(iso: Iso, s: Store, env: nat -> Io, n: nat, limit: nat, skipUnknown: bool): seq<Transaction>
    requires iso.fenced < 5
    decreases Weight(iso.work), 5 - iso.fenced
  {
    if iso.work == [] then []
    else
      TurnShrinks(iso, s, env(n), limit, skipUnknown);
      var t := OneTurn(iso, s, env(n), limit, skipUnknown);
      TurnCommits(iso, env(n), skipUnknown)
      + if t.Running? then RunCommits(t.iso, t.store, env, n + 1, limit, skipUnknown) else []
  }

  function AttemptCommits(w: Status, s: Store, a: Attempt, c: Config): seq<Transaction> {
    var plan := PlanOf(w.buffer, a.snap, map[], c.skipUnknown);
    var v := Answer(plan, a.verdict);
    if v == Data && !w.tripped then
      RunCommits(Start(w.buffer, w.buffer, a.isolationSnap), After(s, plan, v), a.isolation, 0,
                 QuarantineLimit(c, |w.buffer|), c.skipUnknown)
    else CommitOf(plan, v)
  }

  /** The commits of a whole call, in order. */
  function CallCommits(w: Status, s: Store, env: nat -> Attempt, n: nat, stop: nat, c: Config): seq<Transaction>
    decreases stop - n
  {
    if n >= stop || w.buffer == [] then []
    else
      var step := OneAttempt(w, s, env(n), c);
      AttemptCommits(w, s, env(n), c)
      + if step.ending == Again then CallCommits(step.status, step.store, env, n + 1, stop, c) else []
  }

  // ---- What is applied ----

  function Written(cs: seq<Transaction>): seq<Record> {
    if cs == [] then [] else cs[0].writes + Written(cs[1..])
  }

  lemma {:induction false} WrittenBoth(a: seq<Transaction>, b: seq<Transaction>)
    ensures Written(a + b) == Written(a) + Written(b)
  {
    if a == [] {
      assert a + b == b;
    } else {
      assert (a + b)[1..] == a[1..] + b;
      WrittenBoth(a[1..], b);
    }
  }

  lemma CommitApplies(s: Store, p: Plan, v: Verdict)
    ensures After(s, p, v).applied == s.applied + Written(CommitOf(p, v))
  {
    assert p.writes + Written([]) == p.writes;
  }

  lemma PartApplies(iso: Iso, part: seq<Record>, s: Store, io: Io, limit: nat, skipUnknown: bool)
    requires part != []
    ensures Settle(iso, part, s, io, limit, skipUnknown).store.applied
         == s.applied + Written(PartCommits(iso, part, io, skipUnknown))
  {
    var plan := PlanOf(part, iso.snap, iso.held, skipUnknown);
    CommitApplies(s, plan, Answer(plan, io.verdict(part)));
  }

  lemma TurnApplies(iso: Iso, s: Store, io: Io, limit: nat, skipUnknown: bool)
    requires iso.work != []
    ensures OneTurn(iso, s, io, limit, skipUnknown).store.applied
         == s.applied + Written(TurnCommits(iso, io, skipUnknown))
  {
    KeepAllShrinks(iso.work, io.owned);
    var alive := KeepAlive(iso, io);
    if alive.work[0] == [] {
      assert s.applied + [] == s.applied;
    } else {
      PartApplies(alive.(work := alive.work[1..]), alive.work[0], s, io, limit, skipUnknown);
    }
  }

  lemma {:induction false} RunApplies(iso: Iso, s: Store, env: nat -> Io, n: nat, limit: nat, skipUnknown: bool)
    requires iso.fenced < 5
    ensures Run(iso, s, env, n, limit, skipUnknown).store.applied
         == s.applied + Written(RunCommits(iso, s, env, n, limit, skipUnknown))
    decreases Weight(iso.work), 5 - iso.fenced
  {
    if iso.work == [] {
      assert s.applied + [] == s.applied;
    } else {
      TurnShrinks(iso, s, env(n), limit, skipUnknown);
      TurnApplies(iso, s, env(n), limit, skipUnknown);
      var t := OneTurn(iso, s, env(n), limit, skipUnknown);
      if t.Running? { RunApplies(t.iso, t.store, env, n + 1, limit, skipUnknown); }
      var rest := if t.Running? then RunCommits(t.iso, t.store, env, n + 1, limit, skipUnknown) else [];
      AppliesOn(s.applied, TurnCommits(iso, env(n), skipUnknown), t.store.applied, rest);
    }
  }

  lemma AppliesOn(before: seq<Record>, a: seq<Transaction>, middle: seq<Record>, b: seq<Transaction>)
    requires middle == before + Written(a)
    ensures middle + Written(b) == before + Written(a + b)
  {
    WrittenBoth(a, b);
    Associate(before, Written(a), Written(b));
  }

  lemma AttemptApplies(w: Status, s: Store, a: Attempt, c: Config)
    ensures OneAttempt(w, s, a, c).store.applied == s.applied + Written(AttemptCommits(w, s, a, c))
  {
    var plan := PlanOf(w.buffer, a.snap, map[], c.skipUnknown);
    var v := Answer(plan, a.verdict);
    CommitApplies(s, plan, v);
    if v == Data && !w.tripped {
      RunApplies(Start(w.buffer, w.buffer, a.isolationSnap), After(s, plan, v), a.isolation, 0,
                 QuarantineLimit(c, |w.buffer|), c.skipUnknown);
    }
  }

  lemma {:induction false} RetryApplies(w: Status, s: Store, env: nat -> Attempt, n: nat, stop: nat, c: Config)
    ensures Retry(w, s, env, n, stop, c).store.applied == s.applied + Written(CallCommits(w, s, env, n, stop, c))
    decreases stop - n
  {
    if n >= stop || w.buffer == [] {
      assert s.applied + [] == s.applied;
    } else {
      AttemptApplies(w, s, env(n), c);
      var step := OneAttempt(w, s, env(n), c);
      var again := step.ending == Again;
      if again { RetryApplies(step.status, step.store, env, n + 1, stop, c); }
      var rest := if again then CallCommits(step.status, step.store, env, n + 1, stop, c) else [];
      AppliesOn(s.applied, AttemptCommits(w, s, env(n), c), step.store.applied, rest);
    }
  }

  // ---- How often ----

  /** How many of the commits write the record, and how many of those got their reply. */
  function Times(cs: seq<Transaction>, r: Record): nat {
    if cs == [] then 0 else (if r in cs[0].writes then 1 else 0) + Times(cs[1..], r)
  }

  function Replied(cs: seq<Transaction>, r: Record): nat {
    if cs == [] then 0 else (if r in cs[0].writes && !cs[0].lost then 1 else 0) + Replied(cs[1..], r)
  }

  ghost predicate EachOrdered(cs: seq<Transaction>) { forall x | x in cs :: Ordered(x.writes) }

  /** The commits write nothing but these records. */
  ghost predicate From(cs: seq<Transaction>, rs: seq<Record>) { forall x, r | x in cs && r in x.writes :: r in rs }

  /** Nothing a commit with a reply wrote is among these records. */
  ghost predicate Released(cs: seq<Transaction>, rs: seq<Record>) {
    forall x, r | x in cs && !x.lost && r in x.writes :: r !in rs
  }

  /** No commit writes what an earlier one wrote, unless that one's reply was lost. */
  ghost predicate Final(cs: seq<Transaction>) {
    forall i, j | 0 <= i < j < |cs| && !cs[i].lost :: forall r | r in cs[i].writes :: r !in cs[j].writes
  }

  ghost predicate Orderly(cs: seq<Transaction>, rs: seq<Record>) { EachOrdered(cs) && From(cs, rs) && Final(cs) }

  /** Commits over a buffer, then more over what it became. */
  lemma SoundOn(a: seq<Transaction>, rs: seq<Record>, b: seq<Transaction>, left: seq<Record>)
    requires Orderly(a, rs) && Orderly(b, left) && Released(a, left) && forall r | r in left :: r in rs
    ensures Orderly(a + b, rs)
  {
    var all := a + b;
    forall i, j, r | 0 <= i < j < |all| && !all[i].lost && r in all[i].writes ensures r !in all[j].writes {
      if i < |a| <= j {
        assert all[i] in a && all[j] in b;
        assert r !in left;
      } else if j < |a| {
        assert all[i] == a[i] && all[j] == a[j];
      } else {
        assert all[i] == b[i - |a|] && all[j] == b[j - |a|];
      }
    }
  }

  lemma ReleasedOn(a: seq<Transaction>, left: seq<Record>, b: seq<Transaction>, rest: seq<Record>)
    requires Released(a, left) && Released(b, rest) && forall r | r in rest :: r in left
    ensures Released(a + b, rest)
  {
  }

  // ---- One commit at a time ----

  /** What a pass writes is in its batch, and leaves the buffer with it. */
  lemma WritesLeave(part: seq<Record>, snap: Snapshot, held: Offsets, skipUnknown: bool, q: Plan)
    requires q == PlanOf(part, snap, held, skipUnknown) && Ordered(part)
    ensures Ordered(q.writes) && forall r | r in q.writes :: r in part && r in Processed(part, q.held)
  {
    assert part + [] == part;
    PassStopsAtHold(Empty(held), part, [], snap, skipUnknown, q);
    WritesComeFrom(Empty(held), part, snap, skipUnknown, q);
    forall r | r in q.writes ensures r in part && r in Processed(part, q.held) {
      var i :| 0 <= i < |q.writes| && q.writes[i] == r;
      assert r.offset < q.next[r.tp];
    }
  }

  lemma CommitSound(part: seq<Record>, snap: Snapshot, held: Offsets, skipUnknown: bool, v: Verdict)
    requires Ordered(part)
    ensures Orderly(CommitOf(PlanOf(part, snap, held, skipUnknown), v), part)
  {
    WritesLeave(part, snap, held, skipUnknown, PlanOf(part, snap, held, skipUnknown));
  }

  ghost predicate Sub(a: seq<Record>, b: seq<Record>) { forall r | r in a :: r in b }

  lemma {:induction false} MinusSub(rs: seq<Record>, gone: set<Record>)
    requires Ordered(rs)
    ensures Ordered(Minus(rs, gone)) && Sub(Minus(rs, gone), rs) && forall r | r in Minus(rs, gone) :: r !in gone
    decreases |rs|
  {
    if rs == [] {
    } else {
      OrderedHead(rs);
      MinusSub(rs[1..], gone);
      OrderedCons(rs[0], Minus(rs[1..], gone));
      assert rs == [rs[0]] + rs[1..];
    }
  }

  /** The part, the work behind it and the buffer of an isolation, in offset order. */
  ghost predicate Lined(iso: Iso, part: seq<Record>) { Ordered(part + Flat(iso.work)) && Ordered(iso.buffer) }

  /** What an isolation goes on with: no more than it had, in order, and nothing the commits released. */
  ghost predicate GoesOn(iso: Iso, part: seq<Record>, cs: seq<Transaction>, after: Iso) {
    && Ordered(Flat(after.work)) && Sub(Flat(after.work), part + Flat(iso.work)) && Released(cs, Flat(after.work))
  }

  ghost predicate Keeps(iso: Iso, cs: seq<Transaction>, after: Iso) {
    Ordered(after.buffer) && Sub(after.buffer, iso.buffer) && Released(cs, after.buffer)
  }

  lemma PartSound(iso: Iso, part: seq<Record>, s: Store, io: Io, limit: nat, skipUnknown: bool)
    requires part != [] && Lined(iso, part)
    ensures
      var t := Settle(iso, part, s, io, limit, skipUnknown);
      var cs := PartCommits(iso, part, io, skipUnknown);
      && Orderly(cs, part + Flat(iso.work)) && Keeps(iso, cs, t.iso)
      && (t.Running? ==> GoesOn(iso, part, cs, t.iso))
  {
    var q := PlanOf(part, iso.snap, iso.held, skipUnknown);
    var v := Answer(q, io.verdict(part));
    OrderedSplit(part, Flat(iso.work));
    CommitSound(part, iso.snap, iso.held, skipUnknown, v);
    if v == Ok {
      WritesLeave(part, iso.snap, iso.held, skipUnknown, q);
      MinusSub(iso.buffer, Processed(part, q.held));
    } else if v == Fenced {
      FlatCons(part, iso.work);
    } else if v == Data {
      RefusedSound(iso, part, After(s, q, v), io, limit);
    }
  }

  lemma RefusedSound(iso: Iso, part: seq<Record>, s: Store, io: Io, limit: nat)
    requires part != [] && Lined(iso, part)
    ensures var t := Refused(iso, part, s, io, limit);
            Keeps(iso, [], t.iso) && (t.Running? ==> GoesOn(iso, part, [], t.iso))
  {
    OrderedSplit(part, Flat(iso.work));
    if |part| > 1 {
      FlatHalves(part, |part| / 2, iso.work);
    } else {
      MinusSub(iso.buffer, {part[0]});
    }
  }

  lemma {:induction false} WithoutSub(rs: seq<Record>, tps: set<Partition>)
    requires Ordered(rs)
    ensures Ordered(Without(rs, tps)) && Sub(Without(rs, tps), rs)
  {
    WithoutOrdered(rs, tps);
  }

  lemma TurnSound(iso: Iso, s: Store, io: Io, limit: nat, skipUnknown: bool)
    requires iso.work != [] && Lined(iso, [])
    ensures
      var t := OneTurn(iso, s, io, limit, skipUnknown);
      var cs := TurnCommits(iso, io, skipUnknown);
      && Orderly(cs, Flat(iso.work)) && Keeps(iso, cs, t.iso)
      && (t.Running? ==> GoesOn(iso, [], cs, t.iso))
  {
    var alive := KeepAlive(iso, io);
    assert [] + Flat(iso.work) == Flat(iso.work);
    FlatKeep(iso.work, io.owned);
    KeepOrdered(Flat(iso.work), io.owned);
    WithoutSub(iso.buffer, io.revoked);
    KeepAllShrinks(iso.work, io.owned);
    var part, rest := alive.work[0], alive.(work := alive.work[1..]);
    assert Flat(alive.work) == part + Flat(rest.work);
    if part == [] {
      assert part + Flat(rest.work) == Flat(rest.work);
    } else {
      PartSound(rest, part, s, io, limit, skipUnknown);
    }
  }

  lemma {:induction false} RunSound(iso: Iso, s: Store, env: nat -> Io, n: nat, limit: nat, skipUnknown: bool)
    requires iso.fenced < 5 && Lined(iso, [])
    ensures
      var e := Run(iso, s, env, n, limit, skipUnknown);
      var cs := RunCommits(iso, s, env, n, limit, skipUnknown);
      Orderly(cs, Flat(iso.work)) && Keeps(iso, cs, e.iso)
    decreases Weight(iso.work), 5 - iso.fenced
  {
    assert [] + Flat(iso.work) == Flat(iso.work);
    if iso.work == [] {
    } else {
      TurnShrinks(iso, s, env(n), limit, skipUnknown);
      TurnSound(iso, s, env(n), limit, skipUnknown);
      var t := OneTurn(iso, s, env(n), limit, skipUnknown);
      var cs := TurnCommits(iso, env(n), skipUnknown);
      if t.Running? {
        assert [] + Flat(t.iso.work) == Flat(t.iso.work);
        RunSound(t.iso, t.store, env, n + 1, limit, skipUnknown);
        var more := RunCommits(t.iso, t.store, env, n + 1, limit, skipUnknown);
        SoundOn(cs, Flat(iso.work), more, Flat(t.iso.work));
        ReleasedOn(cs, t.iso.buffer, more, Run(t.iso, t.store, env, n + 1, limit, skipUnknown).iso.buffer);
      } else {
        assert cs + [] == cs;
      }
    }
  }

  ghost predicate StatusKeeps(w: Status, cs: seq<Transaction>, after: Status) {
    Ordered(after.buffer) && Sub(after.buffer, w.buffer) && Released(cs, after.buffer)
  }

  lemma AttemptSound(w: Status, s: Store, a: Attempt, c: Config)
    requires Ordered(w.buffer)
    ensures
      var step := OneAttempt(w, s, a, c);
      var cs := AttemptCommits(w, s, a, c);
      Orderly(cs, w.buffer) && (step.ending == Again ==> StatusKeeps(w, cs, step.status))
  {
    var plan := PlanOf(w.buffer, a.snap, map[], c.skipUnknown);
    var v := Answer(plan, a.verdict);
    CommitSound(w.buffer, a.snap, map[], c.skipUnknown, v);
    WithoutSub(w.buffer, a.revoked);
    if v == Data && !w.tripped { IsolationSound(w, After(s, plan, v), a, c); }
  }

  lemma IsolationSound(w: Status, s: Store, a: Attempt, c: Config)
    requires Ordered(w.buffer)
    ensures
      var start := Start(w.buffer, w.buffer, a.isolationSnap);
      var cs := RunCommits(start, s, a.isolation, 0, QuarantineLimit(c, |w.buffer|), c.skipUnknown);
      Orderly(cs, w.buffer) && StatusKeeps(w, cs, IsolateAttempt(w, s, a, c).status)
  {
    var start := Start(w.buffer, w.buffer, a.isolationSnap);
    var limit := QuarantineLimit(c, |w.buffer|);
    FlatCons(w.buffer, []);
    assert [w.buffer] + [] == [w.buffer] && w.buffer + Flat([]) == w.buffer && [] + w.buffer == w.buffer;
    RunSound(start, s, a.isolation, 0, limit, c.skipUnknown);
    EndSound(w, Run(start, s, a.isolation, 0, limit, c.skipUnknown), a,
             RunCommits(start, s, a.isolation, 0, limit, c.skipUnknown));
  }

  lemma EndSound(w: Status, e: End, a: Attempt, cs: seq<Transaction>)
    requires Ordered(e.iso.buffer) && Sub(e.iso.buffer, w.buffer) && Released(cs, e.iso.buffer)
    ensures StatusKeeps(w, cs, Isolated(w, e, a).status)
  {
    WithoutSub(e.iso.buffer, a.revoked);
  }

  lemma {:induction false} RetrySound(w: Status, s: Store, env: nat -> Attempt, n: nat, stop: nat, c: Config)
    requires Ordered(w.buffer)
    ensures Orderly(CallCommits(w, s, env, n, stop, c), w.buffer)
    decreases stop - n
  {
    if n >= stop || w.buffer == [] {
    } else {
      AttemptSound(w, s, env(n), c);
      var step := OneAttempt(w, s, env(n), c);
      var cs := AttemptCommits(w, s, env(n), c);
      if step.ending == Again {
        RetrySound(step.status, step.store, env, n + 1, stop, c);
        SoundOn(cs, w.buffer, CallCommits(step.status, step.store, env, n + 1, stop, c), step.status.buffer);
      } else {
        assert cs + [] == cs;
      }
    }
  }

  // ---- The condition ----

  lemma {:induction false} TimesCounts(cs: seq<Transaction>, r: Record)
    requires EachOrdered(cs)
    ensures multiset(Written(cs))[r] == Times(cs, r)
  {
    if cs == [] {
    } else {
      assert cs[0] in cs && forall x | x in cs[1..] :: x in cs;
      TimesCounts(cs[1..], r);
      OrderedHasEachOnce(cs[0].writes, r);
    }
  }

  lemma {:induction false} TimesIff(cs: seq<Transaction>, r: Record)
    ensures Times(cs, r) >= 1 <==> exists j :: 0 <= j < |cs| && r in cs[j].writes
    ensures Times(cs, r) >= 2 <==> exists i, j :: 0 <= i < j < |cs| && r in cs[i].writes && r in cs[j].writes
  {
    if cs == [] {
    } else {
      var rest := cs[1..];
      TimesIff(rest, r);
      assert forall j | 0 <= j < |rest| :: rest[j] == cs[j + 1];
      if Times(cs, r) >= 2 && r in cs[0].writes {
        var j :| 0 <= j < |rest| && r in rest[j].writes;
        assert r in cs[j + 1].writes;
      } else if Times(cs, r) >= 2 {
        var i, j :| 0 <= i < j < |rest| && r in rest[i].writes && r in rest[j].writes;
        assert r in cs[i + 1].writes && r in cs[j + 1].writes;
      }
      if Times(cs, r) == 1 && r !in cs[0].writes {
        var j :| 0 <= j < |rest| && r in rest[j].writes;
        assert r in cs[j + 1].writes;
      }
      if exists i, j :: 0 <= i < j < |cs| && r in cs[i].writes && r in cs[j].writes {
        var i, j :| 0 <= i < j < |cs| && r in cs[i].writes && r in cs[j].writes;
        assert r in rest[j - 1].writes;
        if i > 0 { assert r in rest[i - 1].writes; }
      }
    }
  }

  lemma {:induction false} RepliedAtMostOnce(cs: seq<Transaction>, r: Record)
    requires Final(cs)
    ensures Replied(cs, r) <= 1
    ensures Replied(cs, r) <= Times(cs, r)
  {
    if cs == [] {
    } else {
      var rest := cs[1..];
      assert forall j | 0 <= j < |rest| :: rest[j] == cs[j + 1];
      assert Final(rest);
      RepliedAtMostOnce(rest, r);
      if r in cs[0].writes && !cs[0].lost {
        TimesIff(rest, r);
      }
    }
  }

  /** For every outside world: a call applies a record as often as commits write it, passes and isolated
      parts, with or without a reply; at most one of these commits gets its reply; so the call applies the
      record more than once if and only if a commit that writes it loses its reply and a later one writes
      it again. */
  lemma RepeatsIff(w: Status, s: Store, env: nat -> Attempt, n: nat, stop: nat, c: Config, r: Record)
    requires Ordered(w.buffer)
    ensures
      var all := Retry(w, s, env, n, stop, c).store.applied;
      var cs := CallCommits(w, s, env, n, stop, c);
      && s.applied <= all
      && multiset(all[|s.applied|..])[r] == Times(cs, r)
      && Replied(cs, r) <= 1
      && (multiset(all[|s.applied|..])[r] > 1 <==>
            exists i, j :: 0 <= i < j < |cs| && cs[i].lost && r in cs[i].writes && r in cs[j].writes)
  {
    var cs := CallCommits(w, s, env, n, stop, c);
    RetryApplies(w, s, env, n, stop, c);
    RetrySound(w, s, env, n, stop, c);
    AfterPrefix(s.applied, Written(cs), [], Retry(w, s, env, n, stop, c).store.applied);
    assert Written(cs) + [] == Written(cs);
    TimesCounts(cs, r);
    TimesIff(cs, r);
    RepliedAtMostOnce(cs, r);
  }
}
