/** What an isolation leaves on hold: exactly the partitions it leaves records of in the buffer. */
module IsolationHolds {
  import opened Options
  import opened Routing
  import opened Batches
  import opened Isolation
  import opened IsolationProofs
  import opened IsolationExact
  import opened PassMeaning
  import opened RetryReturns
  import opened Retrying

  /** Nothing of the partitions `tps` is revoked or disowned during the isolation. */
  ghost predicate Undivided(env: nat -> Io, tps: set<Partition>) {
    forall n: nat :: env(n).revoked == {} && tps <= env(n).owned
  }

  /** The buffer has all that is still to be worked on, and besides that only what waits at or behind a hold,
      the held record included. */
  ghost predicate Matches(buffer: seq<Record>, held: Offsets, work: seq<Record>) {
    && (forall r | r in work :: r in buffer)
    && (forall r | r in buffer :: r in work || (r.tp in held && held[r.tp] <= r.offset))
    && (forall tp | tp in held :: exists r :: r in buffer && r.tp == tp && r.offset == held[tp])
  }

  lemma Apart(part: seq<Record>, rest: seq<Record>)
    requires Ordered(part + rest)
    ensures forall r | r in rest :: r !in part
    ensures Ordered(rest)
  {
    var all := part + rest;
    forall i, j | 0 <= i < |part| && 0 <= j < |rest| ensures part[i] != rest[j] {
      assert all[i] == part[i] && all[|part| + j] == rest[j];
    }
    assert forall i | 0 <= i < |rest| :: rest[i] == all[|part| + i];
  }

  lemma PartMatches(buffer: seq<Record>, held: Offsets, part: seq<Record>, rest: seq<Record>, snap: Snapshot,
                    skipUnknown: bool)
    requires Ordered(part + rest) && Matches(buffer, held, part + rest)
    ensures var q := PlanOf(part, snap, held, skipUnknown);
            Matches(Minus(buffer, Processed(part, q.held)), q.held, rest)
  {
    var q := PlanOf(part, snap, held, skipUnknown);
    var left := Minus(buffer, Processed(part, q.held));
    PassMeans(part, snap, held, skipUnknown);
    Apart(part, rest);
    forall r ensures r in left <==> r in buffer && r !in Processed(part, q.held) {
      MinusHolds(buffer, Processed(part, q.held), r);
    }
    forall tp | tp in q.held ensures exists r :: r in left && r.tp == tp && r.offset == q.held[tp] {
      if tp in held {
        var r :| r in buffer && r.tp == tp && r.offset == held[tp];
        assert r in left;
      } else {
        var i: nat :| i < |part| && part[i].tp == tp && FirstPaused(part, i, snap) && q.held[tp] == part[i].offset;
        assert part[i] in part + rest && part[i] in left;
      }
    }
  }

  lemma BadMatches(buffer: seq<Record>, held: Offsets, r: Record, rest: seq<Record>)
    requires Ordered([r] + rest) && Matches(buffer, held, [r] + rest) && r.tp !in held
    ensures Matches(Minus(buffer, {r}), held, rest)
  {
    var left := Minus(buffer, {r});
    Apart([r], rest);
    assert r in [r];
    forall x ensures x in left <==> x in buffer && x != r { MinusHolds(buffer, {r}, x); }
    forall x | x in rest ensures x in left { assert x in [r] + rest; }
    forall tp | tp in held ensures exists x :: x in left && x.tp == tp && x.offset == held[tp] {
      var x :| x in buffer && x.tp == tp && x.offset == held[tp];
      assert x in left;
    }
  }

  lemma SettleMatches(iso: Iso, part: seq<Record>, s: Store, io: Io, limit: nat, skipUnknown: bool)
    requires part != [] && Ordered(part + Flat(iso.work)) && Matches(iso.buffer, iso.held, part + Flat(iso.work))
    ensures var t := Settle(iso, part, s, io, limit, skipUnknown);
            t.Running? ==>
              && Matches(t.iso.buffer, t.iso.held, Flat(t.iso.work)) && Ordered(Flat(t.iso.work))
              && forall r | r in Flat(t.iso.work) :: r in part + Flat(iso.work)
  {
    var q := PlanOf(part, iso.snap, iso.held, skipUnknown);
    var v := Answer(q, io.verdict(part));
    if v == Ok {
      PartMatches(iso.buffer, iso.held, part, Flat(iso.work), iso.snap, skipUnknown);
      Apart(part, Flat(iso.work));
    } else if v == Fenced {
      FlatCons(part, iso.work);
    } else if v == Data {
      RefusedMatches(iso, part, After(s, q, v), io, limit, skipUnknown);
    }
  }

  lemma RefusedMatches(iso: Iso, part: seq<Record>, s: Store, io: Io, limit: nat, skipUnknown: bool)
    requires part != [] && Ordered(part + Flat(iso.work)) && Matches(iso.buffer, iso.held, part + Flat(iso.work))
    requires PlanOf(part, iso.snap, iso.held, skipUnknown).next != map[]
    ensures var t := Refused(iso, part, s, io, limit);
            t.Running? ==>
              && Matches(t.iso.buffer, t.iso.held, Flat(t.iso.work)) && Ordered(Flat(t.iso.work))
              && forall r | r in Flat(t.iso.work) :: r in part + Flat(iso.work)
  {
    if |part| > 1 {
      FlatHalves(part, |part| / 2, iso.work);
    } else {
      assert part == [part[0]];
      PassMeans(part, iso.snap, iso.held, skipUnknown);
      var next := PlanOf(part, iso.snap, iso.held, skipUnknown).next;
      var tp :| tp in next;
      BadMatches(iso.buffer, iso.held, part[0], Flat(iso.work));
      Apart(part, Flat(iso.work));
    }
  }

  /** An isolation that comes to its end, with nothing revoked meanwhile: a partition is on hold exactly if
      records of it are still buffered, from the first of them on. */
  lemma {:induction false} RunHolds(iso: Iso, s: Store, env: nat -> Io, n: nat, limit: nat, skipUnknown: bool,
                                    tps: set<Partition>)
    requires iso.fenced < 5 && Undivided(env, tps) && (forall r | r in Flat(iso.work) :: r.tp in tps)
    requires Ordered(Flat(iso.work)) && Matches(iso.buffer, iso.held, Flat(iso.work))
    ensures var e := Run(iso, s, env, n, limit, skipUnknown);
            e.fault == None ==> Matches(e.iso.buffer, e.iso.held, [])
    decreases Weight(iso.work), 5 - iso.fenced
  {
    if iso.work == [] {
    } else {
      TurnShrinks(iso, s, env(n), limit, skipUnknown);
      KeepAllEverything(iso.work, env(n).owned);
      WithoutNothing(iso.buffer);
      assert KeepAlive(iso, env(n)) == iso;
      var part, rest := iso.work[0], iso.(work := iso.work[1..]);
      assert Flat(iso.work) == part + Flat(rest.work);
      var t := OneTurn(iso, s, env(n), limit, skipUnknown);
      if part == [] {
        assert part + Flat(rest.work) == Flat(rest.work);
      } else {
        SettleMatches(rest, part, s, env(n), limit, skipUnknown);
      }
      if t.Running? { RunHolds(t.iso, t.store, env, n + 1, limit, skipUnknown, tps); }
    }
  }

  /** After such an isolation the worker holds the assigned partitions it still has records of. */
  lemma IsolationReturnsHolds(w: Status, s: Store, a: Attempt, c: Config)
    requires Ordered(w.buffer) && Undivided(a.isolation, set r | r in w.buffer :: r.tp)
    requires Run(Start(w.buffer, w.buffer, a.isolationSnap), s, a.isolation, 0, QuarantineLimit(c, |w.buffer|),
                 c.skipUnknown).fault == None
    ensures var end := IsolateAttempt(w, s, a, c).status;
            forall tp :: tp in end.held <==> tp in a.assignment && exists r :: r in end.buffer && r.tp == tp
  {
    var start, limit := Start(w.buffer, w.buffer, a.isolationSnap), QuarantineLimit(c, |w.buffer|);
    OneFlat(w.buffer);
    RunHolds(start, s, a.isolation, 0, limit, c.skipUnknown, set r | r in w.buffer :: r.tp);
    HeldAreBuffered(w, Run(start, s, a.isolation, 0, limit, c.skipUnknown), a);
  }

  lemma HeldAreBuffered(w: Status, e: End, a: Attempt)
    requires e.fault == None && Matches(e.iso.buffer, e.iso.held, [])
    ensures var end := Isolated(w, e, a).status;
            forall tp :: tp in end.held <==> tp in a.assignment && exists r :: r in end.buffer && r.tp == tp
  {
  }
}
