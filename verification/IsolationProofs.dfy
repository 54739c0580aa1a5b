/** What isolation guarantees: it loses nothing, never passes a hold, applies in order, and under an
    honest warehouse quarantines exactly the bad records. */
module IsolationProofs {
  import opened Routing
  import opened Batches
  import opened Isolation

  function Flat(work: seq<seq<Record>>): seq<Record>
    decreases |work|
  {
    if work == [] then [] else work[0] + Flat(work[1..])
  }

  lemma FlatCons(part: seq<Record>, rest: seq<seq<Record>>)
    ensures Flat([part] + rest) == part + Flat(rest)
  {
    assert ([part] + rest)[1..] == rest;
  }

  lemma OneFlat(part: seq<Record>)
    ensures Flat([part]) == part
  {
    FlatCons(part, []);
    assert [part] + [] == [part] && part + Flat([]) == part;
  }

  lemma FlatHalves(part: seq<Record>, mid: nat, rest: seq<seq<Record>>)
    requires mid <= |part|
    ensures Flat([part[..mid], part[mid..]] + rest) == part + Flat(rest)
  {
    assert [part[..mid], part[mid..]] + rest == [part[..mid]] + ([part[mid..]] + rest);
    FlatCons(part[..mid], [part[mid..]] + rest);
    FlatCons(part[mid..], rest);
    assert part[..mid] + (part[mid..] + Flat(rest)) == part + Flat(rest);
  }

  // ---- Nothing is lost ----

  /** Everything below a stored offset is settled. */
  ghost predicate StoreSafe(s: Store) { Covers(Settled(s), s.offsets) }

  ghost predicate IsoSafe(iso: Iso, done: set<Id>) {
    && Safe(Without(Flat(iso.work), iso.held.Keys), done)
    && Covers(done, iso.held)
    && Safe(iso.buffer, done)
  }

  lemma {:induction false} KeepIsWithout(rs: seq<Record>, owned: set<Partition>, gone: set<Partition>)
    requires forall r | r in rs :: r.tp in gone <==> r.tp !in owned
    ensures Keep(rs, owned) == Without(rs, gone)
    decreases |rs|
  {
    if rs == [] {
    } else {
      KeepIsWithout(rs[1..], owned, gone);
    }
  }

  lemma {:induction false} KeepAppend(a: seq<Record>, b: seq<Record>, owned: set<Partition>)
    ensures Keep(a + b, owned) == Keep(a, owned) + Keep(b, owned)
    decreases |a|
  {
    if a == [] { assert a + b == b; }
    else {
      assert (a + b)[1..] == a[1..] + b;
      KeepAppend(a[1..], b, owned);
    }
  }

  lemma {:induction false} FlatKeep(work: seq<seq<Record>>, owned: set<Partition>)
    ensures Flat(KeepAll(work, owned)) == Keep(Flat(work), owned)
    decreases |work|
  {
    if work == [] {
    } else {
      FlatKeep(work[1..], owned);
      FlatCons(Keep(work[0], owned), KeepAll(work[1..], owned));
      KeepAppend(work[0], Flat(work[1..]), owned);
    }
  }

  /** A rebalance in the keep-alive poll leaves work and buffer safe. */
  lemma KeepAliveSafe(iso: Iso, io: Io, done: set<Id>)
    requires IsoSafe(iso, done)
    ensures IsoSafe(KeepAlive(iso, io), done)
  {
    var rs := Flat(iso.work);
    var gone := (set i | 0 <= i < |rs| :: rs[i].tp) - io.owned;
    FlatKeep(iso.work, io.owned);
    KeepIsWithout(rs, io.owned, gone);
    WithoutTwice(rs, gone, iso.held.Keys);
    WithoutTwice(rs, iso.held.Keys, gone);
    assert gone + iso.held.Keys == iso.held.Keys + gone;
    SafeWithout(Without(rs, iso.held.Keys), done, gone, done);
    SafeWithout(iso.buffer, done, io.revoked, done);
  }

  lemma AfterSettles(s: Store, p: Plan, v: Verdict)
    ensures Settled(s) <= Settled(After(s, p, v))
    ensures v == Ok || v == Transient(true) ==>
      Settled(After(s, p, v)) == Settled(s) + TakenIds(p) && After(s, p, v).offsets == Merge(s.offsets, p.next)
    ensures v != Ok && v != Transient(true) ==> After(s, p, v).offsets == s.offsets
  {
    if v.Unpublished? { IdsAppend(s.letters, Chosen(p.letters, v.sent)); }
    IdsAppend(s.letters, p.letters);
    IdsAppend(s.applied, p.writes);
    IdsAppend(s.skipped, p.skips);
    IdsAppend(s.ignored, p.ignored);
  }

  lemma AfterSafe(s: Store, p: Plan, v: Verdict)
    requires StoreSafe(s) && Covers(Settled(s) + TakenIds(p), p.next)
    ensures StoreSafe(After(s, p, v))
  {
    AfterSettles(s, p, v);
  }

  lemma {:induction false} MinusIds(rs: seq<Record>, gone: set<Record>, done: set<Id>)
    requires forall r | r in gone && r in rs :: IdOf(r) in done
    ensures Ids(rs) <= done + Ids(Minus(rs, gone))
    decreases |rs|
  {
    if rs == [] {
    } else {
      MinusIds(rs[1..], gone, done);
      assert rs == [rs[0]] + rs[1..];
      IdsCons(rs[0], rs[1..]);
      if rs[0] !in gone { IdsCons(rs[0], Minus(rs[1..], gone)); }
    }
  }

  /** The buffer after a settled part: what was removed is settled. */
  lemma BufferSafe(buffer: seq<Record>, part: seq<Record>, q: Plan, done: set<Id>, done': set<Id>)
    requires Safe(buffer, done) && done <= done' && TakenIds(q) <= done' && Covers(done', q.held)
    requires forall r | r in part && r.tp !in q.held :: IdOf(r) in TakenIds(q)
    ensures Safe(Minus(buffer, Processed(part, q.held)), done')
    ensures Ids(buffer) <= done' + Ids(Minus(buffer, Processed(part, q.held)))
  {
    forall r | r in Processed(part, q.held) ensures IdOf(r) in done' {
      if r.tp in q.held { assert IdOf(r) in Below(r.tp, q.held[r.tp]); }
    }
    SafeMinus(buffer, Processed(part, q.held), done, done');
    MinusIds(buffer, Processed(part, q.held), done');
  }

  /** A part at the front of safe work: its plan may be committed, and the rest of the work stays safe
      once it is. */
  lemma PartIsSafe(iso: Iso, part: seq<Record>, done: set<Id>, skipUnknown: bool, q: Plan)
    requires Safe(Without(part + Flat(iso.work), iso.held.Keys), done) && Covers(done, iso.held)
    requires q == PlanOf(part, iso.snap, iso.held, skipUnknown)
    ensures Ready(q, Flat(iso.work), done)
    ensures forall r | r in part && r.tp !in q.held :: IdOf(r) in TakenIds(q)
  {
    assert TakenIds(Empty(iso.held)) == {};
    assert done + {} == done;
    PlanIsSafe(Empty(iso.held), part, Flat(iso.work), iso.snap, skipUnknown, done, q);
  }

  /** A single record the warehouse rejects can be quarantined: nothing before it is unsettled. */
  lemma QuarantineSafe(iso: Iso, r: Record, s: Store, skipUnknown: bool, v: Verdict)
    requires StoreSafe(s) && Safe(Without([r] + Flat(iso.work), iso.held.Keys), Settled(s))
    requires Covers(Settled(s), iso.held) && Safe(iso.buffer, Settled(s))
    requires PlanOf([r], iso.snap, iso.held, skipUnknown).next != map[]
    ensures
      var s' := After(s, QuarantinePlan(r), v);
      && StoreSafe(s') && Settled(s) <= Settled(s')
      && Safe(iso.buffer, Settled(s'))
      && (v == Ok ==>
            && IsoSafe(iso.(buffer := Minus(iso.buffer, {r})), Settled(s'))
            && Ids(iso.buffer) <= Settled(s') + Ids(Minus(iso.buffer, {r})))
  {
    var q := QuarantinePlan(r);
    var tail := Without(Flat(iso.work), iso.held.Keys);
    AloneIsNext(iso, r, Settled(s), skipUnknown);
    assert IdOf(r) in TakenIds(q) by { assert q.letters[0] == r; }
    assert Below(r.tp, r.offset + 1) <= Below(r.tp, r.offset) + {IdOf(r)};
    AfterSettles(s, q, v);
    AfterSafe(s, q, v);
    SafeMore(iso.buffer, Settled(s), Settled(After(s, q, v)));
    if v == Ok {
      SafeMore(tail, Settled(s) + {IdOf(r)}, Settled(After(s, q, v)));
      SafeMinus(iso.buffer, {r}, Settled(s), Settled(After(s, q, v)));
      MinusIds(iso.buffer, {r}, Settled(After(s, q, v)));
    }
  }

  /** A single record a pass would take is not held, and everything before it is settled. */
  lemma AloneIsNext(iso: Iso, r: Record, done: set<Id>, skipUnknown: bool)
    requires Safe(Without([r] + Flat(iso.work), iso.held.Keys), done)
    requires PlanOf([r], iso.snap, iso.held, skipUnknown).next != map[]
    ensures r.tp !in iso.held && Below(r.tp, r.offset) <= done
    ensures Safe(Without(Flat(iso.work), iso.held.Keys), done + {IdOf(r)})
  {
    PlanSnoc(Empty(iso.held), [], r, iso.snap, skipUnknown);
    assert [] + [r] == [r];
    assert r.tp !in iso.held;
    var tail := Without(Flat(iso.work), iso.held.Keys);
    assert ([r] + Flat(iso.work))[1..] == Flat(iso.work);
    assert Without([r] + Flat(iso.work), iso.held.Keys) == [r] + tail && ([r] + tail)[1..] == tail;
  }

  /** No loss in one turn, for any answer of the warehouse and any rebalance: everything below a stored
      offset is settled, and so is everything before a record still buffered or still to be worked on. */
  lemma TurnSafe(iso: Iso, s: Store, io: Io, limit: nat, skipUnknown: bool, t: Turn)
    requires iso.work != [] && StoreSafe(s) && IsoSafe(iso, Settled(s))
    requires t == OneTurn(iso, s, io, limit, skipUnknown)
    ensures StoreSafe(t.store) && Settled(s) <= Settled(t.store)
    ensures Safe(t.iso.buffer, Settled(t.store))
    ensures Ids(Without(iso.buffer, io.revoked)) <= Settled(t.store) + Ids(t.iso.buffer)
    ensures t.Running? ==> IsoSafe(t.iso, Settled(t.store))
  {
    KeepAliveSafe(iso, io, Settled(s));
    KeepAllShrinks(iso.work, io.owned);
    var alive := KeepAlive(iso, io);
    var part := alive.work[0];
    var rest := alive.(work := alive.work[1..]);
    assert Flat(alive.work) == part + Flat(rest.work);
    if part == [] {
      assert part + Flat(rest.work) == Flat(rest.work);
    } else {
      SettleSafe(rest, part, s, io, limit, skipUnknown, t);
    }
  }

  /** A part the warehouse has answered, whatever the answer: nothing is lost, and after a commit the rest
      of the work may go on from the part's holds. */
  lemma AnsweredSafe(iso: Iso, part: seq<Record>, s: Store, skipUnknown: bool, q: Plan, v: Verdict)
    requires StoreSafe(s) && Safe(Without(part + Flat(iso.work), iso.held.Keys), Settled(s))
    requires Covers(Settled(s), iso.held) && Safe(iso.buffer, Settled(s))
    requires q == PlanOf(part, iso.snap, iso.held, skipUnknown)
    ensures
      var s' := After(s, q, v);
      var left := Minus(iso.buffer, Processed(part, q.held));
      && StoreSafe(s') && Settled(s) <= Settled(s') && Safe(iso.buffer, Settled(s'))
      && Safe(Without(part + Flat(iso.work), iso.held.Keys), Settled(s'))
      && (v == Ok ==>
            && IsoSafe(iso.(held := q.held, buffer := left), Settled(s'))
            && Ids(iso.buffer) <= Settled(s') + Ids(left))
  {
    var done, done' := Settled(s), Settled(After(s, q, v));
    PartIsSafe(iso, part, done, skipUnknown, q);
    AfterSettles(s, q, v);
    AfterSafe(s, q, v);
    SafeMore(iso.buffer, done, done');
    SafeMore(Without(part + Flat(iso.work), iso.held.Keys), done, done');
    if v == Ok { BufferSafe(iso.buffer, part, q, done, done'); }
  }

  lemma SettleSafe(iso: Iso, part: seq<Record>, s: Store, io: Io, limit: nat, skipUnknown: bool, t: Turn)
    requires part != [] && StoreSafe(s)
    requires Safe(Without(part + Flat(iso.work), iso.held.Keys), Settled(s))
    requires Covers(Settled(s), iso.held) && Safe(iso.buffer, Settled(s))
    requires t == Settle(iso, part, s, io, limit, skipUnknown)
    ensures StoreSafe(t.store) && Settled(s) <= Settled(t.store)
    ensures Safe(t.iso.buffer, Settled(t.store))
    ensures Ids(iso.buffer) <= Settled(t.store) + Ids(t.iso.buffer)
    ensures t.Running? ==> IsoSafe(t.iso, Settled(t.store))
  {
    var q := PlanOf(part, iso.snap, iso.held, skipUnknown);
    var v := Answer(q, io.verdict(part));
    var s' := After(s, q, v);
    AnsweredSafe(iso, part, s, skipUnknown, q, v);
    if v == Fenced {
      FlatCons(part, iso.work);
    } else if v == Data {
      RefusedSafe(iso, part, s', io, limit, skipUnknown, t);
    }
  }

  /** A part the warehouse rejects: bisected, quarantined if it is a single record, or the end. */
  lemma RefusedSafe(iso: Iso, part: seq<Record>, s': Store, io: Io, limit: nat, skipUnknown: bool, t: Turn)
    requires part != [] && StoreSafe(s') && PlanOf(part, iso.snap, iso.held, skipUnknown).next != map[]
    requires Safe(Without(part + Flat(iso.work), iso.held.Keys), Settled(s'))
    requires Covers(Settled(s'), iso.held) && Safe(iso.buffer, Settled(s'))
    requires t == Refused(iso, part, s', io, limit)
    ensures StoreSafe(t.store) && Settled(s') <= Settled(t.store)
    ensures Safe(t.iso.buffer, Settled(t.store))
    ensures Ids(iso.buffer) <= Settled(t.store) + Ids(t.iso.buffer)
    ensures t.Running? ==> IsoSafe(t.iso, Settled(t.store))
  {
    if |part| > 1 {
      FlatHalves(part, |part| / 2, iso.work);
    } else if |iso.quarantined| < limit {
      assert part == [part[0]];
      QuarantineSafe(iso, part[0], s', skipUnknown, io.quarantine(part[0]));
    }
  }

  /** No loss over a whole isolation, however it ends. */
  lemma {:induction false} RunSafe(iso: Iso, s: Store, env: nat -> Io, n: nat, limit: nat, skipUnknown: bool)
    requires iso.fenced < 5 && StoreSafe(s) && IsoSafe(iso, Settled(s))
    ensures
      var e := Run(iso, s, env, n, limit, skipUnknown);
      StoreSafe(e.store) && Settled(s) <= Settled(e.store) && Safe(e.iso.buffer, Settled(e.store))
    decreases Weight(iso.work), 5 - iso.fenced
  {
    if iso.work == [] {
    } else {
      var t := OneTurn(iso, s, env(n), limit, skipUnknown);
      TurnShrinks(iso, s, env(n), limit, skipUnknown);
      TurnSafe(iso, s, env(n), limit, skipUnknown, t);
      if t.Running? {
        RunSafe(t.iso, t.store, env, n + 1, limit, skipUnknown);
      }
    }
  }

  lemma StartSafe(batch: seq<Record>, buffer: seq<Record>, snap: Snapshot, done: set<Id>)
    requires Safe(batch, done) && Safe(buffer, done)
    ensures IsoSafe(Start(batch, buffer, snap), done)
  {
    var iso := Start(batch, buffer, snap);
    OneFlat(batch);
    SafeWithout(batch, done, {}, done);
    assert iso.held.Keys == {};
  }

  /** One pass over a whole safe buffer, whatever the warehouse answers. */
  lemma PassSafe(buffer: seq<Record>, snap: Snapshot, skipUnknown: bool, s: Store, v: Verdict, plan: Plan)
    requires StoreSafe(s) && Safe(buffer, Settled(s)) && plan == PlanOf(buffer, snap, map[], skipUnknown)
    ensures
      var s' := After(s, plan, v);
      var left := Minus(buffer, Processed(buffer, plan.held));
      && StoreSafe(s') && Settled(s) <= Settled(s') && Safe(buffer, Settled(s'))
      && (v == Ok ==> Safe(left, Settled(s')) && Ids(buffer) <= Settled(s') + Ids(left))
  {
    var done := Settled(s);
    var iso := Start([], buffer, snap).(work := []);
    SafeWithout(buffer, done, {}, done);
    assert buffer + Flat(iso.work) == buffer && iso.held.Keys == {};
    PartIsSafe(iso, buffer, done, skipUnknown, plan);
    AfterSettles(s, plan, v);
    AfterSafe(s, plan, v);
    SafeMore(buffer, done, Settled(After(s, plan, v)));
    if v == Ok {
      BufferSafe(buffer, buffer, plan, done, Settled(After(s, plan, v)));
    }
  }
}
