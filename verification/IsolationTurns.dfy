/** What one turn of an isolation may touch, and what ends it. */
module IsolationTurns {
  import opened Routing
  import opened Batches
  import opened Isolation
  import opened PassMeaning
  import opened Delivery
  import opened Session

  /** What a write of a plan adds to the store comes from these records. */
  ghost predicate AddsFrom(s: Store, s': Store, rs: seq<Record>) {
    && s.applied <= s'.applied && s.letters <= s'.letters && s.skipped <= s'.skipped
    && (forall k | |s.applied| <= k < |s'.applied| :: s'.applied[k] in rs)
    && (forall k | |s.letters| <= k < |s'.letters| :: s'.letters[k] in rs)
    && (forall k | |s.skipped| <= k < |s'.skipped| :: s'.skipped[k] in rs)
    && (forall tp | tp in s'.offsets && !(tp in s.offsets && s.offsets[tp] == s'.offsets[tp]) ::
          exists r :: r in rs && r.tp == tp)
  }

  lemma AfterAddsFrom(s: Store, part: seq<Record>, snap: Snapshot, held: Offsets, skipUnknown: bool, v: Verdict)
    ensures AddsFrom(s, After(s, PlanOf(part, snap, held, skipUnknown), v), part)
  {
    var p := PlanOf(part, snap, held, skipUnknown);
    var s' := After(s, p, v);
    PassMeans(part, snap, held, skipUnknown);
    if v.Unpublished? { ChosenAreThere(p.letters, v.sent); }
    ChosenAreThere(part, At(part, snap, held, r => Ours(snap, r)));
    ChosenAreThere(part, At(part, snap, held, r => Undeliverable(snap, r, skipUnknown)));
    ChosenAreThere(part, At(part, snap, held, r => Skippable(snap, r, skipUnknown)));
    forall k | |s.applied| <= k < |s'.applied| ensures s'.applied[k] in part { assert s'.applied[k] in p.writes; }
    forall k | |s.letters| <= k < |s'.letters| ensures s'.letters[k] in part { assert s'.letters[k] in p.letters; }
    forall k | |s.skipped| <= k < |s'.skipped| ensures s'.skipped[k] in part { assert s'.skipped[k] in p.skips; }
    forall tp | tp in s'.offsets && !(tp in s.offsets && s.offsets[tp] == s'.offsets[tp])
      ensures exists r :: r in part && r.tp == tp
    {
      var i: nat :| i < |part| && part[i].tp == tp;
      assert part[i] in part;
    }
  }

  lemma QuarantineAddsFrom(s: Store, r: Record, v: Verdict)
    ensures AddsFrom(s, After(s, QuarantinePlan(r), v), [r])
  {
    var s' := After(s, QuarantinePlan(r), v);
    if v.Unpublished? { ChosenAreThere([r], v.sent); }
    forall k | |s.letters| <= k < |s'.letters| ensures s'.letters[k] in [r] {}
    assert r in [r];
  }

  lemma AddsOn(s: Store, s1: Store, s2: Store, rs: seq<Record>)
    requires AddsFrom(s, s1, rs) && AddsFrom(s1, s2, rs)
    ensures AddsFrom(s, s2, rs)
  {
  }

  /** Whatever the warehouse answers, a turn applies, dead-letters, skips and stores offsets only for records
      of its part, and these are of partitions in the assignment it has just seen. */
  lemma TurnStaysWithin(iso: Iso, s: Store, io: Io, limit: nat, skipUnknown: bool) returns (part: seq<Record>)
    requires iso.work != []
    ensures AddsFrom(s, OneTurn(iso, s, io, limit, skipUnknown).store, part)
    ensures forall r | r in part :: r.tp in io.owned && r in iso.work[0]
  {
    KeepAllShrinks(iso.work, io.owned);
    part := PartOf(iso, io);
    forall r | r in part ensures r.tp in io.owned && r in iso.work[0] { KeepHolds(iso.work[0], io.owned, r); }
    var alive := KeepAlive(iso, io);
    if part != [] { SettleStaysWithin(alive.(work := alive.work[1..]), part, s, io, limit, skipUnknown); }
  }

  lemma SettleStaysWithin(iso: Iso, part: seq<Record>, s: Store, io: Io, limit: nat, skipUnknown: bool)
    requires part != []
    ensures AddsFrom(s, Settle(iso, part, s, io, limit, skipUnknown).store, part)
  {
    var v := Answer(PlanOf(part, iso.snap, iso.held, skipUnknown), io.verdict(part));
    var s' := After(s, PlanOf(part, iso.snap, iso.held, skipUnknown), v);
    AfterAddsFrom(s, part, iso.snap, iso.held, skipUnknown, v);
    if v == Data && |part| == 1 {
      assert part == [part[0]];
      QuarantineAddsFrom(s', part[0], io.quarantine(part[0]));
      AddsOn(s, s', After(s', QuarantinePlan(part[0]), io.quarantine(part[0])), part);
    }
  }

  /** When a turn ends the isolation, and how: by a fifth fence, by a bad record beyond the limit, or by the
      error the warehouse gave for the part or for the quarantine of its only record. */
  lemma TurnStopsIff(iso: Iso, s: Store, io: Io, limit: nat, skipUnknown: bool, fault: Fault)
    requires iso.work != []
    ensures
      var t, part := OneTurn(iso, s, io, limit, skipUnknown), PartOf(iso, io);
      var v := Answer(PlanOf(part, iso.snap, iso.held, skipUnknown), io.verdict(part));
      (t.Stopped? && t.fault == fault) <==>
        && part != []
        && match fault
           case FencedOut => v == Fenced && iso.fenced >= 4
           case LimitReached => v == Data && |part| == 1 && |iso.quarantined| >= limit
           case Failed(u) =>
             || (u == v && v !in {Ok, Fenced, Data})
             || (v == Data && |part| == 1 && |iso.quarantined| < limit && u == io.quarantine(part[0]) && u != Ok)
  {
  }
}
