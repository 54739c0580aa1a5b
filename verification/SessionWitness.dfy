/** Why a worker's partitions must be out of its hands before they are assigned to it anew: otherwise one
    record is applied twice without any lost reply. */
module SessionWitness {
  import opened Options
  import opened Ownership
  import opened Routing
  import opened Batches
  import opened Isolation
  import opened Delivery
  import opened Session

  const TP := Partition("topic", 0)
  const PARSED := Change("s", "t")
  const R := Record(TP, 0, PARSED)
  const OWNER := Owner(KAFKA, None, STEADY, 1, None, None)
  const SNAP := Snapshot(map[Key("s", "t") := OWNER], {"s"})
  const META := Meta(map[("s", "t") := OWNER], {"s"})
  const EMPTY := Store([], [], [], [], map[])
  const CONFIG := Config(false, 1, 1.0)

  const IO := Io({}, {TP}, _ => Ok, _ => Ok, SNAP)

  /** The warehouse rejects the first batch, and the poll inside its isolation takes the partition away and
      gives it back. */
  const STEPS: seq<Step> := [
    Assign(0, {TP}),
    Poll(0, TP),
    Step.Process(0, SNAP, Data, SNAP),
    Revoke(0, {TP}),
    Assign(0, {TP}),
    IsolationTurn(0, IO),
    IsolationTurn(0, IO),
    Poll(0, TP),
    Step.Process(0, SNAP, Ok, SNAP)]

  function At(mode: Mode, pos: Offsets, store: Store): State {
    State(map[TP := [Payload(PARSED)]], META, [Worker(mode, pos, false)], store)
  }

  function Wrote(rs: seq<Record>): Store { Store(rs, [], [], [], map[TP := 1]) }

  function InIsolation(buffer: seq<Record>): Iso { Iso([[R]], buffer, map[], SNAP, [], 0, map[]) }

  function Done(): Iso { Iso([], [], map[], SNAP, [], 0, map[TP := 1]) }

  function States(): seq<State> {
    [ At(Collecting([]), map[], EMPTY),
      At(Collecting([]), map[TP := 0], EMPTY),
      At(Collecting([R]), map[TP := 1], EMPTY),
      At(Isolating(InIsolation([R]), 1), map[TP := 1], EMPTY),
      At(Isolating(InIsolation([]), 1), map[], EMPTY),
      At(Isolating(InIsolation([]), 1), map[TP := 0], EMPTY),
      At(Isolating(Done(), 1), map[TP := 0], Wrote([R])),
      At(Collecting([]), map[TP := 0], Wrote([R])),
      At(Collecting([R]), map[TP := 1], Wrote([R])),
      At(Collecting([]), map[TP := 1], Wrote([R, R]))]
  }

  lemma PlanOfR()
    ensures PlanOf([R], SNAP, map[], false) == Plan([R], [], [], [], map[TP := 1], map[])
  {
    assert Dispose(R, SNAP, false) == Write;
    var none: seq<Record> := [];
    assert [R][1..] == none;
    assert PlanFrom(PlanOne(Empty(map[]), R, SNAP, false), none, SNAP, false) == PlanOne(Empty(map[]), R, SNAP, false);
  }

  lemma Committed(s: Store, rs: seq<Record>)
    requires s.applied == rs && s.letters == s.skipped == s.ignored == []
    requires s.offsets == map[] || s.offsets == map[TP := 1]
    ensures Commit(Publish(s, []), Plan([R], [], [], [], map[TP := 1], map[])) == Wrote(rs + [R])
  {
    assert Merge(s.offsets, map[TP := 1]) == map[TP := 1];
  }

  lemma GoneFrom()
    ensures Processed([R], map[]) == {R} && Minus([R], {R}) == []
  {
    assert R in [R];
  }

  lemma LegitimateWrite()
    ensures Legitimate(META, Plan([R], [], [], [], map[TP := 1], map[]), SNAP, Ok)
  {
    assert SNAP.RouteOf("s", "t") == Route(PROD, 1);
  }

  ghost predicate Holds(k: nat)
    requires k < |STEPS|
  {
    Enabled(States()[k], STEPS[k], CONFIG) && Next(States()[k], STEPS[k], CONFIG) == States()[k + 1]
  }

  lemma AssignHolds()
    ensures Holds(0) && Holds(4)
  {
    var w0, w4 := States()[0].workers[0], States()[4].workers[0];
    assert Assigned(States()[0], w0, {TP}) == w0.(pos := map[TP := 0]);
    assert Assigned(States()[4], w4, {TP}) == w4.(pos := map[TP := 0]);
  }

  lemma PollHolds()
    ensures Holds(1) && Holds(7)
  {
    assert RecordAt(States()[1].log, TP, 0) == R;
    assert [] + [R] == [R];
    assert map[TP := 0][TP := 1] == map[TP := 1];
  }

  lemma RejectedHolds()
    ensures Holds(2)
  {
    PlanOfR();
    assert QuarantineLimit(CONFIG, 1) == 1;
    assert Publish(EMPTY, []) == EMPTY;
  }

  lemma RevokeHolds()
    ensures Holds(3)
  {
    assert Without([R], {TP}) == [];
    assert map[TP := 1] - {TP} == map[];
  }

  lemma TurnSettles()
    ensures Settle(InIsolation([]).(work := []), [R], EMPTY, IO, 1, false) == Running(Done(), Wrote([R]))
  {
    PlanOfR();
    Committed(EMPTY, []);
    GoneFrom();
    assert Merge(map[], map[TP := 1]) == map[TP := 1];
    assert Minus([], {R}) == [];
  }

  lemma TurnKeeps()
    ensures KeepAlive(InIsolation([]), IO) == InIsolation([]) && PartOf(InIsolation([]), IO) == [R]
  {
    assert Keep([R], {TP}) == [R];
    assert KeepAll([[R]], {TP}) == [[R]];
  }

  lemma TurnHolds()
    ensures Holds(5)
  {
    TurnKeeps();
    TurnSettles();
    PlanOfR();
    LegitimateWrite();
    var none: seq<seq<Record>> := [];
    assert [[R]][1..] == none;
    assert OneTurn(InIsolation([]), EMPTY, IO, 1, false) == Running(Done(), Wrote([R]));
  }

  lemma EndHolds()
    ensures Holds(6)
  {
  }

  lemma AgainHolds()
    ensures Holds(8)
  {
    PlanOfR();
    LegitimateWrite();
    Committed(Wrote([R]), [R]);
    GoneFrom();
    assert [R] + [R] == [R, R];
  }

  /** A partition revoked and assigned again within one poll of an isolation: its record, still in the work,
      is applied, fetched anew and applied again. No reply is lost, and only the last assignment does not
      go by the listener's rule. */
  lemma ReassignedInHandAppliesTwice()
    ensures Execution(States(), STEPS, CONFIG)
    ensures States()[|STEPS|].store.applied == [R, R]
    ensures forall k | 0 <= k < |STEPS| :: !Listens(States()[k], STEPS[k], 0) <==> k == 4
  {
    forall k: nat | k < |STEPS| ensures Holds(k) { EachHolds(k); }
    HoldsIsTrace();
    Starts();
    OnlyTheFifth();
  }

  lemma EachHolds(k: nat)
    requires k < |STEPS|
    ensures Holds(k)
  {
    if k == 0 || k == 4 {
      AssignHolds();
    } else if k == 1 || k == 7 {
      PollHolds();
    } else if k == 2 {
      RejectedHolds();
    } else if k == 3 {
      RevokeHolds();
    } else if k == 5 {
      TurnHolds();
    } else if k == 6 {
      EndHolds();
    } else {
      assert k == 8;
      AgainHolds();
    }
  }

  lemma HoldsIsTrace()
    requires forall k: nat | k < |STEPS| :: Holds(k)
    ensures Trace(States(), STEPS, CONFIG)
  {
    var states := States();
    forall i | 0 <= i < |STEPS|
      ensures Enabled(states[i], STEPS[i], CONFIG) && states[i + 1] == Next(states[i], STEPS[i], CONFIG)
    {
      assert Holds(i);
    }
  }

  lemma Starts()
    ensures Init(States()[0]) && States()[9].store.applied == [R, R]
  {
    assert Consistent(OWNER) && ValidMeta(META);
  }

  lemma OnlyTheFifth()
    ensures forall k | 0 <= k < |STEPS| :: !Listens(States()[k], STEPS[k], 0) <==> k == 4
  {
    assert InHand(States()[4].workers[0]) == [] + ([R] + []);
    assert R in InHand(States()[4].workers[0]);
    assert InHand(States()[0].workers[0]) == [];
  }
}
