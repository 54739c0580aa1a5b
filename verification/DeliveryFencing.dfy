/** What the sink commits, it had the right to commit at that moment: no write lands on a target KAFKA
    does not own, and no skip drops an event of a table KAFKA owns or shadows. */
module DeliveryFencing {
  import opened Options
  import opened Ownership
  import opened Routing
  import opened Batches
  import opened Isolation
  import opened PassMeaning
  import opened Delivery
  import opened DeliveryProofs

  /** KAFKA has no part in the record's table. */
  ghost predicate SkipJustified(m: Meta, r: Record) {
    r.parsed.Change? && NotKafkas(m, r.parsed.sourceId, r.parsed.table)
  }

  /** The record's table exists, is not paused, and grants KAFKA the target the write lands on. */
  ghost predicate WriteJustified(m: Meta, r: Record, target: Target) {
    && r.parsed.Change?
    && (r.parsed.sourceId, r.parsed.table) in m.rows
    && var o := m.rows[(r.parsed.sourceId, r.parsed.table)];
       && o.state != PAUSED && target in {PROD, SHADOW}
       && (target == PROD ==> o.engine == KAFKA)
       && (target == SHADOW ==> o.shadow == Some(KAFKA))
  }

  /** Where a snapshot sends a record. */
  function TargetOf(snap: Snapshot, r: Record): Target {
    if r.parsed.Change? then snap.RouteOf(r.parsed.sourceId, r.parsed.table).target else SKIP
  }

  ghost predicate KindsRight(p: Plan, snap: Snapshot, skipUnknown: bool) {
    && (forall r | r in p.writes :: Dispose(r, snap, skipUnknown) == Write)
    && (forall r | r in p.skips :: Dispose(r, snap, skipUnknown) == Skip)
  }

  lemma {:induction false} PlanKinds(p: Plan, batch: seq<Record>, snap: Snapshot, skipUnknown: bool)
    requires KindsRight(p, snap, skipUnknown)
    ensures KindsRight(PlanFrom(p, batch, snap, skipUnknown), snap, skipUnknown)
    decreases |batch|
  {
    if batch == [] {
    } else {
      PlanKinds(PlanOne(p, batch[0], snap, skipUnknown), batch[1..], snap, skipUnknown);
    }
  }

  /** Whatever a write appends to the store, once more or for the first time, is justified by the
      ownership it commits under, and lands where `snap` sends it. */
  ghost predicate AddsJustified(m: Meta, snap: Snapshot, s: Store, s': Store) {
    && s.applied <= s'.applied && s.skipped <= s'.skipped
    && (forall k | |s.applied| <= k < |s'.applied| :: WriteJustified(m, s'.applied[k], TargetOf(snap, s'.applied[k])))
    && (forall k | |s.skipped| <= k < |s'.skipped| :: SkipJustified(m, s'.skipped[k]))
  }

  lemma CommitJustified(m: Meta, s: Store, batch: seq<Record>, snap: Snapshot, held: Offsets, skipUnknown: bool,
                        v: Verdict, p: Plan)
    requires ValidMeta(m) && snap.Filtered() && p == PlanOf(batch, snap, held, skipUnknown)
    requires Legitimate(m, p, snap, v)
    ensures AddsJustified(m, snap, s, After(s, p, v))
  {
    PlanKinds(Empty(held), batch, snap, skipUnknown);
    if v == Ok || v == Transient(true) {
      forall r | r in p.skips ensures SkipJustified(m, r) {
        SkipDropsNothingOwned(m, snap, r.parsed.sourceId, r.parsed.table);
      }
      forall r | r in p.writes ensures WriteJustified(m, r, TargetOf(snap, r)) {
        assert r.parsed.Change?;
      }
      var s' := After(s, p, v);
      forall k | |s.applied| <= k < |s'.applied| ensures s'.applied[k] in p.writes {}
      forall k | |s.skipped| <= k < |s'.skipped| ensures s'.skipped[k] in p.skips {}
    }
  }

  lemma TurnJustified(m: Meta, iso: Iso, s: Store, io: Io, limit: nat, skipUnknown: bool)
    requires iso.work != [] && ValidMeta(m) && iso.snap.Filtered()
    requires PartOf(iso, io) != [] ==>
      var plan := PlanOf(PartOf(iso, io), iso.snap, iso.held, skipUnknown);
      Legitimate(m, plan, iso.snap, Answer(plan, io.verdict(PartOf(iso, io))))
    ensures AddsJustified(m, iso.snap, s, OneTurn(iso, s, io, limit, skipUnknown).store)
  {
    var part := PartOf(iso, io);
    if part != [] {
      var plan := PlanOf(part, iso.snap, iso.held, skipUnknown);
      var v := Answer(plan, io.verdict(part));
      CommitJustified(m, s, part, iso.snap, iso.held, skipUnknown, v, plan);
      var s' := After(s, plan, v);
      assert After(s', QuarantinePlan(part[0]), io.quarantine(part[0])).applied == s'.applied;
      assert After(s', QuarantinePlan(part[0]), io.quarantine(part[0])).skipped == s'.skipped;
    }
  }

  /** The snapshot a step decides on. */
  ghost function Decides(s: State, step: Step): Snapshot {
    match step
    case Process(_, snap, _, _) => snap
    case IsolationTurn(w, _) =>
      if w < |s.workers| && s.workers[w].mode.Isolating? then s.workers[w].mode.iso.snap else Snapshot(map[], {})
    case _ => Snapshot(map[], {})
  }

  lemma StepJustified(s: State, step: Step, c: Config)
    requires Inv(s) && Enabled(s, step, c)
    ensures AddsJustified(s.meta, Decides(s, step), s.store, Next(s, step, c).store)
  {
    match step
    case Process(w, snap, verdict, isolationSnap) =>
      var buffer := BufferOf(s.workers[w]);
      var plan := PlanOf(buffer, snap, map[], c.skipUnknown);
      CommitJustified(s.meta, s.store, buffer, snap, map[], c.skipUnknown, Answer(plan, verdict), plan);
    case IsolationTurn(w, io) =>
      assert WorkerOk(s.workers[w], s.log, Settled(s.store));
      var iso := s.workers[w].mode.iso;
      if iso.work != [] { TurnJustified(s.meta, iso, s.store, io, s.workers[w].mode.limit, c.skipUnknown); }
    case _ =>
  }

  /** Every application of a record, a repeated one included, came about at a moment when its table was
      not paused and KAFKA owned the target it went to, however stale the snapshot and the worker that
      decided it. */
  lemma {:induction false} AppliedWhenOwned(states: seq<State>, steps: seq<Step>, c: Config, i: nat, k: nat)
      returns (j: nat)
    requires Execution(states, steps, c) && i < |states| && k < |states[i].store.applied|
    ensures j < i && |states[j].store.applied| <= k < |states[j + 1].store.applied|
    ensures states[j + 1].store.applied[k] == states[i].store.applied[k]
    ensures var r := states[i].store.applied[k];
            WriteJustified(states[j].meta, r, TargetOf(Decides(states[j], steps[j]), r))
  {
    j := i - 1;
    InvHolds(states, steps, c, j);
    StepJustified(states[j], steps[j], c);
    if k < |states[j].store.applied| {
      j := AppliedWhenOwned(states, steps, c, j, k);
    }
  }

  /** Every skip of a record came about at a moment when KAFKA had no part in its table. */
  lemma {:induction false} SkippedWhenNotOwned(states: seq<State>, steps: seq<Step>, c: Config, i: nat, k: nat)
      returns (j: nat)
    requires Execution(states, steps, c) && i < |states| && k < |states[i].store.skipped|
    ensures j < i && |states[j].store.skipped| <= k < |states[j + 1].store.skipped|
    ensures states[j + 1].store.skipped[k] == states[i].store.skipped[k]
    ensures SkipJustified(states[j].meta, states[i].store.skipped[k])
  {
    j := i - 1;
    InvHolds(states, steps, c, j);
    StepJustified(states[j], steps[j], c);
    if k < |states[j].store.skipped| {
      j := SkippedWhenNotOwned(states, steps, c, j, k);
    }
  }

  // ---- Dead letters ----

  /** A single record the warehouse refused for its data; it was neither on hold nor behind a hold. */
  ghost predicate RefusedAlone(iso: Iso, io: Io, r: Record) {
    && iso.work != [] && PartOf(iso, io) == [r] && io.verdict([r]) == Data
    && r.tp !in iso.held && !OnHold(iso.snap, r)
  }

  /** Why a step may dead-letter a record: its bytes make no event, nobody registered its source, or the
      warehouse refused it. */
  ghost predicate LetterJustified(s: State, step: Step, c: Config, r: Record) {
    match step
    case Process(_, snap, _, _) => Undeliverable(snap, r, c.skipUnknown)
    case IsolationTurn(w, io) =>
      && w < |s.workers| && s.workers[w].mode.Isolating?
      && var iso := s.workers[w].mode.iso;
         Undeliverable(iso.snap, r, c.skipUnknown) || RefusedAlone(iso, io, r)
    case _ => false
  }

  /** What a pass publishes is among its letters, and unless the broker fails it, all of them, whatever the
      warehouse then answers. */
  lemma PublishedAre(s: Store, batch: seq<Record>, snap: Snapshot, held: Offsets, skipUnknown: bool, v: Verdict)
    ensures var s' := After(s, PlanOf(batch, snap, held, skipUnknown), v);
            && s.letters <= s'.letters
            && (forall k | |s.letters| <= k < |s'.letters| :: Undeliverable(snap, s'.letters[k], skipUnknown))
            && (!v.Unpublished? ==> s'.letters == s.letters + PlanOf(batch, snap, held, skipUnknown).letters)
  {
    var p := PlanOf(batch, snap, held, skipUnknown);
    var s' := After(s, p, v);
    if v.Unpublished? { ChosenAreThere(p.letters, v.sent); }
    forall k | |s.letters| <= k < |s'.letters| ensures Undeliverable(snap, s'.letters[k], skipUnknown) {
      assert s'.letters[k] in p.letters;
      ListedKinds(batch, snap, held, skipUnknown, s'.letters[k]);
    }
  }

  /** What quarantining publishes is the record. */
  lemma QuarantinedIs(s: Store, r: Record, v: Verdict)
    ensures var s' := After(s, QuarantinePlan(r), v);
            s.letters <= s'.letters && forall k | |s.letters| <= k < |s'.letters| :: s'.letters[k] == r
  {
    var s' := After(s, QuarantinePlan(r), v);
    if v.Unpublished? { ChosenAreThere([r], v.sent); }
    forall k | |s.letters| <= k < |s'.letters| ensures s'.letters[k] == r { assert s'.letters[k] in [r]; }
  }

  lemma TurnLetters(iso: Iso, s: Store, io: Io, limit: nat, skipUnknown: bool)
    requires iso.work != []
    ensures var s' := OneTurn(iso, s, io, limit, skipUnknown).store;
            && s.letters <= s'.letters
            && forall k | |s.letters| <= k < |s'.letters| ::
                 Undeliverable(iso.snap, s'.letters[k], skipUnknown) || RefusedAlone(iso, io, s'.letters[k])
  {
    KeepAllShrinks(iso.work, io.owned);
    var alive := KeepAlive(iso, io);
    if alive.work[0] != [] {
      SettleLetters(alive.(work := alive.work[1..]), alive.work[0], s, io, limit, skipUnknown);
    }
  }

  lemma SettleLetters(iso: Iso, part: seq<Record>, s: Store, io: Io, limit: nat, skipUnknown: bool)
    requires part != []
    ensures var s' := Settle(iso, part, s, io, limit, skipUnknown).store;
            && s.letters <= s'.letters
            && forall k | |s.letters| <= k < |s'.letters| ::
                 || Undeliverable(iso.snap, s'.letters[k], skipUnknown)
                 || (part == [s'.letters[k]] && io.verdict(part) == Data
                     && s'.letters[k].tp !in iso.held && !OnHold(iso.snap, s'.letters[k]))
  {
    var plan := PlanOf(part, iso.snap, iso.held, skipUnknown);
    var v := Answer(plan, io.verdict(part));
    PublishedAre(s, part, iso.snap, iso.held, skipUnknown, v);
    if v == Data && |part| == 1 {
      assert part == [part[0]];
      AloneIsFree(part[0], iso, skipUnknown);
      QuarantinedIs(After(s, plan, v), part[0], io.quarantine(part[0]));
    }
  }

  lemma AloneIsFree(r: Record, iso: Iso, skipUnknown: bool)
    requires PlanOf([r], iso.snap, iso.held, skipUnknown).next != map[]
    ensures r.tp !in iso.held && !OnHold(iso.snap, r)
  {
    PassMeans([r], iso.snap, iso.held, skipUnknown);
    var next := PlanOf([r], iso.snap, iso.held, skipUnknown).next;
    var tp :| tp in next;
  }

  lemma StepLetters(s: State, step: Step, c: Config)
    requires Enabled(s, step, c)
    ensures var s' := Next(s, step, c);
            && s.store.letters <= s'.store.letters
            && forall k | |s.store.letters| <= k < |s'.store.letters| ::
                 LetterJustified(s, step, c, s'.store.letters[k])
  {
    match step
    case Process(w, snap, verdict, isolationSnap) =>
      var buffer := BufferOf(s.workers[w]);
      var plan := PlanOf(buffer, snap, map[], c.skipUnknown);
      PublishedAre(s.store, buffer, snap, map[], c.skipUnknown, Answer(plan, verdict));
    case IsolationTurn(w, io) =>
      var iso := s.workers[w].mode.iso;
      if iso.work != [] { TurnLetters(iso, s.store, io, s.workers[w].mode.limit, c.skipUnknown); }
    case _ =>
  }

  /** Every dead letter, a repeated one included, was published for a cause: no event is dead-lettered
      because its table is paused, or because KAFKA has no part in it. */
  lemma {:induction false} LetteredForCause(states: seq<State>, steps: seq<Step>, c: Config, i: nat, k: nat)
      returns (j: nat)
    requires Execution(states, steps, c) && i < |states| && k < |states[i].store.letters|
    ensures j < i && |states[j].store.letters| <= k < |states[j + 1].store.letters|
    ensures states[j + 1].store.letters[k] == states[i].store.letters[k]
    ensures LetterJustified(states[j], steps[j], c, states[i].store.letters[k])
  {
    j := i - 1;
    StepLetters(states[j], steps[j], c);
    if k < |states[j].store.letters| {
      j := LetteredForCause(states, steps, c, j, k);
    }
  }

  function ChecksOf(skips: seq<Record>, snap: Snapshot): seq<SkipCheck>
    decreases |skips|
  {
    if skips == [] then []
    else if skips[0].parsed.Change?
    then [CheckFor(snap, skips[0].parsed.sourceId, skips[0].parsed.table)] + ChecksOf(skips[1..], snap)
    else ChecksOf(skips[1..], snap)
  }

  lemma {:induction false} ChecksComeFrom(skips: seq<Record>, snap: Snapshot)
    ensures forall x | x in ChecksOf(skips, snap) ::
      exists r | r in skips :: r.parsed.Change? && x == CheckFor(snap, r.parsed.sourceId, r.parsed.table)
    ensures forall r | r in skips && r.parsed.Change? ::
      CheckFor(snap, r.parsed.sourceId, r.parsed.table) in ChecksOf(skips, snap)
    decreases |skips|
  {
    if skips == [] {
    } else {
      ChecksComeFrom(skips[1..], snap);
    }
  }

  /** The checks of one pass may be collapsed to one per table: a commit is refused exactly when some
      skipped record's check is stale. */
  method SkipsPass(m: Meta, skips: seq<Record>, snap: Snapshot) returns (pass: bool)
    requires forall r | r in skips && r.parsed.Change? :: Plain(r.parsed.sourceId)
    ensures pass <==>
      forall r | r in skips && r.parsed.Change? :: !Stale(m, CheckFor(snap, r.parsed.sourceId, r.parsed.table))
  {
    var checks := ChecksOf(skips, snap);
    ChecksComeFrom(skips, snap);
    forall i, j | 0 <= i < |checks| && 0 <= j < |checks|
      && Key(checks[i].sourceId, checks[i].table) == Key(checks[j].sourceId, checks[j].table)
      ensures checks[i] == checks[j]
    {
      assert checks[i] in checks && checks[j] in checks;
      KeyInjective(checks[i].sourceId, checks[i].table, checks[j].sourceId, checks[j].table);
    }
    var stale := VerifySkips(m, checks);
    pass := !stale;
    assert forall i | 0 <= i < |checks| :: checks[i] in checks;
  }
}
