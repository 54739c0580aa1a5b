/** The ownership record of one (source, table) pair and the control plane's
    transition function over it (controlplane/ownership.py). */
module Ownership {
  import opened Options

  datatype Engine = PYTHON | KAFKA | NONE

  datatype CutoverState = STEADY | SHADOWING | RECONCILING | CUTOVER_READY | PAUSED

  datatype Action =
    | ASSIGN | START_SHADOW | BEGIN_RECONCILIATION | RECORD_RECONCILIATION | CUTOVER
    | ABORT_SHADOW | PAUSE | RESUME | FORCE_ASSIGN

  datatype SideEffect = CLEAR_SHADOW | PROMOTE_SHADOW

  datatype Owner = Owner(
    engine: Engine,
    shadow: Option<Engine>,
    state: CutoverState,
    epoch: int,
    lastReconciliation: Option<int>,
    shadowRequestedBy: Option<string>)

  datatype Request = Request(
    action: Action,
    actor: string,
    reason: string,
    engine: Option<Engine>,
    approvedBy: Option<string>,
    reconciliationPassed: Option<bool>,
    reconciliationId: Option<int>,
    requireDualControl: bool,
    reconciliationValid: Option<bool>,
    databaseEnforcedApproval: bool)

  /** `Rejected` stands for the TransitionError the control plane raises. */
  datatype Outcome = Moved(current: Owner, effects: seq<SideEffect>) | Rejected

  /** Nothing is left of the text once Python strips it (ASCII white space and separators). */
  predicate Blank(s: string) {
    forall i | 0 <= i < |s| :: s[i] == ' ' || '\t' <= s[i] <= '\r' || '\U{1C}' <= s[i] <= '\U{1F}'
  }

  /** Python's truth value of an optional string. */
  predicate Given(s: Option<string>) {
    s.Some? && s.value != ""
  }

  predicate Runs(e: Option<Engine>) {
    e == Some(PYTHON) || e == Some(KAFKA)
  }

  function Bump(o: Owner): Owner {
    o.(epoch := o.epoch + 1)
  }

  predicate CutoverAllowed(o: Owner, r: Request) {
    && o.state == CUTOVER_READY
    && o.shadow.Some?
    && o.lastReconciliation.Some?
    && r.reconciliationValid == Some(true)
    && (r.requireDualControl ==>
          && Given(r.approvedBy)
          && (!r.databaseEnforcedApproval ==>
                r.approvedBy != Some(r.actor) && r.approvedBy != o.shadowRequestedBy))
  }

  /** controlplane/ownership.py, transition: one branch per action. */
  function Transition(o: Owner, r: Request): Outcome {
    if Blank(r.actor) || Blank(r.reason) then Rejected else
    match r.action
    case ASSIGN =>
      if Runs(r.engine) && o.engine == NONE && o.shadow.None?
      then Moved(Bump(o).(engine := r.engine.value, state := STEADY), [])
      else Rejected
    case START_SHADOW =>
      if Runs(r.engine) && o.state == STEADY && o.engine != NONE && r.engine.value != o.engine
      then Moved(Bump(o).(shadow := r.engine, state := SHADOWING, lastReconciliation := None,
                          shadowRequestedBy := Some(r.actor)), [CLEAR_SHADOW])
      else Rejected
    case BEGIN_RECONCILIATION =>
      if o.state in {SHADOWING, RECONCILING, CUTOVER_READY}
      then Moved(o.(state := RECONCILING), [])
      else Rejected
    case RECORD_RECONCILIATION =>
      if o.state == RECONCILING && r.reconciliationPassed.Some?
      then Moved(o.(state := if r.reconciliationPassed.value then CUTOVER_READY else SHADOWING,
                    lastReconciliation := r.reconciliationId), [])
      else Rejected
    case CUTOVER =>
      if CutoverAllowed(o, r)
      then Moved(Bump(o).(engine := o.shadow.value, shadow := None, state := STEADY,
                          shadowRequestedBy := None), [PROMOTE_SHADOW])
      else Rejected
    case ABORT_SHADOW =>
      if o.shadow.Some?
      then Moved(Bump(o).(shadow := None, state := STEADY, lastReconciliation := None,
                          shadowRequestedBy := None), [CLEAR_SHADOW])
      else Rejected
    case PAUSE =>
      if o.state != PAUSED then Moved(Bump(o).(state := PAUSED), []) else Rejected
    case RESUME =>
      if o.state == PAUSED
      then Moved(Bump(o).(state := if o.shadow.Some? then SHADOWING else STEADY), [])
      else Rejected
    case FORCE_ASSIGN =>
      if r.engine.Some? && o.shadow.None? && Given(r.approvedBy)
         && (r.requireDualControl ==> r.approvedBy != Some(r.actor))
      then Moved(Bump(o).(engine := r.engine.value, state := STEADY), [])
      else Rejected
  }

  /** controlplane/retire.py: the UPDATE that unassigns a retired source's tables
      (the row's trigger also clears the shadow's requester). */
  function Retired(o: Owner): Owner {
    Bump(o).(engine := NONE, shadow := None, state := STEADY, shadowRequestedBy := None)
  }

  /** A row as meta.ensure_ownership_rows inserts it. */
  const FRESH := Owner(NONE, None, STEADY, 1, None, None)

  /** The CHECK constraints of meta.ingestion_ownership. */
  predicate RowConstraints(o: Owner) {
    && o.shadow != Some(NONE)
    && (o.shadow.Some? ==> o.shadow.value != o.engine)
    && (o.shadow.None? ==> o.state in {STEADY, PAUSED})
    && (o.shadow.Some? ==> o.state in {SHADOWING, RECONCILING, CUTOVER_READY, PAUSED})
  }

  /** What the row's update trigger demands beyond who may change an engine: a change of owner or
      shadow raises the epoch, and a shadow never switches engines in place. */
  predicate TriggerAccepts(before: Owner, after: Owner) {
    && (after.engine != before.engine || after.shadow != before.shadow ==> after.epoch > before.epoch)
    && (after.shadow.Some? && before.shadow.Some? ==> after.shadow == before.shadow)
  }

  /** One change of the row: a control-plane request, or the source's retirement. */
  datatype Event = Requested(request: Request) | Retire

  predicate Happens(before: Owner, e: Event, after: Owner) {
    match e
    case Requested(r) => Transition(before, r).Moved? && Transition(before, r).current == after
    case Retire => after == Retired(before)
  }

  /** The life of one row: `states[i]` becomes `states[i + 1]` by `events[i]`. */
  ghost predicate History(states: seq<Owner>, events: seq<Event>) {
    && |states| == |events| + 1
    && states[0] == FRESH
    && forall i | 0 <= i < |events| :: Happens(states[i], events[i], states[i + 1])
  }

  /** No transition or retirement can be refused by the row's constraints or its epoch rules, and a
      shadowed row always has a production owner. */
  predicate Consistent(o: Owner) {
    RowConstraints(o) && o.epoch >= 1 && (o.shadow.Some? ==> o.engine != NONE && o.shadowRequestedBy.Some?)
  }

  lemma StepKeepsConstraints(before: Owner, e: Event, after: Owner)
    requires Consistent(before) && Happens(before, e, after)
    ensures Consistent(after) && TriggerAccepts(before, after)
    ensures before.epoch <= after.epoch <= before.epoch + 1
    ensures after.epoch == before.epoch ==>
      after.engine == before.engine && after.shadow == before.shadow
      && (after.state == PAUSED <==> before.state == PAUSED)
  {
  }

  /** A running engine loses production only to the shadow it was compared with, to an approved
      force_assign while no shadow runs, or to nobody when the source retires. */
  lemma HandoverOnlyBy(before: Owner, e: Event, after: Owner)
    requires Consistent(before) && Happens(before, e, after) && before.engine != NONE && after.engine != before.engine
    ensures
      || (e.Retire? && after.engine == NONE)
      || (IsRequest(e, CUTOVER) && before.shadow == Some(after.engine) && before.state == CUTOVER_READY)
      || (IsRequest(e, FORCE_ASSIGN) && before.shadow.None? && Given(e.request.approvedBy)
          && e.request.engine == Some(after.engine))
  {
  }

  /** The side effects follow the shadow: it is promoted exactly when its engine takes over, and cleared
      exactly when a shadow starts or ends without taking over. */
  lemma EffectsFollowShadow(o: Owner, r: Request)
    requires Consistent(o) && Transition(o, r).Moved?
    ensures
      var n := Transition(o, r).current;
      var promoted := o.shadow.Some? && n.shadow.None? && n.engine == o.shadow.value;
      Transition(o, r).effects ==
          if promoted then [PROMOTE_SHADOW] else if n.shadow != o.shadow then [CLEAR_SHADOW] else []
  {
  }

  lemma {:induction false} HistoryConsistent(states: seq<Owner>, events: seq<Event>, i: nat)
    requires History(states, events) && i < |states|
    ensures Consistent(states[i])
    ensures 0 < i ==> TriggerAccepts(states[i - 1], states[i])
  {
    if i == 0 {
    } else {
      HistoryConsistent(states, events, i - 1);
      StepKeepsConstraints(states[i - 1], events[i - 1], states[i]);
    }
  }

  /** The authority a row grants: who writes production, who writes the shadow, and whether anyone may. */
  predicate SameAuthority(a: Owner, b: Owner) {
    a.engine == b.engine && a.shadow == b.shadow && (a.state == PAUSED <==> b.state == PAUSED)
  }

  /** The epoch never falls, and while it stands still so does the row's authority. */
  lemma {:induction false} EpochNamesAuthority(states: seq<Owner>, events: seq<Event>, i: nat, j: nat)
    requires History(states, events) && i <= j < |states|
    ensures states[i].epoch <= states[j].epoch
    ensures states[i].epoch == states[j].epoch ==> SameAuthority(states[i], states[j])
    decreases j - i
  {
    if i < j {
      EpochNamesAuthority(states, events, i, j - 1);
      HistoryConsistent(states, events, j - 1);
      StepKeepsConstraints(states[j - 1], events[j - 1], states[j]);
    }
  }

  predicate IsRequest(e: Event, a: Action) {
    e.Requested? && e.request.action == a
  }

  /** The events that leave a running shadow in place. */
  predicate KeepsShadow(e: Event) {
    e.Requested? && e.request.action !in {START_SHADOW, ABORT_SHADOW, CUTOVER}
  }

  /** Every shadow was opened by a start_shadow request that named its engine and its requester, and
      nothing since has ended or replaced it. */
  lemma {:induction false} ShadowOrigin(states: seq<Owner>, events: seq<Event>, i: nat) returns (k: nat)
    requires History(states, events) && i < |states| && states[i].shadow.Some?
    ensures k < i && IsRequest(events[k], START_SHADOW)
    ensures events[k].request.engine == states[i].shadow
    ensures states[i].shadowRequestedBy == Some(events[k].request.actor)
    ensures forall m | k < m < i :: KeepsShadow(events[m])
  {
    assert i > 0;
    assert Happens(states[i - 1], events[i - 1], states[i]);
    HistoryConsistent(states, events, i - 1);
    if IsRequest(events[i - 1], START_SHADOW) {
      k := i - 1;
    } else {
      k := ShadowOrigin(states, events, i - 1);
    }
  }

  /** A row is ready for cutover only directly after a passing reconciliation. */
  lemma ReadyOrigin(states: seq<Owner>, events: seq<Event>, i: nat)
    requires History(states, events) && i < |states| && states[i].state == CUTOVER_READY
    ensures i > 0 && IsRequest(events[i - 1], RECORD_RECONCILIATION)
    ensures events[i - 1].request.reconciliationPassed == Some(true)
    ensures events[i - 1].request.reconciliationId == states[i].lastReconciliation
  {
    assert i > 0;
    assert Happens(states[i - 1], events[i - 1], states[i]);
  }

  /** Cutover history: each cutover directly follows the passing reconciliation it relies on, moves
      production to the engine of the latest start_shadow (nothing in between ended that shadow), and
      under parameter-mode dual control its approver is neither its requester nor the shadow's. */
  lemma CutoverHistory(states: seq<Owner>, events: seq<Event>, i: nat) returns (k: nat)
    requires History(states, events) && i < |events| && IsRequest(events[i], CUTOVER)
    ensures k + 1 < i
    ensures IsRequest(events[i - 1], RECORD_RECONCILIATION)
    ensures events[i - 1].request.reconciliationPassed == Some(true)
    ensures events[i - 1].request.reconciliationId == states[i].lastReconciliation
    ensures states[i].lastReconciliation.Some? && events[i].request.reconciliationValid == Some(true)
    ensures IsRequest(events[k], START_SHADOW) && forall m | k < m < i :: KeepsShadow(events[m])
    ensures events[k].request.engine == Some(states[i + 1].engine) && states[i + 1].shadow.None?
    ensures states[i + 1].engine != states[i].engine
    ensures
      var cutover := events[i].request;
      cutover.requireDualControl && !cutover.databaseEnforcedApproval ==>
        && Given(cutover.approvedBy)
        && cutover.approvedBy.value != cutover.actor
        && cutover.approvedBy.value != events[k].request.actor
  {
    assert Happens(states[i], events[i], states[i + 1]);
    HistoryConsistent(states, events, i);
    ReadyOrigin(states, events, i);
    k := ShadowOrigin(states, events, i);
  }
}
