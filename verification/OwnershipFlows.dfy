/** Where ownership goes: which engine a change of owner names, when a request is accepted, and how the
    control plane's procedures end. */
module OwnershipFlows {
  import opened Options
  import opened Ownership

  // ---- Who is given production ----

  /** A table comes to a running engine only by a request that names it, or by the cutover of its shadow. */
  lemma EngineGiven(before: Owner, e: Event, after: Owner)
    requires Consistent(before) && Happens(before, e, after)
    requires after.engine != before.engine && after.engine != NONE
    ensures e.Requested?
    ensures
      || (e.request.action in {ASSIGN, FORCE_ASSIGN} && e.request.engine == Some(after.engine))
      || (e.request.action == CUTOVER && before.shadow == Some(after.engine))
  {
  }

  /** The engine running a table goes back to a request that named it: at step g it took over, by an
      assignment that named it or by the cutover of a shadow whose start, at step k, named it; since then the
      table has stayed with it. */
  lemma {:induction false} EngineOrigin(states: seq<Owner>, events: seq<Event>, i: nat) returns (k: nat, g: nat)
    requires History(states, events) && i < |states| && states[i].engine != NONE
    ensures k <= g < i && states[g].engine != states[i].engine
    ensures forall m | g < m <= i :: states[m].engine == states[i].engine
    ensures events[k].Requested? && events[k].request.engine == Some(states[i].engine)
    ensures
      || (k == g && events[g].request.action in {ASSIGN, FORCE_ASSIGN})
      || (IsRequest(events[k], START_SHADOW) && IsRequest(events[g], CUTOVER)
          && forall m | k < m < g :: KeepsShadow(events[m]))
  {
    assert i > 0;
    assert Happens(states[i - 1], events[i - 1], states[i]);
    if states[i - 1].engine == states[i].engine {
      k, g := EngineOrigin(states, events, i - 1);
    } else {
      g := i - 1;
      HistoryConsistent(states, events, g);
      EngineGiven(states[g], events[g], states[i]);
      k := g;
      if IsRequest(events[g], CUTOVER) { k := ShadowOrigin(states, events, g); }
    }
  }

  // ---- When a request is accepted ----

  /** Two people: whoever approves is neither the requester nor, for a cutover, who started the shadow. */
  predicate Approved(r: Request, others: set<Option<string>>) { Given(r.approvedBy) && r.approvedBy !in others }

  /** What a request needs, besides an actor and a reason, in a row that is as the constraints have it. */
  predicate Allowed(o: Owner, r: Request) {
    match r.action
    case ASSIGN => o.engine == NONE && Runs(r.engine)
    case START_SHADOW =>
      o.shadow.None? && o.state != PAUSED && r.engine.Some? && {o.engine, r.engine.value} == {PYTHON, KAFKA}
    case BEGIN_RECONCILIATION => o.shadow.Some? && o.state != PAUSED
    case RECORD_RECONCILIATION => o.state == RECONCILING && r.reconciliationPassed.Some?
    case CUTOVER =>
      && o.state == CUTOVER_READY && o.lastReconciliation.Some? && r.reconciliationValid == Some(true)
      && (r.requireDualControl ==>
            Approved(r, if r.databaseEnforcedApproval then {} else {Some(r.actor), o.shadowRequestedBy}))
    case ABORT_SHADOW => o.shadow.Some?
    case PAUSE => o.state != PAUSED
    case RESUME => o.state == PAUSED
    case FORCE_ASSIGN =>
      o.shadow.None? && r.engine.Some? && Approved(r, if r.requireDualControl then {Some(r.actor)} else {})
  }

  /** Some character other than white space is left: tab to carriage return, the four separators, and blank
      count as white space. */
  predicate HasText(s: string) { exists c | c in s :: c as int !in {9, 10, 11, 12, 13, 28, 29, 30, 31, 32} }

  predicate Signed(r: Request) { HasText(r.actor) && HasText(r.reason) }

  lemma BlankIff(s: string)
    ensures Blank(s) <==> !HasText(s)
  {
    if Blank(s) {
      forall c | c in s ensures c as int in {9, 10, 11, 12, 13, 28, 29, 30, 31, 32} {}
    } else {
      var i :| 0 <= i < |s| && !(s[i] == ' ' || '\t' <= s[i] <= '\r' || '\U{1C}' <= s[i] <= '\U{1F}');
      assert s[i] in s && s[i] as int !in {9, 10, 11, 12, 13, 28, 29, 30, 31, 32};
    }
  }

  lemma SignedIsText(r: Request)
    ensures Signed(r) <==> !Blank(r.actor) && !Blank(r.reason)
  {
    BlankIff(r.actor);
    BlankIff(r.reason);
  }

  /** Exactly which requests are accepted. */
  lemma AcceptedIff(o: Owner, r: Request)
    requires Consistent(o)
    ensures Transition(o, r).Moved? <==> Signed(r) && Allowed(o, r)
  {
    SignedIsText(r);
  }

  // ---- Procedures ----

  /** The row after some requests, if all are accepted. */
  function Play(o: Owner, rs: seq<Request>): Option<Owner>
    decreases |rs|
  {
    if rs == [] then Some(o)
    else if Transition(o, rs[0]).Rejected? then None
    else Play(Transition(o, rs[0]).current, rs[1..])
  }

  /** The request is accepted and makes the row this one. */
  predicate Gives(o: Owner, r: Request, o': Owner) { Transition(o, r).Moved? && Transition(o, r).current == o' }

  lemma PlayTwo(o: Owner, a: Request, o1: Owner, b: Request, o2: Owner, rs: seq<Request>)
    requires Gives(o, a, o1) && Gives(o1, b, o2)
    ensures Play(o, [a, b] + rs) == Play(o2, rs)
  {
    assert ([a, b] + rs)[1..] == [b] + rs && ([b] + rs)[1..] == rs;
  }

  /** A handover by the book: a shadow of the other engine, a comparison that passes, and an approved cutover
      leave the table with that engine, steady, two epochs on. */
  lemma HandoverSucceeds(o: Owner, start: Request, compare: Request, record: Request, cut: Request)
    requires Consistent(o) && o.state == STEADY && o.engine != NONE
    requires Signed(start) && Signed(compare) && Signed(record) && Signed(cut)
    requires start.action == START_SHADOW && Runs(start.engine) && start.engine != Some(o.engine)
    requires compare.action == BEGIN_RECONCILIATION
    requires record.action == RECORD_RECONCILIATION && record.reconciliationPassed == Some(true)
    requires record.reconciliationId.Some?
    requires cut.action == CUTOVER && cut.reconciliationValid == Some(true)
    requires cut.requireDualControl ==>
      Approved(cut, if cut.databaseEnforcedApproval then {} else {Some(cut.actor), Some(start.actor)})
    ensures Play(o, [start, compare, record, cut]) ==
            Some(Owner(start.engine.value, None, STEADY, o.epoch + 2, record.reconciliationId, None))
  {
    SignedIsText(start);
    SignedIsText(compare);
    SignedIsText(record);
    var o1 := Owner(o.engine, start.engine, SHADOWING, o.epoch + 1, None, Some(start.actor));
    var o2 := o1.(state := RECONCILING);
    var o3 := o1.(state := CUTOVER_READY, lastReconciliation := record.reconciliationId);
    var o4 := Owner(start.engine.value, None, STEADY, o.epoch + 2, record.reconciliationId, None);
    assert Gives(o, start, o1);
    assert Gives(o1, compare, o2);
    assert Gives(o2, record, o3);
    CutoverGives(o3, cut, o4);
    PlayTwo(o, start, o1, compare, o2, [record, cut]);
    PlayTwo(o2, record, o3, cut, o4, []);
    assert [start, compare] + [record, cut] == [start, compare, record, cut];
    assert [record, cut] + [] == [record, cut];
  }

  lemma CutoverGives(o: Owner, cut: Request, o': Owner)
    requires o.state == CUTOVER_READY && o.shadow.Some? && o.lastReconciliation.Some? && Signed(cut)
    requires cut.action == CUTOVER && cut.reconciliationValid == Some(true)
    requires cut.requireDualControl ==>
      Approved(cut, if cut.databaseEnforcedApproval then {} else {Some(cut.actor), o.shadowRequestedBy})
    requires o' == Owner(o.shadow.value, None, STEADY, o.epoch + 1, o.lastReconciliation, None)
    ensures Gives(o, cut, o')
  {
    SignedIsText(cut);
  }

  /** A comparison that fails leaves the shadow running and no way to cut over without another. */
  lemma FailedComparison(o: Owner, compare: Request, record: Request, cut: Request)
    requires Consistent(o) && o.shadow.Some? && o.state != PAUSED && Signed(compare) && Signed(record)
    requires compare.action == BEGIN_RECONCILIATION && cut.action == CUTOVER
    requires record.action == RECORD_RECONCILIATION && record.reconciliationPassed == Some(false)
    ensures Play(o, [compare, record]) == Some(o.(state := SHADOWING, lastReconciliation := record.reconciliationId))
    ensures Transition(Play(o, [compare, record]).value, cut).Rejected?
  {
    SignedIsText(compare);
    SignedIsText(record);
    var o1 := o.(state := RECONCILING);
    var o2 := o.(state := SHADOWING, lastReconciliation := record.reconciliationId);
    assert Gives(o, compare, o1);
    assert Gives(o1, record, o2);
    PlayTwo(o, compare, o1, record, o2, []);
    assert [compare, record] + [] == [compare, record];
  }

  /** A pause and a resumption give the table back to the same engines; a comparison under way, passed or
      not, has to be made again. */
  lemma PauseAndResume(o: Owner, pause: Request, resume: Request)
    requires Consistent(o) && o.state != PAUSED && Signed(pause) && Signed(resume)
    requires pause.action == PAUSE && resume.action == RESUME
    ensures Play(o, [pause, resume]) ==
            Some(o.(epoch := o.epoch + 2, state := if o.state == STEADY then STEADY else SHADOWING))
  {
    var o1 := o.(epoch := o.epoch + 1, state := PAUSED);
    var o2 := o.(epoch := o.epoch + 2, state := if o.state == STEADY then STEADY else SHADOWING);
    PauseGives(o, pause, o1);
    ResumeGives(o1, resume, o2);
    PlayTwo(o, pause, o1, resume, o2, []);
    assert [pause, resume] + [] == [pause, resume];
  }

  lemma PauseGives(o: Owner, pause: Request, o': Owner)
    requires o.state != PAUSED && Signed(pause) && pause.action == PAUSE
    requires o' == o.(epoch := o.epoch + 1, state := PAUSED)
    ensures Gives(o, pause, o')
  {
    SignedIsText(pause);
  }

  lemma ResumeGives(o: Owner, resume: Request, o': Owner)
    requires o.state == PAUSED && Signed(resume) && resume.action == RESUME
    requires o' == o.(epoch := o.epoch + 1, state := if o.shadow.None? then STEADY else SHADOWING)
    ensures Gives(o, resume, o')
  {
    SignedIsText(resume);
  }

  /** An assignment, forced or not, makes the named engine steady under the next epoch; forcing one so ends a
      pause. */
  lemma AssignmentIsSteady(o: Owner, r: Request)
    requires Consistent(o) && r.action in {ASSIGN, FORCE_ASSIGN} && Signed(r) && Allowed(o, r)
    ensures Gives(o, r, Owner(r.engine.value, None, STEADY, o.epoch + 1, o.lastReconciliation, o.shadowRequestedBy))
  {
    SignedIsText(r);
  }

  /** A retired source's table belongs to nobody, keeps nothing of its shadow, and can be given away at once. */
  lemma RetiredIsFree(o: Owner, r: Request)
    requires Consistent(o) && r.action == ASSIGN && Signed(r) && Runs(r.engine)
    ensures Retired(o).engine == NONE && RowConstraints(Retired(o))
    ensures Gives(Retired(o), r, Owner(r.engine.value, None, STEADY, o.epoch + 2, o.lastReconciliation, None))
  {
    SignedIsText(r);
  }

  /** However far a handover has come, aborting it leaves production where it was when the shadow started. */
  lemma AbortRestores(states: seq<Owner>, events: seq<Event>, i: nat) returns (k: nat)
    requires History(states, events) && i < |events| && IsRequest(events[i], ABORT_SHADOW)
    ensures k < i && IsRequest(events[k], START_SHADOW)
    ensures states[i + 1].engine == states[k].engine
    ensures states[i + 1].shadow == states[k].shadow == None && states[i + 1].state == STEADY
    ensures states[i + 1].shadowRequestedBy == None && states[i + 1].lastReconciliation == None
  {
    assert Happens(states[i], events[i], states[i + 1]);
    k := ShadowOrigin(states, events, i);
    HistoryConsistent(states, events, k);
    assert Happens(states[k], events[k], states[k + 1]);
    ShadowKeepsEngine(states, events, k, i);
  }

  lemma {:induction false} ShadowKeepsEngine(states: seq<Owner>, events: seq<Event>, k: nat, i: nat)
    requires History(states, events) && k < i < |states| && IsRequest(events[k], START_SHADOW)
    requires forall m | k < m < i :: KeepsShadow(events[m])
    ensures states[i].engine == states[k].engine && states[i].shadow.Some?
    decreases i
  {
    assert Happens(states[i - 1], events[i - 1], states[i]);
    if i > k + 1 {
      ShadowKeepsEngine(states, events, k, i - 1);
    }
  }
}
