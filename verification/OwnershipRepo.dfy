/** Applying one request to many tables (controlplane/ownership_repo.py, apply): what is committed when
    something fails on the way. */
module OwnershipRepo {
  import opened Options
  import opened Ownership
  import opened OwnershipFlows
  import opened Sorting

  /** One table of a source: its ownership row and the contents of its production and shadow copies. */
  datatype TableState = TableState(owner: Owner, prod: seq<int>, shadow: seq<int>)

  /** The rows of one source. */
  datatype Db = Db(tables: map<string, TableState>, generation: int)

  function AfterEffect(t: TableState, e: SideEffect): TableState {
    match e
    case PROMOTE_SHADOW => t.(prod := t.shadow, shadow := [])
    case CLEAR_SHADOW => t.(shadow := [])
  }

  function AfterEffects(t: TableState, es: seq<SideEffect>): TableState
    decreases es
  {
    if es == [] then t else AfterEffects(AfterEffect(t, es[0]), es[1..])
  }

  /** What a call reads besides the rows: whether and how dual control applies and, for a cutover, whether
      each table's reconciliation stands and who has approved in the database. */
  datatype Checks = Checks(dual: bool, database: bool, valid: string -> bool, approver: string -> Option<string>)

  /** The request as it reaches one table; None where database-mode dual control lacks an approval. */
  function RequestFor(r: Request, checks: Checks, name: string): Option<Request> {
    var q := r.(requireDualControl := checks.dual);
    if r.action != CUTOVER then Some(q)
    else
      var cut := q.(reconciliationValid := Some(checks.valid(name)));
      if !(checks.dual && checks.database) then Some(cut)
      else if checks.approver(name).None? then None
      else Some(cut.(approvedBy := checks.approver(name), databaseEnforcedApproval := true))
  }

  /** What a call does to one table: None where the transition is refused. */
  type Mover = (string, TableState) -> Option<TableState>

  function MoveFor(r: Request, checks: Checks): Mover {
    (name: string, t: TableState) =>
      var q := RequestFor(r, checks, name);
      if q.None? then None
      else
        var outcome := Transition(t.owner, q.value);
        if outcome.Rejected? then None
        else Some(AfterEffects(t.(owner := outcome.current), outcome.effects))
  }

  /** One table's share of the transaction; None also where it has no ownership row. */
  function OneTable(db: Db, name: string, move: Mover): Option<TableState> {
    if name !in db.tables then None else move(name, db.tables[name])
  }

  function Deduped(names: seq<string>): seq<string> {
    if names == [] then []
    else
      var rest := Deduped(names[..|names| - 1]);
      var last := names[|names| - 1];
      if last in rest then rest else rest + [last]
  }

  /** sorted(set(tables)). */
  function SortedOnce(names: seq<string>): seq<string> { Sort(LexLe, Deduped(names)) }

  /** The source's rows after the first n tables of the list were moved. */
  function AfterMoves(db: Db, names: seq<string>, n: nat, move: Mover): Db
    requires n <= |names|
  {
    if n == 0 then db
    else
      var before := AfterMoves(db, names, n - 1, move);
      var table := OneTable(before, names[n - 1], move);
      if table.None? then before else before.(tables := before.tables[names[n - 1] := table.value])
  }

  /** The i-th table of the list can move once those before it have. */
  ghost predicate MovesAt(db: Db, names: seq<string>, i: nat, move: Mover)
    requires i < |names|
  {
    OneTable(AfterMoves(db, names, i, move), names[i], move).Some?
  }

  ghost predicate CanMove(db: Db, table: string, move: Mover) {
    OneTable(db, table, move).Some?
  }

  class Repository {
    var committed: Db

    constructor (db: Db)
      ensures committed == db
    {
      committed := db;
    }

    /** `broken(i)` says that a statement for the i-th table fails, and `broken(n)`, n being the number of
        tables, that one of the closing statements does. */
    method Apply(tables: seq<string>, r: Request, checks: Checks, broken: nat -> bool)
        returns (ok: bool, done: nat)
      modifies this
      ensures Did(old(committed), committed, SortedOnce(tables), r, MoveFor(r, checks), broken, ok, done)
    {
      ok, done := ApplyList(SortedOnce(tables), r, MoveFor(r, checks), broken);
    }

    method ApplyList(names: seq<string>, r: Request, move: Mover, broken: nat -> bool)
        returns (ok: bool, done: nat)
      modifies this
      ensures Did(old(committed), committed, names, r, move, broken, ok, done)
    {
      var work := committed;
      done := 0;
      ok := false;
      while done < |names|
        invariant done <= |names| && !ok
        invariant work == AfterMoves(old(committed), names, done, move)
        invariant committed == if r.action == CUTOVER then work else old(committed)
        invariant forall i | 0 <= i < done :: !broken(i) && MovesAt(old(committed), names, i, move)
      {
        if broken(done) { return; }
        var next := OneTable(work, names[done], move);
        assert next.Some? <==> MovesAt(old(committed), names, done, move);
        if next.None? { return; }
        assert AfterMoves(old(committed), names, done + 1, move)
            == work.(tables := work.tables[names[done] := next.value]);
        work := work.(tables := work.tables[names[done] := next.value]);
        done := done + 1;
        if r.action == CUTOVER { committed := work; }
      }
      if broken(|names|) { return; }
      if r.action == START_SHADOW && r.engine == Some(KAFKA) && done > 0 {
        work := work.(generation := work.generation + 1);
      }
      committed := work;
      ok := true;
    }
  }

  /** What a call has committed when it ends. Only a cutover leaves a trace of a call that failed: the
      tables before the one that failed. The capture generation rises by one for a start of a Kafka
      shadow that succeeds on at least one table. */
  ghost predicate Did(was: Db, now: Db, names: seq<string>, r: Request, move: Mover,
                      broken: nat -> bool, ok: bool, done: nat) {
    && done <= |names|
    && (ok <==> done == |names| && !broken(|names|))
    && (forall i | 0 <= i < done :: !broken(i) && MovesAt(was, names, i, move))
    && (done < |names| ==> broken(done) || !MovesAt(was, names, done, move))
    && now == if r.action == CUTOVER then AfterMoves(was, names, done, move)
              else if !ok then was
              else if r.action == START_SHADOW && r.engine == Some(KAFKA) && names != [] then
                var moved := AfterMoves(was, names, done, move);
                moved.(generation := moved.generation + 1)
              else AfterMoves(was, names, done, move)
  }

  ghost predicate AllDifferent(names: seq<string>) { forall i, j | 0 <= i < j < |names| :: names[i] != names[j] }

  lemma {:induction false} DedupedHolds(names: seq<string>)
    ensures forall x :: x in Deduped(names) <==> x in names
    ensures forall x | x in names :: multiset(Deduped(names))[x] == 1
  {
    if names == [] {
    } else {
      var front, last := names[..|names| - 1], names[|names| - 1];
      assert names == front + [last];
      DedupedHolds(front);
    }
  }

  lemma SortedOnceHolds(names: seq<string>)
    ensures forall x :: x in SortedOnce(names) <==> x in names
    ensures AllDifferent(SortedOnce(names))
    ensures Sorted(LexLe, SortedOnce(names))
  {
    var d, s := Deduped(names), SortedOnce(names);
    DedupedHolds(names);
    assert multiset(s) == multiset(d);
    forall x ensures x in s <==> x in names { assert x in multiset(s) <==> x in multiset(d); }
    forall i, j | 0 <= i < j < |s| ensures s[i] != s[j] { CountTwo(s, i, j); assert s[i] in names; }
    forall a: string, b: string ensures LexLe(a, b) || LexLe(b, a) { LexTotal(a, b); }
    SortSorts(LexLe, d);
  }

  lemma CountTwo(s: seq<string>, i: nat, j: nat)
    requires i < j < |s|
    ensures s[i] == s[j] ==> multiset(s)[s[i]] >= 2
  {
    assert s == s[..j] + [s[j]] + s[j + 1..];
    assert s[i] in s[..j];
  }

  lemma NoNamesIff(names: seq<string>)
    ensures SortedOnce(names) == [] <==> names == []
  {
    SortedOnceHolds(names);
    if names != [] { var x := names[0]; assert x in SortedOnce(names); }
    else { assert SortedOnce(names) == []; }
  }

  /** What a prefix of the list leaves: its tables moved, each from the state it had at the start and with
      its side effects; the others, and the generation, untouched. */
  lemma {:induction false} PrefixMoved(db: Db, names: seq<string>, n: nat, move: Mover, t: string)
    requires n <= |names| && AllDifferent(names)
    ensures var after := AfterMoves(db, names, n, move);
            && after.generation == db.generation
            && after.tables.Keys == db.tables.Keys
            && (t in after.tables ==>
                  after.tables[t] == if t in names[..n] && OneTable(db, t, move).Some?
                                     then OneTable(db, t, move).value else db.tables[t])
  {
    if n == 0 {
    } else {
      var name := names[n - 1];
      PrefixMoved(db, names, n - 1, move, t);
      PrefixMoved(db, names, n - 1, move, name);
      assert names[..n] == names[..n - 1] + [name];
      assert name !in names[..n - 1];
    }
  }

  /** Who approves a cutover of the table, and whom the approver must differ from: under the database's own
    dual control whoever it has recorded, who is no concern of the request. */
  predicate CutoverApproved(o: Owner, r: Request, checks: Checks, name: string) {
    checks.dual ==>
      if checks.database then Given(checks.approver(name))
      else Approved(r, if r.databaseEnforcedApproval then {} else {Some(r.actor), o.shadowRequestedBy})
  }

  /** Exactly when a table may move: it has a row, the request is signed, and it is allowed there; for a
      cutover the row is ready, its recorded reconciliation stands now, and dual control is satisfied. */
  lemma MovesIff(db: Db, name: string, r: Request, checks: Checks)
    requires name in db.tables ==> Consistent(db.tables[name].owner)
    ensures OneTable(db, name, MoveFor(r, checks)).Some? <==>
              && name in db.tables && Signed(r)
              && var o := db.tables[name].owner;
                 if r.action == CUTOVER then
                   && o.state == CUTOVER_READY && o.lastReconciliation.Some? && checks.valid(name)
                   && CutoverApproved(o, r, checks, name)
                 else Allowed(o, r.(requireDualControl := checks.dual))
  {
    if name in db.tables && RequestFor(r, checks, name).Some? {
      AcceptedIff(db.tables[name].owner, RequestFor(r, checks, name).value);
    }
  }

  /** In a committed cutover the promotion comes with the transition: the new owner is the old shadow
      engine and production holds what the shadow held. Under dual control it was approved, and where only
      the request says so, by neither its requester nor whoever started the shadow. */
  lemma CutoverPromotes(db: Db, t: string, r: Request, checks: Checks)
    requires r.action == CUTOVER && OneTable(db, t, MoveFor(r, checks)).Some?
    ensures var before, after := db.tables[t], OneTable(db, t, MoveFor(r, checks)).value;
            && before.owner.shadow == Some(after.owner.engine)
            && after.owner.epoch == before.owner.epoch + 1
            && after.prod == before.shadow && after.shadow == [] && checks.valid(t)
            && (checks.dual && checks.database ==> checks.approver(t).Some? && checks.approver(t).value != "")
            && (checks.dual && !checks.database && !r.databaseEnforcedApproval ==>
                  Given(r.approvedBy) && r.approvedBy !in {Some(r.actor), before.owner.shadowRequestedBy})
  {
    var before := db.tables[t];
    var moved := Transition(before.owner, RequestFor(r, checks, t).value);
    assert moved.effects == [PROMOTE_SHADOW];
    assert AfterEffects(before.(owner := moved.current), [PROMOTE_SHADOW])
        == AfterEffects(AfterEffect(before.(owner := moved.current), PROMOTE_SHADOW), []);
  }

  /** How many tables of the list a call has moved for good. */
  function Kept(r: Request, ok: bool, done: nat): nat { if r.action == CUTOVER || ok then done else 0 }

  /** A table's move does not depend on the tables moved before it in the same call. */
  lemma SameMove(db: Db, names: seq<string>, n: nat, move: Mover)
    requires n < |names| && AllDifferent(names)
    ensures OneTable(AfterMoves(db, names, n, move), names[n], move) == OneTable(db, names[n], move)
  {
    PrefixMoved(db, names, n, move, names[n]);
    assert names[n] !in names[..n];
  }

  /** A call succeeds exactly when no statement fails and every table's move is allowed where it stood. */
  lemma SucceedsIff(was: Db, now: Db, tables: seq<string>, r: Request, move: Mover,
                    broken: nat -> bool, ok: bool, done: nat)
    requires Did(was, now, SortedOnce(tables), r, move, broken, ok, done)
    ensures ok <==> (forall i | 0 <= i <= |SortedOnce(tables)| :: !broken(i))
                    && (forall i | 0 <= i < |SortedOnce(tables)| :: CanMove(was, SortedOnce(tables)[i], move))
  {
    SortedOnceHolds(tables);
    SucceedsOver(was, now, SortedOnce(tables), r, move, broken, ok, done);
  }

  lemma SucceedsOver(was: Db, now: Db, names: seq<string>, r: Request, move: Mover,
                        broken: nat -> bool, ok: bool, done: nat)
    requires Did(was, now, names, r, move, broken, ok, done)
    requires AllDifferent(names)
    ensures ok <==> (forall i | 0 <= i <= |names| :: !broken(i))
                    && (forall i | 0 <= i < |names| :: CanMove(was, names[i], move))
  {
    if done < |names| { SameMove(was, names, done, move); }
    else {
      forall i | 0 <= i < |names| ensures CanMove(was, names[i], move) && !broken(i) {
        SameMove(was, names, i, move);
        assert MovesAt(was, names, i, move);
      }
    }
  }

  /** All or nothing, except for a cutover. Of the sorted list a prefix has moved: all of it on success,
      none of it on failure, and for a failed cutover the tables before the failure. Every table of the
      prefix has moved from where it stood, side effects included, and no other table has changed. */
  lemma WhatIsCommitted(was: Db, now: Db, tables: seq<string>, r: Request, move: Mover,
                        broken: nat -> bool, ok: bool, done: nat, t: string)
    requires Did(was, now, SortedOnce(tables), r, move, broken, ok, done)
    ensures ok ==> Kept(r, ok, done) == |SortedOnce(tables)|
    ensures !ok && r.action != CUTOVER ==> now == was
    ensures now.tables.Keys == was.tables.Keys
    ensures t in was.tables ==>
              if t in SortedOnce(tables)[..Kept(r, ok, done)]
              then OneTable(was, t, move) == Some(now.tables[t])
              else now.tables[t] == was.tables[t]
    ensures now.generation == was.generation
              + if ok && r.action == START_SHADOW && r.engine == Some(KAFKA) && tables != [] then 1 else 0
  {
    var names := SortedOnce(tables);
    SortedOnceHolds(tables);
    NoNamesIff(tables);
    var kept := Kept(r, ok, done);
    PrefixMoved(was, names, kept, move, t);
    if t in names[..kept] {
      var i :| 0 <= i < kept && names[i] == t;
      SameMove(was, names, i, move);
      assert MovesAt(was, names, i, move);
    }
  }

  /** A table without a shadow engine has no shadow rows. */
  ghost predicate Tidy(t: TableState) { Consistent(t.owner) && (t.owner.shadow.None? ==> t.shadow == []) }

  lemma EffectsGive(t: TableState, e: SideEffect)
    ensures AfterEffects(t, [e]) == AfterEffect(t, e)
  {
    assert AfterEffects(t, [e]) == AfterEffects(AfterEffect(t, e), [e][1..]);
  }

  /** A move keeps its table tidy, starts a shadow empty, and touches production only by promotion. */
  lemma MoveKeepsTidy(db: Db, name: string, r: Request, checks: Checks)
    requires OneTable(db, name, MoveFor(r, checks)).Some? && Tidy(db.tables[name])
    ensures
      var before, after := db.tables[name], OneTable(db, name, MoveFor(r, checks)).value;
      && Tidy(after)
      && (after.owner.shadow != before.owner.shadow ==> after.shadow == [])
      && after.prod == if r.action == CUTOVER then before.shadow else before.prod
  {
    var before := db.tables[name];
    var q := RequestFor(r, checks, name).value;
    var outcome := Transition(before.owner, q);
    StepKeepsConstraints(before.owner, Requested(q), outcome.current);
    EffectsFollowShadow(before.owner, q);
    var moved := before.(owner := outcome.current);
    EffectsGive(moved, PROMOTE_SHADOW);
    EffectsGive(moved, CLEAR_SHADOW);
  }

  /** No call, whole or cut short, leaves shadow rows behind a table without a shadow engine. */
  lemma ApplyKeepsTidy(was: Db, now: Db, tables: seq<string>, r: Request, checks: Checks,
                       broken: nat -> bool, ok: bool, done: nat, t: string)
    requires Did(was, now, SortedOnce(tables), r, MoveFor(r, checks), broken, ok, done)
    requires t in was.tables && Tidy(was.tables[t])
    ensures t in now.tables && Tidy(now.tables[t])
  {
    var move := MoveFor(r, checks);
    WhatIsCommitted(was, now, tables, r, move, broken, ok, done, t);
    if OneTable(was, t, move).Some? { MoveKeepsTidy(was, t, r, checks); }
  }
}
