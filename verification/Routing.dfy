/** Where a change event goes: the sink's snapshot of ownership, the checks a batch must pass inside
    the warehouse transaction, and the fence shared by both engines. */
module Routing {
  import opened Options
  import opened Ownership

  /** meta.ingestion_ownership and meta.source_registry, as one transaction sees them. */
  datatype Meta = Meta(rows: map<(string, string), Owner>, registered: set<string>)

  /** Rows reference a registered source and epochs start at 1. */
  ghost predicate ValidMeta(m: Meta) {
    forall k | k in m.rows :: k.0 in m.registered && Consistent(m.rows[k])
  }

  predicate OfKafka(o: Owner) {
    o.engine == KAFKA || o.shadow == Some(KAFKA)
  }

  const NUL: char := '\0'

  /** OwnershipSnapshot.key; WarehouseWriter.verifySkips groups by the same text. */
  function Key(sourceId: string, table: string): string {
    sourceId + [NUL] + table
  }

  predicate Plain(s: string) {
    NUL !in s
  }

  lemma {:induction false} KeyInjective(s1: string, t1: string, s2: string, t2: string)
    requires Plain(s1) && Plain(s2) && Key(s1, t1) == Key(s2, t2)
    ensures s1 == s2 && t1 == t2
  {
    var k := Key(s1, t1);
    assert k[|s1|] == NUL && k[|s2|] == NUL;
    assert forall i | 0 <= i < |s1| :: k[i] == s1[i] && k[i] != NUL;
    assert forall i | 0 <= i < |s2| :: k[i] == s2[i] && k[i] != NUL;
    assert s1 == k[..|s1|] && s2 == k[..|s2|];
    assert t1 == k[|s1| + 1..] && t2 == k[|s2| + 1..];
  }

  datatype Target = PROD | SHADOW | SKIP | HOLD | UNKNOWN_SOURCE

  datatype Route = Route(target: Target, epoch: int)

  datatype Snapshot = Snapshot(entries: map<string, Owner>, sources: set<string>) {

    /** OwnershipSnapshot.route. */
    function RouteOf(sourceId: string, table: string): Route {
      if sourceId !in sources then Route(UNKNOWN_SOURCE, 0)
      else if Key(sourceId, table) !in entries then Route(SKIP, 0)
      else
        var e := entries[Key(sourceId, table)];
        if e.state == PAUSED then Route(HOLD, e.epoch)
        else if e.engine == KAFKA then Route(PROD, e.epoch)
        else if e.shadow == Some(KAFKA) then Route(SHADOW, e.epoch)
        else Route(SKIP, e.epoch)
    }

    /** Every entry is one the cache's query selects. */
    ghost predicate Filtered() {
      forall k | k in entries :: OfKafka(entries[k])
    }
  }

  /** The result set of the cache's ownership query over `m`. */
  ghost predicate SelectsKafka(result: seq<((string, string), Owner)>, m: Meta) {
    && (forall i | 0 <= i < |result| ::
          result[i].0 in m.rows && result[i].1 == m.rows[result[i].0] && OfKafka(result[i].1))
    && (forall k | k in m.rows && OfKafka(m.rows[k]) :: (k, m.rows[k]) in result)
  }

  /** The snapshot holds exactly the rows KAFKA owns or shadows, and the registered sources. */
  ghost predicate Shows(snap: Snapshot, m: Meta, registered: set<string>) {
    && snap.sources == registered && snap.Filtered()
    && forall s, t | Plain(s) ::
         if (s, t) in m.rows && OfKafka(m.rows[(s, t)])
         then Key(s, t) in snap.entries && snap.entries[Key(s, t)] == m.rows[(s, t)]
         else Key(s, t) !in snap.entries
  }

  /** OwnershipCache.load: the snapshot routes every table as its row says, and a table the sink has no
      part in as "skip, epoch 0". The sources are read by a statement of their own, perhaps at another
      moment than the rows of `m`. */
  method Load(result: seq<((string, string), Owner)>, registered: set<string>, ghost m: Meta) returns (snap: Snapshot)
    requires SelectsKafka(result, m)
    requires forall k | k in m.rows :: Plain(k.0)
    ensures Shows(snap, m, registered)
  {
    var entries := Collect(result, m);
    snap := Snapshot(entries, registered);
    forall s, t | Plain(s) && Key(s, t) in entries
      ensures (s, t) in m.rows && OfKafka(m.rows[(s, t)])
    {
      var j :| 0 <= j < |result| && Key(s, t) == Key(result[j].0.0, result[j].0.1);
      assert result[j] in result;
      KeyInjective(s, t, result[j].0.0, result[j].0.1);
    }
    forall s, t | Plain(s) && (s, t) in m.rows && OfKafka(m.rows[(s, t)])
      ensures Key(s, t) in entries && entries[Key(s, t)] == m.rows[(s, t)]
    {
      assert ((s, t), m.rows[(s, t)]) in result;
    }
  }

  /** The rows of the query's result by their joined key; no two rows share one. */
  method Collect(result: seq<((string, string), Owner)>, ghost m: Meta) returns (entries: map<string, Owner>)
    requires SelectsKafka(result, m) && forall k | k in m.rows :: Plain(k.0)
    ensures forall k | k in entries ::
      exists j | 0 <= j < |result| :: k == Key(result[j].0.0, result[j].0.1) && entries[k] == result[j].1
    ensures forall j | 0 <= j < |result| ::
      Key(result[j].0.0, result[j].0.1) in entries && entries[Key(result[j].0.0, result[j].0.1)] == result[j].1
  {
    entries := map[];
    for i := 0 to |result|
      invariant forall k | k in entries ::
        exists j | 0 <= j < i :: k == Key(result[j].0.0, result[j].0.1) && entries[k] == result[j].1
      invariant forall j | 0 <= j < i ::
        Key(result[j].0.0, result[j].0.1) in entries && entries[Key(result[j].0.0, result[j].0.1)] == result[j].1
    {
      var row := result[i];
      assert row in result;
      forall j | 0 <= j < i && Key(result[j].0.0, result[j].0.1) == Key(row.0.0, row.0.1)
        ensures result[j].1 == row.1
      {
        assert result[j] in result;
        KeyInjective(result[j].0.0, result[j].0.1, row.0.0, row.0.1);
      }
      entries := entries[Key(row.0.0, row.0.1) := row.1];
    }
  }

  const MUST_BE_UNREGISTERED := -1

  datatype SkipCheck = SkipCheck(sourceId: string, table: string, epoch: int)

  /** The test verifySkips makes on one row of its joined query. */
  predicate Stale(m: Meta, c: SkipCheck) {
    if c.epoch == MUST_BE_UNREGISTERED then c.sourceId in m.registered
    else (if (c.sourceId, c.table) in m.rows then m.rows[(c.sourceId, c.table)].epoch else 0) != c.epoch
  }

  /** Checks with one key are one check, as when all come from a single snapshot. */
  ghost predicate OneCheckPerKey(checks: seq<SkipCheck>) {
    forall i, j | 0 <= i < |checks| && 0 <= j < |checks|
      && Key(checks[i].sourceId, checks[i].table) == Key(checks[j].sourceId, checks[j].table) :: checks[i] == checks[j]
  }

  /** WarehouseWriter.verifySkips: keeping one check per key loses nothing. */
  method VerifySkips(m: Meta, checks: seq<SkipCheck>) returns (stale: bool)
    requires OneCheckPerKey(checks)
    ensures stale <==> exists i | 0 <= i < |checks| :: Stale(m, checks[i])
  {
    var distinct: map<string, SkipCheck> := map[];
    for i := 0 to |checks|
      invariant forall j | 0 <= j < i ::
        && Key(checks[j].sourceId, checks[j].table) in distinct
        && distinct[Key(checks[j].sourceId, checks[j].table)] == checks[j]
      invariant forall k | k in distinct :: distinct[k] in checks
    {
      distinct := distinct[Key(checks[i].sourceId, checks[i].table) := checks[i]];
    }
    var todo := distinct.Keys;
    stale := false;
    while todo != {} && !stale
      invariant todo <= distinct.Keys
      invariant stale ==> exists i | 0 <= i < |checks| :: Stale(m, checks[i])
      invariant !stale ==> forall k | k in distinct && k !in todo :: !Stale(m, distinct[k])
      decreases todo, !stale
    {
      var k :| k in todo;
      todo := todo - {k};
      stale := Stale(m, distinct[k]);
    }
  }

  /** The check the sink attaches to a skipped event. */
  function CheckFor(snap: Snapshot, sourceId: string, table: string): SkipCheck {
    var r := snap.RouteOf(sourceId, table);
    SkipCheck(sourceId, table, if r.target == UNKNOWN_SOURCE then MUST_BE_UNREGISTERED else r.epoch)
  }

  /** KAFKA has no part in the table. */
  ghost predicate NotKafkas(m: Meta, sourceId: string, table: string) {
    (sourceId, table) in m.rows ==> !OfKafka(m.rows[(sourceId, table)])
  }

  /** A skip that passes its check inside the transaction drops nothing KAFKA owns at that moment,
      however old the snapshot it was decided on. */
  lemma SkipDropsNothingOwned(m: Meta, snap: Snapshot, sourceId: string, table: string)
    requires ValidMeta(m) && snap.Filtered()
    requires snap.RouteOf(sourceId, table).target in {SKIP, UNKNOWN_SOURCE}
    requires !Stale(m, CheckFor(snap, sourceId, table))
    ensures NotKafkas(m, sourceId, table)
    ensures snap.RouteOf(sourceId, table).target == UNKNOWN_SOURCE ==> sourceId !in m.registered
  {
  }

  /** Exactly when a skip passes: its table has no ownership row at all or, for an unknown source, the
      source is still unregistered. The cache stamps epoch 0 on a table it did not load, and no row has
      that epoch. */
  lemma SkipPassesIff(m: Meta, snap: Snapshot, sourceId: string, table: string)
    requires ValidMeta(m) && snap.Filtered()
    requires snap.RouteOf(sourceId, table).target in {SKIP, UNKNOWN_SOURCE}
    ensures !Stale(m, CheckFor(snap, sourceId, table)) <==>
            if snap.RouteOf(sourceId, table).target == SKIP then (sourceId, table) !in m.rows
            else sourceId !in m.registered
  {
    if (sourceId, table) in m.rows { assert Consistent(m.rows[(sourceId, table)]); }
  }

  /** In particular a table that only PYTHON writes, of a source the snapshot knows, yields a skip that is
      refused as long as its row exists: refreshing cannot help. */
  lemma PythonSkipStaysFenced(m: Meta, snap: Snapshot, sourceId: string, table: string)
    requires ValidMeta(m) && snap.Filtered() && (sourceId, table) in m.rows && !OfKafka(m.rows[(sourceId, table)])
    requires sourceId in snap.sources && Key(sourceId, table) !in snap.entries
    ensures snap.RouteOf(sourceId, table).target == SKIP
    ensures Stale(m, CheckFor(snap, sourceId, table))
  {
    SkipPassesIff(m, snap, sourceId, table);
  }

  /** meta.apply_staged_batch: the staged row (stamped with `target` and `epoch`) passes the fence. */
  predicate Accepts(o: Option<Owner>, engine: Engine, target: Target, epoch: int) {
    && o.Some?
    && o.value.epoch == epoch
    && o.value.state != PAUSED
    && target in {PROD, SHADOW}
    && (target == PROD ==> o.value.engine == engine)
    && (target == SHADOW ==> o.value.shadow == Some(engine))
  }

  datatype Assignment = Assignment(target: Target, epoch: int)

  /** plan_assignments, the body of the loop for one ownership row. */
  function PythonPlan(o: Owner): seq<Assignment> {
    if o.state == PAUSED then []
    else
      (if o.engine == PYTHON then [Assignment(PROD, o.epoch)] else [])
      + (if o.shadow == Some(PYTHON) then [Assignment(SHADOW, o.epoch)] else [])
  }

  /** A stamp an engine may carry after seeing the row in state `o`. */
  ghost predicate Stamps(o: Owner, engine: Engine, a: Assignment) {
    match engine
    case PYTHON => a in PythonPlan(o)
    case KAFKA =>
      exists snap: Snapshot, s, t ::
        && s in snap.sources && Key(s, t) in snap.entries && snap.entries[Key(s, t)] == o
        && snap.RouteOf(s, t) == Route(a.target, a.epoch) && a.target in {PROD, SHADOW}
    case NONE => false
  }

  /** The Python engine works for exactly the targets the fence grants it. */
  lemma PythonPlanIff(o: Owner, a: Assignment)
    ensures a in PythonPlan(o) <==> Accepts(Some(o), PYTHON, a.target, a.epoch)
  {
  }

  lemma StampIsAuthority(o: Owner, engine: Engine, a: Assignment)
    requires Stamps(o, engine, a)
    ensures Accepts(Some(o), engine, a.target, a.epoch)
  {
  }

  /** And only such stamps: what the fence grants an engine on a row is exactly what the engine stamps when it
      sees that row. */
  lemma StampIff(o: Owner, engine: Engine, a: Assignment)
    requires Consistent(o) && engine != NONE
    ensures Stamps(o, engine, a) <==> Accepts(Some(o), engine, a.target, a.epoch)
  {
    if engine == KAFKA && Accepts(Some(o), engine, a.target, a.epoch) {
      var snap := Snapshot(map[Key("", "") := o], {""});
      assert snap.RouteOf("", "") == Route(a.target, a.epoch);
    }
  }

  /** Epoch fencing is sound: whatever an engine decided on a state of the row, however long ago, the
      fence's answer at commit is the comparison of epochs alone, and an accepted write lands on the
      target that engine owns at commit. */
  lemma EpochAloneFences(states: seq<Owner>, events: seq<Event>, seen: nat, commit: nat, engine: Engine, a: Assignment)
    requires History(states, events) && seen <= commit < |states|
    requires Stamps(states[seen], engine, a)
    ensures Accepts(Some(states[commit]), engine, a.target, a.epoch) <==> states[commit].epoch == a.epoch
    ensures states[commit].epoch == a.epoch && a.target == PROD ==> states[commit].engine == engine
    ensures states[commit].epoch == a.epoch && a.target == SHADOW ==>
      states[commit].shadow == Some(engine) && states[commit].engine != engine
  {
    StampIsAuthority(states[seen], engine, a);
    EpochNamesAuthority(states, events, seen, commit);
    HistoryConsistent(states, events, commit);
  }

  /** Two production writes accepted under one epoch come from one engine, even when they were decided
      and committed at different times. */
  lemma OneProductionWriter(states: seq<Owner>, events: seq<Event>,
                            seen1: nat, commit1: nat, engine1: Engine, a1: Assignment,
                            seen2: nat, commit2: nat, engine2: Engine, a2: Assignment)
    requires History(states, events)
    requires seen1 <= commit1 < |states| && Stamps(states[seen1], engine1, a1) && a1.target == PROD
    requires seen2 <= commit2 < |states| && Stamps(states[seen2], engine2, a2) && a2.target == PROD
    requires states[commit1].epoch == a1.epoch && states[commit2].epoch == a2.epoch
    requires a1.epoch == a2.epoch || commit1 == commit2
    ensures engine1 == engine2
  {
    EpochAloneFences(states, events, seen1, commit1, engine1, a1);
    EpochAloneFences(states, events, seen2, commit2, engine2, a2);
    if commit1 <= commit2 {
      EpochNamesAuthority(states, events, commit1, commit2);
    } else {
      EpochNamesAuthority(states, events, commit2, commit1);
    }
  }
}
