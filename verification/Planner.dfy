/** Desired-state reconciliation of Kafka Connect connectors (controlplane/connectors.py, plan_actions;
    controlplane/reconciler.py, reconcile). */
module Planner {
  import opened Naming
  import opened Sorting

  type Config = map<string, string>

  datatype Place = Place(cluster: string, name: string)

  datatype Desired = Desired(place: Place, config: Config, paused: bool)

  datatype Connector = Connector(config: Config, state: string, tasks: seq<string>)

  /** The connectors of the clusters that answered. */
  type World = map<Place, Connector>

  datatype Kind = CREATE | UPDATE | RESTART_FAILED | PAUSE | RESUME | DELETE

  datatype Act = Act(kind: Kind, place: Place, config: Config)

  datatype Settings = Settings(maxCreates: nat, maxDeletes: nat, deleteOrphans: bool, protect: set<string>)

  datatype Plan = Plan(actions: seq<Act>, deferred: seq<string>)

  function Joined(a: Plan, b: Plan): Plan { Plan(a.actions + b.actions, a.deferred + b.deferred) }

  lemma JoinAssociates(a: Plan, b: Plan, c: Plan)
    ensures Joined(Joined(a, b), c) == Joined(a, Joined(b, c))
  {
  }

  // ---- Orders ----

  predicate PlaceLe(a: Place, b: Place) {
    if a.cluster == b.cluster then LexLe(a.name, b.name) else LexLe(a.cluster, b.cluster)
  }

  predicate DesiredLe(a: Desired, b: Desired) { LexLe(a.place.name, b.place.name) }

  lemma OrdersAreTotal()
    ensures Total(PlaceLe) && Total(DesiredLe)
  {
    forall a: Place, b: Place ensures PlaceLe(a, b) || PlaceLe(b, a) {
      LexTotal(a.cluster, b.cluster);
      LexTotal(a.name, b.name);
    }
    forall a: Desired, b: Desired ensures DesiredLe(a, b) || DesiredLe(b, a) { LexTotal(a.place.name, b.place.name); }
  }

  /** Both passes of a plan go over everything once: wanted connectors by name, observed ones by cluster and,
      within one, by name. */
  lemma PlansInOrder(ds: seq<Desired>, keys: seq<Place>)
    ensures multiset(Sort(DesiredLe, ds)) == multiset(ds) && multiset(Sort(PlaceLe, keys)) == multiset(keys)
    ensures var xs := Sort(DesiredLe, ds); forall i | 0 < i < |xs| :: LexLe(xs[i - 1].place.name, xs[i].place.name)
    ensures var ps := Sort(PlaceLe, keys);
            forall i | 0 < i < |ps| ::
              && LexLe(ps[i - 1].cluster, ps[i].cluster)
              && (ps[i - 1].cluster == ps[i].cluster ==> LexLe(ps[i - 1].name, ps[i].name))
  {
    OrdersAreTotal();
    SortSorts(DesiredLe, ds);
    SortSorts(PlaceLe, keys);
    var xs, ps := Sort(DesiredLe, ds), Sort(PlaceLe, keys);
    forall i | 0 < i < |xs| ensures LexLe(xs[i - 1].place.name, xs[i].place.name) {
      assert DesiredLe(xs[i - 1], xs[i]);
    }
    forall i | 0 < i < |ps|
      ensures LexLe(ps[i - 1].cluster, ps[i].cluster)
      ensures ps[i - 1].cluster == ps[i].cluster ==> LexLe(ps[i - 1].name, ps[i].name)
    {
      assert PlaceLe(ps[i - 1], ps[i]);
      LexTotal(ps[i].cluster, ps[i].cluster);
    }
  }

  // ---- The plan ----

  predicate ConfigDiffers(want: Config, has: Config) {
    || (exists k | k in want :: !(k in has && has[k] == want[k]))
    || (exists k | k in has :: k !in want && k != "name")
  }

  predicate Failing(c: Connector) { c.state == "FAILED" || "FAILED" in c.tasks }

  function If(b: bool, a: Act): seq<Act> { if b then [a] else [] }

  /** What an existing connector needs. */
  function Fixes(d: Desired, c: Connector): seq<Act> {
    If(ConfigDiffers(d.config, c.config), Act(UPDATE, d.place, d.config))
    + (if d.paused && c.state != "PAUSED" then [Act(PAUSE, d.place, map[])]
       else If(!d.paused && c.state == "PAUSED", Act(RESUME, d.place, map[])))
    + If(Failing(c), Act(RESTART_FAILED, d.place, map[]))
  }

  function Creation(d: Desired): seq<Act> {
    [Act(CREATE, d.place, d.config)] + If(d.paused, Act(PAUSE, d.place, map[]))
  }

  /** The plan for one desired connector, `created` of the allowed creations being used up. */
  function PlanOne(d: Desired, w: World, s: Settings, created: nat): Plan {
    if d.place in w then Plan(Fixes(d, w[d.place]), [])
    else if created >= s.maxCreates then Plan([], [d.place.name])
    else Plan(Creation(d), [])
  }

  function Used(d: Desired, w: World, s: Settings, created: nat): nat {
    if d.place !in w && created < s.maxCreates then created + 1 else created
  }

  function PlanDesired(ds: seq<Desired>, w: World, s: Settings, created: nat): Plan {
    if ds == [] then Plan([], [])
    else
      var one := PlanOne(ds[0], w, s, created);
      Joined(one, PlanDesired(ds[1..], w, s, Used(ds[0], w, s, created)))
  }

  /** Managed connectors that nobody wants any more and that are not protected. */
  predicate IsOrphan(p: Place, ds: seq<Desired>, s: Settings) {
    && StartsWith(p.name, CONNECTOR_PREFIX)
    && !(exists d | d in ds :: d.place == p)
    && p.name !in s.protect
  }

  function PlanDeletes(places: seq<Place>, ds: seq<Desired>, s: Settings, deleted: nat): Plan {
    if places == [] then Plan([], [])
    else
      var p := places[0];
      if !IsOrphan(p, ds, s) then PlanDeletes(places[1..], ds, s, deleted)
      else if deleted >= s.maxDeletes then Joined(Plan([], [p.name]), PlanDeletes(places[1..], ds, s, deleted))
      else Joined(Plan([Act(DELETE, p, map[])], []), PlanDeletes(places[1..], ds, s, deleted + 1))
  }

  function PlanAll(ds: seq<Desired>, w: World, keys: seq<Place>, s: Settings): Plan {
    var wanted := PlanDesired(Sort(DesiredLe, ds), w, s, 0);
    var gone := if s.deleteOrphans then PlanDeletes(Sort(PlaceLe, keys), ds, s, 0) else Plan([], []);
    Joined(wanted, gone)
  }

  // ---- What the actions do on Connect ----

  /** Connect adds the connector's own name to a configuration that lacks it. */
  function Stored(name: string, config: Config): Config {
    if "name" in config then config else config["name" := name]
  }

  function Restarted(tasks: seq<string>): seq<string> {
    seq(|tasks|, i requires 0 <= i < |tasks| => if tasks[i] == "FAILED" then "RUNNING" else tasks[i])
  }

  function Changed(c: Connector, a: Act): Connector {
    match a.kind
    case CREATE | UPDATE => c.(config := Stored(a.place.name, a.config))
    case PAUSE => c.(state := "PAUSED")
    case RESUME => c.(state := "RUNNING")
    case RESTART_FAILED => c.(state := if c.state == "FAILED" then "RUNNING" else c.state, tasks := Restarted(c.tasks))
    case DELETE => c
  }

  function Do(w: World, a: Act): World {
    if a.kind == DELETE then w - {a.place}
    else if a.place in w then w[a.place := Changed(w[a.place], a)]
    else if a.kind == CREATE || a.kind == UPDATE then
      w[a.place := Connector(Stored(a.place.name, a.config), "RUNNING", ["RUNNING"])]
    else w
  }

  function Execute(w: World, acts: seq<Act>): World
    decreases acts
  {
    if acts == [] then w else Execute(Do(w, acts[0]), acts[1..])
  }

  method PlanNext(d: Desired, w: World, s: Settings, creates: nat) returns (one: Plan, used: nat)
    ensures one == PlanOne(d, w, s, creates) && used == Used(d, w, s, creates)
  {
    if d.place !in w {
      if creates >= s.maxCreates { return Plan([], [d.place.name]), creates; }
      return Plan(Creation(d), []), creates + 1;
    }
    return Plan(Fixes(d, w[d.place]), []), creates;
  }

  method PlanWanted(sorted: seq<Desired>, w: World, s: Settings) returns (plan: Plan)
    ensures plan == PlanDesired(sorted, w, s, 0)
  {
    plan := Plan([], []);
    var creates := 0;
    ghost var rest := PlanDesired(sorted, w, s, 0);
    for i := 0 to |sorted|
      invariant rest == PlanDesired(sorted[i..], w, s, creates)
      invariant Joined(plan, rest) == PlanDesired(sorted, w, s, 0)
    {
      var one, used := PlanNext(sorted[i], w, s, creates);
      assert sorted[i..][1..] == sorted[i + 1..];
      rest := PlanDesired(sorted[i + 1..], w, s, used);
      JoinAssociates(plan, one, rest);
      plan, creates := Joined(plan, one), used;
    }
  }

  method PlanGone(places: seq<Place>, ds: seq<Desired>, s: Settings) returns (plan: Plan)
    ensures plan == PlanDeletes(places, ds, s, 0)
  {
    plan := Plan([], []);
    var deletes := 0;
    for i := 0 to |places|
      invariant Joined(plan, PlanDeletes(places[i..], ds, s, deletes)) == PlanDeletes(places, ds, s, 0)
    {
      var p := places[i];
      assert places[i..][0] == p && places[i..][1..] == places[i + 1..];
      if !IsOrphan(p, ds, s) { continue; }
      if deletes >= s.maxDeletes {
        JoinAssociates(plan, Plan([], [p.name]), PlanDeletes(places[i + 1..], ds, s, deletes));
        plan := Joined(plan, Plan([], [p.name]));
        continue;
      }
      deletes := deletes + 1;
      JoinAssociates(plan, Plan([Act(DELETE, p, map[])], []), PlanDeletes(places[i + 1..], ds, s, deletes));
      plan := Joined(plan, Plan([Act(DELETE, p, map[])], []));
    }
  }

  /** plan_actions. `keys` is the order in which the observed connectors come. */
  method PlanActions(ds: seq<Desired>, w: World, keys: seq<Place>, s: Settings) returns (plan: Plan)
    ensures plan == PlanAll(ds, w, keys, s)
  {
    plan := PlanWanted(Sort(DesiredLe, ds), w, s);
    if s.deleteOrphans {
      var gone := PlanGone(Sort(PlaceLe, keys), ds, s);
      plan := Joined(plan, gone);
    }
  }
}
