/** Rounds of planning and executing converge, within their limits, and delete only orphans. */
module PlannerProofs {
  import opened Planner

  /** No connector is wanted twice. */
  ghost predicate Distinct(ds: seq<Desired>) {
    && (forall d, e | d in ds && e in ds && d.place == e.place :: d == e)
    && NoDup(ds)
  }

  ghost predicate NoDup<T>(xs: seq<T>) { forall x | x in xs :: multiset(xs)[x] == 1 }

  ghost predicate Wants(ds: seq<Desired>, p: Place) { exists d | d in ds :: d.place == p }

  ghost function Missing(ds: seq<Desired>, w: World): set<Desired> { set d | d in ds && d.place !in w }

  ghost function Orphans(ds: seq<Desired>, s: Settings, w: World): set<Place> { set p | p in w && IsOrphan(p, ds, s) }

  function Less(n: int, k: int): int { if n > k then n - k else 0 }

  lemma {:induction false} ExecuteBoth(w: World, a: seq<Act>, b: seq<Act>)
    ensures Execute(w, a + b) == Execute(Execute(w, a), b)
    decreases a
  {
    if a == [] { assert a + b == b; }
    else {
      assert (a + b)[1..] == a[1..] + b;
      ExecuteBoth(Do(w, a[0]), a[1..], b);
    }
  }

  /** Several changes to one connector. */
  function ChangedBy(c: Connector, acts: seq<Act>): Connector
    decreases acts
  {
    if acts == [] then c else ChangedBy(Changed(c, acts[0]), acts[1..])
  }

  lemma {:induction false} ChangedByBoth(c: Connector, a: seq<Act>, b: seq<Act>)
    ensures ChangedBy(c, a + b) == ChangedBy(ChangedBy(c, a), b)
    decreases a
  {
    if a == [] { assert a + b == b; }
    else {
      assert (a + b)[1..] == a[1..] + b;
      ChangedByBoth(Changed(c, a[0]), a[1..], b);
    }
  }

  lemma ChangedByIf(c: Connector, on: bool, a: Act)
    ensures ChangedBy(c, If(on, a)) == if on then Changed(c, a) else c
  {
    if on { assert ChangedBy(c, [a]) == ChangedBy(Changed(c, a), [a][1..]); }
  }

  lemma {:induction false} ExecuteAt(w: World, p: Place, acts: seq<Act>)
    requires p in w && forall a | a in acts :: a.place == p && a.kind != DELETE
    ensures Execute(w, acts) == w[p := ChangedBy(w[p], acts)]
    decreases acts
  {
    if acts == [] { assert w == w[p := w[p]]; }
    else {
      ExecuteAt(Do(w, acts[0]), p, acts[1..]);
    }
  }

  lemma NoneFailed(tasks: seq<string>)
    ensures "FAILED" !in Restarted(tasks)
  {
  }

  lemma StoredInSync(name: string, config: Config)
    ensures !ConfigDiffers(config, Stored(name, config))
  {
  }

  /** The state a connector ends in. */
  lemma FixesGive(d: Desired, c: Connector)
    ensures ChangedBy(c, Fixes(d, c)).config ==
            if ConfigDiffers(d.config, c.config) then Stored(d.place.name, d.config) else c.config
    ensures ChangedBy(c, Fixes(d, c)).state ==
            if d.paused then "PAUSED" else if c.state == "PAUSED" || c.state == "FAILED" then "RUNNING" else c.state
    ensures ChangedBy(c, Fixes(d, c)).tasks == if Failing(c) then Restarted(c.tasks) else c.tasks
  {
    var first := If(ConfigDiffers(d.config, c.config), Act(UPDATE, d.place, d.config));
    var third := If(Failing(c), Act(RESTART_FAILED, d.place, map[]));
    var pause, resume := Act(PAUSE, d.place, map[]), Act(RESUME, d.place, map[]);
    var second := if d.paused && c.state != "PAUSED" then [pause] else If(!d.paused && c.state == "PAUSED", resume);
    ChangedByBoth(c, first + second, third);
    ChangedByBoth(c, first, second);
    ChangedByIf(c, ConfigDiffers(d.config, c.config), Act(UPDATE, d.place, d.config));
    var c1 := ChangedBy(c, first);
    ChangedByIf(c1, true, pause);
    ChangedByIf(c1, !d.paused && c.state == "PAUSED", resume);
    var c2 := ChangedBy(c1, second);
    ChangedByIf(c2, Failing(c), Act(RESTART_FAILED, d.place, map[]));
  }

  lemma FixesFixOne(d: Desired, c: Connector)
    ensures Fixes(d, ChangedBy(c, Fixes(d, c))) == []
  {
    FixesGive(d, c);
    StoredInSync(d.place.name, d.config);
    NoneFailed(c.tasks);
  }

  /** Fixing one connector leaves nothing to fix there and touches nothing else. */
  lemma FixesFix(d: Desired, w: World)
    requires d.place in w
    ensures var after := Execute(w, Fixes(d, w[d.place]));
            d.place in after && after == w[d.place := after[d.place]] && Fixes(d, after[d.place]) == []
  {
    ExecuteAt(w, d.place, Fixes(d, w[d.place]));
    FixesFixOne(d, w[d.place]);
  }

  lemma CreationFixes(d: Desired, w: World)
    requires d.place !in w
    ensures var after := Execute(w, Creation(d));
            d.place in after && after == w[d.place := after[d.place]] && Fixes(d, after[d.place]) == []
  {
    var w1 := Do(w, Creation(d)[0]);
    var rest := If(d.paused, Act(PAUSE, d.place, map[]));
    assert Creation(d)[1..] == rest;
    ExecuteAt(w1, d.place, rest);
    ChangedByIf(w1[d.place], d.paused, Act(PAUSE, d.place, map[]));
    StoredInSync(d.place.name, d.config);
  }

  // ---- One round over the desired connectors ----

  ghost predicate SameOutside(ds: seq<Desired>, w: World, v: World) {
    forall p | !Wants(ds, p) :: (p in w <==> p in v) && (p in w ==> w[p] == v[p])
  }

  ghost predicate Agree(ds: seq<Desired>, w: World, v: World) {
    forall d | d in ds :: (d.place in w <==> d.place in v) && (d.place in w ==> w[d.place] == v[d.place])
  }

  /** The connector is as desired. */
  ghost predicate AsDesired(d: Desired, c: Connector) {
    !ConfigDiffers(d.config, c.config) && (d.paused <==> c.state == "PAUSED") && !Failing(c)
  }

  /** As desired means: its configuration is the wanted one, a name of its own aside; it is paused exactly if
      it should be; and neither it nor a task of it has failed. */
  lemma AsDesiredMeans(d: Desired, c: Connector)
    ensures AsDesired(d, c) <==>
            && (forall k | k != "name" || k in d.config ::
                  (k in d.config <==> k in c.config) && (k in d.config ==> c.config[k] == d.config[k]))
            && (c.state == "PAUSED" <==> d.paused) && c.state != "FAILED"
            && (forall i | 0 <= i < |c.tasks| :: c.tasks[i] != "FAILED")
  {
  }

  lemma NothingToFix(d: Desired, c: Connector)
    ensures Fixes(d, c) == [] <==> AsDesired(d, c)
  {
  }

  ghost predicate AllAsDesired(ds: seq<Desired>, w: World) {
    forall d | d in ds && d.place in w :: AsDesired(d, w[d.place])
  }

  lemma MissingTail(ds: seq<Desired>, w: World)
    requires Distinct(ds) && ds != []
    ensures |Missing(ds, w)| == (if ds[0].place in w then 0 else 1) + |Missing(ds[1..], w)|
  {
    FirstOnce(ds);
    MissingWith(ds[0], ds[1..], w);
    assert ds == [ds[0]] + ds[1..];
  }

  lemma FirstOnce<T>(xs: seq<T>)
    requires NoDup(xs) && xs != []
    ensures xs[0] !in xs[1..] && NoDup(xs[1..])
  {
    var x, rest := xs[0], xs[1..];
    assert xs == [x] + rest;
    assert multiset(xs) == multiset{x} + multiset(rest);
    assert x in xs && x !in rest;
    forall y | y in rest ensures multiset(rest)[y] == 1 { assert y in xs; }
  }

  lemma MissingWith(d: Desired, rest: seq<Desired>, w: World)
    requires d !in rest
    ensures |Missing([d] + rest, w)| == (if d.place in w then 0 else 1) + |Missing(rest, w)|
  {
    if d.place in w { assert Missing([d] + rest, w) == Missing(rest, w); }
    else { assert Missing([d] + rest, w) == Missing(rest, w) + {d}; }
  }

  lemma DistinctTail(ds: seq<Desired>)
    requires Distinct(ds) && ds != []
    ensures Distinct(ds[1..]) && forall e | e in ds[1..] :: e.place != ds[0].place
  {
    FirstOnce(ds);
    assert ds == [ds[0]] + ds[1..];
    forall e | e in ds[1..] ensures e.place != ds[0].place { assert e in ds && ds[0] in ds; }
  }

  ghost predicate SameBut(q: Place, v: World, v1: World) {
    forall p | p != q :: (p in v1 <==> p in v) && (p in v ==> v1[p] == v[p])
  }

  /** What one step of the plan does. */
  ghost predicate Stepped(d: Desired, w: World, v: World, v1: World, s: Settings, created: nat) {
    && SameBut(d.place, v, v1)
    && (d.place in v1 ==> AsDesired(d, v1[d.place]))
    && (d.place in v1 <==> d.place in w || created < s.maxCreates)
  }

  lemma OneStep(d: Desired, w: World, v: World, s: Settings, created: nat)
    requires d.place in w <==> d.place in v
    requires d.place in w ==> w[d.place] == v[d.place]
    ensures Stepped(d, w, v, Execute(v, PlanOne(d, w, s, created).actions), s, created)
  {
    var after := Execute(v, PlanOne(d, w, s, created).actions);
    if d.place in w { FixesFix(d, v); NothingToFix(d, after[d.place]); }
    else if created < s.maxCreates { CreationFixes(d, v); NothingToFix(d, after[d.place]); }
  }

  /** What the plan for desired connectors, made for w, does in a world v that agrees on them: those that
      exist are in order, the allowed number of missing ones now exists, and nothing else changes. */
  ghost predicate WantedDone(ds: seq<Desired>, w: World, v: World, after: World, s: Settings, created: nat) {
    && SameOutside(ds, v, after)
    && AllAsDesired(ds, after)
    && |Missing(ds, after)| == Less(|Missing(ds, w)|, s.maxCreates - created)
    && (forall d | d in ds && d.place in w :: d.place in after)
  }

  lemma {:induction false} WantedRound(ds: seq<Desired>, w: World, v: World, s: Settings, created: nat)
    requires Distinct(ds) && Agree(ds, w, v) && created <= s.maxCreates
    ensures WantedDone(ds, w, v, Execute(v, PlanDesired(ds, w, s, created).actions), s, created)
    decreases ds
  {
    if ds == [] {
    } else {
      var d, rest := ds[0], ds[1..];
      var one := PlanOne(d, w, s, created);
      var used := Used(d, w, s, created);
      assert d in ds;
      OneStep(d, w, v, s, created);
      var v1 := Execute(v, one.actions);
      ExecuteBoth(v, one.actions, PlanDesired(rest, w, s, used).actions);
      DistinctTail(ds);
      AgreeTail(ds, w, v, v1);
      WantedRound(rest, w, v1, s, used);
      WantedStep(ds, w, v, v1, Execute(v1, PlanDesired(rest, w, s, used).actions), s, created);
    }
  }

  lemma WantedStep(ds: seq<Desired>, w: World, v: World, v1: World, after: World, s: Settings, created: nat)
    requires ds != [] && Distinct(ds) && created <= s.maxCreates
    requires Stepped(ds[0], w, v, v1, s, created)
    requires WantedDone(ds[1..], w, v1, after, s, Used(ds[0], w, s, created))
    ensures WantedDone(ds, w, v, after, s, created)
  {
    var d := ds[0];
    DistinctTail(ds);
    assert !Wants(ds[1..], d.place);
    assert d.place in after <==> d.place in v1;
    TailSame(ds, v, v1, after);
    TailSettled(ds, v1, after);
    CountStep(ds, w, after, s, created);
    assert ds == [d] + ds[1..];
  }

  lemma CountStep(ds: seq<Desired>, w: World, after: World, s: Settings, created: nat)
    requires ds != [] && Distinct(ds) && created <= s.maxCreates
    requires ds[0].place in after <==> ds[0].place in w || created < s.maxCreates
    requires |Missing(ds[1..], after)| == Less(|Missing(ds[1..], w)|, s.maxCreates - Used(ds[0], w, s, created))
    ensures |Missing(ds, after)| == Less(|Missing(ds, w)|, s.maxCreates - created)
  {
    MissingTail(ds, w);
    MissingTail(ds, after);
  }

  lemma AgreeTail(ds: seq<Desired>, w: World, v: World, v1: World)
    requires ds != [] && Agree(ds, w, v) && (forall e | e in ds[1..] :: e.place != ds[0].place)
    requires SameBut(ds[0].place, v, v1)
    ensures Agree(ds[1..], w, v1)
  {
    forall e | e in ds[1..] ensures (e.place in w <==> e.place in v1) && (e.place in w ==> w[e.place] == v1[e.place]) {
      assert e in ds;
    }
  }

  lemma TailSame(ds: seq<Desired>, v: World, v1: World, after: World)
    requires ds != [] && SameOutside(ds[1..], v1, after)
    requires SameBut(ds[0].place, v, v1)
    ensures SameOutside(ds, v, after)
  {
    forall p | !Wants(ds, p) ensures (p in v <==> p in after) && (p in v ==> v[p] == after[p]) {
      assert ds[0] in ds && forall e | e in ds[1..] :: e in ds;
      assert !Wants(ds[1..], p);
    }
  }

  lemma TailSettled(ds: seq<Desired>, v1: World, after: World)
    requires ds != [] && AllAsDesired(ds[1..], after) && SameOutside(ds[1..], v1, after) && !Wants(ds[1..], ds[0].place)
    requires ds[0].place in v1 ==> AsDesired(ds[0], v1[ds[0].place])
    ensures AllAsDesired(ds, after)
  {
    forall e | e in ds && e.place in after ensures AsDesired(e, after[e.place]) {
      assert e == ds[0] || e in ds[1..];
    }
  }

  // ---- One round over the orphans ----

  ghost function OrphansAmong(places: seq<Place>, ds: seq<Desired>, s: Settings, w: World): set<Place> {
    set p | p in places && p in w && IsOrphan(p, ds, s)
  }

  ghost predicate OnlyOrphansGone(ds: seq<Desired>, s: Settings, w: World, after: World) {
    && (forall p | p in after :: p in w && after[p] == w[p])
    && (forall p | p in w && !IsOrphan(p, ds, s) :: p in after)
  }

  lemma OrphansTail(places: seq<Place>, ds: seq<Desired>, s: Settings, w: World)
    requires NoDup(places) && places != []
    ensures NoDup(places[1..]) && places[0] !in places[1..]
    ensures |OrphansAmong(places, ds, s, w)|
         == (if places[0] in w && IsOrphan(places[0], ds, s) then 1 else 0) + |OrphansAmong(places[1..], ds, s, w)|
  {
    var p, rest := places[0], places[1..];
    FirstOnce(places);
    assert places == [p] + rest;
    var few := OrphansAmong(rest, ds, s, w);
    if p in w && IsOrphan(p, ds, s) { assert OrphansAmong(places, ds, s, w) == few + {p}; }
    else { assert OrphansAmong(places, ds, s, w) == few; }
  }

  ghost predicate GoneDone(places: seq<Place>, ds: seq<Desired>, s: Settings, w: World, after: World, deleted: nat) {
    && OnlyOrphansGone(ds, s, w, after)
    && (forall p | p in w && p !in places :: p in after)
    && |OrphansAmong(places, ds, s, after)| == Less(|OrphansAmong(places, ds, s, w)|, s.maxDeletes - deleted)
  }

  lemma {:induction false} GoneRound(places: seq<Place>, ds: seq<Desired>, s: Settings, w: World, deleted: nat)
    requires NoDup(places) && AllThere(places, ds, s, w) && deleted <= s.maxDeletes
    ensures GoneDone(places, ds, s, w, Execute(w, PlanDeletes(places, ds, s, deleted).actions), deleted)
    decreases places
  {
    if places == [] {
    } else {
      var p, rest := places[0], places[1..];
      TailThere(places, ds, s, w);
      FirstDelete(places, ds, s, w, deleted);
      if !IsOrphan(p, ds, s) || deleted >= s.maxDeletes {
        GoneRound(rest, ds, s, w, deleted);
      } else {
        GoneRound(rest, ds, s, w - {p}, deleted + 1);
      }
      GoneStep(places, ds, s, w, Execute(w, PlanDeletes(places, ds, s, deleted).actions), deleted);
    }
  }

  lemma GoneStep(places: seq<Place>, ds: seq<Desired>, s: Settings, w: World, after: World, deleted: nat)
    requires places != [] && NoDup(places) && AllThere(places, ds, s, w) && deleted <= s.maxDeletes
    requires
      if !IsOrphan(places[0], ds, s) || deleted >= s.maxDeletes then GoneDone(places[1..], ds, s, w, after, deleted)
      else GoneDone(places[1..], ds, s, w - {places[0]}, after, deleted + 1)
    ensures GoneDone(places, ds, s, w, after, deleted)
  {
    TailThere(places, ds, s, w);
    if !IsOrphan(places[0], ds, s) || deleted >= s.maxDeletes {
      KeptStep(places, ds, s, w, after, deleted);
    } else {
      DeletedStep(places, ds, s, w, after, deleted);
    }
  }

  /** The orphans of the list exist. */
  ghost predicate AllThere(places: seq<Place>, ds: seq<Desired>, s: Settings, w: World) {
    forall p | p in places && IsOrphan(p, ds, s) :: p in w
  }

  lemma TailThere(places: seq<Place>, ds: seq<Desired>, s: Settings, w: World)
    requires places != [] && NoDup(places) && AllThere(places, ds, s, w)
    ensures NoDup(places[1..]) && AllThere(places[1..], ds, s, w) && AllThere(places[1..], ds, s, w - {places[0]})
    ensures IsOrphan(places[0], ds, s) ==> places[0] in w
  {
    FirstOnce(places);
    assert places[0] in places && forall p | p in places[1..] :: p in places;
  }

  /** What the plan does about its first place. */
  lemma FirstDelete(places: seq<Place>, ds: seq<Desired>, s: Settings, w: World, deleted: nat)
    requires places != []
    ensures Execute(w, PlanDeletes(places, ds, s, deleted).actions)
         == if !IsOrphan(places[0], ds, s) || deleted >= s.maxDeletes
            then Execute(w, PlanDeletes(places[1..], ds, s, deleted).actions)
            else Execute(w - {places[0]}, PlanDeletes(places[1..], ds, s, deleted + 1).actions)
  {
    var p, rest := places[0], places[1..];
    if IsOrphan(p, ds, s) && deleted < s.maxDeletes {
      var tail := PlanDeletes(rest, ds, s, deleted + 1).actions;
      assert ([Act(DELETE, p, map[])] + tail)[1..] == tail;
    } else {
      var tail := PlanDeletes(rest, ds, s, deleted).actions;
      assert [] + tail == tail;
    }
  }

  lemma KeptStep(places: seq<Place>, ds: seq<Desired>, s: Settings, w: World, after: World, deleted: nat)
    requires places != [] && NoDup(places) && deleted <= s.maxDeletes
    requires !IsOrphan(places[0], ds, s) || (deleted >= s.maxDeletes && places[0] in w)
    requires GoneDone(places[1..], ds, s, w, after, deleted)
    ensures GoneDone(places, ds, s, w, after, deleted)
  {
    assert places == [places[0]] + places[1..];
    OrphansTail(places, ds, s, w);
    OrphansTail(places, ds, s, after);
  }

  lemma DeletedStep(places: seq<Place>, ds: seq<Desired>, s: Settings, w: World, after: World, deleted: nat)
    requires places != [] && NoDup(places) && deleted < s.maxDeletes
    requires IsOrphan(places[0], ds, s) && places[0] in w
    requires GoneDone(places[1..], ds, s, w - {places[0]}, after, deleted + 1)
    ensures GoneDone(places, ds, s, w, after, deleted)
  {
    var p, rest := places[0], places[1..];
    assert OrphansAmong(rest, ds, s, w - {p}) == OrphansAmong(rest, ds, s, w) by { OrphansTail(places, ds, s, w); }
    OrphansTail(places, ds, s, w);
    OrphansTail(places, ds, s, after);
    assert p !in after;
    DeletedKeeps(places, ds, s, w, after);
  }

  lemma DeletedKeeps(places: seq<Place>, ds: seq<Desired>, s: Settings, w: World, after: World)
    requires places != [] && IsOrphan(places[0], ds, s)
    requires OnlyOrphansGone(ds, s, w - {places[0]}, after)
    requires forall p | p in w - {places[0]} && p !in places[1..] :: p in after
    ensures OnlyOrphansGone(ds, s, w, after)
    ensures forall p | p in w && p !in places :: p in after
  {
    forall p | p in w && !IsOrphan(p, ds, s) ensures p in after { assert p in w - {places[0]}; }
    forall p | p in w && p !in places ensures p in after {
      assert p != places[0] && p in w - {places[0]};
      assert p !in places[1..];
    }
  }
}
