/** What a round leaves for later: the order in which missing connectors are created and orphans deleted, and
    the names a plan reports as deferred. */
module PlannerDeferred {
  import opened Sorting
  import opened Planner

  /** The wanted connectors that do not exist, in the order of the list. */
  function Absent(ds: seq<Desired>, w: World): seq<Desired>
    decreases |ds|
  {
    if ds == [] then []
    else if ds[0].place in w then Absent(ds[1..], w)
    else [ds[0]] + Absent(ds[1..], w)
  }

  function Unwanted(places: seq<Place>, ds: seq<Desired>, s: Settings): seq<Place>
    decreases |places|
  {
    if places == [] then []
    else if IsOrphan(places[0], ds, s) then [places[0]] + Unwanted(places[1..], ds, s)
    else Unwanted(places[1..], ds, s)
  }

  function First(ps: seq<Place>, n: nat): seq<Place> { if n <= |ps| then ps[..n] else ps }
  function Rest(ps: seq<Place>, n: nat): seq<Place> { if n <= |ps| then ps[n..] else [] }

  function NamesOf(places: seq<Place>): seq<string>
    decreases |places|
  {
    if places == [] then [] else [places[0].name] + NamesOf(places[1..])
  }

  function PlacesOf(ds: seq<Desired>): seq<Place>
    decreases |ds|
  {
    if ds == [] then [] else [ds[0].place] + PlacesOf(ds[1..])
  }

  /** The places the actions of one kind act on, in order. */
  function Acted(acts: seq<Act>, kind: Kind): seq<Place>
    decreases |acts|
  {
    if acts == [] then []
    else if acts[0].kind == kind then [acts[0].place] + Acted(acts[1..], kind)
    else Acted(acts[1..], kind)
  }

  lemma {:induction false} ActedBoth(a: seq<Act>, b: seq<Act>, kind: Kind)
    ensures Acted(a + b, kind) == Acted(a, kind) + Acted(b, kind)
    decreases |a|
  {
    if a == [] {
      assert a + b == b;
    } else {
      assert (a + b)[1..] == a[1..] + b;
      ActedBoth(a[1..], b, kind);
    }
  }

  /** What a plan creates, deletes and defers. */
  predicate Does(plan: Plan, creates: seq<Place>, deletes: seq<Place>, deferred: seq<string>) {
    Acted(plan.actions, CREATE) == creates && Acted(plan.actions, DELETE) == deletes && plan.deferred == deferred
  }

  lemma DoesBoth(a: Plan, creates: seq<Place>, deletes: seq<Place>, deferred: seq<string>,
                 b: Plan, moreCreates: seq<Place>, moreDeletes: seq<Place>, moreDeferred: seq<string>)
    requires Does(a, creates, deletes, deferred) && Does(b, moreCreates, moreDeletes, moreDeferred)
    ensures Does(Joined(a, b), creates + moreCreates, deletes + moreDeletes, deferred + moreDeferred)
  {
    ActedBoth(a.actions, b.actions, CREATE);
    ActedBoth(a.actions, b.actions, DELETE);
  }

  lemma FixesCreateNothing(d: Desired, c: Connector)
    ensures Does(Plan(Fixes(d, c), []), [], [], [])
  {
    var first := If(ConfigDiffers(d.config, c.config), Act(UPDATE, d.place, d.config));
    var third := If(Failing(c), Act(RESTART_FAILED, d.place, map[]));
    var second := if d.paused && c.state != "PAUSED" then [Act(PAUSE, d.place, map[])]
                  else If(!d.paused && c.state == "PAUSED", Act(RESUME, d.place, map[]));
    DoesBoth(Plan(first, []), [], [], [], Plan(second, []), [], [], []);
    DoesBoth(Plan(first + second, []), [], [], [], Plan(third, []), [], [], []);
  }

  lemma CreationCreates(d: Desired)
    ensures Does(Plan(Creation(d), []), [d.place], [], [])
  {
    var pause := If(d.paused, Act(PAUSE, d.place, map[]));
    DoesBoth(Plan([Act(CREATE, d.place, d.config)], []), [d.place], [], [], Plan(pause, []), [], [], []);
  }

  /** One wanted connector, `more` being the plan for the rest and `tail` the missing ones among them. */
  lemma WantedFirst(d: Desired, w: World, s: Settings, created: nat, more: Plan, tail: seq<Place>)
    requires created <= s.maxCreates
    requires var n := s.maxCreates - Used(d, w, s, created); Does(more, First(tail, n), [], NamesOf(Rest(tail, n)))
    ensures var absent, n := if d.place in w then tail else [d.place] + tail, s.maxCreates - created;
            Does(Joined(PlanOne(d, w, s, created), more), First(absent, n), [], NamesOf(Rest(absent, n)))
  {
    var n := s.maxCreates - Used(d, w, s, created);
    if d.place in w {
      FixesCreateNothing(d, w[d.place]);
      DoesBoth(Plan(Fixes(d, w[d.place]), []), [], [], [], more, First(tail, n), [], NamesOf(Rest(tail, n)));
    } else if created < s.maxCreates {
      OneOff(d.place, tail, n + 1);
      CreationCreates(d);
      DoesBoth(Plan(Creation(d), []), [d.place], [], [], more, First(tail, n), [], NamesOf(Rest(tail, n)));
    } else {
      OneOff(d.place, tail, 0);
      DoesBoth(Plan([], [d.place.name]), [], [], [d.place.name], more, First(tail, n), [], NamesOf(Rest(tail, n)));
    }
  }

  lemma {:induction false} WantedInTurn(ds: seq<Desired>, w: World, s: Settings, created: nat)
    requires created <= s.maxCreates
    ensures var absent, n := PlacesOf(Absent(ds, w)), s.maxCreates - created;
            Does(PlanDesired(ds, w, s, created), First(absent, n), [], NamesOf(Rest(absent, n)))
    decreases |ds|
  {
    if ds == [] {
    } else {
      var used, tail := Used(ds[0], w, s, created), Absent(ds[1..], w);
      WantedInTurn(ds[1..], w, s, used);
      WantedFirst(ds[0], w, s, created, PlanDesired(ds[1..], w, s, used), PlacesOf(tail));
      assert ([ds[0]] + tail)[1..] == tail;
    }
  }

  /** Counting off one element. */
  lemma OneOff(p: Place, ps: seq<Place>, n: nat)
    ensures n > 0 ==> First([p] + ps, n) == [p] + First(ps, n - 1) && Rest([p] + ps, n) == Rest(ps, n - 1)
    ensures First([p] + ps, 0) == [] && First(ps, 0) == []
    ensures NamesOf(Rest([p] + ps, 0)) == [p.name] + NamesOf(Rest(ps, 0))
  {
    assert ([p] + ps)[0..] == [p] + ps && ps[0..] == ps;
    assert ([p] + ps)[1..] == ps;
    if n > 0 && n <= |ps| + 1 {
      assert ([p] + ps)[..n] == [p] + ps[..n - 1];
      assert ([p] + ps)[n..] == ps[n - 1..];
    }
  }

  lemma {:induction false} GoneInTurn(places: seq<Place>, ds: seq<Desired>, s: Settings, deleted: nat)
    requires deleted <= s.maxDeletes
    ensures var orphans, n := Unwanted(places, ds, s), s.maxDeletes - deleted;
            Does(PlanDeletes(places, ds, s, deleted), [], First(orphans, n), NamesOf(Rest(orphans, n)))
    decreases |places|
  {
    if places == [] {
    } else if !IsOrphan(places[0], ds, s) {
      GoneInTurn(places[1..], ds, s, deleted);
    } else {
      var p, tail := places[0], Unwanted(places[1..], ds, s);
      var used := if deleted < s.maxDeletes then deleted + 1 else deleted;
      var more, n := PlanDeletes(places[1..], ds, s, used), s.maxDeletes - used;
      OneOff(p, tail, s.maxDeletes - deleted);
      GoneInTurn(places[1..], ds, s, used);
      if deleted < s.maxDeletes {
        OneDelete(p);
        DoesBoth(Plan([Act(DELETE, p, map[])], []), [], [p], [], more, [], First(tail, n), NamesOf(Rest(tail, n)));
      } else {
        DoesBoth(Plan([], [p.name]), [], [], [p.name], more, [], First(tail, n), NamesOf(Rest(tail, n)));
      }
    }
  }

  lemma OneDelete(p: Place)
    ensures Does(Plan([Act(DELETE, p, map[])], []), [], [p], [])
  {
    var acts := [Act(DELETE, p, map[])];
    assert acts[1..] == [];
  }

  /** A plan creates the first missing connectors by name and deletes the first orphans by cluster and name,
      as many as its limits allow, and reports the names of all the others as deferred. */
  lemma DeferredAreTheRest(ds: seq<Desired>, w: World, keys: seq<Place>, s: Settings)
    ensures
      var absent := PlacesOf(Absent(Sort(DesiredLe, ds), w));
      var orphans := if s.deleteOrphans then Unwanted(Sort(PlaceLe, keys), ds, s) else [];
      Does(PlanAll(ds, w, keys, s), First(absent, s.maxCreates), First(orphans, s.maxDeletes),
           NamesOf(Rest(absent, s.maxCreates)) + NamesOf(Rest(orphans, s.maxDeletes)))
  {
    DeferredOf(Sort(DesiredLe, ds), Sort(PlaceLe, keys), ds, w, s);
  }

  lemma DeferredOf(xs: seq<Desired>, places: seq<Place>, ds: seq<Desired>, w: World, s: Settings)
    ensures
      var absent, orphans := PlacesOf(Absent(xs, w)), if s.deleteOrphans then Unwanted(places, ds, s) else [];
      var gone := if s.deleteOrphans then PlanDeletes(places, ds, s, 0) else Plan([], []);
      Does(Joined(PlanDesired(xs, w, s, 0), gone), First(absent, s.maxCreates), First(orphans, s.maxDeletes),
           NamesOf(Rest(absent, s.maxCreates)) + NamesOf(Rest(orphans, s.maxDeletes)))
  {
    WantedInTurn(xs, w, s, 0);
    if s.deleteOrphans { GoneInTurn(places, ds, s, 0); }
    BothInTurn(PlanDesired(xs, w, s, 0), if s.deleteOrphans then PlanDeletes(places, ds, s, 0) else Plan([], []), s,
               PlacesOf(Absent(xs, w)), if s.deleteOrphans then Unwanted(places, ds, s) else []);
  }

  lemma BothInTurn(wanted: Plan, gone: Plan, s: Settings, absent: seq<Place>, orphans: seq<Place>)
    requires Does(wanted, First(absent, s.maxCreates), [], NamesOf(Rest(absent, s.maxCreates)))
    requires Does(gone, [], First(orphans, s.maxDeletes), NamesOf(Rest(orphans, s.maxDeletes)))
    ensures Does(Joined(wanted, gone), First(absent, s.maxCreates), First(orphans, s.maxDeletes),
                 NamesOf(Rest(absent, s.maxCreates)) + NamesOf(Rest(orphans, s.maxDeletes)))
  {
    DoesBoth(wanted, First(absent, s.maxCreates), [], NamesOf(Rest(absent, s.maxCreates)),
             gone, [], First(orphans, s.maxDeletes), NamesOf(Rest(orphans, s.maxDeletes)));
  }
}
