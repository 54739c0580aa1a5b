/** Whole rounds: plan against the observed connectors, execute, observe again. */
module PlannerRounds {
  import opened Naming
  import opened Sorting
  import opened Planner
  import opened PlannerProofs

  /** The keys of the observed connectors, each once, in some order. */
  ghost predicate KeysOf(keys: seq<Place>, w: World) { NoDup(keys) && forall p :: p in keys <==> p in w }

  ghost predicate IsRound(ds: seq<Desired>, s: Settings, w: World, keys: seq<Place>, after: World) {
    KeysOf(keys, w) && after == Execute(w, PlanAll(ds, w, keys, s).actions)
  }

  lemma SameElements<T>(xs: seq<T>, ys: seq<T>)
    requires multiset(xs) == multiset(ys)
    ensures forall x :: x in xs <==> x in ys
    ensures NoDup(xs) ==> NoDup(ys)
  {
    forall x ensures x in xs <==> x in ys { assert x in multiset(xs) <==> x in multiset(ys); }
  }

  /** Connectors wanted for different sources never collide, whatever their clusters: their names differ. */
  lemma DifferentSourcesAreDistinct(ds: seq<Desired>, ids: seq<string>, generations: seq<nat>)
    requires |ds| == |ids| == |generations|
    requires forall i, j | 0 <= i < j < |ids| :: ids[i] != ids[j]
    requires forall i | 0 <= i < |ds| :: ds[i].place.name == ConnectorName(ids[i], generations[i])
    ensures Distinct(ds)
  {
    forall i, j | 0 <= i < j < |ds| ensures ds[i].place.name != ds[j].place.name {
      if ds[i].place.name == ds[j].place.name { NamesAreUnique(ids[i], generations[i], ids[j], generations[j]); }
    }
    forall d | d in ds ensures multiset(ds)[d] == 1 {
      var i :| 0 <= i < |ds| && ds[i] == d;
      assert ds == ds[..i] + [d] + ds[i + 1..];
      assert d !in ds[..i] && d !in ds[i + 1..];
    }
  }

  /** What one round does to the connectors, orphans included. */
  ghost predicate RoundDone(ds: seq<Desired>, s: Settings, w: World, after: World) {
    && AllAsDesired(ds, after)
    && |Missing(ds, after)| == Less(|Missing(ds, w)|, s.maxCreates)
    && |Orphans(ds, s, after)| == Less(|Orphans(ds, s, w)|, if s.deleteOrphans then s.maxDeletes else 0)
    && (forall p | p in w && p !in after :: s.deleteOrphans && IsOrphan(p, ds, s))
    && (forall p | p in after && p !in w :: Wants(ds, p))
    && (forall p | p in w && p in after && !Wants(ds, p) :: after[p] == w[p])
  }

  /** A round puts every wanted connector that exists in order, creates and deletes up to its limits, and
      never touches a connector that is unmanaged or protected, unless it is wanted. */
  lemma RoundDoes(ds: seq<Desired>, s: Settings, w: World, keys: seq<Place>, after: World)
    requires Distinct(ds) && IsRound(ds, s, w, keys, after)
    ensures RoundDone(ds, s, w, after)
  {
    var xs := Sort(DesiredLe, ds);
    SameElements(ds, xs);
    assert Distinct(xs);
    WantedRound(xs, w, w, s, 0);
    var wanted := PlanDesired(xs, w, s, 0).actions;
    var mid := Execute(w, wanted);
    WantedOnly(ds, xs, s, w, mid);
    if s.deleteOrphans {
      var places := Sort(PlaceLe, keys);
      SameElements(keys, places);
      var gone := PlanDeletes(places, ds, s, 0).actions;
      ExecuteBoth(w, wanted, gone);
      assert AllThere(places, ds, s, mid) by {
        forall p | p in places && IsOrphan(p, ds, s) ensures p in mid { assert p in w && !Wants(ds, p); }
      }
      GoneRound(places, ds, s, mid, 0);
      ThenGone(ds, s, w, mid, after, places);
    } else {
      assert wanted + [] == wanted;
    }
  }

  ghost predicate MidDone(ds: seq<Desired>, s: Settings, w: World, mid: World) {
    && SameOutside(ds, w, mid) && AllAsDesired(ds, mid) && |Missing(ds, mid)| == Less(|Missing(ds, w)|, s.maxCreates)
    && (forall d | d in ds && d.place in w :: d.place in mid)
    && Orphans(ds, s, mid) == Orphans(ds, s, w)
  }

  lemma WantedOnly(ds: seq<Desired>, xs: seq<Desired>, s: Settings, w: World, mid: World)
    requires WantedDone(xs, w, w, mid, s, 0) && forall d :: d in ds <==> d in xs
    ensures MidDone(ds, s, w, mid)
    ensures forall p | p in w && p !in mid :: false
  {
    assert Missing(ds, mid) == Missing(xs, mid) && Missing(ds, w) == Missing(xs, w);
    forall p ensures Wants(ds, p) <==> Wants(xs, p) {}
    forall p ensures p in Orphans(ds, s, mid) <==> p in Orphans(ds, s, w) {}
    forall p | p in w ensures p in mid {
      if Wants(xs, p) { var d :| d in xs && d.place == p; }
    }
  }

  lemma ThenGone(ds: seq<Desired>, s: Settings, w: World, mid: World, after: World, places: seq<Place>)
    requires MidDone(ds, s, w, mid) && (forall p | p in w :: p in mid) && s.deleteOrphans
    requires GoneDone(places, ds, s, mid, after, 0) && forall p :: p in places <==> p in w
    ensures RoundDone(ds, s, w, after)
  {
    forall p | p in mid && IsOrphan(p, ds, s) ensures p in places { assert p in Orphans(ds, s, mid)
        && p in Orphans(ds, s, w); }
    assert OrphansAmong(places, ds, s, mid) == Orphans(ds, s, mid);
    assert OrphansAmong(places, ds, s, after) == Orphans(ds, s, after);
    forall d | d in ds ensures d.place in after <==> d.place in mid { assert !IsOrphan(d.place, ds, s); }
    assert Missing(ds, after) == Missing(ds, mid);
    forall p | p in after && p !in w ensures Wants(ds, p) {}
  }

  // ---- Limits ----

  ghost function CountOf(acts: seq<Act>, kind: Kind): nat
  {
    if acts == [] then 0 else (if acts[0].kind == kind then 1 else 0) + CountOf(acts[1..], kind)
  }

  lemma {:induction false} CountBoth(a: seq<Act>, b: seq<Act>, kind: Kind)
    ensures CountOf(a + b, kind) == CountOf(a, kind) + CountOf(b, kind)
  {
    if a == [] { assert a + b == b; }
    else {
      assert (a + b)[1..] == a[1..] + b;
      CountBoth(a[1..], b, kind);
    }
  }

  lemma {:induction false} NoneOf(acts: seq<Act>, kind: Kind)
    requires forall a | a in acts :: a.kind != kind
    ensures CountOf(acts, kind) == 0
  {
    if acts == [] {
    } else {
      NoneOf(acts[1..], kind);
    }
  }

  lemma OneCreates(d: Desired, w: World, s: Settings, created: nat)
    ensures CountOf(PlanOne(d, w, s, created).actions, CREATE) == Used(d, w, s, created) - created
    ensures CountOf(PlanOne(d, w, s, created).actions, DELETE) == 0
  {
    var one := PlanOne(d, w, s, created).actions;
    NoneOf(one, DELETE);
    if d.place in w {
      NoneOf(one, CREATE);
    } else if created < s.maxCreates {
      NoneOf(one[1..], CREATE);
    }
  }

  lemma {:induction false} CreatesWithin(ds: seq<Desired>, w: World, s: Settings, created: nat)
    requires created <= s.maxCreates
    ensures CountOf(PlanDesired(ds, w, s, created).actions, CREATE) <= s.maxCreates - created
    ensures CountOf(PlanDesired(ds, w, s, created).actions, DELETE) == 0
    decreases ds
  {
    if ds == [] {
    } else {
      var used := Used(ds[0], w, s, created);
      var one, more := PlanOne(ds[0], w, s, created).actions, PlanDesired(ds[1..], w, s, used).actions;
      OneCreates(ds[0], w, s, created);
      CreatesWithin(ds[1..], w, s, used);
      CountBoth(one, more, CREATE);
      CountBoth(one, more, DELETE);
    }
  }

  lemma {:induction false} DeletesWithin(places: seq<Place>, ds: seq<Desired>, s: Settings, deleted: nat)
    requires deleted <= s.maxDeletes
    ensures CountOf(PlanDeletes(places, ds, s, deleted).actions, DELETE) <= s.maxDeletes - deleted
    ensures CountOf(PlanDeletes(places, ds, s, deleted).actions, CREATE) == 0
    decreases places
  {
    if places == [] {
    } else {
      var p, rest := places[0], places[1..];
      if !IsOrphan(p, ds, s) || deleted >= s.maxDeletes {
        var more := PlanDeletes(rest, ds, s, deleted).actions;
        assert [] + more == more;
        DeletesWithin(rest, ds, s, deleted);
      } else {
        var more := PlanDeletes(rest, ds, s, deleted + 1).actions;
        assert ([Act(DELETE, p, map[])] + more)[1..] == more;
        DeletesWithin(rest, ds, s, deleted + 1);
      }
    }
  }

  /** No plan holds more creations or deletions than its limits allow. */
  lemma LimitsRespected(ds: seq<Desired>, w: World, keys: seq<Place>, s: Settings)
    ensures CountOf(PlanAll(ds, w, keys, s).actions, CREATE) <= s.maxCreates
    ensures CountOf(PlanAll(ds, w, keys, s).actions, DELETE) <= if s.deleteOrphans then s.maxDeletes else 0
  {
    var wanted := PlanDesired(Sort(DesiredLe, ds), w, s, 0).actions;
    var gone := if s.deleteOrphans then PlanDeletes(Sort(PlaceLe, keys), ds, s, 0).actions else [];
    CreatesWithin(Sort(DesiredLe, ds), w, s, 0);
    DeletesWithin(Sort(PlaceLe, keys), ds, s, 0);
    CountBoth(wanted, gone, CREATE);
    CountBoth(wanted, gone, DELETE);
  }

  // ---- Convergence ----

  lemma {:induction false} NoWantedPlanIff(ds: seq<Desired>, w: World, s: Settings, created: nat)
    ensures PlanDesired(ds, w, s, created) == Plan([], []) <==>
            forall d | d in ds :: d.place in w && AsDesired(d, w[d.place])
    decreases ds
  {
    if ds == [] {
    } else {
      var d := ds[0];
      assert ds == [d] + ds[1..];
      NoWantedPlanIff(ds[1..], w, s, Used(d, w, s, created));
      if d.place in w { NothingToFix(d, w[d.place]); }
    }
  }

  lemma {:induction false} NoGonePlanIff(places: seq<Place>, ds: seq<Desired>, s: Settings, deleted: nat)
    ensures PlanDeletes(places, ds, s, deleted) == Plan([], []) <==> forall p | p in places :: !IsOrphan(p, ds, s)
    decreases places
  {
    if places == [] {
    } else {
      assert places == [places[0]] + places[1..];
      NoGonePlanIff(places[1..], ds, s, deleted);
      NoGonePlanIff(places[1..], ds, s, deleted + 1);
    }
  }

  ghost predicate Nothing(ds: seq<Desired>, s: Settings, w: World) {
    AllAsDesired(ds, w) && Missing(ds, w) == {} && (s.deleteOrphans ==> Orphans(ds, s, w) == {})
  }

  /** A plan does and defers nothing exactly when everything wanted exists in order and no orphan is left. */
  lemma NoPlanIff(ds: seq<Desired>, w: World, keys: seq<Place>, s: Settings)
    requires KeysOf(keys, w)
    ensures PlanAll(ds, w, keys, s) == Plan([], []) <==> Nothing(ds, s, w)
  {
    var xs, places := Sort(DesiredLe, ds), Sort(PlaceLe, keys);
    SameElements(ds, xs);
    SameElements(keys, places);
    NoWantedPlanIff(xs, w, s, 0);
    NoGonePlanIff(places, ds, s, 0);
    NoOrphansIff(ds, w, places, s);
    AllPresentIff(ds, xs, w);
    assert PlanAll(ds, w, keys, s) == Plan([], []) <==>
           PlanDesired(xs, w, s, 0) == Plan([], [])
               && (s.deleteOrphans ==> PlanDeletes(places, ds, s, 0) == Plan([], []));
  }

  lemma NoOrphansIff(ds: seq<Desired>, w: World, places: seq<Place>, s: Settings)
    requires forall p :: p in places <==> p in w
    ensures (forall p | p in places :: !IsOrphan(p, ds, s)) <==> Orphans(ds, s, w) == {}
  {
    if Orphans(ds, s, w) != {} { var p :| p in Orphans(ds, s, w); assert p in places; }
    else { forall p | p in places ensures !IsOrphan(p, ds, s) { assert p !in Orphans(ds, s, w); } }
  }

  lemma AllPresentIff(ds: seq<Desired>, xs: seq<Desired>, w: World)
    requires forall d :: d in ds <==> d in xs
    ensures (forall d | d in xs :: d.place in w && AsDesired(d, w[d.place])) <==>
            AllAsDesired(ds, w) && Missing(ds, w) == {}
  {
    if Missing(ds, w) != {} { var d :| d in Missing(ds, w); assert d in xs; }
    else { forall d | d in ds ensures d.place in w { assert d !in Missing(ds, w); } }
  }

  /** Worlds that follow one another by rounds. */
  ghost predicate Rounds(ds: seq<Desired>, s: Settings, ws: seq<World>) {
    ws != [] && forall i | 0 < i < |ws| :: Follows(ds, s, ws[i - 1], ws[i])
  }

  ghost predicate Follows(ds: seq<Desired>, s: Settings, w: World, after: World) {
    exists keys :: IsRound(ds, s, w, keys, after)
  }

  /** What n rounds take off a backlog, `each` a round. */
  function AfterRounds(backlog: nat, n: nat, each: nat): int { Less(backlog, n * each) }

  lemma OneMoreRound(backlog: nat, n: nat, each: nat)
    requires n > 0
    ensures AfterRounds(backlog, n, each) == Less(AfterRounds(backlog, n - 1, each), each)
  {
    assert n * each == (n - 1) * each + each;
  }

  lemma {:induction false} CountsAfter(ds: seq<Desired>, s: Settings, ws: seq<World>, n: nat)
    requires Distinct(ds) && Rounds(ds, s, ws) && n < |ws|
    ensures |Missing(ds, ws[n])| == AfterRounds(|Missing(ds, ws[0])|, n, s.maxCreates)
    ensures |Orphans(ds, s, ws[n])|
         == AfterRounds(|Orphans(ds, s, ws[0])|, n, if s.deleteOrphans then s.maxDeletes else 0)
    ensures n > 0 ==> AllAsDesired(ds, ws[n])
  {
    if n == 0 {
    } else {
      CountsAfter(ds, s, ws, n - 1);
      assert Follows(ds, s, ws[n - 1], ws[n]);
      var keys :| IsRound(ds, s, ws[n - 1], keys, ws[n]);
      RoundDoes(ds, s, ws[n - 1], keys, ws[n]);
      OneMoreRound(|Missing(ds, ws[0])|, n, s.maxCreates);
      OneMoreRound(|Orphans(ds, s, ws[0])|, n, if s.deleteOrphans then s.maxDeletes else 0);
    }
  }

  /** After n rounds the plan is empty if and only if n rounds of creations cover what was missing and,
      where orphans are deleted at all, n rounds of deletions cover the orphans. */
  lemma EmptyPlanIff(ds: seq<Desired>, s: Settings, ws: seq<World>, n: nat, keys: seq<Place>)
    requires Distinct(ds) && Rounds(ds, s, ws) && 0 < n < |ws| && KeysOf(keys, ws[n])
    ensures PlanAll(ds, ws[n], keys, s) == Plan([], []) <==>
            && |Missing(ds, ws[0])| <= n * s.maxCreates
            && (s.deleteOrphans ==> |Orphans(ds, s, ws[0])| <= n * s.maxDeletes)
  {
    CountsAfter(ds, s, ws, n);
    NoPlanIff(ds, ws[n], keys, s);
  }

  /** Over any number of rounds, a connector that is unmanaged, protected or wanted is never deleted. */
  lemma {:induction false} NeverDeleted(ds: seq<Desired>, s: Settings, ws: seq<World>, n: nat, p: Place)
    requires Distinct(ds) && Rounds(ds, s, ws) && n < |ws| && p in ws[0]
    requires !StartsWith(p.name, CONNECTOR_PREFIX) || p.name in s.protect || Wants(ds, p)
    ensures p in ws[n]
    ensures !Wants(ds, p) ==> ws[n][p] == ws[0][p]
  {
    if n == 0 {
    } else {
      NeverDeleted(ds, s, ws, n - 1, p);
      assert Follows(ds, s, ws[n - 1], ws[n]);
      var keys :| IsRound(ds, s, ws[n - 1], keys, ws[n]);
      RoundDoes(ds, s, ws[n - 1], keys, ws[n]);
    }
  }

  // ---- Sources whose configuration cannot be built ----

  /** reconcile's protected names: those observed connectors whose source has no buildable configuration. */
  ghost function ProtectedIn(digit: Digits, w: World, unknown: set<string>): set<string> {
    set p | p in w && OfUnknown(digit, p, unknown) :: p.name
  }

  predicate OfUnknown(digit: Digits, p: Place, unknown: set<string>) {
    var id := SourceIdFromConnector(digit, p.name);
    id.Some? && id.value in unknown
  }

  /** Rounds that protect, each time anew, what they observe of those sources. */
  ghost predicate Reconciles(ds: seq<Desired>, s: Settings, digit: Digits, unknown: set<string>, ws: seq<World>) {
    && ws != []
    && forall i | 0 < i < |ws| :: Follows(ds, s.(protect := ProtectedIn(digit, ws[i - 1], unknown)), ws[i - 1], ws[i])
  }

  /** Over any number of such rounds the connector of a source whose configuration cannot be built is
      neither deleted nor touched. */
  lemma {:induction false} UnbuildableIsKept(ds: seq<Desired>, s: Settings, digit: Digits, unknown: set<string>,
                                             ws: seq<World>, n: nat, p: Place)
    requires Distinct(ds) && Reconciles(ds, s, digit, unknown, ws) && n < |ws|
    requires p in ws[0] && OfUnknown(digit, p, unknown)
    ensures p in ws[n] && (!Wants(ds, p) ==> ws[n][p] == ws[0][p])
  {
    if n == 0 {
    } else {
      UnbuildableIsKept(ds, s, digit, unknown, ws, n - 1, p);
      var now := s.(protect := ProtectedIn(digit, ws[n - 1], unknown));
      assert Follows(ds, now, ws[n - 1], ws[n]);
      var keys :| IsRound(ds, now, ws[n - 1], keys, ws[n]);
      RoundDoes(ds, now, ws[n - 1], keys, ws[n]);
      assert p.name in now.protect;
    }
  }
}
