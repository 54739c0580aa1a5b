/** Backfill leaves the warehouse equal to an unchanging source, and exactly when. */
module BackfillProofs {
  import opened Options
  import opened KeySets
  import opened Reconcile
  import opened Extraction
  import opened ExtractionProofs
  import opened Backfill

  /** The warehouse holds every source row, and possibly more. */
  ghost predicate HoldsAll(live: Table, src: Table) { forall k | k in src :: k in live && live[k] == src[k] }

  /** Buckets of keys the warehouse has and the source has not. */
  function ExtraBuckets(live: Table, src: Table, size: int): set<int>
    requires size > 0
  {
    set k | k in live && k !in src :: Bucket(k, size)
  }

  lemma {:induction false} SumZero(keys: set<int>, m: Rows)
    requires keys <= m.Keys && forall k | k in m :: m[k] == 0
    ensures Sum(keys, m) == 0
  {
    if keys == {} {
    } else {
      SumZero(keys - {Any(keys)}, m);
    }
  }

  lemma SplitCount(a: set<int>, b: set<int>)
    ensures |a| == |a * b| + |a - b|
  {
    assert a == a * b + (a - b);
  }

  /** What counting keys notices: for any two tables, a bucket's aggregates differ exactly when the
      warehouse lacks and has too many of its keys in different numbers. */
  lemma KeyCountsDifferIff(src: Table, live: Table, size: int, srcAgg: Aggregate, whAgg: Aggregate, b: int)
    requires size > 0
    requires Aggregates(srcAgg, KeysOnly(src), size) && Aggregates(whAgg, KeysOnly(live), size)
    ensures
      var gs, gw := Grouped(KeysOnly(src), b, size), Grouped(KeysOnly(live), b, size);
      BucketDiffers(b, srcAgg, whAgg) <==> |gs - gw| != |gw - gs|
  {
    var s, w := KeysOnly(src), KeysOnly(live);
    var gs, gw := Grouped(s, b, size), Grouped(w, b, size);
    SplitCount(gs, gw);
    SplitCount(gw, gs);
    assert gs * gw == gw * gs;
    BucketCounts(s, size, srcAgg, b);
    BucketCounts(w, size, whAgg, b);
  }

  lemma BucketCounts(m: Rows, size: int, agg: Aggregate, b: int)
    requires size > 0 && Aggregates(agg, m, size) && forall k | k in m :: m[k] == 0
    ensures b in agg <==> |Grouped(m, b, size)| > 0
    ensures b in agg ==> agg[b] == (|Grouped(m, b, size)|, 0)
  {
    SumZero(Grouped(m, b, size), m);
    if b !in agg { EmptyGroup(agg, m, b, size); }
  }

  /** When the warehouse covers the source, counting keys finds exactly the buckets with extra ones. */
  lemma MismatchIffExtra(src: Table, live: Table, size: int, srcAgg: Aggregate, whAgg: Aggregate, b: int)
    requires size > 0 && HoldsAll(live, src)
    requires Aggregates(srcAgg, KeysOnly(src), size) && Aggregates(whAgg, KeysOnly(live), size)
    ensures BucketDiffers(b, srcAgg, whAgg) <==> b in ExtraBuckets(live, src, size)
  {
    var gs, gw := Grouped(KeysOnly(src), b, size), Grouped(KeysOnly(live), b, size);
    KeyCountsDifferIff(src, live, size, srcAgg, whAgg, b);
    assert gs - gw == {};
    ExtraGroup(src, live, size, b);
  }

  lemma ExtraGroup(src: Table, live: Table, size: int, b: int)
    requires size > 0
    ensures Grouped(KeysOnly(live), b, size) - Grouped(KeysOnly(src), b, size) != {} <==>
            b in ExtraBuckets(live, src, size)
  {
    var extra := Grouped(KeysOnly(live), b, size) - Grouped(KeysOnly(src), b, size);
    if b in ExtraBuckets(live, src, size) {
      var k :| k in live && k !in src && Bucket(k, size) == b;
      assert k in extra;
    } else {
      forall k ensures k !in extra { InExtraBuckets(live, src, size, k); }
      SameKeys(extra, {});
    }
  }

  /** Covering matters: one missing and one extra key of the same bucket cancel out, and counting keys
      finds no difference anywhere. */
  lemma SwappedKeysCancel(src: Table, gone: int, extra: int, cols: Columns, size: int, srcAgg: Aggregate,
                          whAgg: Aggregate, b: int)
    requires size > 0 && gone in src && extra !in src && Bucket(gone, size) == Bucket(extra, size)
    requires Aggregates(srcAgg, KeysOnly(src), size) && Aggregates(whAgg, KeysOnly((src - {gone})[extra := cols]), size)
    ensures !BucketDiffers(b, srcAgg, whAgg)
  {
    var live := (src - {gone})[extra := cols];
    var gs, gw := Grouped(KeysOnly(src), b, size), Grouped(KeysOnly(live), b, size);
    KeyCountsDifferIff(src, live, size, srcAgg, whAgg, b);
    assert gs - gw == if b == Bucket(gone, size) then {gone} else {};
    assert gw - gs == if b == Bucket(gone, size) then {extra} else {};
  }

  lemma {:induction false} AscendingCounts(xs: seq<int>, s: set<int>)
    requires Ascending(xs) && forall k :: k in xs <==> k in s
    ensures |xs| == |s|
    decreases |xs|
  {
    if xs == [] { SameKeys(s, {}); }
    else {
      var x, rest := xs[0], xs[1..];
      assert x in xs && x !in rest;
      assert forall k :: k in xs <==> k == x || k in rest by { assert xs == [x] + rest; }
      AscendingCounts(rest, s - {x});
    }
  }

  /** So many extra buckets come before b. */
  ghost function Rank(live: Table, src: Table, size: int, b: int): nat
    requires size > 0
  {
    |set c | c in ExtraBuckets(live, src, size) && c < b|
  }

  /** An extra key the deletes reach: it lies in the range of one of the first 10,000 extra buckets. */
  ghost predicate Removable(live: Table, src: Table, size: int, k: int)
    requires size > 0
  {
    exists b :: b in ExtraBuckets(live, src, size) && InRange(k, b, size) && Rank(live, src, size, b) < MAX_DRILLDOWN
  }

  /** The drilled buckets are the first extra ones. */
  lemma DrilledIff(src: Table, live: Table, size: int, xs: seq<int>, b: int)
    requires size > 0 && Ascending(xs) && forall c :: c in xs <==> c in ExtraBuckets(live, src, size)
    ensures
      var drilled := if |xs| <= MAX_DRILLDOWN then xs else xs[..MAX_DRILLDOWN];
      b in drilled <==> b in ExtraBuckets(live, src, size) && Rank(live, src, size, b) < MAX_DRILLDOWN
  {
    if b in xs {
      var i :| 0 <= i < |xs| && xs[i] == b;
      var lower := set c | c in ExtraBuckets(live, src, size) && c < b;
      forall c ensures c in xs[..i] <==> c in lower { LowerIff(xs, i, c); }
      AscendingCounts(xs[..i], lower);
      if |xs| > MAX_DRILLDOWN { LowerIff(xs, MAX_DRILLDOWN, b); }
    }
  }

  lemma LowerIff(xs: seq<int>, i: nat, c: int)
    requires Ascending(xs) && i < |xs|
    ensures c in xs[..i] <==> c in xs && c < xs[i]
  {
    if c in xs {
      var j :| 0 <= j < |xs| && xs[j] == c;
      assert j < i ==> xs[..i][j] == c;
      assert i < j ==> xs[i] < xs[j];
      assert j < i ==> xs[j] < xs[i];
    }
  }

  /** What the deletes leave of a warehouse that covers the source: the source's keys, and the extra keys
      they cannot reach. */
  lemma LeftAfterDeletes(src: Table, live: Table, size: int, srcAgg: Aggregate, whAgg: Aggregate, res: Result, k: int)
    requires size > 0 && HoldsAll(live, src) && CompareRun(src, live, size, srcAgg, whAgg, res)
    ensures k in Undeleted(live, NotIn(res.missingInSource, src.Keys)) <==>
            k in src || (k in live && !Removable(live, src, size, k))
  {
    var drilled := res.DrilledBuckets(MAX_DRILLDOWN);
    NotInHolds(res.missingInSource, src.Keys, k);
    var s, w := KeysOnly(src), KeysOnly(live);
    assert k in res.missingInSource <==> k in MissingKeys(w, s, drilled, size);
    forall b ensures b in res.mismatchedBuckets <==> b in ExtraBuckets(live, src, size) {
      MismatchIffExtra(src, live, size, srcAgg, whAgg, b);
    }
    forall b ensures b in drilled <==> b in ExtraBuckets(live, src, size) && Rank(live, src, size, b) < MAX_DRILLDOWN {
      DrilledIff(src, live, size, res.mismatchedBuckets, b);
    }
    assert Covered(k, drilled, size) <==> Removable(live, src, size, k);
  }

  /** Every extra key can be reached. */
  ghost predicate AllRemovable(live: Table, src: Table, size: int)
    requires size > 0
  {
    forall k | k in live && k !in src :: Removable(live, src, size, k)
  }

  /** After comparing and deleting, a warehouse that covered the source equals it if and only if every
      extra key could be reached. */
  lemma DeletesAreExact(src: Table, live: Table, size: int, srcAgg: Aggregate, whAgg: Aggregate, res: Result)
    requires size > 0 && HoldsAll(live, src) && CompareRun(src, live, size, srcAgg, whAgg, res)
    ensures Undeleted(live, NotIn(res.missingInSource, src.Keys)) == src <==> AllRemovable(live, src, size)
  {
    var after := Undeleted(live, NotIn(res.missingInSource, src.Keys));
    forall k ensures k in after <==> k in src || (k in live && !Removable(live, src, size, k)) {
      LeftAfterDeletes(src, live, size, srcAgg, whAgg, res, k);
    }
    if AllRemovable(live, src, size) {
      SameKeys(after.Keys, src.Keys);
      SameMap(after, src);
    } else {
      var k :| k in live && k !in src && !Removable(live, src, size, k);
      assert k in after;
    }
  }

  lemma {:induction false} SubsetIsSmaller(a: set<int>, b: set<int>)
    requires a <= b
    ensures |a| <= |b|
    decreases a
  {
    if a == {} {
    } else {
      var x := Any(a);
      SubsetIsSmaller(a - {x}, b - {x});
    }
  }

  lemma {:induction false} Largest(s: set<int>) returns (m: int)
    requires s != {}
    ensures m in s && forall x | x in s :: x <= m
  {
    var first := Any(s);
    var others := s - {first};
    m := first;
    if others != {} {
      var rest := Largest(others);
      if rest > m { m := rest; }
    }
    forall x | x in s ensures x <= m {
      assert x == first || x in others;
    }
  }

  /** For findable extra keys that means: they lie in at most 10,000 buckets. */
  lemma FindableAreRemovableIff(live: Table, src: Table, size: int)
    requires size > 0 && forall k | k in live && k !in src :: Findable(k, size)
    ensures AllRemovable(live, src, size) <==> |ExtraBuckets(live, src, size)| <= MAX_DRILLDOWN
  {
    var all := ExtraBuckets(live, src, size);
    if |all| <= MAX_DRILLDOWN {
      forall k | k in live && k !in src ensures Removable(live, src, size, k) { FewAreRemovable(live, src, size, k); }
    } else {
      var top := Largest(all);
      var k :| k in live && k !in src && Bucket(k, size) == top;
      TopIsNotRemovable(live, src, size, top, k);
    }
  }

  lemma FewAreRemovable(live: Table, src: Table, size: int, k: int)
    requires size > 0 && k in live && k !in src && Findable(k, size)
    requires |ExtraBuckets(live, src, size)| <= MAX_DRILLDOWN
    ensures Removable(live, src, size, k)
  {
    var all, b := ExtraBuckets(live, src, size), Bucket(k, size);
    InExtraBuckets(live, src, size, k);
    OwnBucket(k, size);
    SubsetIsSmaller((set c | c in all && c < b), all - {b});
  }

  lemma TopIsNotRemovable(live: Table, src: Table, size: int, top: int, k: int)
    requires size > 0 && Findable(k, size) && Bucket(k, size) == top && top in ExtraBuckets(live, src, size)
    requires |ExtraBuckets(live, src, size)| > MAX_DRILLDOWN
    requires forall c | c in ExtraBuckets(live, src, size) :: c <= top
    ensures !Removable(live, src, size, k)
  {
    var all := ExtraBuckets(live, src, size);
    assert (set c | c in all && c < top) == all - {top};
    OwnBucket(k, size);
    forall b | InRange(k, b, size) ensures b == top { RangesDisjoint(b, top, k, size); }
  }

  lemma InExtraBuckets(live: Table, src: Table, size: int, k: int)
    requires size > 0
    ensures k in live && k !in src ==> Bucket(k, size) in ExtraBuckets(live, src, size)
  {
  }

  // ---- What the extract leaves ----

  /** A key no read row has stays as it was. */
  lemma {:induction false} AppliedLeaves(live: Table, rows: seq<Row>, k: int)
    requires forall r | r in rows :: r.pk != k
    ensures k in Applied(live, rows) <==> k in live
    ensures k in live ==> Applied(live, rows)[k] == live[k]
    decreases |rows|
  {
    if rows == [] {
    } else {
      var last := rows[|rows| - 1];
      assert last in rows && forall r | r in rows[..|rows| - 1] :: r in rows;
      AppliedLeaves(live, rows[..|rows| - 1], k);
    }
  }

  /** A source row that a scan from the beginning reads, or that the warehouse already holds as it is. */
  ghost predicate Obtained(usable: bool, src: Table, before: Table, k: int)
    requires k in src
  {
    Reachable(usable, Row(k, src[k])) || (k in before && before[k] == src[k])
  }

  ghost predicate AllObtained(usable: bool, src: Table, before: Table) {
    forall k | k in src :: Obtained(usable, src, before, k)
  }

  /** What a full scan leaves at one key: the source's row if it is obtained, and what was there before if
      the source has no such key. */
  lemma ScanLeaves(usable: bool, src: Table, before: Table, read: seq<Row>, k: int)
    requires forall r :: r in read <==> In(src, r) && Reachable(usable, r)
    ensures
      var middle := Applied(before, read);
      && (k in src ==> (k in middle && middle[k] == src[k] <==> Obtained(usable, src, before, k)))
      && (k !in src ==> (k in middle <==> k in before))
  {
    if k in src && Reachable(usable, Row(k, src[k])) {
      AppliedHolds(src, before, read, Row(k, src[k]));
    } else {
      forall r | r in read ensures r.pk != k { assert In(src, r) && r == Row(r.pk, src[r.pk]); }
      AppliedLeaves(before, read, k);
    }
  }

  lemma FullRead(usable: bool, src: Table, same: nat -> Table, i: nat, read: seq<Row>, at: Query)
    requires Static(same) && same(0) == src && Scanned(usable, same, i, PageQuery(usable, None), read, at)
    requires forall r :: Stable(same, i, r) ==> !Ahead(at, r)
    ensures forall r :: r in read <==> In(src, r) && Reachable(usable, r)
  {
    forall r ensures r in read <==>
        In(src, r) && Reachable(usable, r) { FreshScanReadsIff(usable, same, i, read, at, r); }
  }

  /** A warehouse that lacks a source row, or has another in its place, still does after the deletes. */
  lemma NotObtainedStays(src: Table, middle: Table, missing: seq<int>, k: int)
    requires k in src && !(k in middle && middle[k] == src[k])
    ensures Undeleted(middle, NotIn(missing, src.Keys)) != src
  {
    var after := Undeleted(middle, NotIn(missing, src.Keys));
    assert !(k in after && after[k] == src[k]);
  }

  lemma SameExtras(src: Table, before: Table, middle: Table, size: int)
    requires size > 0 && forall k | k !in src :: k in middle <==> k in before
    ensures AllRemovable(middle, src, size) <==> AllRemovable(before, src, size)
  {
    assert ExtraBuckets(middle, src, size) == ExtraBuckets(before, src, size);
    forall k ensures Removable(middle, src, size, k) <==> Removable(before, src, size, k) {
      assert forall b :: Rank(middle, src, size, b) == Rank(before, src, size, b);
    }
  }

  /** Whatever the warehouse held before, a backfill of an unchanging source leaves it equal to the source,
      contents included, if and only if every source row can be read or was already there, and every extra
      key can be reached by the deletes. */
  method RunBackfill(target: Target, usable: bool, lookback: int, n: nat, size: int, src: Table)
    requires n >= 1 && size > 0
    modifies target
    ensures target.live == src <==>
            AllObtained(usable, src, old(target.live)) && AllRemovable(old(target.live), src, size)
    ensures forall k | k in src && Obtained(usable, src, old(target.live), k) ::
              k in target.live && target.live[k] == src[k]
  {
    ghost var before := target.live;
    target.Reset();
    var same := (_: nat) => src;
    assert Static(same);
    var read, finished, i, at := Extract(target, usable, lookback, n, same, |src| + 2);
    FullRead(usable, src, same, i, read, at);
    ghost var middle := target.live;
    forall k ensures k in src ==> (k in middle && middle[k] == src[k] <==> Obtained(usable, src, before, k))
             ensures k !in src ==> (k in middle <==> k in before) { ScanLeaves(usable, src, before, read, k); }
    var res, deleted := ReconcileDeletes(target, src, src, size, n, _ => false);
    ghost var missing := NotIn(res.missingInSource, src.Keys);
    assert missing[..deleted] == missing;
    ghost var srcAgg, whAgg :| CompareRun(src, middle, size, srcAgg, whAgg, res);
    SameExtras(src, before, middle, size);
    if AllObtained(usable, src, before) {
      DeletesAreExact(src, middle, size, srcAgg, whAgg, res);
    } else {
      ghost var k :| k in src && !Obtained(usable, src, before, k);
      NotObtainedStays(src, middle, res.missingInSource, k);
    }
  }

  /** Every row of the table can be read by a scan from the beginning: no cursor before 1970, and no key
      at the very bottom of the 64-bit range. */
  ghost predicate AllReachable(usable: bool, src: Table) { forall k | k in src :: Reachable(usable, Row(k, src[k])) }

  /** For such a source, and extra keys a drill-down finds, the backfill is exact precisely when the keys to
      delete lie in at most 10,000 buckets, whatever the warehouse held. */
  lemma BackfillExactIff(usable: bool, src: Table, before: Table, size: int)
    requires size > 0 && AllReachable(usable, src) && forall k | k in before && k !in src :: Findable(k, size)
    ensures AllObtained(usable, src, before) && AllRemovable(before, src, size) <==>
            |ExtraBuckets(before, src, size)| <= 10_000
  {
    FindableAreRemovableIff(before, src, size);
  }
}
