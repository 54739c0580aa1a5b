/** Comparing a source table with the warehouse by buckets of primary keys
    (controlplane/reconcile.py, source_vs_warehouse). */
module Reconcile {
  import opened KeySets

  /** Rows as key -> hash of the compared columns; 0 for every row when only keys are compared. */
  type Rows = map<int, int>

  /** One aggregate query: bucket -> (count, hash sum). */
  type Aggregate = map<int, (int, int)>

  /** SQL integer division, which truncates toward zero. */
  function Bucket(k: int, size: int): int
    requires size > 0
  {
    if k >= 0 then k / size else -((-k) / size)
  }

  /** The keys the aggregate query puts in bucket b. */
  function Grouped(m: Rows, b: int, size: int): set<int>
    requires size > 0
  {
    set k | k in m && Bucket(k, size) == b
  }

  /** The range the drill-down queries of bucket b read. */
  predicate InRange(k: int, b: int, size: int) { b * size <= k < (b + 1) * size }

  function Drilled(m: Rows, b: int, size: int): set<int> {
    set k | k in m && InRange(k, b, size)
  }

  ghost function Sum(keys: set<int>, m: Rows): int
    requires keys <= m.Keys
  {
    if keys == {} then 0 else m[Any(keys)] + Sum(keys - {Any(keys)}, m)
  }

  /** The aggregate query has one entry for each bucket that holds a row. */
  ghost predicate Aggregates(agg: Aggregate, m: Rows, size: int)
    requires size > 0
  {
    && (forall k | k in m :: Bucket(k, size) in agg)
    && (forall b | b in agg ::
          Grouped(m, b, size) != {} && agg[b] == (|Grouped(m, b, size)|, Sum(Grouped(m, b, size), m)))
  }

  /** A key whose own bucket's drill-down reads it. Truncation toward zero puts a negative key one range
      too high unless it sits at the start of a range. */
  predicate Findable(k: int, size: int)
    requires size > 0
  {
    k >= 0 || k % size == 0
  }

  predicate AllFindable(m: Rows, size: int)
    requires size > 0
  {
    forall k | k in m :: Findable(k, size)
  }

  lemma Multiples(a: int, b: int, size: int)
    requires size > 0
    ensures a < b ==> (a + 1) * size <= b * size
  {
  }

  /** Drill ranges of different buckets do not overlap. */
  lemma RangesDisjoint(a: int, b: int, k: int, size: int)
    requires size > 0 && InRange(k, a, size) && InRange(k, b, size)
    ensures a == b
  {
    Multiples(a, b, size);
    Multiples(b, a, size);
  }

  lemma OwnBucket(k: int, size: int)
    requires size > 0
    ensures InRange(k, Bucket(k, size), size) <==> Findable(k, size)
  {
    if k >= 0 {
      assert k == (k / size) * size + k % size;
    } else {
      var q, r := (-k) / size, (-k) % size;
      assert k == (-q) * size - r;
      if r == 0 { assert k == (-q) * size + 0; MultipleIf(k, -q, size); }
      else { assert k == (-q - 1) * size + (size - r); NotMultiple(k, -q - 1, size - r, size); }
    }
  }

  lemma MultipleIf(k: int, q: int, size: int)
    requires size > 0 && k == q * size
    ensures k % size == 0
  {
    NotMultiple(k, q, 0, size);
  }

  /** Quotient and remainder are unique. */
  lemma NotMultiple(k: int, q: int, r: int, size: int)
    requires size > 0 && 0 <= r < size && k == q * size + r
    ensures k % size == r
  {
    RangesDisjoint(q, k / size, k, size) by {
      assert k == (k / size) * size + k % size;
    }
  }

  lemma BucketBounds(k: int, b: int, size: int)
    requires size > 0 && Findable(k, size)
    ensures Bucket(k, size) == b <==> InRange(k, b, size)
  {
    OwnBucket(k, size);
    if InRange(k, b, size) { RangesDisjoint(b, Bucket(k, size), k, size); }
  }

  /** For findable keys the two queries agree on what a bucket is. */
  lemma GroupedIsDrilled(m: Rows, b: int, size: int)
    requires size > 0 && AllFindable(m, size)
    ensures Grouped(m, b, size) == Drilled(m, b, size)
  {
    forall k | k in m ensures k in Grouped(m, b, size) <==> k in Drilled(m, b, size) { BucketBounds(k, b, size); }
  }

  lemma {:induction false} SumAgrees(keys: set<int>, m: Rows, n: Rows)
    requires keys <= m.Keys && keys <= n.Keys && forall k | k in keys :: m[k] == n[k]
    ensures Sum(keys, m) == Sum(keys, n)
  {
    if keys == {} {
    } else {
      SumAgrees(keys - {Any(keys)}, m, n);
    }
  }

  datatype Result = Result(
    mismatchedBuckets: seq<int>, differing: seq<int>, missingInWarehouse: seq<int>, missingInSource: seq<int>)
  {
    function Discrepancies(): nat { |differing| + |missingInWarehouse| + |missingInSource| }

    predicate Passed(maxDiscrepancies: int) { Discrepancies() <= maxDiscrepancies }

    function DrilledBuckets(maxDrilldown: nat): seq<int> {
      if |mismatchedBuckets| <= maxDrilldown then mismatchedBuckets else mismatchedBuckets[..maxDrilldown]
    }
  }

  /** Some of these buckets' drill ranges holds the key. */
  ghost predicate Covered(k: int, buckets: seq<int>, size: int) { exists b :: b in buckets && InRange(k, b, size) }

  ghost function DifferingKeys(src: Rows, wh: Rows, buckets: seq<int>, size: int): set<int> {
    set k | k in src && k in wh && src[k] != wh[k] && Covered(k, buckets, size)
  }

  ghost function MissingKeys(has: Rows, lacks: Rows, buckets: seq<int>, size: int): set<int> {
    set k | k in has && k !in lacks && Covered(k, buckets, size)
  }

  predicate BucketDiffers(b: int, srcAgg: Aggregate, whAgg: Aggregate) {
    (b in srcAgg || b in whAgg) && !(b in srcAgg && b in whAgg && srcAgg[b] == whAgg[b])
  }

  /** What a comparison reports: the mismatched buckets in order, and for the drilled ones exactly the
      keys that differ or are missing on one side, each once. */
  ghost predicate Compared(src: Rows, wh: Rows, size: int, maxDrilldown: nat, srcAgg: Aggregate, whAgg: Aggregate,
                           res: Result)
  {
    && Ascending(res.mismatchedBuckets)
    && (forall b :: b in res.mismatchedBuckets <==> BucketDiffers(b, srcAgg, whAgg))
    && ReportsOn(src, wh, size, res.DrilledBuckets(maxDrilldown),
                 res.differing, res.missingInWarehouse, res.missingInSource)
  }

  ghost predicate ReportsOn(src: Rows, wh: Rows, size: int, buckets: seq<int>, differing: seq<int>, inWh: seq<int>,
                            inSrc: seq<int>) {
    && Lists(differing, DifferingKeys(src, wh, buckets, size))
    && Lists(inWh, MissingKeys(src, wh, buckets, size))
    && Lists(inSrc, MissingKeys(wh, src, buckets, size))
  }

  lemma CoveredByOneMore(k: int, buckets: seq<int>, b: int, size: int)
    requires size > 0
    ensures Covered(k, buckets + [b], size) <==> Covered(k, buckets, size) || InRange(k, b, size)
    ensures b !in buckets ==> !(Covered(k, buckets, size) && InRange(k, b, size))
  {
    if InRange(k, b, size) { assert b in buckets + [b]; }
    if Covered(k, buckets, size) {
      var a :| a in buckets && InRange(k, a, size);
      assert a in buckets + [b];
      if InRange(k, b, size) { RangesDisjoint(a, b, k, size); }
    }
  }

  ghost function DifferingIn(src: Rows, wh: Rows, b: int, size: int): set<int> {
    set k | k in src && k in wh && src[k] != wh[k] && InRange(k, b, size)
  }

  lemma OneMoreDiffering(src: Rows, wh: Rows, buckets: seq<int>, b: int, size: int)
    requires size > 0 && b !in buckets
    ensures DifferingKeys(src, wh, buckets + [b], size) ==
            DifferingKeys(src, wh, buckets, size) + DifferingIn(src, wh, b, size)
    ensures DifferingKeys(src, wh, buckets, size) !! DifferingIn(src, wh, b, size)
  {
    forall k | k in src
      ensures Covered(k, buckets + [b], size) <==> Covered(k, buckets, size) || InRange(k, b, size)
      ensures !(Covered(k, buckets, size) && InRange(k, b, size))
    { CoveredByOneMore(k, buckets, b, size); }
  }

  lemma OneMoreMissing(has: Rows, lacks: Rows, buckets: seq<int>, b: int, size: int)
    requires size > 0 && b !in buckets
    ensures MissingKeys(has, lacks, buckets + [b], size)
         == MissingKeys(has, lacks, buckets, size) + (Drilled(has, b, size) - Drilled(lacks, b, size))
    ensures MissingKeys(has, lacks, buckets, size) !! (Drilled(has, b, size) - Drilled(lacks, b, size))
  {
    forall k | k in has
      ensures Covered(k, buckets + [b], size) <==> Covered(k, buckets, size) || InRange(k, b, size)
      ensures !(Covered(k, buckets, size) && InRange(k, b, size))
    { CoveredByOneMore(k, buckets, b, size); }
  }

  /** Reporting one more bucket keeps the report exact. */
  lemma ReportsOneMore(src: Rows, wh: Rows, size: int, buckets: seq<int>, b: int,
                       differing: seq<int>, inWh: seq<int>, inSrc: seq<int>,
                       more: seq<int>, moreWh: seq<int>, moreSrc: seq<int>)
    requires size > 0 && b !in buckets && ReportsOn(src, wh, size, buckets, differing, inWh, inSrc)
    requires Lists(more, DifferingIn(src, wh, b, size))
    requires Lists(moreWh, Drilled(src, b, size) - Drilled(wh, b, size))
    requires Lists(moreSrc, Drilled(wh, b, size) - Drilled(src, b, size))
    ensures ReportsOn(src, wh, size, buckets + [b], differing + more, inWh + moreWh, inSrc + moreSrc)
  {
    OneMoreDiffering(src, wh, buckets, b, size);
    OneMoreMissing(src, wh, buckets, b, size);
    OneMoreMissing(wh, src, buckets, b, size);
    ListsTogether(differing, DifferingKeys(src, wh, buckets, size), more, DifferingIn(src, wh, b, size));
    ListsTogether(inWh, MissingKeys(src, wh, buckets, size), moreWh, Drilled(src, b, size) - Drilled(wh, b, size));
    ListsTogether(inSrc, MissingKeys(wh, src, buckets, size), moreSrc, Drilled(wh, b, size) - Drilled(src, b, size));
  }

  lemma {:induction false} SumPick(keys: set<int>, m: Rows, k: int)
    requires keys <= m.Keys && k in keys
    ensures Sum(keys, m) == m[k] + Sum(keys - {k}, m)
  {
    var j := Any(keys);
    if j != k {
      SumPick(keys - {j}, m, k);
      SumPick(keys - {k}, m, j);
      assert keys - {j} - {k} == keys - {k} - {j};
    }
  }

  /** What one more row does to a bucket's count and sum. */
  lemma OneMoreKey(done: Rows, k: int, hash: int, b: int, size: int)
    requires size > 0 && k !in done
    ensures var more := done[k := hash];
            if Bucket(k, size) == b then
              && Grouped(more, b, size) == Grouped(done, b, size) + {k}
              && Sum(Grouped(more, b, size), more) == hash + Sum(Grouped(done, b, size), done)
            else
              && Grouped(more, b, size) == Grouped(done, b, size)
              && Sum(Grouped(more, b, size), more) == Sum(Grouped(done, b, size), done)
  {
    var more := done[k := hash];
    SumAgrees(Grouped(done, b, size), done, more);
    if Bucket(k, size) == b {
      assert Grouped(more, b, size) == Grouped(done, b, size) + {k};
      SumPick(Grouped(more, b, size), more, k);
      assert Grouped(more, b, size) - {k} == Grouped(done, b, size);
    } else {
      assert Grouped(more, b, size) == Grouped(done, b, size);
    }
  }

  function Counted(agg: Aggregate, b: int, hash: int): Aggregate {
    agg[b := if b in agg then (agg[b].0 + 1, agg[b].1 + hash) else (1, hash)]
  }

  lemma CountedKeeps(agg: Aggregate, done: Rows, k: int, hash: int, size: int)
    requires size > 0 && k !in done && Aggregates(agg, done, size)
    ensures Aggregates(Counted(agg, Bucket(k, size), hash), done[k := hash], size)
  {
    var more, b := done[k := hash], Bucket(k, size);
    var counted := Counted(agg, b, hash);
    forall c | c in counted
      ensures Grouped(more, c, size) != {}
      ensures counted[c] == (|Grouped(more, c, size)|, Sum(Grouped(more, c, size), more))
    {
      OneMoreKey(done, k, hash, c, size);
      if c == b {
        assert k in Grouped(more, b, size);
        if b !in agg { EmptyGroup(agg, done, b, size); }
      }
    }
    forall j | j in more ensures Bucket(j, size) in counted {}
  }

  lemma EmptyGroup(agg: Aggregate, done: Rows, b: int, size: int)
    requires size > 0 && Aggregates(agg, done, size) && b !in agg
    ensures Grouped(done, b, size) == {}
  {
    forall k ensures k !in Grouped(done, b, size) { assert k in done ==> Bucket(k, size) in agg; }
    SameKeys(Grouped(done, b, size), {});
  }

  /** SELECT pk / size, COUNT(*), SUM(hash) … GROUP BY 1. */
  method GroupBy(m: Rows, size: int) returns (agg: Aggregate)
    requires size > 0
    ensures Aggregates(agg, m, size)
  {
    agg := map[];
    var done: Rows, todo := map[], m.Keys;
    while todo != {}
      invariant todo <= m.Keys && done.Keys == m.Keys - todo && forall k | k in done :: done[k] == m[k]
      invariant Aggregates(agg, done, size)
    {
      Inhabited(todo);
      var k :| k in todo;
      CountedKeeps(agg, done, k, m[k], size);
      agg := Counted(agg, Bucket(k, size), m[k]);
      done := done[k := m[k]];
      todo := todo - {k};
    }
    SameMap(done, m);
  }

  /** source_vs_warehouse, given the two aggregate queries' results. */
  method Compare(src: Rows, wh: Rows, size: int, maxDrilldown: nat, srcAgg: Aggregate, whAgg: Aggregate)
      returns (res: Result)
    requires size > 0
    ensures Compared(src, wh, size, maxDrilldown, srcAgg, whAgg, res)
  {
    var mismatched := Mismatched(srcAgg, whAgg);
    var drill := if |mismatched| <= maxDrilldown then mismatched else mismatched[..maxDrilldown];
    var differing, missingInWh, missingInSrc := Drill(src, wh, size, drill);
    res := Result(mismatched, differing, missingInWh, missingInSrc);
  }

  method Mismatched(srcAgg: Aggregate, whAgg: Aggregate) returns (buckets: seq<int>)
    ensures Ascending(buckets) && forall b :: b in buckets <==> BucketDiffers(b, srcAgg, whAgg)
  {
    buckets := SortedKeys(set b | b in srcAgg.Keys + whAgg.Keys && BucketDiffers(b, srcAgg, whAgg));
  }

  /** One bucket's rows on both sides, compared. */
  method DrillOne(src: Rows, wh: Rows, size: int, b: int) returns (differing: seq<int>, inWh: seq<int>, inSrc: seq<int>)
    ensures Lists(differing, DifferingIn(src, wh, b, size))
    ensures Lists(inWh, Drilled(src, b, size) - Drilled(wh, b, size))
    ensures Lists(inSrc, Drilled(wh, b, size) - Drilled(src, b, size))
  {
    var srcRows, whRows := Drilled(src, b, size), Drilled(wh, b, size);
    inWh := SortedKeys(srcRows - whRows);
    inSrc := SortedKeys(whRows - srcRows);
    differing := SortedKeys(set k | k in srcRows && k in whRows && src[k] != wh[k]);
    assert DifferingIn(src, wh, b, size) == set k | k in srcRows && k in whRows && src[k] != wh[k];
  }

  method Drill(src: Rows, wh: Rows, size: int, drill: seq<int>)
      returns (differing: seq<int>, inWh: seq<int>, inSrc: seq<int>)
    requires size > 0 && Ascending(drill)
    ensures ReportsOn(src, wh, size, drill, differing, inWh, inSrc)
  {
    differing, inWh, inSrc := [], [], [];
    for i := 0 to |drill|
      invariant ReportsOn(src, wh, size, drill[..i], differing, inWh, inSrc)
    {
      var b := drill[i];
      var more, moreWh, moreSrc := DrillOne(src, wh, size, b);
      assert drill[..i + 1] == drill[..i] + [b];
      assert b !in drill[..i];
      ReportsOneMore(src, wh, size, drill[..i], b, differing, inWh, inSrc, more, moreWh, moreSrc);
      differing, inWh, inSrc := differing + more, inWh + moreWh, inSrc + moreSrc;
    }
    assert drill[..|drill|] == drill;
  }

  /** A bucket whose drilled rows agree has equal aggregates, if every key is findable. */
  lemma SameRowsSameAggregate(src: Rows, wh: Rows, b: int, size: int, srcAgg: Aggregate, whAgg: Aggregate)
    requires size > 0 && AllFindable(src, size) && AllFindable(wh, size) && Aggregates(srcAgg, src, size)
    requires Aggregates(whAgg, wh, size)
    requires Drilled(src, b, size) == Drilled(wh, b, size)
    requires forall k | k in Drilled(src, b, size) :: src[k] == wh[k]
    ensures !BucketDiffers(b, srcAgg, whAgg)
  {
    GroupedIsDrilled(src, b, size);
    GroupedIsDrilled(wh, b, size);
    SameGroup(src, wh, b, size, srcAgg, whAgg);
  }

  lemma SameAggregates(srcAgg: Aggregate, whAgg: Aggregate)
    requires forall b :: !BucketDiffers(b, srcAgg, whAgg)
    ensures srcAgg == whAgg
  {
    forall b ensures b in srcAgg.Keys <==> b in whAgg.Keys { assert !BucketDiffers(b, srcAgg, whAgg); }
    SameKeys(srcAgg.Keys, whAgg.Keys);
    forall b | b in srcAgg ensures srcAgg[b] == whAgg[b] { assert !BucketDiffers(b, srcAgg, whAgg); }
    SameMap(srcAgg, whAgg);
  }

  /** With findable keys, and unless drilling is switched off, a comparison passes exactly when every
      bucket's count and hash sum agree. */
  lemma PassedIffAggregatesAgree(src: Rows, wh: Rows, size: int, maxDrilldown: nat, srcAgg: Aggregate,
                                 whAgg: Aggregate, res: Result)
    requires size > 0 && AllFindable(src, size) && AllFindable(wh, size)
    requires Aggregates(srcAgg, src, size) && Aggregates(whAgg, wh, size)
    requires Compared(src, wh, size, maxDrilldown, srcAgg, whAgg, res)
    ensures res.Passed(0) <==> srcAgg == whAgg || maxDrilldown == 0
  {
    var all := res.mismatchedBuckets;
    if maxDrilldown == 0 {
      NothingToReport(src, wh, size, maxDrilldown, srcAgg, whAgg, res);
    } else if all == [] {
      SameAggregates(srcAgg, whAgg) by { forall b ensures !BucketDiffers(b, srcAgg, whAgg) { assert b !in all; } }
      NothingToReport(src, wh, size, maxDrilldown, srcAgg, whAgg, res);
    } else {
      var d := all[0];
      assert d in all && BucketDiffers(d, srcAgg, whAgg);
      assert res.DrilledBuckets(maxDrilldown)[0] == d;
      if res.Passed(0) {
        NothingReportedIn(src, wh, size, maxDrilldown, srcAgg, whAgg, res, d);
        SameRowsSameAggregate(src, wh, d, size, srcAgg, whAgg);
      }
    }
  }

  lemma NothingToReport(src: Rows, wh: Rows, size: int, maxDrilldown: nat, srcAgg: Aggregate, whAgg: Aggregate,
                        res: Result)
    requires Compared(src, wh, size, maxDrilldown, srcAgg, whAgg, res) && res.DrilledBuckets(maxDrilldown) == []
    ensures res.Discrepancies() == 0
  {
    assert forall k :: !Covered(k, [], size);
    assert DifferingKeys(src, wh, [], size) == {} && MissingKeys(src, wh, [], size) == {};
    assert MissingKeys(wh, src, [], size) == {};
  }

  lemma NothingReportedIn(src: Rows, wh: Rows, size: int, maxDrilldown: nat, srcAgg: Aggregate, whAgg: Aggregate,
                          res: Result, d: int)
    requires Compared(src, wh, size, maxDrilldown, srcAgg, whAgg, res) && res.Passed(0)
    requires d in res.DrilledBuckets(maxDrilldown)
    ensures Drilled(src, d, size) == Drilled(wh, d, size)
    ensures forall k | k in Drilled(src, d, size) :: src[k] == wh[k]
  {
    var drilled := res.DrilledBuckets(maxDrilldown);
    assert res.differing == [] && res.missingInWarehouse == [] && res.missingInSource == [];
    forall k ensures k in Drilled(src, d, size) <==> k in Drilled(wh, d, size)
             ensures k in Drilled(src, d, size) ==> src[k] == wh[k] {
      assert InRange(k, d, size) ==> Covered(k, drilled, size);
      assert k !in DifferingKeys(src, wh, drilled, size);
      assert k !in MissingKeys(src, wh, drilled, size);
      assert k !in MissingKeys(wh, src, drilled, size);
    }
    SameKeys(Drilled(src, d, size), Drilled(wh, d, size));
  }

  /** A tolerance: a comparison passes with it exactly when the differing and missing keys of the drilled
      buckets are no more, each counted once. */
  lemma PassedIffFew(src: Rows, wh: Rows, size: int, maxDrilldown: nat, srcAgg: Aggregate, whAgg: Aggregate,
                     res: Result, tolerance: int)
    requires size > 0 && Compared(src, wh, size, maxDrilldown, srcAgg, whAgg, res)
    ensures var drilled := res.DrilledBuckets(maxDrilldown);
            res.Passed(tolerance) <==>
            |DifferingKeys(src, wh, drilled, size) + MissingKeys(src, wh, drilled, size)
              + MissingKeys(wh, src, drilled, size)| <= tolerance
  {
    var drilled := res.DrilledBuckets(maxDrilldown);
    var differing, inWh := DifferingKeys(src, wh, drilled, size), MissingKeys(src, wh, drilled, size);
    var inSrc := MissingKeys(wh, src, drilled, size);
    assert differing !! inWh && (differing + inWh) !! inSrc;
  }

  /** The proviso is exact: when the warehouse lacks one source row, the comparison notices if and only if
      that row's key is findable, whatever the other rows are. */
  lemma LostRowNoticedIff(src: Rows, lost: int, size: int, maxDrilldown: nat, srcAgg: Aggregate, whAgg: Aggregate,
                          res: Result)
    requires size > 0 && maxDrilldown > 0 && lost in src
    requires Aggregates(srcAgg, src, size) && Aggregates(whAgg, src - {lost}, size)
    requires Compared(src, src - {lost}, size, maxDrilldown, srcAgg, whAgg, res)
    ensures !res.Passed(0) <==> Findable(lost, size)
  {
    var wh := src - {lost};
    var drilled := res.DrilledBuckets(maxDrilldown);
    var b := Bucket(lost, size);
    OneBucketDiffers(src, lost, size, srcAgg, whAgg);
    assert b in res.mismatchedBuckets;
    OnlyOne(res.mismatchedBuckets, b);
    assert drilled == [b];
    OwnBucket(lost, size);
    assert Covered(lost, drilled, size) <==> InRange(lost, b, size);
    assert DifferingKeys(src, wh, drilled, size) == {} && MissingKeys(wh, src, drilled, size) == {};
    assert MissingKeys(src, wh, drilled, size) == if InRange(lost, b, size) then {lost} else {};
  }

  lemma OnlyOne(xs: seq<int>, x: int)
    requires Ascending(xs) && forall y :: y in xs <==> y == x
    ensures xs == [x]
  {
    assert |xs| >= 2 ==> xs[0] < xs[1];
    forall i | 0 <= i < |xs| ensures xs[i] == x {
      var y := xs[i];
      assert y in xs;
    }
    assert x in xs;
  }

  lemma OneBucketDiffers(src: Rows, lost: int, size: int, srcAgg: Aggregate, whAgg: Aggregate)
    requires size > 0 && lost in src
    requires Aggregates(srcAgg, src, size) && Aggregates(whAgg, src - {lost}, size)
    ensures forall b :: BucketDiffers(b, srcAgg, whAgg) <==> b == Bucket(lost, size)
  {
    var wh := src - {lost};
    var own := Bucket(lost, size);
    assert Grouped(wh, own, size) == Grouped(src, own, size) - {lost};
    forall b | b != own ensures !BucketDiffers(b, srcAgg, whAgg) {
      assert Grouped(wh, b, size) == Grouped(src, b, size);
      SameGroup(src, wh, b, size, srcAgg, whAgg);
    }
  }

  lemma SameGroup(src: Rows, wh: Rows, b: int, size: int, srcAgg: Aggregate, whAgg: Aggregate)
    requires size > 0 && Aggregates(srcAgg, src, size) && Aggregates(whAgg, wh, size)
    requires Grouped(src, b, size) == Grouped(wh, b, size)
    requires forall k | k in Grouped(src, b, size) :: src[k] == wh[k]
    ensures !BucketDiffers(b, srcAgg, whAgg)
  {
    var g := Grouped(src, b, size);
    if g != {} {
      var k := Any(g);
      assert Bucket(k, size) == b;
      SumAgrees(g, src, wh);
    }
  }

  /** A row with key -3 lost from buckets of ten: bucket 0 is drilled from 0, and the comparison passes. */
  lemma NegativeKeyEscapes(srcAgg: Aggregate, whAgg: Aggregate, res: Result)
    requires Aggregates(srcAgg, map[-3 := 0], 10) && Aggregates(whAgg, map[], 10)
    requires Compared(map[-3 := 0], map[], 10, 50, srcAgg, whAgg, res)
    ensures res.Passed(0)
  {
    var src: Rows := map[-3 := 0];
    assert src - {-3} == map[];
    LostRowNoticedIff(src, -3, 10, 50, srcAgg, whAgg, res);
  }

  /** A findable key is reported missing exactly when it is missing and its bucket was drilled. */
  lemma MissingKeysAreExact(has: Rows, lacks: Rows, buckets: seq<int>, size: int, k: int)
    requires size > 0 && Findable(k, size)
    ensures k in MissingKeys(has, lacks, buckets, size) <==> k in has && k !in lacks && Bucket(k, size) in buckets
  {
    if k in has {
      OwnBucket(k, size);
      if Covered(k, buckets, size) {
        var b :| b in buckets && InRange(k, b, size);
        RangesDisjoint(b, Bucket(k, size), k, size);
      }
    }
  }
}
