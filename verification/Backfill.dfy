/** Backfill: reset, paged extract, keys-only comparison, recheck, chunked deletes
    (extractor/extractor.py, _process_locked, _reconcile_deletes, _still_missing). */
module Backfill {
  import opened Reconcile
  import opened Extraction

  const MAX_DRILLDOWN: nat := 10_000
  const RECHECK_CHUNK: nat := 5_000

  /** The rows a keys-only comparison sees. */
  function KeysOnly(t: Table): Rows { map k | k in t :: 0 }

  function NotIn(keys: seq<int>, present: set<int>): seq<int> {
    if keys == [] then []
    else if keys[0] in present then NotIn(keys[1..], present)
    else [keys[0]] + NotIn(keys[1..], present)
  }

  lemma {:induction false} NotInHolds(keys: seq<int>, present: set<int>, k: int)
    ensures k in NotIn(keys, present) <==> k in keys && k !in present
  {
    if keys == [] {
    } else {
      NotInHolds(keys[1..], present, k);
    }
  }

  lemma {:induction false} NotInAgrees(keys: seq<int>, a: set<int>, b: set<int>)
    requires forall k | k in keys :: k in a <==> k in b
    ensures NotIn(keys, a) == NotIn(keys, b)
  {
    if keys == [] {
    } else {
      var first := keys[0];
      assert first in keys;
      NotInAgrees(keys[1..], a, b);
    }
  }

  function Min(a: nat, b: nat): nat { if a < b then a else b }

  /** The keys, in order, that the source still does not have. */
  method StillMissing(t: Table, keys: seq<int>) returns (missing: seq<int>)
    ensures missing == NotIn(keys, t.Keys)
  {
    if keys == [] { return []; }
    var present: set<int> := {};
    var i := 0;
    while i < |keys|
      invariant 0 <= i <= |keys|
      invariant present == set k | k in keys[..i] && k in t
    {
      var next := Min(i + RECHECK_CHUNK, |keys|);
      var chunk := keys[i..next];
      assert keys[..next] == keys[..i] + chunk;
      present := present + set k | k in chunk && k in t;
      i := next;
    }
    assert keys[..|keys|] == keys;
    NotInAgrees(keys, present, t.Keys);
    missing := [];
    for j := 0 to |keys|
      invariant missing + NotIn(keys[j..], present) == NotIn(keys, present)
    {
      if keys[j] !in present { missing := missing + [keys[j]]; }
    }
  }

  function Undeleted(live: Table, keys: seq<int>): Table { map k | k in live && k !in keys :: live[k] }

  /** Soft deletes, page by page, until a page is fenced. */
  method Delete(target: Target, missing: seq<int>, n: nat, fenced: nat -> bool) returns (deleted: nat)
    requires n >= 1
    modifies target`live
    ensures deleted <= |missing| && target.live == Undeleted(old(target.live), missing[..deleted])
    ensures deleted == |missing| || (deleted % n == 0 && fenced(deleted / n))
    ensures forall page: nat | page * n < deleted :: !fenced(page)
  {
    deleted := 0;
    var page := 0;
    while deleted < |missing|
      invariant deleted <= |missing| && (deleted < |missing| ==> deleted == page * n) && deleted <= page * n
      invariant target.live == Undeleted(old(target.live), missing[..deleted])
      invariant forall p: nat | p < page :: !fenced(p)
      decreases |missing| - deleted
    {
      if fenced(page) {
        PageOf(page, n);
        forall p: nat | p * n < deleted ensures !fenced(p) { FewerPages(p, page, n); }
        return;
      }
      var next := Min(deleted + n, |missing|);
      assert missing[..next] == missing[..deleted] + missing[deleted..next];
      target.live := Undeleted(target.live, missing[deleted..next]);
      deleted := next;
      page := page + 1;
    }
    forall p: nat | p * n < deleted ensures !fenced(p) { FewerPages(p, page, n); }
  }

  lemma PageOf(page: nat, n: nat)
    requires n >= 1
    ensures page * n % n == 0 && page * n / n == page
  {
    NotMultiple(page * n, page, 0, n);
    assert page * n == (page * n / n) * n + page * n % n;
    FewerPages(page, page * n / n, n);
    FewerPages(page * n / n, page, n);
  }

  lemma FewerPages(p: nat, page: nat, n: nat)
    requires n >= 1
    ensures p >= page ==> p * n >= page * n
    ensures p * n <= page * n ==> p <= page
  {
    if p > page { assert p * n >= (page + 1) * n; }
  }

  /** Deletes what a comparison with `src` did not find there and a later look, `recheck`, did not find
      either. A row the recheck sees is never deleted, and no surviving row changes. */
  method ReconcileDeletes(target: Target, src: Table, recheck: Table, size: int, n: nat, fenced: nat -> bool)
      returns (res: Result, deleted: nat)
    requires n >= 1 && size > 0
    modifies target`live
    ensures exists srcAgg, whAgg :: CompareRun(src, old(target.live), size, srcAgg, whAgg, res)
    ensures deleted <= |NotIn(res.missingInSource, recheck.Keys)|
    ensures target.live == Undeleted(old(target.live), NotIn(res.missingInSource, recheck.Keys)[..deleted])
    ensures (forall page :: !fenced(page)) ==> deleted == |NotIn(res.missingInSource, recheck.Keys)|
    ensures forall k | k in recheck && k in old(target.live) ::
              k in target.live && target.live[k] == old(target.live)[k]
  {
    var srcAgg := GroupBy(KeysOnly(src), size);
    var whAgg := GroupBy(KeysOnly(target.live), size);
    res := Compare(KeysOnly(src), KeysOnly(target.live), size, MAX_DRILLDOWN, srcAgg, whAgg);
    assert CompareRun(src, target.live, size, srcAgg, whAgg, res);
    var missing := StillMissing(recheck, res.missingInSource);
    deleted := Delete(target, missing, n, fenced);
    forall k | k in recheck ensures k !in missing { NotInHolds(res.missingInSource, recheck.Keys, k); }
  }

  ghost predicate CompareRun(src: Table, live: Table, size: int, srcAgg: Aggregate, whAgg: Aggregate, res: Result)
    requires size > 0
  {
    && Aggregates(srcAgg, KeysOnly(src), size) && Aggregates(whAgg, KeysOnly(live), size)
    && Compared(KeysOnly(src), KeysOnly(live), size, MAX_DRILLDOWN, srcAgg, whAgg, res)
  }
}
