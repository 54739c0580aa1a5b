/** What repeated and late applications leave in a table: the warehouse keeps, for each key, the row with the
    largest position (warehouse/schema/platform.sql, apply_staged_batch for KAFKA). */
module Convergence {
  import opened Options
  import opened Batches
  import opened Isolation
  import opened Delivery
  import opened DeliveryProofs

  /** A record as it is applied, stamped with the capture generation of the snapshot that routed it. */
  datatype Stamped = Stamped(record: Record, generation: int)

  /** Positions compare by generation, then by log sequence number. */
  predicate AtLeast(x: Stamped, y: Stamped, lsn: Record -> int) {
    x.generation > y.generation || (x.generation == y.generation && lsn(x.record) >= lsn(y.record))
  }

  /** The row a key holds after these applications: each replaces one of no larger position. */
  function RowAfter<C(==)>(apps: seq<Stamped>, cell: Record -> C, lsn: Record -> int, key: C): Option<Stamped> {
    if apps == [] then None
    else
      var last := apps[|apps| - 1];
      var before := RowAfter(apps[..|apps| - 1], cell, lsn, key);
      if cell(last.record) == key && (before.None? || AtLeast(last, before.value, lsn)) then Some(last) else before
  }

  /** Two records of one key differ in their log sequence numbers. */
  ghost predicate Distinguished<C(!new)>(apps: seq<Stamped>, cell: Record -> C, lsn: Record -> int) {
    forall x, y | x in apps && y in apps && cell(x.record) == cell(y.record) && lsn(x.record) == lsn(y.record) ::
      x.record == y.record
  }

  ghost predicate IsTop<C(!new)>(apps: seq<Stamped>, cell: Record -> C, lsn: Record -> int, key: C,
                                 row: Option<Stamped>) {
    match row
    case None => forall x | x in apps :: cell(x.record) != key
    case Some(top) =>
      && top in apps && cell(top.record) == key
      && forall x | x in apps && cell(x.record) == key :: AtLeast(top, x, lsn)
  }

  lemma {:induction false} RowIsTop<C(!new)>(apps: seq<Stamped>, cell: Record -> C, lsn: Record -> int, key: C)
    ensures IsTop(apps, cell, lsn, key, RowAfter(apps, cell, lsn, key))
  {
    if apps == [] {
    } else {
      var front, last := apps[..|apps| - 1], apps[|apps| - 1];
      assert apps == front + [last];
      RowIsTop(front, cell, lsn, key);
    }
  }

  /** A key's row depends only on which stamped records were applied, not on their order nor on how often. */
  lemma SameRow<C(!new)>(xs: seq<Stamped>, ys: seq<Stamped>, cell: Record -> C, lsn: Record -> int, key: C)
    requires (forall x :: x in xs <==> x in ys) && Distinguished(xs, cell, lsn)
    ensures RowAfter(xs, cell, lsn, key) == RowAfter(ys, cell, lsn, key)
  {
    RowIsTop(xs, cell, lsn, key);
    RowIsTop(ys, cell, lsn, key);
  }

  function Stamp(rs: seq<Record>, generation: int): (xs: seq<Stamped>)
    ensures |xs| == |rs| && forall i | 0 <= i < |xs| :: xs[i] == Stamped(rs[i], generation)
  {
    if rs == [] then [] else [Stamped(rs[0], generation)] + Stamp(rs[1..], generation)
  }

  lemma StampHolds(rs: seq<Record>, generation: int, x: Stamped)
    ensures x in Stamp(rs, generation) <==> x.generation == generation && x.record in rs
  {
    if x.generation == generation && x.record in rs {
      var i :| 0 <= i < |rs| && rs[i] == x.record;
      assert Stamp(rs, generation)[i] == x;
    }
  }

  /** The log holds no two records of one key with one log sequence number. */
  ghost predicate LogDistinguishes<C(!new)>(log: Log, cell: Record -> C, lsn: Record -> int) {
    forall x, y | InLog(log, x) && InLog(log, y) && cell(x) == cell(y) && lsn(x) == lsn(y) :: x == y
  }

  /** In every execution, while the capture generation stays, lost replies and stale late writes have no
      lasting effect: every key's row is the one that applying each applied record once, in any order,
      gives. */
  lemma RepeatsHaveNoEffect<C(!new)>(states: seq<State>, steps: seq<Step>, c: Config, i: nat, once: seq<Record>,
                                     generation: int, cell: Record -> C, lsn: Record -> int, key: C)
    requires Execution(states, steps, c) && i < |states|
    requires forall r :: r in once <==> r in states[i].store.applied
    requires LogDistinguishes(states[i].log, cell, lsn)
    ensures RowAfter(Stamp(states[i].store.applied, generation), cell, lsn, key)
         == RowAfter(Stamp(once, generation), cell, lsn, key)
  {
    var applied := states[i].store.applied;
    forall x ensures x in Stamp(once, generation) <==> x in Stamp(applied, generation) {
      StampHolds(once, generation, x);
      StampHolds(applied, generation, x);
    }
    InvHolds(states, steps, c, i);
    forall x, y | x in Stamp(applied, generation) && y in Stamp(applied, generation)
                  && cell(x.record) == cell(y.record) && lsn(x.record) == lsn(y.record)
      ensures x.record == y.record
    {
      StampHolds(applied, generation, x);
      StampHolds(applied, generation, y);
      assert InLog(states[i].log, x.record) && InLog(states[i].log, y.record);
    }
    SameRow(Stamp(applied, generation), Stamp(once, generation), cell, lsn, key);
  }

  /** Applying a record once more, under whatever generation, changes a key's row exactly when the record
      is of that key and its new position is no smaller than the row's, unless it is that row. */
  lemma AgainMattersIff<C(!new)>(apps: seq<Stamped>, x: Stamped, cell: Record -> C, lsn: Record -> int, key: C)
    ensures RowAfter(apps + [x], cell, lsn, key) != RowAfter(apps, cell, lsn, key) <==>
            && cell(x.record) == key && RowAfter(apps, cell, lsn, key) != Some(x)
            && (RowAfter(apps, cell, lsn, key).None? || AtLeast(x, RowAfter(apps, cell, lsn, key).value, lsn))
  {
    assert (apps + [x])[..|apps|] == apps;
  }

  /** The latest of a key's applied records. */
  ghost predicate IsLatest<C(!new)>(apps: seq<Stamped>, cell: Record -> C, lsn: Record -> int, key: C, r: Record) {
    && cell(r) == key && (exists x :: x in apps && x.record == r)
    && forall x | x in apps && cell(x.record) == key && x.record != r :: lsn(x.record) < lsn(r)
  }

  /** For any applications, in any order and under any generations: a key's row is its latest record if and
      only if no older record of the key was applied under a generation above all of the latest one's. */
  lemma LatestWinsIff<C(!new)>(apps: seq<Stamped>, cell: Record -> C, lsn: Record -> int, key: C, r: Record)
    requires IsLatest(apps, cell, lsn, key, r)
    ensures
      var row := RowAfter(apps, cell, lsn, key);
      && row.Some?
      && (row.value.record == r <==>
            forall x | x in apps && cell(x.record) == key && x.record != r ::
              exists y :: y in apps && y.record == r && y.generation >= x.generation)
  {
    RowIsTop(apps, cell, lsn, key);
    var top := RowAfter(apps, cell, lsn, key).value;
    if top.record == r {
      forall x | x in apps && cell(x.record) == key && x.record != r
        ensures exists y :: y in apps && y.record == r && y.generation >= x.generation
      {
        assert AtLeast(top, x, lsn) && top in apps && top.generation >= x.generation;
      }
    } else {
      forall y | y in apps && y.record == r ensures y.generation < top.generation { assert AtLeast(top, y, lsn); }
    }
  }

  /** So a late write decided after the source's generation rose takes a key back to an older record. */
  lemma LateWriteUnderNewGeneration(older: Record, newer: Record, lsn: Record -> int)
    requires lsn(older) < lsn(newer)
    ensures var apps := [Stamped(older, 1), Stamped(newer, 1)];
            && RowAfter(apps, _ => 0, lsn, 0) == Some(Stamped(newer, 1))
            && RowAfter(apps + [Stamped(older, 2)], _ => 0, lsn, 0) == Some(Stamped(older, 2))
  {
    var one, two := [Stamped(older, 1)], [Stamped(older, 1), Stamped(newer, 1)];
    var three := two + [Stamped(older, 2)];
    assert one[..0] == [] && two[..1] == one && three[..2] == two;
    assert RowAfter(one, _ => 0, lsn, 0) == Some(Stamped(older, 1));
  }
}
