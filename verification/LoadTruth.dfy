/** The load generator's last-writer-wins oracle and the stream it emits
    (ingestion-loadgen: GroundTruth.java, EventProducer.java). */
module LoadTruth {

  datatype Cell = Cell(source: nat, table: nat, key: nat)

  datatype Event = Event(cell: Cell, lsn: int, op: char)

  datatype Value = Value(lsn: int, deleted: bool)

  const UNTOUCHED := Value(0, false)

  predicate IsLive(v: Value) { v.lsn > 0 && !v.deleted }

  function Recorded(v: Value, lsn: int, delete: bool): Value {
    if lsn > v.lsn then Value(lsn, delete) else v
  }

  /** What a cell holds after a stream of events went through record. */
  function Held(events: seq<Event>, c: Cell): Value {
    if events == [] then UNTOUCHED
    else
      var last := events[|events| - 1];
      var before := Held(events[..|events| - 1], c);
      if last.cell == c then Recorded(before, last.lsn, last.op == 'd') else before
  }

  datatype Expected = Expected(live: int, deleted: int, lsnSum: int, amountCentsSum: int)

  /** The amount, in cents, that a transaction with this position carries. */
  function AmountCents(lsn: int): (cents: int)
    ensures 100 <= cents < 10_000_100
    ensures (Wrap64(lsn * 2_654_435_761) - (cents - 100)) % 10_000_000 == 0
  {
    Wrap64(lsn * 2_654_435_761) % 10_000_000 + 100
  }

  /** Two's-complement wrap-around of a 64-bit product. */
  function Wrap64(x: int): (r: int)
    ensures -0x8000_0000_0000_0000 <= r < 0x8000_0000_0000_0000
    ensures (x - r) % 0x1_0000_0000_0000_0000 == 0
  {
    (x + 0x8000_0000_0000_0000) % 0x1_0000_0000_0000_0000 - 0x8000_0000_0000_0000
  }

  /** The totals over one table's keys. */
  function Tally(vals: seq<Value>, base: int, amounts: bool): Expected {
    if vals == [] then Expected(0, 0, 0, 0)
    else
      var e := Tally(vals[..|vals| - 1], base, amounts);
      var v := vals[|vals| - 1];
      if v.lsn == 0 then e
      else if v.deleted then e.(deleted := e.deleted + 1)
      else Expected(e.live + 1, e.deleted, e.lsnSum + v.lsn - base,
                    e.amountCentsSum + if amounts then AmountCents(v.lsn) else 0)
  }

  // ---- The oracle ----

  class GroundTruth {
    const sources: nat
    const tables: nat
    const keys: nat
    const baseLsn: int
    const maxLsn: array2<int>
    const deleted: array2<bool>

    ghost predicate Valid() {
      && maxLsn.Length0 == deleted.Length0 == sources * tables
      && maxLsn.Length1 == deleted.Length1 == keys
    }

    predicate InRange(c: Cell) { c.source < sources && c.table < tables && 1 <= c.key <= keys }

    function Slot(source: nat, table: nat): nat { source * tables + table }

    lemma SlotsInBounds(source: nat, table: nat)
      requires source < sources && table < tables
      ensures Slot(source, table) < sources * tables
    {
      assert (source + 1) * tables <= sources * tables;
    }

    /** Different tables have different slots. */
    lemma SlotsDiffer(s: nat, t: nat, s2: nat, t2: nat)
      requires t < tables && t2 < tables && Slot(s, t) == Slot(s2, t2)
      ensures s == s2 && t == t2
    {
      assert s < s2 ==> (s + 1) * tables <= s2 * tables;
      assert s2 < s ==> (s2 + 1) * tables <= s * tables;
    }

    ghost function At(c: Cell): Value
      requires Valid() && InRange(c)
      reads maxLsn, deleted
    {
      SlotsInBounds(c.source, c.table);
      Value(maxLsn[Slot(c.source, c.table), c.key - 1], deleted[Slot(c.source, c.table), c.key - 1])
    }

    constructor (sources: nat, tables: nat, keys: nat, baseLsn: int)
      ensures this.sources == sources && this.tables == tables && this.keys == keys && this.baseLsn == baseLsn
      ensures Valid() && fresh(maxLsn) && fresh(deleted)
      ensures forall c | InRange(c) :: At(c) == UNTOUCHED
    {
      this.sources, this.tables, this.keys, this.baseLsn := sources, tables, keys, baseLsn;
      var slots := sources * tables;
      maxLsn := new int[slots, keys]((i, j) => 0);
      deleted := new bool[slots, keys]((i, j) => false);
      new;
      assert Valid();
      forall c | InRange(c) ensures At(c) == UNTOUCHED { SlotsInBounds(c.source, c.table); }
    }

    method Live(c: Cell) returns (live: bool)
      requires Valid() && InRange(c)
      ensures live == IsLive(At(c))
    {
      SlotsInBounds(c.source, c.table);
      var s := Slot(c.source, c.table);
      live := maxLsn[s, c.key - 1] > 0 && !deleted[s, c.key - 1];
    }

    method Record(c: Cell, lsn: int, delete: bool)
      requires Valid() && InRange(c)
      modifies maxLsn, deleted
      ensures forall d | InRange(d) :: At(d) == if d == c then Recorded(old(At(c)), lsn, delete) else old(At(d))
    {
      SlotsInBounds(c.source, c.table);
      var s := Slot(c.source, c.table);
      if lsn > maxLsn[s, c.key - 1] {
        maxLsn[s, c.key - 1] := lsn;
        deleted[s, c.key - 1] := delete;
        forall d | InRange(d) ensures At(d) == if d == c then Value(lsn, delete) else old(At(d)) {
          if Slot(d.source, d.table) == s { SlotsDiffer(d.source, d.table, c.source, c.table); }
        }
      }
    }

    ghost function Column(source: nat, table: nat, n: nat): seq<Value>
      requires Valid() && source < sources && table < tables && n <= keys
      reads maxLsn, deleted
    {
      seq(n, k requires 0 <= k < n reads maxLsn, deleted => At(Cell(source, table, k + 1)))
    }

    method ExpectedOf(source: nat, table: nat, amounts: bool) returns (e: Expected)
      requires Valid() && source < sources && table < tables
      ensures e == Tally(Column(source, table, keys), baseLsn, amounts)
    {
      SlotsInBounds(source, table);
      var s := Slot(source, table);
      var live, dead, lsnSum, cents := 0, 0, 0, 0;
      for k := 0 to keys
        invariant Expected(live, dead, lsnSum, cents) == Tally(Column(source, table, k), baseLsn, amounts)
      {
        assert Column(source, table, k + 1)[..k] == Column(source, table, k);
        assert Column(source, table, k + 1)[k] == Value(maxLsn[s, k], deleted[s, k]);
        var lsn := maxLsn[s, k];
        if lsn == 0 { continue; }
        if deleted[s, k] {
          dead := dead + 1;
        } else {
          live := live + 1;
          lsnSum := lsnSum + (lsn - baseLsn);
          if amounts { cents := cents + AmountCents(lsn); }
        }
      }
      e := Expected(live, dead, lsnSum, cents);
    }
  }
}
