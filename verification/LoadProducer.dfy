/** The generator's loop: draw an event, tell the oracle, then send it now or later, and perhaps twice
    (ingestion-loadgen: EventProducer.java, run). */
module LoadProducer {
  import opened Options
  import opened LoadTruth

  /** The random draws for one event. */
  datatype Draw = Draw(source: nat, table: nat, key: nat, delete: bool, holdFor: Option<nat>, repeatAfter: Option<nat>)

  datatype Pending = Pending(releaseAt: int, event: Event)

  function Events(held: seq<Pending>): seq<Event> { seq(|held|, i requires 0 <= i < |held| => held[i].event) }

  /** What is sent and what is still held, as a bag. */
  ghost function Owed(sent: seq<Event>, held: seq<Pending>): multiset<Event> { multiset(sent) + multiset(Events(held)) }

  lemma HeldFirst(held: seq<Pending>)
    requires held != []
    ensures multiset(Events(held)) == multiset{held[0].event} + multiset(Events(held[1..]))
  {
    assert Events(held) == [held[0].event] + Events(held[1..]);
  }

  lemma HeldLast(held: seq<Pending>, p: Pending)
    ensures multiset(Events(held + [p])) == multiset(Events(held)) + multiset{p.event}
  {
    assert Events(held + [p]) == Events(held) + [p.event];
  }

  /** Sends an event now, or queues it to go out once the given number of further events is generated. */
  method Dispatch(queue: seq<Pending>, before: seq<Event>, e: Event, i: int, delay: Option<nat>)
      returns (held: seq<Pending>, sent: seq<Event>)
    ensures Owed(sent, held) == Owed(before, queue) + multiset{e}
    ensures delay.Some? ==> sent == before && held == queue + [Pending(i + 1 + delay.value, e)]
    ensures delay.None? ==> sent == before + [e] && held == queue
  {
    held, sent := queue, before;
    if delay.Some? {
      HeldLast(held, Pending(i + 1 + delay.value, e));
      held := held + [Pending(i + 1 + delay.value, e)];
    } else {
      sent := sent + [e];
    }
  }

  /** Sends from the front of the queue what is due. */
  method Release(queue: seq<Pending>, before: seq<Event>, now: int, all: bool)
      returns (held: seq<Pending>, sent: seq<Event>)
    ensures Owed(sent, held) == Owed(before, queue)
    ensures all ==> held == []
    ensures held == [] || held[0].releaseAt > now
  {
    held, sent := queue, before;
    while held != [] && (all || held[0].releaseAt <= now)
      invariant Owed(sent, held) == Owed(before, queue)
      decreases |held|
    {
      HeldFirst(held);
      sent := sent + [held[0].event];
      held := held[1..];
    }
  }

  /** Each source's positions rise with every event, from the base position on. */
  ghost predicate Rising(generated: seq<Event>, base: int) {
    && (forall i | 0 <= i < |generated| :: generated[i].lsn > base)
    && (forall i, j | 0 <= i < j < |generated| && generated[i].cell.source == generated[j].cell.source ::
          generated[i].lsn < generated[j].lsn)
  }

  ghost predicate BelowLast(generated: seq<Event>, last: seq<int>) {
    forall e | e in generated :: e.cell.source < |last| && e.lsn <= last[e.cell.source]
  }

  /** A create for a key that is not live, an update or a delete for one that is. */
  ghost predicate OpsFit(generated: seq<Event>) {
    forall i | 0 <= i < |generated| ::
      if IsLive(Held(generated[..i], generated[i].cell)) then generated[i].op in {'u', 'd'} else generated[i].op == 'c'
  }

  function Deletes(events: seq<Event>): nat {
    if events == [] then 0 else Deletes(events[..|events| - 1]) + if events[|events| - 1].op == 'd' then 1 else 0
  }

  /** What holds of the events generated so far, `last` being each source's latest position. */
  ghost predicate Sound(generated: seq<Event>, base: int, last: seq<int>) {
    && Rising(generated, base) && OpsFit(generated) && BelowLast(generated, last)
    && (forall s | 0 <= s < |last| :: last[s] >= base)
  }

  lemma OneMore(generated: seq<Event>, e: Event, base: int, last: seq<int>)
    requires Sound(generated, base, last) && e.cell.source < |last| && e.lsn == last[e.cell.source] + 1
    requires if IsLive(Held(generated, e.cell)) then e.op in {'u', 'd'} else e.op == 'c'
    ensures Sound(generated + [e], base, last[e.cell.source := e.lsn])
  {
    RisesStill(generated, e, base, last);
    BelowStill(generated, e, last);
    OpsStillFit(generated, e);
  }

  lemma RisesStill(generated: seq<Event>, e: Event, base: int, last: seq<int>)
    requires Rising(generated, base) && BelowLast(generated, last)
    requires e.cell.source < |last| && last[e.cell.source] >= base && e.lsn == last[e.cell.source] + 1
    ensures Rising(generated + [e], base)
  {
    var all := generated + [e];
    forall i, j | 0 <= i < j < |all| && all[i].cell.source == all[j].cell.source ensures all[i].lsn < all[j].lsn {
      assert all[i] == generated[i] && generated[i] in generated;
    }
  }

  lemma BelowStill(generated: seq<Event>, e: Event, last: seq<int>)
    requires BelowLast(generated, last) && e.cell.source < |last| && e.lsn == last[e.cell.source] + 1
    ensures BelowLast(generated + [e], last[e.cell.source := e.lsn])
  {
    forall g | g in generated + [e] ensures g.cell.source < |last|
        && g.lsn <= last[e.cell.source := e.lsn][g.cell.source] {
      if g in generated {} else { assert g == e; }
    }
  }

  lemma OpsStillFit(generated: seq<Event>, e: Event)
    requires OpsFit(generated)
    requires if IsLive(Held(generated, e.cell)) then e.op in {'u', 'd'} else e.op == 'c'
    ensures OpsFit(generated + [e])
  {
    var all := generated + [e];
    forall i | 0 <= i < |all|
      ensures if IsLive(Held(all[..i], all[i].cell)) then all[i].op in {'u', 'd'} else all[i].op == 'c'
    {
      assert all[..i] == generated[..i];
      assert generated[..|generated|] == generated;
    }
  }

  lemma HeldMore(generated: seq<Event>, e: Event, c: Cell)
    ensures Held(generated + [e], c) ==
              if e.cell == c then Recorded(Held(generated, c), e.lsn, e.op == 'd') else Held(generated, c)
    ensures Deletes(generated + [e]) == Deletes(generated) + if e.op == 'd' then 1 else 0
  {
    assert (generated + [e])[..|generated|] == generated;
  }

  /** All that was generated or repeated is sent or held, and only what was generated is repeated. */
  ghost predicate Balanced(sent: seq<Event>, held: seq<Pending>, generated: seq<Event>, repeats: seq<Event>) {
    && Owed(sent, held) == multiset(generated) + multiset(repeats)
    && (forall e | e in repeats :: e in generated)
  }

  lemma BalancedStill(sent: seq<Event>, held: seq<Pending>, sent1: seq<Event>, held1: seq<Pending>,
                      generated: seq<Event>, repeats: seq<Event>, e: Event, d: Draw)
    requires Balanced(sent, held, generated, repeats)
    requires Owed(sent1, held1) ==
            Owed(sent, held) + multiset{e} + if d.repeatAfter.Some? then multiset{e} else multiset{}
    ensures Balanced(sent1, held1, generated + [e], if d.repeatAfter.Some? then repeats + [e] else repeats)
  {
  }

  /** One event's sends: itself, perhaps a repeat, and what has come due. */
  method Emit(queue: seq<Pending>, before: seq<Event>, e: Event, i: int, d: Draw, ghost generated: seq<Event>,
              ghost repeats: seq<Event>)
      returns (held: seq<Pending>, sent: seq<Event>)
    requires Balanced(before, queue, generated, repeats)
    ensures Balanced(sent, held, generated + [e], if d.repeatAfter.Some? then repeats + [e] else repeats)
  {
    held, sent := Dispatch(queue, before, e, i, d.holdFor);
    if d.repeatAfter.Some? { held, sent := Dispatch(held, sent, e, i, d.repeatAfter); }
    held, sent := Release(held, sent, i, false);
    BalancedStill(before, queue, sent, held, generated, repeats, e, d);
  }

  method CountDelete(before: nat, e: Event, ghost generated: seq<Event>) returns (deletes: nat)
    requires before == Deletes(generated)
    ensures deletes == Deletes(generated + [e])
  {
    HeldMore(generated, e, e.cell);
    deletes := if e.op == 'd' then before + 1 else before;
  }

  predicate Drawable(truth: GroundTruth, d: Draw) {
    d.source < truth.sources && d.table < truth.tables && d.key < truth.keys
  }

  /** The oracle holds what the events generated so far leave. */
  ghost predicate Mirrors(truth: GroundTruth, generated: seq<Event>)
    requires truth.Valid()
    reads truth.maxLsn, truth.deleted
  {
    forall c | truth.InRange(c) :: truth.At(c) == Held(generated, c)
  }

  /** Draws one event and records it. */
  method Generate(truth: GroundTruth, lsns: array<int>, d: Draw, ghost generated: seq<Event>) returns (e: Event)
    requires truth.Valid() && Drawable(truth, d) && lsns.Length == truth.sources && Mirrors(truth, generated)
    requires Sound(generated, truth.baseLsn, lsns[..])
    modifies lsns, truth.maxLsn, truth.deleted
    ensures Mirrors(truth, generated + [e]) && Sound(generated + [e], truth.baseLsn, lsns[..])
    ensures e.cell == Cell(d.source, d.table, d.key + 1)
    ensures e.op == if !IsLive(Held(generated, e.cell)) then 'c' else if d.delete then 'd' else 'u'
    ensures e.lsn == old(lsns[d.source]) + 1
  {
    var cell := Cell(d.source, d.table, d.key + 1);
    lsns[d.source] := lsns[d.source] + 1;
    var lsn := lsns[d.source];
    var live := truth.Live(cell);
    var op := if live then if d.delete then 'd' else 'u' else 'c';
    e := Event(cell, lsn, op);
    OneMore(generated, e, truth.baseLsn, old(lsns[..]));
    assert lsns[..] == old(lsns[..])[d.source := lsn];
    truth.Record(cell, lsn, op == 'd');
    forall c | truth.InRange(c) ensures truth.At(c) == Held(generated + [e], c) { HeldMore(generated, e, c); }
  }

  /** A whole run. What is sent is what was generated plus the repeats, in whatever order the holding back
      leaves them. */
  method Produce(truth: GroundTruth, draws: seq<Draw>)
      returns (sent: seq<Event>, duplicates: nat, deletes: nat, ghost generated: seq<Event>, ghost repeats: seq<Event>)
    requires truth.Valid() && Mirrors(truth, []) && forall d | d in draws :: Drawable(truth, d)
    modifies truth.maxLsn, truth.deleted
    ensures |generated| == |draws| && Rising(generated, truth.baseLsn) && OpsFit(generated)
    ensures Mirrors(truth, generated) && deletes == Deletes(generated)
    ensures multiset(sent) == multiset(generated) + multiset(repeats)
    ensures (forall e | e in repeats :: e in generated) && |repeats| == duplicates
    ensures |sent| == |draws| + duplicates
  {
    var lsns := new int[truth.sources](_ => truth.baseLsn);
    var held: seq<Pending> := [];
    sent, duplicates, deletes, generated, repeats := [], 0, 0, [], [];
    for i := 0 to |draws|
      invariant fresh(lsns) && lsns.Length == truth.sources && |generated| == i && |repeats| == duplicates
      invariant Mirrors(truth, generated) && Sound(generated, truth.baseLsn, lsns[..]) && deletes == Deletes(generated)
      invariant Balanced(sent, held, generated, repeats)
    {
      var d := draws[i];
      var e := Generate(truth, lsns, d, generated);
      deletes := CountDelete(deletes, e, generated);
      held, sent := Emit(held, sent, e, i, d, generated, repeats);
      generated, repeats := generated + [e], if d.repeatAfter.Some? then repeats + [e] else repeats;
      if d.repeatAfter.Some? { duplicates := duplicates + 1; }
    }
    held, sent := Release(held, sent, |draws|, true);
    BagSize(sent, generated, repeats);
  }

  lemma BagSize(a: seq<Event>, b: seq<Event>, c: seq<Event>)
    requires multiset(a) == multiset(b) + multiset(c)
    ensures |a| == |b| + |c|
  {
    assert |multiset(a)| == |a| && |multiset(b)| == |b| && |multiset(c)| == |c|;
  }

  // ---- Order does not matter ----

  /** The value a cell must hold: the latest event's, or untouched. */
  ghost predicate Latest(events: seq<Event>, c: Cell, v: Value) {
    && (forall e | e in events && e.cell == c :: e.lsn <= v.lsn)
    && (v == UNTOUCHED || exists e :: e in events && e.cell == c && v == Value(e.lsn, e.op == 'd'))
  }

  lemma {:induction false} HeldIsLatest(events: seq<Event>, c: Cell)
    requires forall e | e in events :: e.lsn > 0
    ensures Latest(events, c, Held(events, c))
    ensures Held(events, c) == UNTOUCHED <==> forall e | e in events :: e.cell != c
    ensures Held(events, c).lsn >= 0
  {
    if events == [] {
    } else {
      var front, last := events[..|events| - 1], events[|events| - 1];
      assert events == front + [last];
      HeldIsLatest(front, c);
      var v := Held(front, c);
      if v != UNTOUCHED {
        var e :| e in front && e.cell == c && v == Value(e.lsn, e.op == 'd');
        assert e in events;
      }
      assert last in events;
    }
  }

  lemma SamePlace(generated: seq<Event>, base: int, a: Event, b: Event)
    requires Rising(generated, base) && a in generated && b in generated && a.cell.source == b.cell.source
    requires a.lsn == b.lsn
    ensures a == b
  {
    var i :| 0 <= i < |generated| && generated[i] == a;
    var j :| 0 <= j < |generated| && generated[j] == b;
    assert i == j;
  }

  /** Whatever stream carries the generated events, all of them and no others, in any order and any number
      of times each, every cell ends as generation order leaves it. */
  lemma OrderDoesNotMatter(generated: seq<Event>, sent: seq<Event>, base: int, c: Cell)
    requires base >= 0 && Rising(generated, base) && forall e :: e in sent <==> e in generated
    ensures Held(sent, c) == Held(generated, c)
  {
    assert forall e | e in generated :: e.lsn > 0;
    HeldIsLatest(sent, c);
    HeldIsLatest(generated, c);
    var v, w := Held(sent, c), Held(generated, c);
    if v != UNTOUCHED {
      var a :| a in sent && a.cell == c && v == Value(a.lsn, a.op == 'd');
      var b :| b in generated && b.cell == c && w == Value(b.lsn, b.op == 'd');
      SamePlace(generated, base, a, b);
    }
  }

  ghost function ColumnOf(events: seq<Event>, source: nat, table: nat, keys: nat): seq<Value> {
    seq(keys, k requires 0 <= k < keys => Held(events, Cell(source, table, k + 1)))
  }

  /** The warehouse the oracle expects is the one that applying the sent records gives. */
  lemma SentGivesExpected(generated: seq<Event>, repeats: seq<Event>, sent: seq<Event>, base: int,
                          source: nat, table: nat, keys: nat, amounts: bool)
    requires base >= 0 && Rising(generated, base) && multiset(sent) == multiset(generated) + multiset(repeats)
    requires forall e | e in repeats :: e in generated
    ensures Tally(ColumnOf(sent, source, table, keys), base, amounts) ==
            Tally(ColumnOf(generated, source, table, keys), base, amounts)
  {
    forall e ensures e in sent <==> e in generated {
      assert e in multiset(sent) <==> e in multiset(generated) || e in multiset(repeats);
    }
    forall c ensures Held(sent, c) == Held(generated, c) { OrderDoesNotMatter(generated, sent, base, c); }
    assert ColumnOf(sent, source, table, keys) == ColumnOf(generated, source, table, keys);
  }

  function Touched(vals: seq<Value>): set<nat> { set k: nat | k < |vals| && vals[k].lsn != 0 }

  /** The totals of two columns of keys are those of both. */
  lemma {:induction false} TallyAdds(a: seq<Value>, b: seq<Value>, base: int, amounts: bool)
    ensures var x, y := Tally(a, base, amounts), Tally(b, base, amounts);
            Tally(a + b, base, amounts) ==
            Expected(x.live + y.live, x.deleted + y.deleted, x.lsnSum + y.lsnSum, x.amountCentsSum + y.amountCentsSum)
    decreases |b|
  {
    if b == [] {
      assert a + b == a;
    } else {
      assert (a + b)[..|a + b| - 1] == a + b[..|b| - 1];
      TallyAdds(a, b[..|b| - 1], base, amounts);
    }
  }

  /** What one key adds: a live row its position above the base and, for transactions, its amount; a deleted
      one only itself; an untouched one nothing. */
  lemma TallyOfOne(v: Value, base: int, amounts: bool)
    requires v.lsn >= 0
    ensures Tally([v], base, amounts) ==
            if IsLive(v) then Expected(1, 0, v.lsn - base, if amounts then AmountCents(v.lsn) else 0)
            else Expected(0, if v.lsn > 0 then 1 else 0, 0, 0)
  {
    assert [v][..0] == [];
  }

  /** Live and deleted rows together are the touched keys. */
  lemma {:induction false} LiveAndDeletedAreTouched(vals: seq<Value>, base: int, amounts: bool)
    ensures Tally(vals, base, amounts).live + Tally(vals, base, amounts).deleted == |Touched(vals)|
    ensures Tally(vals, base, amounts).live >= 0 && Tally(vals, base, amounts).deleted >= 0
  {
    if vals == [] {
    } else {
      var n := |vals| - 1;
      LiveAndDeletedAreTouched(vals[..n], base, amounts);
      if vals[n].lsn == 0 { assert Touched(vals) == Touched(vals[..n]); }
      else { assert Touched(vals) == Touched(vals[..n]) + {n}; }
    }
  }

  /** A run and the totals it publishes for one table: they are those of a warehouse that applied every
      sent record, last position winning. */
  method RunAndExpect(sources: nat, tables: nat, keys: nat, baseLsn: int, draws: seq<Draw>, source: nat, table: nat,
                      amounts: bool)
      returns (sent: seq<Event>, e: Expected)
    requires baseLsn >= 0 && source < sources && table < tables
    requires forall d | d in draws :: d.source < sources && d.table < tables && d.key < keys
    ensures e == Tally(ColumnOf(sent, source, table, keys), baseLsn, amounts)
    ensures e.live + e.deleted == |Touched(ColumnOf(sent, source, table, keys))|
  {
    var truth := new GroundTruth(sources, tables, keys, baseLsn);
    var duplicates, deletes;
    ghost var generated, repeats;
    sent, duplicates, deletes, generated, repeats := Produce(truth, draws);
    e := truth.ExpectedOf(source, table, amounts);
    assert truth.Column(source, table, keys) == ColumnOf(generated, source, table, keys);
    SentGivesExpected(generated, repeats, sent, baseLsn, source, table, keys, amounts);
    LiveAndDeletedAreTouched(ColumnOf(sent, source, table, keys), baseLsn, amounts);
  }
}
