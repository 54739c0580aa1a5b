/** Connector and slot names, and the shard that looks after each connector
    (controlplane/registry.py, controlplane/reconciler.py, controlplane/tasks.py). */
module Naming {
  import opened Options

  const CONNECTOR_PREFIX := "fbi-src-"
  const SLOT_PREFIX := "fbi_"

  predicate StartsWith(s: string, prefix: string) { |prefix| <= |s| && s[..|prefix|] == prefix }

  lemma StartsWithIff(s: string, prefix: string)
    ensures StartsWith(s, prefix) <==> exists rest :: s == prefix + rest
  {
    if StartsWith(s, prefix) { assert s == prefix + s[|prefix|..]; }
  }

  /** What Python's str.isdigit takes for a digit: the decimal digits and characters of other scripts, but
      none of those that separate the parts of a name. */
  type Digits = char -> bool

  ghost predicate Sensible(digit: Digits) {
    (forall c | '0' <= c <= '9' :: digit(c)) && !digit('g') && !digit('-') && !digit('_')
  }

  predicate IsDigit(digit: Digits, s: string) { s != [] && AllDigits(digit, s) }
  predicate AllDigits(digit: Digits, s: string) { forall c | c in s :: digit(c) }

  /** Decimal rendering of a generation. */
  function Decimal(n: nat): (s: string)
    ensures s != [] && forall c | c in s :: '0' <= c <= '9'
  {
    if n < 10 then ['0' + n as char] else Decimal(n / 10) + ['0' + (n % 10) as char]
  }

  function ConnectorName(id: string, generation: nat): string {
    CONNECTOR_PREFIX + id + "-g" + Decimal(generation)
  }

  predicate At(s: string, sep: string, j: int) { 0 <= j && j + |sep| <= |s| && s[j..j + |sep|] == sep }

  /** Position of the last occurrence of a separator, or -1. */
  function LastIndex(s: string, sep: string): (i: int)
    requires sep != []
    ensures i == -1 || At(s, sep, i)
    ensures forall j | At(s, sep, j) :: j <= i
  {
    if |s| < |sep| then -1
    else if At(s, sep, |s| - |sep|) then |s| - |sep|
    else
      var front := s[..|s| - 1];
      assert forall j | At(s, sep, j) :: At(front, sep, j) by {
        forall j | At(s, sep, j) ensures At(front, sep, j) { assert front[j..j + |sep|] == s[j..j + |sep|]; }
      }
      LastIndex(front, sep)
  }

  function SourceIdFromConnector(digit: Digits, name: string): Option<string> {
    if !StartsWith(name, CONNECTOR_PREFIX) || LastIndex(name, "-g") < 0 then None
    else
      var rest := name[|CONNECTOR_PREFIX|..];
      var i := LastIndex(rest, "-g");
      if i < 0 then None
      else
        var base, gen := rest[..i], rest[i + 2..];
        if base != [] && IsDigit(digit, gen) then Some(base) else None
  }

  /** Where the last separator sits when only digits follow it. */
  lemma SplitBeforeDigits(digit: Digits, base: string, sep: string, digits: string)
    requires |sep| == 2 && AllDigits(digit, digits) && (forall c | c in sep :: !digit(c))
    ensures LastIndex(base + sep + digits, sep) == |base|
  {
    var s := base + sep + digits;
    assert At(s, sep, |base|);
    forall j | |base| < j ensures !At(s, sep, j) { NoneAmongDigits(digit, base, sep, digits, j); }
  }

  lemma NoneAmongDigits(digit: Digits, base: string, sep: string, digits: string, j: nat)
    requires |sep| == 2 && AllDigits(digit, digits) && (forall c | c in sep :: !digit(c))
    requires |base| < j
    ensures !At(base + sep + digits, sep, j)
  {
    var s := base + sep + digits;
    if j + 2 <= |s| {
      var c := digits[j - 1 - |base|];
      assert c in digits && s[j..j + 2][1] == c;
      assert sep[1] in sep;
    }
  }

  /** A connector's name gives its source back, for every generation, unless the id is empty. */
  lemma NameRoundTrip(digit: Digits, id: string, generation: nat)
    requires Sensible(digit)
    ensures SourceIdFromConnector(digit, ConnectorName(id, generation)) == if id != "" then Some(id) else None
  {
    var name := ConnectorName(id, generation);
    var digits := Decimal(generation);
    SplitBeforeDigits(digit, id, "-g", digits);
    var rest := name[|CONNECTOR_PREFIX|..];
    assert rest == id + "-g" + digits;
    assert rest[..|id|] == id && rest[|id| + 2..] == digits;
    var j := |CONNECTOR_PREFIX| + |id|;
    assert At(name, "-g", j);
    assert name[..|CONNECTOR_PREFIX|] == CONNECTOR_PREFIX;
  }

  function Value(s: string): int {
    if s == [] then 0 else 10 * Value(s[..|s| - 1]) + (s[|s| - 1] as int - '0' as int)
  }

  lemma {:induction false} DecimalReadsBack(n: nat)
    ensures Value(Decimal(n)) == n
  {
    if n >= 10 {
      DecimalReadsBack(n / 10);
      var s := Decimal(n);
      assert s[..|s| - 1] == Decimal(n / 10);
    }
  }

  /** No two captures share a connector name. */
  lemma NamesAreUnique(a: string, g: nat, b: string, h: nat)
    requires ConnectorName(a, g) == ConnectorName(b, h)
    ensures a == b && g == h
  {
    var digit := (c: char) => '0' <= c <= '9';
    SplitBeforeDigits(digit, CONNECTOR_PREFIX + a, "-g", Decimal(g));
    SplitBeforeDigits(digit, CONNECTOR_PREFIX + b, "-g", Decimal(h));
    var s := ConnectorName(a, g);
    var n := |CONNECTOR_PREFIX|;
    assert s[n..n + |a|] == a && s[n..n + |b|] == b;
    assert s[n + |a| + 2..] == Decimal(g) && s[n + |b| + 2..] == Decimal(h);
    DecimalReadsBack(g);
    DecimalReadsBack(h);
  }

  /** Only names of that shape are taken for a source's. */
  lemma ParsedNameShape(digit: Digits, name: string, id: string) returns (digits: string)
    requires SourceIdFromConnector(digit, name) == Some(id)
    ensures id != "" && IsDigit(digit, digits) && name == CONNECTOR_PREFIX + id + "-g" + digits
  {
    var rest := name[|CONNECTOR_PREFIX|..];
    var i := LastIndex(rest, "-g");
    digits := rest[i + 2..];
    assert At(rest, "-g", i);
    assert rest == rest[..i] + "-g" + digits;
    assert name == CONNECTOR_PREFIX + rest;
    assert CONNECTOR_PREFIX + (id + "-g" + digits) == CONNECTOR_PREFIX + id + "-g" + digits;
  }

  // ---- Replication slots ----

  function Normal(id: string): (s: string)
    ensures |s| == |id| && forall i | 0 <= i < |id| :: s[i] == if id[i] == '-' then '_' else id[i]
  {
    if id == [] then [] else [if id[0] == '-' then '_' else id[0]] + Normal(id[1..])
  }

  function SlotStem(id: string): string { SLOT_PREFIX + Normal(id) + "_g" }

  function SlotName(id: string, generation: nat): string { SlotStem(id) + Decimal(generation) }

  datatype Slot = Slot(name: string, active: bool)

  predicate IsStale(digit: Digits, slot: Slot, id: string, keep: Option<string>) {
    && StartsWith(slot.name, SlotStem(id)) && IsDigit(digit, slot.name[|SlotStem(id)|..])
    && Some(slot.name) != keep && !slot.active
  }

  /** The names stale_slots selects, before it sorts them. */
  function StaleSlots(digit: Digits, slots: seq<Slot>, id: string, keep: Option<string>): seq<string> {
    if slots == [] then []
    else if IsStale(digit, slots[0], id, keep) then [slots[0].name] + StaleSlots(digit, slots[1..], id, keep)
    else StaleSlots(digit, slots[1..], id, keep)
  }

  lemma {:induction false} StaleSlotsHolds(digit: Digits, slots: seq<Slot>, id: string, keep: Option<string>,
                                           name: string)
    ensures name in StaleSlots(digit, slots, id, keep) <==>
            exists s :: s in slots && s.name == name && IsStale(digit, s, id, keep)
  {
    if slots == [] {
    } else {
      StaleSlotsHolds(digit, slots[1..], id, keep, name);
      assert slots == [slots[0]] + slots[1..];
      if slots[0].name == name && IsStale(digit, slots[0], id, keep) { assert slots[0] in slots; }
    }
  }

  /** Two stems that both fit a name, with digits after them, are the same stem. */
  lemma StemsAgree(digit: Digits, a: string, x: string, b: string, y: string)
    requires Sensible(digit) && AllDigits(digit, x) && AllDigits(digit, y)
    requires SLOT_PREFIX + a + "_g" + x == SLOT_PREFIX + b + "_g" + y
    ensures a == b
  {
    SplitBeforeDigits(digit, SLOT_PREFIX + a, "_g", x);
    SplitBeforeDigits(digit, SLOT_PREFIX + b, "_g", y);
    var s := SLOT_PREFIX + a + "_g" + x;
    assert SLOT_PREFIX + a == s[..|SLOT_PREFIX + a|] == SLOT_PREFIX + b;
    assert a == (SLOT_PREFIX + a)[|SLOT_PREFIX|..];
    assert b == (SLOT_PREFIX + b)[|SLOT_PREFIX|..];
  }

  /** Cleaning up after one source drops a slot of another exactly when the two ids agree once '-' is
      read as '_', the slot is inactive, and it is not the one to keep. */
  lemma StaleSlotOfSourceIff(digit: Digits, slots: seq<Slot>, id: string, keep: Option<string>, other: string,
                             generation: nat)
    requires Sensible(digit)
    ensures SlotName(other, generation) in StaleSlots(digit, slots, id, keep) <==>
            && Normal(other) == Normal(id)
            && keep != Some(SlotName(other, generation))
            && Slot(SlotName(other, generation), false) in slots
  {
    var name := SlotName(other, generation);
    StaleSlotsHolds(digit, slots, id, keep, name);
    var inactive := Slot(name, false);
    if Normal(other) == Normal(id) {
      OwnSlotMatches(digit, id, other, generation);
      assert IsStale(digit, inactive, id, keep) <==> keep != Some(name);
    }
    if exists s :: s in slots && s.name == name && IsStale(digit, s, id, keep) {
      var s :| s in slots && s.name == name && IsStale(digit, s, id, keep);
      assert s == inactive;
      var y := name[|SlotStem(id)|..];
      assert name == SlotStem(id) + y;
      StemsAgree(digit, Normal(other), Decimal(generation), Normal(id), y);
    }
  }

  lemma OwnSlotMatches(digit: Digits, id: string, other: string, generation: nat)
    requires Sensible(digit) && Normal(other) == Normal(id)
    ensures StartsWith(SlotName(other, generation), SlotStem(id))
    ensures IsDigit(digit, SlotName(other, generation)[|SlotStem(id)|..])
  {
    assert SlotName(other, generation)[|SlotStem(id)|..] == Decimal(generation);
  }

  // ---- Shards ----

  function Most(a: int, b: int): int { if a >= b then a else b }

  /** The number of shards for a fleet: the fewest that hold it, within the maximum, and at least one. */
  function ShardCount(total: nat, shardSize: int, maxShards: int): (n: nat)
    ensures n >= 1 && (n <= maxShards || n == 1)
    ensures n * Most(1, shardSize) >= total || n >= maxShards
    ensures n == 1 || (n - 1) * Most(1, shardSize) < total
  {
    var size := Most(1, shardSize);
    var wanted := (total + size - 1) / size;
    CeilingHolds(total, size, wanted);
    var capped := if wanted < maxShards then wanted else maxShards;
    if capped > 1 then (Fewer(capped, wanted, size); capped) else 1
  }

  lemma CeilingHolds(total: nat, size: int, wanted: int)
    requires size >= 1 && wanted == (total + size - 1) / size
    ensures wanted * size >= total && (wanted - 1) * size < total + (if total == 0 then 1 else 0) && wanted >= 0
  {
    assert total + size - 1 == wanted * size + (total + size - 1) % size;
    assert (wanted - 1) * size == wanted * size - size;
  }

  lemma Fewer(a: int, b: int, size: int)
    requires size >= 1 && a <= b
    ensures (a - 1) * size <= (b - 1) * size
  {
  }

  /** The registered sources a shard lists; hash is the database's hashtext, made non-negative. */
  ghost predicate Lists(registered: set<string>, hash: string -> nat, count: nat, index: nat, id: string)
    requires count >= 1
  {
    id in registered && hash(id) % count == index
  }

  /** Whether a shard takes charge of a connector it sees on a cluster. */
  ghost predicate Observes(digit: Digits, registered: set<string>, hash: string -> nat, count: nat, index: nat,
                           name: string)
    requires count >= 1
  {
    var id := SourceIdFromConnector(digit, name);
    && StartsWith(name, CONNECTOR_PREFIX)
    && ((id.Some? && Lists(registered, hash, count, index, id.value))
        || (index == 0 && !(id.Some? && id.value in registered)))
  }

  function Keeper(digit: Digits, registered: set<string>, hash: string -> nat, count: nat, name: string): (i: nat)
    requires count >= 1
    ensures i < count
  {
    var id := SourceIdFromConnector(digit, name);
    if id.Some? && id.value in registered then hash(id.value) % count else 0
  }

  /** Every managed connector is in exactly one shard's charge, and that is the shard which lists its
      source, and so may want it, if any does. */
  lemma OneKeeper(digit: Digits, registered: set<string>, hash: string -> nat, count: nat, name: string, index: nat)
    requires Sensible(digit) && count >= 1 && StartsWith(name, CONNECTOR_PREFIX) && index < count
    ensures Observes(digit, registered, hash, count, index, name) <==>
            index == Keeper(digit, registered, hash, count, name)
    ensures forall id, g: nat | id != "" && name == ConnectorName(id, g) && Lists(registered, hash, count, index, id) ::
              Observes(digit, registered, hash, count, index, name)
  {
    forall id, g: nat | id != "" && Lists(registered, hash, count, index, id) && name == ConnectorName(id, g)
      ensures Observes(digit, registered, hash, count, index, name)
    {
      NameRoundTrip(digit, id, g);
    }
  }
}
