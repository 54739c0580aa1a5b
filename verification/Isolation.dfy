/** How the sink settles a batch the warehouse rejected: bisect it, write the good halves, quarantine
    the bad records (SinkWorker.isolate, quarantine, keepAlive, removeProcessed). */
module Isolation {
  import opened Options
  import opened Routing
  import opened Batches

  /** What outlives a worker: rows applied in the warehouse, published dead letters, records skipped or
      found empty, and the stored next offsets. */
  datatype Store = Store(
    applied: seq<Record>, letters: seq<Record>, skipped: seq<Record>, ignored: seq<Record>, offsets: Offsets)

  function Settled(s: Store): set<Id> { Ids(s.applied) + Ids(s.letters) + Ids(s.skipped) + Ids(s.ignored) }

  function Publish(s: Store, rs: seq<Record>): Store { s.(letters := s.letters + rs) }

  /** The records at some positions. */
  function Chosen(rs: seq<Record>, at: set<nat>): seq<Record>
    decreases |rs|
  {
    if rs == [] then []
    else if |rs| - 1 in at then Chosen(rs[..|rs| - 1], at) + [rs[|rs| - 1]]
    else Chosen(rs[..|rs| - 1], at)
  }

  lemma {:induction false} ChosenAreThere(rs: seq<Record>, at: set<nat>)
    ensures forall r | r in Chosen(rs, at) :: r in rs
    decreases |rs|
  {
    if rs == [] {
    } else {
      ChosenAreThere(rs[..|rs| - 1], at);
      assert rs == rs[..|rs| - 1] + [rs[|rs| - 1]];
    }
  }

  /** WarehouseWriter.write: rows and offsets in one transaction, offsets merged by GREATEST. */
  function Commit(s: Store, p: Plan): Store {
    s.(applied := s.applied + p.writes, skipped := s.skipped + p.skips, ignored := s.ignored + p.ignored,
       offsets := Merge(s.offsets, p.next))
  }

  /** How a write ends for its caller. A lost connection is Transient, and the transaction may have
      committed before it was lost. Unpublished is a dead letter the broker did not take; of the letters
      sent with it, those at the positions `sent` are out. */
  datatype Verdict = Ok | Fenced | Data | Transient(committed: bool) | Fatal | Unpublished(sent: set<nat>)

  /** A pass with nothing to store never reaches the warehouse. */
  function Answer(p: Plan, v: Verdict): Verdict { if p.next == map[] then Ok else v }

  /** Letters are published first, then rows and offsets are committed together. */
  function After(s: Store, p: Plan, v: Verdict): Store {
    if v.Unpublished? then Publish(s, Chosen(p.letters, v.sent))
    else if v == Ok || v == Transient(true) then Commit(Publish(s, p.letters), p)
    else Publish(s, p.letters)
  }

  /** A quarantined record is published, then its offset alone is stored. */
  function QuarantinePlan(r: Record): Plan { Plan([], [r], [], [], map[r.tp := r.offset + 1], map[]) }

  /** The records removeProcessed drops from the buffer. */
  function Processed(part: seq<Record>, held: Offsets): set<Record> {
    set r | r in part && (r.tp !in held || r.offset < held[r.tp])
  }

  /** The worker's configuration. */
  datatype Config = Config(skipUnknown: bool, maxRows: int, maxRatio: real)

  /** So many quarantined records are within the row limit and within the ratio, rounded up. */
  predicate Tolerable(c: Config, batchSize: nat, n: int) {
    n <= c.maxRows && (n - 1) as real < c.maxRatio * batchSize as real
  }

  /** The limit on quarantined records in one isolation: the largest tolerable number, but at least one. */
  function QuarantineLimit(c: Config, batchSize: nat): (limit: nat)
    ensures limit >= 1 && (limit == 1 || Tolerable(c, batchSize, limit))
    ensures forall n: int | Tolerable(c, batchSize, n) :: n <= limit
  {
    var byRatio := -(-(c.maxRatio * batchSize as real)).Floor;
    var capped := if c.maxRows <= byRatio then c.maxRows else byRatio;
    if capped >= 1 then capped else 1
  }

  datatype Iso = Iso(
    work: seq<seq<Record>>, buffer: seq<Record>, held: Offsets, snap: Snapshot,
    quarantined: seq<Record>, fenced: nat, commit: Offsets)

  /** One turn's outside world: the keep-alive poll's rebalance, the warehouse's answers, and the
      snapshot a refresh would give. */
  datatype Io = Io(
    revoked: set<Partition>, owned: set<Partition>,
    verdict: seq<Record> -> Verdict, quarantine: Record -> Verdict, refreshed: Snapshot)

  datatype Fault = FencedOut | LimitReached | Failed(verdict: Verdict)

  datatype Turn = Running(iso: Iso, store: Store) | Stopped(iso: Iso, store: Store, fault: Fault)

  function Keep(rs: seq<Record>, owned: set<Partition>): seq<Record>
    decreases |rs|
  {
    if rs == [] then []
    else if rs[0].tp in owned then [rs[0]] + Keep(rs[1..], owned)
    else Keep(rs[1..], owned)
  }

  function KeepAll(work: seq<seq<Record>>, owned: set<Partition>): seq<seq<Record>>
    decreases |work|
  {
    if work == [] then [] else [Keep(work[0], owned)] + KeepAll(work[1..], owned)
  }

  /** The keep-alive poll: a revoked partition leaves the buffer, an unassigned one leaves the work. */
  function KeepAlive(iso: Iso, io: Io): Iso {
    iso.(work := KeepAll(iso.work, io.owned), buffer := Without(iso.buffer, io.revoked))
  }

  /** A part the warehouse rejects for its data: halves to work on next, or one record to quarantine. */
  function Refused(iso: Iso, part: seq<Record>, store: Store, io: Io, limit: nat): Turn
    requires part != []
  {
    if |part| > 1 then
      var mid := |part| / 2;
      Running(iso.(work := [part[..mid], part[mid..]] + iso.work), store)
    else if |iso.quarantined| >= limit then Stopped(iso, store, LimitReached)
    else
      var q := QuarantinePlan(part[0]);
      var w := io.quarantine(part[0]);
      if w == Ok then
        Running(iso.(buffer := Minus(iso.buffer, {part[0]}), commit := Merge(iso.commit, q.next),
                     quarantined := iso.quarantined + [part[0]]), After(store, q, w))
      else Stopped(iso, After(store, q, w), Failed(w))
  }

  /** SinkWorker.isolate, the rest of the loop body, for a part taken from the front of the work. */
  function Settle(iso: Iso, part: seq<Record>, store: Store, io: Io, limit: nat, skipUnknown: bool): Turn
    requires part != []
  {
    var plan := PlanOf(part, iso.snap, iso.held, skipUnknown);
    var v := Answer(plan, io.verdict(part));
    var store' := After(store, plan, v);
    match v
    case Ok =>
      Running(iso.(held := plan.held, buffer := Minus(iso.buffer, Processed(part, plan.held)),
                   commit := Merge(iso.commit, plan.next), fenced := 0), store')
    case Fenced =>
      if iso.fenced + 1 >= 5 then Stopped(iso.(fenced := iso.fenced + 1), store', FencedOut)
      else Running(iso.(fenced := iso.fenced + 1, snap := io.refreshed, work := [part] + iso.work), store')
    case Data => Refused(iso, part, store', io, limit)
    case _ => Stopped(iso, store', Failed(v))
  }

  function OneTurn(iso: Iso, store: Store, io: Io, limit: nat, skipUnknown: bool): Turn
    requires iso.work != []
  {
    var alive := KeepAlive(iso, io);
    var part := alive.work[0];
    var rest := alive.(work := alive.work[1..]);
    if part == [] then Running(rest, store) else Settle(rest, part, store, io, limit, skipUnknown)
  }

  // ---- Termination ----

  function PartWeight(part: seq<Record>): nat { if part == [] then 1 else 2 * |part| - 1 }

  function Weight(work: seq<seq<Record>>): nat
    decreases |work|
  {
    if work == [] then 0 else PartWeight(work[0]) + Weight(work[1..])
  }

  lemma {:induction rs} KeepShrinks(rs: seq<Record>, owned: set<Partition>)
    ensures |Keep(rs, owned)| <= |rs|
    decreases |rs|
  {
  }

  lemma {:induction false} KeepAllShrinks(work: seq<seq<Record>>, owned: set<Partition>)
    ensures |KeepAll(work, owned)| == |work| && Weight(KeepAll(work, owned)) <= Weight(work)
    decreases |work|
  {
    if work == [] {
    } else {
      KeepShrinks(work[0], owned);
      KeepAllShrinks(work[1..], owned);
      var kept := KeepAll(work[1..], owned);
      assert ([Keep(work[0], owned)] + kept)[1..] == kept;
    }
  }

  /** Each turn that goes on lowers the pair (weight of the work, fences left), whatever the warehouse
      answers and whatever the rebalance takes away. */
  lemma TurnShrinks(iso: Iso, store: Store, io: Io, limit: nat, skipUnknown: bool)
    requires iso.work != [] && iso.fenced < 5
    ensures
      var t := OneTurn(iso, store, io, limit, skipUnknown);
      t.Running? ==>
        && t.iso.fenced < 5
        && (Weight(t.iso.work) < Weight(iso.work)
            || (Weight(t.iso.work) == Weight(iso.work) && t.iso.fenced == iso.fenced + 1))
  {
    KeepAllShrinks(iso.work, io.owned);
    var alive := KeepAlive(iso, io);
    var part := alive.work[0];
    var rest := alive.work[1..];
    assert alive.work == [part] + rest;
    if part != [] {
      var mid := |part| / 2;
      var halves := [part[..mid], part[mid..]] + rest;
      assert halves[1..] == [part[mid..]] + rest && ([part[mid..]] + rest)[1..] == rest;
      assert ([part] + rest)[1..] == rest;
    }
  }

  datatype End = End(iso: Iso, store: Store, fault: Option<Fault>)

  /** A whole isolation, given the outside world turn by turn. */
  function Run(iso: Iso, store: Store, env: nat -> Io, n: nat, limit: nat, skipUnknown: bool): End
    requires iso.fenced < 5
    decreases Weight(iso.work), 5 - iso.fenced
  {
    if iso.work == [] then End(iso, store, None)
    else
      TurnShrinks(iso, store, env(n), limit, skipUnknown);
      match OneTurn(iso, store, env(n), limit, skipUnknown)
      case Running(iso', store') => Run(iso', store', env, n + 1, limit, skipUnknown)
      case Stopped(iso', store', fault) => End(iso', store', Some(fault))
  }

  function Start(batch: seq<Record>, buffer: seq<Record>, snap: Snapshot): Iso {
    Iso([batch], buffer, map[], snap, [], 0, map[])
  }
}
