/** The retry loop over a buffer, as a function of the outside world (SinkWorker.processWithRetry). */
module Retrying {
  import opened Options
  import opened Routing
  import opened Batches
  import opened Isolation

  /** The outside world during one attempt: the ownership and the warehouse's answer it meets, those of an
      isolation, the assignment, and what is revoked while it sleeps. */
  datatype Attempt = Attempt(
    snap: Snapshot, verdict: Verdict, isolationSnap: Snapshot, isolation: nat -> Io,
    assignment: set<Partition>, revoked: set<Partition>)

  /** The worker's own state as a value, with what a call has returned so far. */
  datatype Status = Status(
    buffer: seq<Record>, held: set<Partition>, tripped: bool, quarantined: seq<Record>, commit: Offsets)

  datatype Ending = Again | Finished | Dead

  datatype Attempted = Attempted(status: Status, store: Store, ending: Ending)

  /** A revoked partition leaves the buffer and the holds. */
  function Dropped(w: Status, revoked: set<Partition>): Status {
    w.(buffer := Without(w.buffer, revoked), held := w.held - revoked)
  }

  /** A rejected batch, isolated: on an isolation that ends by an exception the worker sleeps, unless the
      exception is fatal. */
  function IsolateAttempt(w: Status, s: Store, a: Attempt, c: Config): Attempted {
    var limit := QuarantineLimit(c, |w.buffer|);
    Isolated(w, Run(Start(w.buffer, w.buffer, a.isolationSnap), s, a.isolation, 0, limit, c.skipUnknown), a)
  }

  function Isolated(w: Status, e: End, a: Attempt): Attempted {
    var w' := w.(buffer := e.iso.buffer, held := e.iso.held.Keys * a.assignment,
                 quarantined := w.quarantined + e.iso.quarantined);
    if e.fault == None then Attempted(w'.(commit := Merge(w.commit, e.iso.commit)), e.store, Again)
    else if e.fault == Some(Failed(Fatal)) then Attempted(w', e.store, Dead)
    else Attempted(Dropped(w', a.revoked).(tripped := e.fault == Some(LimitReached)), e.store, Again)
  }

  /** One turn of processWithRetry. */
  function OneAttempt(w: Status, s: Store, a: Attempt, c: Config): Attempted {
    var plan := PlanOf(w.buffer, a.snap, map[], c.skipUnknown);
    var v := Answer(plan, a.verdict);
    var s' := After(s, plan, v);
    if v == Ok then
      Attempted(w.(buffer := Minus(w.buffer, Processed(w.buffer, plan.held)), held := plan.held.Keys * a.assignment,
                   commit := Merge(w.commit, plan.next), tripped := false),
                s', Finished)
    else if v == Fatal then Attempted(w, s', Dead)
    else if v == Data && !w.tripped then IsolateAttempt(w, s', a, c)
    else Attempted(Dropped(w, a.revoked), s', Again)
  }

  /** processWithRetry until the buffer is empty, a batch settles, the worker dies, or shutdown before
      attempt `stop`. */
  function Retry(w: Status, s: Store, env: nat -> Attempt, n: nat, stop: nat, c: Config): Attempted
    decreases stop - n
  {
    if n >= stop || w.buffer == [] then Attempted(w, s, Again)
    else
      var step := OneAttempt(w, s, env(n), c);
      if step.ending == Again then Retry(step.status, step.store, env, n + 1, stop, c) else step
  }
}
