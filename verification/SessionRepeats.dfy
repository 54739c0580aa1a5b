/** One worker between two rebalances when replies may be lost: it applies a record again only after a
    commit whose reply was lost. */
module SessionRepeats {
  import opened Routing
  import opened Batches
  import opened Isolation
  import opened IsolationProofs
  import opened Retrying
  import opened RetryCommits
  import opened Delivery
  import opened Session

  /** What a worker holds is in offset order and was fetched. */
  ghost predicate Aligned(worker: Worker) {
    && Ordered(BufferOf(worker)) && Fetched(InHand(worker), worker.pos)
    && (worker.mode.Isolating? ==> Ordered(Flat(worker.mode.iso.work)))
  }

  /** The worker is past the record: it neither holds it nor will fetch it. */
  ghost predicate Past(worker: Worker, r: Record) {
    r !in InHand(worker) && (r.tp in worker.pos ==> r.offset < worker.pos[r.tp])
  }

  /** A step between two rebalances of worker w, whatever the replies; no other worker writes to `mine`. */
  ghost predicate Undisturbing(s: State, step: Step, c: Config, w: nat, mine: set<Partition>) {
    match step
    case Process(v, _, _, _) => v == w || AddsOutside(s, step, c, mine)
    case IsolationTurn(v, _) => v == w || AddsOutside(s, step, c, mine)
    case Revoke(v, _) => v != w
    case Assign(v, _) => v != w
    case Crash(v) => v != w
    case _ => true
  }

  /** The commits of a step. */
  ghost function StepCommits(s: State, step: Step, c: Config): seq<Transaction> {
    match step
    case Process(w, snap, verdict, _) =>
      if w < |s.workers| then
        var plan := PlanOf(BufferOf(s.workers[w]), snap, map[], c.skipUnknown);
        CommitOf(plan, Answer(plan, verdict))
      else []
    case IsolationTurn(w, io) =>
      if w < |s.workers| && s.workers[w].mode.Isolating? && s.workers[w].mode.iso.work != [] then
        TurnCommits(s.workers[w].mode.iso, io, c.skipUnknown)
      else []
    case _ => []
  }

  /** Some commit of the step lost its reply. */
  ghost predicate LosesReply(s: State, step: Step, c: Config) { exists x :: x in StepCommits(s, step, c) && x.lost }

  /** What a step of its own does to a tidy worker. */
  ghost predicate Advances(worker: Worker, cs: seq<Transaction>, after: Worker) {
    && Aligned(after)
    && Orderly(cs, InHand(worker)) && Released(cs, InHand(after))
    && (forall r | Past(worker, r) :: Past(after, r))
    && (forall x, r | x in cs && r in x.writes && r.tp in after.pos :: r.offset < after.pos[r.tp])
  }

  lemma FewerAdvances(worker: Worker, cs: seq<Transaction>, after: Worker)
    requires Aligned(worker) && Ordered(BufferOf(after)) && Sub(InHand(after), InHand(worker))
    requires after.mode.Isolating? ==> Ordered(Flat(after.mode.iso.work))
    requires after.pos == worker.pos || after.pos == map[]
    requires Orderly(cs, InHand(worker)) && Released(cs, InHand(after))
    ensures Advances(worker, cs, after)
  {
    forall x, r | x in cs && r in x.writes && r.tp in after.pos ensures r.offset < after.pos[r.tp] {
      assert r in InHand(worker);
    }
  }

  lemma PolledAdvances(worker: Worker, log: Log, tp: Partition)
    requires Aligned(worker) && worker.mode.Collecting?
    requires tp in worker.pos && tp in log && worker.pos[tp] < |log[tp]|
    ensures Advances(worker, [], Polled(worker, log, tp))
  {
    var buffer, r := BufferOf(worker), RecordAt(log, tp, worker.pos[tp]);
    var after := Polled(worker, log, tp);
    if log[tp][worker.pos[tp]].Payload? { OrderedSnoc(buffer, r); }
    forall x | x in InHand(after) && x.tp in after.pos ensures x.offset < after.pos[x.tp] {
      assert x in InHand(worker) || x == r;
    }
    forall x | Past(worker, x) ensures Past(after, x) {
      assert x in InHand(after) ==> x in InHand(worker) || x == r;
    }
  }

  lemma OrderedSnoc(rs: seq<Record>, r: Record)
    requires Ordered(rs) && forall x | x in rs && x.tp == r.tp :: x.offset < r.offset
    ensures Ordered(rs + [r])
  {
    var more := rs + [r];
    forall i, j | 0 <= i < j < |more| && more[i].tp == more[j].tp ensures more[i].offset < more[j].offset {
      if j == |rs| { assert rs[i] in rs; }
    }
  }

  lemma ProcessedAdvances(worker: Worker, snap: Snapshot, v: Verdict, isolationSnap: Snapshot, c: Config, plan: Plan)
    requires Aligned(worker) && worker.mode.Collecting?
    requires plan == PlanOf(BufferOf(worker), snap, map[], c.skipUnknown)
    ensures Advances(worker, CommitOf(plan, v), AfterProcess(worker, plan, v, isolationSnap, c))
  {
    var buffer := BufferOf(worker);
    var after := AfterProcess(worker, plan, v, isolationSnap, c);
    CommitSound(buffer, snap, map[], c.skipUnknown, v);
    if v == Ok {
      WritesLeave(buffer, snap, map[], c.skipUnknown, plan);
      MinusSub(buffer, Processed(buffer, plan.held));
    } else if v == Data && !worker.tripped {
      FlatCons(buffer, []);
      assert [buffer] + [] == [buffer] && buffer + Flat([]) == buffer;
    }
    FewerAdvances(worker, CommitOf(plan, v), after);
  }

  lemma TurnedAdvances(worker: Worker, s: Store, io: Io, c: Config)
    requires worker.mode.Isolating? && worker.mode.iso.work != [] && Aligned(worker)
    ensures
      var t := OneTurn(worker.mode.iso, s, io, worker.mode.limit, c.skipUnknown);
      Advances(worker, TurnCommits(worker.mode.iso, io, c.skipUnknown), AfterTurn(worker, t))
  {
    var iso := worker.mode.iso;
    var t := OneTurn(iso, s, io, worker.mode.limit, c.skipUnknown);
    var cs := TurnCommits(iso, io, c.skipUnknown);
    assert [] + Flat(iso.work) == Flat(iso.work);
    TurnSound(iso, s, io, worker.mode.limit, c.skipUnknown);
    FewerAdvances(worker, cs, AfterTurn(worker, t));
  }

  lemma OwnStepAdvances(s: State, w: nat, step: Step, c: Config, mine: set<Partition>)
    requires w < |s.workers| && Of(step, w) && Enabled(s, step, c) && Undisturbing(s, step, c, w, mine)
    requires Aligned(s.workers[w])
    ensures Advances(s.workers[w], StepCommits(s, step, c), Next(s, step, c).workers[w])
    ensures Next(s, step, c).store.applied == s.store.applied + Written(StepCommits(s, step, c))
  {
    var worker := s.workers[w];
    if step.Poll? {
      PolledAdvances(worker, s.log, step.tp);
      assert s.store.applied + [] == s.store.applied;
    } else if step.Process? {
      var plan := PlanOf(BufferOf(worker), step.snap, map[], c.skipUnknown);
      var v := Answer(plan, step.verdict);
      ProcessedAdvances(worker, step.snap, v, step.isolationSnap, c, plan);
      CommitApplies(s.store, plan, v);
    } else if worker.mode.iso.work == [] {
      FewerAdvances(worker, [], worker.(mode := Collecting(worker.mode.iso.buffer)));
      assert s.store.applied + [] == s.store.applied;
    } else {
      TurnedAdvances(worker, s.store, step.io, c);
      TurnApplies(worker.mode.iso, s.store, step.io, worker.mode.limit, c.skipUnknown);
    }
  }

  lemma {:induction false} StaysTidy(states: seq<State>, steps: seq<Step>, c: Config, w: nat, a: nat, b: nat,
                                     mine: set<Partition>)
    requires Trace(states, steps, c) && a <= b < |states| && w < |states[a].workers| && Aligned(states[a].workers[w])
    requires forall i | a <= i < b :: Undisturbing(states[i], steps[i], c, w, mine)
    ensures w < |states[b].workers| && Aligned(states[b].workers[w])
    ensures states[a].store.applied <= states[b].store.applied
    decreases b - a
  {
    if a == b {
    } else {
      StaysTidy(states, steps, c, w, a, b - 1, mine);
      var s, step := states[b - 1], steps[b - 1];
      if Of(step, w) {
        OwnStepAdvances(s, w, step, c, mine);
      } else {
        OthersLeave(s, w, step, c);
      }
    }
  }

  /** Each commit writes a record once, and one that got its reply is past it. */
  lemma {:induction false} WrittenPast(cs: seq<Transaction>, worker: Worker, after: Worker, k: nat)
    requires Advances(worker, cs, after) && |cs| <= 1 && (forall x | x in cs :: !x.lost) && k < |Written(cs)|
    ensures Past(after, Written(cs)[k])
    ensures forall l | k < l < |Written(cs)| :: Written(cs)[l] != Written(cs)[k]
  {
    assert cs == [cs[0]] && Written(cs) == cs[0].writes + Written([]);
    assert cs[0] in cs && Written(cs)[k] in cs[0].writes;
  }

  lemma OneCommit(s: State, step: Step, c: Config)
    ensures |StepCommits(s, step, c)| <= 1
  {
  }

  /** The k-th record applied so far is not applied again in what `after` adds. */
  ghost predicate LastSeen(applied: seq<Record>, k: nat, after: seq<Record>) {
    k < |applied| && applied <= after && forall l | k < l < |after| :: after[l] != applied[k]
  }

  ghost predicate AddsNo(r: Record, before: seq<Record>, after: seq<Record>) {
    before <= after && forall l | |before| <= l < |after| :: after[l] != r
  }

  /** In every execution, from any moment on until the worker's next rebalance and for any replies: once a
      record of one of its partitions is applied by a step that lost no reply, the worker is past it and it
      is never applied again. So an application that is repeated comes from a step whose reply was lost. */
  lemma RepeatsFollowLostReplies(states: seq<State>, steps: seq<Step>, c: Config, w: nat, a: nat, j: nat, b: nat,
                                 mine: set<Partition>, k: nat)
    requires Execution(states, steps, c) && a <= j < b < |states| && w < |states[a].workers|
    requires forall i | 0 <= i < a :: Listens(states[i], steps[i], w)
    requires forall i | a <= i < b :: Undisturbing(states[i], steps[i], c, w, mine)
    requires |states[j].store.applied| <= k < |states[j + 1].store.applied|
    requires states[j + 1].store.applied[k].tp in mine && !LosesReply(states[j], steps[j], c)
    ensures w < |states[b].workers| && Past(states[b].workers[w], states[j + 1].store.applied[k])
    ensures LastSeen(states[j + 1].store.applied, k, states[b].store.applied)
  {
    ExecutionInLine(states, steps, c, w, a);
    var first := states[j + 1].store.applied;
    AtOnce(states, steps, c, w, a, j, mine, k);
    assert Stays(states[j + 1], w, first, k);
    forall i | j + 1 <= i < b && Stays(states[i], w, first, k) ensures Stays(states[i + 1], w, first, k) {
      Later(states, steps, c, w, a, i, mine, first, k);
    }
    Climb(states, w, first, k, j + 1, b);
  }

  /** The worker is past the k-th record, which was not applied again so far. */
  ghost predicate Stays(s: State, w: nat, first: seq<Record>, k: nat) {
    w < |s.workers| && LastSeen(first, k, s.store.applied) && Past(s.workers[w], first[k])
  }

  lemma {:induction false} Climb(states: seq<State>, w: nat, first: seq<Record>, k: nat, lo: nat, hi: nat)
    requires lo <= hi < |states| && Stays(states[lo], w, first, k)
    requires forall i | lo <= i < hi && Stays(states[i], w, first, k) :: Stays(states[i + 1], w, first, k)
    ensures Stays(states[hi], w, first, k)
    decreases hi - lo
  {
    if lo == hi {
    } else {
      Climb(states, w, first, k, lo, hi - 1);
    }
  }

  lemma AtOnce(states: seq<State>, steps: seq<Step>, c: Config, w: nat, a: nat, j: nat, mine: set<Partition>, k: nat)
    requires Trace(states, steps, c) && a <= j < |steps| && w < |states[a].workers| && Aligned(states[a].workers[w])
    requires forall i | a <= i <= j :: Undisturbing(states[i], steps[i], c, w, mine)
    requires |states[j].store.applied| <= k < |states[j + 1].store.applied|
    requires states[j + 1].store.applied[k].tp in mine && !LosesReply(states[j], steps[j], c)
    ensures w < |states[j + 1].workers| && Past(states[j + 1].workers[w], states[j + 1].store.applied[k])
    ensures LastSeen(states[j + 1].store.applied, k, states[j + 1].store.applied)
  {
    StaysTidy(states, steps, c, w, a, j, mine);
    FirstTime(states[j], w, steps[j], c, mine, k);
  }

  lemma Later(states: seq<State>, steps: seq<Step>, c: Config, w: nat, a: nat, b: nat, mine: set<Partition>,
              first: seq<Record>, k: nat)
    requires Trace(states, steps, c) && a <= b < |steps| && w < |states[a].workers| && Aligned(states[a].workers[w])
    requires forall i | a <= i <= b :: Undisturbing(states[i], steps[i], c, w, mine)
    requires LastSeen(first, k, states[b].store.applied) && first[k].tp in mine
    requires w < |states[b].workers| && Past(states[b].workers[w], first[k])
    ensures w < |states[b + 1].workers| && Past(states[b + 1].workers[w], first[k])
    ensures LastSeen(first, k, states[b + 1].store.applied)
  {
    StaysTidy(states, steps, c, w, a, b, mine);
    NotAgain(states[b], w, steps[b], c, mine, first[k]);
    StillLast(first, states[b].store.applied, states[b + 1].store.applied, k);
  }

  lemma StillLast(first: seq<Record>, before: seq<Record>, after: seq<Record>, k: nat)
    requires LastSeen(first, k, before) && AddsNo(first[k], before, after)
    ensures LastSeen(first, k, after)
  {
  }

  lemma FirstTime(s: State, w: nat, step: Step, c: Config, mine: set<Partition>, k: nat)
    requires w < |s.workers| && Aligned(s.workers[w]) && Enabled(s, step, c) && Undisturbing(s, step, c, w, mine)
    requires var s' := Next(s, step, c); |s.store.applied| <= k < |s'.store.applied| && s'.store.applied[k].tp in mine
    requires !LosesReply(s, step, c)
    ensures var s' := Next(s, step, c);
            && w < |s'.workers| && Past(s'.workers[w], s'.store.applied[k])
            && LastSeen(s'.store.applied, k, s'.store.applied)
  {
    if Of(step, w) {
      OwnFirstTime(s, w, step, c, mine, k);
    } else {
      OthersOutside(s, w, step, c, mine, k);
    }
  }

  lemma OwnFirstTime(s: State, w: nat, step: Step, c: Config, mine: set<Partition>, k: nat)
    requires w < |s.workers| && Aligned(s.workers[w]) && Enabled(s, step, c) && Undisturbing(s, step, c, w, mine)
    requires Of(step, w) && !LosesReply(s, step, c)
    requires |s.store.applied| <= k < |Next(s, step, c).store.applied|
    ensures var s' := Next(s, step, c);
            && w < |s'.workers| && Past(s'.workers[w], s'.store.applied[k])
            && LastSeen(s'.store.applied, k, s'.store.applied)
  {
    var s' := Next(s, step, c);
    OwnStepAdvances(s, w, step, c, mine);
    OneCommit(s, step, c);
    WrittenPast(StepCommits(s, step, c), s.workers[w], s'.workers[w], k - |s.store.applied|);
  }

  lemma OthersOutside(s: State, w: nat, step: Step, c: Config, mine: set<Partition>, k: nat)
    requires w < |s.workers| && !Of(step, w) && Undisturbing(s, step, c, w, mine)
    requires |s.store.applied| <= k < |Next(s, step, c).store.applied|
    ensures Next(s, step, c).store.applied[k].tp !in mine
  {
    OthersLeave(s, w, step, c);
    var all := Next(s, step, c).store.applied;
    var added := all[|s.store.applied|..];
    assert all[k] == added[k - |s.store.applied|] && added[k - |s.store.applied|] in added;
  }

  lemma NotAgain(s: State, w: nat, step: Step, c: Config, mine: set<Partition>, r: Record)
    requires w < |s.workers| && Aligned(s.workers[w]) && Enabled(s, step, c) && Undisturbing(s, step, c, w, mine)
    requires Past(s.workers[w], r) && r.tp in mine
    ensures var s' := Next(s, step, c);
            w < |s'.workers| && Past(s'.workers[w], r) && AddsNo(r, s.store.applied, s'.store.applied)
  {
    var s' := Next(s, step, c);
    if Of(step, w) {
      OwnStepAdvances(s, w, step, c, mine);
      WrittenFrom(StepCommits(s, step, c), InHand(s.workers[w]));
    } else {
      OthersLeave(s, w, step, c);
      forall l | |s.store.applied| <= l < |s'.store.applied| ensures s'.store.applied[l] != r {
        assert s'.store.applied[l] in s'.store.applied[|s.store.applied|..];
      }
    }
  }

  lemma {:induction false} WrittenFrom(cs: seq<Transaction>, rs: seq<Record>)
    requires From(cs, rs)
    ensures forall r | r in Written(cs) :: r in rs
  {
    if cs == [] {
    } else {
      assert cs[0] in cs && forall x | x in cs[1..] :: x in cs;
      WrittenFrom(cs[1..], rs);
    }
  }

  /** A collecting worker's buffer is in offset order at any moment of such an execution, so what a call of
      the retry loop made then applies more than once is known exactly. */
  lemma CallRepeatsIff(states: seq<State>, steps: seq<Step>, c: Config, w: nat, i: nat, status: Status,
                       env: nat -> Attempt, stop: nat, r: Record)
    requires Execution(states, steps, c) && i < |states| && w < |states[i].workers|
    requires forall k | 0 <= k < i :: Listens(states[k], steps[k], w)
    requires states[i].workers[w].mode == Collecting(status.buffer)
    ensures
      var s := states[i].store;
      var all := Retry(status, s, env, 0, stop, c).store.applied;
      var cs := CallCommits(status, s, env, 0, stop, c);
      && s.applied <= all
      && (multiset(all[|s.applied|..])[r] > 1 <==>
            exists x, y :: 0 <= x < y < |cs| && cs[x].lost && r in cs[x].writes && r in cs[y].writes)
  {
    ExecutionInLine(states, steps, c, w, i);
    RepeatsIff(status, states[i].store, env, 0, stop, c, r);
  }
}
