/**
 Runs of the agent operation registry under one clock: its three tables stay mutually
 consistent, results are final, eviction and reaping take exactly what they should, and
 polls are paced.
 */
module AgentRuns {
  import opened Options
  import opened AgentRegistry

  // ------------------------------------------------------------- consistency

  predicate ActiveOk(g: Registry) {
    forall s :: s in g.activeBySession ==>
                  && g.activeBySession[s] in g.operations
                  && g.operations[g.activeBySession[s]].session == s
                  && g.operations[g.activeBySession[s]].state.Running?
  }

  predicate OperationsOk(g: Registry) {
    forall op :: op in g.operations ==> OperationOk(g, op)
  }

  predicate OperationOk(g: Registry, op: OpId)
    requires op in g.operations
  {
    var o := g.operations[op];
    && (o.state.Running? <==> o.completedAt.None?)
    && (o.state.Running? ==> o.session in g.activeBySession && g.activeBySession[o.session] == op)
    && (o.state.Done? ==> op in Queue(g, o.session))
  }

  predicate Finished(ops: map<OpId, Op>, op: OpId) {
    op in ops && ops[op].state.Done? && ops[op].completedAt.Some?
  }

  /** Distinct finished operations, oldest completion first. */
  predicate Ordered(ops: map<OpId, Op>, queue: seq<OpId>) {
    && (forall i :: 0 <= i < |queue| ==> Finished(ops, queue[i]))
    && (forall i, j :: 0 <= i < j < |queue| ==>
                         && queue[i] != queue[j]
                         && ops[queue[i]].completedAt.value <= ops[queue[j]].completedAt.value)
  }

  predicate QueueOk(g: Registry, s: SessionId, now: nat)
    requires s in g.completedBySession
  {
    var queue := g.completedBySession[s];
    && 0 < |queue| <= COMPLETED_OPERATIONS_PER_SESSION
    && Ordered(g.operations, queue)
    && (forall i :: 0 <= i < |queue| ==> g.operations[queue[i]].session == s && g.operations[queue[i]].completedAt.value <= now)
  }

  predicate Consistent(g: Registry, now: nat) {
    && ActiveOk(g)
    && OperationsOk(g)
    && (forall s :: s in g.completedBySession ==> QueueOk(g, s, now))
  }

  /** A queue stays in order when none of its operations changed. */
  lemma QueueFrame(g: Registry, g1: Registry, s: SessionId, now: nat)
    requires s in g.completedBySession && QueueOk(g, s, now)
    requires s in g1.completedBySession && g1.completedBySession[s] == g.completedBySession[s]
    requires forall x :: x in g.completedBySession[s] ==> x in g1.operations && g1.operations[x] == g.operations[x]
    ensures QueueOk(g1, s, now)
  {
  }

  lemma RegisterKeeps(g: Registry, s: SessionId, op: OpId, now: nat, wall: nat)
    requires Consistent(g, now) && op !in g.operations
    ensures Consistent(Registered(g, s, op, now, wall), now)
  {
    var g1 := Registered(g, s, op, now, wall);
    forall o | o in g1.operations ensures OperationOk(g1, o) {
      assert o != op ==> OperationOk(g, o);
    }
    forall s1 | s1 in g1.completedBySession ensures QueueOk(g1, s1, now) {
      assert QueueOk(g, s1, now);
      QueueFrame(g, g1, s1, now);
    }
  }

  /** Replacing a running operation by a running one of the same session. */
  lemma UpdateKeeps(g: Registry, op: OpId, o: Op, now: nat)
    requires Consistent(g, now) && op in g.operations && g.operations[op].state.Running?
    requires o.state.Running? && o.completedAt.None? && o.session == g.operations[op].session
    ensures Consistent(g.(operations := g.operations[op := o]), now)
  {
  }

  // -------------------------------------------------------------- completion

  /** The registry with `op` finished and queued, before anything is evicted. */
  function Queued(g: Registry, op: OpId, done: OpState, now: nat): map<OpId, Op>
    requires op in g.operations
  {
    g.operations[op := g.operations[op].(state := done, completedAt := Some(now))]
  }

  lemma QueueGrows(g: Registry, op: OpId, done: OpState, now: nat)
    requires Consistent(g, now) && op in g.operations && g.operations[op].state.Running? && done.Done?
    ensures Ordered(Queued(g, op, done, now), Queue(g, g.operations[op].session) + [op])
    ensures |Queue(g, g.operations[op].session)| <= COMPLETED_OPERATIONS_PER_SESSION
  {
  }

  lemma OrderedTail(ops: map<OpId, Op>, queue: seq<OpId>, cut: nat)
    requires cut <= |queue| && Ordered(ops, queue)
    ensures Ordered(ops - Ids(queue[..cut]), queue[cut..])
    ensures forall i :: cut <= i < |queue| ==> queue[i] !in Ids(queue[..cut])
  {
  }

  /** Evicted ids belong to the completing session alone. */
  lemma OtherQueuesKept(g: Registry, op: OpId, done: OpState, now: nat, s: SessionId)
    requires Consistent(g, now) && op in g.operations && g.operations[op].state.Running? && done.Done?
    requires s in g.completedBySession && s != g.operations[op].session
    ensures QueueOk(Completed(g, op, done, now), s, now)
  {
  }

  lemma QueueSession(g: Registry, t: SessionId, x: OpId, op: OpId, now: nat)
    requires Consistent(g, now) && op in g.operations && g.operations[op].session == t
    requires x in Queue(g, t) + [op]
    ensures x in g.operations && g.operations[x].session == t
  {
  }

  lemma CompletedQueueOk(g: Registry, op: OpId, done: OpState, now: nat)
    requires Consistent(g, now) && op in g.operations && g.operations[op].state.Running? && done.Done?
    ensures var g1 := Completed(g, op, done, now);
            var s := g.operations[op].session;
            s in g1.completedBySession && QueueOk(g1, s, now)
  {
    var s := g.operations[op].session;
    var whole := Queue(g, s) + [op];
    var cut := Excess(|whole|);
    var g1 := Completed(g, op, done, now);
    QueueGrows(g, op, done, now);
    OrderedTail(Queued(g, op, done, now), whole, cut);
    forall i | 0 <= i < |whole| - cut
      ensures g1.operations[whole[cut..][i]].session == s && g1.operations[whole[cut..][i]].completedAt.value <= now
    {
      assert whole[cut..][i] == whole[cut + i] && whole[cut + i] in whole;
      QueueSession(g, s, whole[cut + i], op, now);
      if s in g.completedBySession { assert QueueOk(g, s, now); }
    }
  }

  lemma CompletedOperationOk(g: Registry, op: OpId, done: OpState, now: nat, x: OpId)
    requires Consistent(g, now) && op in g.operations && g.operations[op].state.Running? && done.Done?
    requires x in Completed(g, op, done, now).operations
    ensures OperationOk(Completed(g, op, done, now), x)
  {
    var s := g.operations[op].session;
    var whole := Queue(g, s) + [op];
    var cut := Excess(|whole|);
    var g1 := Completed(g, op, done, now);
    assert OperationOk(g, x) && OperationOk(g, op);
    assert whole == whole[..cut] + whole[cut..];
    if x != op && g.operations[x].state.Done? && g.operations[x].session == s {
      assert x in whole && x !in whole[..cut];
      assert x in whole[cut..];
    }
    if x == op {
      assert whole[|whole| - 1] == op && whole[cut..][|whole| - 1 - cut] == op;
    }
  }

  /** Completing a running operation keeps the tables consistent. */
  lemma CompleteKeeps(g: Registry, op: OpId, done: OpState, now: nat)
    requires Consistent(g, now) && done.Done?
    requires op in g.operations ==> g.operations[op].state.Running?
    ensures Consistent(Completed(g, op, done, now), now)
  {
    if op in g.operations {
      var g1 := Completed(g, op, done, now);
      var s := g.operations[op].session;
      assert OperationOk(g, op);
      CompletedQueueOk(g, op, done, now);
      forall x | x in g1.operations ensures OperationOk(g1, x) {
        CompletedOperationOk(g, op, done, now, x);
      }
      forall t | t in g1.completedBySession ensures QueueOk(g1, t, now) {
        if t != s { OtherQueuesKept(g, op, done, now, t); }
      }
      ActiveKept(g, op, done, now);
    }
  }

  lemma ActiveKept(g: Registry, op: OpId, done: OpState, now: nat)
    requires Consistent(g, now) && op in g.operations && g.operations[op].state.Running? && done.Done?
    ensures ActiveOk(Completed(g, op, done, now))
  {
  }

  /** A second completion of an operation still listed breaks the tables: one completion
      per operation is exactly what they need. */
  lemma CompleteKeepsIff(g: Registry, op: OpId, done: OpState, now: nat)
    requires Consistent(g, now) && done.Done?
    ensures Consistent(Completed(g, op, done, now), now) <==> (op in g.operations ==> g.operations[op].state.Running?)
  {
    if op in g.operations && g.operations[op].state.Done? {
      SecondCompletionBreaks(g, op, done, now);
    } else {
      CompleteKeeps(g, op, done, now);
    }
  }

  /** A queue that lists an id twice, or one that is gone, is not in order. */
  lemma TwiceQueued(ops: map<OpId, Op>, q: seq<OpId>, op: OpId, cut: nat)
    requires op in q && cut <= |q|
    ensures !Ordered(ops - Ids((q + [op])[..cut]), (q + [op])[cut..])
  {
    var whole := q + [op];
    var i :| 0 <= i < |q| && q[i] == op;
    assert whole[cut..][|q| - cut] == op;
    if i < cut {
      assert whole[..cut][i] == op && op in Ids(whole[..cut]);
    } else {
      assert whole[cut..][i - cut] == op;
    }
  }

  lemma QueuedTwice(g: Registry, op: OpId, done: OpState, now: nat)
    requires op in g.operations && op in Queue(g, g.operations[op].session)
    ensures var s := g.operations[op].session;
            var g1 := Completed(g, op, done, now);
            s in g1.completedBySession && !Ordered(g1.operations, g1.completedBySession[s])
  {
    var q := Queue(g, g.operations[op].session);
    TwiceQueued(Queued(g, op, done, now), q, op, Excess(|q + [op]|));
  }

  lemma SecondCompletionBreaks(g: Registry, op: OpId, done: OpState, now: nat)
    requires Consistent(g, now) && op in g.operations && g.operations[op].state.Done?
    ensures var s := g.operations[op].session;
            var g1 := Completed(g, op, done, now);
            s in g1.completedBySession && !QueueOk(g1, s, now)
  {
    assert OperationOk(g, op);
    QueuedTwice(g, op, done, now);
  }

  /** Completing evicts nothing, or exactly the session's oldest result, and only when the
      session already keeps 16; every other operation keeps its record. */
  lemma CompletionEvictsOldest(g: Registry, op: OpId, done: OpState, now: nat, x: OpId)
    requires Consistent(g, now) && done.Done? && op in g.operations && g.operations[op].state.Running?
    requires x in g.operations && x != op
    ensures var g1 := Completed(g, op, done, now);
            var q := Queue(g, g.operations[op].session);
            && (x !in g1.operations <==> |q| == COMPLETED_OPERATIONS_PER_SESSION && x == q[0])
            && (x in g1.operations ==> g1.operations[x] == g.operations[x])
            && op in g1.operations && g1.operations[op].state == done
  {
    var q := Queue(g, g.operations[op].session);
    var whole := q + [op];
    QueueGrows(g, op, done, now);
    assert forall i :: 0 <= i < |q| ==> whole[i] == q[i] && whole[i] != whole[|q|];
    if |q| == COMPLETED_OPERATIONS_PER_SESSION {
      assert whole[..1] == [q[0]];
    }
  }

  // ------------------------------------------------------------------ reaping

  lemma {:induction false} RetainedMembers(queue: seq<OpId>, gone: set<OpId>, x: OpId)
    ensures x in Retained(queue, gone) <==> x in queue && x !in gone
  {
    if queue != [] {
      RetainedMembers(queue[1..], gone, x);
      assert queue == [queue[0]] + queue[1..];
    }
  }

  lemma {:induction false} RetainedLength(queue: seq<OpId>, gone: set<OpId>)
    ensures |Retained(queue, gone)| <= |queue|
  {
    if queue != [] {
      RetainedLength(queue[1..], gone);
    }
  }

  lemma {:induction false} RetainedOrdered(ops: map<OpId, Op>, queue: seq<OpId>, gone: set<OpId>)
    requires Ordered(ops, queue)
    ensures Ordered(ops, Retained(queue, gone))
  {
    if queue != [] {
      RetainedOrdered(ops, queue[1..], gone);
      var rest := Retained(queue[1..], gone);
      forall i | 0 <= i < |rest|
        ensures queue[0] != rest[i] && ops[queue[0]].completedAt.value <= ops[rest[i]].completedAt.value
      {
        RetainedMembers(queue[1..], gone, rest[i]);
      }
    }
  }

  lemma OrderedWithout(ops: map<OpId, Op>, queue: seq<OpId>, gone: set<OpId>)
    requires Ordered(ops, queue) && forall i :: 0 <= i < |queue| ==> queue[i] !in gone
    ensures Ordered(ops - gone, queue)
  {
  }

  lemma ReapedQueueOk(g: Registry, now: nat, retention: nat, s: SessionId)
    requires Consistent(g, now) && s in Reaped(g, now, retention).completedBySession
    ensures QueueOk(Reaped(g, now, retention), s, now)
  {
    var gone := ExpiredIds(g, now, retention);
    assert QueueOk(g, s, now);
    if gone != {} {
      var queue := g.completedBySession[s];
      var rest := Retained(queue, gone);
      RetainedOrdered(g.operations, queue, gone);
      RetainedLength(queue, gone);
      forall i | 0 <= i < |rest| ensures rest[i] in queue && rest[i] !in gone {
        RetainedMembers(queue, gone, rest[i]);
      }
      OrderedWithout(g.operations, rest, gone);
    }
  }

  lemma ReapedOperationOk(g: Registry, now: nat, retention: nat, op: OpId)
    requires op in g.operations && OperationOk(g, op) && op in Reaped(g, now, retention).operations
    ensures OperationOk(Reaped(g, now, retention), op)
  {
    var o, gone := g.operations[op], ExpiredIds(g, now, retention);
    if o.state.Done? && gone != {} {
      var rest := Retained(g.completedBySession[o.session], gone);
      RetainedMembers(g.completedBySession[o.session], gone, op);
      assert op in rest;
      assert Queue(Reaped(g, now, retention), o.session) == rest;
    }
  }

  lemma ReapKeeps(g: Registry, now: nat, retention: nat)
    requires Consistent(g, now)
    ensures Consistent(Reaped(g, now, retention), now)
  {
    var g1 := Reaped(g, now, retention);
    forall s | s in g1.completedBySession ensures QueueOk(g1, s, now) {
      ReapedQueueOk(g, now, retention, s);
    }
    forall op | op in g1.operations ensures OperationOk(g1, op) {
      assert OperationOk(g, op);
      ReapedOperationOk(g, now, retention, op);
    }
    forall s | s in g1.activeBySession ensures g1.activeBySession[s] in g1.operations {
      assert OperationOk(g, g.activeBySession[s]);
    }
  }

  /** Reaping takes exactly the results that were kept for the whole retention. */
  lemma ReapTakesExactlyExpired(g: Registry, now: nat, retention: nat, op: OpId)
    requires Consistent(g, now) && op in g.operations
    ensures var g1 := Reaped(g, now, retention);
            && (op in g1.operations <==> g.operations[op].state.Running? || now - g.operations[op].completedAt.value < retention)
            && (op in g1.operations ==> g1.operations[op] == g.operations[op])
            && (op !in g1.operations ==> forall s :: s in g1.completedBySession ==> op !in g1.completedBySession[s])
  {
    assert OperationOk(g, op);
    var gone := ExpiredIds(g, now, retention);
    if g.operations[op].state.Done? {
      assert QueueOk(g, g.operations[op].session, now);
    }
    if op in gone {
      forall s | s in g.completedBySession ensures op !in Retained(g.completedBySession[s], gone) {
        RetainedMembers(g.completedBySession[s], gone, op);
      }
    }
  }

  // --------------------------------------------------------------------- runs

  /**
   The registry with its clock, the operations whose worker has not reported yet, every
   id ever given out, and, per operation, when it was registered and when a poll was
   answered while it was running.
   */
  datatype Sys = Sys(g: Registry, now: nat, workers: set<OpId>, used: set<OpId>, since: map<OpId, nat>, answers: map<OpId, seq<nat>>)

  const Init := Sys(EmptyRegistry, 0, {}, {}, map[], map[])

  datatype Action =
    | Tick(d: nat)
    | Register(s: SessionId, op: OpId, wall: nat)
    | Poll(op: OpId)
    | Progress(op: OpId, phase: Phase, turn: Option<nat>, lastText: Option<Text>, wall: nat)
    | Complete(op: OpId, reply: Text, outcome: Text, error: Option<Text>)
    | Reap

  function Step(y: Sys, a: Action): Sys {
    match a
    case Tick(d) => y.(now := y.now + d)
    case Register(s, op, wall) =>
      if op in y.used || s in y.g.activeBySession then y
      else y.(g := Registered(y.g, s, op, y.now, wall), workers := y.workers + {op}, used := y.used + {op},
              since := y.since[op := y.now], answers := y.answers[op := []])
    case Poll(op) =>
      var y1 := y.(g := Polled(y.g, op, y.now));
      if AnsweredRunning(y, op) then y1.(answers := y.answers[op := Answers(y, op) + [y.now]]) else y1
    case Progress(op, phase, turn, lastText, wall) => y.(g := Progressed(y.g, op, Running(phase, turn, lastText, wall)))
    case Complete(op, reply, outcome, error) =>
      if op !in y.workers then y
      else y.(g := Completed(y.g, op, Done(reply, outcome, error), y.now), workers := y.workers - {op})
    case Reap => y.(g := Reaped(y.g, y.now, COMPLETED_OPERATION_RETENTION_MS))
  }

  predicate AnsweredRunning(y: Sys, op: OpId) {
    PollAnswer(y.g, op, y.now).Ready? && PollAnswer(y.g, op, y.now).state.Running?
  }

  function Answers(y: Sys, op: OpId): seq<nat> {
    if op in y.answers then y.answers[op] else []
  }

  function Run(y: Sys, actions: seq<Action>): Sys
    decreases |actions|
  {
    if actions == [] then y else Run(Step(y, actions[0]), actions[1..])
  }

  // ------------------------------------------------------------ run invariant

  /** An operation runs exactly as long as its worker has not reported. */
  predicate WorkersOk(y: Sys) {
    && (forall op :: op in y.workers ==> op in y.g.operations && y.g.operations[op].state.Running?)
    && (forall op :: op in y.g.operations && y.g.operations[op].state.Running? ==> op in y.workers)
    && (forall op :: op in y.g.operations ==> op in y.used)
  }

  /** The last time a poll was answered, or the registration. */
  function LastAnswer(since: nat, answers: seq<nat>): nat {
    if answers == [] then since else answers[|answers| - 1]
  }

  /** Answers are at least the poll interval apart, the first counted from `since`. */
  predicate Paced(since: nat, answers: seq<nat>) {
    forall i :: 0 <= i < |answers| ==> answers[i] >= LastAnswer(since, answers[..i]) + AGENT_POLL_AFTER_MS
  }

  predicate PacingOk(y: Sys, op: OpId)
    requires op in y.since
  {
    var last := LastAnswer(y.since[op], Answers(y, op));
    && y.since[op] <= y.now && last <= y.now
    && Paced(y.since[op], Answers(y, op))
    && (op in y.g.operations ==> y.g.operations[op].nextPollAt >= last + AGENT_POLL_AFTER_MS)
  }

  predicate PollsOk(y: Sys) {
    && y.used == y.since.Keys
    && (forall op :: op in y.since ==> PacingOk(y, op))
  }

  predicate Ok(y: Sys) {
    Consistent(y.g, y.now) && WorkersOk(y) && PollsOk(y)
  }

  lemma TimePasses(g: Registry, now: nat, later: nat)
    requires Consistent(g, now) && now <= later
    ensures Consistent(g, later)
  {
  }

  lemma PollKeeps(g: Registry, op: OpId, now: nat)
    requires Consistent(g, now)
    ensures Consistent(Polled(g, op, now), now)
  {
  }

  lemma ProgressKeeps(g: Registry, op: OpId, state: OpState, now: nat)
    requires Consistent(g, now) && state.Running?
    ensures Consistent(Progressed(g, op, state), now)
  {
    if op in g.operations && g.operations[op].state.Running? {
      assert OperationOk(g, op);
      UpdateKeeps(g, op, g.operations[op].(state := state), now);
    }
  }

  lemma ConsistentStep(y: Sys, a: Action)
    requires Consistent(y.g, y.now) && WorkersOk(y)
    ensures Consistent(Step(y, a).g, Step(y, a).now)
  {
    match a {
      case Tick(d) => TimePasses(y.g, y.now, y.now + d);
      case Register(s, op, wall) =>
        if op !in y.used { RegisterKeeps(y.g, s, op, y.now, wall); }
      case Poll(op) => PollKeeps(y.g, op, y.now);
      case Progress(op, phase, turn, lastText, wall) => ProgressKeeps(y.g, op, Running(phase, turn, lastText, wall), y.now);
      case Complete(op, reply, outcome, error) =>
        if op in y.workers { CompleteKeeps(y.g, op, Done(reply, outcome, error), y.now); }
      case Reap => ReapKeeps(y.g, y.now, COMPLETED_OPERATION_RETENTION_MS);
    }
  }

  lemma CompleteWorkers(y: Sys, op: OpId, done: OpState)
    requires Consistent(y.g, y.now) && WorkersOk(y) && op in y.workers && done.Done?
    ensures WorkersOk(y.(g := Completed(y.g, op, done, y.now), workers := y.workers - {op}))
  {
  }

  lemma ReapWorkers(y: Sys)
    requires Consistent(y.g, y.now) && WorkersOk(y)
    ensures WorkersOk(Step(y, Reap))
  {
    forall x | x in y.workers ensures x in Step(y, Reap).g.operations {
      ReapTakesExactlyExpired(y.g, y.now, COMPLETED_OPERATION_RETENTION_MS, x);
    }
  }

  lemma OtherWorkers(y: Sys, a: Action)
    requires WorkersOk(y) && !a.Complete? && !a.Reap?
    ensures WorkersOk(Step(y, a))
  {
  }

  lemma WorkersStep(y: Sys, a: Action)
    requires Consistent(y.g, y.now) && WorkersOk(y)
    ensures WorkersOk(Step(y, a))
  {
    if a.Complete? {
      if a.op in y.workers { CompleteWorkers(y, a.op, Done(a.reply, a.outcome, a.error)); }
    } else if a.Reap? {
      ReapWorkers(y);
    } else {
      OtherWorkers(y, a);
    }
  }

  /** Completing and reaping leave the poll time of what stays. */
  lemma PollTimesKept(g: Registry, op: OpId, done: OpState, now: nat, retention: nat, x: OpId)
    ensures x in Completed(g, op, done, now).operations ==>
              x in g.operations && Completed(g, op, done, now).operations[x].nextPollAt == g.operations[x].nextPollAt
    ensures x in Reaped(g, now, retention).operations ==>
              x in g.operations && Reaped(g, now, retention).operations[x].nextPollAt == g.operations[x].nextPollAt
  {
  }

  lemma PacedAppend(since: nat, answers: seq<nat>, now: nat)
    requires Paced(since, answers) && now >= LastAnswer(since, answers) + AGENT_POLL_AFTER_MS
    ensures Paced(since, answers + [now])
  {
  }

  lemma PollPaced(y: Sys, op: OpId)
    requires op in y.since && PacingOk(y, op)
    ensures PacingOk(Step(y, Poll(op)), op)
  {
    if AnsweredRunning(y, op) {
      PacedAppend(y.since[op], Answers(y, op), y.now);
    }
  }

  lemma PollsStep(y: Sys, a: Action, x: OpId)
    requires PollsOk(y) && x in Step(y, a).since
    ensures PacingOk(Step(y, a), x)
  {
    match a {
      case Tick(d) => assert PacingOk(y, x);
      case Register(s, op, wall) =>
        if x != op || op in y.used || s in y.g.activeBySession { assert PacingOk(y, x); }
      case Poll(op) =>
        assert PacingOk(y, x);
        if x == op { PollPaced(y, x); }
      case Progress(op, _, _, _, _) => assert PacingOk(y, x);
      case Complete(op, reply, outcome, error) =>
        assert PacingOk(y, x);
        PollTimesKept(y.g, op, Done(reply, outcome, error), y.now, 0, x);
      case Reap =>
        assert PacingOk(y, x);
        PollTimesKept(y.g, 0, Done("", "", None), y.now, COMPLETED_OPERATION_RETENTION_MS, x);
    }
  }

  lemma StepKeeps(y: Sys, a: Action)
    requires Ok(y)
    ensures Ok(Step(y, a))
  {
    ConsistentStep(y, a);
    WorkersStep(y, a);
    forall x | x in Step(y, a).since ensures PacingOk(Step(y, a), x) {
      PollsStep(y, a, x);
    }
  }

  lemma {:induction false} RunKeeps(y: Sys, actions: seq<Action>)
    requires Ok(y)
    ensures Ok(Run(y, actions))
    decreases |actions|
  {
    if actions != [] {
      StepKeeps(y, actions[0]);
      RunKeeps(Step(y, actions[0]), actions[1..]);
    }
  }

  // ----------------------------------------------------------------- theorems

  /** Along every run the three tables agree: a running operation is its session's active
      one and nothing else is active, a finished one is listed once in its session's
      queue, in completion order, and no queue is empty or longer than 16. */
  lemma TablesAgree(actions: seq<Action>, op: OpId)
    ensures Consistent(Run(Init, actions).g, Run(Init, actions).now)
    ensures var g := Run(Init, actions).g;
            op in g.operations ==>
              var o := g.operations[op];
              && (o.state.Running? <==> o.session in g.activeBySession && g.activeBySession[o.session] == op)
              && (o.state.Done? <==> op in Queue(g, o.session))
              && |Queue(g, o.session)| <= COMPLETED_OPERATIONS_PER_SESSION
              && (o.state.Running? <==> op in Run(Init, actions).workers)
  {
    RunKeeps(Init, actions);
    var y := Run(Init, actions);
    if op in y.g.operations {
      assert OperationOk(y.g, op);
      var s := y.g.operations[op].session;
      if s in y.g.completedBySession { assert QueueOk(y.g, s, y.now); }
    }
  }

  /** A result is final: from the completion on, the operation is either gone or done with
      the same reply, whatever happens. */
  lemma {:induction false} DoneIsFinal(y: Sys, actions: seq<Action>, op: OpId, done: OpState)
    requires Ok(y) && done.Done? && op in y.used
    requires op in y.g.operations ==> y.g.operations[op].state == done
    ensures var g := Run(y, actions).g;
            op in g.operations ==> g.operations[op].state == done
    decreases |actions|
  {
    if actions != [] {
      StepKeeps(y, actions[0]);
      DoneStep(y, actions[0], op, done);
      DoneIsFinal(Step(y, actions[0]), actions[1..], op, done);
    }
  }

  lemma DoneStep(y: Sys, a: Action, op: OpId, done: OpState)
    requires WorkersOk(y) && done.Done? && op in y.used
    requires op in y.g.operations ==> y.g.operations[op].state == done
    ensures op in Step(y, a).used
    ensures op in Step(y, a).g.operations ==> Step(y, a).g.operations[op].state == done
  {
  }

  lemma {:induction false} PacedCount(since: nat, answers: seq<nat>)
    requires Paced(since, answers)
    ensures LastAnswer(since, answers) >= since + |answers| * AGENT_POLL_AFTER_MS
    decreases |answers|
  {
    if answers != [] {
      var rest := answers[..|answers| - 1];
      assert forall i :: 0 <= i < |rest| ==> rest[..i] == answers[..i];
      PacedCount(since, rest);
    }
  }

  /** Polls that report a running operation are at least 30 seconds apart, the first 30
      seconds after registration, so their number is bounded by the elapsed time. */
  lemma PollsArePaced(actions: seq<Action>, op: OpId)
    ensures var y := Run(Init, actions);
            op in y.since ==>
              && y.since[op] <= y.now
              && Paced(y.since[op], Answers(y, op))
              && |Answers(y, op)| * AGENT_POLL_AFTER_MS <= y.now - y.since[op]
  {
    RunKeeps(Init, actions);
    var y := Run(Init, actions);
    if op in y.since {
      assert PacingOk(y, op);
      PacedCount(y.since[op], Answers(y, op));
    }
  }

  /** A poll that was told to wait is answered at its delay, and not before. */
  lemma WaitIsExact(y: Sys, op: OpId, d: nat)
    requires PollAnswer(y.g, op, y.now).Wait?
    ensures var later := Step(y, Tick(d));
            PollAnswer(later.g, op, later.now).Ready? <==> d >= PollAnswer(y.g, op, y.now).delay
  {
  }
}
