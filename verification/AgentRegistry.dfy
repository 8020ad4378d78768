/**
 The registry of background agent operations behind the MCP endpoint: at most one
 active operation per session, bounded retention of completed ones, and the pacing of
 `agent_status` polls.
 */
module AgentRegistry {
  import opened Options

  type OpId = nat
  type SessionId = nat
  type Text = string

  const AGENT_POLL_AFTER_MS: nat := 30000
  const COMPLETED_OPERATIONS_PER_SESSION: nat := 16
  const COMPLETED_OPERATION_RETENTION_MS: nat := 600000

  datatype Phase = Queued | Working

  /** `updatedAt` is in wall-clock milliseconds; every other time is the monotonic clock's. */
  datatype OpState =
    | Running(phase: Phase, turn: Option<nat>, lastText: Option<Text>, updatedAt: nat)
    | Done(reply: Text, outcome: Text, error: Option<Text>)

  datatype Op = Op(session: SessionId, state: OpState, nextPollAt: nat, completedAt: Option<nat>)

  datatype Registry = Registry(
    operations: map<OpId, Op>,
    activeBySession: map<SessionId, OpId>,
    completedBySession: map<SessionId, seq<OpId>>)

  const EmptyRegistry := Registry(map[], map[], map[])

  datatype PollReply = Unknown | Ready(state: OpState) | Wait(delay: nat)

  // ---------------------------------------------------------- specification

  function Registered(g: Registry, s: SessionId, op: OpId, now: nat, wall: nat): Registry {
    if s in g.activeBySession then g
    else Registry(
           g.operations[op := Op(s, Running(Queued, None, None, wall), now + AGENT_POLL_AFTER_MS, None)],
           g.activeBySession[s := op],
           g.completedBySession)
  }

  function PollAnswer(g: Registry, op: OpId, now: nat): PollReply {
    if op !in g.operations then Unknown
    else if g.operations[op].state.Done? || now >= g.operations[op].nextPollAt then Ready(g.operations[op].state)
    else Wait(g.operations[op].nextPollAt - now)
  }

  function Polled(g: Registry, op: OpId, now: nat): Registry {
    if op in g.operations && g.operations[op].state.Running? && now >= g.operations[op].nextPollAt then
      g.(operations := g.operations[op := g.operations[op].(nextPollAt := now + AGENT_POLL_AFTER_MS)])
    else g
  }

  /** Progress is recorded only on an operation that still runs. */
  function Progressed(g: Registry, op: OpId, state: OpState): Registry {
    if op in g.operations && g.operations[op].state.Running? then
      g.(operations := g.operations[op := g.operations[op].(state := state)])
    else g
  }

  function Queue(g: Registry, s: SessionId): seq<OpId> {
    if s in g.completedBySession then g.completedBySession[s] else []
  }

  /** How many of `n` completed operations are one too many. */
  function Excess(n: nat): nat {
    if n > COMPLETED_OPERATIONS_PER_SESSION then n - COMPLETED_OPERATIONS_PER_SESSION else 0
  }

  function Ids(s: seq<OpId>): set<OpId> {
    set op | op in s
  }

  function Completed(g: Registry, op: OpId, done: OpState, now: nat): Registry {
    if op !in g.operations then g
    else
      var s := g.operations[op].session;
      var queue := Queue(g, s) + [op];
      var cut := Excess(|queue|);
      Registry(
        g.operations[op := g.operations[op].(state := done, completedAt := Some(now))] - Ids(queue[..cut]),
        if s in g.activeBySession && g.activeBySession[s] == op then g.activeBySession - {s} else g.activeBySession,
        g.completedBySession[s := queue[cut..]])
  }

  predicate Expired(o: Op, now: nat, retention: nat) {
    o.completedAt.Some? && now >= o.completedAt.value && now - o.completedAt.value >= retention
  }

  function ExpiredIds(g: Registry, now: nat, retention: nat): set<OpId> {
    set op | op in g.operations && Expired(g.operations[op], now, retention)
  }

  function Retained(queue: seq<OpId>, gone: set<OpId>): seq<OpId> {
    if queue == [] then []
    else (if queue[0] in gone then [] else [queue[0]]) + Retained(queue[1..], gone)
  }

  function Reaped(g: Registry, now: nat, retention: nat): Registry {
    var gone := ExpiredIds(g, now, retention);
    if gone == {} then g
    else Registry(
           g.operations - gone,
           g.activeBySession,
           map s | s in g.completedBySession && Retained(g.completedBySession[s], gone) != []
             :: Retained(g.completedBySession[s], gone))
  }

  /** Pops the oldest ids until no more than the retained number are left. */
  method PopExcess(queue: seq<OpId>) returns (expired: seq<OpId>, kept: seq<OpId>)
    ensures expired == queue[..Excess(|queue|)] && kept == queue[Excess(|queue|)..]
  {
    expired, kept := [], queue;
    while |kept| > COMPLETED_OPERATIONS_PER_SESSION
      invariant expired + kept == queue
      invariant |expired| <= Excess(|queue|)
      decreases |kept|
    {
      expired, kept := expired + [kept[0]], kept[1..];
    }
  }

  // ----------------------------------------------------------- the registry object

  class AgentOperationRegistry {
    var operations: map<OpId, Op>
    var activeBySession: map<SessionId, OpId>
    var completedBySession: map<SessionId, seq<OpId>>

    constructor ()
      ensures View() == EmptyRegistry
    {
      operations, activeBySession, completedBySession := map[], map[], map[];
    }

    function View(): Registry
      reads this
    {
      Registry(operations, activeBySession, completedBySession)
    }

    /** Registers the operation, or names the one that keeps the session busy. */
    method Register(s: SessionId, op: OpId, now: nat, wall: nat) returns (busy: Option<OpId>)
      modifies this
      ensures View() == Registered(old(View()), s, op, now, wall)
      ensures busy == if s in old(activeBySession) then Some(old(activeBySession)[s]) else None
    {
      if s in activeBySession {
        return Some(activeBySession[s]);
      }
      operations := operations[op := Op(s, Running(Queued, None, None, wall), now + AGENT_POLL_AFTER_MS, None)];
      activeBySession := activeBySession[s := op];
      return None;
    }

    method Poll(op: OpId, now: nat) returns (reply: PollReply)
      modifies this`operations
      ensures View() == Polled(old(View()), op, now)
      ensures reply == PollAnswer(old(View()), op, now)
    {
      if op !in operations {
        return Unknown;
      }
      var record := operations[op];
      if record.state.Done? {
        return Ready(record.state);
      }
      if now >= record.nextPollAt {
        operations := operations[op := record.(nextPollAt := now + AGENT_POLL_AFTER_MS)];
        return Ready(record.state);
      }
      return Wait(record.nextPollAt - now);
    }

    method MarkRunning(op: OpId, turn: nat, wall: nat)
      modifies this`operations
      ensures View() == if op in old(operations) && old(operations)[op].state.Running? then
                          Progressed(old(View()), op, Running(Working, Some(turn), old(operations)[op].state.lastText, wall))
                        else old(View())
    {
      if op in operations && operations[op].state.Running? {
        var record := operations[op];
        operations := operations[op := record.(state := Running(Working, Some(turn), record.state.lastText, wall))];
      }
    }

    method UpdateLastText(op: OpId, text: Text, wall: nat)
      modifies this`operations
      ensures View() == if op in old(operations) && old(operations)[op].state.Running? then
                          Progressed(old(View()), op, old(operations)[op].state.(lastText := Some(text), updatedAt := wall))
                        else old(View())
    {
      if op in operations && operations[op].state.Running? {
        var record := operations[op];
        operations := operations[op := record.(state := record.state.(lastText := Some(text), updatedAt := wall))];
      }
    }

    method Complete(op: OpId, done: OpState, now: nat)
      requires done.Done?
      modifies this
      ensures View() == Completed(old(View()), op, done, now)
    {
      if op !in operations {
        return;
      }
      var s := operations[op].session;
      operations := operations[op := operations[op].(state := done, completedAt := Some(now))];
      if s in activeBySession && activeBySession[s] == op {
        activeBySession := activeBySession - {s};
      }
      var queue := if s in completedBySession then completedBySession[s] else [];
      queue := queue + [op];
      var expired, kept := PopExcess(queue);
      completedBySession := completedBySession[s := kept];
      Remove(expired);
    }

    method Remove(expired: seq<OpId>)
      modifies this`operations
      ensures operations == old(operations) - Ids(expired)
    {
      for i := 0 to |expired|
        invariant operations == old(operations) - Ids(expired[..i])
      {
        operations := operations - {expired[i]};
        assert Ids(expired[..i + 1]) == Ids(expired[..i]) + {expired[i]};
      }
      assert expired[..|expired|] == expired;
    }

    method ReapExpiredCompleted(now: nat, retention: nat) returns (count: nat)
      modifies this
      ensures View() == Reaped(old(View()), now, retention)
      ensures count == |ExpiredIds(old(View()), now, retention)|
    {
      var gone := set op | op in operations && Expired(operations[op], now, retention);
      if gone == {} {
        return 0;
      }
      var rest := gone;
      while rest != {}
        invariant rest <= gone
        invariant activeBySession == old(activeBySession) && completedBySession == old(completedBySession)
        invariant operations == old(operations) - (gone - rest)
        decreases |rest|
      {
        var op :| op in rest;
        operations := operations - {op};
        assert gone - (rest - {op}) == (gone - rest) + {op};
        rest := rest - {op};
      }
      completedBySession := map s | s in completedBySession && Retained(completedBySession[s], gone) != []
          :: Retained(completedBySession[s], gone);
      return |gone|;
    }
  }
}
