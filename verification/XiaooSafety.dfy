/**
 What lock and queue ordering guarantee for one xiaoO instance, over every run.
 */
module XiaooSafety {
  import opened Options
  import opened XiaooTurn

  // ----------------------------------------------------------- pipe contents

  predicate NoSubmit(q: seq<Request>) {
    forall i :: 0 <= i < |q| ==> !q[i].Submit?
  }

  /** Only cancels of `t` and answers. */
  predicate TailOnly(q: seq<Request>, t: Turn) {
    forall i :: 0 <= i < |q| ==> q[i].Answer? || q[i] == Cancel(t)
  }

  predicate SubmitAt(q: seq<Request>, t: Turn, k: int) {
    0 <= k < |q| && q[k] == Submit(t) && NoSubmit(q[..k]) && TailOnly(q[k + 1..], t)
  }

  function Apply(st: Snapshot, r: Request): Snapshot {
    if r.LoadState? then r.st else st
  }

  /** The state an idle worker reaches by draining a queue that holds no turn. */
  function Drain(st: Snapshot, q: seq<Request>): Snapshot
    decreases |q|
  {
    if q == [] then st else Drain(Apply(st, q[0]), q[1..])
  }

  lemma {:induction false} DrainAppend(st: Snapshot, q: seq<Request>, r: Request)
    ensures Drain(st, q + [r]) == Apply(Drain(st, q), r)
    decreases |q|
  {
    if q == [] {
      assert Drain(st, [r]) == Drain(Apply(st, r), [r][1..]);
    } else {
      assert (q + [r])[1..] == q[1..] + [r];
      DrainAppend(Apply(st, q[0]), q[1..], r);
    }
  }

  lemma {:induction false} DrainTail(st: Snapshot, q: seq<Request>, t: Turn)
    requires TailOnly(q, t)
    ensures Drain(st, q) == st
    decreases |q|
  {
    if q != [] {
      assert q[0].Answer? || q[0] == Cancel(t);
      DrainTail(st, q[1..], t);
    }
  }

  /** The event a response line turns into, if any. */
  function EvOf(r: Response): seq<Ev> {
    match r
    case Event(e) => [e]
    case StateMsg(_) => []
    case ErrorMsg => [Terminal(0)]
  }

  function Evs(q: seq<Response>): seq<Ev>
    decreases |q|
  {
    if q == [] then [] else EvOf(q[0]) + Evs(q[1..])
  }

  lemma {:induction false} EvsAppend(q: seq<Response>, r: Response)
    ensures Evs(q + [r]) == Evs(q) + EvOf(r)
    decreases |q|
  {
    if q == [] {
      assert (q + [r])[1..] == [];
    } else {
      assert (q + [r])[1..] == q[1..] + [r];
      EvsAppend(q[1..], r);
    }
  }

  predicate Deltas(es: seq<Ev>) {
    forall i :: 0 <= i < |es| ==> es[i].Delta?
  }

  predicate DeltaLines(q: seq<Response>) {
    forall i :: 0 <= i < |q| ==> q[i].Event? && q[i].e.Delta?
  }

  /** Exactly one terminal event, and nothing after it. */
  predicate OneTerminalLast(es: seq<Ev>) {
    |es| > 0 && es[|es| - 1].Terminal? && Deltas(es[..|es| - 1])
  }

  // ---------------------------------------------------------- phases of a turn

  /** The lines still to read end the turn. */
  predicate EndsTurn(q: seq<Response>, st: Snapshot, persisted: Snapshot) {
    || (q == [ErrorMsg] && persisted == st)
    || (|q| == 1 && q[0].Event? && q[0].e.Terminal? && persisted == st)
    || (|q| >= 2 && DeltaLines(q[..|q| - 2]) && q[|q| - 2] == StateMsg(st) && q[|q| - 1].Event? && q[|q| - 1].e.Terminal?)
  }

  /** The lines still to read, with the State line last unless it was read. */
  predicate HasState(q: seq<Response>, st: Snapshot, persisted: Snapshot) {
    || (q == [] && persisted == st)
    || (|q| >= 1 && DeltaLines(q[..|q| - 1]) && q[|q| - 1] == StateMsg(st))
  }

  predicate Partial(q: seq<Response>) {
    || DeltaLines(q)
    || (|q| >= 1 && DeltaLines(q[..|q| - 1]))
    || (|q| >= 2 && DeltaLines(q[..|q| - 2]) && q[|q| - 2].StateMsg?)
  }

  /** No turn on the pipes. */
  predicate Quiet(s: State) {
    && s.reader.None? && s.forwarder.None? && s.inner == [] && s.responses == []
    && NoSubmit(s.requests)
    && (s.worker.Waiting? || s.worker.Dead?)
    && (s.worker.Waiting? ==>
          Drain(s.wst, s.requests) == if s.slot.Loading? && s.slot.written then s.slot.st else s.persisted)
  }

  /** SubmitTurn(t) is on the pipe. */
  predicate Queued(s: State, t: Turn)
    requires t in s.owed
  {
    && s.worker.Waiting? && s.reader == Some(t) && s.inner == [] && s.responses == [] && s.owed[t] == []
    && exists k :: 0 <= k < |s.requests| && SubmitAt(s.requests, t, k) && Drain(s.wst, s.requests[..k]) == s.persisted
  }

  predicate Busy(s: State, t: Turn)
    requires t in s.owed
  {
    && s.reader == Some(t) && TailOnly(s.requests, t) && Deltas(s.owed[t])
    && (|| (s.worker == Running(t) && DeltaLines(s.responses))
        || (s.worker == Closing(t) && HasState(s.responses, s.wst, s.persisted)))
  }

  predicate Ended(s: State, t: Turn)
    requires t in s.owed
  {
    && s.worker.Waiting? && TailOnly(s.requests, t) && OneTerminalLast(s.owed[t])
    && (if s.reader.Some? then s.reader == Some(t) && EndsTurn(s.responses, s.wst, s.persisted)
        else s.responses == [] && s.persisted == s.wst)
  }

  predicate Lost(s: State, t: Turn)
    requires t in s.owed
  {
    && s.worker.Dead? && s.requests == []
    && (if s.reader.Some? then s.reader == Some(t) && Partial(s.responses)
                               && (Deltas(s.owed[t]) || OneTerminalLast(s.owed[t]))
        else s.responses == [] && OneTerminalLast(s.owed[t]))
  }

  /** Nothing is lost or reordered between the worker and the subscriber. */
  predicate Conserved(s: State, t: Turn) {
    && t in s.owed && t in s.out && Deltas(s.out[t]) && (s.reader.Some? ==> Deltas(s.inner))
    && (if s.forwarder.Some? then s.forwarder == Some(t) && s.out[t] + s.inner + Evs(s.responses) == s.owed[t]
        else (s.completion.Finishing? || s.completion.Clearing?) && s.completion.t == t
             && s.inner == [] && s.responses == [] && s.reader.None? && s.out[t] + [s.completion.e] == s.owed[t])
  }

  predicate TurnOk(s: State) {
    if s.active.None? then Quiet(s) && s.unsent.None?
    else if s.unsent.Some? then Quiet(s) && s.unsent == s.active
    else
      var t := s.active.value;
      Conserved(s, t) && (Queued(s, t) || Busy(s, t) || Ended(s, t) || Lost(s, t))
  }

  /** A turn that is no longer active was sent everything it is owed, or its
      terminal is being sent now. */
  predicate Settled(s: State, t: Turn)
    requires t in s.owed && t in s.out
  {
    && OneTerminalLast(s.owed[t])
    && s.owed[t] == if s.completion.Delivering? && s.completion.t == t then s.out[t] + [s.completion.e] else s.out[t]
  }

  predicate LocksOk(s: State) {
    && (!s.slot.SlotFree? ==> s.active.None?)
    && (s.completion.Cancelling? ==> s.active == Some(s.completion.t))
    && (s.completion.Finishing? || s.completion.Clearing? ==>
          s.active == Some(s.completion.t) && s.unsent.None? && s.forwarder.None?)
    && (s.completion.Delivering? ==> s.completion.t in s.owed && s.active != Some(s.completion.t))
    && s.out.Keys == s.owed.Keys && s.owed.Keys <= s.seen
    && (s.slot.Submitting? ==> s.slot.t in s.seen && s.slot.t !in s.owed)
    && (s.unsent.Some? ==> s.unsent.value in s.seen && s.unsent.value !in s.owed)
    && (s.active.Some? ==> s.active.value in s.seen)
  }

  predicate OthersSettled(s: State) {
    forall t :: t in s.owed && t in s.out && s.active != Some(t) ==> Settled(s, t)
  }

  predicate AbortsOk(s: State) {
    forall i :: 0 <= i < |s.aborts| ==> s.aborts[i].wanted == s.aborts[i].running
  }

  predicate Ok(s: State) {
    LocksOk(s) && TurnOk(s) && OthersSettled(s) && AbortsOk(s)
  }

  // --------------------------------------------------------- each step keeps

  /** A step that touches neither locks nor accounts. */
  lemma LocksFrame(s: State, s': State)
    requires LocksOk(s)
    requires s'.slot == s.slot && s'.active == s.active && s'.completion == s.completion && s'.unsent == s.unsent
    requires s'.forwarder == s.forwarder && s'.seen == s.seen
    requires s'.out.Keys == s.out.Keys && s'.owed.Keys == s.owed.Keys
    ensures LocksOk(s')
  {
  }

  lemma SubmitKeeps(s: State, a: Action)
    requires Ok(s)
    ensures Ok(StepSubmit(s, a))
  {
    var s' := StepSubmit(s, a);
    if a.WriteSubmit? && s.unsent.Some? && !s.worker.Dead? {
      var t := s.unsent.value;
      var k := |s.requests|;
      assert s'.requests[..k] == s.requests && s'.requests[k + 1..] == [];
      assert SubmitAt(s'.requests, t, k);
      assert s'.out[t] + s'.inner + Evs(s'.responses) == s'.owed[t];
    }
    forall t | t in s'.owed && t in s'.out && s'.active != Some(t)
      ensures Settled(s', t)
    {
      assert Settled(s, t);
    }
  }

  lemma SubmitAtAppend(q: seq<Request>, t: Turn, k: int, r: Request)
    requires SubmitAt(q, t, k) && (r.Answer? || r == Cancel(t))
    ensures SubmitAt(q + [r], t, k) && (q + [r])[..k] == q[..k]
  {
  }

  lemma QueuedAppend(s: State, r: Request, t: Turn)
    requires t in s.owed && Queued(s, t) && (r.Answer? || r == Cancel(t))
    ensures Queued(s.(requests := s.requests + [r]), t)
  {
    var k :| 0 <= k < |s.requests| && SubmitAt(s.requests, t, k) && Drain(s.wst, s.requests[..k]) == s.persisted;
    SubmitAtAppend(s.requests, t, k, r);
  }

  /** Appending to the request pipe a line that starts no turn. */
  lemma AppendKeepsTurn(s: State, r: Request)
    requires TurnOk(s) && !s.worker.Dead? && !s.slot.Loading?
    requires r.Answer? || (r.Cancel? && s.active == Some(r.t))
    ensures TurnOk(s.(requests := s.requests + [r]))
  {
    DrainAppend(s.wst, s.requests, r);
    if s.active.Some? && s.unsent.None? {
      var t := s.active.value;
      if Queued(s, t) {
        QueuedAppend(s, r, t);
      }
    }
  }

  /** The canceller comes and goes without touching the turn. */
  lemma CancellerKeepsTurn(s: State, s': State)
    requires TurnOk(s)
    requires s' == s.(completion := s'.completion, calls := s'.calls)
    requires s.completion.CompFree? || s.completion.Cancelling?
    ensures TurnOk(s')
  {
  }

  lemma SettledKept(s: State, s': State)
    requires OthersSettled(s) && s'.owed == s.owed && s'.out == s.out
    requires s.active.Some? ==> s'.active == s.active
    requires s.completion.Delivering? ==> s'.completion == s.completion
    requires s'.completion.Delivering? ==> s'.completion == s.completion
    ensures OthersSettled(s')
  {
  }

  lemma CancelKeeps(s: State, a: Action)
    requires Ok(s)
    ensures Ok(StepCancel(s, a))
  {
    var s' := StepCancel(s, a);
    if a.CancelTick? && s.completion.Cancelling? && s.completion.pc.CnWrite? && a.ok && !s.worker.Dead? {
      AppendKeepsTurn(s, Cancel(s.completion.t));
      CancellerKeepsTurn(s.(requests := s.requests + [Cancel(s.completion.t)]), s');
    } else if s' != s {
      CancellerKeepsTurn(s, s');
    }
    SettledKept(s, s');
  }

  lemma AnswerKeeps(s: State)
    requires Ok(s)
    ensures Ok(StepLoad(s, SendAnswer))
  {
    DrainAppend(s.wst, s.requests, Answer);
    if !s.worker.Dead? && !s.slot.Loading? {
      AppendKeepsTurn(s, Answer);
    }
    SettledKept(s, StepLoad(s, SendAnswer));
  }

  lemma LoadKeeps(s: State, a: Action)
    requires Ok(s)
    ensures Ok(StepLoad(s, a))
  {
    if a.SendAnswer? {
      AnswerKeeps(s);
    } else {
      if a.WriteLoad? && s.slot.Loading? {
        DrainAppend(s.wst, s.requests, LoadState(s.slot.st));
      }
      SettledKept(s, StepLoad(s, a));
    }
  }

  // ---------------------------------------------------------------- worker

  /** The turn moves one place forward on the pipe. */
  lemma SubmitAtTail(q: seq<Request>, t: Turn, k: int, st: Snapshot)
    requires SubmitAt(q, t, k) && !q[0].Submit?
    ensures SubmitAt(q[1..], t, k - 1) && Drain(Apply(st, q[0]), q[1..][..k - 1]) == Drain(st, q[..k])
  {
    assert q[..k][1..] == q[1..][..k - 1];
    assert q[1..][k - 1 + 1..] == q[k + 1..];
  }

  /** A turn behind another line is not at the head of the pipe. */
  lemma SubmitNotFirst(q: seq<Request>, t: Turn, k: int)
    requires SubmitAt(q, t, k) && k > 0
    ensures !q[0].Submit?
  {
  }

  lemma QueuedTail(s: State, s': State, t: Turn)
    requires t in s.owed && Queued(s, t) && !s.requests[0].Submit?
    requires s' == s.(requests := s.requests[1..], wst := Apply(s.wst, s.requests[0]))
    ensures Queued(s', t)
  {
    var k :| 0 <= k < |s.requests| && SubmitAt(s.requests, t, k) && Drain(s.wst, s.requests[..k]) == s.persisted;
    SubmitAtTail(s.requests, t, k, s.wst);
    assert SubmitAt(s'.requests, t, k - 1);
  }

  lemma IdleLineTurn(s: State, s': State)
    requires TurnOk(s) && s.worker.Waiting? && s.requests != [] && !s.requests[0].Submit?
    requires s' == s.(requests := s.requests[1..], wst := Apply(s.wst, s.requests[0]))
    ensures TurnOk(s')
  {
    if s.active.Some? && s.unsent.None? {
      var t := s.active.value;
      if Queued(s, t) {
        QueuedTail(s, s', t);
      } else {
        assert Ended(s, t);
        assert s.requests[0].Answer? || s.requests[0] == Cancel(t);
        assert Ended(s', t);
      }
    }
  }

  /** The outer loop takes a line that starts no turn. */
  lemma TakeIdleLine(s: State, accepted: bool, st: Snapshot)
    requires Ok(s) && s.worker.Waiting? && s.requests != [] && !s.requests[0].Submit?
    ensures Ok(Take(s, accepted, st))
  {
    var s' := Take(s, accepted, st);
    assert s' == s.(requests := s.requests[1..], wst := Apply(s.wst, s.requests[0]));
    IdleLineTurn(s, s');
    SettledKept(s, s');
  }

  /** A turn at the head of the pipe of an idle worker is the active one. */
  lemma FirstIsTurn(s: State)
    requires TurnOk(s) && s.worker.Waiting? && s.requests != [] && s.requests[0].Submit?
    ensures s.active.Some? && s.unsent.None? && Conserved(s, s.active.value) && Queued(s, s.active.value)
    ensures SubmitAt(s.requests, s.active.value, 0) && s.wst == s.persisted
  {
    var t := s.active.value;
    var k :| 0 <= k < |s.requests| && SubmitAt(s.requests, t, k) && Drain(s.wst, s.requests[..k]) == s.persisted;
    if k > 0 {
      SubmitNotFirst(s.requests, t, k);
    }
    assert s.requests[..0] == [];
  }

  lemma AcceptTurn(s: State, t: Turn, st: Snapshot)
    requires s.worker.Waiting? && SubmitAt(s.requests, t, 0) && Conserved(s, t) && Queued(s, t)
    ensures var s' := Take(s, true, st); Conserved(s', t) && Busy(s', t)
  {
  }

  lemma RefuseTurn(s: State, t: Turn, st: Snapshot)
    requires s.worker.Waiting? && SubmitAt(s.requests, t, 0) && Conserved(s, t) && Queued(s, t) && s.wst == s.persisted
    ensures var s' := Take(s, false, st); Conserved(s', t) && Ended(s', t)
  {
    EvsAppend([], ErrorMsg);
    assert [] + [ErrorMsg] == [ErrorMsg];
  }

  /** The outer loop takes the turn. */
  lemma TakeTurn(s: State, accepted: bool, st: Snapshot)
    requires Ok(s) && s.worker.Waiting? && s.requests != [] && s.requests[0].Submit?
    ensures Ok(Take(s, accepted, st))
  {
    FirstIsTurn(s);
    var s', t := Take(s, accepted, st), s.active.value;
    if accepted {
      AcceptTurn(s, t, st);
      SettledKept(s, s');
    } else {
      RefuseTurn(s, t, st);
      SettledWhileOwing(s, s', Terminal(0));
    }
    LocksFrame(s, s');
  }

  /** The select loop takes a line while a turn runs: it can only be a cancel of
      that turn or an answer. */
  lemma TakeWhileRunning(s: State, accepted: bool, st: Snapshot)
    requires Ok(s) && s.worker.Running? && s.requests != []
    ensures Ok(Take(s, accepted, st))
  {
    var s', t := Take(s, accepted, st), s.active.value;
    assert Busy(s, t);
    assert s.requests[0].Answer? || s.requests[0] == Cancel(t);
    assert Busy(s', t);
    SettledKept(s, s');
  }

  lemma TakeKeeps(s: State, accepted: bool, st: Snapshot)
    requires Ok(s)
    ensures Ok(Take(s, accepted, st))
  {
    if s.requests != [] {
      if s.worker.Waiting? && s.requests[0].Submit? {
        TakeTurn(s, accepted, st);
      } else if s.worker.Waiting? {
        TakeIdleLine(s, accepted, st);
      } else if s.worker.Running? {
        TakeWhileRunning(s, accepted, st);
      }
    }
  }

  lemma SettledWhileOwing(s: State, s': State, e: Ev)
    requires Ok(s) && s.active.Some? && s.active.value in s.owed
    requires s'.owed == s.owed[s.active.value := s.owed[s.active.value] + [e]] && s'.out == s.out
    requires s'.active == s.active && s'.completion == s.completion
    ensures OthersSettled(s')
  {
  }

  lemma EmitTurn(s: State, t: Turn, n: nat)
    requires Conserved(s, t) && Busy(s, t) && s.worker.Running?
    ensures var s' := StepWorker(s, WorkerEmit(n)); Conserved(s', t) && Busy(s', t)
  {
    var s' := StepWorker(s, WorkerEmit(n));
    EvsAppend(s.responses, Event(Delta(n)));
    assert s'.out[t] + s'.inner + Evs(s'.responses) == (s.out[t] + s.inner + Evs(s.responses)) + [Delta(n)];
  }

  lemma EmitKeeps(s: State, n: nat)
    requires Ok(s) && s.worker.Running?
    ensures Ok(StepWorker(s, WorkerEmit(n)))
  {
    var s', t := StepWorker(s, WorkerEmit(n)), s.active.value;
    assert Busy(s, t);
    EmitTurn(s, t, n);
    SettledWhileOwing(s, s', Delta(n));
    LocksFrame(s, s');
  }

  lemma StateTurn(s: State, t: Turn, st: Snapshot)
    requires Conserved(s, t) && Busy(s, t) && s.worker.Running?
    ensures var s' := StepWorker(s, WorkerState(st)); Conserved(s', t) && Busy(s', t)
  {
    var s' := StepWorker(s, WorkerState(st));
    EvsAppend(s.responses, StateMsg(st));
    assert s'.responses[..|s'.responses| - 1] == s.responses;
  }

  lemma StateKeeps(s: State, st: Snapshot)
    requires Ok(s) && s.worker.Running?
    ensures Ok(StepWorker(s, WorkerState(st)))
  {
    var s', t := StepWorker(s, WorkerState(st)), s.active.value;
    assert Busy(s, t);
    StateTurn(s, t, st);
    SettledKept(s, s');
    LocksFrame(s, s');
  }

  lemma StateThenTerminal(q: seq<Response>, st: Snapshot, persisted: Snapshot, n: nat)
    requires HasState(q, st, persisted)
    ensures EndsTurn(q + [Event(Terminal(n))], st, persisted)
  {
  }

  /** The terminal line is owed and on its way. */
  lemma TerminalOwed(s: State, t: Turn, n: nat)
    requires Conserved(s, t) && Busy(s, t) && s.worker.Closing? && s.active == Some(t)
    ensures var s' := StepWorker(s, WorkerTerminal(n)); Conserved(s', t) && Ended(s', t)
  {
    var s', q := StepWorker(s, WorkerTerminal(n)), s.responses;
    EvsAppend(q, Event(Terminal(n)));
    assert s'.out[t] + s'.inner + Evs(s'.responses) == (s.out[t] + s.inner + Evs(q)) + [Terminal(n)];
    assert s'.owed[t][..|s'.owed[t]| - 1] == s.owed[t];
    StateThenTerminal(q, s.wst, s.persisted, n);
  }

  lemma TerminalKeeps(s: State, n: nat)
    requires Ok(s) && s.worker.Closing?
    ensures Ok(StepWorker(s, WorkerTerminal(n)))
  {
    var t := s.active.value;
    assert Busy(s, t);
    TerminalOwed(s, t, n);
    SettledWhileOwing(s, StepWorker(s, WorkerTerminal(n)), Terminal(n));
  }

  lemma DeathKeeps(s: State)
    requires Ok(s)
    ensures Ok(StepWorker(s, WorkerDies))
  {
  }

  lemma WorkerKeeps(s: State, a: Action)
    requires Ok(s)
    ensures Ok(StepWorker(s, a))
  {
    match a
    case WorkerTake(accepted, st) => TakeKeeps(s, accepted, st);
    case WorkerWork(st) =>
      if s.worker.Running? {
        assert Busy(s, s.active.value);
        assert Busy(s.(wst := st), s.active.value);
        SettledKept(s, s.(wst := st));
      }
    case WorkerEmit(n) => if s.worker.Running? { EmitKeeps(s, n); }
    case WorkerState(st) => if s.worker.Running? { StateKeeps(s, st); }
    case WorkerTerminal(n) => if s.worker.Closing? { TerminalKeeps(s, n); }
    case WorkerDies => DeathKeeps(s);
    case _ =>
  }

  // ------------------------------------------------ the tasks of one turn

  predicate Ending(r: Response) {
    r.ErrorMsg? || (r.Event? && r.e.Terminal?)
  }

  lemma EndsTurnTail(q: seq<Response>, st: Snapshot, persisted: Snapshot)
    requires EndsTurn(q, st, persisted)
    ensures q != []
    ensures Ending(q[0]) ==> q[1..] == [] && persisted == st
    ensures !Ending(q[0]) ==> EndsTurn(q[1..], st, if q[0].StateMsg? then q[0].st else persisted)
  {
  }

  lemma HasStateTail(q: seq<Response>, st: Snapshot, persisted: Snapshot)
    requires HasState(q, st, persisted) && q != []
    ensures !Ending(q[0]) && HasState(q[1..], st, if q[0].StateMsg? then q[0].st else persisted)
  {
  }

  lemma PartialTail(q: seq<Response>)
    requires Partial(q) && q != []
    ensures Ending(q[0]) ==> q[1..] == []
    ensures Partial(q[1..])
  {
  }

  /** A line read moves from one end of the reader to the other. */
  lemma ReadConserves(s: State, t: Turn)
    requires Conserved(s, t) && s.reader == Some(t) && s.responses != []
    requires Ending(s.responses[0]) ==> s.responses[1..] == []
    ensures Conserved(StepRead(s), t)
  {
  }

  /** Delivered and queued events are deltas, so a terminal still to read is the last. */
  lemma ReadLost(s: State, t: Turn)
    requires Conserved(s, t) && Lost(s, t) && s.reader == Some(t) && s.responses != []
    requires Conserved(StepRead(s), t)
    ensures Lost(StepRead(s), t)
  {
    var s', q := StepRead(s), s.responses;
    PartialTail(q);
    if Ending(q[0]) {
      assert Evs(q) == EvOf(q[0]) + Evs(q[1..]);
      assert s.owed[t][|s.out[t] + s.inner|] == Evs(q)[0];
    }
  }

  lemma ReadLine(s: State)
    requires Ok(s) && s.reader.Some? && s.responses != []
    ensures TurnOk(StepRead(s))
  {
    var s', t, q := StepRead(s), s.reader.value, s.responses;
    if Busy(s, t) {
      if s.worker.Closing? {
        HasStateTail(q, s.wst, s.persisted);
      }
      ReadConserves(s, t);
      assert Busy(s', t);
    } else if Ended(s, t) {
      EndsTurnTail(q, s.wst, s.persisted);
      ReadConserves(s, t);
      assert Ended(s', t);
    } else {
      PartialTail(q);
      ReadConserves(s, t);
      ReadLost(s, t);
    }
  }

  /** The pipe closed: the reader makes up the terminal event. */
  lemma ReadEnd(s: State)
    requires Ok(s) && s.reader.Some? && s.responses == [] && s.worker.Dead?
    ensures Ok(StepRead(s))
  {
    var s', t := StepRead(s), s.reader.value;
    assert Lost(s, t);
    assert s.out[t] + s.inner == s.owed[t];
    assert Deltas(s.owed[t]);
    assert s'.out[t] + s'.inner + Evs(s'.responses) == s'.owed[t];
    assert s'.owed[t][..|s'.owed[t]| - 1] == s.owed[t];
    SettledWhileOwing(s, s', Terminal(0));
  }

  lemma ReadFrame(s: State)
    requires s.responses != []
    ensures var s' := StepRead(s);
            s' == s.(responses := s'.responses, inner := s'.inner, reader := s'.reader, persisted := s'.persisted)
  {
  }

  lemma ReadLocks(s: State)
    requires LocksOk(s) && AbortsOk(s) && OthersSettled(s) && s.responses != []
    ensures LocksOk(StepRead(s)) && AbortsOk(StepRead(s)) && OthersSettled(StepRead(s))
  {
    ReadFrame(s);
    LocksFrame(s, StepRead(s));
    SettledKept(s, StepRead(s));
  }

  lemma ReadKeeps(s: State)
    requires Ok(s)
    ensures Ok(StepRead(s))
  {
    if s.reader.Some? && s.responses != [] {
      ReadLine(s);
      ReadLocks(s);
    } else if s.reader.Some? && s.worker.Dead? {
      ReadEnd(s);
    }
  }

  lemma SettledWhileSending(s: State, s': State, t: Turn)
    requires OthersSettled(s) && s.active == Some(t)
    requires s'.owed == s.owed && s'.active == s.active && s'.completion == s.completion
    requires forall u :: u != t && u in s'.out ==> u in s.out && s'.out[u] == s.out[u]
    ensures OthersSettled(s')
  {
  }

  lemma ForwardDelta(s: State)
    requires Ok(s) && s.forwarder.Some? && s.inner != [] && s.inner[0].Delta?
    ensures Ok(StepForward(s, Forward))
  {
    var s', t, e := StepForward(s, Forward), s.forwarder.value, s.inner[0];
    assert s.out[t] + s.inner + Evs(s.responses) == (s.out[t] + [e]) + s.inner[1..] + Evs(s.responses);
    assert Conserved(s', t);
    SettledWhileSending(s, s', t);
  }

  lemma DeltaBefore(es: seq<Ev>, i: nat)
    requires OneTerminalLast(es) && i < |es| - 1
    ensures es[i].Delta?
  {
  }

  /** The terminal event is the last thing the turn owes. */
  lemma TerminalIsLast(out: seq<Ev>, inner: seq<Ev>, owed: seq<Ev>)
    requires out + inner == owed && OneTerminalLast(owed) && inner != [] && inner[0].Terminal?
    ensures inner[1..] == [] && out + [inner[0]] == owed
  {
    assert owed[|out|] == inner[0];
    if |inner| > 1 {
      DeltaBefore(owed, |out|);
    }
  }

  lemma ForwardTerminal(s: State)
    requires Ok(s) && s.forwarder.Some? && s.inner != [] && s.inner[0].Terminal? && s.completion.CompFree?
    ensures Ok(StepForward(s, Forward))
  {
    var s', t := StepForward(s, Forward), s.forwarder.value;
    assert s.reader.None?;
    assert s.responses == [] && OneTerminalLast(s.owed[t]);
    assert s.out[t] + s.inner + Evs(s.responses) == s.out[t] + s.inner;
    TerminalIsLast(s.out[t], s.inner, s.owed[t]);
    assert Conserved(s', t);
    SettledKept(s, s');
  }

  lemma ClearKeeps(s: State)
    requires Ok(s) && s.completion.Clearing? && s.slot.SlotFree?
    ensures Ok(StepForward(s, Clear))
  {
    var s', t := StepForward(s, Clear), s.completion.t;
    assert Conserved(s, t);
    if s.worker.Waiting? {
      DrainTail(s.wst, s.requests, t);
    }
    forall u | u in s'.owed && u in s'.out && s'.active != Some(u)
      ensures Settled(s', u)
    {
      if u != t {
        assert Settled(s, u);
      }
    }
  }

  lemma DeliverKeeps(s: State)
    requires Ok(s) && s.completion.Delivering?
    ensures Ok(StepForward(s, Deliver))
  {
  }

  lemma FinishKeeps(s: State, ok: bool)
    requires Ok(s) && s.completion.Finishing?
    ensures Ok(StepForward(s, FinishTick(ok)))
  {
  }

  lemma ForwardStepKeeps(s: State, a: Action)
    requires Ok(s)
    ensures Ok(StepForward(s, a))
  {
    match a
    case Forward =>
      if s.forwarder.Some? && s.inner != [] {
        if s.inner[0].Delta? {
          ForwardDelta(s);
        } else if s.completion.CompFree? {
          ForwardTerminal(s);
        }
      }
    case FinishTick(ok) => if s.completion.Finishing? { FinishKeeps(s, ok); }
    case Clear => if s.completion.Clearing? && s.slot.SlotFree? { ClearKeeps(s); }
    case Deliver => if s.completion.Delivering? { DeliverKeeps(s); }
    case _ =>
  }

  lemma StepKeeps(s: State, a: Action)
    requires Ok(s)
    ensures Ok(Step(s, a))
  {
    SubmitKeeps(s, a);
    CancelKeeps(s, a);
    LoadKeeps(s, a);
    ReadKeeps(s);
    ForwardStepKeeps(s, a);
    WorkerKeeps(s, a);
  }

  lemma {:induction false} RunKeeps(s: State, actions: seq<Action>)
    requires Ok(s)
    ensures Ok(Run(s, actions))
    decreases |actions|
  {
    if actions != [] {
      StepKeeps(s, actions[0]);
      RunKeeps(Step(s, actions[0]), actions[1..]);
    }
  }

  // ----------------------------------------------------------- main theorems

  /**
   A `Cancel` written for one turn never aborts another, although the worker does
   not look at the turn id: whenever it runs a turn, that turn is the supervisor's
   active one and every cancel still on the pipe is for it.
   */
  lemma CancelIsIsolated(st: Snapshot, actions: seq<Action>)
    ensures var s := Run(Started(st), actions);
            && (forall i :: 0 <= i < |s.aborts| ==> s.aborts[i].wanted == s.aborts[i].running)
            && (s.worker.Running? ==>
                  && s.active == Some(s.worker.t)
                  && forall i :: 0 <= i < |s.requests| && s.requests[i].Cancel? ==> s.requests[i].t == s.worker.t)
  {
    RunKeeps(Started(st), actions);
  }

  /**
   Every accepted turn is sent exactly what was produced for it, in order: at any
   moment a prefix of it without the terminal event while the turn is active, and
   all of it, ending in its only terminal event, once the slot was cleared and the
   terminal delivered.
   */
  lemma OneTerminalPerTurn(st: Snapshot, actions: seq<Action>, t: Turn)
    requires t in Run(Started(st), actions).owed
    ensures var s := Run(Started(st), actions);
            && t in s.out && s.out[t] <= s.owed[t]
            && (s.active == Some(t) ==> Deltas(s.out[t]))
            && (s.active != Some(t) && !(s.completion.Delivering? && s.completion.t == t) ==>
                  s.out[t] == s.owed[t] && OneTerminalLast(s.out[t]))
  {
    RunKeeps(Started(st), actions);
    var s := Run(Started(st), actions);
    if s.active == Some(t) {
      assert Conserved(s, t);
      assert s.out[t] <= s.out[t] + s.inner <= s.out[t] + s.inner + Evs(s.responses);
    } else {
      assert Settled(s, t);
    }
  }

  /**
   Whenever no turn is active and no load is half done, the state the supervisor
   would export is the state the live worker reaches once it has drained its pipe.
   */
  lemma PersistedFollowsWorker(st: Snapshot, actions: seq<Action>)
    ensures var s := Run(Started(st), actions);
            s.active.None? && s.slot.SlotFree? && s.worker.Waiting? ==> Drain(s.wst, s.requests) == s.persisted
  {
    RunKeeps(Started(st), actions);
  }
}
