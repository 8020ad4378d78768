/**
 The order of the calls on the operation backend, and their place before the
 terminal event of a turn.
 */
module XiaooTrace {
  import opened Options
  import opened XiaooTurn
  import opened XiaooSafety

  /**
   A recogniser of the permitted call sequences: turn segments that do not overlap,
   each begun once, then any number of blocks, each optionally followed by a cancel,
   then failed finishes and one successful one; a failed begin is a segment by
   itself.  `done` holds the turns whose segment is over.
   */
  datatype Trace =
    | Between(done: set<Turn>)
    | Open(done: set<Turn>, t: Turn)
    | Blocked(done: set<Turn>, t: Turn)
    | Ending(done: set<Turn>, t: Turn)
    | Refused

  function Finished(tr: Trace, ok: bool): Trace
    requires tr.Open? || tr.Blocked? || tr.Ending?
  {
    if ok then Between(tr.done + {tr.t}) else Ending(tr.done, tr.t)
  }

  function Advance(tr: Trace, c: Call): Trace {
    match tr
    case Between(done) =>
      if !c.BeginTurn? || c.t in done then Refused
      else if c.ok then Open(done, c.t) else Between(done + {c.t})
    case Open(done, t) =>
      if c == BlockTurn(t) then Blocked(done, t)
      else if c.FinishTurn? && c.t == t then Finished(tr, c.ok) else Refused
    case Blocked(done, t) =>
      if c == BlockTurn(t) then tr
      else if c == CancelTurn(t) then Open(done, t)
      else if c.FinishTurn? && c.t == t then Finished(tr, c.ok) else Refused
    case Ending(done, t) =>
      if c.FinishTurn? && c.t == t then Finished(tr, c.ok) else Refused
    case Refused => Refused
  }

  function TraceOf(calls: seq<Call>): Trace
    decreases |calls|
  {
    if calls == [] then Between({}) else Advance(TraceOf(calls[..|calls| - 1]), calls[|calls| - 1])
  }

  lemma TraceAppend(calls: seq<Call>, c: Call)
    ensures TraceOf(calls + [c]) == Advance(TraceOf(calls), c)
  {
  }

  predicate TraceOk(s: State, tr: Trace) {
    && !tr.Refused? && tr.done <= s.seen
    && (s.slot.Submitting? ==> s.slot.t !in tr.done)
    && (forall t :: t in s.owed && s.active != Some(t) ==> t in tr.done)
    && (if s.active.None? then tr.Between?
        else if s.completion.Clearing? then tr.Between? && s.active.value in tr.done
        else if s.completion.Finishing? then !tr.Between? && tr.t == s.active.value
        else (tr.Open? || tr.Blocked?) && tr.t == s.active.value
             && (s.completion.Cancelling? && !s.completion.pc.CnBlock? ==> tr.Blocked?))
  }

  /** The worker and the reader neither call the backend nor touch the locks. */
  predicate SameView(s: State, s': State) {
    && s'.active == s.active && s'.slot == s.slot && s'.completion == s.completion
    && s'.seen == s.seen && s'.owed.Keys == s.owed.Keys && s'.calls == s.calls
  }

  lemma SameViewKeeps(s: State, s': State, tr: Trace)
    requires TraceOk(s, tr) && SameView(s, s')
    ensures TraceOk(s', tr)
  {
  }

  lemma WorkerView(s: State, a: Action)
    ensures SameView(s, StepWorker(s, a))
  {
  }

  lemma ReadView(s: State)
    ensures SameView(s, StepRead(s))
  {
  }

  lemma SubmitKeepsTrace(s: State, a: Action)
    requires LocksOk(s) && TurnOk(s) && TraceOk(s, TraceOf(s.calls))
    ensures TraceOk(StepSubmit(s, a), TraceOf(StepSubmit(s, a).calls))
  {
    if a.EndBegin? && s.slot.Submitting? {
      TraceAppend(s.calls, BeginTurn(s.slot.t, a.ok));
    }
  }

  lemma CancelKeepsTrace(s: State, a: Action)
    requires LocksOk(s) && TraceOk(s, TraceOf(s.calls))
    ensures TraceOk(StepCancel(s, a), TraceOf(StepCancel(s, a).calls))
  {
  }

  lemma LoadKeepsTrace(s: State, a: Action)
    requires TraceOk(s, TraceOf(s.calls))
    ensures TraceOk(StepLoad(s, a), TraceOf(StepLoad(s, a).calls))
  {
  }

  lemma ForwardKeepsTrace(s: State, a: Action)
    requires LocksOk(s) && TurnOk(s) && TraceOk(s, TraceOf(s.calls))
    ensures TraceOk(StepForward(s, a), TraceOf(StepForward(s, a).calls))
  {
  }

  lemma StepKeepsTrace(s: State, a: Action)
    requires LocksOk(s) && TurnOk(s) && TraceOk(s, TraceOf(s.calls))
    ensures TraceOk(Step(s, a), TraceOf(Step(s, a).calls))
  {
    SubmitKeepsTrace(s, a);
    CancelKeepsTrace(s, a);
    LoadKeepsTrace(s, a);
    ForwardKeepsTrace(s, a);
    ReadView(s);
    SameViewKeeps(s, StepRead(s), TraceOf(s.calls));
    WorkerView(s, a);
    SameViewKeeps(s, StepWorker(s, a), TraceOf(s.calls));
  }

  lemma {:induction false} RunKeepsTrace(s: State, actions: seq<Action>)
    requires Ok(s) && TraceOk(s, TraceOf(s.calls))
    ensures TraceOk(Run(s, actions), TraceOf(Run(s, actions).calls))
    decreases |actions|
  {
    if actions != [] {
      StepKeeps(s, actions[0]);
      StepKeepsTrace(s, actions[0]);
      RunKeepsTrace(Step(s, actions[0]), actions[1..]);
    }
  }

  /**
   Over every run the backend sees non-overlapping turn segments, and no call for a
   turn once its segment is over; a subscriber gets the terminal event of a turn
   only after that segment ended in a successful finish.
   */
  lemma BackendSeesSegments(st: Snapshot, actions: seq<Action>)
    ensures var s := Run(Started(st), actions);
            && !TraceOf(s.calls).Refused?
            && (s.active.None? ==> TraceOf(s.calls).Between?)
            && (forall t :: t in s.out && s.out[t] != [] && s.out[t][|s.out[t]| - 1].Terminal? ==>
                              t in TraceOf(s.calls).done && s.active != Some(t))
  {
    RunKeeps(Started(st), actions);
    RunKeepsTrace(Started(st), actions);
    var s := Run(Started(st), actions);
    if s.active.Some? && s.active.value in s.out {
      assert s.unsent.None? ==> Conserved(s, s.active.value);
    }
  }
}
