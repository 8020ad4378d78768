/**
 One xiaoO supervisor instance and its worker process.  Submitters, cancellers,
 the reader and the forwarder of a turn, and the worker are joined by two FIFO
 pipes, the `active_turn` slot and the `completion` lock.  Each await is one
 action; an action that is not enabled changes nothing.

 The rollback after a failed pipe write is not a step of the machine: module
 XiaooRollback says what it does to every continuation.
 */
module XiaooTurn {
  import opened Options

  type Turn = nat

  /** Everything a worker snapshot carries: loop state, model, roles, responses. */
  type Snapshot = nat

  datatype Request = Submit(t: Turn) | Cancel(t: Turn) | LoadState(st: Snapshot) | Answer

  datatype Ev = Delta(n: nat) | Terminal(n: nat)

  datatype Response = Event(e: Ev) | StateMsg(st: Snapshot) | ErrorMsg

  /** `Closing`: the run is over and its State line written, its terminal not yet. */
  datatype Worker = Waiting | Running(t: Turn) | Closing(t: Turn) | Dead

  /** The `active_turn` mutex while it is held across an await. */
  datatype Slot = SlotFree | Submitting(t: Turn) | Loading(st: Snapshot, written: bool)

  datatype CancelPc = CnBlock | CnWrite | CnCancel

  /** The `completion` mutex: a canceller, or the forwarder of a turn that ended. */
  datatype Completion =
    | CompFree
    | Cancelling(t: Turn, pc: CancelPc)
    | Finishing(t: Turn, e: Ev)
    | Clearing(t: Turn, e: Ev)
    | Delivering(t: Turn, e: Ev)

  /** Calls on the operation backend. */
  datatype Call =
    | BeginTurn(t: Turn, ok: bool)
    | BlockTurn(t: Turn)
    | CancelTurn(t: Turn)
    | FinishTurn(t: Turn, ok: bool)

  /** The `Cancel` for `wanted` was consumed while `running` ran. */
  datatype Abort = Abort(wanted: Turn, running: Turn)

  datatype State = State(
    active: Option<Turn>,
    slot: Slot,
    unsent: Option<Turn>,       // active, its SubmitTurn line not yet written
    completion: Completion,
    persisted: Snapshot,
    requests: seq<Request>,     // supervisor to worker
    responses: seq<Response>,   // worker to supervisor
    worker: Worker,
    wst: Snapshot,
    reader: Option<Turn>,
    inner: seq<Ev>,             // reader to forwarder
    forwarder: Option<Turn>,
    out: map<Turn, seq<Ev>>,    // what each accepted turn's subscriber was sent
    owed: map<Turn, seq<Ev>>,   // what the worker produced for it, or the reader in its stead
    calls: seq<Call>,
    aborts: seq<Abort>,
    seen: set<Turn>)

  function Started(st: Snapshot): State {
    State(None, SlotFree, None, CompFree, st, [], [], Waiting, st, None, [], None, map[], map[], [], [], {})
  }

  datatype Action =
    | BeginSubmit(t: Turn) | EndBegin(ok: bool) | WriteSubmit
    | BeginCancel(wanted: Option<Turn>) | CancelTick(ok: bool) | DropCancel
    | BeginLoad(st: Snapshot) | WriteLoad(ok: bool) | StoreLoad
    | SendAnswer
    | WorkerTake(accepted: bool, st: Snapshot)
    | WorkerWork(st: Snapshot) | WorkerEmit(n: nat) | WorkerState(st: Snapshot) | WorkerTerminal(n: nat)
    | WorkerDies
    | Read
    | Forward | FinishTick(ok: bool) | Clear | Deliver

  // ------------------------------------------------------------- supervisor

  function StepSubmit(s: State, a: Action): State {
    match a
    case BeginSubmit(t) =>
      if s.slot.SlotFree? && s.active.None? && t !in s.seen then s.(slot := Submitting(t), seen := s.seen + {t}) else s
    case EndBegin(ok) =>
      if !s.slot.Submitting? then s
      else
        var t := s.slot.t;
        s.(slot := SlotFree, calls := s.calls + [BeginTurn(t, ok)],
           active := if ok then Some(t) else None, unsent := if ok then Some(t) else None)
    case WriteSubmit =>
      if s.unsent.None? || s.worker.Dead? then s
      else
        var t := s.unsent.value;
        s.(unsent := None, requests := s.requests + [Submit(t)], reader := Some(t), forwarder := Some(t), inner := [],
           out := s.out[t := []], owed := s.owed[t := []])
    case _ => s
  }

  function StepCancel(s: State, a: Action): State {
    match a
    case BeginCancel(wanted) =>
      if s.completion.CompFree? && s.slot.SlotFree? && s.active.Some? && (wanted.None? || wanted == s.active) then
        s.(completion := Cancelling(s.active.value, CnBlock))
      else s
    case CancelTick(ok) =>
      if !s.completion.Cancelling? then s
      else
        var t := s.completion.t;
        match s.completion.pc {
          case CnBlock =>
            s.(calls := s.calls + [BlockTurn(t)], completion := if ok then Cancelling(t, CnWrite) else CompFree)
          case CnWrite =>
            // A failed write is reported only after the backend call.
            s.(requests := if ok && !s.worker.Dead? then s.requests + [Cancel(t)] else s.requests,
               completion := Cancelling(t, CnCancel))
          case CnCancel =>
            s.(calls := s.calls + [CancelTurn(t)], completion := CompFree)
        }
    case DropCancel =>
      if s.completion.Cancelling? then s.(completion := CompFree) else s
    case _ => s
  }

  function StepLoad(s: State, a: Action): State {
    match a
    case BeginLoad(st) =>
      if s.slot.SlotFree? && s.active.None? then s.(slot := Loading(st, false)) else s
    case WriteLoad(ok) =>
      if !s.slot.Loading? || s.slot.written then s
      else if ok && !s.worker.Dead? then
        s.(requests := s.requests + [LoadState(s.slot.st)], slot := Loading(s.slot.st, true))
      else s.(slot := SlotFree)
    case StoreLoad =>
      if s.slot.Loading? && s.slot.written then s.(persisted := s.slot.st, slot := SlotFree) else s
    case SendAnswer =>
      if s.worker.Dead? then s else s.(requests := s.requests + [Answer])
    case _ => s
  }

  // ----------------------------------------------------------------- worker

  /** One request taken from the pipe, by the outer loop or by the select loop. */
  function Take(s: State, accepted: bool, st: Snapshot): State {
    if s.requests == [] then s
    else
      var r, s1 := s.requests[0], s.(requests := s.requests[1..]);
      match s.worker {
        case Waiting =>
          (match r
           case Submit(t) =>
             if accepted then s1.(worker := Running(t), wst := st)
             else if t in s.owed then s1.(responses := s.responses + [ErrorMsg], owed := s.owed[t := s.owed[t] + [Terminal(0)]])
             else s1.(responses := s.responses + [ErrorMsg])
           case LoadState(loaded) => s1.(wst := loaded)
           case _ => s1)
        case Running(t) =>
          if r.Cancel? then s1.(aborts := s.aborts + [Abort(r.t, t)]) else s1
        case _ => s
      }
  }

  function Owe(s: State, t: Turn, e: Ev): State {
    if t in s.owed then s.(owed := s.owed[t := s.owed[t] + [e]]) else s
  }

  function StepWorker(s: State, a: Action): State {
    match a
    case WorkerTake(accepted, st) => Take(s, accepted, st)
    case WorkerWork(st) => if s.worker.Running? then s.(wst := st) else s
    case WorkerEmit(n) =>
      if s.worker.Running? then Owe(s, s.worker.t, Delta(n)).(responses := s.responses + [Event(Delta(n))]) else s
    case WorkerState(st) =>
      if s.worker.Running? then s.(worker := Closing(s.worker.t), wst := st, responses := s.responses + [StateMsg(st)]) else s
    case WorkerTerminal(n) =>
      if s.worker.Closing? then
        Owe(s, s.worker.t, Terminal(n)).(worker := Waiting, responses := s.responses + [Event(Terminal(n))])
      else s
    case WorkerDies => s.(worker := Dead, requests := [])
    case _ => s
  }

  // -------------------------------------------------- the tasks of one turn

  function StepRead(s: State): State {
    if s.reader.None? then s
    else if s.responses == [] then
      if s.worker.Dead? then
        Owe(s, s.reader.value, Terminal(0)).(inner := s.inner + [Terminal(0)], reader := None)
      else s
    else
      var s1 := s.(responses := s.responses[1..]);
      match s.responses[0]
      case Event(e) => s1.(inner := s.inner + [e], reader := if e.Terminal? then None else s.reader)
      case StateMsg(st) => s1.(persisted := st)
      case ErrorMsg => s1.(inner := s.inner + [Terminal(0)], reader := None)
  }

  function Send(s: State, t: Turn, e: Ev): State {
    if t in s.out then s.(out := s.out[t := s.out[t] + [e]]) else s
  }

  function StepForward(s: State, a: Action): State {
    match a
    case Forward =>
      if s.forwarder.None? || s.inner == [] then s
      else if s.inner[0].Delta? then Send(s, s.forwarder.value, s.inner[0]).(inner := s.inner[1..])
      else if s.completion.CompFree? then
        s.(completion := Finishing(s.forwarder.value, s.inner[0]), inner := s.inner[1..], forwarder := None)
      else s
    case FinishTick(ok) =>
      if !s.completion.Finishing? then s
      else
        var t, e := s.completion.t, s.completion.e;
        s.(calls := s.calls + [FinishTurn(t, ok)], completion := if ok then Clearing(t, e) else s.completion)
    case Clear =>
      if !s.completion.Clearing? || !s.slot.SlotFree? then s
      else
        var t, e := s.completion.t, s.completion.e;
        s.(active := if s.active == Some(t) then None else s.active, completion := Delivering(t, e))
    case Deliver =>
      if !s.completion.Delivering? then s
      else Send(s, s.completion.t, s.completion.e).(completion := CompFree)
    case _ => s
  }

  function Step(s: State, a: Action): State {
    if a.BeginSubmit? || a.EndBegin? || a.WriteSubmit? then StepSubmit(s, a)
    else if a.BeginCancel? || a.CancelTick? || a.DropCancel? then StepCancel(s, a)
    else if a.BeginLoad? || a.WriteLoad? || a.StoreLoad? || a.SendAnswer? then StepLoad(s, a)
    else if a.Read? then StepRead(s)
    else if a.Forward? || a.FinishTick? || a.Clear? || a.Deliver? then StepForward(s, a)
    else StepWorker(s, a)
  }

  function Run(s: State, actions: seq<Action>): State
    decreases |actions|
  {
    if actions == [] then s else Run(Step(s, actions[0]), actions[1..])
  }
}
