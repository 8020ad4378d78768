/**
 Submit's rollback after a failed write of its line: it finishes the turn at the backend
 and then clears the slot, two awaits, without taking the completion lock.  Exactly when
 that is harmless, for cancel isolation and for the order of the backend calls.
 */
module XiaooRollback {
  import opened Options
  import opened NewIds
  import opened XiaooTurn
  import opened XiaooSafety
  import opened XiaooTrace

  /** Where the rollback is. */
  datatype Phase = WriteFailed | FinishCalled | SlotCleared

  datatype Roll = Roll(s: State, phase: Phase)

  /** `ok` says whether the backend's `finish_turn` succeeds; its result is ignored. */
  datatype RollAction = Other(a: Action) | Finish(ok: bool) | ClearSlot

  function Cleared(s: State): State {
    s.(active := None, unsent := None)
  }

  /** Everything else goes on beside the rollback, except that the submitter who rolls
      back writes no line. */
  function RollStep(x: Roll, a: RollAction): Roll {
    match a
    case Other(b) => if b.WriteSubmit? && !x.phase.SlotCleared? then x else x.(s := Step(x.s, b))
    case Finish(ok) =>
      if !x.phase.WriteFailed? || x.s.unsent.None? then x
      else Roll(x.s.(calls := x.s.calls + [FinishTurn(x.s.unsent.value, ok)]), FinishCalled)
    case ClearSlot =>
      if !x.phase.FinishCalled? || !x.s.slot.SlotFree? then x else Roll(Cleared(x.s), SlotCleared)
  }

  function RollRun(x: Roll, actions: seq<RollAction>): Roll
    decreases |actions|
  {
    if actions == [] then x else RollRun(RollStep(x, actions[0]), actions[1..])
  }

  /** A canceller read the slot and has not yet written its line. */
  predicate CancelPending(s: State) {
    s.completion.Cancelling? && !s.completion.pc.CnCancel?
  }

  lemma ClearKeeps(s: State)
    requires Ok(s) && s.unsent.Some? && !s.completion.Cancelling?
    ensures Ok(Cleared(s))
  {
    SettledKeptIdle(s, Cleared(s));
  }

  /** A turn that was never accepted is owed nothing. */
  lemma SettledKeptIdle(s: State, s': State)
    requires OthersSettled(s) && s.active.Some? && s.active.value !in s.owed
    requires s'.owed == s.owed && s'.out == s.out && s'.active.None? && s'.completion == s.completion
    ensures OthersSettled(s')
  {
    forall t | t in s'.owed && t in s'.out ensures Settled(s', t) {
      assert Settled(s, t);
    }
  }

  // ---------------------------------------------------------- a dead worker

  /** A dead worker takes nothing, so it aborts nothing. */
  lemma {:induction false} DeadAbortsNothing(s: State, actions: seq<Action>)
    requires s.worker.Dead?
    ensures Run(s, actions).aborts == s.aborts
    decreases |actions|
  {
    if actions != [] {
      DeadStep(s, actions[0]);
      DeadAbortsNothing(Step(s, actions[0]), actions[1..]);
    }
  }

  lemma DeadStep(s: State, a: Action)
    requires s.worker.Dead?
    ensures Step(s, a).worker.Dead? && Step(s, a).aborts == s.aborts
  {
  }

  // ------------------------------------- a canceller whose line is written already

  /** `u` is `s` without the canceller, who has only its backend call left. */
  predicate Beside(s: State, u: State) {
    s.completion.Cancelling? && s.completion.pc.CnCancel? && u == s.(completion := CompFree, calls := u.calls)
  }

  /** What the canceller's lock holds up. */
  predicate HeldUp(s: State, a: Action) {
    a.BeginCancel? || (a.Forward? && s.inner != [] && s.inner[0].Terminal?)
  }

  lemma BesideSubmit(s: State, u: State, a: Action)
    requires Beside(s, u)
    ensures Beside(StepSubmit(s, a), StepSubmit(u, a))
  {
  }

  lemma BesideLoad(s: State, u: State, a: Action)
    requires Beside(s, u)
    ensures Beside(StepLoad(s, a), StepLoad(u, a))
  {
  }

  lemma BesideRead(s: State, u: State)
    requires Beside(s, u)
    ensures Beside(StepRead(s), StepRead(u))
  {
  }

  lemma BesideTake(s: State, u: State, accepted: bool, st: Snapshot)
    requires Beside(s, u)
    ensures Beside(Take(s, accepted, st), Take(u, accepted, st))
  {
  }

  lemma BesideWorker(s: State, u: State, a: Action)
    requires Beside(s, u)
    ensures Beside(StepWorker(s, a), StepWorker(u, a))
  {
    if a.WorkerTake? { BesideTake(s, u, a.accepted, a.st); }
  }

  lemma BesideForward(s: State, u: State, a: Action)
    requires Beside(s, u) && (a.Forward? || a.FinishTick? || a.Clear? || a.Deliver?)
    ensures Beside(StepForward(s, a), if HeldUp(s, a) then u else StepForward(u, a))
  {
  }

  lemma BesideStep(s: State, u: State, a: Action)
    requires Beside(s, u) && !a.CancelTick? && !a.DropCancel?
    ensures Beside(Step(s, a), if HeldUp(s, a) then u else Step(u, a))
  {
    if a.BeginSubmit? || a.EndBegin? || a.WriteSubmit? {
      BesideSubmit(s, u, a);
    } else if a.BeginLoad? || a.WriteLoad? || a.StoreLoad? || a.SendAnswer? {
      BesideLoad(s, u, a);
    } else if a.Read? {
      BesideRead(s, u);
    } else if a.Forward? || a.FinishTick? || a.Clear? || a.Deliver? {
      BesideForward(s, u, a);
    } else if !a.BeginCancel? {
      BesideWorker(s, u, a);
    }
  }

  lemma CallsDoNotMatter(s: State, calls: seq<Call>)
    requires Ok(s)
    ensures Ok(s.(calls := calls))
  {
    var s' := s.(calls := calls);
    assert forall t :: t in s.owed && t in s.out ==> (Settled(s', t) <==> Settled(s, t));
  }

  lemma {:induction false} BesideKeeps(s: State, u: State, actions: seq<Action>)
    requires Beside(s, u) && Ok(u)
    ensures AbortsOk(Run(s, actions))
    decreases |actions|
  {
    if actions != [] {
      var a := actions[0];
      if a.CancelTick? || a.DropCancel? {
        CallsDoNotMatter(u, Step(s, a).calls);
        assert Step(s, a) == u.(calls := Step(s, a).calls);
        RunKeeps(Step(s, a), actions[1..]);
      } else {
        BesideStep(s, u, a);
        StepKeeps(u, a);
        BesideKeeps(Step(s, a), if HeldUp(s, a) then u else Step(u, a), actions[1..]);
      }
    }
  }

  // ------------------------------------------- a canceller whose line is to come

  /** Some continuation aborts a turn with the cancel of another. */
  ghost predicate CanMisfire(s: State) {
    exists actions :: !AbortsOk(Run(s, actions))
  }

  lemma MisfireStep(s: State, a: Action)
    requires CanMisfire(Step(s, a))
    ensures CanMisfire(s)
  {
    var rest :| !AbortsOk(Run(Step(s, a), rest));
    assert ([a] + rest)[1..] == rest;
    assert !AbortsOk(Run(s, [a] + rest));
  }

  lemma MisfireNow(s: State)
    requires !AbortsOk(s)
    ensures CanMisfire(s)
  {
    assert Run(s, []) == s;
  }

  /** An idle worker drains the pipe, takes the turn, and then the other turn's cancel. */
  lemma {:induction false} DrainMisfires(s: State, k: nat, t: Turn, wanted: Turn)
    requires s.worker.Waiting? && k + 1 < |s.requests| && NoSubmit(s.requests[..k])
    requires s.requests[k] == Submit(t) && s.requests[k + 1] == Cancel(wanted) && wanted != t
    ensures CanMisfire(s)
    decreases k
  {
    var s1 := Step(s, WorkerTake(true, 0));
    if k == 0 {
      assert s1.worker == Running(t) && s1.requests == s.requests[1..];
      var s2 := Step(s1, WorkerTake(true, 0));
      assert s2.aborts == s1.aborts + [Abort(wanted, t)];
      assert s2.aborts[|s1.aborts|] == Abort(wanted, t);
      MisfireNow(s2);
      MisfireStep(s1, WorkerTake(true, 0));
    } else {
      assert !s.requests[..k][0].Submit?;
      assert s1.requests == s.requests[1..] && s1.worker.Waiting?;
      assert s1.requests[..k - 1] == s.requests[..k][1..];
      DrainMisfires(s1, k - 1, t, wanted);
    }
    MisfireStep(s, WorkerTake(true, 0));
  }

  /** The next turn's line goes out first, then the canceller's. */
  lemma WriteMisfires(s: State, t: Turn)
    requires s.completion.Cancelling? && s.completion.pc.CnWrite? && s.worker.Waiting? && NoSubmit(s.requests)
    requires s.unsent == Some(t) && s.completion.t != t
    ensures CanMisfire(s)
  {
    var k := |s.requests|;
    var s1 := Step(s, WriteSubmit);
    assert s1.requests == s.requests + [Submit(t)] && s1.worker == s.worker && s1.completion == s.completion;
    var s2 := Step(s1, CancelTick(true));
    assert s2.requests == s.requests + [Submit(t)] + [Cancel(s.completion.t)];
    assert s2.requests[..k] == s.requests;
    DrainMisfires(s2, k, t, s.completion.t);
    MisfireStep(s1, CancelTick(true));
    MisfireStep(s, WriteSubmit);
  }

  lemma PendingMisfires(s: State)
    requires Ok(s) && s.unsent.Some? && CancelPending(s) && !s.worker.Dead?
    ensures CanMisfire(Cleared(s))
  {
    var s0 := Cleared(s);
    var t := Unused(s.seen);
    var s1 := Step(s0, BeginSubmit(t));
    assert s1.slot == Submitting(t) && s1.requests == s.requests && s1.completion == s.completion && s1.worker == s.worker;
    var s2 := Step(s1, EndBegin(true));
    assert s2.unsent == Some(t) && s2.requests == s.requests && s2.completion == s.completion && s2.worker == s.worker;
    if s.completion.pc.CnBlock? {
      var s3 := Step(s2, CancelTick(true));
      assert s3.completion == Cancelling(s.completion.t, CnWrite) && s3.requests == s.requests && s3.unsent == Some(t);
      WriteMisfires(s3, t);
      MisfireStep(s2, CancelTick(true));
    } else {
      WriteMisfires(s2, t);
    }
    MisfireStep(s1, EndBegin(true));
    MisfireStep(s0, BeginSubmit(t));
  }

  lemma ClearSafe(s: State, actions: seq<Action>)
    requires Ok(s) && s.unsent.Some? && !(CancelPending(s) && !s.worker.Dead?)
    ensures AbortsOk(Run(Cleared(s), actions))
  {
    if s.worker.Dead? {
      DeadAbortsNothing(Cleared(s), actions);
    } else if s.completion.Cancelling? {
      var u := s.(completion := CompFree);
      SettledKept(s, u);
      CancellerKeepsTurn(s, u);
      ClearKeeps(u);
      BesideKeeps(Cleared(s), Cleared(u), actions);
    } else {
      ClearKeeps(s);
      RunKeeps(Cleared(s), actions);
    }
  }

  // --------------------------------------------------------- runs of a rollback

  /** Some continuation of the rollback aborts a turn with the cancel of another. */
  ghost predicate Misfires(x: Roll) {
    exists actions :: !AbortsOk(RollRun(x, actions).s)
  }

  /** Some continuation of the rollback calls the backend outside a turn segment. */
  ghost predicate Strays(x: Roll) {
    exists actions :: TraceOf(RollRun(x, actions).s.calls).Refused?
  }

  lemma MisfiresBefore(x: Roll, a: RollAction)
    requires Misfires(RollStep(x, a))
    ensures Misfires(x)
  {
    var rest :| !AbortsOk(RollRun(RollStep(x, a), rest).s);
    assert ([a] + rest)[1..] == rest;
    assert !AbortsOk(RollRun(x, [a] + rest).s);
  }

  lemma StraysBefore(x: Roll, a: RollAction)
    requires Strays(RollStep(x, a))
    ensures Strays(x)
  {
    var rest :| TraceOf(RollRun(RollStep(x, a), rest).s.calls).Refused?;
    assert ([a] + rest)[1..] == rest;
    assert TraceOf(RollRun(x, [a] + rest).s.calls).Refused?;
  }

  lemma StraysNow(x: Roll)
    requires TraceOf(x.s.calls).Refused?
    ensures Strays(x)
  {
    assert RollRun(x, []) == x;
  }

  /** The actions of the other tasks. */
  function Others(actions: seq<RollAction>): seq<Action>
    decreases |actions|
  {
    if actions == [] then [] else (if actions[0].Other? then [actions[0].a] else []) + Others(actions[1..])
  }

  /** Once the slot is cleared the rollback is over: what follows is an ordinary run. */
  lemma {:induction false} RunAfterClear(s: State, actions: seq<RollAction>)
    ensures RollRun(Roll(s, SlotCleared), actions) == Roll(Run(s, Others(actions)), SlotCleared)
    decreases |actions|
  {
    if actions != [] {
      var a := actions[0];
      var s1 := if a.Other? then Step(s, a.a) else s;
      RunAfterClear(s1, actions[1..]);
      if a.Other? {
        assert Others(actions)[1..] == Others(actions[1..]);
      } else {
        assert Others(actions) == Others(actions[1..]);
      }
    }
  }

  lemma {:induction false} OthersOnly(actions: seq<Action>)
    ensures Others(seq(|actions|, i requires 0 <= i < |actions| => Other(actions[i]))) == actions
    decreases |actions|
  {
    var all := seq(|actions|, i requires 0 <= i < |actions| => Other(actions[i]));
    if actions != [] {
      OthersOnly(actions[1..]);
      assert all[1..] == seq(|actions[1..]|, i requires 0 <= i < |actions[1..]| => Other(actions[1..][i]));
      assert [actions[0]] + actions[1..] == actions;
    }
  }

  lemma MisfiresAfterClear(s: State)
    ensures Misfires(Roll(s, SlotCleared)) <==> CanMisfire(s)
  {
    if CanMisfire(s) {
      var actions :| !AbortsOk(Run(s, actions));
      var all := seq(|actions|, i requires 0 <= i < |actions| => Other(actions[i]));
      OthersOnly(actions);
      RunAfterClear(s, all);
      assert !AbortsOk(RollRun(Roll(s, SlotCleared), all).s);
    }
    if Misfires(Roll(s, SlotCleared)) {
      var all :| !AbortsOk(RollRun(Roll(s, SlotCleared), all).s);
      RunAfterClear(s, all);
    }
  }

  // --------------------------------------------------------- a rollback under way

  /** While the rollback is under way its turn keeps the slot. */
  predicate Rolling(x: Roll) {
    Ok(x.s) && x.s.unsent.Some? && !x.phase.SlotCleared?
  }

  lemma RollingSlot(x: Roll)
    requires Rolling(x)
    ensures x.s.active == x.s.unsent && x.s.slot.SlotFree? && x.s.unsent.value !in x.s.owed
    ensures !x.s.completion.Finishing? && !x.s.completion.Clearing?
  {
  }

  lemma RollingStep(x: Roll, b: Action)
    requires Rolling(x)
    ensures Rolling(RollStep(x, Other(b)))
  {
    StepKeeps(x.s, b);
    if !b.WriteSubmit? {
      UnsentStays(x.s, b);
    }
  }

  lemma UnsentStays(s: State, b: Action)
    requires Ok(s) && s.unsent.Some? && !b.WriteSubmit?
    ensures Step(s, b).unsent == s.unsent
  {
    if b.WorkerTake? { TakeFrame(s, b.accepted, b.st); }
  }

  lemma TakeFrame(s: State, accepted: bool, st: Snapshot)
    ensures Take(s, accepted, st).unsent == s.unsent
  {
  }

  lemma RollingFinish(x: Roll, ok: bool)
    requires Rolling(x) && x.phase.WriteFailed?
    ensures Rolling(RollStep(x, Finish(ok))) && RollStep(x, Finish(ok)).phase.FinishCalled?
  {
    CallsDoNotMatter(x.s, x.s.calls + [FinishTurn(x.s.unsent.value, ok)]);
  }

  lemma RollingAny(x: Roll, a: RollAction)
    requires Rolling(x) && !RollStep(x, a).phase.SlotCleared?
    ensures Rolling(RollStep(x, a))
  {
    if a.Other? {
      RollingStep(x, a.a);
    } else if a.Finish? && x.phase.WriteFailed? {
      RollingFinish(x, a.ok);
    }
  }

  /** Every run of a rollback that has not cleared the slot yet. */
  lemma {:induction false} RollingRun(x: Roll, actions: seq<RollAction>)
    requires Rolling(x) && !RollRun(x, actions).phase.SlotCleared?
    ensures Rolling(RollRun(x, actions))
    decreases |actions|
  {
    if actions != [] {
      if RollStep(x, actions[0]).phase.SlotCleared? {
        RunAfterClear(RollStep(x, actions[0]).s, actions[1..]);
      }
      RollingAny(x, actions[0]);
      RollingRun(RollStep(x, actions[0]), actions[1..]);
    }
  }

  // ------------------------------------------------------------ cancel isolation

  lemma {:induction false} DeadRoll(x: Roll, actions: seq<RollAction>)
    requires x.s.worker.Dead?
    ensures RollRun(x, actions).s.aborts == x.s.aborts
    decreases |actions|
  {
    if actions != [] {
      if actions[0].Other? { DeadStep(x.s, actions[0].a); }
      DeadRoll(RollStep(x, actions[0]), actions[1..]);
    }
  }

  lemma ClearDecides(x: Roll)
    requires Rolling(x) && x.phase.FinishCalled?
    ensures Misfires(RollStep(x, ClearSlot)) <==> CancelPending(x.s) && !x.s.worker.Dead?
  {
    RollingSlot(x);
    MisfiresAfterClear(Cleared(x.s));
    if CancelPending(x.s) && !x.s.worker.Dead? {
      PendingMisfires(x.s);
    } else {
      forall actions ensures AbortsOk(Run(Cleared(x.s), actions)) {
        ClearSafe(x.s, actions);
      }
    }
  }

  /** Whoever holds the completion lock lets go of it. */
  lemma LockComesFree(x: Roll) returns (a: Action)
    requires Rolling(x) && !x.s.completion.CompFree? && !CancelPending(x.s)
    ensures !a.WriteSubmit? && Step(x.s, a).completion.CompFree? && Step(x.s, a).worker == x.s.worker
  {
    RollingSlot(x);
    if x.s.completion.Cancelling? {
      a := DropCancel;
    } else {
      a := Deliver;
      DeliverFrees(x.s);
    }
  }

  lemma DeliverFrees(s: State)
    requires s.completion.Delivering?
    ensures Step(s, Deliver).completion.CompFree? && Step(s, Deliver).worker == s.worker && Step(s, Deliver).calls == s.calls
  {
  }

  /** A cancel that arrives before the slot is cleared is pending then. */
  lemma LateCancelMisfires(x: Roll)
    requires Rolling(x) && x.phase.FinishCalled? && !x.s.worker.Dead? && x.s.completion.CompFree?
    ensures Misfires(x)
  {
    RollingSlot(x);
    var x1 := RollStep(x, Other(BeginCancel(None)));
    assert CancelPending(x1.s) && x1.s.worker == x.s.worker && x1.phase == x.phase;
    RollingStep(x, BeginCancel(None));
    ClearDecides(x1);
    MisfiresBefore(x1, ClearSlot);
    MisfiresBefore(x, Other(BeginCancel(None)));
  }

  lemma FinishedMisfires(x: Roll)
    requires Rolling(x) && x.phase.FinishCalled? && !x.s.worker.Dead?
    ensures Misfires(x)
  {
    if CancelPending(x.s) {
      ClearDecides(x);
      MisfiresBefore(x, ClearSlot);
    } else if x.s.completion.CompFree? {
      LateCancelMisfires(x);
    } else {
      var a := LockComesFree(x);
      RollingStep(x, a);
      LateCancelMisfires(RollStep(x, Other(a)));
      MisfiresBefore(x, Other(a));
    }
  }

  /**
   When a submit's write fails, whoever holds the locks then: some continuation of the
   rollback aborts a turn with another turn's cancel exactly when the worker is alive.
   */
  lemma FailedWriteMisfiresIff(st: Snapshot, before: seq<Action>)
    requires Run(Started(st), before).unsent.Some?
    ensures var s := Run(Started(st), before);
            Misfires(Roll(s, WriteFailed)) <==> !s.worker.Dead?
  {
    RunKeeps(Started(st), before);
    var x := Roll(Run(Started(st), before), WriteFailed);
    if x.s.worker.Dead? {
      forall actions ensures AbortsOk(RollRun(x, actions).s) {
        DeadRoll(x, actions);
      }
    } else {
      RollingFinish(x, true);
      FinishedMisfires(RollStep(x, Finish(true)));
      MisfiresBefore(x, Finish(true));
    }
  }

  /**
   When the rollback clears the slot, whatever happened since the write failed: some
   continuation misfires exactly when the worker is alive and a canceller has read the
   slot and not yet written its line.  A canceller that has written is harmless.
   */
  lemma ClearMisfiresIff(st: Snapshot, before: seq<Action>, during: seq<RollAction>)
    requires Run(Started(st), before).unsent.Some?
    requires RollRun(Roll(Run(Started(st), before), WriteFailed), during).phase.FinishCalled?
    ensures var x := RollRun(Roll(Run(Started(st), before), WriteFailed), during);
            Misfires(RollStep(x, ClearSlot)) <==> CancelPending(x.s) && !x.s.worker.Dead?
  {
    RunKeeps(Started(st), before);
    RollingRun(Roll(Run(Started(st), before), WriteFailed), during);
    ClearDecides(RollRun(Roll(Run(Started(st), before), WriteFailed), during));
  }

  // -------------------------------------------------------- the backend's calls

  /** A call that the backend does not expect now. */
  lemma StrayCall(x: Roll, b: Action, c: Call)
    requires !b.WriteSubmit? && Step(x.s, b).calls == x.s.calls + [c] && Advance(TraceOf(x.s.calls), c).Refused?
    ensures Strays(x)
  {
    TraceAppend(x.s.calls, c);
    StraysNow(RollStep(x, Other(b)));
    StraysBefore(x, Other(b));
  }

  predicate SegmentOver(s: State) {
    TraceOf(s.calls).Between? || TraceOf(s.calls).Ending?
  }

  lemma CancellerStrays(x: Roll)
    requires x.s.completion.Cancelling? && SegmentOver(x.s)
    ensures Strays(x)
  {
    var t := x.s.completion.t;
    if x.s.completion.pc.CnBlock? {
      StrayCall(x, CancelTick(true), BlockTurn(t));
    } else if x.s.completion.pc.CnCancel? {
      StrayCall(x, CancelTick(true), CancelTurn(t));
    } else {
      var x1 := RollStep(x, Other(CancelTick(true)));
      assert x1.s.completion == Cancelling(t, CnCancel) && x1.s.calls == x.s.calls;
      StrayCall(x1, CancelTick(true), CancelTurn(t));
      StraysBefore(x, Other(CancelTick(true)));
    }
  }

  lemma UnfinishedStrays(x: Roll)
    requires x.s.slot.SlotFree? && x.s.active.None? && TraceOf(x.s.calls).Ending?
    ensures Strays(x)
  {
    var t := Unused(x.s.seen);
    var x1 := RollStep(x, Other(BeginSubmit(t)));
    assert x1.s.slot == Submitting(t) && x1.s.calls == x.s.calls;
    StrayCall(x1, EndBegin(true), BeginTurn(t, true));
    StraysBefore(x, Other(BeginSubmit(t)));
  }

  /** After the rollback's finish the segment is over, or waits for a finish that never
      comes. */
  lemma FinishEndsSegment(s: State, ok: bool)
    requires LocksOk(s) && TraceOk(s, TraceOf(s.calls)) && s.unsent.Some? && s.unsent == s.active && s.active.value !in s.owed
    ensures var s' := s.(calls := s.calls + [FinishTurn(s.unsent.value, ok)]);
            SegmentOver(s') && AfterFinish(s', TraceOf(s'.calls))
  {
    TraceAppend(s.calls, FinishTurn(s.unsent.value, ok));
  }

  /** What the backend has seen once the finish was called and the slot is not yet clear. */
  predicate AfterFinish(s: State, tr: Trace) {
    tr.Between? ==> tr.done <= s.seen && s.owed.Keys <= tr.done
  }

  /** A cancel that arrives before the slot is cleared calls the backend for a turn that
      is over. */
  lemma LateCancelStrays(x: Roll)
    requires Rolling(x) && SegmentOver(x.s) && x.s.completion.CompFree?
    ensures Strays(x)
  {
    RollingSlot(x);
    var x1 := RollStep(x, Other(BeginCancel(None)));
    assert x1.s.completion.Cancelling? && x1.s.calls == x.s.calls;
    CancellerStrays(x1);
    StraysBefore(x, Other(BeginCancel(None)));
  }

  lemma FinishedStrays(x: Roll)
    requires Rolling(x) && SegmentOver(x.s)
    ensures Strays(x)
  {
    RollingSlot(x);
    if x.s.completion.CompFree? {
      LateCancelStrays(x);
    } else if x.s.completion.Cancelling? {
      CancellerStrays(x);
    } else {
      var x1 := RollStep(x, Other(Deliver));
      DeliverFrees(x.s);
      RollingStep(x, Deliver);
      LateCancelStrays(x1);
      StraysBefore(x, Other(Deliver));
    }
  }

  /** When a submit's write fails, some continuation always calls the backend outside a
      turn segment: a cancel between the rollback's two awaits is enough. */
  lemma FailedWriteStrays(st: Snapshot, before: seq<Action>)
    requires Run(Started(st), before).unsent.Some?
    ensures Strays(Roll(Run(Started(st), before), WriteFailed))
  {
    RunKeeps(Started(st), before);
    RunKeepsTrace(Started(st), before);
    var x := Roll(Run(Started(st), before), WriteFailed);
    RollingSlot(x);
    RollingFinish(x, true);
    FinishEndsSegment(x.s, true);
    FinishedStrays(RollStep(x, Finish(true)));
    StraysBefore(x, Finish(true));
  }

  // ------------------------------------------------------ the calls, from the clear on

  /** The backend's view of a rollback under way. */
  predicate RollTrace(x: Roll) {
    var tr := TraceOf(x.s.calls);
    if x.phase.WriteFailed? then TraceOk(x.s, tr) else AfterFinish(x.s, tr) && !tr.Open? && !tr.Blocked?
  }

  /** Beside a rollback only cancellers call the backend. */
  lemma FinishedFrame(x: Roll, b: Action)
    requires Rolling(x) && !b.WriteSubmit? && !b.CancelTick?
    ensures var s' := Step(x.s, b);
            s'.calls == x.s.calls && s'.owed.Keys == x.s.owed.Keys && x.s.seen <= s'.seen
  {
    RollingSlot(x);
    if b.Read? {
      ReadView(x.s);
    } else if !(b.BeginSubmit? || b.EndBegin? || b.BeginCancel? || b.DropCancel? || b.BeginLoad? || b.WriteLoad?
                || b.StoreLoad? || b.SendAnswer? || b.Forward? || b.FinishTick? || b.Clear? || b.Deliver?) {
      WorkerView(x.s, b);
    }
  }

  lemma FinishedStep(x: Roll, b: Action)
    requires Rolling(x) && x.phase.FinishCalled? && RollTrace(x)
    ensures RollTrace(RollStep(x, Other(b)))
  {
    if b.CancelTick? {
      CancelAfterFinish(x, b.ok);
    } else if !b.WriteSubmit? {
      FinishedFrame(x, b);
    }
  }

  lemma CancelAfterFinish(x: Roll, ok: bool)
    requires x.phase.FinishCalled? && RollTrace(x)
    ensures RollTrace(RollStep(x, Other(CancelTick(ok))))
  {
    if x.s.completion.Cancelling? {
      TraceAppend(x.s.calls, BlockTurn(x.s.completion.t));
      TraceAppend(x.s.calls, CancelTurn(x.s.completion.t));
    }
  }

  lemma RollTraceStep(x: Roll, a: RollAction)
    requires Rolling(x) && RollTrace(x) && !RollStep(x, a).phase.SlotCleared?
    ensures RollTrace(RollStep(x, a))
  {
    if a.Other? {
      if x.phase.WriteFailed? {
        StepKeepsTrace(x.s, a.a);
      } else {
        FinishedStep(x, a.a);
      }
    } else if a.Finish? && x.phase.WriteFailed? {
      RollingSlot(x);
      FinishEndsSegment(x.s, a.ok);
    }
  }

  lemma {:induction false} RollTraceRun(x: Roll, actions: seq<RollAction>)
    requires Rolling(x) && RollTrace(x) && !RollRun(x, actions).phase.SlotCleared?
    ensures Rolling(RollRun(x, actions)) && RollTrace(RollRun(x, actions))
    decreases |actions|
  {
    if actions != [] {
      if RollStep(x, actions[0]).phase.SlotCleared? {
        RunAfterClear(RollStep(x, actions[0]).s, actions[1..]);
      }
      RollingAny(x, actions[0]);
      RollTraceStep(x, actions[0]);
      RollTraceRun(RollStep(x, actions[0]), actions[1..]);
    }
  }

  lemma NeverStrays(s: State)
    requires Ok(s) && TraceOk(s, TraceOf(s.calls))
    ensures !Strays(Roll(s, SlotCleared))
  {
    forall actions ensures !TraceOf(RollRun(Roll(s, SlotCleared), actions).s.calls).Refused? {
      RunAfterClear(s, actions);
      RunKeepsTrace(s, Others(actions));
    }
  }

  lemma ClearStraysIf(x: Roll)
    requires Rolling(x) && x.phase.FinishCalled? && RollTrace(x)
    ensures Strays(RollStep(x, ClearSlot)) <==> !TraceOf(x.s.calls).Between? || x.s.completion.Cancelling?
  {
    RollingSlot(x);
    var x1 := RollStep(x, ClearSlot);
    assert x1 == Roll(Cleared(x.s), SlotCleared);
    if TraceOf(x.s.calls).Refused? {
      StraysNow(x1);
    } else if TraceOf(x.s.calls).Ending? {
      UnfinishedStrays(x1);
    } else if x.s.completion.Cancelling? {
      CancellerStrays(x1);
    } else {
      ClearKeeps(x.s);
      NeverStrays(Cleared(x.s));
    }
  }

  /**
   When the rollback clears the slot, whatever happened since the write failed: some
   continuation calls the backend outside a turn segment exactly when one has done so
   already, the finish failed, or a canceller holds the completion lock.
   */
  lemma ClearStraysIff(st: Snapshot, before: seq<Action>, during: seq<RollAction>)
    requires Run(Started(st), before).unsent.Some?
    requires RollRun(Roll(Run(Started(st), before), WriteFailed), during).phase.FinishCalled?
    ensures var x := RollRun(Roll(Run(Started(st), before), WriteFailed), during);
            Strays(RollStep(x, ClearSlot)) <==> !TraceOf(x.s.calls).Between? || x.s.completion.Cancelling?
  {
    RunKeeps(Started(st), before);
    RunKeepsTrace(Started(st), before);
    RollTraceRun(Roll(Run(Started(st), before), WriteFailed), during);
    ClearStraysIf(RollRun(Roll(Run(Started(st), before), WriteFailed), during));
  }

  // --------------------------------------------------------------- the shortest run

  /** Turn 0 has begun, its line fails, and nobody cancels it yet. */
  lemma ShortestFailure()
    ensures var s := Run(Started(0), [BeginSubmit(0), EndBegin(true)]);
            s.unsent == Some(0) && s.active == Some(0) && s.completion.CompFree? && s.slot.SlotFree? && s.worker.Waiting?
            && s.calls == [BeginTurn(0, true)]
  {
    var s1 := Step(Started(0), BeginSubmit(0));
    assert [BeginSubmit(0), EndBegin(true)][1..] == [EndBegin(true)];
    assert Run(s1, [EndBegin(true)]) == Step(s1, EndBegin(true));
  }

  /** A cancel between the rollback's finish and its clear: the turn is blocked after its
      finish, and once the slot is clear the cancel can abort the next turn. */
  lemma CancelBetweenFinishAndClear()
    ensures var x := Roll(Run(Started(0), [BeginSubmit(0), EndBegin(true)]), WriteFailed);
            var x1 := RollStep(RollStep(RollStep(x, Finish(true)), Other(BeginCancel(None))), Other(CancelTick(true)));
            TraceOf(x1.s.calls).Refused? && Misfires(RollStep(x1, ClearSlot))
  {
    ShortestFailure();
    RunKeeps(Started(0), [BeginSubmit(0), EndBegin(true)]);
    var x := Roll(Run(Started(0), [BeginSubmit(0), EndBegin(true)]), WriteFailed);
    RollingFinish(x, true);
    var y := RollStep(x, Finish(true));
    RollingStep(y, BeginCancel(None));
    var z := RollStep(y, Other(BeginCancel(None)));
    assert z.s.completion == Cancelling(0, CnBlock) && z.s.calls == [BeginTurn(0, true), FinishTurn(0, true)];
    RollingStep(z, CancelTick(true));
    var x1 := RollStep(z, Other(CancelTick(true)));
    assert x1.s.completion == Cancelling(0, CnWrite) && x1.s.calls == z.s.calls + [BlockTurn(0)] && x1.s.worker.Waiting?;
    FinishedTrace();
    TraceAppend(z.s.calls, BlockTurn(0));
    ClearDecides(x1);
  }

  lemma FinishedTrace()
    ensures TraceOf([BeginTurn(0, true), FinishTurn(0, true)]).Between?
  {
    TraceAppend([], BeginTurn(0, true));
    TraceAppend([BeginTurn(0, true)], FinishTurn(0, true));
    assert [] + [BeginTurn(0, true)] == [BeginTurn(0, true)];
    assert [BeginTurn(0, true)] + [FinishTurn(0, true)] == [BeginTurn(0, true), FinishTurn(0, true)];
  }
}
