/**
 Pi workers under the cancel watchdog and lazy restart.  Every instance has its own
 `current_turn` and `completion` lock; the registry is shared and `lifecycle`
 serialises restarts with stops.  Submitters may hold an instance that was replaced
 or stopped since they looked it up.  Submit's rollback paths are not steps here.
 */
module PiLifecycle {
  import opened Options

  type RuntimeId = nat
  type InstanceId = nat
  type Turn = nat

  /** The holder of an instance's `completion` lock. */
  datatype Completion = CompFree | Cancelling(t: Turn) | Finishing(t: Turn) | Killing(t: Turn)

  /** `reading` is the turn whose reader task runs. */
  datatype Instance = Instance(alive: bool, current: Option<Turn>, reading: Option<Turn>, completion: Completion,
                               forceKilled: Option<Turn>)

  const Fresh := Instance(true, None, None, CompFree, None)

  /** The holder of `lifecycle`: `ensure_live_instance` past its re-check of the
      registry, past its re-check of liveness, or in `restart_instance`; or `stop`. */
  datatype Lifecycle =
    | LifeFree
    | Checking(r: RuntimeId, stale: InstanceId)
    | FoundDead(r: RuntimeId, stale: InstanceId)
    | Restarting(r: RuntimeId, stale: InstanceId)
    | Stopping(stale: InstanceId)

  datatype Watchdog = Watchdog(i: InstanceId, t: Turn)

  /** A forced kill: who was watched and what the instance was running then. */
  datatype Kill = Kill(i: InstanceId, watched: Turn, current: Option<Turn>)

  /** A decision to restart, with what held at that moment: the runtime's registered
      instance, and whether the stale one was alive or had a turn. */
  datatype Restart = Restart(r: RuntimeId, stale: InstanceId, registered: Option<InstanceId>, alive: bool, current: Option<Turn>)

  datatype State = State(
    registry: map<RuntimeId, InstanceId>,
    instances: map<InstanceId, Instance>,
    starting: multiset<RuntimeId>,   // starts past their registry check, not yet inserted
    lifecycle: Lifecycle,
    watchdogs: set<Watchdog>,
    exits: set<Watchdog>,       // readers past their loop, about to run the final clear
    turns: set<Turn>,
    kills: seq<Kill>,
    restarts: seq<Restart>)

  const Initial := State(map[], map[], multiset{}, LifeFree, {}, {}, {}, [], [])

  datatype Action =
    | CheckStart(r: RuntimeId) | Start(r: RuntimeId, i: InstanceId)
    | Claim(i: InstanceId, t: Turn) | SendTurn(i: InstanceId)
    | Cancel(i: InstanceId, wanted: Option<Turn>) | ArmWatchdog(i: InstanceId)
    | Terminal(i: InstanceId) | FinishTick(i: InstanceId, ok: bool) | ReaderExit(i: InstanceId, t: Turn)
    | Expire(i: InstanceId, t: Turn) | KillWorker(i: InstanceId) | WatchdogLeaves(i: InstanceId, t: Turn)
    | WorkerDies(i: InstanceId)
    | EnsureLive(r: RuntimeId) | CheckAlive | CheckTurn | Replace(i: InstanceId) | RestartFails
    | Stop(r: RuntimeId) | StopDone

  function Put(s: State, i: InstanceId, inst: Instance): State {
    s.(instances := s.instances[i := inst])
  }

  /** Submit, cancel, reader and watchdog steps, all on one instance. */
  function StepInstance(s: State, i: InstanceId, a: Action): State
    requires i in s.instances
  {
    var x := s.instances[i];
    match a
    case Claim(_, t) =>
      // A rejected submit has forgotten the forced kill all the same.
      if t in s.turns then s
      else if x.current.Some? then Put(s, i, x.(forceKilled := None))
      else Put(s, i, x.(current := Some(t), forceKilled := None)).(turns := s.turns + {t})
    case SendTurn(_) =>
      if x.current.Some? && x.reading.None? && x.alive then Put(s, i, x.(reading := x.current)) else s
    case Cancel(_, wanted) =>
      if x.completion.CompFree? && x.current.Some? && (wanted.None? || wanted == x.current) then
        Put(s, i, x.(completion := Cancelling(x.current.value)))
      else s
    case ArmWatchdog(_) =>
      if !x.completion.Cancelling? then s
      else Put(s, i, x.(completion := CompFree)).(watchdogs := s.watchdogs + {Watchdog(i, x.completion.t)})
    case Terminal(_) =>
      if x.reading.Some? && x.completion.CompFree? then Put(s, i, x.(completion := Finishing(x.reading.value))) else s
    case FinishTick(_, ok) =>
      if !x.completion.Finishing? || !ok then s
      else
        var t := x.completion.t;
        Put(s, i, x.(completion := CompFree, reading := None, current := if x.current == Some(t) then None else x.current))
        .(exits := s.exits + {Watchdog(i, t)})
    case ReaderExit(_, t) =>
      // The clear after the read loop takes no lock.
      if Watchdog(i, t) !in s.exits then s
      else Put(s, i, x.(current := if x.current == Some(t) then None else x.current)).(exits := s.exits - {Watchdog(i, t)})
    case Expire(_, t) =>
      if Watchdog(i, t) !in s.watchdogs || !x.completion.CompFree? then s
      else
        var s1 := s.(watchdogs := s.watchdogs - {Watchdog(i, t)});
        if x.current == Some(t) then Put(s1, i, x.(completion := Killing(t))) else s1
    case KillWorker(_) =>
      if !x.completion.Killing? then s
      else if !x.alive then Put(s, i, x.(completion := CompFree))
      else
        Put(s, i, x.(completion := CompFree, alive := false, forceKilled := Some(x.completion.t)))
        .(kills := s.kills + [Kill(i, x.completion.t, x.current)])
    case WatchdogLeaves(_, t) => s.(watchdogs := s.watchdogs - {Watchdog(i, t)})
    case WorkerDies(_) => Put(s, i, x.(alive := false))
    case _ => s
  }

  /** `a` is a start of `r` that passed its check and now inserts a new instance. */
  predicate Inserts(s: State, a: Action, r: RuntimeId) {
    a.Start? && a.r == r && r in s.starting && a.i !in s.instances
  }

  function Registered(s: State, r: RuntimeId): Option<InstanceId> {
    if r in s.registry then Some(s.registry[r]) else None
  }

  function StepLifecycle(s: State, a: Action): State {
    match a
    case CheckStart(r) =>
      if r in s.registry then s else s.(starting := s.starting + multiset{r})
    case Start(r, i) =>
      // The insert takes no `lifecycle` lock and does not look again.
      if !Inserts(s, a, r) then s
      else Put(s, i, Fresh).(registry := s.registry[r := i], starting := s.starting - multiset{r})
    case EnsureLive(r) =>
      if s.lifecycle.LifeFree? && r in s.registry then s.(lifecycle := Checking(r, s.registry[r])) else s
    case CheckAlive =>
      if !s.lifecycle.Checking? || s.lifecycle.stale !in s.instances then s
      else if s.instances[s.lifecycle.stale].alive then s.(lifecycle := LifeFree)
      else s.(lifecycle := FoundDead(s.lifecycle.r, s.lifecycle.stale))
    case CheckTurn =>
      if !s.lifecycle.FoundDead? || s.lifecycle.stale !in s.instances then s
      else
        var r, i := s.lifecycle.r, s.lifecycle.stale;
        if s.instances[i].current.Some? then s.(lifecycle := LifeFree)
        else s.(lifecycle := Restarting(r, i),
                restarts := s.restarts + [Restart(r, i, Registered(s, r), s.instances[i].alive, s.instances[i].current)])
    case Replace(i) =>
      if !s.lifecycle.Restarting? || i in s.instances then s
      else Put(s, i, Fresh).(registry := s.registry[s.lifecycle.r := i], lifecycle := LifeFree)
    case RestartFails =>
      if s.lifecycle.Restarting? then s.(lifecycle := LifeFree) else s
    case Stop(r) =>
      if !s.lifecycle.LifeFree? || r !in s.registry then s
      else s.(registry := s.registry - {r}, lifecycle := Stopping(s.registry[r]))
    case StopDone =>
      if !s.lifecycle.Stopping? then s
      else
        var i := s.lifecycle.stale;
        var s1 := s.(lifecycle := LifeFree);
        if i in s.instances then Put(s1, i, s.instances[i].(alive := false)) else s1
    case _ => s
  }

  /** The instance an action works on, if it is one of `StepInstance`. */
  function On(a: Action): Option<InstanceId> {
    match a
    case Claim(i, _) => Some(i)
    case SendTurn(i) => Some(i)
    case Cancel(i, _) => Some(i)
    case ArmWatchdog(i) => Some(i)
    case Terminal(i) => Some(i)
    case FinishTick(i, _) => Some(i)
    case ReaderExit(i, _) => Some(i)
    case Expire(i, _) => Some(i)
    case KillWorker(i) => Some(i)
    case WatchdogLeaves(i, _) => Some(i)
    case WorkerDies(i) => Some(i)
    case _ => None
  }

  function Step(s: State, a: Action): State {
    if On(a).None? then StepLifecycle(s, a)
    else if On(a).value in s.instances then StepInstance(s, On(a).value, a)
    else s
  }

  function Run(s: State, actions: seq<Action>): State
    decreases |actions|
  {
    if actions == [] then s else Run(Step(s, actions[0]), actions[1..])
  }

  // -------------------------------------------------------------- invariant

  /** Whoever holds the completion lock works on the instance's current turn. */
  predicate InstanceOk(x: Instance) {
    && (!x.completion.CompFree? ==> x.current == Some(x.completion.t))
    && (x.completion.Finishing? ==> x.reading == Some(x.completion.t))
    && (x.reading.Some? ==> x.reading == x.current)
  }

  predicate InstancesOk(s: State) {
    forall i :: i in s.instances ==>
                  InstanceOk(s.instances[i]) && (s.instances[i].current.Some? ==> s.instances[i].current.value in s.turns)
  }

  /** A reader past its loop finds its turn gone already. */
  predicate ExitsOk(s: State) {
    forall e :: e in s.exits ==> e.t in s.turns && (e.i in s.instances ==> s.instances[e.i].current != Some(e.t))
  }

  predicate LifecycleOk(s: State) {
    && (s.lifecycle.Checking? || s.lifecycle.FoundDead? || s.lifecycle.Restarting? ==>
          s.lifecycle.r in s.registry && s.lifecycle.stale in s.instances)
    && (s.lifecycle.FoundDead? || s.lifecycle.Restarting? ==> !s.instances[s.lifecycle.stale].alive)
    && (forall r :: r in s.registry ==> s.registry[r] in s.instances)
  }

  predicate KillsOk(kills: seq<Kill>) {
    forall k :: 0 <= k < |kills| ==> kills[k].current == Some(kills[k].watched)
  }

  predicate RestartsOk(restarts: seq<Restart>) {
    forall k :: 0 <= k < |restarts| ==> restarts[k].registered.Some? && !restarts[k].alive && restarts[k].current.None?
  }

  predicate Ok(s: State) {
    InstancesOk(s) && ExitsOk(s) && LifecycleOk(s) && KillsOk(s.kills) && RestartsOk(s.restarts)
  }

  lemma InstanceStepKeeps(s: State, i: InstanceId, a: Action)
    requires Ok(s) && i in s.instances
    ensures InstancesOk(StepInstance(s, i, a)) && ExitsOk(StepInstance(s, i, a))
  {
    assert InstanceOk(s.instances[i]);
  }

  lemma InstanceStepLogs(s: State, i: InstanceId, a: Action)
    requires Ok(s) && i in s.instances
    ensures LifecycleOk(StepInstance(s, i, a))
    ensures KillsOk(StepInstance(s, i, a).kills) && RestartsOk(StepInstance(s, i, a).restarts)
  {
    assert InstanceOk(s.instances[i]);
  }

  /** A new instance takes a runtime's entry. */
  lemma InsertKeeps(s: State, s': State, r: RuntimeId, i: InstanceId)
    requires Ok(s) && i !in s.instances
    requires s' == Put(s, i, Fresh).(registry := s.registry[r := i], starting := s'.starting, lifecycle := s'.lifecycle)
    requires s'.lifecycle == s.lifecycle || s'.lifecycle.LifeFree?
    ensures Ok(s')
  {
  }

  lemma CheckKeeps(s: State, a: Action)
    requires Ok(s) && (a.CheckAlive? || a.CheckTurn?)
    ensures Ok(StepLifecycle(s, a))
  {
    assert StepLifecycle(s, a).instances == s.instances;
  }

  lemma StopKeeps(s: State, a: Action)
    requires Ok(s) && (a.Stop? || a.StopDone?)
    ensures Ok(StepLifecycle(s, a))
  {
  }

  lemma LifecycleStepKeeps(s: State, a: Action)
    requires Ok(s)
    ensures Ok(StepLifecycle(s, a))
  {
    if a.CheckAlive? || a.CheckTurn? {
      CheckKeeps(s, a);
    } else if a.Stop? || a.StopDone? {
      StopKeeps(s, a);
    } else if a.Start? {
      if Inserts(s, a, a.r) { InsertKeeps(s, StepLifecycle(s, a), a.r, a.i); }
    } else if a.Replace? {
      if s.lifecycle.Restarting? && a.i !in s.instances { InsertKeeps(s, StepLifecycle(s, a), s.lifecycle.r, a.i); }
    } else {
      assert StepLifecycle(s, a).instances == s.instances && StepLifecycle(s, a).restarts == s.restarts;
    }
  }

  lemma StepKeeps(s: State, a: Action)
    requires Ok(s)
    ensures Ok(Step(s, a))
  {
    if On(a).None? {
      LifecycleStepKeeps(s, a);
    } else if On(a).value in s.instances {
      InstanceStepKeeps(s, On(a).value, a);
      InstanceStepLogs(s, On(a).value, a);
    }
  }

  lemma {:induction false} RunKeeps(s: State, actions: seq<Action>)
    requires Ok(s)
    ensures Ok(Run(s, actions))
    decreases |actions|
  {
    if actions != [] {
      StepKeeps(s, actions[0]);
      RunKeeps(Step(s, actions[0]), actions[1..]);
    }
  }

  // ----------------------------------------------------------- main theorems

  /** In every run the watchdog kills a worker only while the turn it was armed for
      is still that instance's current turn. */
  lemma KillsOnlyWatchedTurn(actions: seq<Action>)
    ensures var kills := Run(Initial, actions).kills;
            forall k :: 0 <= k < |kills| ==> kills[k].current == Some(kills[k].watched)
  {
    RunKeeps(Initial, actions);
  }

  /** In every run a restart is decided only for a runtime that is registered, and for an
      instance of it that is dead and has no current turn. */
  lemma RestartsOnlyIdleDead(actions: seq<Action>)
    ensures var restarts := Run(Initial, actions).restarts;
            forall k :: 0 <= k < |restarts| ==> restarts[k].registered.Some? && !restarts[k].alive && restarts[k].current.None?
  {
    RunKeeps(Initial, actions);
  }

  // --------------------------------------- whose instance a restart is decided for

  /** `ensure_live_instance` holds the lock for `r`, past its re-check of the registry. */
  predicate Held(s: State, r: RuntimeId, stale: InstanceId) {
    s.lifecycle == Checking(r, stale) || s.lifecycle == FoundDead(r, stale) || s.lifecycle == Restarting(r, stale)
  }

  /** The same one holds it all along. */
  predicate Holding(s: State, actions: seq<Action>, r: RuntimeId, stale: InstanceId)
    decreases |actions|
  {
    && Held(s, r, stale)
    && (actions != [] ==> Holding(Step(s, actions[0]), actions[1..], r, stale))
  }

  predicate InsertedIn(s: State, actions: seq<Action>, r: RuntimeId)
    decreases |actions|
  {
    actions != [] && (Inserts(s, actions[0], r) || InsertedIn(Step(s, actions[0]), actions[1..], r))
  }

  /** While the lock is held only a start's insert changes the runtime's entry. */
  lemma EntryStep(s: State, a: Action, r: RuntimeId, stale: InstanceId)
    requires Held(s, r, stale) && Held(Step(s, a), r, stale)
    ensures Registered(Step(s, a), r) == if Inserts(s, a, r) then Some(a.i) else Registered(s, r)
  {
  }

  lemma {:induction false} EntryIff(s: State, actions: seq<Action>, r: RuntimeId, stale: InstanceId)
    requires Ok(s) && Holding(s, actions, r, stale)
    ensures Registered(Run(s, actions), r) == Some(stale) <==> Registered(s, r) == Some(stale) && !InsertedIn(s, actions, r)
    decreases |actions|
  {
    if actions != [] {
      var a := actions[0];
      StepKeeps(s, a);
      EntryStep(s, a, r, stale);
      EntryIff(Step(s, a), actions[1..], r, stale);
      assert stale in s.instances;
    }
  }

  /** The decision, and what it records. */
  lemma Decision(s: State, r: RuntimeId, stale: InstanceId)
    requires Ok(s) && s.lifecycle == FoundDead(r, stale) && s.instances[stale].current.None?
    ensures Step(s, CheckTurn).lifecycle == Restarting(r, stale)
    ensures Step(s, CheckTurn).restarts == s.restarts + [Restart(r, stale, Registered(s, r), false, None)]
  {
  }

  /** The check decides to restart: the worker is dead and its instance has no turn. */
  predicate Decides(s: State) {
    s.lifecycle.FoundDead? && s.lifecycle.stale in s.instances && s.instances[s.lifecycle.stale].current.None?
  }

  lemma DecisionIff(s: State, during: seq<Action>, r: RuntimeId, stale: InstanceId)
    requires Ok(s) && Registered(s, r) == Some(stale) && Holding(s, during, r, stale) && Decides(Run(s, during))
    ensures exists registered ::
              && Step(Run(s, during), CheckTurn).restarts
                 == Run(s, during).restarts + [Restart(r, stale, registered, false, None)]
              && (registered == Some(stale) <==> !InsertedIn(s, during, r))
  {
    RunKeeps(s, during);
    EntryIff(s, during, r, stale);
    HoldingEnd(s, during, r, stale);
    Decision(Run(s, during), r, stale);
  }

  /**
   Whatever happens between the re-check under the lock and the decision, the restart is
   decided for the registered instance exactly when no start of that runtime inserted
   one in between.
   */
  lemma RestartsRegisteredIff(before: seq<Action>, during: seq<Action>, r: RuntimeId)
    requires var s := Run(Initial, before);
             && s.lifecycle.LifeFree? && r in s.registry
             && Holding(Step(s, EnsureLive(r)), during, r, s.registry[r])
             && Decides(Run(Step(s, EnsureLive(r)), during))
    ensures var stale := Run(Initial, before).registry[r];
            var s1 := Step(Run(Initial, before), EnsureLive(r));
            exists registered ::
              && Step(Run(s1, during), CheckTurn).restarts
                 == Run(s1, during).restarts + [Restart(r, stale, registered, false, None)]
              && (registered == Some(stale) <==> !InsertedIn(s1, during, r))
  {
    var s := Run(Initial, before);
    RunKeeps(Initial, before);
    StepKeeps(s, EnsureLive(r));
    DecisionIff(Step(s, EnsureLive(r)), during, r, s.registry[r]);
  }

  /**
   Whatever happens between the re-check and the restart's own insert, before or after the
   decision: the insert takes the entry of another instance than the stale one exactly
   when a start of that runtime inserted one in between.
   */
  lemma ReplaceTakesOtherIff(before: seq<Action>, during: seq<Action>, r: RuntimeId, i: InstanceId)
    requires var s := Run(Initial, before);
             && s.lifecycle.LifeFree? && r in s.registry
             && Holding(Step(s, EnsureLive(r)), during, r, s.registry[r])
             && Run(Step(s, EnsureLive(r)), during).lifecycle.Restarting?
             && i !in Run(Step(s, EnsureLive(r)), during).instances
    ensures var stale := Run(Initial, before).registry[r];
            var s1 := Step(Run(Initial, before), EnsureLive(r));
            var s2 := Run(s1, during);
            && r in s2.registry && Registered(Step(s2, Replace(i)), r) == Some(i)
            && (s2.registry[r] != stale <==> InsertedIn(s1, during, r))
  {
    var s := Run(Initial, before);
    RunKeeps(Initial, before);
    StepKeeps(s, EnsureLive(r));
    ReplaceIff(Step(s, EnsureLive(r)), during, r, s.registry[r], i);
  }

  lemma ReplaceIff(s: State, during: seq<Action>, r: RuntimeId, stale: InstanceId, i: InstanceId)
    requires Ok(s) && Registered(s, r) == Some(stale) && Holding(s, during, r, stale)
    requires Run(s, during).lifecycle.Restarting? && i !in Run(s, during).instances
    ensures var s2 := Run(s, during);
            && r in s2.registry && Registered(Step(s2, Replace(i)), r) == Some(i)
            && (s2.registry[r] != stale <==> InsertedIn(s, during, r))
  {
    RunKeeps(s, during);
    EntryIff(s, during, r, stale);
    HoldingEnd(s, during, r, stale);
  }

  lemma {:induction false} HoldingEnd(s: State, actions: seq<Action>, r: RuntimeId, stale: InstanceId)
    requires Holding(s, actions, r, stale)
    ensures Held(Run(s, actions), r, stale)
    decreases |actions|
  {
    if actions != [] {
      HoldingEnd(Step(s, actions[0]), actions[1..], r, stale);
    }
  }

  const Dead := Fresh.(alive := false)

  /** Two starts of runtime 0 pass their checks, and the first inserts. */
  lemma RaceStarts()
    ensures Step(Step(Step(Initial, CheckStart(0)), CheckStart(0)), Start(0, 0))
            == State(map[0 := 0], map[0 := Fresh], multiset{0}, LifeFree, {}, {}, {}, [], [])
  {
    assert Step(Initial, CheckStart(0)) == Initial.(starting := multiset{0});
    assert multiset{0} + multiset{0} - multiset{0} == multiset{0};
  }

  /** The first one's worker dies, and a submitter finds it dead. */
  lemma RaceFinds()
    ensures var s := State(map[0 := 0], map[0 := Fresh], multiset{0}, LifeFree, {}, {}, {}, [], []);
            Step(Step(Step(s, WorkerDies(0)), EnsureLive(0)), CheckAlive)
            == State(map[0 := 0], map[0 := Dead], multiset{0}, FoundDead(0, 0), {}, {}, {}, [], [])
  {
    var s := State(map[0 := 0], map[0 := Fresh], multiset{0}, LifeFree, {}, {}, {}, [], []);
    var s1 := Step(s, WorkerDies(0));
    assert s1 == s.(instances := map[0 := Dead]);
    assert Step(s1, EnsureLive(0)) == s1.(lifecycle := Checking(0, 0));
  }

  /** The second start inserts a live worker before the decision; the restart then takes
      its entry. */
  lemma RestartReplacesLiveInstance()
    ensures var s := State(map[0 := 0], map[0 := Dead], multiset{0}, FoundDead(0, 0), {}, {}, {}, [], []);
            var decided := Step(Step(s, Start(0, 1)), CheckTurn);
            var replaced := Step(decided, Replace(2));
            && decided.lifecycle == Restarting(0, 0) && decided.registry == map[0 := 1]
            && replaced.registry == map[0 := 2] && replaced.instances == map[0 := Dead, 1 := Fresh, 2 := Fresh]
  {
    var s := State(map[0 := 0], map[0 := Dead], multiset{0}, FoundDead(0, 0), {}, {}, {}, [], []);
    var s1 := Step(s, Start(0, 1));
    assert s1 == State(map[0 := 1], map[0 := Dead, 1 := Fresh], multiset{}, FoundDead(0, 0), {}, {}, {}, [], []);
  }

  lemma {:induction false} AbsentStaysAbsent(s: State, actions: seq<Action>, r: RuntimeId)
    requires Ok(s) && r !in s.registry
    requires forall k :: 0 <= k < |actions| ==> !(actions[k].Start? && actions[k].r == r)
    ensures r !in Run(s, actions).registry
    decreases |actions|
  {
    if actions != [] {
      StepKeeps(s, actions[0]);
      assert r !in Step(s, actions[0]).registry;
      AbsentStaysAbsent(Step(s, actions[0]), actions[1..], r);
    }
  }

  lemma StopRemoves(s: State, r: RuntimeId)
    requires s.lifecycle.LifeFree? && r in s.registry
    ensures r !in Step(s, Stop(r)).registry
  {
  }

  /** Once `stop` has removed a runtime, no restart that was under way or comes later
      registers it again; only a `start` does, a new one or one past its check. */
  lemma StopIsFinal(before: seq<Action>, after: seq<Action>, r: RuntimeId)
    requires var s := Run(Initial, before); s.lifecycle.LifeFree? && r in s.registry
    requires forall k :: 0 <= k < |after| ==> !(after[k].Start? && after[k].r == r)
    ensures r !in Run(Step(Run(Initial, before), Stop(r)), after).registry
  {
    RunKeeps(Initial, before);
    StepKeeps(Run(Initial, before), Stop(r));
    StopRemoves(Run(Initial, before), r);
    AbsentStaysAbsent(Step(Run(Initial, before), Stop(r)), after, r);
  }
}
