/**
 Who can still be published from.  A session's provider is fixed with its row, and what a
 process has registered is fixed until it restarts: the same lookup that lets `close`
 destroy an instance lets checkpoint and fork reach it.
 */
module SnapshotPublication {
  import opened Options
  import opened NewIds
  import opened SnapshotWorld
  import opened SnapshotProtocol
  import opened SnapshotSafety
  import opened SnapshotOutcomes

  // ------------------------------------------------------- what resolves stays so

  /** Every session row names a provider, and only given-out runtime ids do. */
  predicate NamesOk(s: State) {
    && s.w.sessions.Keys <= s.cfg.providers.Keys <= s.w.known
    && (s.txn.Loading? ==> s.txn.r in s.cfg.providers)
    && (s.txn.Forking? ==> s.txn.r in s.cfg.providers)
  }

  /** A fork that has reached its source's instance manager. */
  predicate Reached(fk: ForkPc) {
    !fk.FkIntent? && !fk.FkExport? && !fk.FkHistory? && !fk.FkUndoHistory? && !fk.FkUndoInstance?
  }

  /** A checkpoint, and a fork past its snapshot, resolved the source's provider. */
  predicate SourceServed(s: State) {
    && (s.txn.Checkpointing? ==> Resolves(s.cfg, s.txn.source))
    && (s.txn.Forking? && s.txn.body.provider.Some? ==> Resolves(s.cfg, s.txn.source))
    && (s.txn.Forking? && Reached(s.txn.fk) ==> s.txn.body.provider.Some?)
  }

  /** No checkpoint or fork of this process can publish from `r`. */
  predicate Barred(s: State, r: RuntimeId) {
    r in s.w.sessions && r in s.cfg.providers && (r !in s.w.instances || !Resolves(s.cfg, r))
  }

  /** A close about to write its row has destroyed the instance, or cannot reach it. */
  predicate CloseOk(s: State) {
    s.pub.PubClosed? ==> Barred(s, s.pub.closing)
  }

  predicate ProviderOk(s: State) {
    NamesOk(s) && SourceServed(s) && CloseOk(s)
  }

  lemma CheckpointConfig(s: State, o: Outcome, newId: nat)
    requires s.txn.Checkpointing?
    ensures var s' := TickCheckpoint(s, o, newId);
            && s'.cfg == s.cfg && s'.w.known == s.w.known
            && (s'.txn.NoTxn? || (s'.txn.Checkpointing? && s'.txn.source == s.txn.source))
  {
    match s.txn.ck
    case CkExport =>
    case CkSnapshot =>
    case CkUndoHistory(_) =>
    case _ =>
  }

  lemma ForkConfig(s: State, o: Outcome, newId: nat)
    requires s.txn.Forking?
    ensures var s' := TickFork(s, o, newId);
            && s'.cfg == s.cfg && s'.w.known == s.w.known
            && (s'.txn.NoTxn? || (s'.txn.Forking? && s'.txn.r == s.txn.r && s'.txn.source == s.txn.source
                                  && s'.txn.body.provider == s.txn.body.provider))
  {
    match s.txn.fk
    case FkExport =>
    case FkSnapshot =>
    case FkDropSnapshot(_) =>
    case FkUndoHistory(_) =>
    case _ =>
  }

  lemma ForkReaches(s: State, o: Outcome, newId: nat)
    requires s.txn.Forking? && (Reached(s.txn.fk) ==> s.txn.body.provider.Some?)
    ensures var t' := TickFork(s, o, newId).txn; t'.Forking? && Reached(t'.fk) ==> s.txn.body.provider.Some?
  {
    match s.txn.fk
    case FkHistory =>
    case FkIntent =>
    case FkExport =>
    case FkUndoHistory(_) =>
    case _ =>
  }

  lemma LoadConfig(s: State, o: Outcome)
    requires s.txn.Loading?
    ensures var s' := TickLoad(s, o);
            s'.cfg == s.cfg && s'.w.known == s.w.known && (s'.txn.NoTxn? || (s'.txn.Loading? && s'.txn.r == s.txn.r))
  {
    match s.txn.ld
    case LdIntent =>
    case LdInstance =>
    case LdRow =>
    case _ =>
  }

  lemma DeleteConfig(s: State, o: Outcome)
    requires s.txn.Deleting?
    ensures var s' := TickDelete(s, o);
            s'.cfg == s.cfg && s'.w.known == s.w.known && (s'.txn.NoTxn? || s'.txn.Deleting?)
  {
    match s.txn.dl
    case DlIntent =>
    case DlSnapshot =>
    case DlHistory =>
    case DlRow =>
    case _ =>
  }

  lemma OtherConfig(s: State, o: Outcome, newId: nat)
    requires !s.txn.Checkpointing? && !s.txn.Forking?
    ensures var s' := TickTxn(s, o, newId);
            && s'.cfg == s.cfg && s'.w.known == s.w.known && !s'.txn.Checkpointing? && !s'.txn.Forking?
            && (s'.txn.Loading? ==> s.txn.Loading? && s'.txn.r == s.txn.r)
  {
    match s.txn
    case NoTxn =>
    case Loading(_, _) => LoadConfig(s, o);
    case Deleting(_, _, _) => DeleteConfig(s, o);
    case Reconciling(_, _, _, _, _) => ReconcileConfig(s, o);
  }

  lemma ReconcileConfig(s: State, o: Outcome)
    requires s.txn.Reconciling?
    ensures var s' := TickReconcile(s, o);
            s'.cfg == s.cfg && s'.w.known == s.w.known && (s'.txn.NoTxn? || s'.txn.Reconciling?)
  {
    match s.txn.rc
    case RcStop =>
    case RcSnapshot =>
    case RcHistory =>
    case RcRow =>
    case RcDropIntent =>
    case RcReschedule =>
    case _ =>
  }

  /** The rows after a tick: those before, and the target of a load or a fork. */
  lemma TickSessions(s: State, o: Outcome, newId: nat)
    requires TxnOk(s.w, s.txn) && NamesOk(s)
    ensures TickTxn(s, o, newId).w.sessions.Keys <= s.cfg.providers.Keys
  {
    match s.txn
    case NoTxn =>
    case Checkpointing(_, _, _, _, _, _) => CheckpointWrites(s, o, newId);
    case Forking(_, _, _, _, _, _) =>
      if !s.txn.fk.FkRow? { ForkTables(s, o, newId); }
    case Loading(_, _) =>
    case Deleting(_, _, _) => DeleteWrites(s, o);
    case Reconciling(_, _, _, _, _) => ReconcileWrites(s, o);
  }

  lemma TickNames(s: State, o: Outcome, newId: nat)
    requires TxnOk(s.w, s.txn) && NamesOk(s) && SourceServed(s)
    ensures NamesOk(TickTxn(s, o, newId)) && SourceServed(TickTxn(s, o, newId))
    ensures TickTxn(s, o, newId).cfg == s.cfg
  {
    TickSessions(s, o, newId);
    if s.txn.Checkpointing? {
      CheckpointConfig(s, o, newId);
    } else if s.txn.Forking? {
      ForkConfig(s, o, newId);
      ForkReaches(s, o, newId);
    } else {
      OtherConfig(s, o, newId);
    }
  }

  lemma BeginNames(s: State, a: Action)
    requires s.txn.NoTxn? && NamesOk(s)
    ensures NamesOk(Begin(s, a)) && SourceServed(Begin(s, a))
    ensures forall r :: r in s.w.known ==> (Resolves(Begin(s, a).cfg, r) <==> Resolves(s.cfg, r))
  {
    BeginWrites(s, a);
  }

  /** A barred session stays barred until a restart, and nothing is published from it. */
  lemma TickBarred(s: State, o: Outcome, newId: nat, r: RuntimeId)
    requires Ok(s) && ProviderOk(s) && Barred(s, r)
    ensures Barred(TickTxn(s, o, newId), r) && NoNewRows(s.w, TickTxn(s, o, newId).w, r)
  {
    TickNames(s, o, newId);
    TickWrites(s, o, newId);
    if r !in s.w.instances {
      TickAfterDestroy(s, o, newId, r);
    } else {
      UnservedPublishesNothing(s, o, newId, r);
    }
  }

  lemma UnservedPublishesNothing(s: State, o: Outcome, newId: nat, r: RuntimeId)
    requires TxnOk(s.w, s.txn) && SourceServed(s) && !Resolves(s.cfg, r)
    ensures NoNewRows(s.w, TickTxn(s, o, newId).w, r)
  {
    match s.txn
    case NoTxn =>
    case Checkpointing(_, _, _, _, _, _) => CheckpointWrites(s, o, newId);
    case Forking(_, _, _, _, _, _) => ForkWrites(s, o, newId);
    case Loading(_, _) => LoadWrites(s, o);
    case Deleting(_, _, _) => DeleteWrites(s, o);
    case Reconciling(_, _, _, _, _) => ReconcileWrites(s, o);
  }

  /** The restart serves no session that must stay barred. */
  predicate KeepsBarred(s: State, a: Action, r: RuntimeId) {
    a.Reregister? ==> r !in s.w.instances || (r in s.cfg.providers ==> s.cfg.providers[r] !in a.registered)
  }

  lemma OpenBarred(s: State, r: RuntimeId, other: RuntimeId, p: ProviderId)
    requires Barred(s, r) && r in s.w.known
    ensures var s' := Step(s, OpenSession(other, p)); Barred(s', r) && NoNewRows(s.w, s'.w, r)
  {
  }

  lemma OtherBarred(s: State, a: Action, r: RuntimeId)
    requires Barred(s, r) && r in s.w.known && KeepsBarred(s, a, r)
    requires a.OpenSession? || a.StatusWritten? || a.BeginClose? || a.Crash? || a.Reregister?
    ensures Barred(Step(s, a), r) && NoNewRows(s.w, Step(s, a).w, r)
  {
    if a.OpenSession? {
      OpenBarred(s, r, a.r, a.p);
    }
  }

  lemma CloseBarred(s: State, o: Outcome, r: RuntimeId)
    requires Barred(s, r)
    ensures Barred(TickClose(s, o), r) && NoNewRows(s.w, TickClose(s, o).w, r)
  {
  }

  lemma StepBarred(s: State, a: Action, r: RuntimeId)
    requires Ok(s) && ProviderOk(s) && Barred(s, r) && KeepsBarred(s, a, r)
    ensures Barred(Step(s, a), r) && NoNewRows(s.w, Step(s, a).w, r)
  {
    if a.Tick? {
      TickBarred(s, a.o, a.newId, r);
    } else if a.CloseTick? {
      CloseBarred(s, a.o, r);
    } else if a.OpenSession? || a.StatusWritten? || a.BeginClose? || a.Crash? || a.Reregister? {
      OtherBarred(s, a, r);
    } else if s.txn.NoTxn? {
      BeginNames(s, a);
      BeginWrites(s, a);
    }
  }

  /** Sessions open, close and are written beside the transaction. */
  lemma OtherProvider(s: State, a: Action)
    requires Ok(s) && ProviderOk(s)
    requires a.CloseTick? || a.OpenSession? || a.StatusWritten? || a.BeginClose? || a.Crash? || a.Reregister?
    ensures NamesOk(Step(s, a)) && SourceServed(Step(s, a))
  {
  }

  lemma ClosingStep(s: State, a: Action)
    requires Ok(s) && ProviderOk(s)
    ensures CloseOk(Step(s, a))
  {
    if s.pub.PubClosed? && Step(s, a).pub == s.pub {
      var r := s.pub.closing;
      assert KeepsBarred(s, a, r);
      StepBarred(s, a, r);
    } else if Step(s, a).pub != s.pub {
      EntersClosed(s, a);
    }
  }

  /** The two ways into the row's write. */
  lemma EntersClosed(s: State, a: Action)
    requires Ok(s) && NamesOk(s) && Step(s, a).pub != s.pub
    ensures CloseOk(Step(s, a))
  {
    if a.Tick? {
      TickPub(s, a.o, a.newId);
    }
  }

  lemma TickPub(s: State, o: Outcome, newId: nat)
    ensures TickTxn(s, o, newId).pub == s.pub || !TickTxn(s, o, newId).pub.PubClosed?
  {
    match s.txn
    case NoTxn =>
    case Checkpointing(_, _, _, _, _, _) => CheckpointPub(s, o, newId);
    case Forking(_, _, _, _, _, _) => ForkPub(s, o, newId);
    case Loading(_, _) =>
    case Deleting(_, _, _) =>
    case Reconciling(_, _, _, _, _) => ReconcilePub(s, o);
  }

  lemma CheckpointPub(s: State, o: Outcome, newId: nat)
    requires s.txn.Checkpointing?
    ensures TickCheckpoint(s, o, newId).pub == s.pub || !TickCheckpoint(s, o, newId).pub.PubClosed?
  {
  }

  lemma ForkPub(s: State, o: Outcome, newId: nat)
    requires s.txn.Forking?
    ensures TickFork(s, o, newId).pub == s.pub || !TickFork(s, o, newId).pub.PubClosed?
  {
  }

  lemma ReconcilePub(s: State, o: Outcome)
    requires s.txn.Reconciling?
    ensures TickReconcile(s, o).pub == s.pub || !TickReconcile(s, o).pub.PubClosed?
  {
  }

  lemma ProviderStep(s: State, a: Action)
    requires Ok(s) && ProviderOk(s)
    ensures ProviderOk(Step(s, a))
  {
    ClosingStep(s, a);
    if a.Tick? {
      TickNames(s, a.o, a.newId);
    } else if a.CloseTick? || a.OpenSession? || a.StatusWritten? || a.BeginClose? || a.Crash? || a.Reregister? {
      OtherProvider(s, a);
    } else if s.txn.NoTxn? {
      BeginNames(s, a);
    }
  }

  lemma {:induction false} ProviderRun(s: State, actions: seq<Action>)
    requires Ok(s) && ProviderOk(s)
    ensures Ok(Run(s, actions)) && ProviderOk(Run(s, actions))
    decreases |actions|
  {
    if actions != [] {
      StepKeeps(s, actions[0]);
      ProviderStep(s, actions[0]);
      ProviderRun(Step(s, actions[0]), actions[1..]);
    }
  }

  // ----------------------------------------------------------------- any close

  lemma ProviderKept(s: State, a: Action, r: RuntimeId)
    requires Ok(s) && ProviderOk(s) && r in s.cfg.providers
    ensures r in Step(s, a).cfg.providers && Step(s, a).cfg.providers[r] == s.cfg.providers[r]
  {
    if a.Tick? { TickNames(s, a.o, a.newId); }
  }

  /** No restart of the run registers the provider of `r`, or its instance is gone. */
  predicate StaysBarred(s: State, actions: seq<Action>, r: RuntimeId)
    requires r in s.cfg.providers
  {
    r !in s.w.instances
    || forall k :: 0 <= k < |actions| && actions[k].Reregister? ==> s.cfg.providers[r] !in actions[k].registered
  }

  lemma {:induction false} RunBarred(s: State, actions: seq<Action>, r: RuntimeId)
    requires Ok(s) && ProviderOk(s) && Barred(s, r) && StaysBarred(s, actions, r)
    ensures NoNewRows(s.w, Run(s, actions).w, r)
    decreases |actions|
  {
    if actions != [] {
      var a := actions[0];
      StepKeeps(s, a);
      ProviderStep(s, a);
      StepBarred(s, a, r);
      ProviderKept(s, a, r);
      if r !in s.w.instances { StepAfterDestroy(s, a, r); }
      RunBarred(Step(s, a), actions[1..], r);
    }
  }

  lemma ClosedBarred(s: State, r: RuntimeId)
    requires Ok(s) && ProviderOk(s) && s.pub == PubClosed(r)
    ensures Barred(Step(s, CloseTick(Done)), r)
  {
  }

  /**
   After every close, whether it could resolve the provider or not, nothing is published
   from the session for as long as no restart registers the provider of an instance that
   was left, whatever is written over the row's status.
   */
  lemma NothingPublishedAfterAnyClose(before: seq<Action>, after: seq<Action>, r: RuntimeId)
    requires Run(Initial, before).pub == PubClosed(r)
    requires r in Step(Run(Initial, before), CloseTick(Done)).cfg.providers
             ==> StaysBarred(Step(Run(Initial, before), CloseTick(Done)), after, r)
    ensures var closed := Step(Run(Initial, before), CloseTick(Done));
            NoNewRows(closed.w, Run(closed, after).w, r)
  {
    ProviderRun(Initial, before);
    var s := Run(Initial, before);
    StepKeeps(s, CloseTick(Done));
    ProviderStep(s, CloseTick(Done));
    ClosedBarred(s, r);
    RunBarred(Step(s, CloseTick(Done)), after, r);
  }

  // ------------------------------------------------- who can still be published from

  function CheckpointIds(used: set<IntentId>): set<CheckpointId> {
    set id | id in used && id.CheckpointOp? :: id.c
  }

  lemma NewCheckpoint(used: set<IntentId>) returns (c: CheckpointId)
    ensures CheckpointOp(c) !in used
  {
    c := Unused(CheckpointIds(used));
    forall id | id in used && id.CheckpointOp? ensures id.c != c {
      assert id.c in CheckpointIds(used);
    }
  }

  predicate SameRegistration(actions: seq<Action>) {
    forall k :: 0 <= k < |actions| ==> !actions[k].Reregister?
  }

  /** Some continuation of `s`, `here` in processes with the same registration, adds a row
      taken from `r` to those of `w`. */
  ghost predicate CanPublish(s: State, w: World, r: RuntimeId, here: bool) {
    exists actions :: (here ==> SameRegistration(actions)) && !NoNewRows(w, Run(s, actions).w, r)
  }

  lemma CanStep(s: State, a: Action, w: World, r: RuntimeId, here: bool)
    requires CanPublish(Step(s, a), w, r, here) && !(here && a.Reregister?)
    ensures CanPublish(s, w, r, here)
  {
    var rest :| (here ==> SameRegistration(rest)) && !NoNewRows(w, Run(Step(s, a), rest).w, r);
    assert ([a] + rest)[1..] == rest;
    assert (here ==> SameRegistration([a] + rest)) && !NoNewRows(w, Run(s, [a] + rest).w, r);
  }

  lemma CanNow(s: State, w: World, r: RuntimeId)
    requires !NoNewRows(w, s.w, r)
    ensures CanPublish(s, w, r, true)
  {
    assert Run(s, []) == s && SameRegistration([]);
  }

  /** From a session with an instance in reach a checkpoint can be taken. */
  lemma CheckpointCanPublish(s: State, w: World, r: RuntimeId, c: CheckpointId, h: HistId, n: SnapId)
    requires Ready(s) && Live(s.w, r) && s.w.sessions[r].Idle? && Resolves(s.cfg, r)
    requires CheckpointOp(c) !in s.w.used && c !in w.checkpoints && h !in s.w.histOwner && n !in s.w.origin
    ensures CanPublish(s, w, r, true)
  {
    CheckpointSucceeds(s, c, r, h, n);
    var s0 := Step(s, BeginCheckpoint(c, r));
    var s1 := Next(s0, 0);
    var s2 := Next(s1, h);
    var s3 := Next(s2, 0);
    var s4 := Next(s3, n);
    var s5 := Next(s4, 0);
    var s6 := Next(s5, 0);
    var s7 := Next(s6, 0);
    var s8 := Next(s7, 0);
    var s9 := Next(s8, 0);
    var s10 := Next(s9, 0);
    assert c in s10.w.checkpoints && s10.w.checkpoints[c].source == r;
    CanNow(s10, w, r);
    CanStep(s9, Tick(Done, 0), w, r, true);
    CanStep(s8, Tick(Done, 0), w, r, true);
    CanStep(s7, Tick(Done, 0), w, r, true);
    CanStep(s6, Tick(Done, 0), w, r, true);
    CanStep(s5, Tick(Done, 0), w, r, true);
    CanStep(s4, Tick(Done, 0), w, r, true);
    CanStep(s3, Tick(Done, n), w, r, true);
    CanStep(s2, Tick(Done, 0), w, r, true);
    CanStep(s1, Tick(Done, h), w, r, true);
    CanStep(s0, Tick(Done, 0), w, r, true);
    CanStep(s, BeginCheckpoint(c, r), w, r, true);
  }

  lemma LiveCanPublish(s: State, r: RuntimeId)
    requires Ok(s) && Live(s.w, r) && Resolves(s.cfg, r)
    ensures CanPublish(s, s.w, r, true)
  {
    var c := NewCheckpoint(s.w.used);
    var h := Unused(s.w.histOwner.Keys);
    var n := Unused(s.w.origin.Keys);
    var s1 := Step(s, Crash);
    var s2 := Step(s1, StatusWritten(r, Idle));
    StepKeeps(s, Crash);
    StepKeeps(s1, StatusWritten(r, Idle));
    CheckpointCanPublish(s2, s.w, r, c, h, n);
    CanStep(s1, StatusWritten(r, Idle), s.w, r, true);
    CanStep(s, Crash, s.w, r, true);
  }

  /**
   Exactly when a row can still be taken from a session by processes that register what
   this one does: when its instance exists and its provider resolves.  What the row's
   status says does not decide it.
   */
  lemma PublishableIff(actions: seq<Action>, r: RuntimeId)
    requires r in Run(Initial, actions).w.sessions
    ensures var s := Run(Initial, actions);
            CanPublish(s, s.w, r, true) <==> r in s.w.instances && Resolves(s.cfg, r)
  {
    ProviderRun(Initial, actions);
    var s := Run(Initial, actions);
    if r in s.w.instances && Resolves(s.cfg, r) {
      LiveCanPublish(s, r);
    } else {
      forall more | SameRegistration(more) ensures NoNewRows(s.w, Run(s, more).w, r) {
        RunBarred(s, more, r);
      }
    }
  }

  lemma RestartCanPublish(s: State, r: RuntimeId)
    requires Ok(s) && ProviderOk(s) && Live(s.w, r)
    ensures CanPublish(s, s.w, r, false)
  {
    var a := Reregister({s.cfg.providers[r]});
    StepKeeps(s, a);
    LiveCanPublish(Step(s, a), r);
    var rest :| SameRegistration(rest) && !NoNewRows(s.w, Run(Step(s, a), rest).w, r);
    assert CanPublish(Step(s, a), s.w, r, false);
    CanStep(s, a, s.w, r, false);
  }

  /** And by any later process, one that registers other providers included: exactly when
      the instance exists. */
  lemma PublishableLaterIff(actions: seq<Action>, r: RuntimeId)
    requires r in Run(Initial, actions).w.sessions
    ensures var s := Run(Initial, actions);
            CanPublish(s, s.w, r, false) <==> r in s.w.instances
  {
    ProviderRun(Initial, actions);
    var s := Run(Initial, actions);
    if r in s.w.instances {
      RestartCanPublish(s, r);
    } else {
      forall more ensures NoNewRows(s.w, Run(s, more).w, r) {
        RunAfterDestroy(s, more, r);
      }
    }
  }
}
