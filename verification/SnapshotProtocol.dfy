/**
 The snapshot operations as a state machine.  `checkpoint`, `load_checkpoint`,
 `fork_impl`, `delete_checkpoint_impl` and the reconciliation of one intent are
 sequences of awaits; every await is one `Tick`, whose outcome is chosen by the
 environment, and the process can crash between any two.  All of them hold the
 `snapshot_transactions` lock (`txn`); `close` runs beside them and shares only
 the `snapshot_publication` lock (`pub`).
 */
module SnapshotProtocol {
  import opened Options
  import opened SnapshotWorld

  /** How one await ends.  A failed call to a provider or a runtime may still
      have taken effect; a failed repository write has written nothing. */
  datatype Outcome = Done | Failed(effect: bool)

  datatype CheckpointPc =
    | CkIntent | CkExport | CkHistory | CkSnapshot | CkSnapId
    | CkLock | CkStatus | CkInspect | CkRow | CkDropIntent
    | CkUndoHistory(alsoSnapshot: bool) | CkUndoSnapshot

  datatype LoadPc = LdIntent | LdInstance | LdStart | LdState | LdRow | LdDropIntent | LdUndo

  datatype ForkPc =
    | FkIntent | FkExport | FkHistory | FkSnapshot | FkSnapId | FkLoad | FkDropSnapshot(loaded: bool)
    | FkStart | FkDropHistory | FkState | FkLock | FkStatus | FkInspect | FkRow
    | FkUndoHistory(alsoInstance: bool) | FkUndoInstance

  datatype DeletePc = DlIntent | DlSnapshot | DlHistory | DlRow | DlDropIntent

  datatype ReconcilePc =
    | RcProvider | RcPublished | RcTarget | RcAbort | RcStop
    | RcSnapshot | RcHistory | RcRow | RcDropIntent | RcReschedule

  /** The holder of the transaction lock.  `body` is the intent as last built in
      memory: the next save writes it. */
  datatype Txn =
    | NoTxn
    | Checkpointing(c: CheckpointId, source: RuntimeId, ck: CheckpointPc, body: Intent, hist: HistId, snap: SnapId)
    | Loading(r: RuntimeId, ld: LoadPc)
    | Forking(r: RuntimeId, source: RuntimeId, fk: ForkPc, body: Intent, hist: HistId, snap: SnapId)
    | Deleting(c: CheckpointId, dl: DeletePc, row: Row)
    | Reconciling(id: IntentId, rc: ReconcilePc, body: Intent, published: bool, now: nat)

  datatype Publication = PubFree | PubTxn | PubDestroy(closing: RuntimeId) | PubClosed(closing: RuntimeId)

  /**
   `providers` is the provider each session row's isolation names: written with the row
   and never rewritten.  `registered` are the providers this process knows: fixed until
   a restart.
   */
  datatype Config = Config(providers: map<RuntimeId, ProviderId>, registered: set<ProviderId>)

  /** `provider_for_isolation` finds the session's instance manager. */
  predicate Resolves(cfg: Config, r: RuntimeId) {
    r in cfg.providers && cfg.providers[r] in cfg.registered
  }

  function NameOf(cfg: Config, r: RuntimeId): Option<ProviderId> {
    if Resolves(cfg, r) then Some(cfg.providers[r]) else None
  }

  /** The provider an intent names is registered. */
  predicate Served(cfg: Config, body: Intent) {
    body.provider.Some? && body.provider.value in cfg.registered
  }

  datatype State = State(w: World, txn: Txn, pub: Publication, cfg: Config)

  const Initial := State(EmptyWorld, NoTxn, PubFree, Config(map[], {}))

  datatype Action =
    | BeginCheckpoint(c: CheckpointId, source: RuntimeId)
    | BeginLoad(r: RuntimeId, c: CheckpointId)
    | BeginFork(r: RuntimeId, source: RuntimeId)
    | BeginDelete(c: CheckpointId)
    | BeginReconcile(id: IntentId, now: nat)
    | Tick(o: Outcome, newId: nat)
    | BeginClose(r: RuntimeId)
    | CloseTick(o: Outcome)
    | OpenSession(r: RuntimeId, p: ProviderId)
    | StatusWritten(r: RuntimeId, status: Status)
    | Crash                                     // and restart, with the same registration
    | Reregister(registered: set<ProviderId>)   // a crash or stop, and restart with another

  // ------------------------------------------------------------------ steps

  /** The operation returns, successfully or not; its guards are dropped. */
  function Return(s: State, w: World): State {
    s.(w := w, txn := NoTxn, pub := if s.pub.PubTxn? then PubFree else s.pub)
  }

  function Goto(s: State, w: World, txn: Txn): State {
    s.(w := w, txn := txn)
  }

  predicate TookEffect(o: Outcome) {
    o.Done? || o.effect
  }

  /** Why the status re-check refuses to publish. */
  predicate Gone(w: World, r: RuntimeId) {
    r !in w.sessions || w.sessions[r].Closed? || w.sessions[r].Failed?
  }

  function FirstBody(provider: Option<ProviderId>, target: Option<RuntimeId>, checkpoint: Option<CheckpointId>,
                     snapshot: Option<SnapRef>): Intent {
    Intent(provider, target, checkpoint, snapshot, None, 0, 0)
  }

  function TickCheckpoint(s: State, o: Outcome, newId: nat): State
    requires s.txn.Checkpointing?
  {
    var w, t := s.w, s.txn;
    var id := CheckpointOp(t.c);
    match t.ck
    case CkIntent =>
      if o.Done? then Goto(s, PutIntent(w, id, t.body), t.(ck := CkExport)) else Return(s, w)
    case CkExport =>
      if newId in w.histOwner then s
      else if o.Done? then
        Goto(s, MakeHistory(w, newId, id), t.(ck := CkHistory, hist := newId, body := t.body.(history := Some(newId))))
      else Return(s, if o.effect then MakeHistory(w, newId, id) else w)
    case CkHistory =>
      if o.Done? then Goto(s, PutIntent(w, id, t.body), t.(ck := CkSnapshot)) else Return(s, w)
    case CkSnapshot =>
      if newId in w.origin then s
      else if o.Done? then
        Goto(s, MakeSnapshot(w, newId, id), t.(ck := CkSnapId, snap := newId, body := t.body.(snapshot := Some(ById(newId)))))
      else Goto(s, if o.effect then MakeSnapshot(w, newId, id) else w, t.(ck := CkUndoHistory(false)))
    case CkSnapId =>
      if o.Done? then Goto(s, PutIntent(w, id, t.body), t.(ck := CkLock)) else Return(s, w)
    case CkLock =>
      if s.pub.PubFree? then s.(pub := PubTxn, txn := t.(ck := CkStatus)) else s
    case CkStatus =>
      if o.Done? && !Gone(w, t.source) then Goto(s, w, t.(ck := CkInspect)) else Return(s, w)
    case CkInspect =>
      if o.Done? && t.source in w.instances then Goto(s, w, t.(ck := CkRow)) else Return(s, w)
    case CkRow =>
      if o.Done? then
        Goto(s, PutRow(w, t.c, Row(t.source, t.snap, t.hist)), t.(ck := CkDropIntent))
      else Goto(s, w, t.(ck := CkUndoHistory(true)))
    case CkDropIntent =>
      Return(s, if o.Done? then DropIntent(w, id) else w)
    case CkUndoHistory(alsoSnapshot) =>
      var w' := if TookEffect(o) then DropHistory(w, t.hist) else w;
      if alsoSnapshot then Goto(s, w', t.(ck := CkUndoSnapshot)) else Return(s, w')
    case CkUndoSnapshot =>
      Return(s, if TookEffect(o) then DropSnapshot(w, ById(t.snap)) else w)
  }

  function TickLoad(s: State, o: Outcome): State
    requires s.txn.Loading?
  {
    var w, t := s.w, s.txn;
    match t.ld
    case LdIntent =>
      if o.Done? then Goto(s, PutIntent(w, LoadOp(t.r), FirstBody(NameOf(s.cfg, t.r), Some(t.r), None, None)), t.(ld := LdInstance))
      else Return(s, w)
    case LdInstance =>
      var w' := if TookEffect(o) then StartInstance(w, t.r) else w;
      if o.Done? then Goto(s, w', t.(ld := LdStart)) else Return(s, w')
    case LdStart =>
      Goto(s, w, t.(ld := if o.Done? then LdState else LdUndo))
    case LdState =>
      Goto(s, w, t.(ld := if o.Done? then LdRow else LdUndo))
    case LdRow =>
      if o.Done? then Goto(s, PutSession(w, t.r, Idle), t.(ld := LdDropIntent)) else Goto(s, w, t.(ld := LdUndo))
    case LdDropIntent =>
      Return(s, if o.Done? then DropIntent(w, LoadOp(t.r)) else w)
    case LdUndo =>
      Return(s, if TookEffect(o) then StopInstance(w, t.r) else w)
  }

  function TickFork(s: State, o: Outcome, newId: nat): State
    requires s.txn.Forking?
  {
    var w, t := s.w, s.txn;
    var id := ForkOp(t.r);
    match t.fk
    case FkIntent =>
      // An unresolvable provider skips the first save.
      if t.body.provider.None? then Goto(s, w, t.(fk := FkExport))
      else if o.Done? then Goto(s, PutIntent(w, id, t.body), t.(fk := FkExport)) else Return(s, w)
    case FkExport =>
      if newId in w.histOwner then s
      else if o.Done? then
        Goto(s, MakeHistory(w, newId, id), t.(fk := FkHistory, hist := newId, body := t.body.(history := Some(newId))))
      else Return(s, if o.effect then MakeHistory(w, newId, id) else w)
    case FkHistory =>
      if o.Done? then
        Goto(s, PutIntent(w, id, t.body), t.(fk := if t.body.provider.Some? then FkSnapshot else FkUndoHistory(false)))
      else Return(s, w)
    case FkSnapshot =>
      if newId in w.origin then s
      else if o.Done? then
        Goto(s, MakeSnapshot(w, newId, id), t.(fk := FkSnapId, snap := newId, body := t.body.(snapshot := Some(ById(newId)))))
      else Goto(s, if o.effect then MakeSnapshot(w, newId, id) else w, t.(fk := FkUndoHistory(false)))
    case FkSnapId =>
      if o.Done? then Goto(s, PutIntent(w, id, t.body), t.(fk := FkLoad)) else Return(s, w)
    case FkLoad =>
      Goto(s, if TookEffect(o) then StartInstance(w, t.r) else w, t.(fk := FkDropSnapshot(o.Done?)))
    case FkDropSnapshot(loaded) =>
      Goto(s, if TookEffect(o) then DropSnapshot(w, ById(t.snap)) else w,
           t.(fk := if loaded then FkStart else FkUndoHistory(false)))
    case FkStart =>
      Goto(s, w, t.(fk := if o.Done? then FkDropHistory else FkUndoHistory(true)))
    case FkDropHistory =>
      Goto(s, if TookEffect(o) then DropHistory(w, t.hist) else w, t.(fk := FkState))
    case FkState =>
      Goto(s, w, t.(fk := if o.Done? then FkLock else FkUndoInstance))
    case FkLock =>
      if s.pub.PubFree? then s.(pub := PubTxn, txn := t.(fk := FkStatus)) else s
    case FkStatus =>
      if o.Done? && !Gone(w, t.source) then Goto(s, w, t.(fk := FkInspect)) else Return(s, w)
    case FkInspect =>
      if o.Done? && t.source in w.instances then Goto(s, w, t.(fk := FkRow)) else Return(s, w)
    case FkRow =>
      // On success the intent is left for the reconciler.
      if o.Done? then Return(s, PutChild(w, t.r, t.source))
      else Goto(s, w, t.(fk := FkUndoInstance))
    case FkUndoHistory(alsoInstance) =>
      var w' := if TookEffect(o) then DropHistory(w, t.hist) else w;
      if alsoInstance then Goto(s, w', t.(fk := FkUndoInstance)) else Return(s, w')
    case FkUndoInstance =>
      Return(s, if TookEffect(o) then StopInstance(w, t.r) else w)
  }

  function DeleteBody(provider: Option<ProviderId>, c: CheckpointId, row: Row): Intent {
    Intent(provider, None, Some(c), Some(ById(row.snap)), Some(row.hist), 0, 0)
  }

  function TickDelete(s: State, o: Outcome): State
    requires s.txn.Deleting?
  {
    var w, t := s.w, s.txn;
    match t.dl
    case DlIntent =>
      if o.Done? then Goto(s, PutIntent(w, DeleteOp(t.c), DeleteBody(NameOf(s.cfg, t.row.source), t.c, t.row)), t.(dl := DlSnapshot))
      else Return(s, w)
    case DlSnapshot =>
      // Unlike the reconciler, the request itself fails on an absent snapshot.
      var w' := if TookEffect(o) then DropSnapshot(w, ById(t.row.snap)) else w;
      if o.Done? && t.row.snap in w.snapshots then Goto(s, w', t.(dl := DlHistory)) else Return(s, w')
    case DlHistory =>
      var w' := if TookEffect(o) then DropHistory(w, t.row.hist) else w;
      if o.Done? then Goto(s, w', t.(dl := DlRow)) else Return(s, w')
    case DlRow =>
      if o.Done? then Goto(s, DropRow(w, t.c), t.(dl := DlDropIntent)) else Return(s, w)
    case DlDropIntent =>
      Return(s, if o.Done? then DropIntent(w, DeleteOp(t.c)) else w)
  }

  function Min(a: nat, b: nat): nat { if a < b then a else b }

  function Shifted(attempts: nat): nat {
    if attempts == 0 then 1000 else 2 * Shifted(attempts - 1)
  }

  const U64_MAX: nat := 0xFFFF_FFFF_FFFF_FFFF

  /** Milliseconds until the next try after `attempts` failures. */
  function Backoff(attempts: nat): nat {
    Min(Shifted(Min(attempts, 5)), 30000)
  }

  function Rescheduled(body: Intent, now: nat): Intent {
    var attempts := Min(body.retryCount + 1, U64_MAX);
    body.(retryCount := attempts, retryAt := Min(now + Backoff(attempts), U64_MAX))
  }

  predicate IsPublished(w: World, id: IntentId, body: Intent) {
    !id.DeleteOp? && body.checkpoint.Some? && Visible(w, body.checkpoint.value)
  }

  function AfterTarget(published: bool): ReconcilePc {
    if published then RcRow else RcSnapshot
  }

  /** A NotFound answer to a stop or a delete counts as done: the resource is absent. */
  function TickReconcile(s: State, o: Outcome): State
    requires s.txn.Reconciling?
  {
    var w, t := s.w, s.txn;
    match t.rc
    case RcProvider =>
      Goto(s, w, t.(rc := if Served(s.cfg, t.body) then RcPublished else RcReschedule))
    case RcPublished =>
      if o.Done? then Goto(s, w, t.(rc := RcTarget, published := IsPublished(w, t.id, t.body)))
      else Goto(s, w, t.(rc := RcReschedule))
    case RcTarget =>
      if t.body.target.None? then Goto(s, w, t.(rc := AfterTarget(t.published)))
      else if !o.Done? then Goto(s, w, t.(rc := RcReschedule))
      else if t.body.target.value in w.sessions then Goto(s, w, t.(rc := AfterTarget(t.published)))
      else Goto(s, w, t.(rc := RcAbort))
    case RcAbort =>
      Goto(s, w, t.(rc := if o.Done? then RcStop else RcReschedule))
    case RcStop =>
      if t.body.target.None? then s
      else Goto(s, if TookEffect(o) then StopInstance(w, t.body.target.value) else w,
                t.(rc := if o.Done? then AfterTarget(t.published) else RcReschedule))
    case RcSnapshot =>
      if t.body.snapshot.None? then Goto(s, w, t.(rc := RcHistory))
      else Goto(s, if TookEffect(o) then DropSnapshot(w, t.body.snapshot.value) else w,
                t.(rc := if o.Done? then RcHistory else RcReschedule))
    case RcHistory =>
      if t.body.history.None? then Goto(s, w, t.(rc := RcRow))
      else Goto(s, if TookEffect(o) then DropHistory(w, t.body.history.value) else w,
                t.(rc := if o.Done? then RcRow else RcReschedule))
    case RcRow =>
      if !t.id.DeleteOp? then Goto(s, w, t.(rc := RcDropIntent))
      else Goto(s, if o.Done? then DropRow(w, t.id.c) else w, t.(rc := if o.Done? then RcDropIntent else RcReschedule))
    case RcDropIntent =>
      if o.Done? then Return(s, DropIntent(w, t.id)) else Goto(s, w, t.(rc := RcReschedule))
    case RcReschedule =>
      Return(s, if o.Done? then PutIntent(w, t.id, Rescheduled(t.body, t.now)) else w)
  }

  function TickTxn(s: State, o: Outcome, newId: nat): State {
    match s.txn
    case NoTxn => s
    case Checkpointing(_, _, _, _, _, _) => TickCheckpoint(s, o, newId)
    case Loading(_, _) => TickLoad(s, o)
    case Forking(_, _, _, _, _, _) => TickFork(s, o, newId)
    case Deleting(_, _, _) => TickDelete(s, o)
    case Reconciling(_, _, _, _, _) => TickReconcile(s, o)
  }

  /** `finalize_closed_session` after the publication lock was taken. */
  function TickClose(s: State, o: Outcome): State {
    match s.pub
    case PubDestroy(r) =>
      var w' := if TookEffect(o) then StopInstance(s.w, r) else s.w;
      s.(w := w', pub := if o.Done? then PubClosed(r) else PubFree)
    case PubClosed(r) =>
      if o.Done? then s.(w := PutSession(s.w, r, Closed), pub := PubFree)
      else s.(pub := PubFree)
    case _ => s
  }

  /** The row of `r` will carry the isolation of `source`. */
  function Inherit(s: State, r: RuntimeId, source: RuntimeId): State {
    if source in s.cfg.providers then s.(cfg := s.cfg.(providers := s.cfg.providers[r := s.cfg.providers[source]])) else s
  }

  function Begin(s: State, a: Action): State {
    var w := s.w;
    match a
    case BeginCheckpoint(c, source) =>
      if CheckpointOp(c) in w.used || source !in w.sessions || !Resolves(s.cfg, source) then s
      else Goto(s, w.(used := w.used + {CheckpointOp(c)}),
                Checkpointing(c, source, CkIntent, FirstBody(NameOf(s.cfg, source), None, Some(c), Some(ByRequest(CheckpointOp(c)))), 0, 0))
    case BeginLoad(r, c) =>
      if r in w.known || !Visible(w, c) || !Resolves(s.cfg, w.checkpoints[c].source) then s
      else Goto(Inherit(s, r, w.checkpoints[c].source),
                w.(used := w.used + {LoadOp(r)}, known := w.known + {r}, branched := w.branched + {r}),
                Loading(r, LdIntent))
    case BeginFork(r, source) =>
      if r in w.known || source !in w.sessions then s
      else Goto(Inherit(s, r, source), w.(used := w.used + {ForkOp(r)}, known := w.known + {r}, branched := w.branched + {r}),
                Forking(r, source, FkIntent, FirstBody(NameOf(s.cfg, source), Some(r), None, Some(ByRequest(ForkOp(r)))), 0, 0))
    case BeginDelete(c) =>
      if !Visible(w, c) || !Resolves(s.cfg, w.checkpoints[c].source) then s
      else Goto(s, w, Deleting(c, DlIntent, w.checkpoints[c]))
    case BeginReconcile(id, now) =>
      if id !in w.intents || w.intents[id].retryAt > now then s
      else Goto(s, w, Reconciling(id, RcProvider, w.intents[id], false, now))
    case _ => s
  }

  function Step(s: State, a: Action): State {
    match a
    case Tick(o, newId) => TickTxn(s, o, newId)
    case BeginClose(r) =>
      // A close that cannot resolve the provider destroys nothing.
      if s.pub.PubFree? && r in s.w.sessions then s.(pub := if Resolves(s.cfg, r) then PubDestroy(r) else PubClosed(r))
      else s
    case CloseTick(o) => TickClose(s, o)
    case OpenSession(r, p) =>
      if r in s.w.known || p !in s.cfg.registered then s
      else s.(w := StartInstance(PutSession(s.w, r, Idle), r).(known := s.w.known + {r}),
              cfg := s.cfg.(providers := s.cfg.providers[r := p]))
    case StatusWritten(r, status) =>
      // A forwarder, a failed restoration or a stale copy of the record: the save is
      // an upsert that does not look at the status it overwrites.
      if r in s.w.sessions then s.(w := PutSession(s.w, r, status)) else s
    case Crash => s.(txn := NoTxn, pub := PubFree)
    case Reregister(registered) => s.(txn := NoTxn, pub := PubFree, cfg := s.cfg.(registered := registered))
    case _ => if s.txn.NoTxn? then Begin(s, a) else s
  }

  /** The state after a finite run; an action that is not enabled changes nothing. */
  function Run(s: State, actions: seq<Action>): State
    decreases |actions|
  {
    if actions == [] then s else Run(Step(s, actions[0]), actions[1..])
  }

  // -------------------------------------------------- the holder's knowledge

  predicate NoSnapshotYet(w: World, op: IntentId) {
    forall s :: s in w.origin ==> w.origin[s] != op
  }

  /** No live snapshot was made by `op`. */
  predicate Cleared(w: World, op: IntentId) {
    forall s :: s in w.snapshots && s in w.origin ==> w.origin[s] != op
  }

  predicate Holds(w: World, op: IntentId, hist: HistId) {
    HistOk(w, op, hist) && hist in w.histories
  }

  predicate Saved(w: World, id: IntentId, body: Intent) {
    id in w.intents && w.intents[id] == body
  }

  predicate CheckpointOk(w: World, t: Txn)
    requires t.Checkpointing?
  {
    var id := CheckpointOp(t.c);
    && id in w.used && DeleteOp(t.c) !in w.intents
    && (t.c in w.checkpoints <==> t.ck.CkDropIntent?)
    && t.body.checkpoint == Some(t.c) && t.body.target == None
    && (t.ck.CkIntent? || t.ck.CkExport? ==>
          t.body.snapshot == Some(ByRequest(id)) && t.body.history == None && NoSnapshotYet(w, id))
    && (t.ck.CkExport? || t.ck.CkSnapshot? ==> Saved(w, id, t.body))
    && (t.ck.CkHistory? || t.ck.CkSnapshot? ==>
          t.body.snapshot == Some(ByRequest(id)) && t.body.history == Some(t.hist) && Holds(w, id, t.hist)
          && NoSnapshotYet(w, id))
    && (t.ck.CkSnapId? || t.ck.CkLock? || t.ck.CkStatus? || t.ck.CkInspect? || t.ck.CkRow? ==>
          t.body.snapshot == Some(ById(t.snap)) && t.body.history == Some(t.hist) && Holds(w, id, t.hist)
          && RefOk(w, id, ById(t.snap)) && t.snap in w.snapshots)
    && (t.ck.CkLock? || t.ck.CkStatus? || t.ck.CkInspect? || t.ck.CkRow? ==> Saved(w, id, t.body))
    && (t.ck.CkUndoHistory? ==> HistOk(w, id, t.hist))
    && ((t.ck.CkUndoHistory? && t.ck.alsoSnapshot) || t.ck.CkUndoSnapshot? ==> RefOk(w, id, ById(t.snap)))
  }

  predicate LoadOk(w: World, t: Txn)
    requires t.Loading?
  {
    && LoadOp(t.r) in w.used && t.r in w.known
    && (t.r in w.sessions <==> t.ld.LdDropIntent?)
    && (t.ld.LdInstance? ==> LoadOp(t.r) in w.intents)
    && NoSnapshotYet(w, LoadOp(t.r))
  }

  predicate ForkOk(w: World, t: Txn)
    requires t.Forking?
  {
    var id := ForkOp(t.r);
    && id in w.used && t.r in w.known && t.r !in w.sessions
    && t.body.checkpoint == None && t.body.target == Some(t.r)
    && (t.fk.FkIntent? || t.fk.FkExport? ==>
          t.body.snapshot == Some(ByRequest(id)) && t.body.history == None && NoSnapshotYet(w, id))
    && (t.fk.FkHistory? || t.fk.FkSnapshot? ==>
          t.body.snapshot == Some(ByRequest(id)) && t.body.history == Some(t.hist) && HistOk(w, id, t.hist)
          && NoSnapshotYet(w, id))
    && (t.fk.FkSnapshot? || t.fk.FkLoad? ==> Saved(w, id, t.body))
    && (t.fk.FkSnapId? || t.fk.FkLoad? || t.fk.FkDropSnapshot? ==>
          t.body.snapshot == Some(ById(t.snap)) && t.body.history == Some(t.hist) && RefOk(w, id, ById(t.snap)))
    && ((t.fk.FkSnapId? || t.fk.FkLoad? || t.fk.FkDropSnapshot? || t.fk.FkStart? || t.fk.FkDropHistory?
         || t.fk.FkUndoHistory?) ==> HistOk(w, id, t.hist))
  }

  predicate DeleteOk(w: World, t: Txn)
    requires t.Deleting?
  {
    && (t.dl.DlIntent? ==> Visible(w, t.c) && w.checkpoints[t.c] == t.row)
    && (t.dl.DlSnapshot? || t.dl.DlHistory? || t.dl.DlRow? ==>
          t.c in w.checkpoints && w.checkpoints[t.c] == t.row && DeleteOp(t.c) in w.intents)
    && (t.dl.DlHistory? || t.dl.DlRow? ==> t.row.snap !in w.snapshots)
    && (t.dl.DlDropIntent? ==> t.c !in w.checkpoints)
  }

  predicate ReconcileOk(w: World, t: Txn)
    requires t.Reconciling?
  {
    var late := t.rc.RcSnapshot? || t.rc.RcHistory? || t.rc.RcRow? || t.rc.RcDropIntent?;
    && Saved(w, t.id, t.body)
    && (t.rc.RcTarget? || t.rc.RcAbort? || t.rc.RcStop? || late ==> t.published == IsPublished(w, t.id, t.body))
    && (t.rc.RcAbort? || t.rc.RcStop? ==> t.body.target.Some? && t.body.target.value !in w.sessions)
    && (late ==> TargetSettled(w, t.body))
    && (t.rc.RcSnapshot? || t.rc.RcHistory? ==> !t.published)
    && (late && !t.rc.RcSnapshot? && !t.published ==> Cleared(w, Owner(t.id)))
    && ((t.rc.RcRow? || t.rc.RcDropIntent?) && !t.published ==> HistoryGone(w, t.body))
    && (t.rc.RcDropIntent? && t.id.DeleteOp? ==> t.id.c !in w.checkpoints)
  }

  predicate HistoryGone(w: World, body: Intent) {
    body.history.Some? ==> body.history.value !in w.histories
  }

  predicate TargetSettled(w: World, body: Intent) {
    body.target.Some? ==> body.target.value in w.sessions || body.target.value !in w.instances
  }

  predicate TxnOk(w: World, t: Txn) {
    match t
    case NoTxn => true
    case Checkpointing(_, _, _, _, _, _) => CheckpointOk(w, t)
    case Loading(_, _) => LoadOk(w, t)
    case Forking(_, _, _, _, _, _) => ForkOk(w, t)
    case Deleting(_, _, _) => DeleteOk(w, t)
    case Reconciling(_, _, _, _, _) => ReconcileOk(w, t)
  }

  // ------------------------------------------------ the publication protocol

  /** `r` has a row, and the provider still has its instance. */
  predicate Live(w: World, r: RuntimeId) {
    r in w.sessions && r in w.instances
  }

  /** The source is past the status re-check. */
  predicate Rechecked(t: Txn, r: RuntimeId) {
    || (t.Checkpointing? && t.source == r && (t.ck.CkInspect? || t.ck.CkRow?))
    || (t.Forking? && t.source == r && (t.fk.FkInspect? || t.fk.FkRow?))
  }

  /** From the status re-check to the save the publication lock is held, and at the
      save the source still has its instance. */
  predicate PublicationOk(s: State) {
    && (s.txn.Checkpointing? && (s.txn.ck.CkStatus? || s.txn.ck.CkInspect? || s.txn.ck.CkRow?) ==> s.pub.PubTxn?)
    && (s.txn.Forking? && (s.txn.fk.FkStatus? || s.txn.fk.FkInspect? || s.txn.fk.FkRow?) ==> s.pub.PubTxn?)
    && (s.txn.Checkpointing? && s.txn.ck.CkInspect? ==> s.txn.source in s.w.sessions)
    && (s.txn.Forking? && s.txn.fk.FkInspect? ==> s.txn.source in s.w.sessions)
    && (s.txn.Checkpointing? && s.txn.ck.CkRow? ==> Live(s.w, s.txn.source))
    && (s.txn.Forking? && s.txn.fk.FkRow? ==> Live(s.w, s.txn.source))
    && (s.pub.PubDestroy? || s.pub.PubClosed? ==> s.pub.closing in s.w.sessions)
  }

  predicate Ok(s: State) {
    WorldOk(s.w) && TxnOk(s.w, s.txn) && PublicationOk(s)
  }
}
