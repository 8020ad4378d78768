/**
 Safety of the snapshot protocol over every run: nothing external is orphaned,
 the reconciler never touches what is published, and nothing is published from a
 closed source.
 */
module SnapshotSafety {
  import opened Options
  import opened SnapshotWorld
  import opened SnapshotProtocol

  // ------------------------------------------------------- small world facts

  /** Deleting a snapshot named by an operation that is not published. */
  lemma DropOwnSnapshot(w: World, op: IntentId, ref: SnapRef)
    requires WorldOk(w) && RefOk(w, op, ref)
    requires op.CheckpointOp? ==> !Visible(w, op.c)
    ensures WorldOk(DropSnapshot(w, ref))
    ensures Cleared(DropSnapshot(w, ref), op)
  {
  }

  lemma DropOwnHistory(w: World, op: IntentId, h: HistId)
    requires WorldOk(w) && HistOk(w, op, h)
    requires op.CheckpointOp? ==> !Visible(w, op.c)
    ensures WorldOk(DropHistory(w, h))
  {
  }

  /** Saving an intent for an operation that has made no snapshot yet, or whose
      one snapshot the new body names. */
  lemma SaveOwnIntent(w: World, op: IntentId, body: Intent)
    requires WorldOk(w) && BodyOk(w, op, body) && op in w.used
    requires op.CheckpointOp? || op.LoadOp? || op.ForkOp?
    requires op.CheckpointOp? ==> op.c !in w.checkpoints
    requires body.snapshot.Some? || NoSnapshotYet(w, op)
    ensures WorldOk(PutIntent(w, op, body))
  {
    forall s | s in w.snapshots && w.origin[s] == op
      ensures body.snapshot.Some? && Denotes(w, body.snapshot.value, s)
    {
    }
    PutIntentKeeps(w, op, body);
  }

  lemma StartBranch(w: World, r: RuntimeId)
    requires WorldOk(w) && r in w.known
    requires LoadOp(r) in w.intents || ForkOp(r) in w.intents
    ensures WorldOk(StartInstance(w, r))
  {
  }

  lemma StopAny(w: World, r: RuntimeId)
    requires WorldOk(w)
    ensures WorldOk(StopInstance(w, r))
  {
  }

  lemma SaveSession(w: World, r: RuntimeId, status: Status)
    requires WorldOk(w) && r in w.known
    ensures WorldOk(PutSession(w, r, status))
  {
  }

  lemma SaveChild(w: World, r: RuntimeId, parent: RuntimeId)
    requires WorldOk(w) && r in w.known
    ensures WorldOk(PutChild(w, r, parent))
  {
  }

  // ------------------------------------------------------------- checkpoint

  lemma CheckpointEarly(s: State, o: Outcome, newId: nat)
    requires Ok(s) && s.txn.Checkpointing?
    requires s.txn.ck.CkIntent? || s.txn.ck.CkExport? || s.txn.ck.CkHistory?
    ensures WorldOk(TickCheckpoint(s, o, newId).w) && TxnOk(TickCheckpoint(s, o, newId).w, TickCheckpoint(s, o, newId).txn)
  {
    var w, t := s.w, s.txn;
    var id := CheckpointOp(t.c);
    if t.ck.CkExport? {
      if newId !in w.histOwner {
        MakeHistoryKeeps(w, newId, id);
      }
    } else {
      SaveOwnIntent(w, id, t.body);
    }
  }

  lemma CheckpointSnapshot(s: State, o: Outcome, newId: nat)
    requires Ok(s) && s.txn.Checkpointing?
    requires s.txn.ck.CkSnapshot? || s.txn.ck.CkSnapId?
    ensures WorldOk(TickCheckpoint(s, o, newId).w) && TxnOk(TickCheckpoint(s, o, newId).w, TickCheckpoint(s, o, newId).txn)
  {
    var w, t := s.w, s.txn;
    var id := CheckpointOp(t.c);
    if t.ck.CkSnapshot? {
      if newId !in w.origin {
        MakeSnapshotKeeps(w, newId, id);
      }
    } else {
      SaveOwnIntent(w, id, t.body);
    }
  }

  lemma CheckpointLate(s: State, o: Outcome, newId: nat)
    requires Ok(s) && s.txn.Checkpointing?
    requires s.txn.ck.CkLock? || s.txn.ck.CkStatus? || s.txn.ck.CkInspect? || s.txn.ck.CkRow? || s.txn.ck.CkDropIntent?
    ensures WorldOk(TickCheckpoint(s, o, newId).w) && TxnOk(TickCheckpoint(s, o, newId).w, TickCheckpoint(s, o, newId).txn)
  {
    var w, t := s.w, s.txn;
    var id := CheckpointOp(t.c);
    if t.ck.CkRow? {
      PutRowKeeps(w, t.c, Row(t.source, t.snap, t.hist));
    } else if t.ck.CkDropIntent? {
      assert RowOk(w, t.c);
      DropIntentKeeps(w, id);
    }
  }

  lemma CheckpointUndo(s: State, o: Outcome, newId: nat)
    requires Ok(s) && s.txn.Checkpointing?
    requires s.txn.ck.CkUndoHistory? || s.txn.ck.CkUndoSnapshot?
    ensures WorldOk(TickCheckpoint(s, o, newId).w) && TxnOk(TickCheckpoint(s, o, newId).w, TickCheckpoint(s, o, newId).txn)
  {
    var w, t := s.w, s.txn;
    var id := CheckpointOp(t.c);
    if t.ck.CkUndoHistory? {
      DropOwnHistory(w, id, t.hist);
    } else {
      DropOwnSnapshot(w, id, ById(t.snap));
    }
  }

  // ------------------------------------------------------------------- load

  lemma LoadTickKeeps(s: State, o: Outcome)
    requires Ok(s) && s.txn.Loading?
    ensures WorldOk(TickLoad(s, o).w) && TxnOk(TickLoad(s, o).w, TickLoad(s, o).txn)
  {
    var w, t := s.w, s.txn;
    var id := LoadOp(t.r);
    match t.ld
    case LdIntent => SaveOwnIntent(w, id, FirstBody(NameOf(s.cfg, t.r), Some(t.r), None, None));
    case LdInstance => StartBranch(w, t.r);
    case LdRow => SaveSession(w, t.r, Idle);
    case LdDropIntent => DropIntentKeeps(w, id);
    case LdUndo => StopAny(w, t.r);
    case LdStart =>
    case LdState =>
  }

  // ------------------------------------------------------------------- fork

  lemma ForkEarly(s: State, o: Outcome, newId: nat)
    requires Ok(s) && s.txn.Forking?
    requires s.txn.fk.FkIntent? || s.txn.fk.FkExport? || s.txn.fk.FkHistory?
    ensures WorldOk(TickFork(s, o, newId).w) && TxnOk(TickFork(s, o, newId).w, TickFork(s, o, newId).txn)
  {
    var w, t := s.w, s.txn;
    var id := ForkOp(t.r);
    if t.fk.FkExport? {
      if newId !in w.histOwner {
        MakeHistoryKeeps(w, newId, id);
      }
    } else {
      SaveOwnIntent(w, id, t.body);
    }
  }

  lemma ForkSnapshot(s: State, o: Outcome, newId: nat)
    requires Ok(s) && s.txn.Forking?
    requires s.txn.fk.FkSnapshot? || s.txn.fk.FkSnapId? || s.txn.fk.FkLoad? || s.txn.fk.FkDropSnapshot?
    ensures WorldOk(TickFork(s, o, newId).w) && TxnOk(TickFork(s, o, newId).w, TickFork(s, o, newId).txn)
  {
    var w, t := s.w, s.txn;
    var id := ForkOp(t.r);
    match t.fk
    case FkSnapshot =>
      if newId !in w.origin {
        MakeSnapshotKeeps(w, newId, id);
      }
    case FkSnapId => SaveOwnIntent(w, id, t.body);
    case FkLoad => StartBranch(w, t.r);
    case FkDropSnapshot(_) => DropOwnSnapshot(w, id, ById(t.snap));
  }

  lemma ForkHistory(s: State, o: Outcome, newId: nat)
    requires Ok(s) && s.txn.Forking? && (s.txn.fk.FkDropHistory? || s.txn.fk.FkUndoHistory?)
    ensures WorldOk(TickFork(s, o, newId).w) && TxnOk(TickFork(s, o, newId).w, TickFork(s, o, newId).txn)
  {
    DropOwnHistory(s.w, ForkOp(s.txn.r), s.txn.hist);
  }

  lemma ForkWaits(s: State, o: Outcome, newId: nat)
    requires Ok(s) && s.txn.Forking?
    requires s.txn.fk.FkStart? || s.txn.fk.FkState? || s.txn.fk.FkLock? || s.txn.fk.FkStatus? || s.txn.fk.FkInspect?
    ensures WorldOk(TickFork(s, o, newId).w) && TxnOk(TickFork(s, o, newId).w, TickFork(s, o, newId).txn)
  {
    assert TickFork(s, o, newId).w == s.w;
  }

  lemma ForkLast(s: State, o: Outcome, newId: nat)
    requires Ok(s) && s.txn.Forking? && (s.txn.fk.FkRow? || s.txn.fk.FkUndoInstance?)
    ensures WorldOk(TickFork(s, o, newId).w) && TxnOk(TickFork(s, o, newId).w, TickFork(s, o, newId).txn)
  {
    if s.txn.fk.FkRow? {
      SaveChild(s.w, s.txn.r, s.txn.source);
    } else {
      StopAny(s.w, s.txn.r);
    }
  }

  // ----------------------------------------------------------------- delete

  lemma DeleteTickKeeps(s: State, o: Outcome)
    requires Ok(s) && s.txn.Deleting?
    ensures WorldOk(TickDelete(s, o).w) && TxnOk(TickDelete(s, o).w, TickDelete(s, o).txn)
  {
    var w, t := s.w, s.txn;
    var op := CheckpointOp(t.c);
    if !t.dl.DlDropIntent? {
      assert RowOk(w, t.c);
    }
    match t.dl
    case DlIntent => PutIntentKeeps(w, DeleteOp(t.c), DeleteBody(NameOf(s.cfg, t.row.source), t.c, t.row));
    case DlSnapshot => DropOwnSnapshot(w, op, ById(t.row.snap));
    case DlHistory => DropOwnHistory(w, op, t.row.hist);
    case DlRow => DropRowKeeps(w, t.c);
    case DlDropIntent =>
      assert forall s :: s in w.snapshots ==> Named(w, s);
      DropIntentKeeps(w, DeleteOp(t.c));
  }

  // -------------------------------------------------------------- reconcile

  lemma ReconcileStop(s: State, o: Outcome)
    requires Ok(s) && s.txn.Reconciling? && s.txn.rc.RcStop?
    ensures WorldOk(TickReconcile(s, o).w) && TxnOk(TickReconcile(s, o).w, TickReconcile(s, o).txn)
  {
    StopAny(s.w, s.txn.body.target.value);
    PublishedCheckpoint(s.w, s.txn.id, s.txn.body);
  }

  lemma ReconcileSnapshot(s: State, o: Outcome)
    requires Ok(s) && s.txn.Reconciling? && s.txn.rc.RcSnapshot?
    ensures WorldOk(TickReconcile(s, o).w) && TxnOk(TickReconcile(s, o).w, TickReconcile(s, o).txn)
  {
    var w, t := s.w, s.txn;
    assert BodyOk(w, t.id, t.body);
    if t.body.snapshot.Some? {
      DropOwnSnapshot(w, Owner(t.id), t.body.snapshot.value);
    } else {
      assert forall s :: s in w.snapshots ==> Named(w, s);
    }
  }

  lemma ReconcileHistory(s: State, o: Outcome)
    requires Ok(s) && s.txn.Reconciling? && s.txn.rc.RcHistory?
    ensures WorldOk(TickReconcile(s, o).w) && TxnOk(TickReconcile(s, o).w, TickReconcile(s, o).txn)
  {
    var w, t := s.w, s.txn;
    assert BodyOk(w, t.id, t.body);
    if t.body.history.Some? {
      DropOwnHistory(w, Owner(t.id), t.body.history.value);
    }
  }

  /** A published intent is a checkpoint's, and its row names its resources. */
  lemma PublishedCheckpoint(w: World, id: IntentId, body: Intent)
    requires WorldOk(w) && Saved(w, id, body)
    ensures IsPublished(w, id, body) <==> id.CheckpointOp? && Visible(w, id.c)
    ensures IsPublished(w, id, body) ==> SameResources(body, w.checkpoints[id.c])
  {
  }

  lemma ReconcileReads(s: State, o: Outcome)
    requires Ok(s) && s.txn.Reconciling?
    requires s.txn.rc.RcProvider? || s.txn.rc.RcPublished? || s.txn.rc.RcTarget? || s.txn.rc.RcAbort?
    ensures WorldOk(TickReconcile(s, o).w) && TxnOk(TickReconcile(s, o).w, TickReconcile(s, o).txn)
  {
    PublishedCheckpoint(s.w, s.txn.id, s.txn.body);
  }

  lemma ReconcileTables(s: State, o: Outcome)
    requires Ok(s) && s.txn.Reconciling?
    requires s.txn.rc.RcRow? || s.txn.rc.RcDropIntent? || s.txn.rc.RcReschedule?
    ensures WorldOk(TickReconcile(s, o).w) && TxnOk(TickReconcile(s, o).w, TickReconcile(s, o).txn)
  {
    var w, t := s.w, s.txn;
    assert BodyOk(w, t.id, t.body);
    PublishedCheckpoint(w, t.id, t.body);
    if t.rc.RcRow? {
      if t.id.DeleteOp? {
        DropRowKeeps(w, t.id.c);
      }
    } else if t.rc.RcDropIntent? {
      if t.id.CheckpointOp? && t.id.c in w.checkpoints {
        assert RowOk(w, t.id.c);
      }
      DropIntentKeeps(w, t.id);
    } else {
      if (t.id.CheckpointOp? || t.id.DeleteOp?) && t.id.c in w.checkpoints {
        assert RowOk(w, t.id.c);
      }
      assert forall s :: s in w.snapshots ==> Named(w, s);
      PutIntentKeeps(w, t.id, Rescheduled(t.body, t.now));
    }
  }

  // -------------------------------------------------------------- every step

  lemma TickKeepsWorld(s: State, o: Outcome, newId: nat)
    requires Ok(s)
    ensures WorldOk(TickTxn(s, o, newId).w) && TxnOk(TickTxn(s, o, newId).w, TickTxn(s, o, newId).txn)
  {
    var t := s.txn;
    match t
    case NoTxn =>
    case Checkpointing(_, _, ck, _, _, _) =>
      if ck.CkIntent? || ck.CkExport? || ck.CkHistory? {
        CheckpointEarly(s, o, newId);
      } else if ck.CkSnapshot? || ck.CkSnapId? {
        CheckpointSnapshot(s, o, newId);
      } else if ck.CkUndoHistory? || ck.CkUndoSnapshot? {
        CheckpointUndo(s, o, newId);
      } else {
        CheckpointLate(s, o, newId);
      }
    case Loading(_, _) => LoadTickKeeps(s, o);
    case Forking(_, _, fk, _, _, _) =>
      if fk.FkIntent? || fk.FkExport? || fk.FkHistory? {
        ForkEarly(s, o, newId);
      } else if fk.FkSnapshot? || fk.FkSnapId? || fk.FkLoad? || fk.FkDropSnapshot? {
        ForkSnapshot(s, o, newId);
      } else if fk.FkDropHistory? || fk.FkUndoHistory? {
        ForkHistory(s, o, newId);
      } else if fk.FkRow? || fk.FkUndoInstance? {
        ForkLast(s, o, newId);
      } else {
        ForkWaits(s, o, newId);
      }
    case Deleting(_, _, _) => DeleteTickKeeps(s, o);
    case Reconciling(_, rc, _, _, _) =>
      if rc.RcStop? {
        ReconcileStop(s, o);
      } else if rc.RcSnapshot? {
        ReconcileSnapshot(s, o);
      } else if rc.RcHistory? {
        ReconcileHistory(s, o);
      } else if rc.RcRow? || rc.RcDropIntent? || rc.RcReschedule? {
        ReconcileTables(s, o);
      } else {
        ReconcileReads(s, o);
      }
  }

  /** Session writes beside a transaction: another session opens, a turn fails, a
      session closes.  None of them touches the holder's resources. */
  lemma SessionWriteKeeps(s: State, w': World)
    requires Ok(s) && WorldOk(w')
    requires w' == s.w.(sessions := w'.sessions, instances := w'.instances, known := w'.known)
    requires s.w.sessions.Keys <= w'.sessions.Keys <= s.w.sessions.Keys + (w'.known - s.w.known)
    requires s.w.known <= w'.known
    requires forall r :: r in w'.instances && r !in s.w.instances ==> r !in s.w.known
    ensures TxnOk(w', s.txn)
  {
    var w, t := s.w, s.txn;
    if t.Reconciling? {
      assert BodyOk(w, t.id, t.body);
      assert t.body.target.Some? ==> t.id in w.used;
    }
  }

  lemma BeginKeeps(s: State, a: Action)
    requires Ok(s) && s.txn.NoTxn?
    ensures Ok(Begin(s, a))
  {
    var w, s' := s.w, Begin(s, a);
    match a
    case BeginCheckpoint(c, source) =>
      if CheckpointOp(c) !in w.used {
        SessionsAndInstancesKeep(w, w.(used := w.used + {CheckpointOp(c)}));
      }
    case BeginLoad(r, c) =>
      if r !in w.known {
        SessionsAndInstancesKeep(w, w.(used := w.used + {LoadOp(r)}, known := w.known + {r}, branched := w.branched + {r}));
      }
    case BeginFork(r, source) =>
      if r !in w.known {
        SessionsAndInstancesKeep(w, w.(used := w.used + {ForkOp(r)}, known := w.known + {r}, branched := w.branched + {r}));
      }
    case _ =>
  }

  // ---------------------------------------------------- the publication lock

  /** A transaction never rewrites a session row: it only adds its own target. */
  predicate RowsKept(w: World, w': World) {
    forall r :: r in w.sessions ==> r in w'.sessions && w'.sessions[r] == w.sessions[r]
  }

  /** A checkpoint row or a child row that a step adds comes from `source`. */
  predicate AddsOnlyFrom(w: World, w': World, source: RuntimeId) {
    && (forall c :: c in w'.checkpoints && c !in w.checkpoints ==> w'.checkpoints[c].source == source)
    && (forall c :: c in w'.checkpoints && c in w.checkpoints ==> w'.checkpoints[c] == w.checkpoints[c])
    && (forall r :: r in w'.parents && !(r in w.parents && w.parents[r] == w'.parents[r]) ==> w'.parents[r] == source)
  }

  predicate AddsNothing(w: World, w': World) {
    && w'.parents == w.parents
    && (forall c :: c in w'.checkpoints ==> c in w.checkpoints && w'.checkpoints[c] == w.checkpoints[c])
  }

  lemma CheckpointWrites(s: State, o: Outcome, newId: nat)
    requires s.txn.Checkpointing?
    requires s.txn.ck.CkRow? ==> s.txn.c !in s.w.checkpoints
    ensures TickCheckpoint(s, o, newId).w.sessions == s.w.sessions
    ensures TickCheckpoint(s, o, newId).w.instances == s.w.instances
    ensures if s.txn.ck.CkRow? then AddsOnlyFrom(s.w, TickCheckpoint(s, o, newId).w, s.txn.source)
            else AddsNothing(s.w, TickCheckpoint(s, o, newId).w)
  {
    match s.txn.ck
    case CkRow =>
    case _ =>
  }

  /** Before the child row is saved, a fork writes only its intent. */
  lemma ForkTables(s: State, o: Outcome, newId: nat)
    requires s.txn.Forking? && !s.txn.fk.FkRow?
    ensures var w' := TickFork(s, o, newId).w;
            && w'.sessions == s.w.sessions && w'.checkpoints == s.w.checkpoints && w'.parents == s.w.parents
            && w'.instances <= s.w.instances + {s.txn.r}
  {
    match s.txn.fk
    case FkExport =>
    case FkSnapshot =>
    case FkDropSnapshot(_) =>
    case FkUndoHistory(_) =>
    case _ =>
  }

  lemma ForkWrites(s: State, o: Outcome, newId: nat)
    requires s.txn.Forking? && s.txn.r !in s.w.sessions
    ensures RowsKept(s.w, TickFork(s, o, newId).w)
    ensures TickFork(s, o, newId).w.instances <= s.w.instances + {s.txn.r}
    ensures if s.txn.fk.FkRow? then AddsOnlyFrom(s.w, TickFork(s, o, newId).w, s.txn.source)
            else AddsNothing(s.w, TickFork(s, o, newId).w)
  {
    if !s.txn.fk.FkRow? {
      ForkTables(s, o, newId);
    }
  }

  lemma LoadWrites(s: State, o: Outcome)
    requires s.txn.Loading? && (s.txn.ld.LdRow? ==> s.txn.r !in s.w.sessions)
    ensures RowsKept(s.w, TickLoad(s, o).w) && AddsNothing(s.w, TickLoad(s, o).w)
  {
    match s.txn.ld
    case LdRow =>
    case _ => assert TickLoad(s, o).w.sessions == s.w.sessions;
  }

  lemma DeleteWrites(s: State, o: Outcome)
    requires s.txn.Deleting?
    ensures TickDelete(s, o).w.sessions == s.w.sessions && AddsNothing(s.w, TickDelete(s, o).w)
  {
    match s.txn.dl
    case DlRow =>
    case _ => assert TickDelete(s, o).w.checkpoints == s.w.checkpoints;
  }

  lemma ReconcileWrites(s: State, o: Outcome)
    requires s.txn.Reconciling?
    ensures TickReconcile(s, o).w.sessions == s.w.sessions && AddsNothing(s.w, TickReconcile(s, o).w)
    ensures TickReconcile(s, o).w.instances <= s.w.instances
  {
    match s.txn.rc
    case RcReschedule =>
    case RcDropIntent =>
    case RcRow =>
    case RcStop =>
    case RcSnapshot =>
    case RcHistory =>
    case _ => assert TickReconcile(s, o).w == s.w;
  }

  /** Every row a tick adds is saved under the publication lock, from a source whose
      instance exists at that moment. */
  lemma TickWrites(s: State, o: Outcome, newId: nat)
    requires TxnOk(s.w, s.txn) && PublicationOk(s)
    ensures RowsKept(s.w, TickTxn(s, o, newId).w)
    ensures AddsNothing(s.w, TickTxn(s, o, newId).w)
            || exists r :: Live(s.w, r) && s.pub.PubTxn? && AddsOnlyFrom(s.w, TickTxn(s, o, newId).w, r)
  {
    match s.txn
    case NoTxn =>
    case Checkpointing(_, _, _, _, _, _) => CheckpointWrites(s, o, newId);
    case Forking(_, _, _, _, _, _) => ForkWrites(s, o, newId);
    case Loading(_, _) => LoadWrites(s, o);
    case Deleting(_, _, _) => DeleteWrites(s, o);
    case Reconciling(_, _, _, _, _) => ReconcileWrites(s, o);
  }

  lemma CheckpointPublication(s: State, o: Outcome, newId: nat)
    requires PublicationOk(s) && s.txn.Checkpointing?
    requires TickCheckpoint(s, o, newId).w.sessions == s.w.sessions
    ensures PublicationOk(TickCheckpoint(s, o, newId))
  {
  }

  lemma ForkPublication(s: State, o: Outcome, newId: nat)
    requires PublicationOk(s) && s.txn.Forking?
    requires RowsKept(s.w, TickFork(s, o, newId).w)
    ensures PublicationOk(TickFork(s, o, newId))
  {
  }

  lemma TickKeepsPublication(s: State, o: Outcome, newId: nat)
    requires TxnOk(s.w, s.txn) && PublicationOk(s)
    ensures PublicationOk(TickTxn(s, o, newId))
  {
    match s.txn
    case NoTxn =>
    case Checkpointing(_, _, _, _, _, _) =>
      CheckpointWrites(s, o, newId);
      CheckpointPublication(s, o, newId);
    case Forking(_, _, _, _, _, _) =>
      ForkWrites(s, o, newId);
      ForkPublication(s, o, newId);
    case Loading(_, _) => LoadWrites(s, o);
    case Deleting(_, _, _) => DeleteWrites(s, o);
    case Reconciling(_, _, _, _, _) => ReconcileWrites(s, o);
  }

  lemma CloseKeeps(s: State, o: Outcome)
    requires Ok(s)
    ensures Ok(TickClose(s, o))
  {
    match s.pub
    case PubDestroy(r) =>
      StopAny(s.w, r);
      SessionWriteKeeps(s, TickClose(s, o).w);
    case PubClosed(r) =>
      SaveSession(s.w, r, Closed);
      SessionWriteKeeps(s, TickClose(s, o).w);
    case _ =>
  }

  lemma OpenKeeps(s: State, r: RuntimeId, p: ProviderId)
    requires Ok(s)
    ensures Ok(Step(s, OpenSession(r, p)))
  {
    if r !in s.w.known && p in s.cfg.registered {
      SessionsAndInstancesKeep(s.w, Step(s, OpenSession(r, p)).w);
      SessionWriteKeeps(s, Step(s, OpenSession(r, p)).w);
    }
  }

  lemma StatusKeeps(s: State, r: RuntimeId, status: Status)
    requires Ok(s)
    ensures Ok(Step(s, StatusWritten(r, status)))
  {
    if r in s.w.sessions {
      SaveSession(s.w, r, status);
      SessionWriteKeeps(s, PutSession(s.w, r, status));
    }
  }

  lemma StepKeeps(s: State, a: Action)
    requires Ok(s)
    ensures Ok(Step(s, a))
  {
    match a
    case Tick(o, newId) =>
      TickKeepsWorld(s, o, newId);
      TickKeepsPublication(s, o, newId);
    case CloseTick(o) => CloseKeeps(s, o);
    case OpenSession(r, p) => OpenKeeps(s, r, p);
    case StatusWritten(r, status) => StatusKeeps(s, r, status);
    case BeginClose(_) =>
    case Crash =>
    case Reregister(_) =>
    case _ =>
      if s.txn.NoTxn? {
        BeginKeeps(s, a);
      }
  }

  lemma {:induction false} RunKeeps(s: State, actions: seq<Action>)
    requires Ok(s)
    ensures Ok(Run(s, actions))
    decreases |actions|
  {
    if actions != [] {
      StepKeeps(s, actions[0]);
      RunKeeps(Step(s, actions[0]), actions[1..]);
    }
  }

  // ----------------------------------------------------------- main theorems

  /**
   In every run, with a crash or a failure between any two awaits, a live snapshot
   is named by the intent of the operation that made it or by that operation's
   checkpoint row, and an instance made by a load or a fork is named by a session
   row or by its intent.
   */
  lemma NothingIsOrphaned(actions: seq<Action>)
    ensures var w := Run(Initial, actions).w;
            && (forall s :: s in w.snapshots ==> s in w.origin && Named(w, s))
            && (forall r :: r in w.instances && r in w.branched ==>
                              r in w.sessions || LoadOp(r) in w.intents || ForkOp(r) in w.intents)
  {
    RunKeeps(Initial, actions);
  }

  /** In every run a published checkpoint has its snapshot and its history, unless
      a delete intent is pending. */
  lemma PublishedIsBacked(actions: seq<Action>, c: CheckpointId)
    ensures var w := Run(Initial, actions).w;
            Visible(w, c) ==> w.checkpoints[c].snap in w.snapshots && w.checkpoints[c].hist in w.histories
  {
    RunKeeps(Initial, actions);
    var w := Run(Initial, actions).w;
    if Visible(w, c) {
      assert RowOk(w, c);
    }
  }

  lemma ReconcileSparesRow(s: State, o: Outcome, c: CheckpointId)
    requires Ok(s) && s.txn.Reconciling? && Visible(s.w, c)
    ensures var w' := TickReconcile(s, o).w;
            && c in w'.checkpoints && w'.checkpoints[c] == s.w.checkpoints[c]
            && w'.checkpoints[c].snap in w'.snapshots && w'.checkpoints[c].hist in w'.histories
  {
    var w, w', t := s.w, TickReconcile(s, o).w, s.txn;
    assert BodyOk(w, t.id, t.body);
    assert RowOk(w, c);
    PublishedCheckpoint(w, t.id, t.body);
    match t.rc
    case RcSnapshot =>
    case RcHistory =>
    case RcRow =>
    case _ => assert w'.snapshots == w.snapshots && w'.histories == w.histories && w'.checkpoints == w.checkpoints;
  }

  lemma ReconcileSparesInstance(s: State, o: Outcome, r: RuntimeId)
    requires TxnOk(s.w, s.txn) && s.txn.Reconciling? && Live(s.w, r)
    ensures r in TickReconcile(s, o).w.instances
  {
    match s.txn.rc
    case RcStop =>
    case _ => assert TickReconcile(s, o).w.instances == s.w.instances;
  }

  /** A reconcile step deletes nothing that belongs to a visible checkpoint and
      stops no instance that has a session row. */
  lemma ReconcileSpares(s: State, o: Outcome)
    requires Ok(s) && s.txn.Reconciling?
    ensures var w' := TickReconcile(s, o).w;
            && (forall c :: Visible(s.w, c) ==>
                              && c in w'.checkpoints && w'.checkpoints[c] == s.w.checkpoints[c]
                              && w'.checkpoints[c].snap in w'.snapshots && w'.checkpoints[c].hist in w'.histories)
            && (forall r :: r in s.w.instances && r in s.w.sessions ==> r in w'.instances)
  {
    forall c | Visible(s.w, c)
      ensures var w' := TickReconcile(s, o).w;
              && c in w'.checkpoints && w'.checkpoints[c] == s.w.checkpoints[c]
              && w'.checkpoints[c].snap in w'.snapshots && w'.checkpoints[c].hist in w'.histories
    {
      ReconcileSparesRow(s, o, c);
    }
    forall r | r in s.w.instances && r in s.w.sessions ensures r in TickReconcile(s, o).w.instances {
      ReconcileSparesInstance(s, o, r);
    }
  }

  /** The same, over every run. */
  lemma ReconcileSparesAlways(actions: seq<Action>, o: Outcome, newId: nat)
    requires Run(Initial, actions).txn.Reconciling?
    ensures var w, w' := Run(Initial, actions).w, Step(Run(Initial, actions), Tick(o, newId)).w;
            && (forall c :: Visible(w, c) ==>
                              && c in w'.checkpoints && w'.checkpoints[c] == w.checkpoints[c]
                              && w'.checkpoints[c].snap in w'.snapshots && w'.checkpoints[c].hist in w'.histories)
            && (forall r :: r in w.instances && r in w.sessions ==> r in w'.instances)
  {
    RunKeeps(Initial, actions);
    ReconcileSpares(Run(Initial, actions), o);
  }

  /** No row of a checkpoint or child taken from `r` was added. */
  predicate NoNewRows(w: World, w': World, r: RuntimeId) {
    && (forall c :: c in w'.checkpoints && w'.checkpoints[c].source == r ==> c in w.checkpoints && w.checkpoints[c].source == r)
    && (forall k :: k in w'.parents && w'.parents[k] == r ==> k in w.parents && w.parents[k] == r)
  }

  /** `r` has a row and its instance was destroyed. */
  predicate Destroyed(w: World, r: RuntimeId) {
    r in w.sessions && r !in w.instances
  }

  /** No operation gives a session that lost its instance a new one. */
  lemma TickStarts(s: State, o: Outcome, newId: nat, r: RuntimeId)
    requires TxnOk(s.w, s.txn) && Destroyed(s.w, r)
    ensures r !in TickTxn(s, o, newId).w.instances
  {
    match s.txn
    case Checkpointing(_, _, _, _, _, _) => CheckpointWrites(s, o, newId);
    case Forking(_, _, _, _, _, _) => ForkWrites(s, o, newId);
    case Reconciling(_, _, _, _, _) => ReconcileWrites(s, o);
    case _ =>
  }

  lemma TickAfterDestroy(s: State, o: Outcome, newId: nat, r: RuntimeId)
    requires Ok(s) && Destroyed(s.w, r)
    ensures var w' := TickTxn(s, o, newId).w; Destroyed(w', r) && NoNewRows(s.w, w', r)
  {
    TickWrites(s, o, newId);
    TickStarts(s, o, newId, r);
  }

  lemma OtherAfterDestroy(s: State, a: Action, r: RuntimeId)
    requires Destroyed(s.w, r) && r in s.w.known && !a.Tick?
    ensures Destroyed(Step(s, a).w, r) && NoNewRows(s.w, Step(s, a).w, r)
  {
    if a.CloseTick? {
      CloseAfterDestroy(s, a.o, r);
    } else if a.BeginCheckpoint? || a.BeginLoad? || a.BeginFork? || a.BeginDelete? || a.BeginReconcile? {
      BeginWrites(s, a);
    }
  }

  lemma CloseAfterDestroy(s: State, o: Outcome, r: RuntimeId)
    requires Destroyed(s.w, r)
    ensures Destroyed(TickClose(s, o).w, r) && NoNewRows(s.w, TickClose(s, o).w, r)
  {
  }

  /** An operation that begins writes nothing yet. */
  lemma BeginWrites(s: State, a: Action)
    ensures var w, w' := s.w, Begin(s, a).w;
            w'.sessions == w.sessions && w'.instances == w.instances && w'.checkpoints == w.checkpoints && w'.parents == w.parents
  {
  }

  lemma StepAfterDestroy(s: State, a: Action, r: RuntimeId)
    requires Ok(s) && Destroyed(s.w, r)
    ensures Destroyed(Step(s, a).w, r) && NoNewRows(s.w, Step(s, a).w, r)
  {
    if a.Tick? {
      TickAfterDestroy(s, a.o, a.newId, r);
    } else {
      OtherAfterDestroy(s, a, r);
    }
  }

  lemma {:induction false} RunAfterDestroy(s: State, actions: seq<Action>, r: RuntimeId)
    requires Ok(s) && Destroyed(s.w, r)
    ensures Destroyed(Run(s, actions).w, r) && NoNewRows(s.w, Run(s, actions).w, r)
    decreases |actions|
  {
    if actions != [] {
      StepKeeps(s, actions[0]);
      StepAfterDestroy(s, actions[0], r);
      RunAfterDestroy(Step(s, actions[0]), actions[1..], r);
    }
  }

  /**
   From the moment `close` has destroyed a session's instance, no continuation of the
   run saves a checkpoint row or a fork child row from it: however the long operations
   interleave with `close`, and whatever is later written over the row's status.
   */
  lemma NothingPublishedAfterClose(before: seq<Action>, after: seq<Action>, r: RuntimeId)
    requires Run(Initial, before).pub == PubDestroy(r)
    ensures var closed := Step(Run(Initial, before), CloseTick(Done));
            Destroyed(Run(closed, after).w, r) && NoNewRows(closed.w, Run(closed, after).w, r)
  {
    RunKeeps(Initial, before);
    StepKeeps(Run(Initial, before), CloseTick(Done));
    RunAfterDestroy(Step(Run(Initial, before), CloseTick(Done)), after, r);
  }

  /** The row says Closed, and no operation is past its re-check of it. */
  predicate ClosedRow(s: State, r: RuntimeId) {
    r in s.w.sessions && s.w.sessions[r].Closed? && !Rechecked(s.txn, r)
  }

  lemma CheckpointRecheck(s: State, o: Outcome, newId: nat, r: RuntimeId)
    requires s.txn.Checkpointing? && ClosedRow(s, r)
    ensures !Rechecked(TickCheckpoint(s, o, newId).txn, r)
  {
    match s.txn.ck
    case CkStatus =>
    case CkLock =>
    case _ =>
  }

  lemma ForkRecheck(s: State, o: Outcome, newId: nat, r: RuntimeId)
    requires s.txn.Forking? && ClosedRow(s, r)
    ensures !Rechecked(TickFork(s, o, newId).txn, r)
  {
    match s.txn.fk
    case FkStatus =>
    case FkLock =>
    case _ =>
  }

  lemma TickRecheck(s: State, o: Outcome, newId: nat, r: RuntimeId)
    requires ClosedRow(s, r)
    ensures !Rechecked(TickTxn(s, o, newId).txn, r)
  {
    match s.txn
    case Checkpointing(_, _, _, _, _, _) => CheckpointRecheck(s, o, newId, r);
    case Forking(_, _, _, _, _, _) => ForkRecheck(s, o, newId, r);
    case _ =>
  }

  lemma TickClosedRow(s: State, o: Outcome, newId: nat, r: RuntimeId)
    requires TxnOk(s.w, s.txn) && ClosedRow(s, r)
    ensures RowsKept(s.w, TickTxn(s, o, newId).w) && NoNewRows(s.w, TickTxn(s, o, newId).w, r)
  {
    match s.txn
    case NoTxn =>
    case Checkpointing(_, _, _, _, _, _) => CheckpointWrites(s, o, newId);
    case Forking(_, _, _, _, _, _) => ForkWrites(s, o, newId);
    case Loading(_, _) => LoadWrites(s, o);
    case Deleting(_, _, _) => DeleteWrites(s, o);
    case Reconciling(_, _, _, _, _) => ReconcileWrites(s, o);
  }

  lemma BeginClosedRow(s: State, a: Action, r: RuntimeId)
    requires s.txn.NoTxn? && ClosedRow(s, r)
    ensures ClosedRow(Begin(s, a), r) && NoNewRows(s.w, Begin(s, a).w, r)
  {
    BeginWrites(s, a);
  }

  lemma CloseClosedRow(s: State, o: Outcome, r: RuntimeId)
    requires ClosedRow(s, r)
    ensures ClosedRow(TickClose(s, o), r) && NoNewRows(s.w, TickClose(s, o).w, r)
  {
  }

  lemma SessionsClosedRow(s: State, a: Action, r: RuntimeId)
    requires ClosedRow(s, r) && r in s.w.known && !(a.StatusWritten? && a.r == r)
    requires a.OpenSession? || a.StatusWritten? || a.BeginClose? || a.Crash? || a.Reregister?
    ensures ClosedRow(Step(s, a), r) && NoNewRows(s.w, Step(s, a).w, r)
  {
  }

  lemma StepClosedRow(s: State, a: Action, r: RuntimeId)
    requires TxnOk(s.w, s.txn) && ClosedRow(s, r) && r in s.w.known && !(a.StatusWritten? && a.r == r)
    ensures ClosedRow(Step(s, a), r) && NoNewRows(s.w, Step(s, a).w, r)
  {
    if a.Tick? {
      TickRecheck(s, a.o, a.newId, r);
      TickClosedRow(s, a.o, a.newId, r);
    } else if a.CloseTick? {
      CloseClosedRow(s, a.o, r);
    } else if a.OpenSession? || a.StatusWritten? || a.BeginClose? || a.Crash? || a.Reregister? {
      SessionsClosedRow(s, a, r);
    } else if s.txn.NoTxn? {
      BeginClosedRow(s, a, r);
    }
  }

  lemma {:induction false} RunClosedRow(s: State, actions: seq<Action>, r: RuntimeId)
    requires Ok(s) && ClosedRow(s, r)
    requires forall k :: 0 <= k < |actions| ==> !(actions[k].StatusWritten? && actions[k].r == r)
    ensures NoNewRows(s.w, Run(s, actions).w, r)
    decreases |actions|
  {
    if actions != [] {
      StepKeeps(s, actions[0]);
      StepClosedRow(s, actions[0], r);
      RunClosedRow(Step(s, actions[0]), actions[1..], r);
    }
  }

  lemma ClosedRowSaved(s: State, r: RuntimeId)
    requires Ok(s) && s.pub == PubClosed(r)
    ensures ClosedRow(Step(s, CloseTick(Done)), r)
  {
  }

  /** What the status re-check does by itself: for as long as nothing overwrites a closed
      row's status, nothing is published from it, restarts with any registration included. */
  lemma ClosedRowBlocks(before: seq<Action>, after: seq<Action>, r: RuntimeId)
    requires Run(Initial, before).pub == PubClosed(r)
    requires forall k :: 0 <= k < |after| ==> !(after[k].StatusWritten? && after[k].r == r)
    ensures var closed := Step(Run(Initial, before), CloseTick(Done));
            NoNewRows(closed.w, Run(closed, after).w, r)
  {
    RunKeeps(Initial, before);
    StepKeeps(Run(Initial, before), CloseTick(Done));
    ClosedRowSaved(Run(Initial, before), r);
    RunClosedRow(Step(Run(Initial, before), CloseTick(Done)), after, r);
  }

  // ----------------------------------------------------------------- backoff

  /** The wait after `b` failures is not shorter than after `a`, and at most thirty seconds. */
  lemma BackoffBounded(a: nat, b: nat)
    requires a <= b
    ensures Backoff(a) <= Backoff(b) <= 30000
    ensures 1 <= a ==> 2000 <= Backoff(a)
  {
    assert Shifted(0) == 1000;
    assert Shifted(1) == 2000;
    assert Shifted(2) == 4000;
    assert Shifted(3) == 8000;
    assert Shifted(4) == 16000;
    assert Shifted(5) == 32000;
  }

  /** Two successive failures of one intent: the second wait is at least as long as the
      first, and neither exceeds thirty seconds, as long as the clock is not within
      thirty seconds of its last value. */
  lemma RetryDelaysGrow(body: Intent, now1: nat, now2: nat)
    requires now1 + 30000 <= U64_MAX && now2 + 30000 <= U64_MAX
    ensures var first := Rescheduled(body, now1);
            var second := Rescheduled(first, now2);
            0 <= first.retryAt - now1 <= second.retryAt - now2 <= 30000
  {
    BackoffBounded(Rescheduled(body, now1).retryCount, Rescheduled(Rescheduled(body, now1), now2).retryCount);
  }
}
