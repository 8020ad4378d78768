/**
 What each snapshot operation achieves when every await succeeds: the whole world
 after it, so that a skipped or misplaced step would show.
 */
module SnapshotOutcomes {
  import opened Options
  import opened SnapshotWorld
  import opened SnapshotProtocol

  function Next(s: State, newId: nat): State {
    Step(s, Tick(Done, newId))
  }

  predicate Ready(s: State) {
    Ok(s) && s.txn.NoTxn? && s.pub.PubFree?
  }

  // ------------------------------------------------------------- checkpoint

  function CheckpointBody(p: Option<ProviderId>, c: CheckpointId, snapshot: SnapRef, history: Option<HistId>): Intent {
    Intent(p, None, Some(c), Some(snapshot), history, 0, 0)
  }

  function AfterSnapshot(w: World, op: IntentId, h: HistId, n: SnapId): World {
    MakeSnapshot(MakeHistory(w.(used := w.used + {op}), h, op), n, op)
  }

  lemma CheckpointExports(s: State, c: CheckpointId, source: RuntimeId, h: HistId)
    requires s.txn.NoTxn? && s.pub.PubFree? && CheckpointOp(c) !in s.w.used && source in s.w.sessions && Resolves(s.cfg, source)
    requires h !in s.w.histOwner
    ensures var op, b := CheckpointOp(c), CheckpointBody(NameOf(s.cfg, source), c, ByRequest(CheckpointOp(c)), Some(h));
            Next(Next(Next(Step(s, BeginCheckpoint(c, source)), 0), h), 0)
            == State(PutIntent(MakeHistory(s.w.(used := s.w.used + {op}), h, op), op, b),
                     Checkpointing(c, source, CkSnapshot, b, h, 0), PubFree, s.cfg)
  {
    var op := CheckpointOp(c);
    var b0 := CheckpointBody(NameOf(s.cfg, source), c, ByRequest(op), None);
    var s1 := Next(Step(s, BeginCheckpoint(c, source)), 0);
    assert s1 == State(PutIntent(s.w.(used := s.w.used + {op}), op, b0), Checkpointing(c, source, CkExport, b0, 0, 0), PubFree, s.cfg);
  }

  lemma CheckpointSnapshots(s: State, n: SnapId)
    requires s.pub.PubFree? && s.txn.Checkpointing? && s.txn.ck.CkSnapshot? && n !in s.w.origin
    ensures var t, op := s.txn, CheckpointOp(s.txn.c);
            var b := t.body.(snapshot := Some(ById(n)));
            Next(Next(s, n), 0) == State(PutIntent(MakeSnapshot(s.w, n, op), op, b), t.(ck := CkLock, body := b, snap := n), PubFree, s.cfg)
  {
  }

  /** The first half: history and snapshot exist and the intent names both. */
  lemma CheckpointTakes(s: State, c: CheckpointId, source: RuntimeId, h: HistId, n: SnapId)
    requires s.txn.NoTxn? && s.pub.PubFree? && CheckpointOp(c) !in s.w.used && source in s.w.sessions && Resolves(s.cfg, source)
    requires h !in s.w.histOwner && n !in s.w.origin
    ensures var b := CheckpointBody(NameOf(s.cfg, source), c, ById(n), Some(h));
            Next(Next(Next(Next(Next(Step(s, BeginCheckpoint(c, source)), 0), h), 0), n), 0)
            == State(PutIntent(AfterSnapshot(s.w, CheckpointOp(c), h, n), CheckpointOp(c), b),
                     Checkpointing(c, source, CkLock, b, h, n), PubFree, s.cfg)
  {
    var op, p := CheckpointOp(c), NameOf(s.cfg, source);
    CheckpointExports(s, c, source, h);
    CheckpointSnapshots(Next(Next(Next(Step(s, BeginCheckpoint(c, source)), 0), h), 0), n);
    assert s.w.intents[op := CheckpointBody(p, c, ByRequest(op), Some(h))][op := CheckpointBody(p, c, ById(n), Some(h))]
        == s.w.intents[op := CheckpointBody(p, c, ById(n), Some(h))];
  }

  /** The second half: under the publication lock the row is saved and the intent dropped. */
  lemma CheckpointPublishes(s: State)
    requires s.pub.PubFree? && s.txn.Checkpointing? && s.txn.ck.CkLock? && !Gone(s.w, s.txn.source) && s.txn.source in s.w.instances
    ensures Next(Next(Next(Next(Next(s, 0), 0), 0), 0), 0)
            == State(DropIntent(PutRow(s.w, s.txn.c, Row(s.txn.source, s.txn.snap, s.txn.hist)), CheckpointOp(s.txn.c)), NoTxn, PubFree, s.cfg)
  {
  }

  /** An operation that has not begun has no intent. */
  lemma NewHasNoIntent(s: State, op: IntentId)
    requires Ok(s) && op !in s.w.used && !op.DeleteOp?
    ensures op !in s.w.intents
  {
  }

  lemma CheckpointRuns(s: State, c: CheckpointId, source: RuntimeId, h: HistId, n: SnapId)
    requires s.txn.NoTxn? && s.pub.PubFree? && CheckpointOp(c) !in s.w.intents && CheckpointOp(c) !in s.w.used && !Gone(s.w, source) && source in s.w.instances && Resolves(s.cfg, source)
    requires h !in s.w.histOwner && n !in s.w.origin
    ensures var mid := Next(Next(Next(Next(Next(Step(s, BeginCheckpoint(c, source)), 0), h), 0), n), 0);
            Next(Next(Next(Next(Next(mid, 0), 0), 0), 0), 0)
            == State(PutRow(AfterSnapshot(s.w, CheckpointOp(c), h, n), c, Row(source, n, h)), NoTxn, PubFree, s.cfg)
  {
    var op := CheckpointOp(c);
    CheckpointTakes(s, c, source, h, n);
    var mid := Next(Next(Next(Next(Next(Step(s, BeginCheckpoint(c, source)), 0), h), 0), n), 0);
    CheckpointPublishes(mid);
    assert s.w.intents[op := CheckpointBody(NameOf(s.cfg, source), c, ById(n), Some(h))] - {op} == s.w.intents;
  }

  /** A checkpoint that meets no failure adds one row with its snapshot and history,
      leaves no intent and changes nothing else. */
  lemma CheckpointSucceeds(s: State, c: CheckpointId, source: RuntimeId, h: HistId, n: SnapId)
    requires Ready(s) && CheckpointOp(c) !in s.w.used && !Gone(s.w, source) && source in s.w.instances && Resolves(s.cfg, source)
    requires h !in s.w.histOwner && n !in s.w.origin
    ensures var mid := Next(Next(Next(Next(Next(Step(s, BeginCheckpoint(c, source)), 0), h), 0), n), 0);
            Next(Next(Next(Next(Next(mid, 0), 0), 0), 0), 0)
            == State(PutRow(AfterSnapshot(s.w, CheckpointOp(c), h, n), c, Row(source, n, h)), NoTxn, PubFree, s.cfg)
  {
    NewHasNoIntent(s, CheckpointOp(c));
    CheckpointRuns(s, c, source, h, n);
  }

  // ------------------------------------------------------------------- load

  lemma LoadStarts(s: State, r: RuntimeId, c: CheckpointId)
    requires s.txn.NoTxn? && s.pub.PubFree? && r !in s.w.known && Visible(s.w, c) && Resolves(s.cfg, s.w.checkpoints[c].source)
    ensures Next(Next(Step(s, BeginLoad(r, c)), 0), 0)
            == State(StartInstance(PutIntent(Branch(s.w, LoadOp(r)), LoadOp(r), FirstBody(NameOf(s.cfg, s.w.checkpoints[c].source), Some(r), None, None)), r),
                     Loading(r, LdStart), PubFree, Inherit(s, r, s.w.checkpoints[c].source).cfg)
  {
  }

  lemma LoadEnds(s: State, r: RuntimeId)
    requires s.txn == Loading(r, LdStart) && s.pub.PubFree?
    ensures Next(Next(Next(Next(s, 0), 0), 0), 0) == State(DropIntent(PutSession(s.w, r, Idle), LoadOp(r)), NoTxn, PubFree, s.cfg)
  {
  }

  lemma LoadRuns(s: State, r: RuntimeId, c: CheckpointId)
    requires s.txn.NoTxn? && s.pub.PubFree? && LoadOp(r) !in s.w.intents && r !in s.w.known && Visible(s.w, c) && Resolves(s.cfg, s.w.checkpoints[c].source)
    ensures Next(Next(Next(Next(Next(Next(Step(s, BeginLoad(r, c)), 0), 0), 0), 0), 0), 0)
            == State(StartInstance(PutSession(Branch(s.w, LoadOp(r)), r, Idle), r), NoTxn, PubFree,
                     Inherit(s, r, s.w.checkpoints[c].source).cfg)
  {
    LoadStarts(s, r, c);
    LoadEnds(Next(Next(Step(s, BeginLoad(r, c)), 0), 0), r);
    assert s.w.intents[LoadOp(r) := FirstBody(NameOf(s.cfg, s.w.checkpoints[c].source), Some(r), None, None)] - {LoadOp(r)} == s.w.intents;
  }

  /** A load that meets no failure adds one instance and its session row. */
  lemma LoadSucceeds(s: State, r: RuntimeId, c: CheckpointId)
    requires Ready(s) && r !in s.w.known && Visible(s.w, c) && Resolves(s.cfg, s.w.checkpoints[c].source)
    ensures Next(Next(Next(Next(Next(Next(Step(s, BeginLoad(r, c)), 0), 0), 0), 0), 0), 0)
            == State(StartInstance(PutSession(Branch(s.w, LoadOp(r)), r, Idle), r), NoTxn, PubFree,
                     Inherit(s, r, s.w.checkpoints[c].source).cfg)
  {
    NewHasNoIntent(s, LoadOp(r));
    LoadRuns(s, r, c);
  }

  /** The bookkeeping of a fresh target. */
  function Branch(w: World, op: IntentId): World
    requires op.LoadOp? || op.ForkOp?
  {
    w.(used := w.used + {op}, known := w.known + {op.r}, branched := w.branched + {op.r})
  }

  // ------------------------------------------------------------------- fork

  function ForkBody(p: Option<ProviderId>, r: RuntimeId, snapshot: SnapRef, history: Option<HistId>): Intent {
    Intent(p, Some(r), None, Some(snapshot), history, 0, 0)
  }

  lemma ForkExports(s: State, r: RuntimeId, source: RuntimeId, h: HistId)
    requires s.txn.NoTxn? && s.pub.PubFree? && r !in s.w.known && source in s.w.sessions && Resolves(s.cfg, source)
    requires h !in s.w.histOwner
    ensures var op, b := ForkOp(r), ForkBody(NameOf(s.cfg, source), r, ByRequest(ForkOp(r)), Some(h));
            Next(Next(Next(Step(s, BeginFork(r, source)), 0), h), 0)
            == State(PutIntent(MakeHistory(Branch(s.w, op), h, op), op, b), Forking(r, source, FkSnapshot, b, h, 0), PubFree,
                     Inherit(s, r, source).cfg)
  {
    var op := ForkOp(r);
    var b0 := ForkBody(NameOf(s.cfg, source), r, ByRequest(op), None);
    var s1 := Next(Step(s, BeginFork(r, source)), 0);
    assert s1 == State(PutIntent(Branch(s.w, op), op, b0), Forking(r, source, FkExport, b0, 0, 0), PubFree, Inherit(s, r, source).cfg);
  }

  lemma ForkSnapshots(s: State, n: SnapId)
    requires s.pub.PubFree? && s.txn.Forking? && s.txn.fk.FkSnapshot? && n !in s.w.origin
    ensures var t, op := s.txn, ForkOp(s.txn.r);
            var b := t.body.(snapshot := Some(ById(n)));
            Next(Next(s, n), 0) == State(PutIntent(MakeSnapshot(s.w, n, op), op, b), t.(fk := FkLoad, body := b, snap := n), PubFree, s.cfg)
  {
  }

  lemma ForkTakes(s: State, r: RuntimeId, source: RuntimeId, h: HistId, n: SnapId)
    requires s.txn.NoTxn? && s.pub.PubFree? && r !in s.w.known && source in s.w.sessions && Resolves(s.cfg, source)
    requires h !in s.w.histOwner && n !in s.w.origin
    ensures var b := ForkBody(NameOf(s.cfg, source), r, ById(n), Some(h));
            Next(Next(Next(Next(Next(Step(s, BeginFork(r, source)), 0), h), 0), n), 0)
            == State(PutIntent(MakeSnapshot(MakeHistory(Branch(s.w, ForkOp(r)), h, ForkOp(r)), n, ForkOp(r)), ForkOp(r), b),
                     Forking(r, source, FkLoad, b, h, n), PubFree, Inherit(s, r, source).cfg)
  {
    ForkExports(s, r, source, h);
    ForkSnapshots(Next(Next(Next(Step(s, BeginFork(r, source)), 0), h), 0), n);
    var op := ForkOp(r);
    assert s.w.intents[op := ForkBody(NameOf(s.cfg, source), r, ByRequest(op), Some(h))][op := ForkBody(NameOf(s.cfg, source), r, ById(n), Some(h))]
        == s.w.intents[op := ForkBody(NameOf(s.cfg, source), r, ById(n), Some(h))];
  }

  /** From the loaded snapshot to the child row: the temporary snapshot and history
      are gone, and the intent stays for the reconciler. */
  lemma ForkPublishes(s: State)
    requires s.pub.PubFree? && s.txn.Forking? && s.txn.fk.FkLoad? && !Gone(s.w, s.txn.source) && s.txn.source in s.w.instances
    ensures var t := s.txn;
            Next(Next(Next(Next(Next(Next(Next(Next(Next(s, 0), 0), 0), 0), 0), 0), 0), 0), 0)
            == State(PutChild(DropHistory(DropSnapshot(StartInstance(s.w, t.r), ById(t.snap)), t.hist), t.r, t.source), NoTxn, PubFree, s.cfg)
  {
    var t := s.txn;
    var w1 := DropSnapshot(StartInstance(s.w, t.r), ById(t.snap));
    var s1 := Next(Next(s, 0), 0);
    assert s1 == State(w1, t.(fk := FkStart), PubFree, s.cfg);
    var w2 := DropHistory(w1, t.hist);
    var s2 := Next(Next(s1, 0), 0);
    assert s2 == State(w2, t.(fk := FkState), PubFree, s.cfg);
    var s3 := Next(Next(s2, 0), 0);
    assert s3 == State(w2, t.(fk := FkStatus), PubTxn, s.cfg);
    var s4 := Next(Next(s3, 0), 0);
    assert s4 == State(w2, t.(fk := FkRow), PubTxn, s.cfg);
  }

  /** A fork that meets no failure adds one instance and its child row; of its snapshot
      and history only the intent is left, for the reconciler. */
  lemma ForkSucceeds(s: State, r: RuntimeId, source: RuntimeId, h: HistId, n: SnapId)
    requires s.txn.NoTxn? && s.pub.PubFree? && r !in s.w.known && !Gone(s.w, source) && source in s.w.instances && Resolves(s.cfg, source)
    requires h !in s.w.histOwner && n !in s.w.origin && h !in s.w.histories && n !in s.w.snapshots
    ensures var mid := Next(Next(Next(Next(Next(Step(s, BeginFork(r, source)), 0), h), 0), n), 0);
            var end := Next(Next(Next(Next(Next(Next(Next(Next(Next(mid, 0), 0), 0), 0), 0), 0), 0), 0), 0);
            && end.txn.NoTxn? && end.pub.PubFree?
            && end.w.intents == s.w.intents[ForkOp(r) := ForkBody(NameOf(s.cfg, source), r, ById(n), Some(h))]
            && end.w.snapshots == s.w.snapshots && end.w.histories == s.w.histories && end.w.checkpoints == s.w.checkpoints
            && end.w.instances == s.w.instances + {r}
            && end.w.sessions == s.w.sessions[r := Idle] && end.w.parents == s.w.parents[r := source]
  {
    ForkTakes(s, r, source, h, n);
    var mid := Next(Next(Next(Next(Next(Step(s, BeginFork(r, source)), 0), h), 0), n), 0);
    ForkPublishes(mid);
    assert mid.w.snapshots == s.w.snapshots + {n} && mid.w.histories == s.w.histories + {h};
    assert DropSnapshot(StartInstance(mid.w, r), ById(n)).snapshots == s.w.snapshots;
    assert (s.w.histories + {h}) - {h} == s.w.histories;
  }

  // ----------------------------------------------------------------- delete

  /** Deleting a checkpoint and meeting no failure removes its row, its snapshot and
      its history, and leaves no delete intent. */
  lemma DeleteSucceeds(s: State, c: CheckpointId)
    requires Ready(s) && Visible(s.w, c) && Resolves(s.cfg, s.w.checkpoints[c].source)
    ensures var row := s.w.checkpoints[c];
            Next(Next(Next(Next(Next(Step(s, BeginDelete(c)), 0), 0), 0), 0), 0)
            == State(DropRow(DropHistory(DropSnapshot(s.w, ById(row.snap)), row.hist), c), NoTxn, PubFree, s.cfg)
  {
    var row := s.w.checkpoints[c];
    assert RowOk(s.w, c);
    var op := DeleteOp(c);
    var w1 := PutIntent(s.w, op, DeleteBody(NameOf(s.cfg, row.source), c, row));
    var s1 := Next(Step(s, BeginDelete(c)), 0);
    assert s1 == State(w1, Deleting(c, DlSnapshot, row), PubFree, s.cfg);
    var w2 := DropSnapshot(w1, ById(row.snap));
    var s2 := Next(s1, 0);
    assert s2 == State(w2, Deleting(c, DlHistory, row), PubFree, s.cfg);
    var w3 := DropHistory(w2, row.hist);
    var s3 := Next(s2, 0);
    assert s3 == State(w3, Deleting(c, DlRow, row), PubFree, s.cfg);
    assert w1.intents - {op} == s.w.intents;
    assert DropSnapshot(s.w, ById(row.snap)).snapshots == w2.snapshots;
  }
}
