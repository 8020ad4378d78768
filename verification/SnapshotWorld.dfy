/**
 Durable tables and external resources touched by the snapshot operations, the
 single updates those operations are made of, and what each update keeps.

 Identifiers are opaque and compared only for equality.  The four families of
 intent keys ("checkpoint-<id>", "load:<id>", "fork:<id>", "delete:<id>") are
 the four constructors of `IntentId`.
 */
module SnapshotWorld {
  import opened Options

  type RuntimeId = nat
  type CheckpointId = nat
  type SnapId = nat
  type HistId = nat
  type ProviderId = nat

  datatype Status = Idle | Failed | Closed

  datatype IntentId =
    | CheckpointOp(c: CheckpointId)
    | LoadOp(r: RuntimeId)
    | ForkOp(r: RuntimeId)
    | DeleteOp(c: CheckpointId)

  /** How an intent names a provider snapshot: by the correlation id of the
      request that makes it ("request:<id>"), or by the id the provider returned. */
  datatype SnapRef = ByRequest(op: IntentId) | ById(snap: SnapId)

  /** The JSON body of a stored intent.  `provider` is the recorded provider name; a
      fork that could not resolve its source's provider records none. */
  datatype Intent = Intent(
    provider: Option<ProviderId>,
    target: Option<RuntimeId>,
    checkpoint: Option<CheckpointId>,
    snapshot: Option<SnapRef>,
    history: Option<HistId>,
    retryCount: nat,
    retryAt: nat)

  datatype Row = Row(source: RuntimeId, snap: SnapId, hist: HistId)

  /**
   `sessions`, `checkpoints` and `intents` are the repository tables;
   `snapshots`, `instances` and `histories` are what exists outside it.
   `origin` and `histOwner` remember which operation made each snapshot and
   history ever made; `used` and `known` are the keys and runtime ids ever given
   out, and `branched` the runtime ids given to a load or a fork.  `parents` is
   the lineage column of the session rows saved by forks.
   */
  datatype World = World(
    sessions: map<RuntimeId, Status>,
    checkpoints: map<CheckpointId, Row>,
    intents: map<IntentId, Intent>,
    snapshots: set<SnapId>,
    instances: set<RuntimeId>,
    histories: set<HistId>,
    origin: map<SnapId, IntentId>,
    histOwner: map<HistId, IntentId>,
    used: set<IntentId>,
    known: set<RuntimeId>,
    branched: set<RuntimeId>,
    parents: map<RuntimeId, RuntimeId>)

  const EmptyWorld := World(map[], map[], map[], {}, {}, {}, map[], map[], {}, {}, {}, map[])

  /** The operation whose resources an intent accounts for. */
  function Owner(id: IntentId): IntentId {
    if id.DeleteOp? then CheckpointOp(id.c) else id
  }

  /** `get_checkpoint`: a row with a pending delete intent is hidden. */
  predicate Visible(w: World, c: CheckpointId) {
    c in w.checkpoints && DeleteOp(c) !in w.intents
  }

  predicate Denotes(w: World, ref: SnapRef, s: SnapId) {
    match ref
    case ByRequest(op) => s in w.origin && w.origin[s] == op
    case ById(snap) => s == snap
  }

  // ---------------------------------------------------------------- updates

  function PutIntent(w: World, id: IntentId, body: Intent): World {
    w.(intents := w.intents[id := body])
  }

  function DropIntent(w: World, id: IntentId): World {
    w.(intents := w.intents - {id})
  }

  function MakeSnapshot(w: World, s: SnapId, op: IntentId): World {
    w.(snapshots := w.snapshots + {s}, origin := w.origin[s := op])
  }

  function DropSnapshot(w: World, ref: SnapRef): World {
    w.(snapshots := set s | s in w.snapshots && !Denotes(w, ref, s))
  }

  function MakeHistory(w: World, h: HistId, op: IntentId): World {
    w.(histories := w.histories + {h}, histOwner := w.histOwner[h := op])
  }

  function DropHistory(w: World, h: HistId): World {
    w.(histories := w.histories - {h})
  }

  function PutRow(w: World, c: CheckpointId, row: Row): World {
    w.(checkpoints := w.checkpoints[c := row])
  }

  function DropRow(w: World, c: CheckpointId): World {
    w.(checkpoints := w.checkpoints - {c})
  }

  function PutSession(w: World, r: RuntimeId, status: Status): World {
    w.(sessions := w.sessions[r := status])
  }

  function PutChild(w: World, r: RuntimeId, parent: RuntimeId): World {
    PutSession(w, r, Idle).(parents := w.parents[r := parent])
  }

  function StartInstance(w: World, r: RuntimeId): World {
    w.(instances := w.instances + {r})
  }

  function StopInstance(w: World, r: RuntimeId): World {
    w.(instances := w.instances - {r})
  }

  // -------------------------------------------------------------- invariant

  /** A stored body carries the fields its key's operation writes, and names only
      resources that operation made. */
  predicate BodyOk(w: World, id: IntentId, body: Intent) {
    && (match id
        case CheckpointOp(c) => body.checkpoint == Some(c) && body.target == None && body.snapshot.Some?
        case LoadOp(r) => body.checkpoint == None && body.target == Some(r)
                          && body.snapshot == None && body.history == None
        case ForkOp(r) => body.checkpoint == None && body.target == Some(r) && body.snapshot.Some?
        case DeleteOp(c) => body.checkpoint == Some(c) && body.target == None
                            && body.snapshot.Some? && body.snapshot.value.ById? && body.history.Some?)
    && (body.snapshot.Some? ==> RefOk(w, Owner(id), body.snapshot.value))
    && (body.history.Some? ==> HistOk(w, Owner(id), body.history.value))
  }

  predicate RefOk(w: World, op: IntentId, ref: SnapRef) {
    match ref
    case ByRequest(o) => o == op
    case ById(s) => s in w.origin && w.origin[s] == op
  }

  predicate HistOk(w: World, op: IntentId, h: HistId) {
    h in w.histOwner && w.histOwner[h] == op
  }

  predicate BodiesOk(w: World) {
    forall id :: id in w.intents ==> BodyOk(w, id, w.intents[id])
  }

  /** A key, a label and a row all come from an operation that was begun. */
  predicate UsedOk(w: World) {
    && (forall id :: id in w.intents ==> Owner(id) in w.used)
    && (forall s :: s in w.origin ==> w.origin[s] in w.used)
    && (forall c :: c in w.checkpoints ==> CheckpointOp(c) in w.used)
    && (forall id :: id in w.used ==> (id.LoadOp? || id.ForkOp?) ==> id.r in w.known)
    && w.sessions.Keys <= w.known && w.instances <= w.known
    && w.snapshots <= w.origin.Keys
  }

  /** An operation makes at most one snapshot. */
  predicate OneSnapshotEach(w: World) {
    forall s, t :: s in w.origin && t in w.origin && w.origin[s] == w.origin[t] ==> s == t
  }

  /** The stored intent of the operation that made `s` still names it, or the
      checkpoint row of that operation does. */
  predicate Named(w: World, s: SnapId)
    requires s in w.origin
  {
    var op := w.origin[s];
    || (op in w.intents && w.intents[op].snapshot.Some? && Denotes(w, w.intents[op].snapshot.value, s))
    || (op.CheckpointOp? && op.c in w.checkpoints && w.checkpoints[op.c].snap == s)
  }

  predicate SnapshotsNamed(w: World) {
    forall s :: s in w.snapshots && s in w.origin ==> Named(w, s)
  }

  predicate InstancesNamed(w: World) {
    forall r :: r in w.instances && r in w.branched ==>
                  r in w.sessions || LoadOp(r) in w.intents || ForkOp(r) in w.intents
  }

  predicate RowOk(w: World, c: CheckpointId)
    requires c in w.checkpoints
  {
    var row := w.checkpoints[c];
    && RefOk(w, CheckpointOp(c), ById(row.snap))
    && HistOk(w, CheckpointOp(c), row.hist)
    && (DeleteOp(c) !in w.intents ==> row.snap in w.snapshots && row.hist in w.histories)
    && (CheckpointOp(c) in w.intents ==> SameResources(w.intents[CheckpointOp(c)], row))
    && (DeleteOp(c) in w.intents ==> SameResources(w.intents[DeleteOp(c)], row))
  }

  predicate SameResources(body: Intent, row: Row) {
    body.snapshot == Some(ById(row.snap)) && body.history == Some(row.hist)
  }

  predicate RowsOk(w: World) {
    forall c :: c in w.checkpoints ==> RowOk(w, c)
  }

  predicate WorldOk(w: World) {
    && BodiesOk(w)
    && UsedOk(w)
    && OneSnapshotEach(w)
    && SnapshotsNamed(w)
    && InstancesNamed(w)
    && RowsOk(w)
  }

  // ---------------------------------------------- what each update preserves

  lemma PutIntentKeeps(w: World, id: IntentId, body: Intent)
    requires WorldOk(w) && BodyOk(w, id, body)
    requires Owner(id) in w.used
    requires id.CheckpointOp? && id.c in w.checkpoints ==> SameResources(body, w.checkpoints[id.c])
    requires id.DeleteOp? && id.c in w.checkpoints ==> SameResources(body, w.checkpoints[id.c])
    requires forall s :: s in w.snapshots && w.origin[s] == id && !(id.CheckpointOp? && id.c in w.checkpoints) ==>
                           body.snapshot.Some? && Denotes(w, body.snapshot.value, s)
    ensures WorldOk(PutIntent(w, id, body))
  {
    var w' := PutIntent(w, id, body);
    forall s | s in w'.snapshots && s in w'.origin
      ensures Named(w', s)
    {
      assert Named(w, s);
    }
    forall c | c in w'.checkpoints
      ensures RowOk(w', c)
    {
      assert RowOk(w, c);
    }
  }

  lemma DropIntentKeeps(w: World, id: IntentId)
    requires WorldOk(w)
    requires forall s :: s in w.snapshots && w.origin[s] == id ==>
                           id.CheckpointOp? && id.c in w.checkpoints && w.checkpoints[id.c].snap == s
    requires id.LoadOp? || id.ForkOp? ==> id.r !in w.instances || id.r in w.sessions
    requires id.DeleteOp? ==> id.c !in w.checkpoints
    ensures WorldOk(DropIntent(w, id))
  {
    var w' := DropIntent(w, id);
    forall s | s in w'.snapshots && s in w'.origin
      ensures Named(w', s)
    {
      assert Named(w, s);
    }
    forall c | c in w'.checkpoints
      ensures RowOk(w', c)
    {
      assert RowOk(w, c);
    }
  }

  lemma MakeSnapshotKeeps(w: World, s: SnapId, op: IntentId)
    requires WorldOk(w)
    requires s !in w.origin && op in w.used
    requires forall t :: t in w.origin ==> w.origin[t] != op
    requires op in w.intents && w.intents[op].snapshot == Some(ByRequest(op))
    ensures WorldOk(MakeSnapshot(w, s, op))
  {
    var w' := MakeSnapshot(w, s, op);
    forall id | id in w'.intents
      ensures BodyOk(w', id, w'.intents[id])
    {
      assert BodyOk(w, id, w.intents[id]);
    }
    forall t | t in w'.snapshots && t in w'.origin
      ensures Named(w', t)
    {
      if t != s {
        assert Named(w, t);
      }
    }
    forall c | c in w'.checkpoints
      ensures RowOk(w', c)
    {
      assert RowOk(w, c);
    }
  }

  lemma MakeHistoryKeeps(w: World, h: HistId, op: IntentId)
    requires WorldOk(w)
    requires h !in w.histOwner
    ensures WorldOk(MakeHistory(w, h, op))
  {
  }

  lemma PutRowKeeps(w: World, c: CheckpointId, row: Row)
    requires WorldOk(w)
    requires c !in w.checkpoints && DeleteOp(c) !in w.intents && CheckpointOp(c) in w.used
    requires RefOk(w, CheckpointOp(c), ById(row.snap)) && HistOk(w, CheckpointOp(c), row.hist)
    requires row.snap in w.snapshots && row.hist in w.histories
    requires CheckpointOp(c) in w.intents && SameResources(w.intents[CheckpointOp(c)], row)
    ensures WorldOk(PutRow(w, c, row))
  {
  }

  lemma DropRowKeeps(w: World, c: CheckpointId)
    requires WorldOk(w)
    requires forall s :: s in w.snapshots ==> w.origin[s] != CheckpointOp(c)
    ensures WorldOk(DropRow(w, c))
  {
    var w' := DropRow(w, c);
    forall s | s in w'.snapshots && s in w'.origin
      ensures Named(w', s)
    {
      assert Named(w, s);
    }
    forall d | d in w'.checkpoints
      ensures RowOk(w', d)
    {
      assert RowOk(w, d);
    }
  }

  /** Sessions and instances: rows, snapshots and histories are not touched. */
  lemma SessionsAndInstancesKeep(w: World, w': World)
    requires WorldOk(w)
    requires w' == w.(sessions := w'.sessions, instances := w'.instances, used := w'.used,
                      known := w'.known, branched := w'.branched, parents := w'.parents)
    requires w.sessions.Keys <= w'.sessions.Keys <= w'.known
    requires w.used <= w'.used && w.known <= w'.known && w'.instances <= w'.known
    requires forall id :: id in w'.used && (id.LoadOp? || id.ForkOp?) ==> id.r in w'.known
    requires InstancesNamed(w')
    ensures WorldOk(w')
  {
  }
}
