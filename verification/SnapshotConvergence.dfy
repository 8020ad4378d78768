/**
 The reconciler converges: wherever earlier passes stopped, passes over resolvable
 intents empty the table and leave one and the same world.
 */
module SnapshotConvergence {
  import opened Options
  import opened SnapshotWorld
  import opened SnapshotProtocol
  import opened SnapshotSafety

  // ------------------------------------------------ what is left in the end

  /** An unpublished intent names `s`. */
  predicate Condemns(w: World, id: IntentId, s: SnapId) {
    && id in w.intents && !IsPublished(w, id, w.intents[id])
    && w.intents[id].snapshot.Some? && Denotes(w, w.intents[id].snapshot.value, s)
  }

  predicate CondemnsHistory(w: World, id: IntentId, h: HistId) {
    id in w.intents && !IsPublished(w, id, w.intents[id]) && w.intents[id].history == Some(h)
  }

  /** An intent names `r` as its target and no session row was saved for it. */
  predicate CondemnsInstance(w: World, id: IntentId, r: RuntimeId) {
    id in w.intents && w.intents[id].target == Some(r) && r !in w.sessions
  }

  /**
   The world once every intent is settled, defined from the tables alone: a
   checkpoint with a pending delete loses its row, and a resource goes exactly
   when an unpublished intent names it.
   */
  ghost function Settled(w: World): World {
    w.(intents := map[],
       checkpoints := map c | c in w.checkpoints && Visible(w, c) :: w.checkpoints[c],
       snapshots := (set s | s in w.snapshots && !exists id :: Condemns(w, id, s)),
       histories := (set h | h in w.histories && !exists id :: CondemnsHistory(w, id, h)),
       instances := (set r | r in w.instances && !exists id :: CondemnsInstance(w, id, r)))
  }

  lemma SettledFixed(w: World)
    requires w.intents == map[]
    ensures Settled(w) == w
  {
  }

  // --------------------------------------- no reconcile step changes the end

  /** Deleting a condemned resource. */
  lemma SettledAfterExternal(w: World, w': World)
    requires w' == w.(snapshots := w'.snapshots, histories := w'.histories, instances := w'.instances)
    requires w'.snapshots <= w.snapshots && forall s :: s in w.snapshots && s !in w'.snapshots ==> exists id :: Condemns(w, id, s)
    requires w'.histories <= w.histories && forall h :: h in w.histories && h !in w'.histories ==> exists id :: CondemnsHistory(w, id, h)
    requires w'.instances <= w.instances && forall r :: r in w.instances && r !in w'.instances ==> exists id :: CondemnsInstance(w, id, r)
    ensures Settled(w') == Settled(w)
  {
    assert forall id, s :: Condemns(w', id, s) <==> Condemns(w, id, s);
    assert forall id, h :: CondemnsHistory(w', id, h) <==> CondemnsHistory(w, id, h);
    assert forall id, r :: CondemnsInstance(w', id, r) <==> CondemnsInstance(w, id, r);
    assert Settled(w').snapshots == Settled(w).snapshots;
    assert Settled(w').histories == Settled(w).histories;
    assert Settled(w').instances == Settled(w).instances;
    assert Settled(w').checkpoints == Settled(w).checkpoints;
  }

  /** Deleting the row of a checkpoint whose delete intent is pending. */
  lemma SettledAfterRow(w: World, c: CheckpointId)
    requires DeleteOp(c) in w.intents
    ensures Settled(DropRow(w, c)) == Settled(w)
  {
    var w' := DropRow(w, c);
    assert forall d :: Visible(w', d) <==> Visible(w, d);
    assert forall id, s :: Condemns(w', id, s) <==> Condemns(w, id, s);
    assert forall id, h :: CondemnsHistory(w', id, h) <==> CondemnsHistory(w, id, h);
    assert forall id, r :: CondemnsInstance(w', id, r) <==> CondemnsInstance(w, id, r);
    assert Settled(w').checkpoints == Settled(w).checkpoints;
  }

  /** Rewriting the retry fields of an intent. */
  lemma SettledAfterRetry(w: World, id: IntentId, body: Intent)
    requires id in w.intents
    requires body == w.intents[id].(retryCount := body.retryCount, retryAt := body.retryAt)
    ensures Settled(PutIntent(w, id, body)) == Settled(w)
  {
    var w' := PutIntent(w, id, body);
    assert forall d :: Visible(w', d) <==> Visible(w, d);
    assert forall i, s :: Condemns(w', i, s) <==> Condemns(w, i, s);
    assert forall i, h :: CondemnsHistory(w', i, h) <==> CondemnsHistory(w, i, h);
    assert forall i, r :: CondemnsInstance(w', i, r) <==> CondemnsInstance(w, i, r);
    assert Settled(w').checkpoints == Settled(w).checkpoints;
  }

  /** Dropping an intent that names nothing any more. */
  lemma SettledAfterIntent(w: World, id: IntentId)
    requires id in w.intents
    requires id.DeleteOp? ==> id.c !in w.checkpoints
    requires forall s :: s in w.snapshots ==> !Condemns(w, id, s)
    requires forall h :: h in w.histories ==> !CondemnsHistory(w, id, h)
    requires forall r :: r in w.instances ==> !CondemnsInstance(w, id, r)
    ensures Settled(DropIntent(w, id)) == Settled(w)
  {
    var w' := DropIntent(w, id);
    assert forall d :: Visible(w', d) <==> Visible(w, d);
    assert forall i, s :: i != id ==> (Condemns(w', i, s) <==> Condemns(w, i, s));
    assert forall i, h :: i != id ==> (CondemnsHistory(w', i, h) <==> CondemnsHistory(w, i, h));
    assert forall i, r :: i != id ==> (CondemnsInstance(w', i, r) <==> CondemnsInstance(w, i, r));
    assert Settled(w').snapshots == Settled(w).snapshots;
    assert Settled(w').histories == Settled(w).histories;
    assert Settled(w').instances == Settled(w).instances;
    assert Settled(w').checkpoints == Settled(w).checkpoints;
  }

  lemma ExternalStepKeepsSettled(s: State, o: Outcome)
    requires Ok(s) && s.txn.Reconciling?
    requires s.txn.rc.RcStop? || s.txn.rc.RcSnapshot? || s.txn.rc.RcHistory?
    ensures Settled(TickReconcile(s, o).w) == Settled(s.w)
  {
    var w, w', t := s.w, TickReconcile(s, o).w, s.txn;
    forall x | x in w.snapshots && x !in w'.snapshots
      ensures exists id :: Condemns(w, id, x)
    {
      assert Condemns(w, t.id, x);
    }
    forall h | h in w.histories && h !in w'.histories
      ensures exists id :: CondemnsHistory(w, id, h)
    {
      assert CondemnsHistory(w, t.id, h);
    }
    forall r | r in w.instances && r !in w'.instances
      ensures exists id :: CondemnsInstance(w, id, r)
    {
      assert CondemnsInstance(w, t.id, r);
    }
    SettledAfterExternal(w, w');
  }

  lemma DropStepKeepsSettled(s: State, o: Outcome)
    requires Ok(s) && s.txn.Reconciling? && s.txn.rc.RcDropIntent?
    ensures Settled(TickReconcile(s, o).w) == Settled(s.w)
  {
    var w, t := s.w, s.txn;
    assert BodyOk(w, t.id, t.body);
    if o.Done? {
      SettledAfterIntent(w, t.id);
    }
  }

  /** Whatever one await of the reconciler does, and however it fails, the world it
      is heading for stays the same. */
  lemma ReconcileKeepsSettled(s: State, o: Outcome)
    requires Ok(s) && s.txn.Reconciling?
    ensures Settled(TickReconcile(s, o).w) == Settled(s.w)
  {
    var w, t := s.w, s.txn;
    match t.rc
    case RcStop => ExternalStepKeepsSettled(s, o);
    case RcSnapshot => ExternalStepKeepsSettled(s, o);
    case RcHistory => ExternalStepKeepsSettled(s, o);
    case RcRow =>
      if t.id.DeleteOp? {
        SettledAfterRow(w, t.id.c);
      }
    case RcDropIntent => DropStepKeepsSettled(s, o);
    case RcReschedule => SettledAfterRetry(w, t.id, Rescheduled(t.body, t.now));
    case _ => assert TickReconcile(s, o).w == w;
  }

  // ------------------------------------------------------- runs of reconciles

  /** The actions of a reconciler that may be killed at any point. */
  predicate Reconciles(s: State, a: Action) {
    match a
    case BeginReconcile(_, _) => s.txn.NoTxn?
    case Tick(_, _) => s.txn.Reconciling?
    case Crash => true
    case Reregister(_) => true
    case _ => false
  }

  predicate OnlyReconciles(s: State, actions: seq<Action>)
    decreases |actions|
  {
    actions == [] || (Reconciles(s, actions[0]) && OnlyReconciles(Step(s, actions[0]), actions[1..]))
  }

  lemma {:induction false} PassesKeepSettled(s: State, actions: seq<Action>)
    requires Ok(s) && OnlyReconciles(s, actions)
    ensures Ok(Run(s, actions)) && Settled(Run(s, actions).w) == Settled(s.w)
    decreases |actions|
  {
    if actions != [] {
      var a := actions[0];
      StepKeeps(s, a);
      if a.Tick? {
        ReconcileKeepsSettled(s, a.o);
      }
      assert Settled(Step(s, a).w) == Settled(s.w);
      PassesKeepSettled(Step(s, a), actions[1..]);
    }
  }

  /**
   Any two histories of passes, failures and crashes that start from the same world
   and empty the intent table end in the same world, the one `Settled` describes.
   */
  lemma PassesConverge(s: State, left: seq<Action>, right: seq<Action>)
    requires Ok(s) && OnlyReconciles(s, left) && OnlyReconciles(s, right)
    requires Run(s, left).w.intents == map[] && Run(s, right).w.intents == map[]
    ensures Run(s, left).w == Run(s, right).w == Settled(s.w)
  {
    PassesKeepSettled(s, left);
    PassesKeepSettled(s, right);
    SettledFixed(Run(s, left).w);
    SettledFixed(Run(s, right).w);
  }

  // ---------------------------------------------------------- one whole pass

  /** Awaits left before the reconciler is done with an intent. */
  function Remaining(rc: ReconcilePc): nat {
    match rc
    case RcProvider => 10
    case RcPublished => 9
    case RcTarget => 8
    case RcAbort => 7
    case RcStop => 6
    case RcSnapshot => 5
    case RcHistory => 4
    case RcRow => 3
    case RcDropIntent => 2
    case RcReschedule => 1
  }

  /** How each call of a pass ends. */
  type Calls = (IntentId, ReconcilePc) -> Outcome

  predicate AllDone(calls: Calls, id: IntentId) {
    forall rc :: calls(id, rc).Done?
  }

  /** What a pass that reached `id` leaves in the table under it. */
  predicate Treated(cfg: Config, id: IntentId, body: Intent, now: nat, calls: Calls, intents: map<IntentId, Intent>) {
    if body.retryAt > now then id in intents && intents[id] == body
    else
      && (id in intents ==> intents[id] == Rescheduled(body, now))
      && (AllDone(calls, id) && Served(cfg, body) ==> id !in intents)
      && (!Served(cfg, body) ==> id in intents)
  }

  /** An await after which the reconciler goes on with the same intent. */
  predicate GoesOn(s: State, o: Outcome, s': State)
    requires s.txn.Reconciling?
  {
    && s'.txn.Reconciling? && s'.w.intents == s.w.intents && s'.cfg == s.cfg
    && s'.txn.id == s.txn.id && s'.txn.body == s.txn.body && s'.txn.now == s.txn.now
    && Remaining(s'.txn.rc) < Remaining(s.txn.rc) && !s'.txn.rc.RcProvider?
    && (s.txn.rc.RcProvider? ==> (s'.txn.rc.RcReschedule? <==> !Served(s.cfg, s.txn.body)))
    && (!s.txn.rc.RcProvider? && o.Done? ==> !s'.txn.rc.RcReschedule?)
  }

  /** The last await on an intent: dropped, rescheduled, or left after a failed write. */
  predicate Ends(s: State, o: Outcome, s': State)
    requires s.txn.Reconciling?
  {
    && s'.txn.NoTxn? && s'.cfg == s.cfg
    && s'.w.intents == if s.txn.rc.RcDropIntent? then s.w.intents - {s.txn.id}
                       else if o.Done? then s.w.intents[s.txn.id := Rescheduled(s.txn.body, s.txn.now)]
                       else s.w.intents
  }

  lemma TickGoesOn(s: State, o: Outcome)
    requires s.txn.Reconciling? && (s.txn.rc.RcStop? ==> s.txn.body.target.Some?)
    ensures if s.txn.rc.RcReschedule? || (s.txn.rc.RcDropIntent? && o.Done?) then Ends(s, o, TickReconcile(s, o))
            else GoesOn(s, o, TickReconcile(s, o))
  {
    match s.txn.rc
    case RcDropIntent =>
    case RcReschedule =>
    case RcRow =>
    case RcSnapshot =>
    case RcHistory =>
    case RcStop =>
    case _ =>
  }

  // -------------------------------------------- intents that never settle

  /** No registration of the run serves the intent. */
  predicate NeverServed(body: Intent, actions: seq<Action>) {
    body.provider.Some? ==>
      forall k :: 0 <= k < |actions| && actions[k].Reregister? ==> body.provider.value !in actions[k].registered
  }

  /** The reconciler is not past its look for the provider of `id`. */
  predicate NotPast(s: State, id: IntentId) {
    s.txn.Reconciling? && s.txn.id == id ==> s.txn.rc.RcProvider? || s.txn.rc.RcReschedule?
  }

  lemma UnservedStep(s: State, a: Action, id: IntentId)
    requires Ok(s) && Reconciles(s, a) && id in s.w.intents && !Served(s.cfg, s.w.intents[id]) && NotPast(s, id)
    ensures id in Step(s, a).w.intents && Step(s, a).w.intents[id].provider == s.w.intents[id].provider
    ensures NotPast(Step(s, a), id) && (a.Reregister? || Step(s, a).cfg == s.cfg)
  {
    if a.Tick? {
      TickGoesOn(s, a.o);
    }
  }

  /** An intent whose provider is never registered, or that names none, survives every
      pass and every restart. */
  lemma {:induction false} UnresolvableStays(s: State, actions: seq<Action>, id: IntentId)
    requires Ok(s) && OnlyReconciles(s, actions)
    requires id in s.w.intents && !Served(s.cfg, s.w.intents[id]) && NeverServed(s.w.intents[id], actions)
    requires NotPast(s, id)
    ensures id in Run(s, actions).w.intents && Run(s, actions).w.intents[id].provider == s.w.intents[id].provider
    decreases |actions|
  {
    if actions != [] {
      StepKeeps(s, actions[0]);
      UnservedStep(s, actions[0], id);
      UnresolvableStays(Step(s, actions[0]), actions[1..], id);
    }
  }

  /** A fork whose source names no registered provider leaves an intent that names none:
      its first save is skipped, its second is not. */
  lemma UnresolvableForkLeavesIntent(s: State, r: RuntimeId, source: RuntimeId, h: HistId)
    requires Ok(s) && s.txn.NoTxn? && r !in s.w.known && source in s.w.sessions && h !in s.w.histOwner
    requires !Resolves(s.cfg, source)
    ensures var s1 := Step(s, BeginFork(r, source));
            var s2 := Step(Step(s1, Tick(Done, 0)), Tick(Done, h));
            var s4 := Step(Step(s2, Tick(Done, 0)), Tick(Done, 0));
            s4.txn.NoTxn? && ForkOp(r) in s4.w.intents && s4.w.intents[ForkOp(r)].provider.None?
  {
  }

  /** The reconciler is at work on `id`, whose entry is still `body`. */
  predicate AtWork(s: State, id: IntentId, body: Intent, now: nat, calls: Calls, table: map<IntentId, Intent>) {
    && s.txn.Reconciling? && s.txn.id == id && s.txn.body == body && s.txn.now == now && s.w.intents == table
    && (s.txn.rc.RcReschedule? ==> !(AllDone(calls, id) && Served(s.cfg, body)))
    && (!Served(s.cfg, body) ==> s.txn.rc.RcProvider? || s.txn.rc.RcReschedule?)
  }

  /** The reconciler is done with `id`; unless the last write failed, `id` was treated. */
  predicate WorkDone(s: State, id: IntentId, body: Intent, now: nat, calls: Calls, table: map<IntentId, Intent>, written: bool) {
    && s.txn.NoTxn? && s.w.intents - {id} == table - {id}
    && (if written then Treated(s.cfg, id, body, now, calls, s.w.intents) else calls(id, RcReschedule).Failed?)
  }

  /** Whether the table write at this await, if it is one, succeeds. */
  predicate Writes(rc: ReconcilePc, o: Outcome) {
    !rc.RcReschedule? || o.Done?
  }

  lemma TickAtWork(s: State, id: IntentId, body: Intent, now: nat, calls: Calls, table: map<IntentId, Intent>)
    requires AtWork(s, id, body, now, calls, table) && id in table && body.retryAt <= now
    requires s.txn.rc.RcStop? ==> s.txn.body.target.Some?
    ensures var o, s' := calls(id, s.txn.rc), TickReconcile(s, calls(id, s.txn.rc));
            && s'.cfg == s.cfg
            && (|| (AtWork(s', id, body, now, calls, table) && Remaining(s'.txn.rc) < Remaining(s.txn.rc) && Writes(s.txn.rc, o))
                || WorkDone(s', id, body, now, calls, table, Writes(s.txn.rc, o)))
  {
    TickGoesOn(s, calls(id, s.txn.rc));
  }

  lemma ReconcileTickKeeps(s: State, o: Outcome)
    requires Ok(s) && s.txn.Reconciling?
    ensures Ok(TickReconcile(s, o)) && Settled(TickReconcile(s, o).w) == Settled(s.w)
  {
    StepKeeps(s, Tick(o, 0));
    ReconcileKeepsSettled(s, o);
  }

  /** What a pass has achieved before it visits `listing[i]`. */
  ghost predicate PassOk(cfg: Config, before: map<IntentId, Intent>, after: map<IntentId, Intent>, listing: seq<IntentId>, i: nat,
                         now: nat, calls: Calls, finished: bool)
    requires forall id :: id in listing ==> id in before
    requires i <= |listing|
  {
    && after.Keys <= before.Keys
    && (finished ==> forall j :: 0 <= j < i ==> Treated(cfg, listing[j], before[listing[j]], now, calls, after))
    && (finished ==> forall j :: i <= j < |listing| ==> listing[j] in after && after[listing[j]] == before[listing[j]])
    && (!finished ==> exists id :: id in before && calls(id, RcReschedule).Failed?)
  }

  /** Visiting one intent leaves the other entries of the table alone. */
  lemma PassAdvances(cfg: Config, before: map<IntentId, Intent>, t: map<IntentId, Intent>, t': map<IntentId, Intent>, listing: seq<IntentId>,
                     i: nat, now: nat, calls: Calls, written: bool)
    requires forall id :: id in listing ==> id in before
    requires forall j, k :: 0 <= j < k < |listing| ==> listing[j] != listing[k]
    requires i < |listing| && PassOk(cfg, before, t, listing, i, now, calls, true)
    requires t - {listing[i]} == t' - {listing[i]}
    requires if written then Treated(cfg, listing[i], before[listing[i]], now, calls, t')
             else calls(listing[i], RcReschedule).Failed?
    ensures PassOk(cfg, before, t', listing, i + 1, now, calls, written)
  {
    var id := listing[i];
    forall k | k != id
      ensures (k in t <==> k in t') && (k in t ==> t'[k] == t[k])
    {
      assert k in t - {id} <==> k in t' - {id};
      if k in t {
        assert (t - {id})[k] == (t' - {id})[k];
      }
    }
    if written {
      forall j | 0 <= j < i
        ensures Treated(cfg, listing[j], before[listing[j]], now, calls, t')
      {
        assert Treated(cfg, listing[j], before[listing[j]], now, calls, t);
      }
    }
  }

  /** The awaits of one visit, one after the other. */
  method Work(start: State, id: IntentId, now: nat, calls: Calls) returns (s: State, written: bool)
    requires Ok(start) && id in start.w.intents
    requires start.txn == Reconciling(id, RcProvider, start.w.intents[id], false, now) && start.w.intents[id].retryAt <= now
    ensures Ok(s) && Settled(s.w) == Settled(start.w) && s.cfg == start.cfg
    ensures WorkDone(s, id, start.w.intents[id], now, calls, start.w.intents, written)
  {
    ghost var body, table := start.w.intents[id], start.w.intents;
    s, written := start, true;
    while s.txn.Reconciling?
      invariant Ok(s) && Settled(s.w) == Settled(start.w) && s.cfg == start.cfg
      invariant (AtWork(s, id, body, now, calls, table) && written) || WorkDone(s, id, body, now, calls, table, written)
      decreases if s.txn.Reconciling? then Remaining(s.txn.rc) else 0
    {
      var o := calls(id, s.txn.rc);
      TickAtWork(s, id, body, now, calls, table);
      ReconcileTickKeeps(s, o);
      written := Writes(s.txn.rc, o);
      s := TickReconcile(s, o);
    }
  }

  /** `SessionApplication`, as far as the background reconciliation goes. */
  class Reconciler {
    var s: State

    constructor (s: State)
      ensures this.s == s
    {
      this.s := s;
    }

    /** `reconcile_snapshot_intent`, and the rescheduling of an intent that failed. */
    method ReconcileIntent(id: IntentId, now: nat, calls: Calls) returns (written: bool)
      requires Ok(s) && s.txn.NoTxn? && id in s.w.intents && s.w.intents[id].retryAt <= now
      modifies this
      ensures Ok(s) && Settled(s.w) == old(Settled(s.w)) && s.cfg == old(s.cfg)
      ensures WorkDone(s, id, old(s.w.intents)[id], now, calls, old(s.w.intents), written)
    {
      StepKeeps(s, BeginReconcile(id, now));
      s, written := Work(Step(s, BeginReconcile(id, now)), id, now, calls);
    }

    /**
     `reconcile_snapshot_intents` under the transaction lock: every stored intent is
     visited, in the order the repository lists them, whether or not earlier ones
     failed; only a failed rescheduling write ends the pass early.
     */
    method ReconcilePass(listing: seq<IntentId>, now: nat, calls: Calls) returns (finished: bool)
      requires Ok(s) && s.txn.NoTxn?
      requires forall id :: id in listing <==> id in s.w.intents
      requires forall i, j :: 0 <= i < j < |listing| ==> listing[i] != listing[j]
      modifies this
      ensures Ok(s) && s.txn.NoTxn? && s.cfg == old(s.cfg)
      ensures Settled(s.w) == old(Settled(s.w))
      ensures finished ==> forall id :: id in old(s.w.intents) ==>
                                          Treated(s.cfg, id, old(s.w.intents)[id], now, calls, s.w.intents)
      ensures !finished ==> exists id :: id in old(s.w.intents) && calls(id, RcReschedule).Failed?
      ensures s.w.intents.Keys <= old(s.w.intents).Keys
      ensures (forall id :: id in old(s.w.intents) ==> AllDone(calls, id) && old(s.w.intents)[id].retryAt <= now) ==>
                (s.w == old(Settled(s.w)) <==> forall id :: id in old(s.w.intents) ==> Served(s.cfg, old(s.w.intents)[id]))
    {
      ghost var before := s.w;
      finished := true;
      var i := 0;
      while i < |listing| && finished
        invariant 0 <= i <= |listing|
        invariant Ok(s) && s.txn.NoTxn? && Settled(s.w) == Settled(before) && s.cfg == old(s.cfg)
        invariant PassOk(s.cfg, before.intents, s.w.intents, listing, i, now, calls, finished)
      {
        var id := listing[i];
        ghost var table := s.w.intents;
        if s.w.intents[id].retryAt <= now {
          finished := ReconcileIntent(id, now, calls);
        }
        PassAdvances(s.cfg, before.intents, table, s.w.intents, listing, i, now, calls, finished);
        i := i + 1;
      }
      PassResult(s.cfg, before, s.w, now, calls, finished);
    }
  }

  /** A pass in which every call succeeded has settled the world exactly when every
      provider could be resolved. */
  lemma PassResult(cfg: Config, before: World, after: World, now: nat, calls: Calls, finished: bool)
    requires after.intents.Keys <= before.intents.Keys && Settled(after) == Settled(before)
    requires finished ==> forall id :: id in before.intents ==> Treated(cfg, id, before.intents[id], now, calls, after.intents)
    requires !finished ==> exists id :: id in before.intents && calls(id, RcReschedule).Failed?
    ensures (forall id :: id in before.intents ==> AllDone(calls, id) && before.intents[id].retryAt <= now) ==>
              (after == Settled(before) <==> forall id :: id in before.intents ==> Served(cfg, before.intents[id]))
  {
  }
}
