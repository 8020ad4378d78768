/**
 Runs of the turn gate: submissions wait for their runtime between claim and answer,
 operation guards, late releases and closes interleave with them.
 */
module TurnRuns {
  import opened Options
  import opened NewIds
  import opened TurnGate

  /** A submission that claimed the slot and waits for the runtime's answer. */
  datatype Submission = Submission(r: RuntimeId, q: Option<RequestId>, t: OpId)

  /** The gate, the waiting submissions, and every id ever given out. */
  datatype Sys = Sys(g: Gate, waiting: set<Submission>, used: set<OpId>)

  const Init := Sys(EmptyGate, {}, {})

  /** Replay check and claim of a submission are one step. `Release` is by a forwarder or
      a dropped guard, however late or often; a waiting turn has no forwarder yet. */
  datatype Action =
    | Submit(r: RuntimeId, q: Option<RequestId>, t: OpId)
    | Accept(p: Submission)
    | Reject(p: Submission)
    | Guard(r: RuntimeId, id: OpId)
    | Release(r: RuntimeId, id: OpId)
    | Forget(r: RuntimeId)

  predicate Waits(y: Sys, id: OpId) {
    exists p :: p in y.waiting && p.t == id
  }

  function Step(y: Sys, a: Action): Sys {
    match a
    case Submit(r, q, t) =>
      if t in y.used then y
      else Sys(Checked(y.g, r, q, t),
               if ReplyTo(y.g, r, q).Admitted? then y.waiting + {Submission(r, q, t)} else y.waiting,
               y.used + {t})
    case Accept(p) =>
      if p !in y.waiting then y else Sys(Accepted(y.g, p.r, p.q, p.t), y.waiting - {p}, y.used)
    case Reject(p) =>
      if p !in y.waiting then y else Sys(Released(y.g, p.r, p.t), y.waiting - {p}, y.used)
    case Guard(r, id) =>
      if id in y.used then y else y.(g := Claimed(y.g, r, id), used := y.used + {id})
    case Release(r, id) =>
      if Waits(y, id) then y else y.(g := Released(y.g, r, id))
    case Forget(r) => y.(g := Forgotten(y.g, r))
  }

  function Run(y: Sys, actions: seq<Action>): Sys
    decreases |actions|
  {
    if actions == [] then y else Run(Step(y, actions[0]), actions[1..])
  }

  // ---------------------------------------------------------- mutual exclusion

  /** What a step did to the slot of its session. */
  datatype Event = Took(r: RuntimeId, id: OpId) | Freed(r: RuntimeId, id: OpId) | Dropped(r: RuntimeId) | Nothing

  function Frees(g: Gate, r: RuntimeId, id: OpId): Event {
    if r in g.active && g.active[r] == id then Freed(r, id) else Nothing
  }

  function EventOf(y: Sys, a: Action): Event {
    match a
    case Submit(r, q, t) => if t !in y.used && ReplyTo(y.g, r, q).Admitted? then Took(r, t) else Nothing
    case Accept(_) => Nothing
    case Reject(p) => if p in y.waiting then Frees(y.g, p.r, p.t) else Nothing
    case Guard(r, id) => if id !in y.used && r !in y.g.active then Took(r, id) else Nothing
    case Release(r, id) => if Waits(y, id) then Nothing else Frees(y.g, r, id)
    case Forget(r) => Dropped(r)
  }

  function Events(y: Sys, actions: seq<Action>): (events: seq<Event>)
    ensures |events| == |actions|
    decreases |actions|
  {
    if actions == [] then [] else [EventOf(y, actions[0])] + Events(Step(y, actions[0]), actions[1..])
  }

  /** A recogniser for one session: takes and frees alternate between drops, and each
      free is by the taker. */
  datatype Holder = Free | HeldBy(id: OpId) | Overlap

  function After(h: Holder, r: RuntimeId, e: Event): Holder {
    if h.Overlap? then h
    else if e.Took? && e.r == r then (if h.Free? then HeldBy(e.id) else Overlap)
    else if e.Freed? && e.r == r then (if h == HeldBy(e.id) then Free else Overlap)
    else if e.Dropped? && e.r == r then Free
    else h
  }

  function Replay(h: Holder, r: RuntimeId, events: seq<Event>): Holder
    decreases |events|
  {
    if events == [] then h else Replay(After(h, r, events[0]), r, events[1..])
  }

  function HolderIn(g: Gate, r: RuntimeId): Holder {
    if r in g.active then HeldBy(g.active[r]) else Free
  }

  lemma HolderStep(y: Sys, a: Action, r: RuntimeId)
    ensures After(HolderIn(y.g, r), r, EventOf(y, a)) == HolderIn(Step(y, a).g, r)
  {
  }

  /** In every run and for every session, takes and effective releases alternate, and
      the gate's slot is exactly what the events say. */
  lemma {:induction false} TakesAndFreesAlternate(y: Sys, actions: seq<Action>, r: RuntimeId)
    ensures Replay(HolderIn(y.g, r), r, Events(y, actions)) == HolderIn(Run(y, actions).g, r)
    ensures !Replay(HolderIn(y.g, r), r, Events(y, actions)).Overlap?
    decreases |actions|
  {
    if actions != [] {
      var y1, es := Step(y, actions[0]), Events(y, actions);
      assert es[0] == EventOf(y, actions[0]) && es[1..] == Events(y1, actions[1..]);
      HolderStep(y, actions[0], r);
      TakesAndFreesAlternate(y1, actions[1..], r);
    }
  }

  /** `a` may end the hold of `id` on `r`. */
  predicate Ends(a: Action, r: RuntimeId, id: OpId) {
    a == Release(r, id) || a == Forget(r) || (a.Reject? && a.p.r == r && a.p.t == id)
  }

  /** A holder keeps the slot against every other turn and operation until its own
      release or refusal, or a forget. */
  lemma {:induction false} HolderExcludesOthers(y: Sys, actions: seq<Action>, r: RuntimeId, id: OpId)
    requires r in y.g.active && y.g.active[r] == id
    requires forall k :: 0 <= k < |actions| ==> !Ends(actions[k], r, id)
    ensures r in Run(y, actions).g.active && Run(y, actions).g.active[r] == id
    ensures forall k :: 0 <= k < |actions| ==> !(Events(y, actions)[k].Took? && Events(y, actions)[k].r == r)
    decreases |actions|
  {
    if actions != [] {
      HolderExcludesOthers(Step(y, actions[0]), actions[1..], r, id);
    }
  }

  /** A turn that lost the slot can be released late and often: its id is never given out
      again, so no such release frees whoever holds the slot now. */
  lemma {:induction false} StaleReleaseIsHarmless(y: Sys, actions: seq<Action>, r: RuntimeId, stale: OpId)
    requires stale in y.used && !(r in y.g.active && y.g.active[r] == stale)
    ensures Released(Run(y, actions).g, r, stale) == Run(y, actions).g
    decreases |actions|
  {
    if actions != [] {
      StaleStep(y, actions[0], r, stale);
      StaleReleaseIsHarmless(Step(y, actions[0]), actions[1..], r, stale);
    }
  }

  lemma StaleStep(y: Sys, a: Action, r: RuntimeId, stale: OpId)
    requires stale in y.used && !(r in y.g.active && y.g.active[r] == stale)
    ensures var y' := Step(y, a); stale in y'.used && !(r in y'.g.active && y'.g.active[r] == stale)
  {
  }

  // ------------------------------------------------------------------ receipts

  /** The receipts of session `r` accepted after `h`, oldest first, since the last forget. */
  function History(y: Sys, actions: seq<Action>, h: seq<Receipt>, r: RuntimeId): seq<Receipt>
    decreases |actions|
  {
    if actions == [] then h else History(Step(y, actions[0]), actions[1..], Recorded(y, actions[0], h, r), r)
  }

  function Recorded(y: Sys, a: Action, h: seq<Receipt>, r: RuntimeId): seq<Receipt> {
    if a == Forget(r) then []
    else if a.Accept? && a.p in y.waiting && a.p.r == r && a.p.q.Some? then h + [Receipt(a.p.q.value, a.p.t)]
    else h
  }

  /** A submission with a request id waits on `r`. */
  predicate Asked(y: Sys, r: RuntimeId) {
    exists p :: p in y.waiting && p.r == r && p.q.Some?
  }

  /** `r` is not forgotten while such a submission waits. */
  predicate Careful(y: Sys, actions: seq<Action>, r: RuntimeId)
    decreases |actions|
  {
    actions != [] ==> !(actions[0] == Forget(r) && Asked(y, r)) && Careful(Step(y, actions[0]), actions[1..], r)
  }

  /** Waiting submissions are told apart by their ids. */
  ghost predicate WaitingOk(y: Sys) {
    && (forall p :: p in y.waiting ==> p.t in y.used)
    && (forall p, p' :: p in y.waiting && p' in y.waiting && p.t == p'.t ==> p == p')
  }

  /** The window is the recent history, and a submission that will add to it holds the
      slot and is not in it. */
  ghost predicate ReceiptsOk(y: Sys, h: seq<Receipt>, r: RuntimeId) {
    && WaitingOk(y)
    && Holds(WindowOf(y.g, r), h)
    && (forall p :: p in y.waiting && p.r == r && p.q.Some? ==>
                      r in y.g.active && y.g.active[r] == p.t && p.q.value !in WindowOf(y.g, r).byRequest)
  }

  lemma WaitingStep(y: Sys, a: Action)
    requires WaitingOk(y)
    ensures WaitingOk(Step(y, a))
  {
  }

  /** A step that neither accepts on `r` nor forgets it leaves its window alone. */
  lemma WindowKept(y: Sys, a: Action, r: RuntimeId)
    requires a != Forget(r) && !(a.Accept? && a.p in y.waiting && a.p.r == r && a.p.q.Some?)
    ensures WindowOf(Step(y, a).g, r) == WindowOf(y.g, r)
  {
  }

  lemma AcceptKeeps(y: Sys, p: Submission, h: seq<Receipt>)
    requires ReceiptsOk(y, h, p.r) && p in y.waiting && p.q.Some?
    ensures ReceiptsOk(Step(y, Accept(p)), h + [Receipt(p.q.value, p.t)], p.r)
  {
    WaitingStep(y, Accept(p));
    RememberHolds(WindowOf(y.g, p.r), h, p.q.value, p.t);
  }

  lemma OtherKeeps(y: Sys, a: Action, h: seq<Receipt>, r: RuntimeId)
    requires ReceiptsOk(y, h, r) && a != Forget(r) && !(a.Accept? && a.p in y.waiting && a.p.r == r && a.p.q.Some?)
    ensures ReceiptsOk(Step(y, a), h, r)
  {
    WaitingStep(y, a);
    WindowKept(y, a, r);
  }

  lemma ForgetKeeps(y: Sys, h: seq<Receipt>, r: RuntimeId)
    requires WaitingOk(y) && !Asked(y, r)
    ensures ReceiptsOk(Step(y, Forget(r)), [], r)
  {
  }

  lemma ReceiptsStep(y: Sys, a: Action, h: seq<Receipt>, r: RuntimeId)
    requires ReceiptsOk(y, h, r) && !(a == Forget(r) && Asked(y, r))
    ensures ReceiptsOk(Step(y, a), Recorded(y, a, h, r), r)
  {
    if a == Forget(r) {
      ForgetKeeps(y, h, r);
    } else if a.Accept? && a.p in y.waiting && a.p.r == r && a.p.q.Some? {
      AcceptKeeps(y, a.p, h);
    } else {
      OtherKeeps(y, a, h, r);
    }
  }

  lemma {:induction false} ReceiptsRun(y: Sys, actions: seq<Action>, h: seq<Receipt>, r: RuntimeId)
    requires ReceiptsOk(y, h, r) && Careful(y, actions, r)
    ensures ReceiptsOk(Run(y, actions), History(y, actions, h, r), r)
    decreases |actions|
  {
    if actions != [] {
      ReceiptsStep(y, actions[0], h, r);
      ReceiptsRun(Step(y, actions[0]), actions[1..], Recorded(y, actions[0], h, r), r);
    }
  }

  /** In every run that forgets `r` only when no submission of it waits, the window is
      exactly the receipts of the last 64 accepted requests. */
  lemma WindowIsRecentHistory(actions: seq<Action>, r: RuntimeId)
    requires Careful(Init, actions, r)
    ensures Holds(WindowOf(Run(Init, actions).g, r), History(Init, actions, [], r))
  {
    ReceiptsRun(Init, actions, [], r);
  }

  /** A retry of one of the last 64 accepted requests is answered with the turn id that
      request was given; any other request is not replayed; no request appears twice. */
  lemma RetriesReplayOnce(actions: seq<Action>, r: RuntimeId)
    requires Careful(Init, actions, r)
    ensures var g := Run(Init, actions).g;
            var recent := Recent(History(Init, actions, [], r));
            && (forall k :: 0 <= k < |recent| ==> ReplyTo(g, r, Some(recent[k].q)) == Replayed(recent[k].t))
            && (forall q :: (forall k :: 0 <= k < |recent| ==> recent[k].q != q) ==> !ReplyTo(g, r, Some(q)).Replayed?)
            && (forall j, k :: 0 <= j < k < |recent| ==> recent[j].q != recent[k].q)
  {
    WindowIsRecentHistory(actions, r);
    WindowReplays(Run(Init, actions).g, History(Init, actions, [], r), r);
  }

  lemma WindowReplays(g: Gate, h: seq<Receipt>, r: RuntimeId)
    requires Holds(WindowOf(g, r), h)
    ensures var recent := Recent(h);
            && (forall k :: 0 <= k < |recent| ==> ReplyTo(g, r, Some(recent[k].q)) == Replayed(recent[k].t))
            && (forall q :: (forall k :: 0 <= k < |recent| ==> recent[k].q != q) ==> !ReplyTo(g, r, Some(q)).Replayed?)
            && (forall j, k :: 0 <= j < k < |recent| ==> recent[j].q != recent[k].q)
  {
    var w, recent := WindowOf(g, r), Recent(h);
    forall j, k | 0 <= j < k < |recent| ensures recent[j].q != recent[k].q {
      assert w.order[j] != w.order[k];
    }
  }

  // -------------------------------------------- a forget while a submission waits

  /** Some careful continuation spoils the window of `r`. */
  ghost predicate CanSpoil(y: Sys, r: RuntimeId) {
    exists actions :: Careful(y, actions, r) && !WindowOk(WindowOf(Run(y, actions).g, r))
  }

  /** The forgotten submission and a second one of the same request are both accepted. */
  lemma ForgetSpoils(y: Sys, p: Submission)
    requires WaitingOk(y) && p in y.waiting && p.q.Some?
    ensures CanSpoil(Step(y, Forget(p.r)), p.r)
  {
    var r, q := p.r, p.q.value;
    var y0 := Step(y, Forget(r));
    var t := Unused(y.used);
    var p2 := Submission(r, Some(q), t);
    var y1 := Step(y0, Submit(r, Some(q), t));
    assert p2 in y1.waiting && p in y1.waiting && WindowOf(y1.g, r) == EmptyWindow;
    var y2 := Step(y1, Accept(p));
    assert p2 in y2.waiting && WindowOf(y2.g, r) == Remembered(EmptyWindow, q, p.t);
    var y3 := Step(y2, Accept(p2));
    assert WindowOf(y3.g, r) == Remembered(Remembered(EmptyWindow, q, p.t), q, t);
    RememberTwiceBreaks(EmptyWindow, q, p.t, t);
    ThreeSteps(y0, Submit(r, Some(q), t), Accept(p), Accept(p2), r);
  }

  lemma ThreeSteps(y: Sys, a: Action, b: Action, c: Action, r: RuntimeId)
    requires !a.Forget? && !b.Forget? && !c.Forget?
    ensures Run(y, [a, b, c]) == Step(Step(Step(y, a), b), c) && Careful(y, [a, b, c], r)
  {
    assert [a, b, c][1..] == [b, c] && [b, c][1..] == [c] && [c][1..] == [];
    var y2 := Step(Step(y, a), b);
    assert Run(y2, [c]) == Step(y2, c) && Careful(y2, [c], r);
    assert Run(Step(y, a), [b, c]) == Run(y2, [c]) && Careful(Step(y, a), [b, c], r);
  }

  /** The shortest such run: request 7 is claimed and the session forgotten ... */
  lemma ForgottenClaim()
    ensures Step(Step(Init, Submit(0, Some(7), 1)), Forget(0)) == Sys(EmptyGate, {Submission(0, Some(7), 1)}, {1})
  {
    var y := Step(Init, Submit(0, Some(7), 1));
    assert y == Sys(Gate(map[0 := 1], map[]), {Submission(0, Some(7), 1)}, {1});
    assert y.g.active - {0} == map[] && y.g.receipts - {0} == map[];
  }

  /** ... then the request is claimed again, and both are accepted. */
  lemma ForgetDuplicatesReceipt()
    ensures var p1, p2 := Submission(0, Some(7), 1), Submission(0, Some(7), 2);
            var y := Step(Sys(EmptyGate, {p1}, {1}), Submit(0, Some(7), 2));
            WindowOf(Step(Step(y, Accept(p1)), Accept(p2)).g, 0).order == [7, 7]
  {
    var p1, p2 := Submission(0, Some(7), 1), Submission(0, Some(7), 2);
    var y := Step(Sys(EmptyGate, {p1}, {1}), Submit(0, Some(7), 2));
    assert p1 in y.waiting && p2 in y.waiting && WindowOf(y.g, 0) == EmptyWindow;
    AcceptOrder(y, p1);
    var y1 := Step(y, Accept(p1));
    assert p2 in y1.waiting && WindowOf(y1.g, 0).order == [7];
    AcceptOrder(y1, p2);
  }

  lemma AcceptOrder(y: Sys, p: Submission)
    requires p in y.waiting && p.q.Some? && |WindowOf(y.g, p.r).byRequest| < RECEIPT_WINDOW_CAP
    ensures WindowOf(Step(y, Accept(p)).g, p.r) == Appended(WindowOf(y.g, p.r), p.q.value, p.t)
  {
  }

  /**
   The exact condition: after any careful run, forgetting `r` lets some careful
   continuation spoil its window exactly when a submission with a request id waits on it.
   */
  lemma ForgetSpoilsIff(actions: seq<Action>, r: RuntimeId)
    requires Careful(Init, actions, r)
    ensures var y := Run(Init, actions);
            CanSpoil(Step(y, Forget(r)), r) <==> Asked(y, r)
  {
    ReceiptsRun(Init, actions, [], r);
    var y := Run(Init, actions);
    if Asked(y, r) {
      var p :| p in y.waiting && p.r == r && p.q.Some?;
      ForgetSpoils(y, p);
    } else {
      ForgetKeeps(y, [], r);
      var y1 := Step(y, Forget(r));
      forall more | Careful(y1, more, r) ensures WindowOk(WindowOf(Run(y1, more).g, r)) {
        ReceiptsRun(y1, more, [], r);
      }
    }
  }

  // ------------------------------------------------- a claim behind an old check

  predicate Forgets(actions: seq<Action>, r: RuntimeId)
    decreases |actions|
  {
    actions != [] && (actions[0] == Forget(r) || Forgets(actions[1..], r))
  }

  /** A run keeps what came before it, unless it forgets the session. */
  lemma {:induction false} HistorySplit(y: Sys, actions: seq<Action>, h: seq<Receipt>, x: seq<Receipt>, r: RuntimeId)
    ensures History(y, actions, h + x, r)
         == if Forgets(actions, r) then History(y, actions, x, r) else h + History(y, actions, x, r)
    decreases |actions|
  {
    if actions != [] {
      RecordedSplit(y, actions[0], h, x, r);
      HistorySplit(Step(y, actions[0]), actions[1..], h, Recorded(y, actions[0], x, r), r);
    }
  }

  lemma RecordedSplit(y: Sys, a: Action, h: seq<Receipt>, x: seq<Receipt>, r: RuntimeId)
    ensures Recorded(y, a, h + x, r) == if a == Forget(r) then Recorded(y, a, x, r) else h + Recorded(y, a, x, r)
  {
  }

  predicate Mentions(rs: seq<Receipt>, q: RequestId) {
    exists x :: x in rs && x.q == q
  }

  lemma RecentSplit(h: seq<Receipt>, own: seq<Receipt>, k: nat)
    requires k < |Recent(h + own)|
    ensures Recent(h + own)[k] in Recent(h) || Recent(h + own)[k] in Recent(own)
  {
    var all := h + own;
    var i := |all| - |Recent(all)| + k;
    if i < |h| {
      assert Recent(h)[i - (|h| - |Recent(h)|)] == all[i];
    } else {
      assert Recent(own)[i - |h| - (|own| - |Recent(own)|)] == all[i];
    }
  }

  lemma RecentKept(h: seq<Receipt>, own: seq<Receipt>, k: nat)
    requires k < |Recent(own)|
    ensures Recent(own)[k] in Recent(h + own)
  {
    var all := h + own;
    assert Recent(all)[|Recent(all)| - |Recent(own)| + k] == Recent(own)[k];
  }

  lemma RecentParts(h: seq<Receipt>, own: seq<Receipt>)
    ensures forall x :: x in Recent(h + own) ==> x in Recent(h) || x in Recent(own)
    ensures forall x :: x in Recent(own) ==> x in Recent(h + own)
  {
    forall k | 0 <= k < |Recent(h + own)| ensures Recent(h + own)[k] in Recent(h) || Recent(h + own)[k] in Recent(own) {
      RecentSplit(h, own, k);
    }
    forall k | 0 <= k < |Recent(own)| ensures Recent(own)[k] in Recent(h + own) {
      RecentKept(h, own, k);
    }
  }

  /** A request recent in a longer history and not before is recent in the new part. */
  lemma RecentInTail(h: seq<Receipt>, own: seq<Receipt>, q: RequestId)
    requires !Mentions(Recent(h), q)
    ensures Mentions(Recent(h + own), q) <==> Mentions(Recent(own), q)
  {
    RecentParts(h, own);
  }

  /**
   Check and claim apart: a submission passes its check after `before` and claims after
   `during`.  It claims for a request that is remembered by then exactly when an
   acceptance of that request in between is still among the session's last 64.
   */
  lemma StaleClaimIff(before: seq<Action>, during: seq<Action>, r: RuntimeId, q: RequestId)
    requires Careful(Init, before, r) && Careful(Run(Init, before), during, r)
    requires !ReplyTo(Run(Init, before).g, r, Some(q)).Replayed?
    ensures var y := Run(Init, before);
            ReplyTo(Run(y, during).g, r, Some(q)).Replayed? <==> Mentions(Recent(History(y, during, [], r)), q)
  {
    var y := Run(Init, before);
    var h := History(Init, before, [], r);
    ReceiptsRun(Init, before, [], r);
    ReceiptsRun(y, during, h, r);
    WindowLists(WindowOf(y.g, r), h, q);
    WindowLists(WindowOf(Run(y, during).g, r), History(y, during, h, r), q);
    HistorySplit(y, during, h, [], r);
    assert h + [] == h;
    RecentInTail(h, History(y, during, [], r), q);
  }

  lemma WindowLists(w: ReceiptWindow, h: seq<Receipt>, q: RequestId)
    requires Holds(w, h)
    ensures q in w.byRequest <==> Mentions(Recent(h), q)
  {
    if q in w.byRequest {
      var i :| 0 <= i < |w.order| && w.order[i] == q;
      assert Recent(h)[i].q == q && Recent(h)[i] in Recent(h);
    }
  }
}
