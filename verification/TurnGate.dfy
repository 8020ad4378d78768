/**
 The in-memory turn gate: one active turn or operation per session, and the bounded
 FIFO memory of accepted `client_request_id`s.
 */
module TurnGate {
  import opened Options

  type RuntimeId = nat
  type RequestId = nat

  /** A turn id, or the id of an exec, file, checkpoint or fork operation. */
  type OpId = nat

  const RECEIPT_WINDOW_CAP: nat := 64

  datatype ReceiptWindow = ReceiptWindow(byRequest: map<RequestId, OpId>, order: seq<RequestId>)

  const EmptyWindow := ReceiptWindow(map[], [])

  datatype Gate = Gate(active: map<RuntimeId, OpId>, receipts: map<RuntimeId, ReceiptWindow>)

  const EmptyGate := Gate(map[], map[])

  // ---------------------------------------------------------- specification

  function Claimed(g: Gate, r: RuntimeId, id: OpId): Gate {
    if r in g.active then g else g.(active := g.active[r := id])
  }

  function Released(g: Gate, r: RuntimeId, id: OpId): Gate {
    if r in g.active && g.active[r] == id then g.(active := g.active - {r}) else g
  }

  function Forgotten(g: Gate, r: RuntimeId): Gate {
    Gate(g.active - {r}, g.receipts - {r})
  }

  function WindowOf(g: Gate, r: RuntimeId): ReceiptWindow {
    if r in g.receipts then g.receipts[r] else EmptyWindow
  }

  function Evicted(w: ReceiptWindow): ReceiptWindow {
    if |w.byRequest| >= RECEIPT_WINDOW_CAP && w.order != [] then
      ReceiptWindow(w.byRequest - {w.order[0]}, w.order[1..])
    else w
  }

  function Appended(w: ReceiptWindow, q: RequestId, t: OpId): ReceiptWindow {
    ReceiptWindow(w.byRequest[q := t], w.order + [q])
  }

  function Remembered(w: ReceiptWindow, q: RequestId, t: OpId): ReceiptWindow {
    Appended(Evicted(w), q, t)
  }

  // ------------------------------------------------------------ the gate object

  class TurnGate {
    var active: map<RuntimeId, OpId>
    var receipts: map<RuntimeId, ReceiptWindow>

    constructor ()
      ensures View() == EmptyGate
    {
      active, receipts := map[], map[];
    }

    function View(): Gate
      reads this
    {
      Gate(active, receipts)
    }

    /** Claims the slot; otherwise says who holds it. */
    method Claim(r: RuntimeId, id: OpId) returns (holder: Option<OpId>)
      modifies this`active
      ensures View() == Claimed(old(View()), r, id)
      ensures holder == if r in old(active) then Some(old(active)[r]) else None
    {
      if r in active {
        return Some(active[r]);
      }
      active := active[r := id];
      return None;
    }

    method Release(r: RuntimeId, id: OpId)
      modifies this`active
      ensures View() == Released(old(View()), r, id)
    {
      if r in active && active[r] == id {
        active := active - {r};
      }
    }

    method ReplayedReceipt(r: RuntimeId, q: RequestId) returns (t: Option<OpId>)
      ensures t == if q in WindowOf(View(), r).byRequest then Some(WindowOf(View(), r).byRequest[q]) else None
    {
      if r in receipts && q in receipts[r].byRequest {
        return Some(receipts[r].byRequest[q]);
      }
      return None;
    }

    method RememberReceipt(r: RuntimeId, q: RequestId, t: OpId)
      modifies this`receipts
      ensures View() == old(View()).(receipts := old(receipts)[r := Remembered(WindowOf(old(View()), r), q, t)])
    {
      var byRequest, order := map[], [];
      if r in receipts {
        byRequest, order := receipts[r].byRequest, receipts[r].order;
      }
      if |byRequest| >= RECEIPT_WINDOW_CAP && order != [] {
        byRequest, order := byRequest - {order[0]}, order[1..];
      }
      byRequest := byRequest[q := t];
      order := order + [q];
      receipts := receipts[r := ReceiptWindow(byRequest, order)];
    }

    method ForgetSession(r: RuntimeId)
      modifies this
      ensures View() == Forgotten(old(View()), r)
    {
      active := active - {r};
      receipts := receipts - {r};
    }

    /** The first half of `submit_turn_impl`: a retry is answered with its first turn id,
        a busy session refuses, otherwise the turn claims the slot. */
    method CheckAndClaim(r: RuntimeId, q: Option<RequestId>, t: OpId) returns (reply: Reply)
      modifies this`active
      ensures View() == Checked(old(View()), r, q, t)
      ensures reply == ReplyTo(old(View()), r, q)
    {
      if q.Some? {
        var replayed := ReplayedReceipt(r, q.value);
        if replayed.Some? {
          return Replayed(replayed.value);
        }
      }
      var holder := Claim(r, t);
      if holder.Some? {
        return Conflict(holder.value);
      }
      return Admitted;
    }

    /** The second half, once the runtime has answered: a refused turn gives the slot
        back, and only an accepted one is remembered. */
    method Answered(r: RuntimeId, q: Option<RequestId>, t: OpId, accepted: bool)
      modifies this
      ensures View() == if accepted then Accepted(old(View()), r, q, t) else Released(old(View()), r, t)
    {
      if !accepted {
        Release(r, t);
      } else if q.Some? {
        RememberReceipt(r, q.value, t);
      }
    }
  }

  datatype Reply = Replayed(t: OpId) | Conflict(holder: OpId) | Admitted

  function ReplyTo(g: Gate, r: RuntimeId, q: Option<RequestId>): Reply {
    if q.Some? && q.value in WindowOf(g, r).byRequest then Replayed(WindowOf(g, r).byRequest[q.value])
    else if r in g.active then Conflict(g.active[r])
    else Admitted
  }

  function Checked(g: Gate, r: RuntimeId, q: Option<RequestId>, t: OpId): Gate {
    if ReplyTo(g, r, q).Admitted? then Claimed(g, r, t) else g
  }

  function Accepted(g: Gate, r: RuntimeId, q: Option<RequestId>, t: OpId): Gate {
    if q.None? then g else g.(receipts := g.receipts[r := Remembered(WindowOf(g, r), q.value, t)])
  }

  // ---------------------------------------------------------- receipt window

  datatype Receipt = Receipt(q: RequestId, t: OpId)

  function Recent(h: seq<Receipt>): seq<Receipt> {
    if |h| <= RECEIPT_WINDOW_CAP then h else h[|h| - RECEIPT_WINDOW_CAP..]
  }

  ghost predicate WindowOk(w: ReceiptWindow) {
    && |w.order| <= RECEIPT_WINDOW_CAP
    && (forall i, j :: 0 <= i < j < |w.order| ==> w.order[i] != w.order[j])
    && (forall q :: q in w.byRequest <==> q in w.order)
  }

  ghost predicate Lists(w: ReceiptWindow, rs: seq<Receipt>) {
    && |w.order| == |rs|
    && (forall i :: 0 <= i < |rs| ==> w.order[i] == rs[i].q)
    && (forall i :: 0 <= i < |rs| ==> rs[i].q in w.byRequest && w.byRequest[rs[i].q] == rs[i].t)
  }

  /** The window is exactly the most recent receipts. */
  ghost predicate Holds(w: ReceiptWindow, h: seq<Receipt>) {
    WindowOk(w) && Lists(w, Recent(h))
  }

  function Requests(s: seq<RequestId>): set<RequestId> {
    set q | q in s
  }

  lemma {:induction false} DistinctSize(s: seq<RequestId>)
    requires forall i, j :: 0 <= i < j < |s| ==> s[i] != s[j]
    ensures |Requests(s)| == |s|
    decreases |s|
  {
    if s != [] {
      var rest := s[..|s| - 1];
      DistinctSize(rest);
      assert Requests(s) == Requests(rest) + {s[|s| - 1]};
    }
  }

  lemma WindowSize(w: ReceiptWindow)
    requires WindowOk(w)
    ensures |w.byRequest| == |w.order|
  {
    DistinctSize(w.order);
    assert w.byRequest.Keys == Requests(w.order);
  }

  lemma FullEvicted(w: ReceiptWindow)
    requires WindowOk(w) && |w.order| == RECEIPT_WINDOW_CAP
    ensures WindowOk(ReceiptWindow(w.byRequest - {w.order[0]}, w.order[1..]))
  {
    assert w.order == [w.order[0]] + w.order[1..];
    assert w.order[0] !in w.order[1..];
  }

  /** Eviction drops the oldest request of a full window and nothing else. */
  lemma EvictedOk(w: ReceiptWindow)
    requires WindowOk(w)
    ensures WindowOk(Evicted(w)) && |Evicted(w).order| < RECEIPT_WINDOW_CAP
    ensures Evicted(w).order == if |w.order| == RECEIPT_WINDOW_CAP then w.order[1..] else w.order
    ensures forall q :: q in Evicted(w).order ==> Evicted(w).byRequest[q] == w.byRequest[q]
  {
    WindowSize(w);
    if |w.order| == RECEIPT_WINDOW_CAP {
      FullEvicted(w);
    }
  }

  lemma AppendedOk(w: ReceiptWindow, q: RequestId, t: OpId)
    requires WindowOk(w) && |w.order| < RECEIPT_WINDOW_CAP
    ensures WindowOk(Appended(w, q, t)) <==> q !in w.order
  {
    var w2 := Appended(w, q, t);
    assert w2.order[|w.order|] == q;
    if q in w.order {
      var i :| 0 <= i < |w.order| && w.order[i] == q;
      assert w2.order[i] == q;
    }
  }

  function Kept(rs: seq<Receipt>): seq<Receipt> {
    if |rs| == RECEIPT_WINDOW_CAP then rs[1..] else rs
  }

  lemma RecentGrows(h: seq<Receipt>, x: Receipt)
    ensures Recent(h + [x]) == Kept(Recent(h)) + [x]
  {
  }

  lemma EvictedLists(w: ReceiptWindow, rs: seq<Receipt>)
    requires WindowOk(w) && Lists(w, rs)
    ensures Lists(Evicted(w), Kept(rs))
  {
    EvictedOk(w);
    forall i | 0 <= i < |Kept(rs)|
      ensures Kept(rs)[i].q in Evicted(w).byRequest && Evicted(w).byRequest[Kept(rs)[i].q] == Kept(rs)[i].t
    {
      assert Evicted(w).order[i] == Kept(rs)[i].q;
    }
  }

  lemma AppendedLists(w: ReceiptWindow, rs: seq<Receipt>, q: RequestId, t: OpId)
    requires Lists(w, rs) && q !in w.order
    ensures Lists(Appended(w, q, t), rs + [Receipt(q, t)])
  {
  }

  lemma RememberHolds(w: ReceiptWindow, h: seq<Receipt>, q: RequestId, t: OpId)
    requires Holds(w, h) && q !in w.byRequest
    ensures Holds(Remembered(w, q, t), h + [Receipt(q, t)])
  {
    EvictedOk(w);
    AppendedOk(Evicted(w), q, t);
    EvictedLists(w, Recent(h));
    AppendedLists(Evicted(w), Kept(Recent(h)), q, t);
    RecentGrows(h, Receipt(q, t));
  }

  /** Remembering keeps the window well formed exactly when the request is not in it, or
      is the one being evicted: the replay check must still hold when the receipt is kept. */
  lemma RememberKeepsIff(w: ReceiptWindow, q: RequestId, t: OpId)
    requires WindowOk(w)
    ensures WindowOk(Remembered(w, q, t)) <==>
            q !in w.byRequest || (|w.order| == RECEIPT_WINDOW_CAP && w.order[0] == q)
  {
    EvictedOk(w);
    AppendedOk(Evicted(w), q, t);
    if |w.order| == RECEIPT_WINDOW_CAP {
      assert w.order == [w.order[0]] + w.order[1..];
    }
  }

  lemma RememberTwiceBreaks(w: ReceiptWindow, q: RequestId, t1: OpId, t2: OpId)
    requires WindowOk(w) && |w.order| < RECEIPT_WINDOW_CAP && q !in w.byRequest
    ensures Remembered(w, q, t1).byRequest == w.byRequest[q := t1]
    ensures !WindowOk(Remembered(Remembered(w, q, t1), q, t2))
  {
    EvictedOk(w);
    WindowSize(w);
    AppendedOk(w, q, t1);
    var w1 := Appended(w, q, t1);
    RememberKeepsIff(w1, q, t2);
    assert w1.order[0] == q ==> |w1.order| == 1;
  }

  /** Two submissions of one request that both pass the replay check before either
      claims: when the first turn ends in between, the second claims too, although a new
      check would have replayed the first.  The receipt is then kept twice. */
  lemma StaleCheckStartsSecondTurn(g: Gate, r: RuntimeId, q: RequestId, t1: OpId, t2: OpId)
    requires WindowOk(WindowOf(g, r)) && |WindowOf(g, r).order| < RECEIPT_WINDOW_CAP
    requires ReplyTo(g, r, Some(q)).Admitted?
    ensures var ended := Released(Accepted(Checked(g, r, Some(q), t1), r, Some(q), t1), r, t1);
            && ReplyTo(ended, r, Some(q)) == Replayed(t1)
            && Claimed(ended, r, t2).active == g.active[r := t2]
            && !WindowOk(WindowOf(Accepted(Claimed(ended, r, t2), r, Some(q), t2), r))
  {
    RememberTwiceBreaks(WindowOf(g, r), q, t1, t2);
    FirstTurnEnds(g, r, q, t1);
  }

  lemma FirstTurnEnds(g: Gate, r: RuntimeId, q: RequestId, t: OpId)
    requires ReplyTo(g, r, Some(q)).Admitted?
    ensures var ended := Released(Accepted(Checked(g, r, Some(q), t), r, Some(q), t), r, t);
            ended.active == g.active && WindowOf(ended, r) == Remembered(WindowOf(g, r), q, t)
  {
    assert g.active[r := t] - {r} == g.active;
  }
}
