/**
 The forwarder of one turn's runtime events to its subscriber: it persists the
 runtime's state before a terminal event is sent, frees the session's slot, and stops
 work nobody listens to.
 */
module Forwarder {
  import opened Options
  import G = TurnGate

  type Payload = nat

  datatype RuntimeEvent = Progress(p: Payload) | Completed(p: Payload) | Failed(p: Payload)

  datatype SessionEvent =
    | TurnProgress(p: Payload)
    | TurnCompleted(p: Payload)
    | TurnFailed(p: Payload)
    | PersistFailed          // TurnFailed with code runtime_state_persist_failed
    | StreamClosed           // TurnFailed with code event_stream_closed

  datatype Status = Idle | StatusFailed | Active

  datatype Record = Record(state: Payload, llm: Option<Payload>, status: Status, updatedAt: nat)

  datatype Export = Exported(state: Payload) | ExportUnsupported | ExportFailed

  datatype Describe = Described(llm: Option<Payload>) | DescribeFailed

  /** The answers of the runtime, the repository and the clock at the terminal event. */
  datatype Answers = Answers(exported: Export, readable: bool, describe: Describe, now: nat, writable: bool)

  /** What forwarding does to the world, in order. */
  datatype Effect =
    | Saved(record: Record)
    | SlotReleased
    | Sent(event: SessionEvent)
    | Lost(event: SessionEvent)
    | Cancelled
    | Drained(events: seq<RuntimeEvent>)

  predicate Terminal(e: RuntimeEvent) {
    e.Completed? || e.Failed?
  }

  predicate TerminalOut(e: SessionEvent) {
    !e.TurnProgress?
  }

  function Project(e: RuntimeEvent): SessionEvent {
    match e
    case Progress(p) => TurnProgress(p)
    case Completed(p) => TurnCompleted(p)
    case Failed(p) => TurnFailed(p)
  }

  function Projected(events: seq<RuntimeEvent>): seq<SessionEvent> {
    seq(|events|, i requires 0 <= i < |events| => Project(events[i]))
  }

  /** The record written at terminal event `e`, if every step of the write succeeds. */
  function Persisted(old': Option<Record>, a: Answers, e: RuntimeEvent): Option<Record> {
    if a.exported.ExportFailed? || !a.readable || old'.None? || a.describe.DescribeFailed? || !a.writable then None
    else
      var r := old'.value;
      Some(Record(
             if a.exported.Exported? then a.exported.state else r.state,
             if a.describe.llm.Some? then a.describe.llm else r.llm,
             if e.Completed? then Idle else StatusFailed,
             a.now))
  }

  function Send(e: SessionEvent, delivered: bool): Effect {
    if delivered then Sent(e) else Lost(e)
  }

  function AtTerminal(record: Option<Record>, a: Answers, e: RuntimeEvent, delivered: bool): seq<Effect> {
    var saved := Persisted(record, a, e);
    (if saved.Some? then [Saved(saved.value)] else [])
    + [SlotReleased, Send(if saved.Some? then Project(e) else PersistFailed, delivered), SlotReleased]
  }

  /** The forwarder's effects from its `k`-th event on; `delivers(k)` says whether its `k`-th
      send reaches the subscriber in time. */
  function Relay(events: seq<RuntimeEvent>, k: nat, record: Option<Record>, a: Answers, delivers: nat -> bool): seq<Effect>
    requires k <= |events|
    decreases |events| - k
  {
    if k == |events| then [Send(StreamClosed, delivers(k)), SlotReleased]
    else if Terminal(events[k]) then AtTerminal(record, a, events[k], delivers(k))
    else if !delivers(k) then [Lost(Project(events[k])), Cancelled, Drained(events[k + 1..]), SlotReleased]
    else [Sent(Project(events[k]))] + Relay(events, k + 1, record, a, delivers)
  }

  /** The shared state the forwarder writes: the turn gate and the session's stored record. */
  class Forwarding {
    const gate: G.TurnGate
    var record: Option<Record>

    constructor (gate: G.TurnGate, record: Option<Record>)
      ensures this.gate == gate && this.record == record
    {
      this.gate, this.record := gate, record;
    }

    method Persist(a: Answers, e: RuntimeEvent) returns (ok: bool)
      requires Terminal(e)
      modifies this`record
      ensures ok == Persisted(old(record), a, e).Some?
      ensures record == if ok then Persisted(old(record), a, e) else old(record)
    {
      if a.exported.ExportFailed? {
        return false;
      }
      if !a.readable || record.None? {
        return false;
      }
      var r := record.value;
      if a.exported.Exported? {
        r := r.(state := a.exported.state);
      }
      if a.describe.DescribeFailed? {
        return false;
      }
      if a.describe.llm.Some? {
        r := r.(llm := a.describe.llm);
      }
      r := r.(status := if e.Completed? then Idle else StatusFailed, updatedAt := a.now);
      if a.writable {
        record := Some(r);
      }
      return a.writable;
    }

    /** The durability boundary: the state is written, then the slot freed, then the
        event sent, replaced by a failure if the write failed. */
    method SendTerminal(r: G.RuntimeId, t: G.OpId, e: RuntimeEvent, a: Answers, delivered: bool)
      returns (effects: seq<Effect>)
      requires Terminal(e)
      modifies this`record, gate`active
      ensures effects + [SlotReleased] == AtTerminal(old(record), a, e, delivered)
      ensures gate.View() == G.Released(old(gate.View()), r, t)
      ensures record == if Persisted(old(record), a, e).Some? then Persisted(old(record), a, e) else old(record)
    {
      effects := [];
      var event := Project(e);
      var ok := Persist(a, e);
      if ok {
        effects := [Saved(record.value)];
      } else {
        event := PersistFailed;
      }
      gate.Release(r, t);
      effects := effects + [SlotReleased, Send(event, delivered)];
    }

    /** Whatever happens, the turn's slot ends up free; the effects are exactly `Relay`'s,
        and the stored record changes exactly as they say. */
    method Forward(r: G.RuntimeId, t: G.OpId, events: seq<RuntimeEvent>, a: Answers, delivers: nat -> bool)
      returns (log: seq<Effect>)
      modifies this`record, gate`active
      ensures log == Relay(events, 0, old(record), a, delivers)
      ensures gate.View() == G.Released(old(gate.View()), r, t)
      ensures record == RecordAfter(old(record), events, 0, a, delivers)
    {
      var terminalSeen, abandoned := false, false;
      var k := 0;
      log := [];
      while k < |events|
        invariant k <= |events| && !terminalSeen && !abandoned
        invariant log == Relayed(events[..k])
        invariant forall i :: 0 <= i < k ==> !Terminal(events[i]) && delivers(i)
        invariant record == old(record) && gate.View() == old(gate.View())
      {
        RelaySplit(events, k, record, a, delivers);
        if Terminal(events[k]) {
          var effects := SendTerminal(r, t, events[k], a, delivers(k));
          terminalSeen, log := true, log + effects;
          break;
        }
        log := log + [Send(Project(events[k]), delivers(k))];
        if !delivers(k) {
          abandoned := true;
          break;
        }
        assert events[..k + 1] == events[..k] + [events[k]];
        k := k + 1;
      }
      RelaySplit(events, k, old(record), a, delivers);
      if abandoned && !terminalSeen {
        log := log + [Cancelled] + [Drained(events[k + 1..])];
      } else if !terminalSeen {
        log := log + [Send(StreamClosed, delivers(k))];
      }
      gate.Release(r, t);
      log := log + [SlotReleased];
    }
  }

  function Relayed(events: seq<RuntimeEvent>): seq<Effect> {
    seq(|events|, i requires 0 <= i < |events| => Sent(Project(events[i])))
  }

  /** The stored record once the forwarder has gone on from event `k` to its end. */
  function RecordAfter(record: Option<Record>, events: seq<RuntimeEvent>, k: nat, a: Answers, delivers: nat -> bool): Option<Record>
    requires k <= |events|
  {
    var n := StopAt(events, k, delivers);
    if n < |events| && Terminal(events[n]) && Persisted(record, a, events[n]).Some? then Persisted(record, a, events[n])
    else record
  }

  lemma {:induction false} RelaySplit(events: seq<RuntimeEvent>, k: nat, record: Option<Record>, a: Answers, delivers: nat -> bool)
    requires k <= |events|
    requires forall i :: 0 <= i < k ==> !Terminal(events[i]) && delivers(i)
    ensures Relay(events, 0, record, a, delivers) == Relayed(events[..k]) + Relay(events, k, record, a, delivers)
    ensures StopAt(events, 0, delivers) == StopAt(events, k, delivers)
    decreases k
  {
    if k > 0 {
      RelaySplit(events, k - 1, record, a, delivers);
      assert Relayed(events[..k]) == Relayed(events[..k - 1]) + [Sent(Project(events[k - 1]))];
    }
  }

  // ---------------------------------------------------------------- theorems

  /** The events the subscriber receives. */
  function Received(log: seq<Effect>): seq<SessionEvent>
    decreases |log|
  {
    if log == [] then []
    else (if log[0].Sent? then [log[0].event] else []) + Received(log[1..])
  }

  /** The first position where relaying stops: the stream's end, a terminal event, or a
      failed send. */
  function StopAt(events: seq<RuntimeEvent>, k: nat, delivers: nat -> bool): (n: nat)
    requires k <= |events|
    ensures k <= n <= |events|
    ensures forall i :: k <= i < n ==> !Terminal(events[i]) && delivers(i)
    ensures n < |events| ==> Terminal(events[n]) || !delivers(n)
    decreases |events| - k
  {
    if k == |events| || Terminal(events[k]) || !delivers(k) then k else StopAt(events, k + 1, delivers)
  }

  /** The terminal event that goes out at the stop, if relaying did not stop on a lost
      subscriber. */
  function Ending(events: seq<RuntimeEvent>, n: nat, record: Option<Record>, a: Answers): SessionEvent
    requires n <= |events|
  {
    if n == |events| then StreamClosed
    else if Persisted(record, a, events[n]).Some? then Project(events[n])
    else PersistFailed
  }

  lemma ReceivedCons(x: Effect, rest: seq<Effect>)
    ensures Received([x] + rest) == (if x.Sent? then [x.event] else []) + Received(rest)
  {
  }

  lemma {:induction false} ReceivedRelayed(events: seq<RuntimeEvent>, rest: seq<Effect>)
    ensures Received(Relayed(events) + rest) == Projected(events) + Received(rest)
    decreases |events|
  {
    if events == [] {
      assert Relayed(events) + rest == rest;
    } else {
      ReceivedRelayed(events[1..], rest);
      ReceivedCons(Sent(Project(events[0])), Relayed(events[1..]) + rest);
      assert Relayed(events) + rest == [Sent(Project(events[0]))] + (Relayed(events[1..]) + rest);
      assert Projected(events) == [Project(events[0])] + Projected(events[1..]);
    }
  }

  /** The effects at the stop, whichever of its three kinds it is. */
  lemma ReceivedAtStop(events: seq<RuntimeEvent>, n: nat, record: Option<Record>, a: Answers, delivers: nat -> bool)
    requires n <= |events|
    requires n < |events| ==> Terminal(events[n]) || !delivers(n)
    ensures Received(Relay(events, n, record, a, delivers)) == if delivers(n) then [Ending(events, n, record, a)] else []
  {
    if n == |events| {
      ReceivedCons(Send(StreamClosed, delivers(n)), [SlotReleased]);
    } else if Terminal(events[n]) {
      AtTerminalReceived(record, a, events[n], delivers(n));
    } else {
      LostReceived(events[n], events[n + 1..]);
    }
  }

  /** The subscriber receives the projections of the events before the stop, in order,
      and then, if that last send succeeds, the ending; nothing after it. */
  lemma SubscriberReceives(events: seq<RuntimeEvent>, record: Option<Record>, a: Answers, delivers: nat -> bool)
    ensures var n := StopAt(events, 0, delivers);
            Received(Relay(events, 0, record, a, delivers))
            == Projected(events[..n]) + (if delivers(n) then [Ending(events, n, record, a)] else [])
  {
    var n := StopAt(events, 0, delivers);
    RelaySplit(events, n, record, a, delivers);
    ReceivedRelayed(events[..n], Relay(events, n, record, a, delivers));
    ReceivedAtStop(events, n, record, a, delivers);
  }

  lemma AtTerminalReceived(record: Option<Record>, a: Answers, e: RuntimeEvent, delivered: bool)
    ensures Received(AtTerminal(record, a, e, delivered))
            == if !delivered then [] else [if Persisted(record, a, e).Some? then Project(e) else PersistFailed]
  {
    var saved := Persisted(record, a, e);
    var send := Send(if saved.Some? then Project(e) else PersistFailed, delivered);
    ReceivedCons(SlotReleased, []);
    ReceivedCons(send, [SlotReleased]);
    ReceivedCons(SlotReleased, [send] + [SlotReleased]);
    var tail := [SlotReleased] + ([send] + [SlotReleased]);
    if saved.Some? {
      ReceivedCons(Saved(saved.value), tail);
      assert AtTerminal(record, a, e, delivered) == [Saved(saved.value)] + tail;
    } else {
      assert AtTerminal(record, a, e, delivered) == tail;
    }
  }

  lemma LostReceived(e: RuntimeEvent, rest: seq<RuntimeEvent>)
    ensures Received([Lost(Project(e)), Cancelled, Drained(rest), SlotReleased]) == []
  {
    ReceivedCons(SlotReleased, []);
    ReceivedCons(Drained(rest), [SlotReleased]);
    ReceivedCons(Cancelled, [Drained(rest)] + [SlotReleased]);
    ReceivedCons(Lost(Project(e)), [Cancelled] + ([Drained(rest)] + [SlotReleased]));
    assert [Lost(Project(e)), Cancelled, Drained(rest), SlotReleased]
        == [Lost(Project(e))] + ([Cancelled] + ([Drained(rest)] + [SlotReleased]));
  }

  /** With a subscriber that stays, exactly one terminal event arrives, and it is last. */
  lemma OneTerminalLast(events: seq<RuntimeEvent>, record: Option<Record>, a: Answers, delivers: nat -> bool)
    requires forall i: nat :: delivers(i)
    ensures var got := Received(Relay(events, 0, record, a, delivers));
            && got != [] && TerminalOut(got[|got| - 1])
            && (forall i :: 0 <= i < |got| - 1 ==> !TerminalOut(got[i]) && i < |events| && got[i] == Project(events[i]))
  {
    SubscriberReceives(events, record, a, delivers);
  }

  /** Whatever the subscriber does, the runtime's own terminal event goes out only after
      the record with the exported state and the matching status was written and the
      slot was freed. */
  lemma {:induction false} CompletionIsDurable(events: seq<RuntimeEvent>, k: nat, record: Option<Record>, a: Answers,
                                               delivers: nat -> bool, i: nat)
    requires k <= |events|
    requires i < |Relay(events, k, record, a, delivers)|
    requires var e := Relay(events, k, record, a, delivers)[i];
             (e.Sent? || e.Lost?) && (e.event.TurnCompleted? || e.event.TurnFailed?)
    ensures var log := Relay(events, k, record, a, delivers);
            && i >= 2 && log[i - 2].Saved? && log[i - 1] == SlotReleased
            && log[i - 2].record.status == (if log[i].event.TurnCompleted? then Idle else StatusFailed)
            && (a.exported.Exported? ==> log[i - 2].record.state == a.exported.state)
    decreases |events| - k
  {
    var log := Relay(events, k, record, a, delivers);
    if k < |events| && !Terminal(events[k]) && delivers(k) {
      assert log == [Sent(Project(events[k]))] + Relay(events, k + 1, record, a, delivers);
      CompletionIsDurable(events, k + 1, record, a, delivers, i - 1);
    }
  }

  /** The runtime is cancelled, and its stream drained, exactly when a send failed before
      a terminal event and before the stream's end. */
  lemma {:induction false} CancelledIffAbandoned(events: seq<RuntimeEvent>, k: nat, record: Option<Record>, a: Answers,
                                                 delivers: nat -> bool)
    requires k <= |events|
    ensures var log := Relay(events, k, record, a, delivers);
            var n := StopAt(events, k, delivers);
            && (Cancelled in log <==> n < |events| && !Terminal(events[n]))
            && (Cancelled in log <==> n < |events| && Drained(events[n + 1..]) in log)
    decreases |events| - k
  {
    var log := Relay(events, k, record, a, delivers);
    if k < |events| {
      if Terminal(events[k]) {
        TerminalCancelsNothing(record, a, events[k], delivers(k));
      } else if delivers(k) {
        CancelledIffAbandoned(events, k + 1, record, a, delivers);
        assert log == [Sent(Project(events[k]))] + Relay(events, k + 1, record, a, delivers);
      } else {
        assert log[1] == Cancelled && log[2] == Drained(events[k + 1..]);
      }
    }
  }

  lemma TerminalCancelsNothing(record: Option<Record>, a: Answers, e: RuntimeEvent, delivered: bool)
    ensures forall x :: x in AtTerminal(record, a, e, delivered) ==> !x.Cancelled? && !x.Drained?
  {
  }

  /** On every path the slot is released last, and a terminal event releases it before
      the subscriber can see the turn end. */
  lemma {:induction false} SlotReleasedOnEveryExit(events: seq<RuntimeEvent>, k: nat, record: Option<Record>, a: Answers,
                                                   delivers: nat -> bool)
    requires k <= |events|
    ensures var log := Relay(events, k, record, a, delivers);
            log != [] && log[|log| - 1] == SlotReleased
    decreases |events| - k
  {
    if k < |events| && !Terminal(events[k]) && delivers(k) {
      SlotReleasedOnEveryExit(events, k + 1, record, a, delivers);
    }
  }
}
