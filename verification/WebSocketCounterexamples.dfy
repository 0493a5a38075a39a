/** Concrete runs showing that the hypotheses of the WebSocket theorems cannot be dropped. */
module WebSocketCounterexamples {
  import opened WebSocket
  import opened WebSocketCorrelation
  import opened WebSocketContinuations

  // ---------------------------------------------------------------- runs without incident

  /** Nothing goes wrong on the socket and nobody gives up. */
  predicate Calm(e: Step) {
    !e.WriteError? && !e.Cancel? && !e.ReadError?
  }

  /** The read loop waits for a frame, and every request written has been answered. */
  predicate Idle(s: State) {
    && !s.panicked && s.loop.Reading? && !s.client.closed && s.client.pending == []
    && |s.hist.taken| == |s.hist.written| && s.hist.lost == 0
  }

  /** A run without incident, and a server that has behaved throughout it. */
  ghost predicate CalmRun(states: seq<State>, steps: seq<Step>) {
    FifoRun(states, steps) && states != [] && forall e :: e in steps ==> Calm(e)
  }

  lemma CalmGrow(states: seq<State>, steps: seq<Step>, e: Step) returns (states': seq<State>, steps': seq<Step>)
    requires CalmRun(states, steps) && states != [] && Enabled(Last(states), e) && Calm(e)
    requires e.ReadResponse? ==> |Last(states).hist.taken| + Last(states).hist.lost < |Last(states).hist.written|
    ensures CalmRun(states', steps') && states' != [] && Last(states') == Apply(Last(states), e)
  {
    hide FifoRun, Apply, Enabled;
    states', steps' := Grow(states, steps, e);
  }

  /** The oldest pending request's response is read and put in its channel. */
  lemma Responded(states: seq<State>, steps: seq<Step>, c: CallId, r: Response)
    returns (states': seq<State>, steps': seq<Step>)
    requires CalmRun(states, steps) && states != []
    requires var s := Last(states);
      && !s.panicked && s.loop.Reading? && s.client.pending != [] && s.client.pending[0] == c
      && c in s.calls && s.calls[c].chan == NEW_CHAN
      && |s.hist.taken| < |s.hist.written| && s.hist.lost == 0
    ensures CalmRun(states', steps') && states' != []
    ensures var s, t := Last(states), Last(states');
      && t == s.(
        client := s.client.(pending := s.client.pending[1..]),
        calls := s.calls[c := s.calls[c].(chan := Chan([r], 1, 0))],
        hist := t.hist)
      && t.hist.enqueued == s.hist.enqueued && t.hist.written == s.hist.written && t.hist.lost == 0
      && t.hist.taken == s.hist.taken + [c] && t.hist.answers == s.hist.answers + [r]
  {
    hide CalmRun;
    var s := Last(states);
    states', steps' := CalmGrow(states, steps, ReadResponse(r));
    states', steps' := CalmGrow(states', steps', SendResponse);
    assert NEW_CHAN.buf + [r] == [r];
    assert Last(states').calls == s.calls[c := s.calls[c].(chan := Chan([r], 1, 0))];
  }

  // ---------------------------------------------------------------- responses to the wrong request

  /** Two callers have registered. */
  lemma TwoRegistered() returns (states: seq<State>, steps: seq<Step>)
    ensures CalmRun(states, steps) && states != [] && Idle(Last(states))
    ensures var s := Last(states);
      && s.calls.Keys == {0, 1} && s.calls[0].chan == s.calls[1].chan == NEW_CHAN
      && InPhase(s, 0, Starting) && InPhase(s, 1, Starting)
      && s.hist.enqueued == [] && s.hist.written == [] && s.hist.answers == []
  {
    states, steps := [INITIAL], [];
    assert CalmRun(states, steps);
    hide CalmRun;
    states, steps := CalmGrow(states, steps, Subscribe(0, 0, "block"));
    states, steps := CalmGrow(states, steps, Subscribe(1, 1, "dkg"));
  }

  /** Two callers have enqueued, and neither has written. */
  lemma TwoEnqueued() returns (states: seq<State>, steps: seq<Step>)
    ensures CalmRun(states, steps) && states != []
    ensures var s := Last(states);
      && !s.panicked && s.loop == Reading && s.client.pending == [0, 1] && !s.client.closed
      && s.calls.Keys == {0, 1} && s.calls[0].chan == s.calls[1].chan == NEW_CHAN
      && InPhase(s, 0, Enqueued) && InPhase(s, 1, Enqueued)
      && s.hist.enqueued == [0, 1] && s.hist.written == [] && s.hist.taken == [] && s.hist.answers == []
      && s.hist.lost == 0
  {
    hide CalmRun;
    states, steps := TwoRegistered();
    states, steps := CalmGrow(states, steps, Enqueue(0));
    states, steps := CalmGrow(states, steps, Enqueue(1));
  }

  /** They have written in the other order. */
  lemma SwappedWrites() returns (states: seq<State>, steps: seq<Step>)
    ensures CalmRun(states, steps) && states != []
    ensures var s := Last(states);
      && !s.panicked && s.loop == Reading && s.client.pending == [0, 1] && !s.client.closed
      && s.calls.Keys == {0, 1} && s.calls[0].chan == s.calls[1].chan == NEW_CHAN
      && s.hist.enqueued == [0, 1] && s.hist.written == [1, 0] && s.hist.taken == [] && s.hist.answers == []
      && s.hist.lost == 0
  {
    hide CalmRun;
    states, steps := TwoEnqueued();
    states, steps := CalmGrow(states, steps, Write(1));
    states, steps := CalmGrow(states, steps, Write(0));
  }

  /** Two callers enqueue in one order and write in the other: the answer to the first frame written goes to the other
      caller.  The server behaves, nobody cancels and no read or write fails. */
  lemma SwappedWritesMisdeliver() returns (states: seq<State>, steps: seq<Step>)
    ensures FifoRun(states, steps) && states != []
    ensures forall e :: e in steps ==> !e.WriteError? && !e.Cancel? && !e.ReadError?
    ensures var h := Last(states).hist; h.enqueued == [0, 1] && h.written == [1, 0] && h.taken == [0]
  {
    states, steps := SwappedWrites();
    states, steps := Responded(states, steps, 0, OK);
  }

  /** If both responses are alike the swap cannot be seen from the responses: each caller holds one equal to its own,
      though each was sent the other's. */
  lemma AlikeResponsesHideTheSwap() returns (states: seq<State>, steps: seq<Step>)
    ensures FifoRun(states, steps) && states != []
    ensures var s := Last(states); var h := s.hist;
      && h.enqueued == h.taken == [0, 1] && h.written == [1, 0] && h.answers == [OK, OK]
      && forall k :: 0 <= k < 2 ==> Holds(s, h.written[k], h.answers[k])
  {
    states, steps := SwappedWrites();
    states, steps := Responded(states, steps, 0, OK);
    states, steps := Responded(states, steps, 1, OK);
  }

  /** A failed write leaves its channel in pending, so the next response, which answers a later request, goes to the
      call that has already failed; the order of the frames that were written does not help. */
  lemma FailedWriteMisdelivers() returns (states: seq<State>, steps: seq<Step>)
    ensures FifoRun(states, steps) && states != []
    ensures var h := Last(states).hist; h.taken == [0] && h.written == [1] && h.enqueued == [0, 1]
  {
    states, steps := TwoEnqueued();
    hide FifoRun;
    states, steps := Grow(states, steps, WriteError(0));
    states, steps := Grow(states, steps, Write(1));
    states, steps := Grow(states, steps, ReadResponse(OK));
  }

  // ---------------------------------------------------------------- the panic, with nobody to blame

  const UNSUBSCRIBED: Response := Response("Unsubscribed", "sub-1", "", "")

  /** A request is enqueued and written. */
  lemma Requested(states: seq<State>, steps: seq<Step>, c: CallId) returns (states': seq<State>, steps': seq<Step>)
    requires CalmRun(states, steps) && states != [] && Idle(Last(states)) && InPhase(Last(states), c, Starting)
    ensures CalmRun(states', steps') && states' != []
    ensures var s, t := Last(states), Last(states');
      && t == s.(
        client := s.client.(pending := [c]), calls := s.calls[c := s.calls[c].(phase := Waiting)], hist := t.hist)
      && |t.hist.written| == |s.hist.written| + 1 && t.hist.taken == s.hist.taken && t.hist.lost == 0
  {
    hide CalmRun;
    var s := Last(states);
    states', steps' := CalmGrow(states, steps, Enqueue(c));
    states', steps' := CalmGrow(states', steps', Write(c));
    assert Last(states').calls == s.calls[c := s.calls[c].(phase := Waiting)];
  }

  /** A request is enqueued and written, and its response read and put in its channel. */
  lemma Exchange(states: seq<State>, steps: seq<Step>, c: CallId, r: Response)
    returns (states': seq<State>, steps': seq<Step>)
    requires CalmRun(states, steps) && states != [] && Idle(Last(states))
    requires InPhase(Last(states), c, Starting) && Last(states).calls[c].chan == NEW_CHAN
    ensures CalmRun(states', steps') && states' != [] && Idle(Last(states'))
    ensures var s, t := Last(states), Last(states');
      t == s.(calls := s.calls[c := Call(s.calls[c].purpose, Waiting, Chan([r], 1, 0))], hist := t.hist)
  {
    hide CalmRun;
    var s := Last(states);
    states', steps' := Requested(states, steps, c);
    states', steps' := Responded(states', steps', c, r);
    assert Last(states').calls == s.calls[c := Call(s.calls[c].purpose, Waiting, Chan([r], 1, 0))];
  }

  /** A call takes its response and returns; it has nothing to remove. */
  lemma HandedBack(states: seq<State>, steps: seq<Step>, c: CallId)
    returns (states': seq<State>, steps': seq<Step>)
    requires CalmRun(states, steps) && states != [] && Idle(Last(states)) && c in Last(states).calls
    requires var call := Last(states).calls[c];
      call.purpose.Subscribing? && call == Call(call.purpose, Waiting, Chan([OK], 1, 0))
    ensures CalmRun(states', steps') && states' != [] && Idle(Last(states'))
    ensures var s, t := Last(states), Last(states');
      t == s.(calls := s.calls[c := Call(s.calls[c].purpose, Finished(Answered(OK)), Chan([], 1, 0))])
  {
    hide CalmRun;
    var s := Last(states);
    assert s.calls[c].chan.buf[1..] == [];
    states', steps' := CalmGrow(states, steps, TakeResponse(c));
    states', steps' := CalmGrow(states', steps', Finish(c));
    assert Last(states').calls == s.calls[c := Call(s.calls[c].purpose, Finished(Answered(OK)), Chan([], 1, 0))];
  }

  /** A caller subscribes, is confirmed and is handed its subscription. */
  lemma Confirmed(states: seq<State>, steps: seq<Step>, c: CallId, topic: Topic)
    returns (states': seq<State>, steps': seq<Step>)
    requires CalmRun(states, steps) && states != [] && Idle(Last(states))
    requires c !in Last(states).calls && c !in Last(states).subs
    ensures CalmRun(states', steps') && states' != [] && Idle(Last(states'))
    ensures var s, t := Last(states), Last(states');
      && t.client.subs == s.client.subs[topic := SubsOn(s.client, topic) + [c]]
      && t.calls == s.calls[c := Call(Subscribing(c), Finished(Answered(OK)), Chan([], 1, 0))]
      && c in t.subs && t.subs == s.subs[c := t.subs[c]] && t.subs[c].topic == topic && !t.subs[c].once
  {
    hide CalmRun;
    var s := Last(states);
    states', steps' := CalmGrow(states, steps, Subscribe(c, c, topic));
    hide Apply, Enabled;
    states', steps' := Exchange(states', steps', c, OK);
    states', steps' := HandedBack(states', steps', c);
    assert Last(states').calls == s.calls[c := Call(Subscribing(c), Finished(Answered(OK)), Chan([], 1, 0))];
  }

  /** Two subscriptions to one topic, both confirmed. */
  lemma TwoConfirmed(topic: Topic) returns (states: seq<State>, steps: seq<Step>)
    ensures CalmRun(states, steps) && states != [] && Idle(Last(states))
    ensures var s := Last(states);
      && SubsOn(s.client, topic) == [0, 1]
      && HandedOut(s, 0) && s.calls[0].purpose == Subscribing(0)
      && HandedOut(s, 1) && s.calls[1].purpose == Subscribing(1)
      && s.calls.Keys == {0, 1} && 0 in s.subs && s.subs[0].topic == topic && !s.subs[0].once
  {
    states, steps := [INITIAL], [];
    assert CalmRun(states, steps);
    hide CalmRun;
    states, steps := Confirmed(states, steps, 0, topic);
    assert SubsOn(Last(states).client, topic) == [0];
    states, steps := Confirmed(states, steps, 1, topic);
  }

  /** The first of them has asked to unsubscribe, its response is in its channel, and it is still listed when an event
      for the second is read. */
  lemma ReadWhileUnsubscribing(ev: Event) returns (states: seq<State>, steps: seq<Step>)
    ensures CalmRun(states, steps) && states != []
    ensures var s := Last(states);
      && !s.panicked && s.loop == FanOut(ev, [0, 1]) && SubsOn(s.client, ev.topic) == [0, 1]
      && HandedOut(s, 1) && s.calls[1].purpose == Subscribing(1)
      && 2 in s.calls && s.calls[2] == Call(Unsubscribing(0), Waiting, Chan([UNSUBSCRIBED], 1, 0))
      && 0 in s.subs && s.subs[0].topic == ev.topic && !s.subs[0].once
  {
    hide CalmRun;
    states, steps := TwoConfirmed(ev.topic);
    states, steps := CalmGrow(states, steps, Unsubscribe(2, 0));
    states, steps := Exchange(states, steps, 2, UNSUBSCRIBED);
    states, steps := CalmGrow(states, steps, ReadEvent(ev));
  }

  /** Unsubscribe goes on, removes the subscription and closes its channel before the event in hand is sent. */
  lemma ClosedBeforeSend(ev: Event) returns (states: seq<State>, steps: seq<Step>)
    ensures CalmRun(states, steps) && states != []
    ensures var s := Last(states);
      && !s.panicked && s.loop == FanOut(ev, [0, 1]) && 0 in s.subs && s.subs[0].closes > 0
      && SubsOn(s.client, ev.topic) == [1] && HandedOut(s, 1) && s.calls[1].purpose == Subscribing(1)
  {
    hide CalmRun;
    states, steps := ReadWhileUnsubscribing(ev);
    states, steps := CalmGrow(states, steps, TakeResponse(2));
    states, steps := CalmGrow(states, steps, RemoveSub(2));
    assert RemoveFirst([0, 1], 0) == [1];
    states, steps := CalmGrow(states, steps, CloseEvents(2));
  }

  /** One of two confirmed subscriptions to a topic is unsubscribed while an event meant for the other is fanned out:
      the send to it panics.  The node answers every request in order and sends an event that is subscribed to, no
      read or write fails and nobody cancels. */
  lemma RemovalInFanOutPanics() returns (states: seq<State>, steps: seq<Step>)
    ensures FifoRun(states, steps) && states != [] && Last(states).panicked
    ensures forall e :: e in steps ==> !e.WriteError? && !e.Cancel? && !e.ReadError?
    ensures var s := Last(states);
      s.loop.FanOut? && SubsOn(s.client, s.loop.event.topic) == [1]
      && HandedOut(s, 1) && s.calls[1].purpose == Subscribing(1)
  {
    states, steps := ClosedBeforeSend(Event("block", []));
    hide FifoRun;
    states, steps := CalmGrow(states, steps, SendEvent);
  }
}
