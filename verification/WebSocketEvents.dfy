/** What each subscription is given: in every interleaving an order-preserving part of the events read on its topic
    while it was listed, and all of them unless its buffer overflowed. */
module WebSocketEvents {
  import opened WebSocket
  import opened WebSocketSubs

  // ---------------------------------------------------------------- sequences of events

  /** The events of a topic, in the order they were read. */
  function OnTopic(es: seq<Event>, t: Topic): seq<Event> {
    if es == [] then []
    else
      var n := |es| - 1;
      OnTopic(es[..n], t) + if es[n].topic == t then [es[n]] else []
  }

  /** a is b with some elements left out. */
  predicate Subsequence(a: seq<Event>, b: seq<Event>) {
    if a == [] then true
    else if b == [] then false
    else
      var m, n := |a| - 1, |b| - 1;
      (a[m] == b[n] && Subsequence(a[..m], b[..n])) || Subsequence(a, b[..n])
  }

  lemma {:induction false} SubsequenceShorter(a: seq<Event>, b: seq<Event>)
    requires Subsequence(a, b)
    ensures |a| <= |b|
    ensures |a| == |b| ==> a == b
    decreases |b|
  {
    if a != [] {
      var m, n := |a| - 1, |b| - 1;
      if a[m] == b[n] && Subsequence(a[..m], b[..n]) {
        SubsequenceShorter(a[..m], b[..n]);
        assert a == a[..m] + [a[m]] && b == b[..n] + [b[n]];
      } else {
        SubsequenceShorter(a, b[..n]);
      }
    }
  }

  lemma SubsequenceKeep(a: seq<Event>, b: seq<Event>, e: Event)
    requires Subsequence(a, b)
    ensures Subsequence(a + [e], b + [e]) && Subsequence(a, b + [e])
  {
    assert (a + [e])[..|a|] == a && (b + [e])[..|b|] == b;
  }

  lemma OnTopicAppend(es: seq<Event>, e: Event, t: Topic)
    ensures OnTopic(es + [e], t) == OnTopic(es, t) + if e.topic == t then [e] else []
  {
    assert (es + [e])[..|es|] == es;
  }

  lemma {:induction false} OnTopicConcat(a: seq<Event>, b: seq<Event>, t: Topic)
    ensures OnTopic(a + b, t) == OnTopic(a, t) + OnTopic(b, t)
  {
    if b == [] {
      assert a + b == a;
    } else {
      var n := |b| - 1;
      assert b == b[..n] + [b[n]];
      OnTopicConcat(a, b[..n], t);
      assert a + b == (a + b[..n]) + [b[n]];
      OnTopicAppend(a + b[..n], b[n], t);
      OnTopicAppend(b[..n], b[n], t);
    }
  }

  // ---------------------------------------------------------------- the invariant

  function Between(es: seq<Event>, from: nat, to: nat): seq<Event> {
    if from <= to <= |es| then es[from..to] else []
  }

  /** The events read on i's topic while it was listed. */
  function Seen(s: State, i: SubId): seq<Event>
    requires i in s.subs
  {
    OnTopic(Between(s.hist.events, s.subs[i].since, EventsEnd(s, s.subs[i])), s.subs[i].topic)
  }

  /** Those of them the read loop has already offered to i. */
  function Offered(s: State, i: SubId): seq<Event>
    requires i in s.subs
  {
    var seen := Seen(s, i);
    if InFanOut(s, i) && seen != [] then seen[..|seen| - 1] else seen
  }

  function Accepted(b: Sub): seq<Event> {
    b.consumed + b.buffer
  }

  /** What was consumed or is buffered is the offered events in order, less the dropped ones; nothing is dropped before
      a whole buffer of events has been accepted. */
  ghost predicate Delivered(b: Sub, offered: seq<Event>) {
    && Subsequence(Accepted(b), offered)
    && |Accepted(b)| + b.dropped == |offered|
    && |b.buffer| <= EVENT_BUFFER
    && (b.dropped > 0 ==> |Accepted(b)| >= EVENT_BUFFER)
  }

  ghost predicate EventsOk(s: State, i: SubId)
    requires i in s.subs
  {
    && Delivered(s.subs[i], Offered(s, i))
    && (InFanOut(s, i) ==> Seen(s, i) != [] && Seen(s, i)[|Seen(s, i)| - 1] == s.loop.event)
  }

  ghost predicate DeliveryInv(s: State) {
    forall i :: i in s.subs ==> EventsOk(s, i)
  }

  // ---------------------------------------------------------------- steps

  /** What a subscription was given does not change when neither its queue, nor its listing period, nor the events, nor
      its place in the fan-out does. */
  lemma SameDelivery(s: State, t: State, i: SubId)
    requires i in s.subs && i in t.subs && EventsOk(s, i)
    requires t.subs[i] == s.subs[i].(once := t.subs[i].once, closes := t.subs[i].closes, until := t.subs[i].until)
    requires t.hist.events == s.hist.events && EventsEnd(t, t.subs[i]) == EventsEnd(s, s.subs[i])
    requires InFanOut(t, i) == InFanOut(s, i) && (InFanOut(s, i) ==> t.loop.event == s.loop.event)
    ensures EventsOk(t, i)
  {
    hide OnTopic, Subsequence;
    assert Seen(t, i) == Seen(s, i);
  }

  lemma NewSubDelivery(s: State, c: CallId, i: SubId, topic: Topic)
    requires SubInv(s) && c !in s.calls && i !in s.subs && !s.client.closed
    ensures i in DoSubscribe(s, c, i, topic).subs && EventsOk(DoSubscribe(s, c, i, topic), i)
  {
    var t := DoSubscribe(s, c, i, topic);
    assert !InFanOut(t, i);
    assert Between(t.hist.events, |t.hist.events|, |t.hist.events|) == [];
    assert Seen(t, i) == [];
  }

  lemma ConsumeDelivery(s: State, i: SubId)
    requires i in s.subs && s.subs[i].buffer != [] && EventsOk(s, i)
    ensures EventsOk(DoConsume(s, i), i)
  {
    var t := DoConsume(s, i);
    hide OnTopic, Subsequence;
    assert Accepted(t.subs[i]) == Accepted(s.subs[i]);
    assert Seen(t, i) == Seen(s, i);
  }

  /** Reading an event owes it to exactly the listed subscriptions of its topic. */
  lemma ReadOwes(s: State, ev: Event, i: SubId)
    requires SubInv(s) && s.loop.Reading? && i in s.subs
    ensures InFanOut(DoReadEvent(s, ev), i) <==> Listed(s, i) && s.subs[i].topic == ev.topic
    ensures Listed(s, i) <==> s.subs[i].until.None?
    ensures s.subs[i].since <= EventsEnd(s, s.subs[i]) <= |s.hist.events|
  {
    assert SubOk(s, i);
    if ev.topic in s.client.subs { assert ListOk(s, ev.topic); }
  }

  lemma ReadSeen(s: State, ev: Event, i: SubId)
    requires SubInv(s) && s.loop.Reading? && i in s.subs
    ensures var t := DoReadEvent(s, ev); Seen(t, i) == Seen(s, i) + if InFanOut(t, i) then [ev] else []
  {
    var t, b, es := DoReadEvent(s, ev), s.subs[i], s.hist.events;
    ReadOwes(s, ev, i);
    hide SubInv, Listed, InFanOut, OnTopic;
    if b.until.None? {
      assert Between(t.hist.events, b.since, |es| + 1) == Between(es, b.since, |es|) + [ev];
      OnTopicAppend(Between(es, b.since, |es|), ev, b.topic);
    } else {
      assert Between(t.hist.events, b.since, b.until.value) == Between(es, b.since, b.until.value);
    }
  }

  lemma ReadEventDelivery(s: State, ev: Event, i: SubId)
    requires SubInv(s) && s.loop.Reading? && i in s.subs && EventsOk(s, i)
    ensures EventsOk(DoReadEvent(s, ev), i)
  {
    var t := DoReadEvent(s, ev);
    ReadSeen(s, ev, i);
    hide OnTopic, Subsequence, Seen, SubInv, SubsOn, Delivered;
    assert (Seen(s, i) + [ev])[..|Seen(s, i)|] == Seen(s, i);
    assert Offered(t, i) == Offered(s, i);
  }

  lemma AcceptOne(b: Sub, offered: seq<Event>, ev: Event)
    requires Delivered(b, offered)
    ensures Delivered(TrySend(b, ev), offered + [ev])
  {
    SubsequenceKeep(Accepted(b), offered, ev);
    hide Subsequence;
    assert b.consumed + (b.buffer + [ev]) == Accepted(b) + [ev];
  }

  lemma SendSeen(s: State, i: SubId)
    requires SubInv(s) && s.loop.FanOut? && s.loop.rest[0] == i && i in s.subs && s.subs[i].closes == 0
    ensures var t := DoSendEvent(s);
      t.subs[i] == TrySend(s.subs[i], s.loop.event) && Seen(t, i) == Seen(s, i) && !InFanOut(t, i)
  {
    assert i !in s.loop.rest[1..];
    TrySendKeeps(s.subs[i], s.loop.event);
    hide OnTopic, SubInv, TrySend, Between;
  }

  lemma FrontAndLast(es: seq<Event>, ev: Event)
    requires es != [] && es[|es| - 1] == ev
    ensures es == es[..|es| - 1] + [ev]
  {
  }

  lemma SendEventDelivery(s: State, i: SubId)
    requires SubInv(s) && s.loop.FanOut? && s.loop.rest[0] == i
    requires i in s.subs && s.subs[i].closes == 0 && EventsOk(s, i)
    ensures EventsOk(DoSendEvent(s), i)
  {
    SendSeen(s, i);
    var ev, seen := s.loop.event, Seen(s, i);
    hide OnTopic, Subsequence, SubInv, TrySend, Delivered, DoSendEvent, Seen;
    FrontAndLast(seen, ev);
    AcceptOne(s.subs[i], seen[..|seen| - 1], ev);
  }

  lemma TrySendKeeps(b: Sub, ev: Event)
    ensures var c := TrySend(b, ev);
      c.topic == b.topic && c.since == b.since && c.until == b.until && c.closes == b.closes
  {
  }

  /** After a send, the other subscriptions keep their place in the fan-out. */
  lemma OthersInFanOut(s: State, j: SubId)
    requires SubInv(s) && s.loop.FanOut? && s.loop.rest[0] in s.subs && s.subs[s.loop.rest[0]].closes == 0
    requires j != s.loop.rest[0]
    ensures InFanOut(DoSendEvent(s), j) == InFanOut(s, j)
    ensures InFanOut(s, j) ==> DoSendEvent(s).loop.event == s.loop.event
  {
    assert s.loop.rest == [s.loop.rest[0]] + s.loop.rest[1..];
  }

  predicate TouchesSubs(e: Step) {
    e.Subscribe? || e.RemoveSub? || e.CloseEvents? || e.ReadError? || e.CloseSub?
  }

  /** Steps that list, unlist or close subscriptions leave every queue and the fan-out alone. */
  lemma ListingStep(s: State, e: Step, i: SubId)
    requires SubInv(s) && Enabled(s, e) && i in s.subs && EventsOk(s, i) && TouchesSubs(e)
    ensures i in Apply(s, e).subs && EventsOk(Apply(s, e), i)
  {
    hide EventsOk;
    assert SubOk(s, i);
    hide SubInv, SubOk;
    SameDelivery(s, Apply(s, e), i);
  }

  /** Steps of the request side do too. */
  lemma QuietStep(s: State, e: Step, i: SubId)
    requires Enabled(s, e) && i in s.subs && EventsOk(s, i)
    requires !TouchesSubs(e) && !e.Consume? && !e.ReadEvent? && !e.SendEvent?
    ensures i in Apply(s, e).subs && EventsOk(Apply(s, e), i)
  {
    hide EventsOk;
    SameDelivery(s, Apply(s, e), i);
  }

  lemma SendEventOther(s: State, j: SubId)
    requires SubInv(s) && s.loop.FanOut? && s.loop.rest[0] in s.subs && s.subs[s.loop.rest[0]].closes == 0
    requires j != s.loop.rest[0] && j in s.subs && EventsOk(s, j)
    ensures EventsOk(DoSendEvent(s), j)
  {
    hide EventsOk;
    OthersInFanOut(s, j);
    hide SubInv;
    SameDelivery(s, DoSendEvent(s), j);
  }

  lemma OnlySubscribeAdds(s: State, e: Step, i: SubId)
    requires Enabled(s, e) && i !in s.subs && i in Apply(s, e).subs
    ensures e.Subscribe? && e.i == i && !s.client.closed
  {
  }

  lemma OldSubDelivery(s: State, e: Step, i: SubId)
    requires SubInv(s) && Enabled(s, e) && i in s.subs && EventsOk(s, i)
    ensures i in Apply(s, e).subs && EventsOk(Apply(s, e), i)
  {
    hide EventsOk, SubInv;
    match e
    case Consume(j) => if j == i { ConsumeDelivery(s, i); } else { SameDelivery(s, DoConsume(s, j), i); }
    case ReadEvent(ev) => ReadEventDelivery(s, ev, i);
    case SendEvent =>
      var j := s.loop.rest[0];
      if s.subs[j].closes > 0 { SameDelivery(s, DoSendEvent(s), i); }
      else if j == i { SendEventDelivery(s, i); }
      else { SendEventOther(s, i); }
    case _ => if TouchesSubs(e) { ListingStep(s, e, i); } else { QuietStep(s, e, i); }
  }

  lemma StepKeepsDeliveryInv(s: State, e: Step)
    requires SubInv(s) && DeliveryInv(s) && Enabled(s, e)
    ensures DeliveryInv(Apply(s, e))
  {
    hide EventsOk, SubInv, Apply, Enabled;
    forall i | i in Apply(s, e).subs
      ensures EventsOk(Apply(s, e), i)
    {
      if i in s.subs {
        OldSubDelivery(s, e, i);
      } else {
        OnlySubscribeAdds(s, e, i);
        NewSub(s, e, i);
      }
    }
  }

  lemma NewSub(s: State, e: Step, i: SubId)
    requires SubInv(s) && Enabled(s, e) && e.Subscribe? && e.i == i && !s.client.closed
    ensures i in Apply(s, e).subs && EventsOk(Apply(s, e), i)
  {
    hide EventsOk, SubInv;
    NewSubDelivery(s, e.c, i, e.topic);
  }
}
