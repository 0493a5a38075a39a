/** The subscription side of the WebSocket client: what every interleaving keeps of the subscription lists and of the
    closing of the events channels. */
module WebSocketSubs {
  import opened Keys
  import opened WebSocket

  // ---------------------------------------------------------------- the invariant

  predicate Listed(s: State, i: SubId)
    requires i in s.subs
  {
    i in SubsOn(s.client, s.subs[i].topic)
  }

  /** Each list names distinct subscriptions of its own topic. */
  ghost predicate ListsOk(s: State) {
    && (s.client.closed ==> s.client.subs == map[])
    && forall t :: t in s.client.subs ==> ListOk(s, t)
  }

  ghost predicate ListOk(s: State, t: Topic)
    requires t in s.client.subs
  {
    Distinct(s.client.subs[t]) && forall i :: i in s.client.subs[t] ==> i in s.subs && s.subs[i].topic == t
  }

  /** The subscriptions teardown has still to close. */
  function ToClose(l: Loop): seq<SubId> {
    match l
    case SignallingDone(_, open) => open
    case ClosingPending(_, open) => open
    case ClosingSubs(open) => open
    case _ => []
  }

  function EventsEnd(s: State, b: Sub): nat {
    if b.until.Some? then b.until.value else |s.hist.events|
  }

  /** A removing call that has left the lock and will close i's channel next. */
  ghost predicate RemovedBy(s: State, i: SubId, c: CallId) {
    c in s.calls && s.calls[c].phase.Unlisted? && !s.calls[c].purpose.Refused? && s.calls[c].purpose.sub == i
  }

  ghost predicate HasCloser(s: State, i: SubId) {
    i in ToClose(s.loop) || exists c :: RemovedBy(s, i, c)
  }

  /** Listed and open, or unlisted and closed exactly once, or unlisted with its closing still to come. */
  ghost predicate SubOk(s: State, i: SubId)
    requires i in s.subs
  {
    var b := s.subs[i];
    && (Listed(s, i) <==> b.until.None?)
    && b.closes == (if b.once then 1 else 0)
    && (Listed(s, i) ==> !b.once)
    && (!Listed(s, i) && !b.once ==> HasCloser(s, i))
    && b.since <= EventsEnd(s, b) <= |s.hist.events|
  }

  ghost predicate CallOk(s: State, c: CallId)
    requires c in s.calls
  {
    var call := s.calls[c];
    if call.purpose.Refused? then call.phase.Finished? && call.phase.outcome.Failed?
    else
      && call.purpose.sub in s.subs
      && (call.phase.Unlisted? ==> !Listed(s, call.purpose.sub))
      && (call.phase.Finished? && NeedsRemoval(call.purpose, call.phase.outcome) ==> s.subs[call.purpose.sub].once)
  }

  predicate InFanOut(s: State, i: SubId) {
    s.loop.FanOut? && i in s.loop.rest
  }

  ghost predicate LoopSubsOk(s: State) {
    && (forall i :: i in ToClose(s.loop) ==> i in s.subs && !Listed(s, i))
    && (s.loop.ClosingSubs? ==> s.loop.open != [])
    && (s.loop.FanOut? ==>
      && s.loop.rest != [] && Distinct(s.loop.rest)
      && s.hist.events != [] && s.hist.events[|s.hist.events| - 1] == s.loop.event
      && forall i :: i in s.loop.rest ==> i in s.subs && FanOutOk(s, i))
  }

  /** A subscription still to be served was listed, on the topic, when the event in hand was read. */
  ghost predicate FanOutOk(s: State, i: SubId)
    requires i in s.subs && s.loop.FanOut?
  {
    s.subs[i].topic == s.loop.event.topic && s.subs[i].since < |s.hist.events| == EventsEnd(s, s.subs[i])
  }

  ghost predicate SubInv(s: State) {
    && ListsOk(s) && LoopSubsOk(s)
    && (forall c :: c in s.calls ==> CallOk(s, c))
    && (forall i :: i in s.subs ==> SubOk(s, i))
  }

  // ---------------------------------------------------------------- steps that do not touch the event side

  predicate SameForEvents(k: Loop, l: Loop) {
    ToClose(k) == ToClose(l) && (k == l || (!k.FanOut? && !l.FanOut?)) && (l.ClosingSubs? ==> l.open != [])
  }

  lemma RequestSideStep(s: State, t: State)
    requires SubInv(s)
    requires t.subs == s.subs && t.client.subs == s.client.subs && t.client.closed == s.client.closed
    requires t.hist.events == s.hist.events && SameForEvents(s.loop, t.loop)
    requires forall c :: c in t.calls ==> CallOk(t, c)
    requires forall i, c :: RemovedBy(s, i, c) ==> RemovedBy(t, i, c)
    ensures SubInv(t)
  {
    forall i | i in t.subs
      ensures SubOk(t, i)
    {
      assert SubOk(s, i);
    }
    forall x | x in t.client.subs
      ensures ListOk(t, x)
    {
      assert ListOk(s, x);
    }
  }

  /** One call moves to another phase, without beginning or ending a removal. */
  lemma CallMoves(s: State, t: State, c: CallId)
    requires SubInv(s) && c in t.calls && t == s.(calls := t.calls, client := t.client, hist := t.hist, loop := t.loop)
    requires t.client.subs == s.client.subs && t.client.closed == s.client.closed
    requires t.hist.events == s.hist.events && SameForEvents(s.loop, t.loop)
    requires forall d :: d in t.calls && d != c ==> d in s.calls && t.calls[d] == s.calls[d]
    requires forall d :: d in s.calls ==> d in t.calls
    requires c in s.calls ==> !s.calls[c].phase.Unlisted?
    requires !t.calls[c].phase.Unlisted? && CallOk(t, c)
    ensures SubInv(t)
  {
    forall d | d in t.calls
      ensures CallOk(t, d)
    {
      if d != c { assert CallOk(s, d); }
    }
    RequestSideStep(s, t);
  }

  // ---------------------------------------------------------------- registering and removing

  lemma RegisterLists(s: State, c: CallId, i: SubId, topic: Topic)
    requires SubInv(s) && !s.client.closed && c !in s.calls && i !in s.subs
    ensures var t := DoSubscribe(s, c, i, topic);
      ListsOk(t) && Listed(t, i) && forall j :: j in s.subs ==> j in t.subs && Listed(t, j) == Listed(s, j)
  {
    var t := DoSubscribe(s, c, i, topic);
    var old' := SubsOn(s.client, topic);
    if topic in s.client.subs { assert ListOk(s, topic); }
    assert i !in old';
    DistinctAppend(old', i);
    forall x | x in t.client.subs
      ensures ListOk(t, x)
    {
      if x != topic { assert ListOk(s, x); }
    }
  }

  lemma SubscribeStep(s: State, c: CallId, i: SubId, topic: Topic)
    requires SubInv(s) && c !in s.calls && i !in s.subs
    ensures SubInv(DoSubscribe(s, c, i, topic))
  {
    var t := DoSubscribe(s, c, i, topic);
    if s.client.closed {
      CallMoves(s, t, c);
    } else {
      RegisterLists(s, c, i, topic);
      assert !InFanOut(s, i);
      hide ListsOk, Listed;
      forall j | j in t.subs
        ensures SubOk(t, j)
      {
        if j != i {
          assert SubOk(s, j);
          assert forall d :: RemovedBy(s, j, d) ==> RemovedBy(t, j, d);
        }
      }
      forall d | d in t.calls
        ensures CallOk(t, d)
      {
        if d != c { assert CallOk(s, d); }
      }
    }
  }

  lemma {:induction false} RemoveFirstDistinct(l: seq<SubId>, i: SubId)
    requires Distinct(l)
    ensures Distinct(RemoveFirst(l, i))
    ensures forall j :: j in RemoveFirst(l, i) <==> j in l && j != i
  {
    if l != [] {
      RemoveFirstDistinct(l[1..], i);
      assert l == [l[0]] + l[1..];
      assert l[0] !in l[1..];
      if l[0] != i { DistinctCons(l[0], RemoveFirst(l[1..], i)); }
    }
  }

  lemma RemoveLists(s: State, c: CallId)
    requires SubInv(s) && c in s.calls && s.calls[c].phase.Returned? && !s.calls[c].purpose.Refused?
    requires s.calls[c].purpose.sub in s.subs
    ensures var t, i := DoRemoveSub(s, c), s.calls[c].purpose.sub;
      ListsOk(t) && !Listed(t, i) && forall j :: j in s.subs && j != i ==> j in t.subs && Listed(t, j) == Listed(s, j)
  {
    var t, i := DoRemoveSub(s, c), s.calls[c].purpose.sub;
    var topic := s.subs[i].topic;
    if topic in s.client.subs {
      assert ListOk(s, topic);
      RemoveFirstDistinct(s.client.subs[topic], i);
    }
    forall x | x in t.client.subs
      ensures ListOk(t, x)
    {
      assert ListOk(s, x);
    }
  }

  /** A removal leaves each subscription listed and open, closed, or with someone about to close it. */
  lemma RemoveSubAt(s: State, c: CallId, j: SubId)
    requires SubInv(s) && c in s.calls && s.calls[c].phase.Returned? && !s.calls[c].purpose.Refused?
    requires s.calls[c].purpose.sub in s.subs && j in s.subs
    ensures SubOk(DoRemoveSub(s, c), j)
    ensures EventsEnd(DoRemoveSub(s, c), DoRemoveSub(s, c).subs[j]) == EventsEnd(s, s.subs[j])
  {
    var t, i := DoRemoveSub(s, c), s.calls[c].purpose.sub;
    RemoveLists(s, c);
    assert SubOk(s, j);
    assert RemovedBy(t, i, c);
    hide SubInv, ListsOk, Listed;
    assert forall d :: RemovedBy(s, j, d) ==> RemovedBy(t, j, d);
  }

  lemma RemoveSubStep(s: State, c: CallId)
    requires SubInv(s) && c in s.calls && s.calls[c].phase.Returned? && !s.calls[c].purpose.Refused?
    requires s.calls[c].purpose.sub in s.subs
    ensures SubInv(DoRemoveSub(s, c))
  {
    var t := DoRemoveSub(s, c);
    RemoveLists(s, c);
    forall j | j in t.subs
      ensures SubOk(t, j) && EventsEnd(t, t.subs[j]) == EventsEnd(s, s.subs[j])
    {
      RemoveSubAt(s, c, j);
    }
    hide ListsOk, Listed, SubOk, EventsEnd;
    forall d | d in t.calls
      ensures CallOk(t, d)
    {
      assert CallOk(s, d);
    }
    assert LoopSubsOk(t);
  }

  /** A subscription's channel is closed; nothing else about it changes. */
  lemma CloseKeepsOthers(s: State, t: State, i: SubId)
    requires SubInv(s) && i in s.subs && !Listed(s, i)
    requires t.client == s.client && t.hist == s.hist && t.subs == s.subs[i := CloseOnce(s.subs[i])]
    requires forall j :: j in ToClose(s.loop) && j != i ==> j in ToClose(t.loop)
    requires forall j, c :: j != i && RemovedBy(s, j, c) ==> RemovedBy(t, j, c)
    requires forall j :: InFanOut(t, j) <==> InFanOut(s, j)
    requires s.loop.FanOut? ==> t.loop == s.loop
    ensures ListsOk(t)
    ensures forall j :: j in t.subs ==> SubOk(t, j)
  {
    forall x | x in t.client.subs
      ensures ListOk(t, x)
    {
      assert ListOk(s, x);
    }
    forall j | j in t.subs
      ensures SubOk(t, j)
    {
      assert SubOk(s, j);
      assert Listed(t, j) == Listed(s, j);
      assert EventsEnd(t, t.subs[j]) == EventsEnd(s, s.subs[j]);
      hide ListsOk, Listed;
    }
  }

  lemma CloseEventsStep(s: State, c: CallId)
    requires SubInv(s) && c in s.calls && s.calls[c].phase.Unlisted? && !s.calls[c].purpose.Refused?
    requires s.calls[c].purpose.sub in s.subs
    ensures SubInv(DoCloseEvents(s, c))
  {
    var t, i := DoCloseEvents(s, c), s.calls[c].purpose.sub;
    assert CallOk(s, c);
    CloseKeepsOthers(s, t, i);
    hide SubOk, ListsOk;
    forall d | d in t.calls
      ensures CallOk(t, d)
    {
      assert CallOk(s, d);
    }
  }

  lemma CloseSubStep(s: State)
    requires SubInv(s) && s.loop.ClosingSubs? && s.loop.open != [] && s.loop.open[0] in s.subs
    ensures SubInv(DoCloseSub(s))
  {
    var t, i := DoCloseSub(s), s.loop.open[0];
    assert i in ToClose(s.loop);
    CloseKeepsOthers(s, t, i);
    hide SubOk, ListsOk;
    forall d | d in t.calls
      ensures CallOk(t, d)
    {
      assert CallOk(s, d);
    }
  }

  // ---------------------------------------------------------------- events

  lemma ConsumeStep(s: State, i: SubId)
    requires SubInv(s) && i in s.subs && s.subs[i].buffer != []
    ensures SubInv(DoConsume(s, i))
  {
    SubChanges(s, DoConsume(s, i), i);
  }

  /** One subscription's queue moves; its registration does not. */
  lemma SubChanges(s: State, t: State, i: SubId)
    requires SubInv(s) && i in s.subs && i in t.subs
    requires t == s.(subs := s.subs[i := t.subs[i]])
    requires t.subs[i]
      == s.subs[i].(buffer := t.subs[i].buffer, consumed := t.subs[i].consumed, dropped := t.subs[i].dropped)
    ensures SubInv(t)
  {
    forall j | j in t.subs
      ensures SubOk(t, j) && Listed(t, j) == Listed(s, j)
    {
      assert SubOk(s, j);
      assert forall c :: RemovedBy(s, j, c) ==> RemovedBy(t, j, c);
    }
    forall x | x in t.client.subs
      ensures ListOk(t, x)
    {
      assert ListOk(s, x);
    }
    forall d | d in t.calls
      ensures CallOk(t, d)
    {
      assert CallOk(s, d);
    }
  }

  lemma ReadEventStep(s: State, ev: Event)
    requires SubInv(s) && s.loop.Reading?
    ensures SubInv(DoReadEvent(s, ev))
  {
    var t := DoReadEvent(s, ev);
    forall x | x in t.client.subs
      ensures ListOk(t, x)
    {
      assert ListOk(s, x);
    }
    forall i | i in t.subs
      ensures SubOk(t, i) && Listed(t, i) == Listed(s, i)
    {
      assert SubOk(s, i);
      assert forall c :: RemovedBy(s, i, c) ==> RemovedBy(t, i, c);
    }
    forall d | d in t.calls
      ensures CallOk(t, d)
    {
      assert CallOk(s, d);
    }
    if ev.topic in s.client.subs { assert ListOk(s, ev.topic); }
  }

  lemma FanOutMoves(s: State, t: State)
    requires SubInv(s) && s.loop.FanOut? && t == s.(loop := FanNext(s.loop.event, s.loop.rest[1..]))
    ensures SubInv(t)
  {
    assert forall i :: i in s.loop.rest[1..] ==> i in s.loop.rest;
    assert Distinct(s.loop.rest[1..]);
    forall i | i in t.subs
      ensures SubOk(t, i)
    {
      assert SubOk(s, i);
      assert forall c :: RemovedBy(s, i, c) ==> RemovedBy(t, i, c);
    }
    forall x | x in t.client.subs
      ensures ListOk(t, x)
    {
      assert ListOk(s, x);
    }
    forall d | d in t.calls
      ensures CallOk(t, d)
    {
      assert CallOk(s, d);
    }
  }

  lemma SendEventStep(s: State)
    requires SubInv(s) && s.loop.FanOut? && s.loop.rest[0] in s.subs
    ensures SubInv(DoSendEvent(s))
  {
    var t, i := DoSendEvent(s), s.loop.rest[0];
    if s.subs[i].closes > 0 {
      forall d | d in t.calls
        ensures CallOk(t, d)
      {
        assert CallOk(s, d);
      }
      RequestSideStep(s, t);
    } else {
      var u := s.(subs := t.subs);
      SubChanges(s, u, i);
      FanOutMoves(u, t);
    }
  }

  // ---------------------------------------------------------------- teardown

  lemma {:induction false} ConcatMembers(subs: map<Topic, seq<SubId>>, order: seq<Topic>, i: SubId)
    requires forall t :: t in order ==> t in subs
    ensures i in Concat(subs, order) <==> exists t :: t in order && i in subs[t]
  {
    if order != [] {
      ConcatMembers(subs, order[1..], i);
      assert forall t :: t in order <==> t == order[0] || t in order[1..];
    }
  }

  /** Teardown hands every listed subscription, and only those, to the closing loop. */
  lemma ReadErrorAt(s: State, err: string, order: seq<Topic>, i: SubId)
    requires SubInv(s) && s.loop.Reading? && i in s.subs
    requires forall x :: x in order <==> x in s.client.subs
    ensures var t := DoReadError(s, err, order);
      && i in t.subs && !Listed(t, i) && SubOk(t, i)
  {
    var t := DoReadError(s, err, order);
    assert SubOk(s, i);
    ConcatMembers(s.client.subs, order, i);
    assert Listed(s, i) ==> i in ToClose(t.loop);
    assert forall c :: RemovedBy(s, i, c) ==> RemovedBy(t, i, c);
    assert EventsEnd(t, t.subs[i]) == EventsEnd(s, s.subs[i]);
  }

  lemma ReadErrorStep(s: State, err: string, order: seq<Topic>)
    requires SubInv(s) && s.loop.Reading?
    requires forall x :: x in order <==> x in s.client.subs
    ensures SubInv(DoReadError(s, err, order))
  {
    var t := DoReadError(s, err, order);
    forall i | i in t.subs { ReadErrorAt(s, err, order, i); }
    hide SubOk;
    forall i | i in ToClose(t.loop)
      ensures i in t.subs && !Listed(t, i)
    {
      ConcatMembers(s.client.subs, order, i);
      var x :| x in order && i in s.client.subs[x];
      assert ListOk(s, x);
    }
    forall d | d in t.calls
      ensures CallOk(t, d)
    {
      assert CallOk(s, d);
    }
  }

  // ---------------------------------------------------------------- every step

  /** A call's own progress: it is still for the same subscription, and it is not in the middle of a removal. */
  lemma PhaseMoves(s: State, t: State, c: CallId)
    requires SubInv(s) && c in s.calls && c in t.calls && !s.calls[c].purpose.Refused?
    requires t == s.(calls := s.calls[c := t.calls[c]], client := t.client, hist := t.hist, loop := t.loop)
    requires t.calls[c].purpose == s.calls[c].purpose
    requires t.client.subs == s.client.subs && t.client.closed == s.client.closed
    requires t.hist.events == s.hist.events && SameForEvents(s.loop, t.loop)
    requires !s.calls[c].phase.Unlisted? && !t.calls[c].phase.Unlisted?
    requires t.calls[c].phase.Finished? ==> !NeedsRemoval(t.calls[c].purpose, t.calls[c].phase.outcome)
    ensures SubInv(t)
  {
    assert CallOk(s, c);
    CallMoves(s, t, c);
  }

  lemma CallStepKeeps(s: State, e: Step)
    requires SubInv(s) && Enabled(s, e)
    requires e.Enqueue? || e.Write? || e.WriteError? || e.TakeResponse? || e.Cancel? || e.TakeDone? || e.Finish?
    ensures SubInv(Apply(s, e))
  {
    assert CallOk(s, e.c);
    hide SubInv;
    PhaseMoves(s, Apply(s, e), e.c);
  }

  /** Only a response channel, or the loop's place among them, changes. */
  lemma ChannelStep(s: State, t: State)
    requires SubInv(s)
    requires t.subs == s.subs && t.client.subs == s.client.subs && t.client.closed == s.client.closed
    requires t.hist.events == s.hist.events && SameForEvents(s.loop, t.loop)
    requires t.calls.Keys == s.calls.Keys
    requires forall c :: c in s.calls ==> t.calls[c] == s.calls[c].(chan := t.calls[c].chan)
    ensures SubInv(t)
  {
    forall c | c in t.calls
      ensures CallOk(t, c)
    {
      assert CallOk(s, c);
    }
    RequestSideStep(s, t);
  }

  lemma UnsubscribeStep(s: State, c: CallId, via: CallId)
    requires SubInv(s) && c !in s.calls && HandedOut(s, via)
    ensures SubInv(DoUnsubscribe(s, c, via))
  {
    assert CallOk(s, via);
    CallMoves(s, DoUnsubscribe(s, c, via), c);
  }

  lemma AnswerStepKeeps(s: State, e: Step)
    requires SubInv(s) && Enabled(s, e) && (e.ReadResponse? || e.SendResponse?)
    ensures SubInv(Apply(s, e))
  {
    hide SubInv;
    ChannelStep(s, Apply(s, e));
  }

  lemma TeardownStepKeeps(s: State, e: Step)
    requires SubInv(s) && Enabled(s, e) && (e.SignalDone? || e.CloseResponse?)
    ensures SubInv(Apply(s, e))
  {
    hide SubInv;
    ChannelStep(s, Apply(s, e));
  }

  lemma StepKeepsSubInv(s: State, e: Step)
    requires SubInv(s) && Enabled(s, e)
    ensures SubInv(Apply(s, e))
  {
    hide SubInv;
    match e
    case Subscribe(c, i, topic) => SubscribeStep(s, c, i, topic);
    case Unsubscribe(c, via) => UnsubscribeStep(s, c, via);
    case RemoveSub(c) => RemoveSubStep(s, c);
    case CloseEvents(c) => CloseEventsStep(s, c);
    case Consume(i) => ConsumeStep(s, i);
    case ReadEvent(ev) => ReadEventStep(s, ev);
    case SendEvent => SendEventStep(s);
    case ReadResponse(_) => AnswerStepKeeps(s, e);
    case SendResponse => AnswerStepKeeps(s, e);
    case ReadOther =>
    case ReadError(err, order) =>
      IteratedTopics(order, s.client.subs);
      ReadErrorStep(s, err, order);
    case SignalDone => TeardownStepKeeps(s, e);
    case CloseResponse => TeardownStepKeeps(s, e);
    case CloseSub => CloseSubStep(s);
    case _ => CallStepKeeps(s, e);
  }
}
