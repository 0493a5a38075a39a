/** websocket.go's mutable objects.  Each method is one section of the source that the state machine takes as a single
    step: from any state whose fields it starts in, it leaves them as the machine's step does. */
module WebSocketClient {
  import opened Bytes
  import opened Keys
  import opened WebSocket

  /** The fields of WSClient guarded by mu; channels are known by the ids of their owners. */
  class WSClient {
    var pending: seq<CallId>
    var subs: map<Topic, seq<SubId>>
    var closed: bool
    var readErr: Option<string>

    ghost function View(): Client
      reads this
    {
      Client(pending, subs, closed, readErr)
    }

    constructor ()
      ensures View() == INITIAL.client
    {
      pending, subs, closed, readErr := [], map[], false, None;
    }

    /** Subscribe's locked section. */
    method RegisterSub(topic: Topic, i: SubId) returns (refused: bool)
      modifies this`subs
      ensures refused == old(closed)
      ensures View() == if refused then old(View()) else Register(old(View()), topic, i)
      ensures forall s: State, c: CallId :: s.client == old(View()) && Enabled(s, Step.Subscribe(c, i, topic)) ==>
        var t := Apply(s, Step.Subscribe(c, i, topic));
        t.client == View() && (refused <==> t.calls[c].purpose.Refused?)
    {
      if closed {
        return true;
      }
      subs := subs[topic := (if topic in subs then subs[topic] else []) + [i]];
      return false;
    }

    /** roundTrip's locked section. */
    method EnqueueCall(c: CallId) returns (refused: bool)
      modifies this`pending
      ensures refused == old(closed)
      ensures View() == if refused then old(View()) else old(View()).(pending := old(pending) + [c])
      ensures forall s: State :: s.client == old(View()) && Enabled(s, Enqueue(c)) ==>
        var t := Apply(s, Enqueue(c));
        t.client == View() && (refused <==> t.calls[c].phase == Returned(Failed(ConnClosed(readErr))))
    {
      if closed {
        return true;
      }
      pending := pending + [c];
      return false;
    }

    /** removeSubscription's locked section: the first occurrence goes, the others keep their order. */
    method RemoveSubscription(topic: Topic, i: SubId)
      modifies this`subs
      ensures View() == Unlist(old(View()), topic, i)
      ensures forall s: State, c: CallId ::
        s.client == old(View()) && Enabled(s, RemoveSub(c)) && s.calls[c].purpose.sub == i && s.subs[i].topic == topic
        ==> Apply(s, RemoveSub(c)).client == View()
    {
      var list := if topic in subs then subs[topic] else [];
      for k := 0 to |list|
        invariant i !in list[..k]
        invariant View() == old(View())
      {
        if list[k] == i {
          RemoveFirstAt(list, i, k);
          subs := subs[topic := list[..k] + list[k + 1..]];
          return;
        }
      }
    }

    /** The copy the read loop takes of a topic's list. */
    method Snapshot(topic: Topic) returns (list: seq<SubId>)
      ensures list == SubsOn(View(), topic)
      ensures forall s: State, ev: Event :: s.client == View() && ev.topic == topic && Enabled(s, ReadEvent(ev)) ==>
        var t := Apply(s, ReadEvent(ev));
        t.client == View() && t.loop == FanNext(ev, list)
    {
      list := if topic in subs then subs[topic] else [];
    }

    /** The read loop takes the oldest pending channel, if any. */
    method TakePending() returns (c: Option<CallId>)
      modifies this`pending
      ensures c.None? <==> old(pending) == []
      ensures c.Some? ==> old(pending) == [c.value] + pending
      ensures View() == old(View()).(pending := pending) && (c.None? ==> pending == [])
      ensures forall s: State, r: Response :: s.client == old(View()) && Enabled(s, ReadResponse(r)) ==>
        var t := Apply(s, ReadResponse(r));
        t.client == View() && t.loop == if c.Some? then Delivering(c.value, r) else Reading
    {
      if |pending| > 0 {
        c := Some(pending[0]);
        pending := pending[1..];
      } else {
        c := None;
      }
    }

    /** Teardown's locked section: everything pending and every listed subscription is handed over, whatever order the
        map is iterated in, and the client is left closed and empty. */
    method TearDown(err: string) returns (pend: seq<CallId>, open: seq<SubId>, ghost order: seq<Topic>)
      modifies this
      ensures View() == TornDown(err)
      ensures pend == old(pending)
      ensures Iterates(order, old(subs)) && forall t :: t in order ==> t in old(subs)
      ensures open == Concat(old(subs), order)
      ensures forall s: State :: s.client == old(View()) && Enabled(s, ReadError(err, order)) ==>
        var t := Apply(s, ReadError(err, order));
        t.client == View() && t.loop == SignallingDone(pend, open)
    {
      closed := true;
      readErr := Some(err);
      pend := pending;
      pending := [];
      open, order := [], [];
      var left := subs.Keys;
      while left != {}
        invariant left <= subs.Keys && subs == old(subs)
        invariant closed && readErr == Some(err) && pending == []
        invariant Distinct(order) && Elements(order) == subs.Keys - left
        invariant (forall t :: t in order ==> t in subs) && open == Concat(subs, order)
        decreases left
      {
        var t :| t in left;
        assert t !in Elements(order);
        ConcatAppend(subs, order, t);
        DistinctAppend(order, t);
        ElementsConcat(order, [t]);
        open := open + subs[t];
        order := order + [t];
        left := left - {t};
      }
      subs := map[];
    }
  }

  /** A Subscription's events channel and the sync.Once guarding its close; what was consumed and dropped is history. */
  class Subscription {
    const topic: Topic
    var buffer: seq<Event>
    var once: bool
    var closes: nat
    ghost var consumed: seq<Event>
    ghost var dropped: nat
    ghost const since: nat
    ghost var until: Option<nat>

    ghost function View(): Sub
      reads this
    {
      Sub(topic, buffer, once, closes, consumed, dropped, since, until)
    }

    constructor (topic: Topic, ghost since: nat)
      ensures View() == Sub(topic, [], false, 0, [], 0, since, None)
      ensures forall s: State, c: CallId, i: SubId ::
        Enabled(s, Step.Subscribe(c, i, topic)) && !s.client.closed && |s.hist.events| == since ==>
        var t := Apply(s, Step.Subscribe(c, i, topic)); i in t.subs && t.subs[i] == View()
    {
      this.topic, this.since := topic, since;
      buffer, once, closes := [], false, 0;
      consumed, dropped, until := [], 0, None;
    }

    /** History: the subscription leaves its list, after so many events. */
    ghost method MarkUnlisted(at: nat)
      modifies this`until
      ensures View() == old(View()).(until := if old(until).None? then Some(at) else old(until))
    {
      if until.None? { until := Some(at); }
    }

    /** One arm of the fan-out's select; sending on a closed channel panics. */
    method Offer(ev: Event) returns (panicked: bool)
      modifies this`buffer, this`dropped
      ensures panicked <==> old(closes) > 0
      ensures View() == if panicked then old(View()) else TrySend(old(View()), ev)
      ensures forall s: State ::
        Enabled(s, SendEvent) && s.loop.event == ev && s.subs[s.loop.rest[0]] == old(View()) ==>
        var t := Apply(s, SendEvent);
        t.subs == s.subs[s.loop.rest[0] := View()] && t.panicked == panicked
    {
      if closes > 0 {
        return true;
      }
      if |buffer| < EVENT_BUFFER {
        buffer := buffer + [ev];
      } else {
        dropped := dropped + 1;
      }
      return false;
    }

    /** The channel is closed by the first to get here, and by no other. */
    method CloseEvents()
      modifies this`once, this`closes
      ensures View() == CloseOnce(old(View()))
      ensures forall s: State, c: CallId ::
        Enabled(s, Step.CloseEvents(c)) && s.subs[s.calls[c].purpose.sub] == old(View()) ==>
        Apply(s, Step.CloseEvents(c)).subs == s.subs[s.calls[c].purpose.sub := View()]
      ensures forall s: State :: Enabled(s, CloseSub) && s.subs[s.loop.open[0]] == old(View()) ==>
        Apply(s, CloseSub).subs == s.subs[s.loop.open[0] := View()]
    {
      if !once {
        once := true;
        closes := closes + 1;
      }
    }

    /** A receive from Events(): None once the channel is closed and drained. */
    method Receive() returns (ev: Option<Event>)
      requires buffer != [] || closes > 0
      modifies this`buffer, this`consumed
      ensures old(buffer) == [] ==> ev == None && View() == old(View())
      ensures old(buffer) != [] ==>
        && ev == Some(old(buffer)[0])
        && View() == old(View()).(buffer := old(buffer)[1..], consumed := old(consumed) + [old(buffer)[0]])
      ensures forall s: State, i: SubId :: Enabled(s, Consume(i)) && s.subs[i] == old(View()) ==>
        Apply(s, Consume(i)).subs == s.subs[i := View()]
    {
      if buffer == [] {
        return None;
      }
      ev := Some(buffer[0]);
      consumed := consumed + [buffer[0]];
      buffer := buffer[1..];
    }
  }

  lemma {:induction false} RemoveFirstAt(l: seq<SubId>, i: SubId, k: nat)
    requires k < |l| && l[k] == i && i !in l[..k]
    ensures RemoveFirst(l, i) == l[..k] + l[k + 1..]
  {
    if k > 0 {
      assert l[..k][0] == l[0];
      assert l[1..][..k - 1] == l[..k][1..];
      RemoveFirstAt(l[1..], i, k - 1);
      assert l[..k] == [l[0]] + l[1..][..k - 1];
      assert l[1..][k..] == l[k + 1..];
    }
  }

  lemma {:induction false} ConcatAppend(subs: map<Topic, seq<SubId>>, order: seq<Topic>, t: Topic)
    requires (forall x :: x in order ==> x in subs) && t in subs
    ensures forall x :: x in order + [t] ==> x in subs
    ensures Concat(subs, order + [t]) == Concat(subs, order) + subs[t]
  {
    if order == [] {
      assert ([] + [t])[1..] == [];
      assert Concat(subs, []) == [];
      assert order + [t] == [t];
    } else {
      ConcatAppend(subs, order[1..], t);
      assert (order + [t])[1..] == order[1..] + [t];
    }
  }
}
