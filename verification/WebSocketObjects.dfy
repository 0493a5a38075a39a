/** The client and its subscription objects together: longer stretches of websocket.go, made of the sections of
    WebSocketClient, keep the objects equal to the state the machine's steps lead to. */
module WebSocketObjects {
  import opened Bytes
  import opened WebSocket
  import opened WebSocketSubs
  import opened WebSocketClient

  /** The objects hold what the machine's state says. */
  ghost predicate Mirrors(s: State, client: WSClient, objs: map<SubId, Subscription>)
    reads client, objs.Values
  {
    s.client == client.View() && MirrorsSubs(s.subs, objs)
  }

  ghost predicate MirrorsSubs(subs: map<SubId, Sub>, objs: map<SubId, Subscription>)
    reads objs.Values
  {
    subs.Keys == objs.Keys && forall i :: i in objs ==> subs[i] == objs[i].View()
  }

  predicate Separate(objs: map<SubId, Subscription>) {
    forall i, j :: i in objs && j in objs && i != j ==> objs[i] != objs[j]
  }

  /** The steps, taken one after the other from s, are enabled and lead to t. */
  ghost predicate Leads(s: State, steps: seq<Step>, t: State) {
    if steps == [] then t == s
    else
      var n := |steps| - 1;
      exists u :: Leads(s, steps[..n], u) && Enabled(u, steps[n]) && t == Apply(u, steps[n])
  }

  lemma LeadsOn(s: State, steps: seq<Step>, u: State, e: Step)
    requires Leads(s, steps, u) && Enabled(u, e)
    ensures Leads(s, steps + [e], Apply(u, e))
  {
    hide Apply, Enabled;
    assert (steps + [e])[..|steps|] == steps;
  }

  // ---------------------------------------------------------------- removeSubscription

  /** A subscription other than i is untouched by i's removal. */
  lemma RemovalEffect(s: State, c: CallId)
    requires Enabled(s, RemoveSub(c))
    ensures var i := s.calls[c].purpose.sub; var t := Apply(s, RemoveSub(c));
      && t.subs.Keys == s.subs.Keys && Enabled(t, Step.CloseEvents(c)) && t.calls[c].purpose.sub == i
      && t.subs[i] == s.subs[i].(
        until := if s.subs[i].until.None? then Some(|s.hist.events|) else s.subs[i].until)
      && forall j :: j in s.subs && j != i ==> t.subs[j] == s.subs[j]
  {
  }

  method UnlistSection(client: WSClient, objs: map<SubId, Subscription>, i: SubId, ghost s: State, ghost c: CallId)
    requires i in objs && Mirrors(s, client, objs) && Separate(objs)
    requires Enabled(s, RemoveSub(c)) && s.calls[c].purpose.sub == i
    modifies client, objs[i]
    ensures Mirrors(Apply(s, RemoveSub(c)), client, objs)
  {
    RemovalEffect(s, c);
    ghost var t := Apply(s, RemoveSub(c));
    hide Enabled, Apply, Unlist;
    assert objs[i].topic == s.subs[i].topic;
    MarkOne(objs, i, s.subs, t.subs, |s.hist.events|);
    hide MirrorsSubs;
    client.RemoveSubscription(objs[i].topic, i);
  }

  ghost method MarkOne(
    objs: map<SubId, Subscription>, i: SubId, before: map<SubId, Sub>, after: map<SubId, Sub>, at: nat)
    requires i in objs && MirrorsSubs(before, objs) && Separate(objs) && after.Keys == before.Keys
    requires after[i] == before[i].(until := if before[i].until.None? then Some(at) else before[i].until)
    requires forall j :: j in before && j != i ==> after[j] == before[j]
    modifies objs[i]
    ensures MirrorsSubs(after, objs)
  {
    objs[i].MarkUnlisted(at);
  }

  lemma CloseEffect(s: State, c: CallId)
    requires Enabled(s, Step.CloseEvents(c))
    ensures Apply(s, Step.CloseEvents(c)).client == s.client
  {
  }

  method CloseSection(client: WSClient, objs: map<SubId, Subscription>, i: SubId, ghost s: State, ghost c: CallId)
    requires i in objs && Mirrors(s, client, objs) && Separate(objs)
    requires Enabled(s, Step.CloseEvents(c)) && s.calls[c].purpose.sub == i
    modifies objs[i]
    ensures Mirrors(Apply(s, Step.CloseEvents(c)), client, objs)
  {
    CloseEffect(s, c);
    objs[i].CloseEvents();
    hide Enabled, Apply;
  }

  /** removeSubscription: the locked section and the close after it are the machine's two steps. */
  method RemoveAndClose(client: WSClient, objs: map<SubId, Subscription>, i: SubId, ghost s: State, ghost c: CallId)
    returns (ghost t: State)
    requires i in objs && Mirrors(s, client, objs) && Separate(objs)
    requires Enabled(s, RemoveSub(c)) && s.calls[c].purpose.sub == i
    modifies client, objs[i]
    ensures Leads(s, [] + [RemoveSub(c)] + [Step.CloseEvents(c)], t)
    ensures Mirrors(t, client, objs)
  {
    RemovalEffect(s, c);
    LeadsOn(s, [], s, RemoveSub(c));
    hide Apply, Leads, Mirrors, Enabled;
    UnlistSection(client, objs, i, s, c);
    ghost var u := Apply(s, RemoveSub(c));
    CloseSection(client, objs, i, u, c);
    t := Apply(u, Step.CloseEvents(c));
    LeadsOn(s, [] + [RemoveSub(c)], u, Step.CloseEvents(c));
  }

  // ---------------------------------------------------------------- the fan-out

  /** Every subscription of a snapshot exists and is open. */
  lemma SnapshotIsOpen(s: State, ev: Event)
    requires SubInv(s)
    ensures forall i :: i in SubsOn(s.client, ev.topic) ==> i in s.subs && s.subs[i].closes == 0
  {
    if ev.topic in s.client.subs { assert ListOk(s, ev.topic); }
    forall i | i in SubsOn(s.client, ev.topic)
      ensures i in s.subs && s.subs[i].closes == 0
    {
      assert Listed(s, i) && SubOk(s, i);
    }
  }

  lemma ReadEffect(s: State, ev: Event)
    requires Enabled(s, ReadEvent(ev))
    ensures var t := Apply(s, ReadEvent(ev));
      t.client == s.client && t.subs == s.subs && !t.panicked && t.loop == FanNext(ev, SubsOn(s.client, ev.topic))
  {
  }

  ghost predicate SameClosing(s: State, t: State) {
    t.subs.Keys == s.subs.Keys && forall i :: i in s.subs ==> t.subs[i].closes == s.subs[i].closes
  }

  lemma SendEffect(s: State)
    requires Enabled(s, SendEvent)
    ensures var t := Apply(s, SendEvent);
      && t.client == s.client && (!t.panicked ==> t.loop == FanNext(s.loop.event, s.loop.rest[1..]))
      && t.panicked == (s.subs[s.loop.rest[0]].closes > 0)
      && SameClosing(s, t)
  {
  }

  lemma SendEnabled(s: State, ev: Event, rest: seq<SubId>)
    requires !s.panicked && s.loop == FanNext(ev, rest) && rest != [] && rest[0] in s.subs
    ensures Enabled(s, SendEvent) && s.loop.rest == rest && s.loop.event == ev
  {
  }

  method SendSection(client: WSClient, objs: map<SubId, Subscription>, i: SubId, ghost s: State, ev: Event)
    returns (panicked: bool)
    requires i in objs && Mirrors(s, client, objs) && Separate(objs)
    requires Enabled(s, SendEvent) && s.loop.rest[0] == i && s.loop.event == ev
    modifies objs[i]
    ensures Mirrors(Apply(s, SendEvent), client, objs) && panicked == Apply(s, SendEvent).panicked
  {
    SendEffect(s);
    panicked := objs[i].Offer(ev);
    hide Enabled, Apply;
  }

  ghost predicate OnlySends(steps: seq<Step>) {
    forall e :: e in steps ==> e == SendEvent
  }

  /** The machine has sent to the first k subscriptions of the list, all of them open. */
  ghost predicate Sent(s: State, steps: seq<Step>, t: State, ev: Event, list: seq<SubId>, k: nat) {
    && k <= |list| && Leads(s, steps, t) && OnlySends(steps)
    && !t.panicked && t.loop == FanNext(ev, list[k..]) && SameClosing(s, t)
    && (forall i :: i in list ==> i in s.subs)
    && forall j :: 0 <= j < k ==> s.subs[list[j]].closes == 0
  }

  lemma SendTurn(s: State, steps: seq<Step>, t: State, ev: Event, list: seq<SubId>, k: nat)
    requires Sent(s, steps, t, ev, list, k) && k < |list|
    ensures Enabled(t, SendEvent) && t.loop.rest[0] == list[k] && t.loop.event == ev
  {
    hide Leads, Enabled, OnlySends, SameClosing;
    assert list[k] in list && list[k..][0] == list[k];
    SameClosingAt(s, t, list[k]);
    SendEnabled(t, ev, list[k..]);
  }

  lemma SameClosingSince(s: State, t: State, u: State)
    requires SameClosing(s, t) && SameClosing(t, u)
    ensures SameClosing(s, u)
  {
  }

  lemma SameClosingAt(s: State, t: State, i: SubId)
    requires SameClosing(s, t) && i in s.subs
    ensures i in t.subs && t.subs[i].closes == s.subs[i].closes
  {
  }

  lemma OneMoreSend(steps: seq<Step>)
    requires OnlySends(steps)
    ensures OnlySends(steps + [SendEvent])
  {
  }

  lemma SentOneMore(s: State, steps: seq<Step>, t: State, ev: Event, list: seq<SubId>, k: nat)
    requires Sent(s, steps, t, ev, list, k) && k < |list|
    requires Enabled(t, SendEvent) && t.loop.rest[0] == list[k]
    ensures var u := Apply(t, SendEvent);
      && Leads(s, steps + [SendEvent], u) && OnlySends(steps + [SendEvent])
      && (if u.panicked then list[k] in s.subs && s.subs[list[k]].closes > 0
          else Sent(s, steps + [SendEvent], u, ev, list, k + 1))
  {
    hide Apply, Enabled, Leads, OnlySends, SameClosing;
    assert list[k] in list && list[k..][0] == list[k] && list[k..][1..] == list[k + 1..];
    SameClosingAt(s, t, list[k]);
    LeadsOn(s, steps, t, SendEvent);
    OneMoreSend(steps);
    SendEnabled(t, ev, list[k..]);
    SendEffect(t);
    SameClosingSince(s, t, Apply(t, SendEvent));
  }

  /** The sends of the fan-out, one to each subscription of the snapshot in turn, up to the first closed one. */
  method SendAll(client: WSClient, objs: map<SubId, Subscription>, list: seq<SubId>, ev: Event, ghost s: State)
    returns (panicked: bool, ghost steps: seq<Step>, ghost t: State)
    requires Mirrors(s, client, objs) && Separate(objs) && !s.panicked && s.loop == FanNext(ev, list)
    requires forall i :: i in list ==> i in objs
    modifies objs.Values
    ensures Leads(s, steps, t) && OnlySends(steps) && Mirrors(t, client, objs)
    ensures panicked == t.panicked && (!panicked ==> t.loop == Reading)
    ensures panicked <==> exists i :: i in list && s.subs[i].closes > 0
  {
    hide Apply, Enabled;
    steps, t, panicked := [], s, false;
    assert list[0..] == list;
    assert Sent(s, steps, t, ev, list, 0);
    hide Leads, Mirrors, Sent, Separate, OnlySends;
    for k := 0 to |list|
      invariant !panicked && Sent(s, steps, t, ev, list, k) && Mirrors(t, client, objs)
    {
      SendTurn(s, steps, t, ev, list, k);
      SentOneMore(s, steps, t, ev, list, k);
      panicked := SendSection(client, objs, list[k], t, ev);
      steps, t := steps + [SendEvent], Apply(t, SendEvent);
      if panicked {
        assert list[k] in list;
        return;
      }
    }
    AllSent(s, steps, t, ev, list);
  }

  lemma AllSent(s: State, steps: seq<Step>, t: State, ev: Event, list: seq<SubId>)
    requires Sent(s, steps, t, ev, list, |list|)
    ensures Leads(s, steps, t) && OnlySends(steps) && !t.panicked && t.loop == Reading
    ensures forall i :: i in list ==> i in s.subs && s.subs[i].closes == 0
  {
    hide Leads;
  }

  lemma {:induction false} LeadsFrom(s: State, e: Step, steps: seq<Step>, t: State)
    requires Enabled(s, e) && Leads(Apply(s, e), steps, t)
    ensures Leads(s, [e] + steps, t)
    decreases |steps|
  {
    hide Apply, Enabled;
    if steps == [] {
      LeadsOn(s, [], s, e);
      assert [e] + steps == [] + [e];
    } else {
      var n := |steps| - 1;
      var u :| Leads(Apply(s, e), steps[..n], u) && Enabled(u, steps[n]) && t == Apply(u, steps[n]);
      hide Leads;
      LeadsFrom(s, e, steps[..n], u);
      LeadsOn(s, [e] + steps[..n], u, steps[n]);
      assert [e] + steps == [e] + steps[..n] + [steps[n]];
    }
  }

  /** The fan-out of one event: snapshot, then the sends.  Undisturbed, it is a read followed by sends of the machine,
      and it never panics. */
  method FanOutEvent(client: WSClient, objs: map<SubId, Subscription>, ev: Event, ghost s: State)
    returns (panicked: bool, ghost sends: seq<Step>, ghost t: State)
    requires Mirrors(s, client, objs) && Separate(objs) && SubInv(s) && Enabled(s, ReadEvent(ev))
    modifies objs.Values
    ensures Leads(s, [ReadEvent(ev)] + sends, t) && OnlySends(sends) && Mirrors(t, client, objs)
    ensures !panicked && !t.panicked && t.loop == Reading
  {
    SnapshotIsOpen(s, ev);
    ReadEffect(s, ev);
    hide SubInv, Leads, Apply, Enabled, OnlySends;
    var list := client.Snapshot(ev.topic);
    panicked, sends, t := SendAll(client, objs, list, ev, Apply(s, ReadEvent(ev)));
    LeadsFrom(s, ReadEvent(ev), sends, t);
  }
}
