/** What holds over every run of the WebSocket client, whatever the interleaving. */
module WebSocketTheorems {
  import opened Bytes
  import opened Keys
  import opened WebSocket
  import opened WebSocketRequests
  import opened WebSocketSubs
  import opened WebSocketEvents

  // ---------------------------------------------------------------- the invariant of all runs

  /** A subscribing call's subscription was registered before its response was read. */
  ghost predicate ConfirmedAfterRegistration(s: State) {
    |s.hist.answeredAt| == |s.hist.taken| &&
    forall k :: 0 <= k < |s.hist.taken| ==> ConfirmedAt(s, s.hist.taken[k], s.hist.answeredAt[k])
  }

  ghost predicate ConfirmedAt(s: State, c: CallId, at: nat) {
    && c in s.calls && at <= |s.hist.events|
    && (s.calls[c].purpose.Subscribing? ==>
      s.calls[c].purpose.sub in s.subs && s.subs[s.calls[c].purpose.sub].since <= at)
  }

  ghost predicate Inv(s: State) {
    RequestInv(s) && SubInv(s) && DeliveryInv(s) && ConfirmedAfterRegistration(s)
  }

  predicate OfCaller(e: Step) {
    || e.Subscribe? || e.Unsubscribe? || e.Enqueue? || e.Write? || e.WriteError? || e.TakeResponse? || e.Cancel?
    || e.TakeDone? || e.Finish? || e.RemoveSub? || e.CloseEvents?
  }

  /** A caller's step moves its own call on and no other; only consumers and the read loop move the others' channels. */
  lemma CallerMovesItsCall(s: State, e: Step, c: CallId)
    requires Enabled(s, e) && OfCaller(e) && c in s.calls
    ensures c in Apply(s, e).calls && Apply(s, e).calls[c].purpose == s.calls[c].purpose
    ensures c != e.c ==> Apply(s, e).calls[c] == s.calls[c]
  {
    hide NeedsRemoval;
  }

  lemma LoopMovesChannels(s: State, e: Step, c: CallId)
    requires Enabled(s, e) && !OfCaller(e) && c in s.calls
    ensures c in Apply(s, e).calls && Apply(s, e).calls[c] == s.calls[c].(chan := Apply(s, e).calls[c].chan)
  {
  }

  /** Calls keep their purpose. */
  lemma StepKeepsPurpose(s: State, e: Step, c: CallId)
    requires Enabled(s, e) && c in s.calls
    ensures c in Apply(s, e).calls && Apply(s, e).calls[c].purpose == s.calls[c].purpose
  {
    hide Enabled, Apply;
    if OfCaller(e) { CallerMovesItsCall(s, e, c); } else { LoopMovesChannels(s, e, c); }
  }

  /** Subscriptions keep their registration point, and events are only added. */
  lemma StepKeepsSince(s: State, e: Step, i: SubId)
    requires Enabled(s, e) && i in s.subs
    ensures i in Apply(s, e).subs && Apply(s, e).subs[i].since == s.subs[i].since
  {
  }

  lemma EventsGrow(s: State, e: Step)
    requires Enabled(s, e)
    ensures |s.hist.events| <= |Apply(s, e).hist.events|
  {
  }

  lemma TakenGrows(s: State, e: Step)
    requires Enabled(s, e)
    ensures var h, g := s.hist, Apply(s, e).hist;
      || (g.taken == h.taken && g.answeredAt == h.answeredAt)
      || (s.client.pending != []
          && g.taken == h.taken + [s.client.pending[0]] && g.answeredAt == h.answeredAt + [|h.events|])
  {
  }

  lemma PendingRegistered(s: State)
    requires RequestInv(s) && SubInv(s) && s.client.pending != []
    ensures ConfirmedAt(s, s.client.pending[0], |s.hist.events|)
  {
    var c := s.client.pending[0];
    assert LoopOk(s);
    TakenNotOwed(s, c);
    assert c in Owed(s);
    assert CallOk(s, c);
    if s.calls[c].purpose.Subscribing? { assert SubOk(s, s.calls[c].purpose.sub); }
  }

  lemma StepKeepsConfirmed(s: State, e: Step)
    requires RequestInv(s) && SubInv(s) && ConfirmedAfterRegistration(s) && Enabled(s, e)
    ensures ConfirmedAfterRegistration(Apply(s, e))
  {
    var t := Apply(s, e);
    hide RequestInv, SubInv, Apply, Enabled;
    TakenGrows(s, e);
    EventsGrow(s, e);
    if s.client.pending != [] { PendingRegistered(s); }
    forall k | 0 <= k < |t.hist.taken|
      ensures ConfirmedAt(t, t.hist.taken[k], t.hist.answeredAt[k])
    {
      var c := t.hist.taken[k];
      assert ConfirmedAt(s, c, t.hist.answeredAt[k]);
      StepKeepsPurpose(s, e, c);
      if s.calls[c].purpose.Subscribing? { StepKeepsSince(s, e, s.calls[c].purpose.sub); }
    }
  }

  lemma InitialHistory()
    ensures LoopOk(INITIAL) && HistoryOk(INITIAL) && WrittenOk(INITIAL)
  {
    assert Owed(INITIAL) == [];
    assert Distinct<CallId>([]);
  }

  lemma InitialCalls()
    ensures CallsOk(INITIAL)
  {
    assert INITIAL.calls == map[];
    hide PhaseOk, ChanOk;
  }

  lemma InitialValues()
    requires HistoryOk(INITIAL)
    ensures ValuesOk(INITIAL)
  {
    hide HistoryOk, ValueOk;
    assert INITIAL.hist.taken == [];
  }

  lemma InitialRequests()
    ensures RequestInv(INITIAL)
  {
    hide LoopOk, HistoryOk, WrittenOk, CallsOk, ValuesOk;
    InitialHistory();
    InitialCalls();
    InitialValues();
  }

  lemma InitialSubs()
    ensures SubInv(INITIAL)
  {
    var s := INITIAL;
    assert s.calls == map[] && s.subs == map[] && s.client.subs == map[] && ToClose(s.loop) == [];
    hide ListOk, CallOk, SubOk;
  }

  lemma InitialDelivery()
    ensures DeliveryInv(INITIAL) && ConfirmedAfterRegistration(INITIAL)
  {
    assert INITIAL.subs == map[];
    hide EventsOk, ConfirmedAt;
  }

  lemma InitiallyInv()
    ensures Inv(INITIAL)
  {
    hide RequestInv, SubInv, DeliveryInv, ConfirmedAfterRegistration;
    InitialRequests();
    InitialSubs();
    InitialDelivery();
  }

  lemma StepKeepsInv(s: State, e: Step)
    requires Inv(s) && Enabled(s, e)
    ensures Inv(Apply(s, e))
  {
    hide RequestInv, SubInv, DeliveryInv, ConfirmedAfterRegistration, Apply, Enabled;
    StepKeepsRequestInv(s, e);
    StepKeepsSubInv(s, e);
    StepKeepsDeliveryInv(s, e);
    StepKeepsConfirmed(s, e);
  }

  /** Every state of every run satisfies the invariant. */
  lemma {:induction false} RunInv(states: seq<State>, steps: seq<Step>, k: nat)
    requires IsRun(states, steps) && k <= |steps|
    ensures |states| == |steps| + 1 && Inv(states[k])
  {
    hide Inv, Apply, Enabled;
    if k == 0 {
      InitiallyInv();
    } else {
      RunInv(states, steps, k - 1);
      StepKeepsInv(states[k - 1], steps[k - 1]);
    }
  }

  lemma RunStep(states: seq<State>, steps: seq<Step>, k: nat)
    requires IsRun(states, steps) && k < |steps|
    ensures |states| == |steps| + 1 && Enabled(states[k], steps[k]) && states[k + 1] == Apply(states[k], steps[k])
  {
    hide Enabled, Apply;
  }

  lemma ReachableInv(s: State)
    requires Reachable(s)
    ensures Inv(s)
  {
    var states, steps :| IsRun(states, steps) && states[|steps|] == s;
    hide IsRun, Inv;
    RunInv(states, steps, |steps|);
  }

  // ---------------------------------------------------------------- response channels

  /** In every reachable state each response channel has left pending at most once, was sent at most one value and is
      never both sent to and closed; the read loop's send finds it open with room, and teardown's close finds it open.
      */
  lemma ResponseChannels(s: State)
    requires Reachable(s)
    ensures Distinct(s.hist.taken)
    ensures forall c :: c in s.calls ==> s.calls[c].chan.sends + s.calls[c].chan.closes <= 1
    ensures s.loop.Delivering? ==> s.loop.call in s.calls && s.calls[s.loop.call].chan == NEW_CHAN
    ensures s.loop.ClosingPending? ==>
      s.loop.pend != [] && s.loop.pend[0] in s.calls && s.calls[s.loop.pend[0]].chan == NEW_CHAN
  {
    hide Reachable, SubInv, DeliveryInv;
    ReachableInv(s);
    TakenInCalls(s);
    forall c | c in s.calls
      ensures s.calls[c].chan.sends + s.calls[c].chan.closes <= 1
    {
      assert ChanOk(s, c);
    }
    if s.loop.Delivering? { DeliveryIsFree(s); }
    if s.loop.ClosingPending? { CloseIsFirst(s); }
  }

  // ---------------------------------------------------------------- panics

  /** A subscription's events channel is closed while the read loop still has to send it the event in hand. */
  ghost predicate ClosedInFanOut(s: State, e: Step) {
    e.CloseEvents? && e.c in s.calls && !s.calls[e.c].purpose.Refused? && InFanOut(s, s.calls[e.c].purpose.sub)
  }

  ghost predicate Doomed(s: State) {
    s.loop.FanOut? && exists i :: i in s.loop.rest && i in s.subs && s.subs[i].closes > 0
  }

  lemma WhoPanics(s: State, e: Step)
    requires Enabled(s, e) && Apply(s, e).panicked
    ensures e.SendEvent? || e.SendResponse? || e.CloseResponse?
  {
  }

  lemma FreshNeverPanics(s: State, e: Step)
    requires Enabled(s, e) && (e.SendResponse? || e.CloseResponse?)
    requires e.SendResponse? ==> s.calls[s.loop.call].chan == NEW_CHAN
    requires e.CloseResponse? ==> s.calls[s.loop.pend[0]].chan == NEW_CHAN
    ensures !Apply(s, e).panicked
  {
  }

  lemma InvIncludesRequests(s: State)
    requires Inv(s)
    ensures RequestInv(s)
  {
    hide RequestInv, SubInv, DeliveryInv, ConfirmedAfterRegistration;
  }

  lemma RequestSideNeverPanics(s: State, e: Step)
    requires Inv(s) && Enabled(s, e) && (e.SendResponse? || e.CloseResponse?)
    ensures !Apply(s, e).panicked
  {
    InvIncludesRequests(s);
    hide Apply, Inv;
    if e.SendResponse? { DeliveryIsFree(s); } else { CloseIsFirst(s); }
    hide RequestInv;
    FreshNeverPanics(s, e);
  }

  /** Only a send of the fan-out can panic, and only on a channel already closed. */
  lemma PanicComesFromDoom(s: State, e: Step)
    requires Inv(s) && Enabled(s, e) && Apply(s, e).panicked
    ensures e.SendEvent? && Doomed(s)
  {
    hide Inv;
    WhoPanics(s, e);
    if !e.SendEvent? { RequestSideNeverPanics(s, e); }
  }

  lemma ListedIsOpen(s: State, t: Topic, i: SubId)
    requires SubInv(s) && i in SubsOn(s.client, t)
    ensures i in s.subs && s.subs[i].closes == 0
  {
    assert ListOk(s, t);
    assert Listed(s, i) && SubOk(s, i);
  }

  /** The fan-out in progress after a step that is not a read was in progress before it. */
  lemma FanOutWasThere(s: State, e: Step, i: SubId)
    requires Enabled(s, e) && !e.ReadEvent? && InFanOut(Apply(s, e), i)
    ensures InFanOut(s, i)
  {
    if e.SendEvent? { assert forall j :: j in s.loop.rest[1..] ==> j in s.loop.rest; }
  }

  /** Outside teardown only a removing call closes an events channel. */
  lemma WhoCloses(s: State, e: Step, i: SubId)
    requires Enabled(s, e) && i in s.subs && i in Apply(s, e).subs
    requires s.subs[i].closes == 0 && Apply(s, e).subs[i].closes > 0
    ensures
      || e.CloseSub?
      || (e.CloseEvents? && e.c in s.calls && !s.calls[e.c].purpose.Refused? && s.calls[e.c].purpose.sub == i)
  {
  }

  /** Doom begins only with a close during the fan-out. */
  lemma DoomBegins(s: State, e: Step)
    requires Inv(s) && Enabled(s, e) && !Doomed(s) && Doomed(Apply(s, e))
    ensures ClosedInFanOut(s, e)
  {
    hide Inv;
    var t := Apply(s, e);
    var i :| i in t.loop.rest && i in t.subs && t.subs[i].closes > 0;
    if e.ReadEvent? {
      OpenWhenRead(s, e.event, i);
    } else {
      hide Apply, Enabled;
      assert InFanOut(t, i);
      FanOutWasThere(s, e, i);
      ServedExist(s, i);
      WhoCloses(s, e, i);
      NoCloseSub(s, e);
    }
  }

  lemma OpenWhenRead(s: State, ev: Event, i: SubId)
    requires Inv(s) && s.loop.Reading? && InFanOut(DoReadEvent(s, ev), i)
    ensures i in s.subs && s.subs[i].closes == 0
  {
    ListedIsOpen(s, ev.topic, i);
  }

  lemma ServedExist(s: State, i: SubId)
    requires Inv(s) && InFanOut(s, i)
    ensures i in s.subs
  {
    assert LoopSubsOk(s);
  }

  lemma NoCloseSub(s: State, e: Step)
    requires Enabled(s, e) && s.loop.FanOut?
    ensures !e.CloseSub?
  {
  }

  lemma CloseDooms(s: State, e: Step)
    requires Inv(s) && Enabled(s, e) && ClosedInFanOut(s, e)
    ensures Doomed(Apply(s, e))
  {
    var i := s.calls[e.c].purpose.sub;
    assert SubOk(s, i);
    hide Inv;
    assert i in Apply(s, e).loop.rest && Apply(s, e).subs[i].closes > 0;
  }

  lemma StaysInFanOut(s: State, e: Step, i: SubId)
    requires Enabled(s, e) && InFanOut(s, i) && !Apply(s, e).panicked && (e.SendEvent? ==> s.loop.rest[0] != i)
    ensures InFanOut(Apply(s, e), i)
  {
    if e.SendEvent? {
      assert s.loop.rest == [s.loop.rest[0]] + s.loop.rest[1..];
      assert i in s.loop.rest[1..];
    }
  }

  lemma StaysShut(s: State, e: Step, i: SubId)
    requires Enabled(s, e) && i in s.subs && s.subs[i].closes > 0
    ensures i in Apply(s, e).subs && Apply(s, e).subs[i].closes > 0
    ensures e.SendEvent? && s.loop.rest[0] == i ==> Apply(s, e).panicked
  {
  }

  /** Doom lasts until it ends in the panic: the fan-out cannot be left alive. */
  lemma DoomLasts(s: State, e: Step)
    requires Enabled(s, e) && Doomed(s)
    ensures Apply(s, e).panicked || Doomed(Apply(s, e))
  {
    var i :| i in s.loop.rest && i in s.subs && s.subs[i].closes > 0;
    hide Apply, Enabled;
    StaysShut(s, e, i);
    if !Apply(s, e).panicked { StaysInFanOut(s, e, i); }
  }

  /** Over a run, the client has panicked or is bound to exactly when some close fell into a fan-out. */
  lemma {:induction false} DoomIff(states: seq<State>, steps: seq<Step>, n: nat)
    requires IsRun(states, steps) && n <= |steps|
    ensures |states| == |steps| + 1
    ensures (states[n].panicked || Doomed(states[n])) <==> exists k :: 0 <= k < n && ClosedInFanOut(states[k], steps[k])
  {
    hide Inv, ClosedInFanOut, Apply, Doomed, IsRun, Enabled;
    if n == 0 {
      StartsAlive(states, steps);
    } else {
      DoomIff(states, steps, n - 1);
      RunInv(states, steps, n - 1);
      RunStep(states, steps, n - 1);
      var s, e := states[n - 1], steps[n - 1];
      EnabledAlive(s, e);
      if Doomed(s) { DoomLasts(s, e); }
      if ClosedInFanOut(s, e) { CloseDooms(s, e); }
      if !Doomed(s) && states[n].panicked { PanicComesFromDoom(s, e); }
      if !Doomed(s) && Doomed(states[n]) { DoomBegins(s, e); }
    }
  }

  lemma StartsAlive(states: seq<State>, steps: seq<Step>)
    requires IsRun(states, steps)
    ensures |states| == |steps| + 1 && !states[0].panicked && !Doomed(states[0])
  {
  }

  lemma EnabledAlive(s: State, e: Step)
    requires Enabled(s, e)
    ensures !s.panicked
  {
  }

  /** A run that is not stopped in the middle of a fan-out has panicked exactly if a removal closed a subscription
      between the snapshot and the send of some event. */
  lemma PanicsIffClosedInFanOut(states: seq<State>, steps: seq<Step>)
    requires IsRun(states, steps)
    requires states[|steps|].panicked || !states[|steps|].loop.FanOut?
    ensures states[|steps|].panicked <==> exists k :: 0 <= k < |steps| && ClosedInFanOut(states[k], steps[k])
  {
    DoomIff(states, steps, |steps|);
  }

  // ---------------------------------------------------------------- subscriptions

  lemma OnlyReadErrorCloses(s: State, e: Step)
    requires Enabled(s, e) && !e.ReadError?
    ensures Apply(s, e).client.closed == s.client.closed && Apply(s, e).client.readErr == s.client.readErr
  {
  }

  lemma StaysClosed(s: State, e: Step)
    requires Inv(s) && Enabled(s, e) && s.client.closed
    ensures Apply(s, e).client.closed && Apply(s, e).client.readErr == s.client.readErr
  {
    assert LoopOk(s);
    hide Inv, Apply;
    assert !e.ReadError?;
    OnlyReadErrorCloses(s, e);
  }

  lemma NothingWhenClosed(s: State)
    requires Inv(s) && s.client.closed
    ensures s.client.pending == [] && s.client.subs == map[]
  {
    assert LoopOk(s) && ListsOk(s);
  }

  /** Closing is for good: from then on nothing is pending, nothing is listed, and the reported error stays as it is. */
  lemma {:induction false} ClosedForGood(states: seq<State>, steps: seq<Step>, j: nat, k: nat)
    requires IsRun(states, steps) && j <= k <= |steps| && states[j].client.closed
    ensures var c := states[k].client;
      c.closed && c.pending == [] && c.subs == map[] && c.readErr == states[j].client.readErr
    decreases k
  {
    hide Apply, Enabled, Inv, IsRun;
    RunInv(states, steps, k);
    if j < k {
      ClosedForGood(states, steps, j, k - 1);
      RunInv(states, steps, k - 1);
      RunStep(states, steps, k - 1);
      StaysClosed(states[k - 1], steps[k - 1]);
    }
    NothingWhenClosed(states[k]);
  }

  /** Every subscription ever registered is in its topic's list exactly once with an open channel, or off the list
      with its channel closed exactly once, or off the list with a removing call or teardown about to close it. */
  lemma SubscriptionLifecycle(s: State, i: SubId)
    requires Reachable(s) && i in s.subs
    ensures Distinct(SubsOn(s.client, s.subs[i].topic))
    ensures forall t :: t != s.subs[i].topic ==> i !in SubsOn(s.client, t)
    ensures
      if Listed(s, i) then s.subs[i].closes == 0
      else s.subs[i].closes == 1 || (s.subs[i].closes == 0 && HasCloser(s, i))
  {
    hide Reachable, RequestInv, DeliveryInv;
    ReachableInv(s);
    assert SubOk(s, i);
    forall t | t in s.client.subs
      ensures ListOk(s, t)
    {
    }
  }

  /** When the read loop has stopped and no removal is under way, every channel ever registered is closed. */
  lemma AllClosedAtTheEnd(s: State, i: SubId)
    requires Reachable(s) && i in s.subs && s.loop.Stopped?
    requires forall c :: c in s.calls ==> !s.calls[c].phase.Unlisted?
    ensures s.subs[i].closes == 1
  {
    hide Reachable, DeliveryInv;
    ReachableInv(s);
    assert LoopOk(s) && SubOk(s, i) && ListsOk(s);
    hide RequestInv, SubInv;
  }

  lemma FinishedOk(s: State, c: CallId)
    requires Inv(s) && c in s.calls && s.calls[c].phase.Finished? && !s.calls[c].purpose.Refused?
    ensures s.calls[c].purpose.sub in s.subs
    ensures NeedsRemoval(s.calls[c].purpose, s.calls[c].phase.outcome) ==>
      s.subs[s.calls[c].purpose.sub].closes == 1 && !Listed(s, s.calls[c].purpose.sub)
  {
    assert CallOk(s, c);
    assert SubOk(s, s.calls[c].purpose.sub);
  }

  /** When Unsubscribe returns, with or without an error, the subscription is off its list and its channel is closed; so
      it is when Subscribe returns an error after registering. */
  lemma ReturnsWithChannelClosed(s: State, c: CallId, i: SubId)
    requires Reachable(s) && c in s.calls && s.calls[c].phase.Finished?
    requires
      || s.calls[c].purpose == Unsubscribing(i)
      || (s.calls[c].purpose == Subscribing(i)
          && (s.calls[c].phase.outcome.Failed? || s.calls[c].phase.outcome.resp.status != "Subscribed"))
    ensures i in s.subs && s.subs[i].closes == 1 && !Listed(s, i)
  {
    hide Reachable, Inv;
    ReachableInv(s);
    FinishedOk(s, c);
  }

  // ---------------------------------------------------------------- nothing is removed without cause

  /** c has begun to remove i: an unsubscribe, or a subscribe that failed. */
  ghost predicate RemovalBegun(s: State, i: SubId, c: CallId) {
    && c in s.calls && !s.calls[c].purpose.Refused? && s.calls[c].purpose.sub == i
    && (s.calls[c].phase.Unlisted? || s.calls[c].phase.Finished?)
    && (s.calls[c].purpose.Unsubscribing?
        || s.calls[c].phase.outcome.Failed? || s.calls[c].phase.outcome.resp.status != "Subscribed")
  }

  ghost predicate RemovedForCause(s: State, i: SubId) {
    s.client.closed || exists c :: RemovalBegun(s, i, c)
  }

  lemma OwnOutcome(s: State, e: Step)
    requires Enabled(s, e) && OfCaller(e) && e.c in s.calls && HasOutcome(s.calls[e.c].phase)
    ensures e.c in Apply(s, e).calls
    ensures var p, q := s.calls[e.c].phase, Apply(s, e).calls[e.c].phase;
      HasOutcome(q) && q.outcome == p.outcome && !q.Returned?
  {
    hide NeedsRemoval;
  }

  /** A call that has returned keeps what it returned, and a removal it has begun stays begun. */
  lemma OutcomePersists(s: State, e: Step, c: CallId)
    requires Enabled(s, e) && c in s.calls && HasOutcome(s.calls[c].phase)
    ensures c in Apply(s, e).calls
    ensures var p, q := s.calls[c].phase, Apply(s, e).calls[c].phase;
      HasOutcome(q) && q.outcome == p.outcome && (!p.Returned? ==> !q.Returned?)
  {
    hide Enabled, Apply;
    if !OfCaller(e) {
      LoopMovesChannels(s, e, c);
    } else if c == e.c {
      OwnOutcome(s, e);
    } else {
      CallerMovesItsCall(s, e, c);
    }
  }

  lemma RemovalPersists(s: State, e: Step, i: SubId, c: CallId)
    requires Enabled(s, e) && RemovalBegun(s, i, c)
    ensures RemovalBegun(Apply(s, e), i, c)
  {
    hide Enabled, Apply;
    OutcomePersists(s, e, c);
    StepKeepsPurpose(s, e, c);
  }

  lemma CallersKeepLists(s: State, e: Step)
    requires Enabled(s, e) && OfCaller(e) && !e.Subscribe? && !e.RemoveSub?
    ensures Apply(s, e).client.subs == s.client.subs
  {
    hide NeedsRemoval;
  }

  lemma LoopKeepsLists(s: State, e: Step)
    requires Enabled(s, e) && !OfCaller(e) && !e.ReadError?
    ensures Apply(s, e).client.subs == s.client.subs
  {
  }

  lemma TopicsStay(s: State, e: Step, i: SubId)
    requires Enabled(s, e) && i in s.subs
    ensures i in Apply(s, e).subs && Apply(s, e).subs[i].topic == s.subs[i].topic
  {
    hide NeedsRemoval;
  }

  lemma OthersKeepLists(s: State, e: Step, i: SubId)
    requires Enabled(s, e) && !e.Subscribe? && !e.RemoveSub? && !e.ReadError? && i in s.subs
    ensures Apply(s, e).client.subs == s.client.subs
    ensures i in Apply(s, e).subs && Apply(s, e).subs[i].topic == s.subs[i].topic
  {
    hide Enabled, Apply;
    TopicsStay(s, e, i);
    if OfCaller(e) { CallersKeepLists(s, e); } else { LoopKeepsLists(s, e); }
  }

  lemma SubscribeUnlistsNone(s: State, e: Step, i: SubId)
    requires SubInv(s) && Enabled(s, e) && e.Subscribe? && i in s.subs
    ensures i in Apply(s, e).subs && Listed(Apply(s, e), i) == Listed(s, i)
  {
    if !s.client.closed { RegisterLists(s, e.c, e.i, e.topic); }
    hide SubInv, ListsOk;
  }

  lemma RemovalUnlistsOne(s: State, e: Step, i: SubId)
    requires SubInv(s) && Enabled(s, e) && e.RemoveSub? && i in s.subs && i != s.calls[e.c].purpose.sub
    ensures i in Apply(s, e).subs && Listed(Apply(s, e), i) == Listed(s, i)
  {
    RemoveLists(s, e.c);
    hide SubInv, ListsOk, Listed;
  }

  /** Only the lists' own steps unlist, and a removal unlists its own subscription only. */
  lemma WhoUnlists(s: State, e: Step, i: SubId)
    requires SubInv(s) && Enabled(s, e) && i in s.subs && i in Apply(s, e).subs
    requires Listed(s, i) && !Listed(Apply(s, e), i)
    ensures e.ReadError? || (e.RemoveSub? && s.calls[e.c].purpose.sub == i)
  {
    hide SubInv, Apply;
    if e.Subscribe? {
      SubscribeUnlistsNone(s, e, i);
    } else if e.RemoveSub? {
      if s.calls[e.c].purpose.sub != i { RemovalUnlistsOne(s, e, i); }
    } else if !e.ReadError? {
      OthersKeepLists(s, e, i);
    }
  }

  lemma UnlistedForCause(s: State, e: Step, i: SubId)
    requires Enabled(s, e) && (e.ReadError? || (e.RemoveSub? && s.calls[e.c].purpose.sub == i))
    ensures RemovedForCause(Apply(s, e), i)
  {
    if e.RemoveSub? { assert RemovalBegun(Apply(s, e), i, e.c); }
  }

  lemma CauseStep(s: State, e: Step, i: SubId)
    requires Inv(s) && Enabled(s, e) && i in s.subs && (Listed(s, i) || RemovedForCause(s, i))
    ensures i in Apply(s, e).subs && (Listed(Apply(s, e), i) || RemovedForCause(Apply(s, e), i))
  {
    StepKeepsSince(s, e, i);
    hide Apply, Enabled, Listed, RemovalBegun, SubInv, RequestInv, DeliveryInv, ConfirmedAfterRegistration;
    if s.client.closed {
      StaysClosed(s, e);
    } else if !Listed(s, i) {
      var c :| RemovalBegun(s, i, c);
      RemovalPersists(s, e, i, c);
    } else if !Listed(Apply(s, e), i) {
      WhoUnlists(s, e, i);
      UnlistedForCause(s, e, i);
    }
  }

  lemma FreshIsListed(s: State, e: Step, i: SubId)
    requires Inv(s) && Enabled(s, e) && i !in s.subs && i in Apply(s, e).subs
    ensures Listed(Apply(s, e), i)
  {
    hide Inv;
    OnlySubscribeAdds(s, e, i);
    assert Inv(s);
    NewIsListed(s, e);
  }

  lemma NewIsListed(s: State, e: Step)
    requires Inv(s) && e.Subscribe? && Enabled(s, e) && !s.client.closed
    ensures e.i in Apply(s, e).subs && Listed(Apply(s, e), e.i)
  {
    RegisterLists(s, e.c, e.i, e.topic);
    hide Inv;
  }

  /** A subscription leaves its list, and its channel is closed, only because the connection ended or because its own
      Unsubscribe or failed Subscribe removes it; no other call's removal touches it. */
  lemma {:induction false} RemovedOnlyForCause(states: seq<State>, steps: seq<Step>, k: nat, i: SubId)
    requires IsRun(states, steps) && k <= |steps| && i in states[k].subs
    ensures Listed(states[k], i) || RemovedForCause(states[k], i)
  {
    hide Apply, Enabled, Inv, Listed, RemovedForCause;
    RunInv(states, steps, k);
    if k > 0 {
      RunInv(states, steps, k - 1);
      RunStep(states, steps, k - 1);
      hide IsRun;
      var s, e := states[k - 1], steps[k - 1];
      if i in s.subs {
        RemovedOnlyForCause(states, steps, k - 1, i);
        CauseStep(s, e, i);
      } else {
        FreshIsListed(s, e, i);
      }
    }
  }

  // ---------------------------------------------------------------- nobody is stuck

  /** The step the read loop takes next, when it is not waiting for the socket. */
  function NextOfLoop(l: Loop): Option<Step> {
    match l
    case FanOut(_, _) => Some(SendEvent)
    case Delivering(_, _) => Some(SendResponse)
    case SignallingDone(_, _) => Some(SignalDone)
    case ClosingPending(_, _) => Some(CloseResponse)
    case ClosingSubs(_) => Some(CloseSub)
    case _ => None
  }

  /** The read loop is never blocked: unless it is reading from the socket or has stopped, its next step is enabled. */
  lemma LoopNeverBlocks(s: State)
    requires Reachable(s) && !s.panicked && NextOfLoop(s.loop).Some?
    ensures Enabled(s, NextOfLoop(s.loop).value)
  {
    hide Reachable, DeliveryInv;
    hide Inv;
    ResponseChannels(s);
    ReachableInv(s);
    LoopTargets(s);
    hide Distinct;
  }

  lemma LoopTargets(s: State)
    requires Inv(s)
    ensures s.loop.FanOut? ==> s.loop.rest != [] && s.loop.rest[0] in s.subs
    ensures s.loop.ClosingSubs? ==> s.loop.open != [] && s.loop.open[0] in s.subs
  {
    assert LoopSubsOk(s);
    if s.loop.FanOut? { assert s.loop.rest[0] in s.loop.rest; }
    if s.loop.ClosingSubs? { assert s.loop.open[0] in ToClose(s.loop); }
  }

  lemma TakenWaiterHasValue(s: State, c: CallId)
    requires RequestInv(s) && InPhase(s, c, Waiting) && c in s.hist.taken && !DeliveringTo(s, c)
    ensures s.calls[c].chan.buf != []
  {
    TakenInCalls(s);
    var n: nat :| n < |s.hist.taken| && s.hist.taken[n] == c;
    assert ValueOk(s, n);
  }

  /** A call that waits can return now, or its channel is still in the hands of the read loop, which has it pending, is
      about to send to it, or is about to signal teardown; once teardown is signalled it can return at once. */
  lemma WaitersAreCovered(s: State, c: CallId)
    requires Reachable(s) && !s.panicked && InPhase(s, c, Waiting)
    ensures
      || Enabled(s, TakeResponse(c)) || Enabled(s, TakeDone(c))
      || (!s.client.closed && c in s.client.pending) || DeliveringTo(s, c) || s.loop.SignallingDone?
    ensures s.done ==> Enabled(s, TakeDone(c))
  {
    hide Reachable, DeliveryInv, SubInv;
    ReachableInv(s);
    assert PhaseOk(s, c) && ChanOk(s, c) && LoopOk(s);
    TakenNotOwed(s, c);
    if c in s.hist.taken && !DeliveringTo(s, c) { TakenWaiterHasValue(s, c); }
    assert !s.client.closed ==> |s.hist.taken| + |Owed(s)| == |s.hist.enqueued|;
    hide RequestInv;
  }

  /** Every other unfinished phase of a call has its next step enabled. */
  lemma CallsMoveOn(s: State, c: CallId)
    requires Reachable(s) && !s.panicked && c in s.calls
    ensures s.calls[c].phase.Starting? ==> Enabled(s, Enqueue(c))
    ensures s.calls[c].phase.Enqueued? ==> Enabled(s, Write(c)) && Enabled(s, WriteError(c))
    ensures s.calls[c].phase.Returned? ==> Enabled(s, Finish(c)) || Enabled(s, RemoveSub(c))
    ensures s.calls[c].phase.Unlisted? ==> Enabled(s, CloseEvents(c))
  {
    hide Reachable, DeliveryInv, RequestInv;
    ReachableInv(s);
    assert CallOk(s, c);
    hide SubInv;
  }

  /** A call made on a closed client changes nothing of the client and fails with the client's read error. */
  lemma RefusedWhenClosed(s: State, e: Step)
    requires Inv(s) && s.client.closed && (e.Subscribe? || e.Enqueue?) && Enabled(s, e)
    ensures s.client.readErr.Some?
    ensures var t := Apply(s, e);
      && t.client == s.client && t.subs == s.subs && t.hist == s.hist
      && HasOutcome(t.calls[e.c].phase) && t.calls[e.c].phase.outcome == Failed(ConnClosed(s.client.readErr))
  {
    assert LoopOk(s);
    hide Inv;
  }

  lemma {:induction false} OutcomeStays(states: seq<State>, steps: seq<Step>, k: nat, n: nat, c: CallId)
    requires IsRun(states, steps) && k <= n <= |steps| && c in states[k].calls && HasOutcome(states[k].calls[c].phase)
    ensures c in states[n].calls && HasOutcome(states[n].calls[c].phase)
    ensures states[n].calls[c].phase.outcome == states[k].calls[c].phase.outcome
    decreases n
  {
    hide Apply, Enabled;
    if k < n {
      OutcomeStays(states, steps, k, n - 1, c);
      RunStep(states, steps, n - 1);
      hide IsRun;
      OutcomePersists(states[n - 1], steps[n - 1], c);
    }
  }

  lemma ReadErrorSets(s: State, e: Step)
    requires e.ReadError? && Enabled(s, e)
    ensures Apply(s, e).client.closed && Apply(s, e).client.readErr == Some(e.err)
  {
  }

  /** Once a read has failed, every Subscribe and every roundTrip begun later fails for good with that very error, and
      leaves the client, the subscriptions and the queue history as they were. */
  lemma RefusedWithTheReadError(states: seq<State>, steps: seq<Step>, j: nat, k: nat, n: nat)
    requires IsRun(states, steps) && j < k < n <= |steps|
    requires steps[j].ReadError? && (steps[k].Subscribe? || steps[k].Enqueue?)
    ensures var c := steps[k].c;
      && c in states[n].calls && HasOutcome(states[n].calls[c].phase)
      && states[n].calls[c].phase.outcome == Failed(ConnClosed(Some(steps[j].err)))
    ensures var s, t := states[k], states[k + 1]; t.client == s.client && t.subs == s.subs && t.hist == s.hist
  {
    hide Apply, Enabled, Inv;
    RunStep(states, steps, j);
    ReadErrorSets(states[j], steps[j]);
    ClosedForGood(states, steps, j + 1, k);
    RunInv(states, steps, k);
    RunStep(states, steps, k);
    RefusedWhenClosed(states[k], steps[k]);
    ResultOfCall(states[k], steps[k]);
    OutcomeStays(states, steps, k + 1, n, steps[k].c);
  }

  lemma ResultOfCall(s: State, e: Step)
    requires Enabled(s, e) && (e.Subscribe? || e.Enqueue?)
    ensures e.c in Apply(s, e).calls
  {
  }

  // ---------------------------------------------------------------- what a call returns

  ghost predicate Returns(s: State, c: CallId, o: Outcome) {
    c in s.calls && HasOutcome(s.calls[c].phase) && s.calls[c].phase.outcome == o
  }

  ghost predicate HasReturned(s: State, c: CallId) {
    c in s.calls && HasOutcome(s.calls[c].phase)
  }

  /** A call comes by its outcome in one of its own steps, and the step tells which outcome. */
  lemma NewOutcome(s: State, e: Step, c: CallId)
    requires Enabled(s, e) && !HasReturned(s, c) && HasReturned(Apply(s, e), c)
    ensures OfCaller(e) && e.c == c
    ensures var o := Apply(s, e).calls[c].phase.outcome;
      && (o == Failed(Cancelled) <==> e.Cancel?)
      && (o == Failed(WriteFailed) <==> e.WriteError?)
      && (o.Answered? ==> e.TakeResponse?)
  {
    hide NeedsRemoval;
  }

  lemma CancelReturns(s: State, e: Step)
    requires Enabled(s, e) && (e.Cancel? || e.WriteError?)
    ensures HasReturned(Apply(s, e), e.c) && !HasReturned(s, e.c)
  {
  }

  lemma OutcomeStep(s: State, e: Step, c: CallId)
    requires Enabled(s, e)
    ensures Returns(Apply(s, e), c, Failed(Cancelled)) <==> Returns(s, c, Failed(Cancelled)) || e == Cancel(c)
    ensures Returns(Apply(s, e), c, Failed(WriteFailed)) <==> Returns(s, c, Failed(WriteFailed)) || e == WriteError(c)
  {
    hide Apply, Enabled, HasOutcome;
    if HasReturned(s, c) {
      OutcomePersists(s, e, c);
      if e == Cancel(c) || e == WriteError(c) { CancelReturns(s, e); }
    } else {
      if e == Cancel(c) || e == WriteError(c) { CancelReturns(s, e); }
      if HasReturned(Apply(s, e), c) { NewOutcome(s, e, c); }
    }
  }

  /** A call returns a cancellation exactly if it was cancelled, and a write error exactly if its write failed. */
  lemma {:induction false} FailsAsItWasMadeTo(states: seq<State>, steps: seq<Step>, n: nat, c: CallId)
    requires IsRun(states, steps) && n <= |steps|
    ensures |states| == |steps| + 1
    ensures Returns(states[n], c, Failed(Cancelled)) <==> exists k :: 0 <= k < n && steps[k] == Cancel(c)
    ensures Returns(states[n], c, Failed(WriteFailed)) <==> exists k :: 0 <= k < n && steps[k] == WriteError(c)
  {
    hide IsRun, Apply, Enabled, Returns;
    if n == 0 {
      NobodyReturnedYet(states, steps, c);
    } else {
      FailsAsItWasMadeTo(states, steps, n - 1, c);
      RunStep(states, steps, n - 1);
      OutcomeStep(states[n - 1], steps[n - 1], c);
      OneMoreStep(steps, n - 1, Cancel(c));
      OneMoreStep(steps, n - 1, WriteError(c));
    }
  }

  lemma NobodyReturnedYet(states: seq<State>, steps: seq<Step>, c: CallId)
    requires IsRun(states, steps)
    ensures |states| == |steps| + 1 && forall o :: !Returns(states[0], c, o)
  {
  }

  lemma OneMoreStep(steps: seq<Step>, n: nat, e: Step)
    requires n < |steps|
    ensures (exists k :: 0 <= k < n + 1 && steps[k] == e)
      <==> (exists k :: 0 <= k < n && steps[k] == e) || steps[n] == e
  {
  }

  lemma {:induction false} ClosedByReadError(states: seq<State>, steps: seq<Step>, n: nat)
    requires IsRun(states, steps) && n <= |steps| && states[n].client.closed
    ensures exists j :: 0 <= j < n && steps[j].ReadError? && states[n].client.readErr == Some(steps[j].err)
  {
    hide Apply, Enabled, Inv;
    if n > 0 {
      RunInv(states, steps, n - 1);
      RunStep(states, steps, n - 1);
      var s, e := states[n - 1], steps[n - 1];
      if e.ReadError? {
        ReadErrorSets(s, e);
      } else {
        OnlyReadErrorCloses(s, e);
        ClosedByReadError(states, steps, n - 1);
      }
    }
  }

  lemma ConnClosedIsReadErr(s: State, c: CallId)
    requires RequestInv(s) && HasReturned(s, c)
    ensures var o := s.calls[c].phase.outcome;
      o.Failed? && o.err.ConnClosed? ==> s.client.closed && o.err.reason == s.client.readErr
  {
    assert PhaseOk(s, c);
  }

  /** A call that returned no response, was not cancelled and did not fail to write, returned the error of the read that
      ended the connection, whichever branch of its select it took. */
  lemma OtherwiseTheReadError(states: seq<State>, steps: seq<Step>, n: nat, c: CallId)
    requires IsRun(states, steps) && n <= |steps| && HasReturned(states[n], c)
    requires states[n].calls[c].phase.outcome.Failed?
    requires forall k :: 0 <= k < n ==> steps[k] != Cancel(c) && steps[k] != WriteError(c)
    ensures exists j ::
      0 <= j < n && steps[j].ReadError? && Returns(states[n], c, Failed(ConnClosed(Some(steps[j].err))))
  {
    hide IsRun, Apply, Enabled, Inv, RequestInv;
    FailsAsItWasMadeTo(states, steps, n, c);
    RunInv(states, steps, n);
    InvIncludesRequests(states[n]);
    ConnClosedIsReadErr(states[n], c);
    var o := states[n].calls[c].phase.outcome;
    assert Returns(states[n], c, o) && o.err.ConnClosed?;
    ClosedByReadError(states, steps, n);
    var j :| 0 <= j < n && steps[j].ReadError? && states[n].client.readErr == Some(steps[j].err);
    assert o == Failed(ConnClosed(Some(steps[j].err)));
  }

  lemma ClosedChannelStep(s: State, e: Step, c: CallId)
    requires Enabled(s, e) && c in s.calls
    requires e == TakeDone(c) || (e == TakeResponse(c) && s.calls[c].chan.buf == [])
    ensures Returns(Apply(s, e), c, Failed(ConnClosed(s.client.readErr)))
  {
  }

  /** A waiter that finds its channel closed, or done signalled, after a failed read returns that read's error for
      good. */
  lemma WaiterIsToldWhy(states: seq<State>, steps: seq<Step>, j: nat, k: nat, n: nat, c: CallId)
    requires IsRun(states, steps) && j < k < n <= |steps| && steps[j].ReadError? && c in states[k].calls
    requires steps[k] == TakeDone(c) || (steps[k] == TakeResponse(c) && states[k].calls[c].chan.buf == [])
    ensures Returns(states[n], c, Failed(ConnClosed(Some(steps[j].err))))
  {
    hide Apply, Enabled, Inv;
    RunStep(states, steps, j);
    ReadErrorSets(states[j], steps[j]);
    ClosedForGood(states, steps, j + 1, k);
    RunStep(states, steps, k);
    ClosedChannelStep(states[k], steps[k], c);
    OutcomeStays(states, steps, k + 1, n, c);
  }

  /** Once teardown has closed a waiting call's channel, the call can take that branch, and returns the read error. */
  lemma ClosedChannelTells(s: State, c: CallId)
    requires Reachable(s) && !s.panicked && InPhase(s, c, Waiting) && s.calls[c].chan.closes > 0
    ensures Enabled(s, TakeResponse(c)) && s.client.readErr.Some?
    ensures Returns(Apply(s, TakeResponse(c)), c, Failed(ConnClosed(s.client.readErr)))
  {
    hide Reachable, Inv, RequestInv;
    ReachableInv(s);
    InvIncludesRequests(s);
    ClosedChannelMeansClosed(s, c);
    ReasonKnown(s);
    ClosedChannelStep(s, TakeResponse(c), c);
  }

  lemma ReasonKnown(s: State)
    requires RequestInv(s) && s.client.closed
    ensures s.client.readErr.Some?
  {
    assert LoopOk(s);
  }

  // ---------------------------------------------------------------- whose subscription a call is about

  lemma {:induction false} PurposeStays(states: seq<State>, steps: seq<Step>, k: nat, n: nat, c: CallId)
    requires IsRun(states, steps) && k <= n <= |steps| && c in states[k].calls
    ensures c in states[n].calls && states[n].calls[c].purpose == states[k].calls[c].purpose
    decreases n
  {
    hide Apply, Enabled;
    if k < n {
      PurposeStays(states, steps, k, n - 1, c);
      RunStep(states, steps, n - 1);
      hide IsRun;
      StepKeepsPurpose(states[n - 1], steps[n - 1], c);
    }
  }

  lemma {:induction false} TopicStays(states: seq<State>, steps: seq<Step>, k: nat, n: nat, i: SubId)
    requires IsRun(states, steps) && k <= n <= |steps| && i in states[k].subs
    ensures i in states[n].subs && states[n].subs[i].topic == states[k].subs[i].topic
    decreases n
  {
    hide Apply, Enabled;
    if k < n {
      TopicStays(states, steps, k, n - 1, i);
      RunStep(states, steps, n - 1);
      hide IsRun;
      TopicsStay(states[n - 1], steps[n - 1], i);
    }
  }

  lemma SubscribeBegins(s: State, e: Step)
    requires e.Subscribe? && Enabled(s, e) && !s.client.closed
    ensures var t := Apply(s, e);
      && e.c in t.calls && t.calls[e.c].purpose == Subscribing(e.i)
      && e.i in t.subs && t.subs[e.i].topic == e.topic
  {
  }

  lemma UnsubscribeBegins(s: State, e: Step)
    requires e.Unsubscribe? && Enabled(s, e)
    ensures e.via in s.calls && s.calls[e.via].purpose.Subscribing?
    ensures var t := Apply(s, e);
      e.c in t.calls && t.calls[e.c].purpose == Unsubscribing(s.calls[e.via].purpose.sub)
  {
  }

  /** Unsubscribing what Subscribe returned is about that very subscription: when the call returns, with or without an
      error, that subscription is off the list of the topic it was made for and its channel is closed. */
  lemma UnsubscribeEndsItsOwn(
    states: seq<State>, steps: seq<Step>, j: nat, k: nat, n: nat, v: CallId, i: SubId, topic: Topic, c: CallId)
    requires IsRun(states, steps) && j < k < n <= |steps|
    requires steps[j] == Subscribe(v, i, topic) && !states[j].client.closed && steps[k] == Unsubscribe(c, v)
    requires c in states[n].calls && states[n].calls[c].phase.Finished?
    ensures i in states[n].subs && states[n].subs[i].topic == topic
    ensures states[n].subs[i].closes == 1 && !Listed(states[n], i)
  {
    hide Apply, Enabled, Inv, Listed;
    RunStep(states, steps, j);
    SubscribeBegins(states[j], steps[j]);
    PurposeStays(states, steps, j + 1, k, v);
    TopicStays(states, steps, j + 1, n, i);
    RunStep(states, steps, k);
    UnsubscribeBegins(states[k], steps[k]);
    PurposeStays(states, steps, k + 1, n, c);
    RunInv(states, steps, n);
    hide IsRun;
    FinishedOk(states[n], c);
  }

  // ---------------------------------------------------------------- what the world may do

  /** While the loop reads, any event, response, unknown frame or read error may come next, with the map iterated in any
      order; a waiting call may always be cancelled, and a consumer may always take what is buffered. */
  lemma TheWorldIsFree(
    s: State, ev: Event, r: Response, err: string, order: seq<Topic>, c: CallId, i: SubId)
    requires !s.panicked
    ensures s.loop.Reading? ==>
      Enabled(s, ReadEvent(ev)) && Enabled(s, ReadResponse(r)) && Enabled(s, ReadOther) && Apply(s, ReadOther) == s
    ensures s.loop.Reading? && Iterates(order, s.client.subs) ==> Enabled(s, ReadError(err, order))
    ensures InPhase(s, c, Waiting) ==> Enabled(s, Cancel(c))
    ensures i in s.subs && s.subs[i].buffer != [] ==> Enabled(s, Consume(i))
    ensures c !in s.calls && i !in s.subs ==> Enabled(s, Subscribe(c, i, ev.topic))
  {
  }

  // ---------------------------------------------------------------- events

  /** In every reachable state, what a subscription has consumed or holds buffered is an order-preserving part of the
      events read on its topic while it was listed; outside a fan-out to it, it is all of them unless events were
      dropped, and none is dropped before a whole buffer of events has been accepted. */
  lemma EventsInOrder(s: State, i: SubId)
    requires Reachable(s) && i in s.subs
    ensures Subsequence(Accepted(s.subs[i]), Offered(s, i))
    ensures s.subs[i].dropped == 0 ==> Accepted(s.subs[i]) == Offered(s, i)
    ensures !InFanOut(s, i) ==> Offered(s, i) == Seen(s, i)
    ensures |Accepted(s.subs[i])| + s.subs[i].dropped == |Offered(s, i)|
    ensures |s.subs[i].buffer| <= 256 && (s.subs[i].dropped > 0 ==> |Accepted(s.subs[i])| >= 256)
  {
    hide Reachable, SubInv, RequestInv, Seen;
    ReachableInv(s);
    assert EventsOk(s, i);
    SubsequenceShorter(Accepted(s.subs[i]), Offered(s, i));
    hide Subsequence;
  }

  /** The read loop offers i an event while i's buffer is full. */
  ghost predicate OverflowsAt(s: State, e: Step, i: SubId) {
    && e.SendEvent? && s.loop.FanOut? && s.loop.rest != [] && s.loop.rest[0] == i
    && i in s.subs && s.subs[i].closes == 0 && |s.subs[i].buffer| >= 256
  }

  lemma DropsOnlyOnOverflow(s: State, e: Step, i: SubId)
    requires Enabled(s, e) && i in Apply(s, e).subs
    ensures Apply(s, e).subs[i].dropped
      == (if i in s.subs then s.subs[i].dropped else 0) + (if OverflowsAt(s, e, i) then 1 else 0)
  {
    if i !in s.subs {
      OnlySubscribeAdds(s, e, i);
    } else if e.SendEvent? {
      hide Enabled;
    }
  }

  /** Events were dropped exactly if some event was offered while the buffer was full. */
  lemma {:induction false} DroppedIffOverflowed(states: seq<State>, steps: seq<Step>, n: nat, i: SubId)
    requires IsRun(states, steps) && n <= |steps| && i in states[n].subs
    ensures states[n].subs[i].dropped > 0 <==> exists k :: 0 <= k < n && OverflowsAt(states[k], steps[k], i)
  {
    hide Apply, Enabled, OverflowsAt;
    if n > 0 {
      RunStep(states, steps, n - 1);
      DropsOnlyOnOverflow(states[n - 1], steps[n - 1], i);
      if i in states[n - 1].subs {
        DroppedIffOverflowed(states, steps, n - 1, i);
      } else {
        hide IsRun;
        forall k | 0 <= k < n
          ensures !OverflowsAt(states[k], steps[k], i)
        {
          NotYetThere(states, steps, k, n - 1, i);
        }
      }
    }
  }

  lemma {:induction false} NotYetThere(states: seq<State>, steps: seq<Step>, k: nat, n: nat, i: SubId)
    requires IsRun(states, steps) && k <= n < |steps| && i !in states[n].subs
    ensures !OverflowsAt(states[k], steps[k], i)
    decreases n
  {
    if k < n {
      hide Apply, Enabled, OverflowsAt;
      RunStep(states, steps, n - 1);
      if i in states[n - 1].subs { StepKeepsSince(states[n - 1], steps[n - 1], i); }
      NotYetThere(states, steps, k, n - 1, i);
    }
  }

  /** A subscription has been given every event offered to it exactly if no event was offered while its buffer was
      full. */
  lemma WholeStreamIffNoOverflow(states: seq<State>, steps: seq<Step>, i: SubId)
    requires IsRun(states, steps) && i in states[|steps|].subs
    ensures var s := states[|steps|];
      Accepted(s.subs[i]) == Offered(s, i) <==> !exists k :: 0 <= k < |steps| && OverflowsAt(states[k], steps[k], i)
  {
    hide Apply, Enabled, OverflowsAt, Offered, Subsequence;
    DroppedIffOverflowed(states, steps, |steps|, i);
    var s := states[|steps|];
    assert Reachable(s);
    hide IsRun;
    EventsInOrder(s, i);
  }

  lemma SeenSplits(s: State, i: SubId, at: nat)
    requires i in s.subs && s.subs[i].since <= at <= EventsEnd(s, s.subs[i]) <= |s.hist.events|
    ensures var es, b := s.hist.events, s.subs[i];
      Seen(s, i) == OnTopic(es[b.since..at], b.topic) + OnTopic(es[at..EventsEnd(s, b)], b.topic)
  {
    hide OnTopic;
    var es, b := s.hist.events, s.subs[i];
    var end := EventsEnd(s, b);
    OnTopicConcat(es[b.since..at], es[at..end], b.topic);
    assert es[b.since..at] + es[at..end] == es[b.since..end];
  }

  lemma ConfirmedAfter(s: State, n: nat, c: CallId, i: SubId)
    requires Inv(s) && n < |s.hist.taken| && s.hist.taken[n] == c
    requires c in s.calls && s.calls[c].purpose == Subscribing(i)
    ensures n < |s.hist.answeredAt| && i in s.subs
    ensures s.subs[i].since <= s.hist.answeredAt[n] <= |s.hist.events| && EventsEnd(s, s.subs[i]) <= |s.hist.events|
    ensures InFanOut(s, i) ==> Seen(s, i) != [] && Seen(s, i)[|Seen(s, i)| - 1] == s.loop.event
  {
    hide RequestInv, OnTopic, Seen;
    assert ConfirmedAt(s, c, s.hist.answeredAt[n]);
    assert SubOk(s, i) && EventsOk(s, i);
  }

  /** No event is missed after the server's confirmation.  A subscription whose response has been read has been offered
      every event read on its topic before the confirmation, since its registration, and after it, until it was
      unlisted or up to now, in order; all but the event in hand if that is still to be sent to it.  Each was accepted
      or counted as dropped, and without drops it holds or has consumed every one of them. */
  lemma NothingMissedAfterConfirmation(s: State, n: nat, c: CallId, i: SubId)
    requires Reachable(s) && n < |s.hist.taken| && s.hist.taken[n] == c
    requires c in s.calls && s.calls[c].purpose == Subscribing(i)
    ensures n < |s.hist.answeredAt| && i in s.subs && s.subs[i].since <= s.hist.answeredAt[n]
    ensures EventsEnd(s, s.subs[i]) <= |s.hist.events|
    ensures s.hist.answeredAt[n] <= EventsEnd(s, s.subs[i]) ==>
      var es, b, at := s.hist.events, s.subs[i], s.hist.answeredAt[n];
      var all := OnTopic(es[b.since..at], b.topic) + OnTopic(es[at..EventsEnd(s, b)], b.topic);
      && (if InFanOut(s, i) then all == Offered(s, i) + [s.loop.event] else all == Offered(s, i))
      && |Accepted(b)| + b.dropped == |Offered(s, i)|
      && Subsequence(Accepted(b), Offered(s, i))
      && (b.dropped == 0 ==> Accepted(b) == Offered(s, i))
  {
    hide Reachable, Inv, OnTopic, Subsequence, Seen;
    ReachableInv(s);
    ConfirmedAfter(s, n, c, i);
    var at := s.hist.answeredAt[n];
    if at <= EventsEnd(s, s.subs[i]) {
      SeenSplits(s, i, at);
      EventsInOrder(s, i);
    }
  }
}
