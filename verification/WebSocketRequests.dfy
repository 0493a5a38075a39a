/** The request side of the WebSocket client: what every interleaving keeps of pending, of the response channels and
    of the calls waiting on them. */
module WebSocketRequests {
  import opened Keys
  import opened WebSocket

  // ---------------------------------------------------------------- the invariant

  /** The calls whose channel the read loop still owes a value or a close: pending, or what teardown took from it. */
  function Owed(s: State): seq<CallId> {
    if s.loop.SignallingDone? || s.loop.ClosingPending? then s.loop.pend else s.client.pending
  }

  predicate TearingDown(l: Loop) {
    l.SignallingDone? || l.ClosingPending? || l.ClosingSubs? || l.Stopped?
  }

  /** Once the read loop has left its loop the client is closed for good, with nothing pending, and conversely. */
  ghost predicate LoopOk(s: State) {
    && (s.client.closed <==> TearingDown(s.loop))
    && (s.done <==> s.client.closed && !s.loop.SignallingDone?)
    && (s.client.closed ==> s.client.pending == [] && s.client.readErr.Some?)
    && (s.loop.ClosingPending? ==> s.loop.pend != [])
    && (s.loop.Delivering? ==>
      var n := |s.hist.taken|;
      n > 0 && |s.hist.answers| == n && s.hist.taken[n - 1] == s.loop.call && s.hist.answers[n - 1] == s.loop.resp)
  }

  /** The enqueued calls are those taken, then those teardown has closed, then those still owed, in that order. */
  ghost predicate HistoryOk(s: State) {
    var h, owed := s.hist, Owed(s);
    && Distinct(h.enqueued)
    && |h.taken| == |h.answers| == |h.answeredAt|
    && h.taken <= h.enqueued
    && |h.taken| + |owed| <= |h.enqueued|
    && owed == h.enqueued[|h.enqueued| - |owed|..]
    && (!s.client.closed || s.loop.SignallingDone? ==> |h.taken| + |owed| == |h.enqueued|)
    && (forall c :: c in h.enqueued ==> c in s.calls)
  }

  ghost predicate WrittenOk(s: State) {
    Distinct(s.hist.written) && forall c :: c in s.hist.written ==> c in s.hist.enqueued
  }

  predicate DeliveringTo(s: State, c: CallId) {
    s.loop.Delivering? && s.loop.call == c
  }

  /** Nothing has been done to c's channel yet. */
  predicate Fresh(s: State, c: CallId) {
    c !in s.hist.enqueued || c in Owed(s) || DeliveringTo(s, c)
  }

  predicate HasOutcome(p: Phase) {
    p.Returned? || p.Unlisted? || p.Finished?
  }

  predicate GotAnswer(p: Phase) {
    HasOutcome(p) && p.outcome.Answered?
  }

  ghost predicate PhaseOk(s: State, c: CallId)
    requires c in s.calls
  {
    var p := s.calls[c].phase;
    && (p.Starting? ==> c !in s.hist.enqueued)
    && (p.Enqueued? || p.Waiting? ==> c in s.hist.enqueued)
    && (p.Enqueued? ==> c !in s.hist.written)
    && (HasOutcome(p) && p.outcome.Failed? && p.outcome.err.ConnClosed? ==>
      s.client.closed && p.outcome.err.reason == s.client.readErr)
  }

  /** A channel is untouched, or was sent to once and never closed, or was closed once and never sent to. */
  ghost predicate ChanOk(s: State, c: CallId)
    requires c in s.calls
  {
    var ch := s.calls[c].chan;
    if Fresh(s, c) then ch == NEW_CHAN && !GotAnswer(s.calls[c].phase)
    else if c in s.hist.taken then ch.sends == 1 && ch.closes == 0
    else ch == Chan([], 0, 1) && !GotAnswer(s.calls[c].phase)
  }

  /** The k-th response sits in the channel of the k-th taken call until that call has returned it. */
  ghost predicate ValueOk(s: State, k: nat)
    requires k < |s.hist.taken| == |s.hist.answers| && s.hist.taken[k] in s.calls
  {
    var c, r := s.hist.taken[k], s.hist.answers[k];
    DeliveringTo(s, c) ||
    if GotAnswer(s.calls[c].phase) then s.calls[c].phase.outcome.resp == r && s.calls[c].chan.buf == []
    else s.calls[c].chan.buf == [r]
  }

  ghost predicate CallsOk(s: State) {
    forall c :: c in s.calls ==> PhaseOk(s, c) && ChanOk(s, c)
  }

  ghost predicate ValuesOk(s: State)
    requires HistoryOk(s)
  {
    forall k :: 0 <= k < |s.hist.taken| ==> s.hist.taken[k] in s.calls && ValueOk(s, k)
  }

  ghost predicate RequestInv(s: State) {
    LoopOk(s) && HistoryOk(s) && WrittenOk(s) && CallsOk(s) && ValuesOk(s)
  }

  // ---------------------------------------------------------------- consequences used in the proofs

  lemma TakenInCalls(s: State)
    requires HistoryOk(s)
    ensures |s.hist.taken| == |s.hist.answers| && |s.hist.taken| <= |s.hist.enqueued|
    ensures forall k :: 0 <= k < |s.hist.taken| ==> s.hist.taken[k] == s.hist.enqueued[k] && s.hist.taken[k] in s.calls
  {
    forall k | 0 <= k < |s.hist.taken|
      ensures s.hist.taken[k] == s.hist.enqueued[k] && s.hist.taken[k] in s.calls
    {
      assert s.hist.enqueued[k] in s.hist.enqueued;
    }
  }

  lemma TakenNotOwed(s: State, c: CallId)
    requires HistoryOk(s)
    ensures c in s.hist.taken ==> c !in Owed(s) && c in s.hist.enqueued
    ensures c in Owed(s) ==> c in s.hist.enqueued
    ensures |s.hist.taken| + |Owed(s)| == |s.hist.enqueued| && c in s.hist.enqueued ==>
      c in s.hist.taken || c in Owed(s)
  {
    var h, owed := s.hist, Owed(s);
    var base := |h.enqueued| - |owed|;
    assert forall k :: 0 <= k < |owed| ==> owed[k] == h.enqueued[base + k];
    assert forall k :: 0 <= k < |h.taken| ==> h.taken[k] == h.enqueued[k];
    if |h.taken| + |owed| == |h.enqueued| && c in h.enqueued {
      var k: nat :| k < |h.enqueued| && h.enqueued[k] == c;
      assert if k < base then h.taken[k] == c else owed[k - base] == c;
    }
  }

  /** A step that moves no call, no channel and none of the request history keeps the invariant, if it keeps what
      is owed, whom the loop is delivering to, and the reason once closed. */
  lemma SameCalls(s: State, t: State)
    requires RequestInv(s) && LoopOk(t)
    requires t.calls == s.calls && Owed(t) == Owed(s) && s.loop.Delivering? == t.loop.Delivering?
    requires s.loop.Delivering? ==> s.loop == t.loop
    requires s.client.closed ==> t.client.closed && t.client.readErr == s.client.readErr
    requires s.client.closed && t.loop.SignallingDone? ==> s.loop.SignallingDone?
    requires t.hist.enqueued == s.hist.enqueued && t.hist.written == s.hist.written && t.hist.taken == s.hist.taken
    requires t.hist.answers == s.hist.answers && t.hist.answeredAt == s.hist.answeredAt
    ensures RequestInv(t)
  {
    forall d | d in t.calls
      ensures PhaseOk(t, d) && ChanOk(t, d)
    {
      assert PhaseOk(s, d) && ChanOk(s, d);
    }
    forall k | 0 <= k < |t.hist.taken|
      ensures t.hist.taken[k] in t.calls && ValueOk(t, k)
    {
      assert ValueOk(s, k);
    }
  }

  // ---------------------------------------------------------------- steps of one call

  /** A step that changes one call's phase and nothing the channels depend on. */
  lemma PhaseStep(s: State, c: CallId, p: Phase)
    requires RequestInv(s) && c in s.calls
    requires PhaseOk(SetPhase(s, c, p), c)
    requires GotAnswer(p) <==> GotAnswer(s.calls[c].phase)
    requires GotAnswer(p) ==> p.outcome == s.calls[c].phase.outcome
    ensures RequestInv(SetPhase(s, c, p))
  {
    var t := SetPhase(s, c, p);
    assert Owed(t) == Owed(s);
    forall d | d in t.calls
      ensures PhaseOk(t, d) && ChanOk(t, d)
    {
      assert PhaseOk(s, d) && ChanOk(s, d);
    }
    forall k | 0 <= k < |t.hist.taken|
      ensures t.hist.taken[k] in t.calls && ValueOk(t, k)
    {
      assert s.hist.taken[k] in s.calls && ValueOk(s, k);
    }
  }

  lemma NewCall(s: State, c: CallId, call: Call)
    requires RequestInv(s) && c !in s.calls
    requires call.chan == NEW_CHAN
    requires call.phase == Starting || (s.client.closed && call.phase == Finished(ClosedError(s)))
    ensures RequestInv(s.(calls := s.calls[c := call]))
  {
    var t := s.(calls := s.calls[c := call]);
    assert c !in s.hist.enqueued;
    assert Owed(t) == Owed(s);
    TakenInCalls(s);
    TakenNotOwed(s, c);
    assert WrittenOk(t) && HistoryOk(t);
    hide HistoryOk, WrittenOk, Owed;
    forall d | d in t.calls
      ensures PhaseOk(t, d) && ChanOk(t, d)
    {
      if d != c { assert PhaseOk(s, d) && ChanOk(s, d); }
    }
    forall k | 0 <= k < |t.hist.taken|
      ensures t.hist.taken[k] in t.calls && ValueOk(t, k)
    {
      assert ValueOk(s, k);
    }
  }

  lemma EnqueueHistory(s: State, c: CallId)
    requires HistoryOk(s) && c in s.calls && c !in s.hist.enqueued && !s.client.closed && !TearingDown(s.loop)
    ensures HistoryOk(DoEnqueue(s, c)) && Owed(DoEnqueue(s, c)) == Owed(s) + [c]
  {
    var t, owed := DoEnqueue(s, c), Owed(s);
    DistinctAppend(s.hist.enqueued, c);
    assert Owed(t) == owed + [c];
    assert t.hist.enqueued[|t.hist.enqueued| - |Owed(t)|..] == s.hist.enqueued[|s.hist.enqueued| - |owed|..] + [c];
  }

  /** Any other call sees no difference. */
  lemma EnqueueOthers(s: State, c: CallId, d: CallId)
    requires CallsOk(s) && InPhase(s, c, Starting) && !s.client.closed && d in s.calls && d != c
    requires Owed(DoEnqueue(s, c)) == Owed(s) + [c]
    ensures PhaseOk(DoEnqueue(s, c), d) && ChanOk(DoEnqueue(s, c), d)
  {
    assert PhaseOk(s, d) && ChanOk(s, d);
    hide Owed;
  }

  lemma EnqueueStep(s: State, c: CallId)
    requires RequestInv(s) && InPhase(s, c, Starting) && !s.client.closed
    ensures RequestInv(DoEnqueue(s, c))
  {
    var t := DoEnqueue(s, c);
    assert PhaseOk(s, c) && ChanOk(s, c);
    EnqueueHistory(s, c);
    TakenInCalls(s);
    assert LoopOk(t) && WrittenOk(t) && PhaseOk(t, c) && ChanOk(t, c);
    hide LoopOk, HistoryOk, WrittenOk, PhaseOk, ChanOk, Owed;
    forall d | d in t.calls
      ensures PhaseOk(t, d) && ChanOk(t, d)
    {
      if d != c { EnqueueOthers(s, c, d); }
    }
    hide CallsOk;
    forall k | 0 <= k < |t.hist.taken|
      ensures t.hist.taken[k] in t.calls && ValueOk(t, k)
    {
      assert ValueOk(s, k);
    }
  }

  lemma WrittenGrows(s: State, c: CallId)
    requires RequestInv(s) && InPhase(s, c, Waiting) && c !in s.hist.written
    ensures RequestInv(s.(hist := s.hist.(written := s.hist.written + [c])))
  {
    var t := s.(hist := s.hist.(written := s.hist.written + [c]));
    assert PhaseOk(s, c);
    DistinctAppend(s.hist.written, c);
    assert WrittenOk(t) && HistoryOk(t);
    hide WrittenOk, HistoryOk;
    TakenInCalls(s);
    forall d | d in t.calls
      ensures PhaseOk(t, d) && ChanOk(t, d)
    {
      assert PhaseOk(s, d) && ChanOk(s, d);
    }
    forall k | 0 <= k < |t.hist.taken|
      ensures t.hist.taken[k] in t.calls && ValueOk(t, k)
    {
      assert ValueOk(s, k);
    }
  }

  lemma WriteStep(s: State, c: CallId)
    requires RequestInv(s) && InPhase(s, c, Enqueued)
    ensures RequestInv(DoWrite(s, c))
  {
    assert PhaseOk(s, c);
    hide RequestInv;
    PhaseStep(s, c, Waiting);
    WrittenGrows(SetPhase(s, c, Waiting), c);
  }

  /** A closed response channel means teardown has begun. */
  lemma ClosedChannelMeansClosed(s: State, c: CallId)
    requires RequestInv(s) && c in s.calls && s.calls[c].chan.closes > 0
    ensures s.client.closed && s.calls[c].chan.buf == []
  {
    assert ChanOk(s, c);
    TakenNotOwed(s, c);
  }

  /** A call takes the value out of its channel and returns it. */
  lemma TakeValue(s: State, c: CallId)
    requires RequestInv(s) && InPhase(s, c, Waiting) && s.calls[c].chan.buf != []
    ensures RequestInv(DoTakeResponse(s, c))
  {
    var t := DoTakeResponse(s, c);
    assert PhaseOk(s, c) && ChanOk(s, c);
    assert Owed(t) == Owed(s);
    TakenInCalls(s);
    assert LoopOk(t) && WrittenOk(t) && HistoryOk(t);
    hide LoopOk, HistoryOk, WrittenOk, Owed;
    assert CallsOk(t) by {
      forall d | d in t.calls
        ensures PhaseOk(t, d) && ChanOk(t, d)
      {
        assert PhaseOk(s, d) && ChanOk(s, d);
      }
    }
    hide PhaseOk, ChanOk, CallsOk;
    forall k | 0 <= k < |t.hist.taken|
      ensures t.hist.taken[k] in t.calls && ValueOk(t, k)
    {
      assert ValueOk(s, k);
    }
  }

  lemma TakeStep(s: State, c: CallId)
    requires RequestInv(s) && InPhase(s, c, Waiting)
    requires s.calls[c].chan.buf != [] || s.calls[c].chan.closes > 0
    ensures RequestInv(DoTakeResponse(s, c))
  {
    if s.calls[c].chan.buf == [] {
      ClosedChannelMeansClosed(s, c);
      assert PhaseOk(s, c);
      hide RequestInv;
      PhaseStep(s, c, Returned(ClosedError(s)));
    } else {
      TakeValue(s, c);
    }
  }

  // ---------------------------------------------------------------- steps of the read loop

  /** Loop positions between which the request side sees no difference. */
  predicate SameForRequests(k: Loop, l: Loop) {
    || k == l
    || ((k.Reading? || k.FanOut?) && (l.Reading? || l.FanOut?))
    || ((k.ClosingSubs? || k.Stopped?) && (l.ClosingSubs? || l.Stopped?))
  }

  /** Steps of the event side leave the request side alone. */
  lemma EventSideStep(s: State, t: State)
    requires RequestInv(s)
    requires t.client == s.client.(subs := t.client.subs)
    requires t.done == s.done && t.calls == s.calls && SameForRequests(s.loop, t.loop)
    requires t.hist == s.hist.(events := t.hist.events)
    ensures RequestInv(t)
  {
    SameCalls(s, t);
  }

  lemma PopHistory(s: State, r: Response)
    requires HistoryOk(s) && s.loop.Reading? && !s.client.closed && s.client.pending != []
    ensures HistoryOk(DoReadResponse(s, r))
    ensures s.client.pending[0] in s.calls && s.client.pending[0] !in s.hist.taken
    ensures s.client.pending[0] !in s.client.pending[1..]
  {
    var h, p := s.hist, s.client.pending;
    var n := |h.taken|;
    assert p == h.enqueued[n..];
    assert p[0] == h.enqueued[n] && p[0] in h.enqueued;
    assert h.taken + [p[0]] == h.enqueued[..n + 1];
    assert p[1..] == h.enqueued[n + 1..];
    assert Owed(DoReadResponse(s, r)) == p[1..];
    TakenNotOwed(s, p[0]);
  }

  lemma ReadResponseStep(s: State, r: Response)
    requires RequestInv(s) && s.loop.Reading?
    ensures RequestInv(DoReadResponse(s, r))
  {
    var t := DoReadResponse(s, r);
    if s.client.pending == [] {
      LostStep(s, r);
    } else {
      PopHistory(s, r);
      var c := s.client.pending[0];
      assert Owed(t) == Owed(s)[1..];
      TakenInCalls(s);
      assert forall d :: d in Owed(s) <==> d == c || d in Owed(t);
      hide HistoryOk;
      forall d | d in t.calls
        ensures PhaseOk(t, d) && ChanOk(t, d)
      {
        assert PhaseOk(s, d) && ChanOk(s, d);
      }
      forall k | 0 <= k < |t.hist.taken|
        ensures t.hist.taken[k] in t.calls && ValueOk(t, k)
      {
        if k < |s.hist.taken| { assert ValueOk(s, k); }
      }
    }
  }

  lemma LostStep(s: State, r: Response)
    requires RequestInv(s) && s.loop.Reading? && s.client.pending == []
    ensures RequestInv(DoReadResponse(s, r))
  {
    SameCalls(s, DoReadResponse(s, r));
  }

  /** The send in the read loop finds its channel open and empty: it neither panics nor blocks. */
  lemma DeliveryIsFree(s: State)
    requires RequestInv(s) && s.loop.Delivering?
    ensures s.loop.call in s.calls && s.calls[s.loop.call].chan == NEW_CHAN
  {
    TakenInCalls(s);
    assert ChanOk(s, s.loop.call);
  }

  lemma SendResponseStep(s: State)
    requires RequestInv(s) && s.loop.Delivering?
    ensures s.loop.call in s.calls && RequestInv(DoSendResponse(s)) && !DoSendResponse(s).panicked == !s.panicked
  {
    DeliveryIsFree(s);
    var c, t := s.loop.call, DoSendResponse(s);
    assert Owed(t) == Owed(s);
    TakenInCalls(s);
    TakenNotOwed(s, c);
    assert c in s.hist.taken;
    LastTaken(s);
    forall d | d in t.calls
      ensures PhaseOk(t, d) && ChanOk(t, d)
    {
      assert PhaseOk(s, d) && ChanOk(s, d);
    }
    forall k | 0 <= k < |t.hist.taken|
      ensures t.hist.taken[k] in t.calls && ValueOk(t, k)
    {
      assert ValueOk(s, k);
    }
  }

  lemma LastTaken(s: State)
    requires HistoryOk(s) && s.hist.taken != []
    ensures forall k :: 0 <= k < |s.hist.taken| - 1 ==> s.hist.taken[k] != s.hist.taken[|s.hist.taken| - 1]
  {
  }

  lemma ReadErrorStep(s: State, err: string, order: seq<Topic>)
    requires RequestInv(s) && s.loop.Reading?
    requires forall t :: t in order ==> t in s.client.subs
    ensures RequestInv(DoReadError(s, err, order))
  {
    SameCalls(s, DoReadError(s, err, order));
  }

  lemma SignalDoneStep(s: State)
    requires RequestInv(s) && s.loop.SignallingDone?
    ensures RequestInv(s.(done := true, loop := ClosePendingNext(s.loop.pend, s.loop.open)))
  {
    SameCalls(s, s.(done := true, loop := ClosePendingNext(s.loop.pend, s.loop.open)));
  }

  /** Teardown closes each owed channel once and finds it open. */
  lemma CloseIsFirst(s: State)
    requires RequestInv(s) && s.loop.ClosingPending?
    ensures s.loop.pend != [] && s.loop.pend[0] in s.calls && s.calls[s.loop.pend[0]].chan == NEW_CHAN
    ensures s.loop.pend[0] !in s.loop.pend[1..] && s.loop.pend[0] !in s.hist.taken
  {
    var c := s.loop.pend[0];
    TakenNotOwed(s, c);
    assert c in Owed(s);
    assert ChanOk(s, c);
    var base := |s.hist.enqueued| - |s.loop.pend|;
    assert forall k :: 0 <= k < |s.loop.pend| ==> s.loop.pend[k] == s.hist.enqueued[base + k];
  }

  lemma CloseResponseStep(s: State)
    requires RequestInv(s) && s.loop.ClosingPending?
    ensures s.loop.pend != [] && s.loop.pend[0] in s.calls && RequestInv(DoCloseResponse(s))
    ensures DoCloseResponse(s).panicked == s.panicked
  {
    CloseIsFirst(s);
    TakenNotOwed(s, s.loop.pend[0]);
    var c, t := s.loop.pend[0], DoCloseResponse(s);
    assert Owed(t) == Owed(s)[1..];
    assert forall d :: d in Owed(s) <==> d == c || d in Owed(t);
    TakenInCalls(s);
    forall d | d in t.calls
      ensures PhaseOk(t, d) && ChanOk(t, d)
    {
      assert PhaseOk(s, d) && ChanOk(s, d);
    }
    forall k | 0 <= k < |t.hist.taken|
      ensures t.hist.taken[k] in t.calls && ValueOk(t, k)
    {
      assert ValueOk(s, k);
    }
  }

  // ---------------------------------------------------------------- every step

  lemma PhaseOf(s: State, c: CallId)
    requires RequestInv(s) && c in s.calls
    ensures PhaseOk(s, c)
  {
  }

  /** Steps of roundTrip. */
  lemma RoundTripStepKeeps(s: State, e: Step)
    requires RequestInv(s) && Enabled(s, e)
    requires e.Enqueue? || e.Write? || e.WriteError? || e.TakeResponse? || e.Cancel? || e.TakeDone?
    ensures RequestInv(Apply(s, e))
  {
    PhaseOf(s, e.c);
    assert LoopOk(s);
    hide RequestInv;
    match e
    case Enqueue(c) =>
      if s.client.closed { PhaseStep(s, c, Returned(ClosedError(s))); } else { EnqueueStep(s, c); }
    case Write(c) => WriteStep(s, c);
    case WriteError(c) => PhaseStep(s, c, Returned(Failed(WriteFailed)));
    case TakeResponse(c) => TakeStep(s, c);
    case Cancel(c) => PhaseStep(s, c, Returned(Failed(Cancelled)));
    case TakeDone(c) => PhaseStep(s, c, Returned(ClosedError(s)));
  }

  /** Steps of Subscribe and Unsubscribe around it. */
  lemma SubscriberStepKeeps(s: State, e: Step)
    requires RequestInv(s) && Enabled(s, e)
    requires e.Subscribe? || e.Unsubscribe? || e.Finish? || e.RemoveSub? || e.CloseEvents?
    ensures RequestInv(Apply(s, e))
  {
    var t := Apply(s, e);
    if e.c in s.calls { PhaseOf(s, e.c); }
    hide RequestInv;
    match e
    case Subscribe(c, i, topic) =>
      NewCall(s, c, t.calls[c]);
      EventSideStep(s.(calls := t.calls), t);
    case Unsubscribe(c, via) => NewCall(s, c, t.calls[c]);
    case Finish(c) => PhaseStep(s, c, Finished(s.calls[c].phase.outcome));
    case RemoveSub(c) =>
      PhaseStep(s, c, Unlisted(s.calls[c].phase.outcome));
      EventSideStep(SetPhase(s, c, Unlisted(s.calls[c].phase.outcome)), t);
    case CloseEvents(c) =>
      PhaseStep(s, c, Finished(s.calls[c].phase.outcome));
      EventSideStep(SetPhase(s, c, Finished(s.calls[c].phase.outcome)), t);
  }

  lemma StepKeepsRequestInv(s: State, e: Step)
    requires RequestInv(s) && Enabled(s, e)
    ensures RequestInv(Apply(s, e))
  {
    hide RequestInv;
    var t := Apply(s, e);
    match e
    case Consume(i) => EventSideStep(s, t);
    case ReadEvent(ev) => EventSideStep(s, t);
    case SendEvent => EventSideStep(s, t);
    case ReadResponse(r) => ReadResponseStep(s, r);
    case SendResponse => SendResponseStep(s);
    case ReadOther =>
    case ReadError(err, order) =>
      IteratedTopics(order, s.client.subs);
      ReadErrorStep(s, err, order);
    case SignalDone => SignalDoneStep(s);
    case CloseResponse => CloseResponseStep(s);
    case CloseSub => EventSideStep(s, t);
    case Subscribe(_, _, _) => SubscriberStepKeeps(s, e);
    case Unsubscribe(_, _) => SubscriberStepKeeps(s, e);
    case Finish(_) => SubscriberStepKeeps(s, e);
    case RemoveSub(_) => SubscriberStepKeeps(s, e);
    case CloseEvents(_) => SubscriberStepKeeps(s, e);
    case _ => RoundTripStepKeeps(s, e);
  }
}
