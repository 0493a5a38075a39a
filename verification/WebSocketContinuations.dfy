/** What may still follow a run of the WebSocket client: when its answers are safe, and that teardown comes to an
    end. */
module WebSocketContinuations {
  import opened WebSocket
  import opened WebSocketRequests
  import opened WebSocketTheorems
  import opened WebSocketCorrelation

  const OK: Response := Response("Subscribed", "sub-1", "", "")

  // ---------------------------------------------------------------- growing runs

  ghost function Last(states: seq<State>): State
    requires states != []
  {
    states[|states| - 1]
  }

  /** A run, and a server that has behaved throughout it. */
  ghost predicate FifoRun(states: seq<State>, steps: seq<Step>) {
    IsRun(states, steps) && FifoServer(states, steps)
  }

  /** A run grows by any enabled step; the server has still behaved if the step is no response out of turn. */
  lemma Extend(states: seq<State>, steps: seq<Step>, e: Step) returns (states': seq<State>, steps': seq<Step>)
    requires IsRun(states, steps) && states != [] && Enabled(Last(states), e)
    ensures IsRun(states', steps') && states' != [] && Last(states') == Apply(Last(states), e)
    ensures steps' == steps + [e] && states <= states'
    ensures
      FifoServer(states, steps)
      && (e.ReadResponse? ==> |Last(states).hist.taken| + Last(states).hist.lost < |Last(states).hist.written|)
      ==> FifoServer(states', steps')
  {
    hide Apply, Enabled;
    states', steps' := states + [Apply(Last(states), e)], steps + [e];
    forall k | 0 <= k < |steps'|
      ensures Enabled(states'[k], steps'[k]) && states'[k + 1] == Apply(states'[k], steps'[k])
    {
    }
  }

  lemma Grow(states: seq<State>, steps: seq<Step>, e: Step) returns (states': seq<State>, steps': seq<Step>)
    requires FifoRun(states, steps) && states != [] && Enabled(Last(states), e)
    requires e.ReadResponse? ==> |Last(states).hist.taken| + Last(states).hist.lost < |Last(states).hist.written|
    ensures FifoRun(states', steps') && states' != [] && Last(states') == Apply(Last(states), e)
    ensures steps' == steps + [e] && states <= states'
  {
    hide IsRun, FifoServer, Apply, Enabled;
    states', steps' := Extend(states, steps, e);
  }

  lemma LastInv(states: seq<State>, steps: seq<Step>)
    requires IsRun(states, steps)
    ensures |states| == |steps| + 1 && Inv(Last(states)) && Reachable(Last(states))
  {
    hide Inv;
    RunInv(states, steps, |steps|);
  }

  // ---------------------------------------------------------------- the loop comes back to the socket

  /** The connection is up and no send is bound to panic. */
  ghost predicate Healthy(s: State) {
    !s.client.closed && !s.panicked && !Doomed(s)
  }

  function LoopWork(l: Loop): nat {
    match l
    case FanOut(_, rest) => |rest|
    case Delivering(_, _) => 1
    case _ => 0
  }

  lemma HealthyLoop(s: State)
    requires Inv(s) && Healthy(s)
    ensures s.loop.Reading? || s.loop.FanOut? || s.loop.Delivering?
  {
    assert LoopOk(s);
  }

  lemma LoopStepMoves(s: State, e: Step)
    requires Enabled(s, e) && (e.SendEvent? || e.SendResponse?) && !Apply(s, e).panicked
    ensures var t := Apply(s, e);
      t.client == s.client && t.hist == s.hist && LoopWork(t.loop) < LoopWork(s.loop)
  {
  }

  lemma LoopStepStaysHealthy(s: State, e: Step)
    requires Inv(s) && Healthy(s) && Enabled(s, e) && (e.SendEvent? || e.SendResponse?)
    ensures Healthy(Apply(s, e)) && Apply(s, e).hist == s.hist && LoopWork(Apply(s, e).loop) < LoopWork(s.loop)
  {
    hide Inv, Doomed, Apply, Enabled;
    if Apply(s, e).panicked { PanicComesFromDoom(s, e); }
    if Doomed(Apply(s, e)) { DoomBegins(s, e); }
    LoopStepMoves(s, e);
  }

  /** The read loop of a healthy client can finish what it is doing, by its own steps alone, and read again. */
  lemma {:induction false} Settle(states: seq<State>, steps: seq<Step>) returns (states': seq<State>, steps': seq<Step>)
    requires IsRun(states, steps) && states != [] && Healthy(Last(states))
    ensures IsRun(states', steps') && states <= states' && steps <= steps' && states' != []
    ensures forall k :: |steps| <= k < |steps'| ==> steps'[k].SendEvent? || steps'[k].SendResponse?
    ensures FifoServer(states, steps) ==> FifoServer(states', steps')
    ensures var t := Last(states'); Healthy(t) && t.loop.Reading? && t.hist == Last(states).hist
    decreases LoopWork(Last(states).loop)
  {
    var s := Last(states);
    LastInv(states, steps);
    HealthyLoop(s);
    hide IsRun, FifoServer, Inv, Healthy, Apply, Enabled, Reachable;
    if s.loop.Reading? {
      states', steps' := states, steps;
    } else {
      var e := NextOfLoop(s.loop).value;
      EnabledWhenHealthy(s);
      LoopStepStaysHealthy(s, e);
      states', steps' := Extend(states, steps, e);
      states', steps' := Settle(states', steps');
    }
  }

  lemma EnabledWhenHealthy(s: State)
    requires Reachable(s) && Healthy(s) && (s.loop.FanOut? || s.loop.Delivering?)
    ensures Enabled(s, NextOfLoop(s.loop).value)
  {
    hide Reachable, Doomed, Enabled;
    LoopNeverBlocks(s);
  }

  // ---------------------------------------------------------------- doom ends in the panic

  lemma SendMovesOn(s: State)
    requires Enabled(s, SendEvent) && !Apply(s, SendEvent).panicked
    ensures LoopWork(Apply(s, SendEvent).loop) == LoopWork(s.loop) - 1
  {
  }

  lemma DoomStep(s: State)
    requires Doomed(s) && Enabled(s, SendEvent)
    ensures var t := Apply(s, SendEvent); t.panicked || (Doomed(t) && LoopWork(t.loop) == LoopWork(s.loop) - 1)
  {
    hide Apply, Enabled, Doomed;
    DoomLasts(s, SendEvent);
    if !Apply(s, SendEvent).panicked { SendMovesOn(s); }
  }

  lemma DoomedSends(s: State)
    requires Reachable(s) && Doomed(s) && !s.panicked
    ensures s.loop.FanOut? && Enabled(s, SendEvent)
  {
    hide Reachable, Enabled;
    LoopNeverBlocks(s);
  }

  /** A doomed client is bound to panic: the read loop has nothing to do but its sends, and within as many as are left
      they end in the panic. */
  lemma {:induction false} DoomEndsInPanic(states: seq<State>, steps: seq<Step>)
    returns (states': seq<State>, steps': seq<Step>)
    requires IsRun(states, steps) && states != [] && Doomed(Last(states)) && !Last(states).panicked
    ensures IsRun(states', steps') && states <= states' && steps <= steps' && states' != []
    ensures forall k :: |steps| <= k < |steps'| ==> steps'[k].SendEvent?
    ensures |steps'| <= |steps| + LoopWork(Last(states).loop)
    ensures Last(states').panicked
    decreases LoopWork(Last(states).loop)
  {
    var s := Last(states);
    hide IsRun, FifoServer, Inv, Doomed, Apply, Enabled, Reachable;
    LastInv(states, steps);
    DoomedSends(s);
    DoomStep(s);
    states', steps' := Extend(states, steps, SendEvent);
    if !Last(states').panicked { states', steps' := DoomEndsInPanic(states', steps'); }
  }

  // ---------------------------------------------------------------- when answers are safe

  lemma ReadStaysHealthy(s: State, r: Response)
    requires Inv(s) && Healthy(s) && s.loop.Reading? && |s.hist.taken| < |s.hist.written|
    ensures Enabled(s, ReadResponse(r))
    ensures var t := Apply(s, ReadResponse(r));
      && Healthy(t) && |t.hist.taken| == |s.hist.taken| + 1
      && t.hist.written == s.hist.written && t.hist.enqueued == s.hist.enqueued
  {
    hide Inv;
    SlotTaken(s, r);
  }

  /** The server may go on answering until the k-th request written is answered. */
  lemma {:induction false} AnswerThrough(states: seq<State>, steps: seq<Step>, k: nat)
    returns (states': seq<State>, steps': seq<Step>)
    requires FifoRun(states, steps) && states != [] && Healthy(Last(states)) && k < |Last(states).hist.written|
    ensures FifoRun(states', steps') && states <= states' && steps <= steps' && states' != []
    ensures var h, g := Last(states).hist, Last(states').hist;
      k < |g.taken| && g.written == h.written && g.enqueued == h.enqueued
    decreases k - |Last(states).hist.taken|
  {
    if k < |Last(states).hist.taken| {
      states', steps' := states, steps;
    } else {
      hide IsRun, FifoServer, Healthy, Inv, Apply, Enabled, Reachable;
      states', steps' := Settle(states, steps);
      LastInv(states', steps');
      ReadStaysHealthy(Last(states'), OK);
      NothingLost(states', steps');
      hide FifoRun;
      states', steps' := Grow(states', steps', ReadResponse(OK));
      states', steps' := AnswerThrough(states', steps', k);
    }
  }

  lemma NothingLost(states: seq<State>, steps: seq<Step>)
    requires FifoRun(states, steps) && states != []
    ensures Last(states).hist.lost == 0
  {
    NoResponseLost(states, steps, |steps|);
  }

  lemma {:induction false} EnqueuedOnlyGrows(states: seq<State>, steps: seq<Step>, j: nat, k: nat)
    requires IsRun(states, steps) && j <= k <= |steps|
    ensures states[j].hist.enqueued <= states[k].hist.enqueued
    decreases k
  {
    hide Apply, Enabled;
    if j < k {
      EnqueuedOnlyGrows(states, steps, j, k - 1);
      RunStep(states, steps, k - 1);
      hide IsRun;
      var s, e := states[k - 1], steps[k - 1];
      if e.Write? { WriteAppends(s, e); } else { OnlyWriteWrites(s, e); }
    }
  }

  ghost predicate Continues(states: seq<State>, steps: seq<Step>, states': seq<State>, steps': seq<Step>) {
    states != [] && states <= states' && steps <= steps'
  }

  /** However the run goes on, with whatever is still enqueued and written, each request written so far gets the
      response that answers it and no other, if it gets one. */
  ghost predicate AnswersAreSafe(states: seq<State>, steps: seq<Step>)
    requires states != []
  {
    forall states', steps' ::
      FifoRun(states', steps') && Continues(states, steps, states', steps') ==>
        AnswersMatch(Last(states).hist, Last(states').hist)
  }

  /** The responses g records to the requests written by h went to those requests. */
  ghost predicate AnswersMatch(h: History, g: History) {
    forall k :: 0 <= k < |g.taken| && k < |h.written| ==> g.taken[k] == h.written[k]
  }

  lemma TakenFollowsEnqueued(states: seq<State>, steps: seq<Step>)
    requires FifoRun(states, steps) && states != []
    ensures var h := Last(states).hist;
      h.taken <= h.enqueued && |h.taken| <= |h.written| <= |h.enqueued|
  {
    hide Apply, Enabled, Inv;
    CountsFit(states, steps);
    LastInv(states, steps);
    hide IsRun, Reachable, FifoServer;
    InvIncludesRequests(Last(states));
    assert HistoryOk(Last(states));
  }

  lemma SafeWhenInOrder(states: seq<State>, steps: seq<Step>, states': seq<State>, steps': seq<Step>)
    requires FifoRun(states, steps) && FifoRun(states', steps') && Continues(states, steps, states', steps')
    requires Last(states).hist.written <= Last(states).hist.enqueued
    ensures AnswersMatch(Last(states).hist, Last(states').hist)
  {
    hide Apply, Enabled;
    TakenFollowsEnqueued(states', steps');
    EnqueuedOnlyGrows(states', steps', |steps|, |steps'|);
    assert states'[|steps|] == Last(states);
  }

  lemma SafeOnlyInOrder(states: seq<State>, steps: seq<Step>)
    requires FifoRun(states, steps) && states != [] && Healthy(Last(states)) && AnswersAreSafe(states, steps)
    ensures Last(states).hist.written <= Last(states).hist.enqueued
  {
    hide FifoRun, Healthy;
    var h := Last(states).hist;
    TakenFollowsEnqueued(states, steps);
    forall k | 0 <= k < |h.written|
      ensures h.written[k] == h.enqueued[k]
    {
      var states', steps' := AnswerThrough(states, steps, k);
      assert Continues(states, steps, states', steps');
      TakenFollowsEnqueued(states', steps');
    }
  }

  lemma UnhealthyLoop(s: State)
    requires Inv(s) && !Healthy(s) && !s.panicked
    ensures !s.loop.Reading?
  {
    assert LoopOk(s);
    DoomedInFanOut(s);
    hide Inv, Doomed;
  }

  lemma OnlyReadingAnswers(s: State, e: Step)
    requires Enabled(s, e) && !s.loop.Reading?
    ensures !e.ReadResponse? && !s.panicked
  {
  }

  lemma StaysUnhealthy(s: State, e: Step)
    requires Inv(s) && Enabled(s, e) && !s.panicked && !Healthy(s)
    ensures !Healthy(Apply(s, e))
  {
    hide Inv, Apply, Enabled, Doomed;
    if s.client.closed { StaysClosed(s, e); }
    if Doomed(s) { DoomLasts(s, e); }
  }

  /** A client that is closed, has panicked or is bound to takes no further response. */
  lemma UnhealthyStep(s: State, e: Step)
    requires Inv(s) && Enabled(s, e) && !Healthy(s)
    ensures !Healthy(Apply(s, e)) && Apply(s, e).hist.taken == s.hist.taken
  {
    hide Inv, Apply, Enabled, Healthy;
    EnabledAlive(s, e);
    UnhealthyLoop(s);
    OnlyReadingAnswers(s, e);
    StaysUnhealthy(s, e);
    OthersKeepCounts(s, e);
  }

  lemma DoomedInFanOut(s: State)
    ensures Doomed(s) ==> s.loop.FanOut?
  {
  }

  lemma {:induction false} NothingTakenSince(states: seq<State>, steps: seq<Step>, j: nat, k: nat)
    requires IsRun(states, steps) && j <= k <= |steps| && !Healthy(states[j])
    ensures !Healthy(states[k]) && states[k].hist.taken == states[j].hist.taken
    decreases k
  {
    hide Apply, Enabled, Inv, Healthy;
    if j < k {
      NothingTakenSince(states, steps, j, k - 1);
      RunInv(states, steps, k - 1);
      RunStep(states, steps, k - 1);
      hide IsRun;
      UnhealthyStep(states[k - 1], steps[k - 1]);
    }
  }

  lemma SafeWhenOver(states: seq<State>, steps: seq<Step>, states': seq<State>, steps': seq<Step>)
    requires FifoRun(states, steps) && FifoRun(states', steps') && Continues(states, steps, states', steps')
    requires !Healthy(Last(states)) && Last(states).hist.taken <= Last(states).hist.written
    ensures AnswersMatch(Last(states).hist, Last(states').hist)
  {
    hide Apply, Enabled, Healthy;
    assert states'[|steps|] == Last(states);
    NothingTakenSince(states', steps', |steps|, |steps'|);
  }

  lemma SafeSoFar(states: seq<State>, steps: seq<Step>)
    requires FifoRun(states, steps) && states != [] && AnswersAreSafe(states, steps)
    ensures Last(states).hist.taken <= Last(states).hist.written
  {
    TakenFollowsEnqueued(states, steps);
    hide FifoRun;
    assert Continues(states, steps, states, steps);
  }

  /** Whatever follows, the requests written so far get their own answers exactly when, on a connection that can still
      read one, they were written in the order their channels were enqueued with none left out; on one that cannot,
      when the answers already read went to their requests. */
  lemma AnswersSafeIffWrittenInOrder(states: seq<State>, steps: seq<Step>)
    requires FifoRun(states, steps) && states != []
    ensures var s := Last(states);
      AnswersAreSafe(states, steps) <==>
        if Healthy(s) then s.hist.written <= s.hist.enqueued else s.hist.taken <= s.hist.written
  {
    hide FifoRun, Healthy, AnswersMatch;
    var s := Last(states);
    if AnswersAreSafe(states, steps) {
      if Healthy(s) { SafeOnlyInOrder(states, steps); } else { SafeSoFar(states, steps); }
    } else {
      var states', steps' :| FifoRun(states', steps') && Continues(states, steps, states', steps')
        && !AnswersMatch(s.hist, Last(states').hist);
      if Healthy(s) && s.hist.written <= s.hist.enqueued { SafeWhenInOrder(states, steps, states', steps'); }
      if !Healthy(s) && s.hist.taken <= s.hist.written { SafeWhenOver(states, steps, states', steps'); }
    }
  }

  // ---------------------------------------------------------------- teardown ends

  /** The steps teardown has still to take: signal done, then one close per owed call and per subscription. */
  function Left(l: Loop): nat {
    match l
    case SignallingDone(pend, open) => 1 + |pend| + |open|
    case ClosingPending(pend, open) => |pend| + |open|
    case ClosingSubs(open) => |open|
    case _ => 0
  }

  predicate OfTeardown(e: Step) {
    e.SignalDone? || e.CloseResponse? || e.CloseSub?
  }

  function Teardowns(steps: seq<Step>): nat {
    if steps == [] then 0
    else Teardowns(steps[..|steps| - 1]) + if OfTeardown(steps[|steps| - 1]) then 1 else 0
  }

  lemma CallersLeaveTeardown(s: State, e: Step)
    requires Enabled(s, e) && TearingDown(s.loop) && !OfTeardown(e)
    ensures Apply(s, e).loop == s.loop
  {
  }

  lemma TeardownMoves(s: State, e: Step)
    requires Enabled(s, e) && OfTeardown(e) && !Apply(s, e).panicked
    ensures Left(s.loop) == Left(Apply(s, e).loop) + 1
  {
  }

  lemma TeardownStep(s: State, e: Step)
    requires Inv(s) && s.client.closed && Enabled(s, e)
    ensures Left(s.loop) == Left(Apply(s, e).loop) + (if OfTeardown(e) then 1 else 0)
  {
    assert LoopOk(s);
    hide Apply, Enabled, Inv, LoopOk, Doomed;
    if OfTeardown(e) {
      if Apply(s, e).panicked { PanicComesFromDoom(s, e); }
      TeardownMoves(s, e);
    } else {
      CallersLeaveTeardown(s, e);
    }
  }

  /** Whatever the callers do meanwhile, each step of teardown brings it one nearer its end: from the moment the
      connection is closed it takes exactly Left steps, and none can be added to them. */
  lemma {:induction false} TeardownCountsDown(states: seq<State>, steps: seq<Step>, j: nat, k: nat)
    requires IsRun(states, steps) && j <= k <= |steps| && states[j].client.closed
    ensures Left(states[j].loop) == Left(states[k].loop) + Teardowns(steps[j..k])
    decreases k
  {
    hide Apply, Enabled, Inv;
    if j < k {
      TeardownCountsDown(states, steps, j, k - 1);
      RunInv(states, steps, k - 1);
      RunStep(states, steps, k - 1);
      ClosedForGood(states, steps, j, k - 1);
      hide IsRun;
      TeardownStep(states[k - 1], steps[k - 1]);
      assert steps[j..k][..k - 1 - j] == steps[j..k - 1];
    }
  }

  /** When teardown has taken all its steps, the loop has stopped and done is signalled. */
  lemma StoppedWhenNothingLeft(s: State)
    requires Reachable(s) && s.client.closed
    ensures Left(s.loop) == 0 <==> s.loop.Stopped?
    ensures Left(s.loop) == 0 ==> s.done
  {
    hide Reachable;
    ReachableInv(s);
    assert LoopOk(s);
    LoopTargets(s);
    hide Inv;
  }

  // ---------------------------------------------------------------- nobody is left behind

  lemma SignalledWaiterReturns(s: State, c: CallId)
    requires !s.panicked && s.done && InPhase(s, c, Waiting)
    ensures Enabled(s, TakeDone(c))
    ensures var t := Apply(s, TakeDone(c));
      InPhase(t, c, Returned(Failed(ConnClosed(s.client.readErr))))
  {
  }

  lemma SignalDoneKeepsWaiter(s: State, c: CallId)
    requires Enabled(s, SignalDone) && InPhase(s, c, Waiting)
    ensures var t := Apply(s, SignalDone); t.done && !t.panicked && InPhase(t, c, Waiting) && t.client == s.client
  {
  }

  lemma ClosedMeansDone(s: State)
    requires Inv(s) && s.client.closed && !s.panicked
    ensures s.done || Enabled(s, SignalDone)
  {
    assert LoopOk(s);
    hide Inv;
  }

  /** Once the connection has ended, every waiting call returns with the read error after at most one step of the read
      loop and one of its own. */
  lemma WaiterReturns(states: seq<State>, steps: seq<Step>, c: CallId)
    returns (states': seq<State>, steps': seq<Step>)
    requires IsRun(states, steps) && states != []
    requires var s := Last(states); s.client.closed && !s.panicked && InPhase(s, c, Waiting)
    ensures IsRun(states', steps') && Continues(states, steps, states', steps') && states' != []
    ensures steps' == steps + [TakeDone(c)] || steps' == steps + [SignalDone, TakeDone(c)]
    ensures InPhase(Last(states'), c, Returned(Failed(ConnClosed(Last(states).client.readErr))))
  {
    hide IsRun, FifoServer, Inv, Reachable, Apply, Enabled, InPhase;
    LastInv(states, steps);
    ClosedMeansDone(Last(states));
    if Last(states).done {
      states', steps' := SignalledReturn(states, steps, c);
    } else {
      states', steps' := SignalAndReturn(states, steps, c);
    }
  }

  lemma SignalAndReturn(states: seq<State>, steps: seq<Step>, c: CallId)
    returns (states': seq<State>, steps': seq<Step>)
    requires IsRun(states, steps) && states != []
    requires Enabled(Last(states), SignalDone) && InPhase(Last(states), c, Waiting)
    ensures IsRun(states', steps') && states <= states' && steps' == steps + [SignalDone, TakeDone(c)] && states' != []
    ensures InPhase(Last(states'), c, Returned(Failed(ConnClosed(Last(states).client.readErr))))
  {
    hide IsRun, FifoServer, Apply, Enabled, InPhase;
    SignalDoneKeepsWaiter(Last(states), c);
    states', steps' := Extend(states, steps, SignalDone);
    states', steps' := SignalledReturn(states', steps', c);
    assert (steps + [SignalDone]) + [TakeDone(c)] == steps + [SignalDone, TakeDone(c)];
  }

  lemma SignalledReturn(states: seq<State>, steps: seq<Step>, c: CallId)
    returns (states': seq<State>, steps': seq<Step>)
    requires IsRun(states, steps) && states != []
    requires var s := Last(states); s.done && !s.panicked && InPhase(s, c, Waiting)
    ensures IsRun(states', steps') && states <= states' && steps' == steps + [TakeDone(c)] && states' != []
    ensures InPhase(Last(states'), c, Returned(Failed(ConnClosed(Last(states).client.readErr))))
  {
    hide IsRun, FifoServer, Apply, Enabled, InPhase;
    SignalledWaiterReturns(Last(states), c);
    states', steps' := Extend(states, steps, TakeDone(c));
  }

  /** No caller and no part of the read loop can move by itself: cancellations, new calls, consumers and the network
      aside, nothing is enabled. */
  ghost predicate Quiescent(s: State) {
    && (NextOfLoop(s.loop).Some? ==> !Enabled(s, NextOfLoop(s.loop).value))
    && forall c :: c in s.calls ==> CallRests(s, c)
  }

  ghost predicate CallRests(s: State, c: CallId) {
    && !Enabled(s, Enqueue(c)) && !Enabled(s, Write(c)) && !Enabled(s, TakeResponse(c)) && !Enabled(s, TakeDone(c))
    && !Enabled(s, Finish(c)) && !Enabled(s, RemoveSub(c)) && !Enabled(s, CloseEvents(c))
  }

  lemma RestingCallFinished(s: State, c: CallId)
    requires Reachable(s) && !s.panicked && s.done && c in s.calls && CallRests(s, c)
    ensures s.calls[c].phase.Finished?
  {
    hide Reachable, Enabled;
    CallsMoveOn(s, c);
    if s.calls[c].phase.Waiting? { WaitersAreCovered(s, c); }
  }

  /** There is no deadlock after the end of the connection: when nothing can move, teardown is over, every call has
      returned to its caller and every subscription's channel is closed exactly once. */
  lemma NothingStuckAfterClose(s: State)
    requires Reachable(s) && s.client.closed && !s.panicked && Quiescent(s)
    ensures s.loop.Stopped? && s.done
    ensures forall c :: c in s.calls ==> s.calls[c].phase.Finished?
    ensures forall i :: i in s.subs ==> s.subs[i].closes == 1
  {
    hide Reachable, Enabled, CallRests;
    if NextOfLoop(s.loop).Some? { LoopNeverBlocks(s); }
    ClosedLoop(s);
    forall c | c in s.calls
      ensures s.calls[c].phase.Finished?
    {
      RestingCallFinished(s, c);
    }
    forall i | i in s.subs
      ensures s.subs[i].closes == 1
    {
      AllClosedAtTheEnd(s, i);
    }
  }

  lemma ClosedLoop(s: State)
    requires Reachable(s) && s.client.closed
    ensures TearingDown(s.loop) && (s.loop.Stopped? ==> s.done)
  {
    hide Reachable;
    ReachableInv(s);
    assert LoopOk(s);
  }
}
