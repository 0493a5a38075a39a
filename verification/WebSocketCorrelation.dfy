/** Which request a response reaches: the FIFO correlation of the WebSocket client, and when it is right. */
module WebSocketCorrelation {
  import opened Keys
  import opened WebSocket
  import opened WebSocketRequests
  import opened WebSocketTheorems

  // ---------------------------------------------------------------- hypotheses on the environment

  /** The server answers only requests that were written, each once and in the order they were written: the n-th
      response read is the answer to the n-th request written. */
  ghost predicate FifoServer(states: seq<State>, steps: seq<Step>) {
    |states| == |steps| + 1 &&
    forall k :: 0 <= k < |steps| && steps[k].ReadResponse? ==>
      |states[k].hist.taken| + states[k].hist.lost < |states[k].hist.written|
  }

  /** Frames are written in the order their channels were enqueued, none left out. */
  ghost predicate WritesInOrder(states: seq<State>, steps: seq<Step>) {
    |states| == |steps| + 1 &&
    forall k :: 0 <= k < |steps| && steps[k].Write? ==>
      var h := states[k].hist; |h.written| < |h.enqueued| && h.enqueued[|h.written|] == steps[k].c
  }

  // ---------------------------------------------------------------- who holds a response

  /** r has reached c: it is on its way into c's channel, or in it, or c has returned it. */
  predicate Holds(s: State, c: CallId, r: Response) {
    && c in s.calls
    && ( || (DeliveringTo(s, c) && s.loop.resp == r)
         || s.calls[c].chan.buf == [r]
         || (GotAnswer(s.calls[c].phase) && s.calls[c].phase.outcome.resp == r))
  }

  /** The k-th response read went to the k-th call enqueued, and a call that returned a response returned the one read
      for it, in every interleaving and whoever cancelled. */
  lemma ResponsesGoInEnqueueOrder(s: State)
    requires Reachable(s)
    ensures |s.hist.taken| == |s.hist.answers| && s.hist.taken <= s.hist.enqueued
    ensures forall k :: 0 <= k < |s.hist.taken| ==> Holds(s, s.hist.taken[k], s.hist.answers[k])
    ensures forall c :: c in s.calls && GotAnswer(s.calls[c].phase) ==>
      exists k :: 0 <= k < |s.hist.taken| && s.hist.taken[k] == c && s.hist.answers[k] == s.calls[c].phase.outcome.resp
  {
    hide Reachable;
    InvRequests(s);
    TakenInCalls(s);
    forall k | 0 <= k < |s.hist.taken|
      ensures Holds(s, s.hist.taken[k], s.hist.answers[k])
    {
      HoldsAt(s, k);
    }
    forall c | c in s.calls && GotAnswer(s.calls[c].phase)
      ensures exists k ::
        0 <= k < |s.hist.taken| && s.hist.taken[k] == c && s.hist.answers[k] == s.calls[c].phase.outcome.resp
    {
      assert ChanOk(s, c);
      var k: nat :| k < |s.hist.taken| && s.hist.taken[k] == c;
      assert ValueOk(s, k);
    }
  }

  lemma InvRequests(s: State)
    requires Reachable(s)
    ensures RequestInv(s)
  {
    hide Reachable;
    ReachableInv(s);
  }

  lemma HoldsAt(s: State, k: nat)
    requires RequestInv(s) && k < |s.hist.taken| == |s.hist.answers|
    ensures Holds(s, s.hist.taken[k], s.hist.answers[k])
  {
    TakenInCalls(s);
    assert ValueOk(s, k);
    LastTaken(s);
  }

  // ---------------------------------------------------------------- counting under a FIFO server

  lemma WrittenFitsEnqueued(s: State)
    requires RequestInv(s)
    ensures |s.hist.written| <= |s.hist.enqueued|
  {
    DistinctCardinality(s.hist.written);
    DistinctCardinality(s.hist.enqueued);
    hide RequestInv;
    SubsetCardinality(Elements(s.hist.written), Elements(s.hist.enqueued));
  }

  lemma OthersKeepCounts(s: State, e: Step)
    requires Enabled(s, e) && !e.ReadResponse?
    ensures var h, g := s.hist, Apply(s, e).hist;
      g.taken == h.taken && g.lost == h.lost && |h.written| <= |g.written|
  {
  }

  /** With a FIFO server no response ever finds the queue empty. */
  lemma ResponseFindsItsSlot(s: State, r: Response)
    requires RequestInv(s) && s.loop.Reading? && |s.hist.taken| < |s.hist.written|
    ensures s.client.pending != []
  {
    WrittenFitsEnqueued(s);
    assert LoopOk(s) && HistoryOk(s);
  }

  lemma {:induction false} NoResponseLost(states: seq<State>, steps: seq<Step>, n: nat)
    requires IsRun(states, steps) && FifoServer(states, steps) && n <= |steps|
    ensures states[n].hist.lost == 0 && |states[n].hist.taken| <= |states[n].hist.written|
  {
    hide Apply, Enabled, Inv;
    if n > 0 {
      NoResponseLost(states, steps, n - 1);
      RunInv(states, steps, n - 1);
      RunStep(states, steps, n - 1);
      hide IsRun;
      var s, e := states[n - 1], steps[n - 1];
      if e.ReadResponse? { SlotTaken(s, e.resp); } else { OthersKeepCounts(s, e); }
    }
  }

  lemma SlotTaken(s: State, r: Response)
    requires Inv(s) && Enabled(s, ReadResponse(r)) && |s.hist.taken| < |s.hist.written|
    ensures var g := Apply(s, ReadResponse(r)).hist;
      g.lost == s.hist.lost && |g.taken| == |s.hist.taken| + 1 && g.written == s.hist.written
  {
    hide Inv;
    InvIncludesRequests(s);
    ResponseFindsItsSlot(s, r);
    hide RequestInv;
  }

  // ---------------------------------------------------------------- the theorem, and exactly when it holds

  lemma CountsFit(states: seq<State>, steps: seq<Step>)
    requires IsRun(states, steps) && FifoServer(states, steps)
    ensures var h := states[|steps|].hist;
      && h.lost == 0 && |h.taken| == |h.answers| && |h.taken| <= |h.written| <= |h.enqueued|
      && h.taken <= h.enqueued
  {
    hide Apply, Enabled;
    NoResponseLost(states, steps, |steps|);
    RunInv(states, steps, |steps|);
    hide IsRun, FifoServer;
    var s := states[|steps|];
    assert RequestInv(s);
    hide Inv;
    WrittenFitsEnqueued(s);
    assert HistoryOk(s);
  }

  /** Only the call a response was read for ever holds it. */
  lemma HeldWasTaken(s: State, c: CallId, r: Response) returns (k: nat)
    requires RequestInv(s) && Holds(s, c, r)
    ensures k < |s.hist.taken| == |s.hist.answers| && s.hist.taken[k] == c && s.hist.answers[k] == r
  {
    TakenInCalls(s);
    assert LoopOk(s) && ChanOk(s, c);
    if DeliveringTo(s, c) && s.loop.resp == r {
      k := |s.hist.taken| - 1;
    } else {
      assert c in s.hist.taken;
      k :| k < |s.hist.taken| && s.hist.taken[k] == c;
      assert ValueOk(s, k);
    }
  }

  lemma HeldOnlyInOrder(s: State, k: nat)
    requires RequestInv(s) && Distinct(s.hist.answers) && k < |s.hist.taken| <= |s.hist.written|
    requires |s.hist.taken| == |s.hist.answers| && Holds(s, s.hist.written[k], s.hist.answers[k])
    ensures s.hist.taken[k] == s.hist.written[k]
  {
    hide RequestInv, Holds;
    var j := HeldWasTaken(s, s.hist.written[k], s.hist.answers[k]);
  }

  /** With a FIFO server, n responses having been read, none was lost.  If the first n writes were in enqueue order,
      each of the n requests written holds the response that answers it; and if no two responses are alike, only then.
      */
  lemma CorrelatedIffWritesInOrder(states: seq<State>, steps: seq<Step>)
    requires IsRun(states, steps) && FifoServer(states, steps)
    ensures var s := states[|steps|]; var h := s.hist; var n := |h.taken|;
      && h.lost == 0 && n == |h.answers| && n <= |h.written| <= |h.enqueued|
      && (h.written[..n] == h.enqueued[..n] ==>
        forall k :: 0 <= k < n ==> Holds(s, h.written[k], h.answers[k]))
      && (Distinct(h.answers) && (forall k :: 0 <= k < n ==> Holds(s, h.written[k], h.answers[k])) ==>
        h.written[..n] == h.enqueued[..n])
  {
    hide Apply, Enabled, Holds;
    CountsFit(states, steps);
    RunInv(states, steps, |steps|);
    hide IsRun, FifoServer;
    var s := states[|steps|];
    var h, n := s.hist, |s.hist.taken|;
    InvIncludesRequests(s);
    hide Inv, RequestInv;
    if h.written[..n] == h.enqueued[..n] {
      forall k | 0 <= k < n
        ensures Holds(s, h.written[k], h.answers[k])
      {
        HoldsAt(s, k);
        assert h.written[..n][k] == h.enqueued[..n][k];
      }
    }
    if Distinct(h.answers) && forall k :: 0 <= k < n ==> Holds(s, h.written[k], h.answers[k]) {
      forall k | 0 <= k < n
        ensures h.written[k] == h.enqueued[k]
      {
        HeldOnlyInOrder(s, k);
      }
    }
  }

  lemma OnlyWriteWrites(s: State, e: Step)
    requires Enabled(s, e) && !e.Write?
    ensures Apply(s, e).hist.written == s.hist.written && s.hist.enqueued <= Apply(s, e).hist.enqueued
  {
  }

  lemma WriteAppends(s: State, e: Step)
    requires Enabled(s, e) && e.Write?
    ensures Apply(s, e).hist.written == s.hist.written + [e.c] && Apply(s, e).hist.enqueued == s.hist.enqueued
  {
  }

  lemma {:induction false} WrittenIsPrefix(states: seq<State>, steps: seq<Step>, n: nat)
    requires IsRun(states, steps) && WritesInOrder(states, steps) && n <= |steps|
    ensures states[n].hist.written <= states[n].hist.enqueued
  {
    hide Apply, Enabled;
    if n > 0 {
      WrittenIsPrefix(states, steps, n - 1);
      RunStep(states, steps, n - 1);
      hide IsRun;
      var s, e := states[n - 1], steps[n - 1];
      if e.Write? { WriteAppends(s, e); } else { OnlyWriteWrites(s, e); }
    }
  }

  /** When frames are written in enqueue order and the server answers in order, every response reaches exactly the
      request it answers and every call that returns a response returns its own, even when any set of callers cancel.
      */
  lemma EachResponseReachesItsRequest(states: seq<State>, steps: seq<Step>)
    requires IsRun(states, steps) && FifoServer(states, steps) && WritesInOrder(states, steps)
    ensures var s := states[|steps|];
      && s.hist.lost == 0 && |s.hist.answers| <= |s.hist.written|
      && (forall k :: 0 <= k < |s.hist.answers| ==> Holds(s, s.hist.written[k], s.hist.answers[k]))
      && forall c :: c in s.calls && GotAnswer(s.calls[c].phase) ==>
        exists k ::
          0 <= k < |s.hist.answers| && s.hist.written[k] == c && s.hist.answers[k] == s.calls[c].phase.outcome.resp
  {
    hide Apply, Enabled, Holds;
    CountsFit(states, steps);
    WrittenIsPrefix(states, steps, |steps|);
    var s := states[|steps|];
    assert Reachable(s);
    hide IsRun, FifoServer, WritesInOrder, Reachable;
    ResponsesGoInEnqueueOrder(s);
    assert forall k :: 0 <= k < |s.hist.taken| ==> s.hist.taken[k] == s.hist.written[k];
  }
}
