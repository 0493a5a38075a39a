/** websocket.go as a state machine.  Every lock-protected section, frame write, channel operation and cancellation
    is one step; callers, consumers and the single read loop interleave freely. */
module WebSocket {
  import opened Bytes
  import opened Keys

  type Topic = string
  type CallId = nat     // one per Subscribe or Unsubscribe invocation; names its response channel
  type SubId = nat      // one per *Subscription; names its events channel

  datatype Event = Event(topic: Topic, data: seq<byte>)

  datatype Response = Response(status: string, subscriptionId: string, message: string, error: string)

  const EVENT_BUFFER: nat := 256

  // ---------------------------------------------------------------- the fields guarded by mu

  datatype Client = Client(pending: seq<CallId>, subs: map<Topic, seq<SubId>>, closed: bool, readErr: Option<string>)

  function SubsOn(c: Client, t: Topic): seq<SubId> {
    if t in c.subs then c.subs[t] else []
  }

  function Register(c: Client, t: Topic, i: SubId): Client {
    c.(subs := c.subs[t := SubsOn(c, t) + [i]])
  }

  function RemoveFirst(l: seq<SubId>, i: SubId): seq<SubId> {
    if l == [] then [] else if l[0] == i then l[1..] else [l[0]] + RemoveFirst(l[1..], i)
  }

  /** removeSubscription's locked part: the map is written only when the subscription is found. */
  function Unlist(c: Client, t: Topic, i: SubId): Client {
    if i in SubsOn(c, t) then c.(subs := c.subs[t := RemoveFirst(SubsOn(c, t), i)]) else c
  }

  function TornDown(err: string): Client {
    Client([], map[], true, Some(err))
  }

  /** The lists of all topics one after the other, in the order the map was iterated. */
  function Concat(subs: map<Topic, seq<SubId>>, order: seq<Topic>): seq<SubId>
    requires forall t :: t in order ==> t in subs
  {
    if order == [] then [] else subs[order[0]] + Concat(subs, order[1..])
  }

  // ---------------------------------------------------------------- channels, calls and subscriptions

  /** A response channel of capacity one; `sends` and `closes` count the operations done on it. */
  datatype Chan = Chan(buf: seq<Response>, sends: nat, closes: nat)

  const NEW_CHAN: Chan := Chan([], 0, 0)

  datatype CallError = ConnClosed(reason: Option<string>) | WriteFailed | Cancelled

  datatype Outcome = Answered(resp: Response) | Failed(err: CallError)

  datatype Phase =
    | Starting                   // before roundTrip's lock
    | Enqueued                   // its channel is in pending, its frame not yet written
    | Waiting                    // in roundTrip's select
    | Returned(outcome: Outcome) // roundTrip has returned
    | Unlisted(outcome: Outcome) // removeSubscription has released the lock and not yet closed the events channel
    | Finished(outcome: Outcome)

  datatype Purpose = Subscribing(sub: SubId) | Unsubscribing(sub: SubId) | Refused

  datatype Call = Call(purpose: Purpose, phase: Phase, chan: Chan)

  /** A subscription: its topic, its bounded events channel with the sync.Once that guards closing it, and, as
      history, what was consumed and dropped and between which event counts it was listed. */
  datatype Sub = Sub(
    topic: Topic, buffer: seq<Event>, once: bool, closes: nat,
    consumed: seq<Event>, dropped: nat, since: nat, until: Option<nat>)

  function CloseOnce(b: Sub): Sub {
    if b.once then b else b.(once := true, closes := b.closes + 1)
  }

  /** The non-blocking send of the fan-out, on an open channel. */
  function TrySend(b: Sub, ev: Event): Sub {
    if |b.buffer| < EVENT_BUFFER then b.(buffer := b.buffer + [ev]) else b.(dropped := b.dropped + 1)
  }

  predicate NeedsRemoval(p: Purpose, o: Outcome) {
    match p
    case Subscribing(_) => o.Failed? || o.resp.status != "Subscribed"
    case Unsubscribing(_) => true
    case Refused => false
  }

  // ---------------------------------------------------------------- the read loop

  datatype Loop =
    | Reading
    | FanOut(event: Event, rest: seq<SubId>)
    | Delivering(call: CallId, resp: Response)
    | SignallingDone(pend: seq<CallId>, open: seq<SubId>)
    | ClosingPending(pend: seq<CallId>, open: seq<SubId>)
    | ClosingSubs(open: seq<SubId>)
    | Stopped

  function FanNext(ev: Event, rest: seq<SubId>): Loop {
    if rest == [] then Reading else FanOut(ev, rest)
  }

  function CloseSubsNext(open: seq<SubId>): Loop {
    if open == [] then Stopped else ClosingSubs(open)
  }

  function ClosePendingNext(pend: seq<CallId>, open: seq<SubId>): Loop {
    if pend == [] then CloseSubsNext(open) else ClosingPending(pend, open)
  }

  // ---------------------------------------------------------------- state

  /** What happened so far: the calls in the order they were enqueued, written and taken off pending; the responses read
      for the taken ones and how many events had been read by then; responses read with nothing pending; events. */
  datatype History = History(
    enqueued: seq<CallId>, written: seq<CallId>, taken: seq<CallId>,
    answers: seq<Response>, answeredAt: seq<nat>, lost: nat, events: seq<Event>)

  datatype State = State(
    client: Client, done: bool, calls: map<CallId, Call>, subs: map<SubId, Sub>,
    loop: Loop, panicked: bool, hist: History)

  const INITIAL: State := State(
    Client([], map[], false, None), false, map[], map[], Reading, false,
    History([], [], [], [], [], 0, []))

  function SetPhase(s: State, c: CallId, p: Phase): State
    requires c in s.calls
  {
    s.(calls := s.calls[c := s.calls[c].(phase := p)])
  }

  function SetChan(s: State, c: CallId, ch: Chan): State
    requires c in s.calls
  {
    s.(calls := s.calls[c := s.calls[c].(chan := ch)])
  }

  function ClosedError(s: State): Outcome {
    Failed(ConnClosed(s.client.readErr))
  }

  // ---------------------------------------------------------------- steps

  datatype Step =
    // callers
    | Subscribe(c: CallId, i: SubId, topic: Topic)
    | Unsubscribe(c: CallId, via: CallId)
    | Enqueue(c: CallId)
    | Write(c: CallId)
    | WriteError(c: CallId)
    | TakeResponse(c: CallId)
    | Cancel(c: CallId)
    | TakeDone(c: CallId)
    | Finish(c: CallId)
    | RemoveSub(c: CallId)
    | CloseEvents(c: CallId)
    // consumers
    | Consume(i: SubId)
    // the read loop
    | ReadEvent(event: Event)
    | SendEvent
    | ReadResponse(resp: Response)
    | SendResponse
    | ReadOther
    | ReadError(err: string, order: seq<Topic>)
    | SignalDone
    | CloseResponse
    | CloseSub

  predicate InPhase(s: State, c: CallId, p: Phase) {
    c in s.calls && s.calls[c].phase == p
  }

  /** The subscribe call `via` has handed its subscription to the user. */
  predicate HandedOut(s: State, via: CallId) {
    && via in s.calls && s.calls[via].purpose.Subscribing?
    && s.calls[via].phase.Finished? && s.calls[via].phase.outcome.Answered?
    && s.calls[via].phase.outcome.resp.status == "Subscribed"
  }

  ghost predicate Iterates(order: seq<Topic>, subs: map<Topic, seq<SubId>>) {
    Distinct(order) && Elements(order) == subs.Keys
  }

  ghost predicate Enabled(s: State, e: Step) {
    && !s.panicked
    && match e
       case Subscribe(c, i, _) => c !in s.calls && i !in s.subs
       case Unsubscribe(c, via) => c !in s.calls && HandedOut(s, via)
       case Enqueue(c) => InPhase(s, c, Starting)
       case Write(c) => InPhase(s, c, Enqueued)
       case WriteError(c) => InPhase(s, c, Enqueued)
       case TakeResponse(c) => InPhase(s, c, Waiting) && (s.calls[c].chan.buf != [] || s.calls[c].chan.closes > 0)
       case Cancel(c) => InPhase(s, c, Waiting)
       case TakeDone(c) => InPhase(s, c, Waiting) && s.done
       case Finish(c) =>
         c in s.calls && s.calls[c].phase.Returned? && !NeedsRemoval(s.calls[c].purpose, s.calls[c].phase.outcome)
       case RemoveSub(c) =>
         c in s.calls && s.calls[c].phase.Returned? && NeedsRemoval(s.calls[c].purpose, s.calls[c].phase.outcome)
         && s.calls[c].purpose.sub in s.subs
       case CloseEvents(c) =>
         c in s.calls && s.calls[c].phase.Unlisted? && !s.calls[c].purpose.Refused? && s.calls[c].purpose.sub in s.subs
       case Consume(i) => i in s.subs && s.subs[i].buffer != []
       case ReadEvent(_) => s.loop.Reading?
       case SendEvent => s.loop.FanOut? && s.loop.rest != [] && s.loop.rest[0] in s.subs
       case ReadResponse(_) => s.loop.Reading?
       case SendResponse =>
         // a send on a full open channel blocks; on a closed one it panics
         s.loop.Delivering? && s.loop.call in s.calls
         && (s.calls[s.loop.call].chan.closes > 0 || |s.calls[s.loop.call].chan.buf| < 1)
       case ReadOther => s.loop.Reading?
       case ReadError(_, order) => s.loop.Reading? && Iterates(order, s.client.subs)
       case SignalDone => s.loop.SignallingDone?
       case CloseResponse => s.loop.ClosingPending? && s.loop.pend != [] && s.loop.pend[0] in s.calls
       case CloseSub => s.loop.ClosingSubs? && s.loop.open != [] && s.loop.open[0] in s.subs
  }

  // One function per step.

  function DoSubscribe(s: State, c: CallId, i: SubId, t: Topic): State {
    if s.client.closed then s.(calls := s.calls[c := Call(Refused, Finished(ClosedError(s)), NEW_CHAN)])
    else s.(
      client := Register(s.client, t, i),
      subs := s.subs[i := Sub(t, [], false, 0, [], 0, |s.hist.events|, None)],
      calls := s.calls[c := Call(Subscribing(i), Starting, NEW_CHAN)])
  }

  function DoUnsubscribe(s: State, c: CallId, via: CallId): State
    requires HandedOut(s, via)
  {
    s.(calls := s.calls[c := Call(Unsubscribing(s.calls[via].purpose.sub), Starting, NEW_CHAN)])
  }

  function DoEnqueue(s: State, c: CallId): State
    requires c in s.calls
  {
    if s.client.closed then SetPhase(s, c, Returned(ClosedError(s)))
    else SetPhase(s, c, Enqueued).(
      client := s.client.(pending := s.client.pending + [c]),
      hist := s.hist.(enqueued := s.hist.enqueued + [c]))
  }

  function DoWrite(s: State, c: CallId): State
    requires c in s.calls
  {
    SetPhase(s, c, Waiting).(hist := s.hist.(written := s.hist.written + [c]))
  }

  function DoTakeResponse(s: State, c: CallId): State
    requires c in s.calls
  {
    var ch := s.calls[c].chan;
    if ch.buf != [] then SetChan(SetPhase(s, c, Returned(Answered(ch.buf[0]))), c, ch.(buf := ch.buf[1..]))
    else SetPhase(s, c, Returned(ClosedError(s)))
  }

  function DoRemoveSub(s: State, c: CallId): State
    requires c in s.calls && s.calls[c].phase.Returned?
    requires !s.calls[c].purpose.Refused? && s.calls[c].purpose.sub in s.subs
  {
    var i := s.calls[c].purpose.sub;
    var b := s.subs[i];
    SetPhase(s, c, Unlisted(s.calls[c].phase.outcome)).(
      client := Unlist(s.client, b.topic, i),
      subs := s.subs[i := if b.until.None? then b.(until := Some(|s.hist.events|)) else b])
  }

  function DoCloseEvents(s: State, c: CallId): State
    requires c in s.calls && s.calls[c].phase.Unlisted?
    requires !s.calls[c].purpose.Refused? && s.calls[c].purpose.sub in s.subs
  {
    var i := s.calls[c].purpose.sub;
    SetPhase(s, c, Finished(s.calls[c].phase.outcome)).(subs := s.subs[i := CloseOnce(s.subs[i])])
  }

  function DoConsume(s: State, i: SubId): State
    requires i in s.subs && s.subs[i].buffer != []
  {
    var b := s.subs[i];
    s.(subs := s.subs[i := b.(buffer := b.buffer[1..], consumed := b.consumed + [b.buffer[0]])])
  }

  function DoReadEvent(s: State, ev: Event): State {
    s.(loop := FanNext(ev, SubsOn(s.client, ev.topic)), hist := s.hist.(events := s.hist.events + [ev]))
  }

  function DoSendEvent(s: State): State
    requires s.loop.FanOut? && s.loop.rest != [] && s.loop.rest[0] in s.subs
  {
    var i := s.loop.rest[0];
    if s.subs[i].closes > 0 then s.(panicked := true)
    else s.(
      subs := s.subs[i := TrySend(s.subs[i], s.loop.event)],
      loop := FanNext(s.loop.event, s.loop.rest[1..]))
  }

  function DoReadResponse(s: State, r: Response): State {
    if s.client.pending == [] then s.(hist := s.hist.(lost := s.hist.lost + 1))
    else s.(
      client := s.client.(pending := s.client.pending[1..]),
      loop := Delivering(s.client.pending[0], r),
      hist := s.hist.(
        taken := s.hist.taken + [s.client.pending[0]],
        answers := s.hist.answers + [r],
        answeredAt := s.hist.answeredAt + [|s.hist.events|]))
  }

  function DoSendResponse(s: State): State
    requires s.loop.Delivering? && s.loop.call in s.calls
  {
    var ch := s.calls[s.loop.call].chan;
    if ch.closes > 0 then s.(panicked := true)
    else SetChan(s, s.loop.call, ch.(buf := ch.buf + [s.loop.resp], sends := ch.sends + 1)).(loop := Reading)
  }

  function DoReadError(s: State, err: string, order: seq<Topic>): State
    requires forall t :: t in order ==> t in s.client.subs
  {
    s.(
      client := TornDown(err),
      loop := SignallingDone(s.client.pending, Concat(s.client.subs, order)),
      subs := map i | i in s.subs ::
        if s.subs[i].until.None? then s.subs[i].(until := Some(|s.hist.events|)) else s.subs[i])
  }

  function DoCloseResponse(s: State): State
    requires s.loop.ClosingPending? && s.loop.pend != [] && s.loop.pend[0] in s.calls
  {
    var c := s.loop.pend[0];
    var ch := s.calls[c].chan;
    if ch.closes > 0 then s.(panicked := true)
    else SetChan(s, c, ch.(closes := ch.closes + 1)).(loop := ClosePendingNext(s.loop.pend[1..], s.loop.open))
  }

  function DoCloseSub(s: State): State
    requires s.loop.ClosingSubs? && s.loop.open != [] && s.loop.open[0] in s.subs
  {
    var i := s.loop.open[0];
    s.(subs := s.subs[i := CloseOnce(s.subs[i])], loop := CloseSubsNext(s.loop.open[1..]))
  }

  ghost function Apply(s: State, e: Step): State
    requires Enabled(s, e)
  {
    match e
    case Subscribe(c, i, t) => DoSubscribe(s, c, i, t)
    case Unsubscribe(c, via) => DoUnsubscribe(s, c, via)
    case Enqueue(c) => DoEnqueue(s, c)
    case Write(c) => DoWrite(s, c)
    case WriteError(c) => SetPhase(s, c, Returned(Failed(WriteFailed)))
    case TakeResponse(c) => DoTakeResponse(s, c)
    case Cancel(c) => SetPhase(s, c, Returned(Failed(Cancelled)))
    case TakeDone(c) => SetPhase(s, c, Returned(ClosedError(s)))
    case Finish(c) => SetPhase(s, c, Finished(s.calls[c].phase.outcome))
    case RemoveSub(c) => DoRemoveSub(s, c)
    case CloseEvents(c) => DoCloseEvents(s, c)
    case Consume(i) => DoConsume(s, i)
    case ReadEvent(ev) => DoReadEvent(s, ev)
    case SendEvent => DoSendEvent(s)
    case ReadResponse(r) => DoReadResponse(s, r)
    case SendResponse => DoSendResponse(s)
    case ReadOther => s
    case ReadError(err, order) => IteratedTopics(order, s.client.subs); DoReadError(s, err, order)
    case SignalDone => s.(done := true, loop := ClosePendingNext(s.loop.pend, s.loop.open))
    case CloseResponse => DoCloseResponse(s)
    case CloseSub => DoCloseSub(s)
  }

  lemma IteratedTopics(order: seq<Topic>, subs: map<Topic, seq<SubId>>)
    requires Iterates(order, subs)
    ensures forall t :: t in order <==> t in subs
  {
    assert forall t :: t in Elements(order) <==> t in subs.Keys;
  }

  // ---------------------------------------------------------------- runs

  ghost predicate IsRun(states: seq<State>, steps: seq<Step>) {
    && |states| == |steps| + 1
    && states[0] == INITIAL
    && forall k :: 0 <= k < |steps| ==> Enabled(states[k], steps[k]) && states[k + 1] == Apply(states[k], steps[k])
  }

  ghost predicate Reachable(s: State) {
    exists states, steps :: IsRun(states, steps) && states[|steps|] == s
  }
}
