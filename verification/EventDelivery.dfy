/** An event source: events are queued from any thread and handed to the listeners one at a time by a
    timer handler on the main loop. The handler tests for emptiness and clears the timer id in
    separate critical sections, so sends can fall in between. */
module EventDelivery {

  /** Where the handler stands between its critical sections. */
  datatype Handler<E> = Idle | Popping | Sending(event: E) | Testing | Clearing

  /** `timer`: m_timeoutId is set. `sent` and `delivered` are histories; so is `late`, the events sent
      between the handler's last test and its clearing of the timer id, while no timer is armed anew. */
  datatype State<E> = State(
    queue: seq<E>,
    timer: bool,
    handler: Handler<E>,
    sent: seq<E>,
    delivered: seq<E>,
    late: seq<E>)

  function Init<E>(): State<E> {
    State([], false, Idle, [], [], [])
  }

  /** From any thread, under the lock. */
  function Send<E>(s: State<E>, e: E): State<E> {
    s.(queue := s.queue + [e], sent := s.sent + [e], timer := true,
       late := if s.handler.Clearing? then s.late + [e] else if s.timer then s.late else [])
  }

  /** The handler's next step; when idle, it runs only if its timer is armed. */
  function Handle<E>(s: State<E>): State<E> {
    match s.handler
    case Idle =>
      if !s.timer then s
      else if s.queue != [] then s.(handler := Popping)
      else s.(handler := Clearing, late := [])
    case Popping =>
      if s.queue == [] then s
      else s.(queue := s.queue[1..], handler := Sending(s.queue[0]))
    case Sending(event) => s.(delivered := s.delivered + [event], handler := Testing)
    case Testing => if s.queue != [] then s.(handler := Idle) else s.(handler := Clearing, late := [])
    case Clearing => s.(timer := false, handler := Idle)
  }

  datatype Step<E> = DoSend(event: E) | DoHandle

  function Advance<E>(s: State<E>, step: Step<E>): State<E> {
    match step
    case DoSend(event) => Send(s, event)
    case DoHandle => Handle(s)
  }

  function Run<E>(steps: seq<Step<E>>): State<E>
    decreases |steps|
  {
    if steps == [] then Init() else Advance(Run(steps[..|steps| - 1]), steps[|steps| - 1])
  }

  function InFlight<E>(h: Handler<E>): seq<E> {
    if h.Sending? then [h.event] else []
  }

  predicate Inv<E(==)>(s: State<E>) {
    && s.sent == s.delivered + InFlight(s.handler) + s.queue
    && (!s.handler.Idle? ==> s.timer)
    && (s.handler.Popping? ==> s.queue != [])
    && (s.handler.Clearing? || !s.timer ==> s.queue == s.late)
  }

  lemma AdvanceKeeps<E>(s: State<E>, step: Step<E>)
    requires Inv(s)
    ensures Inv(Advance(s, step))
  {}

  lemma {:induction false} RunKeeps<E>(steps: seq<Step<E>>)
    ensures Inv(Run(steps))
    decreases |steps|
  {
    if steps != [] {
      RunKeeps(steps[..|steps| - 1]);
      AdvanceKeeps(Run(steps[..|steps| - 1]), steps[|steps| - 1]);
    }
  }

  /** However sends and handler steps interleave, no event is lost, doubled or overtaken; and when the
      handler rests with no timer armed, what is still queued is exactly what was sent in the gap
      between its test and its clearing of the timer id. */
  lemma SentIsDeliveredInOrder<E>(steps: seq<Step<E>>)
    ensures
      var s := Run(steps);
      && s.sent == s.delivered + InFlight(s.handler) + s.queue
      && (s.handler.Idle? && !s.timer ==> s.queue == s.late)
  {
    RunKeeps(steps);
  }

  function HandleTimes<E>(s: State<E>, count: nat): State<E>
    decreases count
  {
    if count == 0 then s else HandleTimes(Handle(s), count - 1)
  }

  /** One event is enough for the gap: it stays queued and no timer is armed. */
  lemma SendInGapIsStranded<E>(first: E, second: E)
    ensures
      var s := Handle(Send(HandleTimes(Send(Init(), first), 4), second));
      s.handler.Idle? && !s.timer && s.queue == [second] && s.delivered == [first]
  {}

  /** A stranded event does not stay so: the next send arms the timer, and an armed handler that is
      left alone delivers everything ever sent, the stranded events first. */
  lemma NextSendRescues<E>(s: State<E>, e: E)
    requires Inv(s) && s.handler.Idle?
    ensures
      var armed := Send(s, e);
      var done := HandleTimes(armed, 4 * |armed.queue| + 1);
      done.delivered == s.sent + [e] && done.queue == [] && done.handler.Idle? && !done.timer
  {
    AdvanceKeeps(s, DoSend(e));
    ArmedHandlerDrains(Send(s, e));
  }

  lemma {:induction false} ArmedHandlerDrains<E>(s: State<E>)
    requires Inv(s) && s.handler.Idle? && s.timer && s.queue != []
    ensures
      var done := HandleTimes(s, 4 * |s.queue| + 1);
      done.delivered == s.sent && done.queue == [] && done.handler.Idle? && !done.timer
    decreases |s.queue|
  {
    var popped := Handle(Handle(s));
    var tested := Handle(Handle(popped));
    AdvanceKeeps(s, DoHandle);
    AdvanceKeeps(Handle(s), DoHandle);
    AdvanceKeeps(popped, DoHandle);
    AdvanceKeeps(Handle(popped), DoHandle);
    var left := 4 * |s.queue| - 3;
    assert HandleTimes(s, left + 4) == HandleTimes(Handle(s), left + 3) == HandleTimes(popped, left + 2)
        == HandleTimes(Handle(popped), left + 1) == HandleTimes(tested, left);
    if |s.queue| > 1 {
      ArmedHandlerDrains(tested);
    } else {
      assert HandleTimes(tested, 1) == HandleTimes(Handle(tested), 0);
    }
  }
}
