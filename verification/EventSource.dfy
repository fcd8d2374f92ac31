/** The event source's methods, each run without interruption. */
module EventSource {
  import opened EventDelivery

  class TTSEventSource<E> {
    var eventQueue: seq<E>
    var timeoutId: int
    ghost var handler: Handler<E>
    ghost var sent: seq<E>
    ghost var delivered: seq<E>
    ghost var late: seq<E>

    ghost function Model(): State<E>
      reads this
    {
      State(eventQueue, timeoutId != 0, handler, sent, delivered, late)
    }

    constructor ()
      ensures Model() == EventDelivery.Init()
    {
      eventQueue, timeoutId := [], 0;
      handler, sent, delivered, late := Idle, [], [], [];
    }

    /** `newTimer` is the id the main loop gives a timer added now. */
    method SendEvent(event: E, newTimer: int)
      requires newTimer != 0
      modifies this
      ensures Model() == EventDelivery.Send(old(Model()), event)
    {
      late := if handler.Clearing? then late + [event] else if timeoutId != 0 then late else [];
      sent := sent + [event];
      eventQueue := eventQueue + [event];
      if timeoutId == 0 {
        timeoutId := newTimer;
      }
    }

    /** One call of the timer handler. It delivers the oldest event, if there is one, and asks to be
        called again if and only if more are queued. */
    method HandleEvent() returns (again: bool)
      requires handler.Idle? && timeoutId != 0
      modifies this
      ensures Model() == HandleTimes(old(Model()),
                if old(eventQueue) == [] then 2 else if |old(eventQueue)| == 1 then 5 else 4)
      ensures delivered == old(delivered) + old(eventQueue)[..if old(eventQueue) == [] then 0 else 1]
      ensures again <==> |old(eventQueue)| > 1
    {
      ghost var s := Model();
      if |eventQueue| > 0 {
        var event := eventQueue[0];
        eventQueue := eventQueue[1..];
        delivered := delivered + [event];
        if |eventQueue| > 0 {
          again := true;
          FourSteps(s);
          return;
        }
      }
      timeoutId := 0;
      late := [];
      again := false;
      if s.queue == [] {
        assert HandleTimes(s, 2) == HandleTimes(Handle(s), 1) == HandleTimes(Handle(Handle(s)), 0);
      } else {
        FourSteps(s);
        FiveSteps(s);
      }
    }
  }

  lemma FourSteps<E>(s: State<E>)
    ensures HandleTimes(s, 4) == Handle(Handle(Handle(Handle(s))))
  {}

  lemma FiveSteps<E>(s: State<E>)
    ensures HandleTimes(s, 5) == Handle(Handle(Handle(Handle(Handle(s)))))
  {}
}
