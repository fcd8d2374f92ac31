/** A session's event source carries its resource events among others. What a client believes when the
    source has come to rest. */
module ResourceDelivery {
  import opened EventDelivery
  import Engine
  import ResourceMirror
  import opened Sequences

  datatype Message = Resource(acquired: bool) | Other(name: string)

  function Resources(messages: seq<Message>): seq<bool> {
    if messages == [] then []
    else (if messages[0].Resource? then [messages[0].acquired] else []) + Resources(messages[1..])
  }

  lemma {:induction false} ResourcesAppend(a: seq<Message>, b: seq<Message>)
    ensures Resources(a + b) == Resources(a) + Resources(b)
  {
    if a == [] {
      assert a + b == b;
    } else {
      var head := if a[0].Resource? then [a[0].acquired] else [];
      assert (a + b)[0] == a[0] && (a + b)[1..] == a[1..] + b;
      ResourcesAppend(a[1..], b);
      Assoc(head, Resources(a[1..]), Resources(b));
    }
  }

  /** The client's flag after these resource events. */
  function Belief(events: seq<bool>): bool {
    events != [] && events[|events| - 1]
  }

  lemma BeliefCounts(events: seq<bool>)
    requires ResourceMirror.Alternates(events)
    ensures Belief(events) <==> |events| % 2 == 1
  {}

  lemma BeliefLags(heard: seq<bool>, late: seq<bool>)
    requires ResourceMirror.Alternates(heard + late)
    ensures Belief(heard) == (|heard + late| % 2 == 1) <==> |late| % 2 == 0
  {
    assert forall i :: 0 <= i < |heard| ==> heard[i] == (heard + late)[i];
    BeliefCounts(heard);
  }

  /** The source has been sent all resource events of the session. */
  predicate Carries(s: State<Message>, engine: Engine.State, session: nat) {
    && session < |engine.sessions| && ResourceMirror.TrackInv(engine)
    && Resources(s.sent) == ResourceMirror.EventsOf(engine.notices, session)
  }

  /** When the handler rests with no timer armed, the client believes what the engine holds if and only
      if an even number of resource events fell into the handler's gap and are stranded. */
  lemma RightAtRestExactly(steps: seq<Step<Message>>, engine: Engine.State, session: nat)
    requires Carries(Run(steps), engine, session)
    requires Run(steps).handler.Idle? && !Run(steps).timer
    ensures
      var s := Run(steps);
      Belief(Resources(s.delivered)) == engine.sessions[session].hasSpeaker
      <==> |Resources(s.late)| % 2 == 0
  {
    var s := Run(steps);
    SentIsDeliveredInOrder(steps);
    assert s.sent == s.delivered + s.late;
    ResourcesAppend(s.delivered, s.late);
    BeliefLags(Resources(s.delivered), Resources(s.late));
  }

  /** Whatever the session's next event is, it brings the stranded ones along, and sets the client
      right. */
  lemma NextEventSetsRight(steps: seq<Step<Message>>, m: Message, engine: Engine.State, session: nat)
    requires Run(steps).handler.Idle? && Carries(Send(Run(steps), m), engine, session)
    ensures
      var armed := Send(Run(steps), m);
      var done := HandleTimes(armed, 4 * |armed.queue| + 1);
      Belief(Resources(done.delivered)) == engine.sessions[session].hasSpeaker
  {
    RunKeeps(steps);
    NextSendRescues(Run(steps), m);
    BeliefCounts(Resources(Run(steps).sent + [m]));
  }
}
