/** The client's copy of "my session has the speaker", fed by resource events that arrive later. */
module ResourceMirror {
  import opened Types
  import Speaker
  import opened Engine
  import Arbitration

  /** The resource events sent to one session, oldest first; true stands for "acquired". */
  function EventsOf(notices: seq<Notice>, session: nat): seq<bool>
    decreases |notices|
  {
    if notices == [] then []
    else
      var before, last := EventsOf(notices[..|notices| - 1], session), notices[|notices| - 1];
      if last.session == session then before + [last.Acquired?] else before
  }

  /** Acquired, released, acquired, ... */
  predicate Alternates(events: seq<bool>) {
    forall i :: 0 <= i < |events| ==> (events[i] <==> i % 2 == 0)
  }

  /** The events of each session alternate, and their number tells whether it has the speaker. */
  predicate Tracked(sessions: seq<Session>, notices: seq<Notice>) {
    && (forall h | 0 <= h < |sessions| ::
          Alternates(EventsOf(notices, h))
          && (sessions[h].hasSpeaker <==> |EventsOf(notices, h)| % 2 == 1))
    && forall i :: 0 <= i < |notices| ==> notices[i].session < |sessions|
  }

  predicate TrackInv(s: State) {
    Tracked(s.sessions, s.notices)
  }

  lemma {:induction false} NewcomerHasNone(notices: seq<Notice>, session: nat)
    requires forall i :: 0 <= i < |notices| ==> notices[i].session < session
    ensures EventsOf(notices, session) == []
    decreases |notices|
  {
    if notices != [] { NewcomerHasNone(notices[..|notices| - 1], session); }
  }

  /** Notices and sessions are only ever added. */
  predicate Extends(s: State, r: State) {
    s.notices <= r.notices && |s.sessions| <= |r.sessions|
  }

  lemma WithdrawKeeps(s: State)
    requires Closed(s) && TrackInv(s)
    ensures TrackInv(MakeInactive(s)) && Extends(s, MakeInactive(s))
  {}

  lemma GrantKeeps(s: State)
    requires Closed(s) && TrackInv(s)
    ensures TrackInv(Grant(s)) && Extends(s, Grant(s))
  {}

  lemma ReleaseKeeps(s: State, app: uint32)
    requires Closed(s) && TrackInv(s)
    ensures TrackInv(Release(s, app).0) && Extends(s, Release(s, app).0)
  {
    if app != 0 && s.claimed == app {
      WithdrawKeeps(s.(claimed := 0));
      GrantKeeps(MakeInactive(s.(claimed := 0)));
    } else {
      WithdrawKeeps(s);
    }
  }

  lemma VacateKeeps(s: State)
    requires Closed(s) && TrackInv(s)
    ensures TrackInv(Vacate(s)) && Extends(s, Vacate(s))
  {
    ReleaseKeeps(s, s.reserved);
  }

  lemma ClaimKeeps(s: State, app: uint32)
    requires Closed(s) && TrackInv(s)
    ensures TrackInv(Claim(s, app).0) && Extends(s, Claim(s, app).0)
  {
    var claiming := s.(claimed := app);
    VacateKeeps(claiming);
    GrantKeeps(Vacate(claiming));
  }

  lemma CreateKeeps(s: State, app: uint32)
    requires Closed(s) && TrackInv(s)
    ensures TrackInv(CreateSession(s, app).0) && Extends(s, CreateSession(s, app).0)
  {
    if !HasSession(s, app) {
      NewcomerHasNone(s.notices, |s.sessions|);
      GrantKeeps(Register(s, app));
    }
  }

  lemma StepKeeps(s: State, op: Op, builds: Speaker.Builds)
    requires Closed(s) && TrackInv(s)
    ensures TrackInv(Do(s, op, builds)) && Extends(s, Do(s, op, builds))
  {
    match op
    case DoEnable(on) => GrantKeeps(s.(enabled := true)); WithdrawKeeps(s.(enabled := false));
    case DoCreate(app) => CreateKeeps(s, app);
    case DoDestroy(id) =>
      if id in s.sessionMap { ReleaseKeeps(s, s.sessions[s.sessionMap[id]].app); }
    case DoReserve(app) => GrantKeeps(s.(reserved := app));
    case DoRelease(app) => ReleaseKeeps(s, app);
    case DoClaim(app) => ClaimKeeps(s, app);
    case _ => Arbitration.SpeakerStepMovesOnlySpeaker(s, op, builds);
  }

  // Engine and client together

  /** How many of the session's resource events have reached the client, and what it believes. */
  datatype Client = Client(delivered: nat, gotResource: bool)

  /** A session missing from `clients` has a client that has heard nothing yet. */
  datatype System = System(engine: State, clients: map<nat, Client>)

  datatype Step =
    | EngineStep(op: Op)
    | Deliver(session: nat)
    | ForceFetch(session: nat)

  function Init(limit: uint8): System {
    System(Engine.Init(limit), map[])
  }

  function ClientOf(s: System, session: nat): Client {
    if session in s.clients then s.clients[session] else Client(0, false)
  }

  function Pending(s: System, session: nat): int {
    |EventsOf(s.engine.notices, session)| - ClientOf(s, session).delivered
  }

  /** An engine step, the arrival of the next resource event, or a client that asks the engine. */
  function Advance(s: System, step: Step, builds: Speaker.Builds): (r: System)
    requires Closed(s.engine)
    ensures Closed(r.engine)
  {
    match step
    case EngineStep(op) => s.(engine := Do(s.engine, op, builds))
    case Deliver(session) =>
      var c := ClientOf(s, session);
      if Pending(s, session) <= 0 then s
      else s.(clients := s.clients[session :=
                Client(c.delivered + 1, EventsOf(s.engine.notices, session)[c.delivered])])
    case ForceFetch(session) =>
      if session >= |s.engine.sessions| then s
      else s.(clients := s.clients[session :=
                ClientOf(s, session).(gotResource := s.engine.sessions[session].hasSpeaker)])
  }

  function Run(limit: uint8, steps: seq<Step>, builds: Speaker.Builds): (s: System)
    ensures Closed(s.engine)
    decreases |steps|
  {
    if steps == [] then Init(limit)
    else Advance(Run(limit, steps[..|steps| - 1], builds), steps[|steps| - 1], builds)
  }

  /** With nothing on the way the client is right; else the last event on the way will set it right. */
  predicate InStep(s: System, session: nat)
    requires session < |s.engine.sessions|
  {
    var events, hasSpeaker := EventsOf(s.engine.notices, session), s.engine.sessions[session].hasSpeaker;
    && Alternates(events) && Pending(s, session) >= 0
    && (Pending(s, session) == 0 ==> ClientOf(s, session).gotResource == hasSpeaker)
    && (Pending(s, session) > 0 ==> events[|events| - 1] == hasSpeaker)
  }

  predicate MirrorInv(s: System) {
    && TrackInv(s.engine)
    && (forall h | 0 <= h < |s.engine.sessions| :: InStep(s, h))
    && forall h | h in s.clients :: h < |s.engine.sessions|
  }

  lemma {:induction false} EventsGrow(before: seq<Notice>, after: seq<Notice>, session: nat)
    requires before <= after
    ensures |EventsOf(before, session)| <= |EventsOf(after, session)|
    decreases |after|
  {
    if |before| < |after| {
      EventsGrow(before, after[..|after| - 1], session);
    } else {
      assert before == after;
    }
  }

  lemma EngineMovesKeep(s: System, r: System)
    requires MirrorInv(s) && r.clients == s.clients
    requires TrackInv(r.engine) && Extends(s.engine, r.engine)
    ensures MirrorInv(r)
  {
    forall h | 0 <= h < |r.engine.sessions| ensures InStep(r, h) {
      EventsGrow(s.engine.notices, r.engine.notices, h);
      if h < |s.engine.sessions| { assert InStep(s, h); }
    }
  }

  lemma ClientStepKeeps(s: System, step: Step, builds: Speaker.Builds)
    requires Closed(s.engine) && MirrorInv(s) && !step.EngineStep?
    ensures MirrorInv(Advance(s, step, builds))
  {
    var r := Advance(s, step, builds);
    if step.Deliver? && step.session >= |s.engine.sessions| {
      NewcomerHasNone(s.engine.notices, step.session);
    }
    forall h | 0 <= h < |r.engine.sessions| ensures InStep(r, h) {
      assert InStep(s, h);
    }
  }

  /** On every run of engine and client, the resource events of each session alternate, starting with
      "acquired"; the last one on the way agrees with the engine; and whenever none is on the way, what
      the client believes is what the engine holds, even after it has asked the engine directly. */
  lemma {:induction false} ClientsFollowTheEngine(limit: uint8, steps: seq<Step>, builds: Speaker.Builds)
    ensures MirrorInv(Run(limit, steps, builds))
    decreases |steps|
  {
    if steps != [] {
      var before, step := steps[..|steps| - 1], steps[|steps| - 1];
      ClientsFollowTheEngine(limit, before, builds);
      if step.EngineStep? {
        StepKeeps(Run(limit, before, builds).engine, step.op, builds);
        EngineMovesKeep(Run(limit, before, builds), Run(limit, steps, builds));
      } else {
        ClientStepKeeps(Run(limit, before, builds), step, builds);
      }
    }
  }

  /** The arrival of the next `count` events of the session. */
  function Hear(s: System, session: nat, count: nat, builds: Speaker.Builds): (r: System)
    requires Closed(s.engine)
    ensures r.engine == s.engine
    decreases count
  {
    if count == 0 then s else Hear(Advance(s, Deliver(session), builds), session, count - 1, builds)
  }

  /** Once the engine rests, a client that has heard all its events knows whether it has the speaker,
      and it hears them all by hearing as many as are on the way. */
  lemma {:induction false} HearingAllCatchesUp(s: System, session: nat, builds: Speaker.Builds)
    requires Closed(s.engine) && MirrorInv(s) && session < |s.engine.sessions|
    ensures
      Pending(s, session) >= 0 &&
      var r := Hear(s, session, Pending(s, session), builds);
      ClientOf(r, session).gotResource == s.engine.sessions[session].hasSpeaker
    decreases Pending(s, session)
  {
    assert InStep(s, session);
    if Pending(s, session) > 0 {
      ClientStepKeeps(s, Deliver(session), builds);
      HearingAllCatchesUp(Advance(s, Deliver(session), builds), session, builds);
    }
  }

  // The client's record of a session

  /** The name of the event that the engine sends. */
  function WireName(n: Notice): string {
    match n
    case Acquired(_) => "resource_acquired"
    case Released(_) => "resource_released"
  }

  class SessionInfo {
    var gotResource: bool
    var heard: seq<bool>   // what the application was told, oldest first

    function Model(): Client
      reads this
    {
      Client(|heard|, gotResource)
    }

    constructor ()
      ensures Model() == Client(0, false)
    {
      gotResource, heard := false, [];
    }

    /** The arrival of an event; only the two resource events matter here. */
    method OnSessionEvent(eventName: string)
      modifies this
      ensures eventName == "resource_acquired" ==>
                heard == old(heard) + [true] && Model() == Client(old(|heard|) + 1, true)
      ensures eventName == "resource_released" ==>
                heard == old(heard) + [false] && Model() == Client(old(|heard|) + 1, false)
      ensures eventName != "resource_acquired" && eventName != "resource_released" ==>
                heard == old(heard) && Model() == old(Model())
    {
      assert "resource_acquired"[9] != "resource_released"[9];
      if eventName == "resource_acquired" {
        gotResource := true;
        heard := heard + [true];
      } else if eventName == "resource_released" {
        gotResource := false;
        heard := heard + [false];
      }
    }

    /** Every notice of the engine is heard as what it is. */
    method Hears(n: Notice)
      modifies this
      ensures heard == old(heard) + [n.Acquired?] && Model() == Client(old(|heard|) + 1, n.Acquired?)
    {
      OnSessionEvent(WireName(n));
    }

    /** `isActive` is the engine's answer, should it be asked. */
    method IsActiveSession(forceFetch: bool, isActive: bool) returns (active: bool)
      modifies this`gotResource
      ensures Model() == old(Model()).(gotResource := if forceFetch then isActive else old(gotResource))
      ensures active == gotResource
    {
      if forceFetch { gotResource := isActive; }
      return gotResource;
    }
  }
}
