/** The engine under the reservation policy: the manager's arbitration of the one speaker among the
    sessions, together with the speaker itself. A session is known by the number of sessions created
    before it; its wire id is that number plus one, as an unsigned 32-bit counter gives it. */
module Engine {
  import opened Types
  import Speaker

  /** `hasSpeaker`: the session's m_speaker is set. */
  datatype Session = Session(app: uint32, hasSpeaker: bool)

  /** A resource event sent to the client of a session. */
  datatype Notice = Acquired(session: nat) | Released(session: nat)

  datatype Status =
    | Ok | Fail | Duplicate | EmptyAppId | Busy | NoSession | AppNotFound | NotActive | NotConfigured

  datatype State = State(
    enabled: bool,
    reserved: uint32,
    claimed: uint32,
    active: Option<nat>,
    sessions: seq<Session>,
    appMap: map<uint32, nat>,
    sessionMap: map<uint32, nat>,
    notices: seq<Notice>,
    speaker: Speaker.State)

  function Init(limit: uint8): State {
    State(false, 0, 0, None, [], map[], map[], [], Speaker.Init(limit))
  }

  function IdOf(session: nat): uint32 {
    (session + 1) % 0x1_0000_0000
  }

  /** Every stored session reference denotes a session that was created. */
  predicate Closed(s: State) {
    && (s.active.Some? ==> s.active.value < |s.sessions|)
    && (forall app | app in s.appMap :: s.appMap[app] < |s.sessions|)
    && (forall id | id in s.sessionMap :: s.sessionMap[id] < |s.sessions|)
  }

  function Owner(s: State): uint32 {
    if s.claimed != 0 then s.claimed else s.reserved
  }

  predicate Holds(s: State, app: uint32)
    requires Closed(s)
  {
    s.active.Some? && s.sessions[s.active.value].app == app
  }

  // Sessions

  function SetActive(s: State, session: nat): State
    requires session < |s.sessions|
  {
    if s.sessions[session].hasSpeaker then s
    else s.(sessions := s.sessions[session := s.sessions[session].(hasSpeaker := true)],
            notices := s.notices + [Acquired(session)])
  }

  function AbortAndClearPending(s: State, session: nat): State
    requires session < |s.sessions|
  {
    if s.sessions[session].hasSpeaker
    then s.(speaker := Speaker.ClearFrom(s.speaker, session))
    else s
  }

  function SetInactive(s: State, session: nat): State
    requires session < |s.sessions|
  {
    if !s.sessions[session].hasSpeaker then s
    else
      AbortAndClearPending(s, session)
        .(sessions := s.sessions[session := s.sessions[session].(hasSpeaker := false)],
          notices := s.notices + [Released(session)])
  }

  // Granting and withdrawing the speaker

  function MakeActive(s: State, session: nat): (r: State)
    requires session < |s.sessions| && Closed(s)
    ensures Closed(r)
  {
    if s.active == Some(session) then s
    else SetActive(s.(speaker := Speaker.Ensure(s.speaker, true)), session).(active := Some(session))
  }

  function MakeInactive(s: State): (r: State)
    requires Closed(s)
    ensures Closed(r)
  {
    if s.active.None? then s
    else
      var withdrawn := SetInactive(s, s.active.value);
      withdrawn.(speaker := Speaker.Ensure(withdrawn.speaker, false), active := None)
  }

  function Grant(s: State): (r: State)
    requires Closed(s)
    ensures Closed(r)
  {
    if s.enabled && Owner(s) != 0 && Owner(s) in s.appMap then MakeActive(s, s.appMap[Owner(s)]) else s
  }

  // The manager's operations

  function EnableTTS(s: State, on: bool): (r: State)
    requires Closed(s)
    ensures Closed(r)
  {
    if s.enabled == on then s
    else if on then Grant(s.(enabled := true))
    else MakeInactive(s.(enabled := false))
  }

  predicate HasSession(s: State, app: uint32)
    requires Closed(s)
  {
    exists id :: id in s.sessionMap && s.sessions[s.sessionMap[id]].app == app
  }

  function Register(s: State, app: uint32): (r: State)
    requires Closed(s)
    ensures Closed(r)
  {
    var session := |s.sessions|;
    s.(sessions := s.sessions + [Session(app, false)],
       appMap := s.appMap[app := session],
       sessionMap := s.sessionMap[IdOf(session) := session])
  }

  function CreateSession(s: State, app: uint32): (r: (State, Status))
    requires Closed(s)
    ensures Closed(r.0)
  {
    if HasSession(s, app) then (s, Duplicate) else (Grant(Register(s, app)), Ok)
  }

  function Reserve(s: State, app: uint32): (r: (State, Status))
    requires Closed(s)
    ensures Closed(r.0)
  {
    if app == 0 then (s, EmptyAppId)
    else if s.reserved == app then (s, Ok)
    else if s.reserved != 0 then (s, Busy)
    else (Grant(s.(reserved := app)), Ok)
  }

  /** The claim ends. Unless the app that held it also has the reservation, the reserving app gets the
      speaker back. */
  function Unclaim(s: State): (r: State)
    requires Closed(s)
    ensures Closed(r)
  {
    var unclaimed := s.(claimed := 0);
    if Holds(s, s.claimed) && s.claimed != s.reserved then Grant(MakeInactive(unclaimed)) else unclaimed
  }

  function Unreserve(s: State): (r: State)
    requires Closed(s)
    ensures Closed(r)
  {
    (if Holds(s, s.reserved) then MakeInactive(s) else s).(reserved := 0)
  }

  function Release(s: State, app: uint32): (r: (State, Status))
    requires Closed(s)
    ensures Closed(r.0)
  {
    if app == 0 then (s, EmptyAppId)
    else if s.claimed == app then (Unclaim(s), Ok)
    else if s.reserved == 0 then (s, Ok)
    else if s.reserved != app then (s, Fail)
    else (Unreserve(s), Ok)
  }

  /** The reserving app gives up the speaker, but its reservation is kept for later. */
  function Vacate(s: State): (r: State)
    requires Closed(s)
    ensures Closed(r)
  {
    if s.reserved == 0 then s else Release(s, s.reserved).0.(reserved := s.reserved)
  }

  function TakeOver(s: State): (r: (State, Status))
    requires Closed(s)
    ensures Closed(r.0)
  {
    var granted := Grant(Vacate(s));
    (granted, if !granted.enabled || Holds(granted, granted.claimed) then Ok else Fail)
  }

  function Claim(s: State, app: uint32): (r: (State, Status))
    requires Closed(s)
    ensures Closed(r.0)
  {
    if app == 0 then (s, EmptyAppId)
    else if app !in s.appMap then (s, AppNotFound)
    else if s.claimed == app then (s, Ok)
    else if s.claimed != 0 then (s, Busy)
    else if s.reserved == app then (s, Ok)
    else TakeOver(s.(claimed := app))
  }

  function Erase(s: State, id: uint32, app: uint32): (r: State)
    requires Closed(s)
    ensures Closed(r)
  {
    var erased := s.(sessionMap := s.sessionMap - {id}, appMap := s.appMap - {app});
    if erased.sessionMap.Keys == {}
    then erased.(speaker := Speaker.Ensure(erased.speaker, false))
    else erased
  }

  function DestroySession(s: State, id: uint32): (r: (State, Status))
    requires Closed(s)
    ensures Closed(r.0)
  {
    if id !in s.sessionMap then (s, NoSession)
    else
      var app := s.sessions[s.sessionMap[id]].app;
      (Erase(Release(s, app).0, id, app), Ok)
  }

  // Calls on a session object; the object outlives the session's entry in the maps

  function Speak(s: State, session: nat, id: uint32, configured: bool, preemptive: bool): (State, Status)
    requires session < |s.sessions|
  {
    if !s.sessions[session].hasSpeaker then (s, NotActive)
    else if !configured then (s, NotConfigured)
    else (s.(speaker := Speaker.Speak(s.speaker, session, id, preemptive)), Ok)
  }

  function Shut(s: State, session: nat): (State, Status)
    requires session < |s.sessions|
  {
    if !s.sessions[session].hasSpeaker then (s, NotActive)
    else if s.speaker.clientSpeaking == Some(session)
    then (s.(speaker := Speaker.Cancel(s.speaker)), Ok)
    else (s, Ok)
  }

  // Runs: main-loop calls, bus messages and worker steps in any order

  datatype Op =
    | DoEnable(on: bool)
    | DoCreate(app: uint32)
    | DoDestroy(id: uint32)
    | DoReserve(app: uint32)
    | DoRelease(app: uint32)
    | DoClaim(app: uint32)
    | DoSpeak(session: nat, speech: uint32, configured: bool, preemptive: bool)
    | DoShut(session: nat)
    | DoAbort(session: nat)
    | DoBusError(network: bool)
    | DoWork

  /** A call on a session that was never created does not happen. */
  function Do(s: State, op: Op, builds: Speaker.Builds): (r: State)
    requires Closed(s)
    ensures Closed(r)
  {
    match op
    case DoEnable(on) => EnableTTS(s, on)
    case DoCreate(app) => CreateSession(s, app).0
    case DoDestroy(id) => DestroySession(s, id).0
    case DoReserve(app) => Reserve(s, app).0
    case DoRelease(app) => Release(s, app).0
    case DoClaim(app) => Claim(s, app).0
    case DoSpeak(session, speech, configured, preemptive) =>
      if session < |s.sessions| then Speak(s, session, speech, configured, preemptive).0 else s
    case DoShut(session) => if session < |s.sessions| then Shut(s, session).0 else s
    case DoAbort(session) => if session < |s.sessions| then AbortAndClearPending(s, session) else s
    case DoBusError(network) => s.(speaker := Speaker.BusError(s.speaker, network))
    case DoWork => s.(speaker := Speaker.WorkerStep(s.speaker, builds))
  }

  function RunFrom(s: State, ops: seq<Op>, builds: Speaker.Builds): (r: State)
    requires Closed(s)
    ensures Closed(r)
    decreases |ops|
  {
    if ops == [] then s
    else Do(RunFrom(s, ops[..|ops| - 1], builds), ops[|ops| - 1], builds)
  }

  function Run(limit: uint8, ops: seq<Op>, builds: Speaker.Builds): (s: State)
    ensures Closed(s)
  {
    RunFrom(Init(limit), ops, builds)
  }
}
