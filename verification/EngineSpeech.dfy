/** The speaker inside the engine: whatever the arbitration calls it to do, it runs as it does alone. */
module EngineSpeech {
  import opened Types
  import opened Speaker
  import SpeechFates
  import SpeechCancellation
  import E = Engine

  // What each call does to the speaker, one thing after the other

  function WithdrawScript(s: E.State): seq<Action>
    requires E.Closed(s)
  {
    if s.active.None? then []
    else (if s.sessions[s.active.value].hasSpeaker then [DoClearFrom(s.active.value)] else []) + [DoEnsure(false)]
  }

  function GrantScript(s: E.State): seq<Action> {
    if s.enabled && E.Owner(s) != 0 && E.Owner(s) in s.appMap && s.active != Some(s.appMap[E.Owner(s)])
    then [DoEnsure(true)]
    else []
  }

  function UnclaimScript(s: E.State): seq<Action>
    requires E.Closed(s)
  {
    var unclaimed := s.(claimed := 0);
    if E.Holds(s, s.claimed) && s.claimed != s.reserved
    then WithdrawScript(unclaimed) + GrantScript(E.MakeInactive(unclaimed))
    else []
  }

  function UnreserveScript(s: E.State): seq<Action>
    requires E.Closed(s)
  {
    if E.Holds(s, s.reserved) then WithdrawScript(s) else []
  }

  function ReleaseScript(s: E.State, app: uint32): seq<Action>
    requires E.Closed(s)
  {
    if app == 0 then []
    else if s.claimed == app then UnclaimScript(s)
    else if s.reserved == app then UnreserveScript(s)
    else []
  }

  function ClaimScript(s: E.State, app: uint32): seq<Action>
    requires E.Closed(s)
  {
    if app == 0 || app !in s.appMap || s.claimed != 0 || s.reserved == app then []
    else
      var claiming := s.(claimed := app);
      ReleaseScript(claiming, s.reserved) + GrantScript(E.Vacate(claiming))
  }

  function DestroyScript(s: E.State, id: uint32): seq<Action>
    requires E.Closed(s)
  {
    if id !in s.sessionMap then []
    else
      var app := s.sessions[s.sessionMap[id]].app;
      ReleaseScript(s, app)
      + if (E.Release(s, app).0.sessionMap - {id}).Keys == {} then [DoEnsure(false)] else []
  }

  function SpeakScript(session: nat, id: uint32, preemptive: bool): seq<Action> {
    (if preemptive then [DoCancel, DoFlush] else []) + [DoPush(session, id)]
  }

  function Script(s: E.State, op: E.Op): seq<Action>
    requires E.Closed(s)
  {
    match op
    case DoEnable(on) =>
      if s.enabled == on then []
      else if on then GrantScript(s.(enabled := true))
      else WithdrawScript(s.(enabled := false))
    case DoCreate(app) => if E.HasSession(s, app) then [] else GrantScript(E.Register(s, app))
    case DoDestroy(id) => DestroyScript(s, id)
    case DoReserve(app) => if app == 0 || s.reserved != 0 then [] else GrantScript(s.(reserved := app))
    case DoRelease(app) => ReleaseScript(s, app)
    case DoClaim(app) => ClaimScript(s, app)
    case DoSpeak(session, id, configured, preemptive) =>
      if session < |s.sessions| && s.sessions[session].hasSpeaker && configured
      then SpeakScript(session, id, preemptive)
      else []
    case DoShut(session) =>
      if session < |s.sessions| && s.sessions[session].hasSpeaker && s.speaker.clientSpeaking == Some(session)
      then [DoCancel]
      else []
    case DoAbort(session) =>
      if session < |s.sessions| && s.sessions[session].hasSpeaker then [DoClearFrom(session)] else []
    case DoBusError(network) => [DoBusError(network)]
    case DoWork => [DoWork]
  }

  // The scripts do what the calls do

  lemma RunOne(from: State, a: Action, builds: Builds)
    ensures Run(from, [a], builds) == Act(from, a, builds)
  {
    assert [a] == [] + [a];
    RunSnoc(from, [], a, builds);
  }

  lemma WithdrawRuns(s: E.State, builds: Builds)
    requires E.Closed(s)
    ensures Run(s.speaker, WithdrawScript(s), builds) == E.MakeInactive(s).speaker
    ensures DoWork !in WithdrawScript(s)
  {
    if s.active.Some? {
      if s.sessions[s.active.value].hasSpeaker {
        RunOne(s.speaker, DoClearFrom(s.active.value), builds);
        RunSnoc(s.speaker, [DoClearFrom(s.active.value)], DoEnsure(false), builds);
      } else {
        RunOne(s.speaker, DoEnsure(false), builds);
        assert WithdrawScript(s) == [DoEnsure(false)];
      }
    }
  }

  lemma GrantRuns(s: E.State, builds: Builds)
    requires E.Closed(s)
    ensures Run(s.speaker, GrantScript(s), builds) == E.Grant(s).speaker
    ensures DoWork !in GrantScript(s)
  {
    RunOne(s.speaker, DoEnsure(true), builds);
  }

  lemma HandOverRuns(s: E.State, builds: Builds)
    requires E.Closed(s)
    ensures
      var script := WithdrawScript(s) + GrantScript(E.MakeInactive(s));
      Run(s.speaker, script, builds) == E.Grant(E.MakeInactive(s)).speaker && DoWork !in script
  {
    WithdrawRuns(s, builds);
    GrantRuns(E.MakeInactive(s), builds);
    RunCompose(s.speaker, WithdrawScript(s), GrantScript(E.MakeInactive(s)), builds);
  }

  lemma UnclaimRuns(s: E.State, builds: Builds)
    requires E.Closed(s)
    ensures Run(s.speaker, UnclaimScript(s), builds) == E.Unclaim(s).speaker
    ensures DoWork !in UnclaimScript(s)
  {
    if E.Holds(s, s.claimed) && s.claimed != s.reserved { HandOverRuns(s.(claimed := 0), builds); }
  }

  lemma UnreserveRuns(s: E.State, builds: Builds)
    requires E.Closed(s)
    ensures Run(s.speaker, UnreserveScript(s), builds) == E.Unreserve(s).speaker
    ensures DoWork !in UnreserveScript(s)
  {
    if E.Holds(s, s.reserved) { WithdrawRuns(s, builds); }
  }

  lemma ReleaseRuns(s: E.State, app: uint32, builds: Builds)
    requires E.Closed(s)
    ensures Run(s.speaker, ReleaseScript(s, app), builds) == E.Release(s, app).0.speaker
    ensures DoWork !in ReleaseScript(s, app)
  {
    if app != 0 && s.claimed == app {
      UnclaimRuns(s, builds);
    } else if app != 0 && s.reserved == app {
      UnreserveRuns(s, builds);
    }
  }

  lemma ClaimRuns(s: E.State, app: uint32, builds: Builds)
    requires E.Closed(s)
    ensures Run(s.speaker, ClaimScript(s, app), builds) == E.Claim(s, app).0.speaker
    ensures DoWork !in ClaimScript(s, app)
  {
    var claiming := s.(claimed := app);
    var vacated := E.Vacate(claiming);
    ReleaseRuns(claiming, s.reserved, builds);
    GrantRuns(vacated, builds);
    assert vacated.speaker == E.Release(claiming, s.reserved).0.speaker;
    RunCompose(s.speaker, ReleaseScript(claiming, s.reserved), GrantScript(vacated), builds);
  }

  lemma DestroyRuns(s: E.State, id: uint32, builds: Builds)
    requires E.Closed(s)
    ensures Run(s.speaker, DestroyScript(s, id), builds) == E.DestroySession(s, id).0.speaker
    ensures DoWork !in DestroyScript(s, id)
  {
    if id in s.sessionMap {
      var app := s.sessions[s.sessionMap[id]].app;
      ReleaseRuns(s, app, builds);
      var released := E.Release(s, app).0;
      if (released.sessionMap - {id}).Keys == {} {
        RunSnoc(s.speaker, ReleaseScript(s, app), DoEnsure(false), builds);
      } else {
        assert DestroyScript(s, id) == ReleaseScript(s, app);
      }
    }
  }

  lemma SpeakRuns(from: State, session: nat, id: uint32, preemptive: bool, builds: Builds)
    ensures Run(from, SpeakScript(session, id, preemptive), builds) == Speak(from, session, id, preemptive)
    ensures DoWork !in SpeakScript(session, id, preemptive)
  {
    if preemptive {
      RunThree(from, [DoCancel, DoFlush, DoPush(session, id)], builds);
      assert SpeakScript(session, id, preemptive) == [DoCancel, DoFlush, DoPush(session, id)];
    } else {
      RunOne(from, DoPush(session, id), builds);
      assert SpeakScript(session, id, preemptive) == [DoPush(session, id)];
    }
  }

  lemma SpeakScriptRuns(s: E.State, op: E.Op, builds: Builds)
    requires E.Closed(s) && op.DoSpeak?
    ensures Run(s.speaker, Script(s, op), builds) == E.Do(s, op, builds).speaker && DoWork !in Script(s, op)
  {
    SpeakRuns(s.speaker, op.session, op.speech, op.preemptive, builds);
  }

  lemma CancelScriptRuns(s: E.State, op: E.Op, builds: Builds)
    requires E.Closed(s) && (op.DoShut? || op.DoAbort?)
    ensures Run(s.speaker, Script(s, op), builds) == E.Do(s, op, builds).speaker && DoWork !in Script(s, op)
  {
    RunOne(s.speaker, if op.DoShut? then DoCancel else DoClearFrom(op.session), builds);
  }

  /** A call does to the speaker what its script says, without any step of the worker. */
  lemma ScriptRuns(s: E.State, op: E.Op, builds: Builds)
    requires E.Closed(s)
    ensures Run(s.speaker, Script(s, op), builds) == E.Do(s, op, builds).speaker
    ensures op != E.DoWork ==> DoWork !in Script(s, op)
  {
    match op
    case DoEnable(on) => GrantRuns(s.(enabled := true), builds); WithdrawRuns(s.(enabled := false), builds);
    case DoCreate(app) => GrantRuns(E.Register(s, app), builds);
    case DoDestroy(id) => DestroyRuns(s, id, builds);
    case DoReserve(app) => GrantRuns(s.(reserved := app), builds);
    case DoRelease(app) => ReleaseRuns(s, app, builds);
    case DoClaim(app) => ClaimRuns(s, app, builds);
    case DoSpeak(_, _, _, _) => SpeakScriptRuns(s, op, builds);
    case DoShut(_) => CancelScriptRuns(s, op, builds);
    case DoAbort(_) => CancelScriptRuns(s, op, builds);
    case DoBusError(network) => RunOne(s.speaker, DoBusError(network), builds);
    case DoWork => RunOne(s.speaker, DoWork, builds);
  }

  // So what holds of all speaker runs holds in the engine

  ghost predicate Reaches(from: State, to: State, builds: Builds) {
    exists acts :: Run(from, acts, builds) == to
  }

  lemma ReachesOn(from: State, mid: State, acts: seq<Action>, builds: Builds)
    requires Reaches(from, mid, builds)
    ensures Reaches(from, Run(mid, acts, builds), builds)
  {
    var first :| Run(from, first, builds) == mid;
    RunCompose(from, first, acts, builds);
    assert Run(from, first + acts, builds) == Run(mid, acts, builds);
  }

  lemma {:induction false} RunReaches(limit: uint8, ops: seq<E.Op>, builds: Builds)
    ensures Reaches(Init(limit), E.Run(limit, ops, builds).speaker, builds)
    decreases |ops|
  {
    if ops == [] {
      assert Run(Init(limit), [], builds) == Init(limit);
    } else {
      var before, op := ops[..|ops| - 1], ops[|ops| - 1];
      var s := E.Run(limit, before, builds);
      RunReaches(limit, before, builds);
      ScriptRuns(s, op, builds);
      ReachesOn(Init(limit), s.speaker, Script(s, op), builds);
    }
  }

  /** Whatever the arbitration does, speeches are conserved and cancellations do not leak. */
  lemma SpeakerInvariantsHold(limit: uint8, ops: seq<E.Op>, builds: Builds)
    ensures SpeechFates.FatesInv(E.Run(limit, ops, builds).speaker)
    ensures SpeechCancellation.CancelInv(E.Run(limit, ops, builds).speaker)
  {
    RunReaches(limit, ops, builds);
    var acts :| Run(Init(limit), acts, builds) == E.Run(limit, ops, builds).speaker;
    SpeechFates.RunKeeps(limit, acts, builds);
    SpeechCancellation.RunKeeps(limit, acts, builds);
  }
}
