/** What the engine's answers tell a caller, from the state the call leaves behind. */
module AnswerCodes {
  import opened Types
  import Speaker
  import SpeechCancellation
  import opened Engine
  import opened Arbitration

  /** A claim is granted if and only if the app is live and owns the speaker afterwards; it is refused as
      busy if and only if another app has the claim; and a refused claim changes nothing. */
  lemma ClaimAnswersExactly(s: State, app: uint32)
    requires Inv(s)
    ensures
      var (r, code) := Claim(s, app);
      && (code == Ok <==> app != 0 && app in s.appMap && Owner(r) == app)
      && (code == Busy <==> app != 0 && app in s.appMap && s.claimed != 0 && s.claimed != app)
      && (code == EmptyAppId <==> app == 0)
      && (code == AppNotFound <==> app != 0 && app !in s.appMap)
      && (code != Ok ==> r == s)
  {
    ClaimKeeps(s, app);
    if app in s.appMap && app != 0 && s.claimed == 0 && s.reserved != app { ClaimLeavesClaim(s, app); }
  }

  lemma ClaimLeavesClaim(s: State, app: uint32)
    requires Inv(s) && app in s.appMap && app != 0 && s.claimed == 0 && s.reserved != app
    ensures Claim(s, app).0.claimed == app
  {
    var claiming := s.(claimed := app);
    assert Vacate(claiming).claimed == app;
  }

  /** A reservation is granted if and only if the app has it afterwards; it is busy if and only if
      another app has it. */
  lemma ReserveAnswersExactly(s: State, app: uint32)
    requires Closed(s)
    ensures
      var (r, code) := Reserve(s, app);
      && (code == Ok <==> app != 0 && r.reserved == app)
      && (code == Busy <==> app != 0 && r.reserved != app)
      && (code == EmptyAppId <==> app == 0)
      && (code == Busy <==> app != 0 && s.reserved != 0 && s.reserved != app)
      && (code != Ok ==> r == s)
  {}

  /** A release is granted if and only if the app gives up a claim, or nobody has the reservation
      afterwards; it fails if and only if another app has the reservation and the app no claim. */
  lemma ReleaseAnswersExactly(s: State, app: uint32)
    requires Inv(s)
    ensures
      var (r, code) := Release(s, app);
      && (code == Ok <==> app != 0 && (s.claimed == app || r.reserved == 0))
      && (code == Fail <==> app != 0 && s.claimed != app && s.reserved != 0 && s.reserved != app)
      && (code == EmptyAppId <==> app == 0)
      && (code == Ok ==> r.claimed != app)
      && (code != Ok ==> r == s)
  {
    if app != 0 { ReleaseLeaves(s, app); }
  }

  /** A session is created if and only if the app has none; it then is the next in number, and both maps
      lead to it, and to every other session as before. */
  lemma CreateAnswersExactly(s: State, app: uint32)
    requires Inv(s)
    ensures
      var (r, code) := CreateSession(s, app);
      && (code == Ok <==> app !in s.appMap)
      && (code == Duplicate <==> app in s.appMap)
      && (code == Duplicate ==> r == s)
      && (code == Ok ==>
            && |r.sessions| == |s.sessions| + 1 && r.sessions[|s.sessions|].app == app
            && r.appMap == s.appMap[app := |s.sessions|]
            && r.sessionMap == s.sessionMap[IdOf(|s.sessions|) := |s.sessions|]
            && r.claimed == s.claimed && r.reserved == s.reserved)
  {
    HasSessionIffMapped(s, app);
    if app !in s.appMap { RegistersNext(s, app); }
  }

  lemma RegistersNext(s: State, app: uint32)
    requires Closed(s)
    ensures
      var r := Grant(Register(s, app));
      && |r.sessions| == |s.sessions| + 1 && r.sessions[|s.sessions|].app == app
      && r.appMap == s.appMap[app := |s.sessions|]
      && r.sessionMap == s.sessionMap[IdOf(|s.sessions|) := |s.sessions|]
      && r.claimed == s.claimed && r.reserved == s.reserved
  {
    assert Register(s, app).sessions[|s.sessions|].app == app;
  }

  lemma EraseForgets(s: State, id: uint32, app: uint32)
    requires Closed(s)
    ensures
      var r := Erase(s, id, app);
      && r.sessionMap == s.sessionMap - {id} && r.appMap == s.appMap - {app}
      && (r.sessionMap.Keys == {} ==> !r.speaker.pipe.ensure)
  {}

  /** A session is destroyed if and only if there is one of this id; both entries go, and no others, and
      with the last one the wish for a pipeline. */
  lemma DestroyAnswersExactly(s: State, id: uint32)
    requires Inv(s)
    ensures
      var (r, code) := DestroySession(s, id);
      && (code == Ok <==> id in s.sessionMap) && (code == NoSession <==> id !in s.sessionMap)
      && (code == NoSession ==> r == s)
      && (code == Ok ==>
            && r.sessionMap == s.sessionMap - {id}
            && r.appMap == s.appMap - {s.sessions[s.sessionMap[id]].app}
            && (r.sessionMap.Keys == {} ==> !r.speaker.pipe.ensure))
  {
    if id in s.sessionMap {
      var app := s.sessions[s.sessionMap[id]].app;
      var released := Release(s, app).0;
      assert released.sessionMap == s.sessionMap && released.appMap == s.appMap by {
        if app != 0 { ReleaseLeaves(s, app); }
      }
      assert DestroySession(s, id) == (Erase(released, id, app), Ok);
      EraseForgets(released, id, app);
    }
  }

  /** A request is accepted if and only if the session has the speaker and an end point; then, and only
      then, it is the last accepted by the speaker, in the session's name. */
  lemma SpeakAnswersExactly(s: State, session: nat, id: uint32, configured: bool, preemptive: bool)
    requires session < |s.sessions|
    ensures
      var (r, code) := Speak(s, session, id, configured, preemptive);
      && (code == Ok <==> s.sessions[session].hasSpeaker && configured)
      && (code == NotActive <==> !s.sessions[session].hasSpeaker)
      && (code == NotConfigured <==> s.sessions[session].hasSpeaker && !configured)
      && (code != Ok ==> r == s)
      && (code == Ok ==>
            && r.speaker.hist.accepted
               == s.speaker.hist.accepted + [Speaker.Speech(|s.speaker.hist.accepted|, session, id)]
            && r == s.(speaker := r.speaker))
  {}

  /** Shutting up is answered by whether the session has the speaker; it makes its own speech due for
      interruption, and no one else's. */
  lemma ShutAnswersExactly(s: State, session: nat)
    requires session < |s.sessions| && SpeechCancellation.CancelInv(s.speaker)
    ensures
      var (r, code) := Shut(s, session);
      var phase := s.speaker.phase;
      && (code == Ok <==> s.sessions[session].hasSpeaker)
      && (code == NotActive <==> !s.sessions[session].hasSpeaker)
      && r.speaker.queue == s.speaker.queue
      && (code == Ok && phase.Speaking? && phase.speech.client == session ==>
            SpeechCancellation.CancelDue(r.speaker, phase.speech))
      && (phase.Speaking? && phase.speech.client != session ==> r == s)
  {}

  /** Nobody has had the speaker, and nothing was sent or accepted. */
  predicate Untouched(s: State) {
    && !s.enabled && s.active.None? && s.notices == []
    && forall h | 0 <= h < |s.sessions| :: !s.sessions[h].hasSpeaker
  }

  lemma StepLeavesUntouched(s: State, op: Op, builds: Speaker.Builds)
    requires Closed(s) && Untouched(s) && op != DoEnable(true)
    ensures Untouched(Do(s, op, builds))
  {
    match op
    case DoDestroy(id) =>
      if id in s.sessionMap {
        var released := Release(s, s.sessions[s.sessionMap[id]].app).0;
        assert Untouched(released);
        assert Untouched(Erase(released, id, s.sessions[s.sessionMap[id]].app));
      }
    case DoClaim(app) =>
      var claiming := s.(claimed := app);
      assert Untouched(Vacate(claiming)) && Untouched(Grant(Vacate(claiming)));
    case DoRelease(app) => assert Untouched(Release(s, app).0);
    case DoCreate(app) => assert Untouched(Register(s, app));
    case DoReserve(app) => assert Untouched(Reserve(s, app).0);
    case DoEnable(on) => assert EnableTTS(s, on) == s;
    case _ => SpeakerStepMovesOnlySpeaker(s, op, builds);
  }

  /** Until speech is enabled for the first time, whatever is created, reserved or claimed, no session gets
      the speaker and no client hears of it. */
  lemma {:induction false} NothingBeforeEnabling(limit: uint8, ops: seq<Op>, builds: Speaker.Builds)
    requires DoEnable(true) !in ops
    ensures Untouched(Run(limit, ops, builds))
    decreases |ops|
  {
    if ops != [] {
      NothingBeforeEnabling(limit, ops[..|ops| - 1], builds);
      StepLeavesUntouched(Run(limit, ops[..|ops| - 1], builds), ops[|ops| - 1], builds);
    }
  }
}
