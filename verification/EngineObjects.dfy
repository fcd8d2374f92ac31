/** The engine's objects under the reservation policy: sessions, and the manager that grants them the
    speaker. Every method is tied to the engine's specification. */
module EngineObjects {
  import opened Types
  import opened Engine
  import opened SpeakerObject
  import Configuration
  import IdList
  import Speaker

  /** The resource events sent, over all sessions and in order; a history. */
  class Journal {
    var notices: seq<Notice>

    constructor ()
      ensures notices == []
    {
      notices := [];
    }
  }

  class TTSSession {
    const number: nat
    const appId: uint32
    const sessionId: uint32
    const journal: Journal
    var speaker: TTSSpeaker?
    var configuration: Configuration.Config
    var preemptive: bool
    var wantsCancelled: bool   // the extended event was asked for

    constructor (number: nat, appId: uint32, sessionId: uint32, journal: Journal,
                 configuration: Configuration.Config)
      ensures this.number == number && this.appId == appId && this.sessionId == sessionId
      ensures this.journal == journal && speaker == null
      ensures this.configuration == configuration && preemptive && !wantsCancelled
    {
      this.number, this.appId, this.sessionId, this.journal := number, appId, sessionId, journal;
      this.configuration, preemptive, wantsCancelled, speaker := configuration, true, false, null;
    }

    method SetActive(speaker: TTSSpeaker)
      modifies this`speaker, journal
      ensures this.speaker == if old(this.speaker) == null then speaker else old(this.speaker)
      ensures old(this.speaker) != null ==> journal.notices == old(journal.notices)
      ensures old(this.speaker) == null ==> journal.notices == old(journal.notices) + [Acquired(number)]
    {
      if this.speaker != null { return; }
      this.speaker := speaker;
      journal.notices := journal.notices + [Acquired(number)];
    }

    /** The event with the cancelled ids, if it was asked for and there are any. */
    method Cancelled(ids: seq<uint32>) returns (event: Option<string>)
      ensures event == if wantsCancelled && ids != [] then Some(IdList.PrintIds(ids)) else None
    {
      if !wantsCancelled || |ids| <= 0 { return None; }
      var text := IdList.Cancelled(ids);
      return Some(text);
    }

    method AbortAndClearPending() returns (event: Option<string>)
      modifies speaker
      ensures speaker == null ==> event == None
      ensures speaker != null ==>
                && speaker.Model() == Speaker.ClearFrom(old(speaker.Model()), number)
                && var ids := Speaker.Ids(Speaker.Mine(old(speaker.queue), number));
                   event == if wantsCancelled && ids != [] then Some(IdList.PrintIds(ids)) else None
    {
      if speaker == null { return None; }
      var ids := speaker.ClearAllSpeechesFrom(number);
      event := Cancelled(ids);
    }

    method SetInactive()
      modifies this`speaker, speaker, journal
      ensures speaker == null
      ensures old(speaker) != null ==>
                old(speaker).Model() == Speaker.ClearFrom(old(speaker.Model()), number)
      ensures old(speaker) == null ==> journal.notices == old(journal.notices)
      ensures old(speaker) != null ==> journal.notices == old(journal.notices) + [Released(number)]
    {
      if speaker == null { return; }
      var event := AbortAndClearPending();
      speaker := null;
      journal.notices := journal.notices + [Released(number)];
    }

    predicate Configured()
      reads this
    {
      Configuration.IsConfigured(configuration)
    }

    method Speak(id: uint32) returns (status: Status)
      modifies speaker
      ensures speaker == null <==> status == NotActive
      ensures speaker != null ==>
                && (status == Ok <==> configuration.endPoint != "" || configuration.secureEndPoint != "")
                && (status == NotConfigured <==> configuration.endPoint == "" == configuration.secureEndPoint)
      ensures speaker != null ==>
                speaker.Model()
                == if status == Ok then Speaker.Speak(old(speaker.Model()), number, id, preemptive)
                   else old(speaker.Model())
    {
      if speaker == null { return NotActive; }
      if !Configured() { return NotConfigured; }
      speaker.Speak(number, id, preemptive);
      return Ok;
    }

    method Shut() returns (status: Status)
      modifies speaker
      ensures status == if speaker == null then NotActive else Ok
      ensures speaker != null ==>
                speaker.Model()
                == if old(speaker.clientSpeaking) == Some(number) then Speaker.Cancel(old(speaker.Model()))
                   else old(speaker.Model())
    {
      if speaker == null { return NotActive; }
      var speaking := speaker.SpeakingFor(number);
      if speaking { speaker.CancelCurrentSpeech(); }
      return Ok;
    }
  }

  /** The last of `count` ids given out; before any was, the counter stands at zero. */
  predicate LastIdIs(last: uint32, count: nat) {
    last == if count == 0 then 0 else IdOf(count - 1)
  }

  method NextSessionId(last: uint32, ghost count: nat) returns (id: uint32)
    requires LastIdIs(last, count)
    ensures id == IdOf(count) && LastIdIs(id, count + 1)
  {
    id := (last + 1) % 0x1_0000_0000;
  }

  class TTSManager {
    const speaker: TTSSpeaker
    const journal: Journal
    var ttsEnabled: bool
    var reservedApp: uint32
    var claimedApp: uint32
    var activeSession: TTSSession?
    var appMap: map<uint32, TTSSession>
    var sessionMap: map<uint32, TTSSession>
    var lastSessionId: uint32
    var serial: nat
    var defaultConfiguration: Configuration.Config
    ghost var created: seq<TTSSession>
    ghost var states: seq<Session>
    ghost var appNumbers: map<uint32, nat>
    ghost var sessionNumbers: map<uint32, nat>

    ghost predicate Known(session: TTSSession)
      reads this
    {
      session.number < |created| && created[session.number] == session
    }

    ghost predicate Fits(session: TTSSession, i: nat)
      requires i < |states|
      reads this, session
    {
      && session.number == i && session.journal == journal
      && states[i].app == session.appId && states[i].hasSpeaker == (session.speaker != null)
      && (session.speaker == null || session.speaker == speaker)
    }

    ghost predicate Mirrors(m: map<uint32, TTSSession>, numbers: map<uint32, nat>)
      reads this
    {
      && m.Keys == numbers.Keys
      && forall k :: k in m ==> numbers[k] == m[k].number && Known(m[k])
    }

    ghost predicate Valid()
      reads this, created
    {
      && |states| == |created| == serial && LastIdIs(lastSessionId, serial)
      && (forall i :: 0 <= i < |created| ==>
            Fits(created[i], i))
      && (activeSession != null ==> Known(activeSession))
      && Mirrors(appMap, appNumbers) && Mirrors(sessionMap, sessionNumbers)
    }

    ghost function Model(): State
      reads this, speaker, journal
    {
      State(ttsEnabled, reservedApp, claimedApp,
            if activeSession == null then None else Some(activeSession.number),
            states, appNumbers, sessionNumbers, journal.notices, speaker.Model())
    }

    constructor (speaker: TTSSpeaker, journal: Journal, configuration: Configuration.Config)
      requires journal.notices == []
      ensures Valid() && this.speaker == speaker && this.journal == journal && created == []
      ensures Model() == Engine.Init(speaker.maxFailures).(speaker := speaker.Model())
    {
      this.speaker, this.journal := speaker, journal;
      ttsEnabled, reservedApp, claimedApp, activeSession := false, 0, 0, null;
      appMap, sessionMap, lastSessionId, serial := map[], map[], 0, 0;
      defaultConfiguration := configuration;
      created, states, appNumbers, sessionNumbers := [], [], map[], map[];
    }

    method MakeSessionActive(session: TTSSession)
      requires Valid() && Known(session)
      modifies this`activeSession, this`states, session`speaker, speaker, journal
      ensures Valid() && Model() == MakeActive(old(Model()), session.number)
    {
      if activeSession != session {
        speaker.EnsurePipeline(true);
        session.SetActive(speaker);
        activeSession := session;
        states := states[session.number := Session(session.appId, true)];
      }
    }

    /** Only ever called for the active session. */
    method MakeActiveSessionInActive()
      requires Valid()
      modifies this`activeSession, this`states, activeSession, speaker, journal
      ensures Valid() && Model() == MakeInactive(old(Model()))
    {
      if activeSession != null {
        activeSession.SetInactive();
        speaker.EnsurePipeline(false);
        states := states[activeSession.number := Session(activeSession.appId, false)];
        activeSession := null;
      }
    }

    predicate ActiveIs(appId: uint32)
      requires Valid()
      reads this, created, speaker, journal
      ensures ActiveIs(appId) <==> Holds(Model(), appId)
    {
      activeSession != null && activeSession.appId == appId
    }

    method MakeReservedOrClaimedSessionActive()
      requires Valid()
      modifies this`activeSession, this`states, created, speaker, journal
      ensures Valid() && Model() == Grant(old(Model()))
    {
      if ttsEnabled {
        var appId := if claimedApp != 0 then claimedApp else reservedApp;
        if appId != 0 && appId in appMap {
          MakeSessionActive(appMap[appId]);
        }
      }
    }

    // The operations

    method EnableTTS(enable: bool)
      requires Valid()
      modifies this`ttsEnabled, this`activeSession, this`states, created, speaker, journal
      ensures Valid() && Model() == Engine.EnableTTS(old(Model()), enable)
    {
      if ttsEnabled != enable {
        ttsEnabled := enable;
        if ttsEnabled { MakeReservedOrClaimedSessionActive(); } else { MakeActiveSessionInActive(); }
      }
    }

    /** The loop over the session map. */
    method FindSessionOf(appId: uint32) returns (found: bool)
      requires Valid()
      ensures found <==> HasSession(Model(), appId)
    {
      var rest := sessionMap.Keys;
      while rest != {}
        invariant rest <= sessionMap.Keys
        invariant forall id :: id in sessionMap && id !in rest ==> sessionMap[id].appId != appId
      {
        var id :| id in rest;
        if sessionMap[id].appId == appId {
          assert id in Model().sessionMap;
          return true;
        }
        rest := rest - {id};
      }
      return false;
    }

    method Admit(session: TTSSession)
      requires Valid() && session.number == serial && session.sessionId == IdOf(serial)
      requires session.journal == journal && session.speaker == null
      modifies this`serial, this`lastSessionId, this`created, this`states
      ensures Valid() && created == old(created) + [session] && serial == old(serial) + 1
      ensures Model() == old(Model()).(sessions := old(states) + [Session(session.appId, false)])
    {
      lastSessionId := session.sessionId;
      created, states, serial := created + [session], states + [Session(session.appId, false)], serial + 1;
      assert forall i :: 0 <= i < |old(created)| ==> created[i] == old(created)[i];
    }

    method UpdateMaps(session: TTSSession)
      requires Valid() && Known(session)
      modifies this`appMap, this`sessionMap, this`appNumbers, this`sessionNumbers
      ensures Valid()
      ensures Model() == old(Model()).(appMap := old(appNumbers)[session.appId := session.number],
                                       sessionMap := old(sessionNumbers)[session.sessionId := session.number])
    {
      appMap, appNumbers := appMap[session.appId := session], appNumbers[session.appId := session.number];
      sessionMap := sessionMap[session.sessionId := session];
      sessionNumbers := sessionNumbers[session.sessionId := session.number];
    }

    method CreateSession(appId: uint32) returns (session: TTSSession?, status: Status)
      requires Valid()
      modifies this, created, speaker, journal
      ensures Valid() && (Model(), status) == Engine.CreateSession(old(Model()), appId)
      ensures session != null <==> status == Ok
      ensures session != null ==> fresh(session) && session.appId == appId
      ensures created == old(created) + if session == null then [] else [session]
    {
      var duplicate := FindSessionOf(appId);
      if duplicate { return null, Duplicate; }
      var sessionId := NextSessionId(lastSessionId, serial);
      session := new TTSSession(serial, appId, sessionId, journal, defaultConfiguration);
      Admit(session);
      UpdateMaps(session);
      MakeReservedOrClaimedSessionActive();
      status := Ok;
    }

    method ReservePlayerResource(appId: uint32) returns (status: Status)
      requires Valid()
      modifies this`reservedApp, this`activeSession, this`states, created, speaker, journal
      ensures Valid() && (Model(), status) == Reserve(old(Model()), appId)
    {
      if appId == 0 { return EmptyAppId; }
      if reservedApp != 0 {
        if reservedApp == appId { return Ok; }
        return Busy;
      }
      reservedApp := appId;
      MakeReservedOrClaimedSessionActive();
      return Ok;
    }

    method ReleaseClaim()
      requires Valid() && claimedApp != 0
      modifies this`claimedApp, this`activeSession, this`states, created, speaker, journal
      ensures Valid() && Model() == Unclaim(old(Model()))
    {
      var appId := claimedApp;
      claimedApp := 0;
      if ActiveIs(appId) && appId != reservedApp {
        MakeActiveSessionInActive();
        MakeReservedOrClaimedSessionActive();
      }
    }

    method ReleaseReservation()
      requires Valid()
      modifies this`reservedApp, this`activeSession, this`states, created, speaker, journal
      ensures Valid() && Model() == Unreserve(old(Model()))
    {
      if ActiveIs(reservedApp) { MakeActiveSessionInActive(); }
      reservedApp := 0;
    }

    method ReleasePlayerResource(appId: uint32) returns (status: Status)
      requires Valid()
      modifies this`reservedApp, this`claimedApp, this`activeSession, this`states
      modifies created, speaker, journal
      ensures Valid() && (Model(), status) == Release(old(Model()), appId)
    {
      if appId == 0 { return EmptyAppId; }
      if claimedApp != 0 && claimedApp == appId {
        ReleaseClaim();
        return Ok;
      }
      if reservedApp != 0 {
        if reservedApp != appId { return Fail; }
        ReleaseReservation();
      }
      return Ok;
    }

    method MakeWayForClaim()
      requires Valid()
      modifies this`reservedApp, this`claimedApp, this`activeSession, this`states
      modifies created, speaker, journal
      ensures Valid() && Model() == Vacate(old(Model()))
    {
      if reservedApp != 0 {
        var kept := reservedApp;
        var v := ReleasePlayerResource(reservedApp);
        reservedApp := kept;
      }
    }

    method GrantClaim() returns (status: Status)
      requires Valid()
      modifies this`reservedApp, this`claimedApp, this`activeSession, this`states
      modifies created, speaker, journal
      ensures Valid() && (Model(), status) == TakeOver(old(Model()))
    {
      MakeWayForClaim();
      MakeReservedOrClaimedSessionActive();
      status := if !ttsEnabled || ActiveIs(claimedApp) then Ok else Fail;
    }

    method ClaimPlayerResource(appId: uint32) returns (status: Status)
      requires Valid()
      modifies this`reservedApp, this`claimedApp, this`activeSession, this`states
      modifies created, speaker, journal
      ensures Valid() && (Model(), status) == Claim(old(Model()), appId)
    {
      if appId == 0 { return EmptyAppId; }
      if appId !in appMap { return AppNotFound; }
      if claimedApp != 0 {
        return if claimedApp == appId then Ok else Busy;
      }
      claimedApp := appId;
      if reservedApp != 0 && reservedApp == claimedApp {
        claimedApp := 0;
        return Ok;
      }
      status := GrantClaim();
    }

    method EraseFromMaps(sessionId: uint32, appId: uint32)
      requires Valid()
      modifies this`appMap, this`sessionMap, this`appNumbers, this`sessionNumbers
      ensures Valid()
      ensures Model() == old(Model()).(sessionMap := old(sessionNumbers) - {sessionId},
                                       appMap := old(appNumbers) - {appId})
    {
      sessionMap := sessionMap - {sessionId};
      appMap := appMap - {appId};
      appNumbers, sessionNumbers := appNumbers - {appId}, sessionNumbers - {sessionId};
    }

    method Leave(sessionId: uint32, appId: uint32)
      requires Valid()
      modifies this`appMap, this`sessionMap, this`appNumbers, this`sessionNumbers, speaker
      ensures Valid() && Model() == Erase(old(Model()), sessionId, appId)
    {
      EraseFromMaps(sessionId, appId);
      if sessionMap.Keys == {} { speaker.EnsurePipeline(false); }
    }

    method DestroySession(sessionId: uint32) returns (status: Status)
      requires Valid()
      modifies this`reservedApp, this`claimedApp, this`activeSession, this`states
      modifies this`appMap, this`sessionMap, this`appNumbers, this`sessionNumbers, created, speaker, journal
      ensures Valid() && (Model(), status) == Engine.DestroySession(old(Model()), sessionId)
    {
      if sessionId !in sessionMap { return NoSession; }
      var session := sessionMap[sessionId];
      var v := ReleasePlayerResource(session.appId);
      Leave(sessionId, session.appId);
      return Ok;
    }
  }

  // A client's calls on its session, as they move the engine

  method CallSpeak(manager: TTSManager, session: TTSSession, id: uint32) returns (status: Status)
    requires manager.Valid() && manager.Known(session)
    modifies manager.speaker
    ensures manager.Valid()
    ensures
      var configured := session.configuration.endPoint != "" || session.configuration.secureEndPoint != "";
      (manager.Model(), status)
      == Engine.Speak(old(manager.Model()), session.number, id, configured, session.preemptive)
  {
    status := session.Speak(id);
  }

  method CallShut(manager: TTSManager, session: TTSSession) returns (status: Status)
    requires manager.Valid() && manager.Known(session)
    modifies manager.speaker
    ensures manager.Valid() && (manager.Model(), status) == Engine.Shut(old(manager.Model()), session.number)
  {
    status := session.Shut();
  }

  method CallAbortAndClearPending(manager: TTSManager, session: TTSSession)
    requires manager.Valid() && manager.Known(session)
    modifies manager.speaker
    ensures manager.Valid()
    ensures manager.Model() == Engine.AbortAndClearPending(old(manager.Model()), session.number)
  {
    var event := session.AbortAndClearPending();
  }
}
