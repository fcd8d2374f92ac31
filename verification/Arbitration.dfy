/** Who holds the speaker, in every reachable state of the engine. */
module Arbitration {
  import opened Types
  import Speaker
  import opened Engine

  /** The session entitled to the speaker: the live session of the claiming app, else of the
      reserving one, while speech is enabled. */
  function Holder(s: State): Option<nat> {
    if s.enabled && Owner(s) != 0 && Owner(s) in s.appMap then Some(s.appMap[Owner(s)]) else None
  }

  /** The two maps are two views of the same live sessions. */
  predicate MapsAgree(s: State)
    requires Closed(s)
  {
    && (forall app | app in s.appMap ::
          var session := s.appMap[app];
          s.sessions[session].app == app
          && IdOf(session) in s.sessionMap && s.sessionMap[IdOf(session)] == session)
    && (forall id | id in s.sessionMap ::
          var session := s.sessionMap[id];
          IdOf(session) == id
          && s.sessions[session].app in s.appMap && s.appMap[s.sessions[session].app] == session)
  }

  /** The session that holds the speaker is the only one that has it set. */
  predicate OnlyActiveHasSpeaker(s: State) {
    forall session | 0 <= session < |s.sessions| ::
      s.sessions[session].hasSpeaker <==> s.active == Some(session)
  }

  /** All of the invariant but who the holder is. */
  predicate Sound(s: State) {
    && Closed(s) && MapsAgree(s) && OnlyActiveHasSpeaker(s)
    && (s.speaker.pipe.ensure <==> s.active.Some?)
  }

  predicate Inv(s: State) {
    && Sound(s)
    && (s.claimed != 0 ==> s.claimed in s.appMap)
    && s.active == Holder(s)
  }

  /** The calls that break the invariant: creating a session when its wire id, after the counter ran
      over, is still in use; and, while enabled, destroying the session of an app that has both
      claimed and reserved the speaker. */
  predicate Breaks(s: State, op: Op)
    requires Closed(s)
  {
    match op
    case DoCreate(app) => !HasSession(s, app) && IdOf(|s.sessions|) in s.sessionMap
    case DoDestroy(id) =>
      id in s.sessionMap && s.enabled && s.claimed == s.reserved != 0
      && s.sessions[s.sessionMap[id]].app == s.claimed
    case _ => false
  }

  lemma HasSessionIffMapped(s: State, app: uint32)
    requires Inv(s)
    ensures HasSession(s, app) <==> app in s.appMap
  {}

  /** Everything but the holder, its speaker and the notices is as before. */
  predicate SameBooks(s: State, r: State) {
    && r.enabled == s.enabled && r.reserved == s.reserved && r.claimed == s.claimed
    && r.appMap == s.appMap && r.sessionMap == s.sessionMap && |r.sessions| == |s.sessions|
    && forall k | 0 <= k < |s.sessions| :: r.sessions[k].app == s.sessions[k].app
  }

  lemma BooksAgree(s: State, r: State)
    requires Closed(s) && Closed(r) && MapsAgree(s) && SameBooks(s, r)
    ensures MapsAgree(r)
  {}

  lemma Withdraws(s: State)
    requires Sound(s)
    ensures Sound(MakeInactive(s)) && MakeInactive(s).active == None && SameBooks(s, MakeInactive(s))
  {
    var r := MakeInactive(s);
    assert Closed(r) && SameBooks(s, r);
    BooksAgree(s, r);
  }

  lemma Grants(s: State)
    requires Sound(s) && (s.active == None || s.active == Holder(s))
    ensures Sound(Grant(s)) && Grant(s).active == Holder(s) && SameBooks(s, Grant(s))
  {
    var r := Grant(s);
    assert Closed(r) && SameBooks(s, r);
    BooksAgree(s, r);
  }

  lemma EnableKeeps(s: State, on: bool)
    requires Inv(s)
    ensures Inv(EnableTTS(s, on))
  {
    Grants(s.(enabled := true));
    Withdraws(s.(enabled := false));
  }

  lemma ReserveKeeps(s: State, app: uint32)
    requires Inv(s)
    ensures Inv(Reserve(s, app).0)
  {
    if s.reserved == 0 && s.active == None {
      Grants(s.(reserved := app));
    }
  }

  lemma UnclaimKeeps(s: State, app: uint32)
    requires Inv(s) && app != 0 && s.claimed == app
    ensures Inv(Release(s, app).0)
  {
    var unclaimed := s.(claimed := 0);
    if Holds(s, app) && app != s.reserved {
      Withdraws(unclaimed);
      Grants(MakeInactive(unclaimed));
    }
  }

  lemma UnreserveKeeps(s: State, app: uint32)
    requires Inv(s) && app != 0 && s.claimed != app && s.reserved == app
    ensures Inv(Release(s, app).0)
  {
    if Holds(s, app) {
      Withdraws(s);
    }
  }

  lemma ReleaseKeeps(s: State, app: uint32)
    requires Inv(s)
    ensures Inv(Release(s, app).0)
  {
    if app != 0 && s.claimed == app {
      UnclaimKeeps(s, app);
    } else if app != 0 && s.reserved == app {
      UnreserveKeeps(s, app);
    }
  }

  /** The claimant takes over from the reserving app, whose reservation is kept. */
  lemma ClaimKeeps(s: State, app: uint32)
    requires Inv(s)
    ensures Inv(Claim(s, app).0) && Claim(s, app).1 != Fail
  {
    if app in s.appMap && app != 0 && s.claimed == 0 && s.reserved != app {
      var claiming := s.(claimed := app);
      Withdraws(claiming);
      var vacated := Vacate(claiming);
      assert vacated == claiming || vacated == MakeInactive(claiming);
      Grants(vacated);
    }
  }

  lemma Registers(s: State, app: uint32)
    requires Inv(s) && app !in s.appMap && IdOf(|s.sessions|) !in s.sessionMap
    ensures Sound(Register(s, app))
  {
    assert Closed(Register(s, app)) && MapsAgree(Register(s, app));
  }

  lemma FreshIdKeeps(s: State, app: uint32)
    requires Inv(s) && app !in s.appMap && IdOf(|s.sessions|) !in s.sessionMap
    ensures Inv(Grant(Register(s, app)))
  {
    Registers(s, app);
    Grants(Register(s, app));
  }

  lemma UsedIdBreaks(s: State, app: uint32)
    requires Inv(s) && app !in s.appMap && IdOf(|s.sessions|) in s.sessionMap
    ensures Closed(Register(s, app)) && !Inv(Grant(Register(s, app)))
  {
    var lost, r := s.sessionMap[IdOf(|s.sessions|)], Grant(Register(s, app));
    assert r.appMap[s.sessions[lost].app] == lost && r.sessionMap[IdOf(lost)] != lost;
  }

  lemma CreateKeepsExactly(s: State, app: uint32)
    requires Inv(s)
    ensures Inv(CreateSession(s, app).0) <==> !Breaks(s, DoCreate(app))
  {
    HasSessionIffMapped(s, app);
    if app !in s.appMap {
      assert CreateSession(s, app).0 == Grant(Register(s, app));
      if IdOf(|s.sessions|) in s.sessionMap { UsedIdBreaks(s, app); } else { FreshIdKeeps(s, app); }
    }
  }

  /** What is left of the owners when an app has released, and that nothing else changes. */
  lemma ReleaseLeaves(s: State, app: uint32)
    requires Inv(s) && app != 0
    ensures
      var r := Release(s, app).0;
      && r.enabled == s.enabled && r.appMap == s.appMap && r.sessionMap == s.sessionMap
      && |r.sessions| == |s.sessions|
      && (forall k | 0 <= k < |s.sessions| :: r.sessions[k].app == s.sessions[k].app)
      && r.claimed == (if s.claimed == app then 0 else s.claimed)
      && r.reserved == (if s.reserved == app && s.claimed != app then 0 else s.reserved)
  {
    if s.claimed == app {
      Withdraws(s.(claimed := 0));
      Grants(MakeInactive(s.(claimed := 0)));
    } else {
      Withdraws(s);
    }
  }

  lemma ErasedMapsAgree(s: State, id: uint32, app: uint32)
    requires Closed(s) && MapsAgree(s)
    requires id in s.sessionMap && s.sessions[s.sessionMap[id]].app == app
    ensures
      var r := Erase(s, id, app);
      Closed(r) && MapsAgree(r) && (r.sessionMap == map[] ==> r.appMap == map[])
  {
    var r := Erase(s, id, app);
    assert forall other | other in r.appMap :: IdOf(s.appMap[other]) in r.sessionMap;
    if r.sessionMap == map[] { assert r.appMap.Keys == {}; }
  }

  lemma Erases(s: State, id: uint32, app: uint32)
    requires Inv(s) && id in s.sessionMap && s.sessions[s.sessionMap[id]].app == app
    requires s.active != Some(s.sessionMap[id]) && (app == 0 || s.claimed != app)
    ensures Inv(Erase(s, id, app))
  {
    ErasedMapsAgree(s, id, app);
    assert s.active.Some? ==> Owner(s) in Erase(s, id, app).appMap;
  }

  lemma ErasingTheHolderBreaks(s: State, id: uint32, app: uint32)
    requires Inv(s) && id in s.sessionMap && s.sessions[s.sessionMap[id]].app == app
    requires s.active == Some(s.sessionMap[id]) && Owner(s) == app
    ensures !Inv(Erase(s, id, app))
  {}

  lemma DestroyKeepsExactly(s: State, id: uint32)
    requires Inv(s)
    ensures Inv(DestroySession(s, id).0) <==> !Breaks(s, DoDestroy(id))
  {
    if id in s.sessionMap {
      var app := s.sessions[s.sessionMap[id]].app;
      var released := Release(s, app).0;
      assert Inv(released) by { ReleaseKeeps(s, app); }
      if app != 0 { ReleaseLeaves(s, app); }
      assert DestroySession(s, id).0 == Erase(released, id, app);
      if released.active == Some(s.sessionMap[id]) {
        ErasingTheHolderBreaks(released, id, app);
      } else {
        Erases(released, id, app);
      }
    }
  }

  lemma OnlySpeakerMoves(s: State, speaker: Speaker.State)
    requires Inv(s) && speaker.pipe.ensure == s.speaker.pipe.ensure
    ensures Inv(s.(speaker := speaker))
  {}

  predicate SpeakerOp(op: Op) {
    op.DoSpeak? || op.DoShut? || op.DoAbort? || op.DoBusError? || op.DoWork?
  }

  lemma BuildingKeepsFlag(p: Speaker.Pipe, builds: Speaker.Builds)
    ensures Speaker.Create(p, builds).ensure == p.ensure
    ensures Speaker.ResetPipe(p, builds).ensure == p.ensure
  {}

  lemma PipelineWorkKeepsFlag(speaker: Speaker.State, builds: Speaker.Builds)
    requires speaker.phase.Build? || speaker.phase.Resetting?
    ensures Speaker.WorkerStep(speaker, builds).pipe.ensure == speaker.pipe.ensure
  {
    BuildingKeepsFlag(speaker.pipe, builds);
  }

  lemma TestingKeepsFlag(speaker: Speaker.State, builds: Speaker.Builds)
    requires speaker.phase.Top? || speaker.phase.AfterBuild? || speaker.phase.Waiting? || speaker.phase.Ready?
    ensures Speaker.WorkerStep(speaker, builds).pipe.ensure == speaker.pipe.ensure
  {}

  lemma SpeechWorkKeepsFlag(speaker: Speaker.State, builds: Speaker.Builds)
    requires speaker.phase.Committed? || speaker.phase.Failing? || speaker.phase.Held?
             || speaker.phase.Speaking? || speaker.phase.Clearing?
    ensures Speaker.WorkerStep(speaker, builds).pipe.ensure == speaker.pipe.ensure
  {}

  /** The worker reads the wish for a pipeline, but does not change it. */
  lemma WorkKeepsFlag(speaker: Speaker.State, builds: Speaker.Builds)
    ensures Speaker.WorkerStep(speaker, builds).pipe.ensure == speaker.pipe.ensure
  {
    match speaker.phase
    case Build => PipelineWorkKeepsFlag(speaker, builds);
    case Resetting => PipelineWorkKeepsFlag(speaker, builds);
    case Top => TestingKeepsFlag(speaker, builds);
    case AfterBuild => TestingKeepsFlag(speaker, builds);
    case Waiting => TestingKeepsFlag(speaker, builds);
    case Ready => TestingKeepsFlag(speaker, builds);
    case Stopped =>
    case Undefined =>
    case _ => SpeechWorkKeepsFlag(speaker, builds);
  }

  lemma SpeakerStepKeepsFlag(s: State, op: Op, builds: Speaker.Builds)
    requires Closed(s) && SpeakerOp(op)
    ensures Do(s, op, builds).speaker.pipe.ensure == s.speaker.pipe.ensure
  {
    var r, flag := Do(s, op, builds), s.speaker.pipe.ensure;
    match op
    case DoSpeak(session, id, _, preemptive) =>
      assert Speaker.Speak(s.speaker, session, id, preemptive).pipe.ensure == flag;
    case DoShut(_) => assert r.speaker.pipe.ensure == flag;
    case DoAbort(session) => assert Speaker.ClearFrom(s.speaker, session).pipe.ensure == flag;
    case DoBusError(network) => assert Speaker.BusError(s.speaker, network).pipe.ensure == flag;
    case DoWork => WorkKeepsFlag(s.speaker, builds);
  }

  lemma SpeakerStepMovesOnlySpeaker(s: State, op: Op, builds: Speaker.Builds)
    requires Closed(s) && SpeakerOp(op)
    ensures Do(s, op, builds) == s.(speaker := Do(s, op, builds).speaker)
  {}

  /** Every call keeps the invariant, except exactly those that break it. */
  lemma StepKeepsExactly(s: State, op: Op, builds: Speaker.Builds)
    requires Inv(s)
    ensures Inv(Do(s, op, builds)) <==> !Breaks(s, op)
  {
    match op
    case DoEnable(on) => EnableKeeps(s, on);
    case DoCreate(app) => CreateKeepsExactly(s, app);
    case DoDestroy(id) => DestroyKeepsExactly(s, id);
    case DoReserve(app) => ReserveKeeps(s, app);
    case DoRelease(app) => ReleaseKeeps(s, app);
    case DoClaim(app) => ClaimKeeps(s, app);
    case _ =>
      SpeakerStepKeepsFlag(s, op, builds);
      SpeakerStepMovesOnlySpeaker(s, op, builds);
      OnlySpeakerMoves(s, Do(s, op, builds).speaker);
  }

  /** No call of the run is one that breaks the invariant. */
  predicate Clean(limit: uint8, ops: seq<Op>, builds: Speaker.Builds)
    decreases |ops|
  {
    ops != [] ==>
      var before := ops[..|ops| - 1];
      Clean(limit, before, builds) && !Breaks(Run(limit, before, builds), ops[|ops| - 1])
  }

  /** The invariant holds at the end of the run and in every state on the way. */
  predicate Throughout(limit: uint8, ops: seq<Op>, builds: Speaker.Builds)
    decreases |ops|
  {
    && (ops != [] ==> Throughout(limit, ops[..|ops| - 1], builds))
    && Inv(Run(limit, ops, builds))
  }

  /** The invariant holds in every state of a run if and only if no call of the run breaks it. */
  lemma {:induction false} InvariantHoldsExactly(limit: uint8, ops: seq<Op>, builds: Speaker.Builds)
    ensures Throughout(limit, ops, builds) <==> Clean(limit, ops, builds)
    decreases |ops|
  {
    if ops != [] {
      var before := ops[..|ops| - 1];
      InvariantHoldsExactly(limit, before, builds);
      if Throughout(limit, before, builds) {
        assert Inv(Run(limit, before, builds));
        StepKeepsExactly(Run(limit, before, builds), ops[|ops| - 1], builds);
      }
    }
  }

  /** So a claim never comes back with the failure code, and the one session with the speaker is the
      live session of the owner. */
  lemma ClaimNeverFails(limit: uint8, ops: seq<Op>, builds: Speaker.Builds, app: uint32)
    requires Clean(limit, ops, builds)
    ensures Claim(Run(limit, ops, builds), app).1 != Fail
    ensures
      var s := Claim(Run(limit, ops, builds), app).0;
      forall session | 0 <= session < |s.sessions| ::
        s.sessions[session].hasSpeaker <==> Holder(s) == Some(session)
  {
    InvariantHoldsExactly(limit, ops, builds);
    ClaimKeeps(Run(limit, ops, builds), app);
  }
}
