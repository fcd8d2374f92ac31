/** What the arbitration promises to an app that holds the speaker, and where the promise ends. */
module ArbitrationLaws {
  import opened Types
  import Speaker
  import opened Engine
  import opened Arbitration

  /** The only calls by which a holder loses the speaker: disabling speech, its own release or the
      destruction of its session, unless it holds by a claim and by a reservation, and another app's
      claim while it holds by reservation. */
  predicate TakesAway(s: State, op: Op)
    requires Closed(s) && s.active.Some?
  {
    var app := s.sessions[s.active.value].app;
    var twice := s.claimed == app && s.reserved == app;
    match op
    case DoEnable(on) => !on
    case DoRelease(other) => other == app && !twice
    case DoDestroy(id) => id in s.sessionMap && Some(s.sessionMap[id]) == s.active && !twice
    case DoClaim(other) => s.claimed == 0 && other != app && other != 0 && other in s.appMap
    case _ => false
  }

  lemma ReleaseTakesAwayExactly(s: State, app: uint32)
    requires Inv(s) && s.active.Some?
    ensures
      var r := Release(s, app).0;
      r.active != s.active <==> TakesAway(s, DoRelease(app))
  {
    if app != 0 && s.claimed == app {
      Withdraws(s.(claimed := 0));
      Grants(MakeInactive(s.(claimed := 0)));
    } else {
      Withdraws(s);
    }
  }

  lemma ClaimTakesAwayExactly(s: State, app: uint32)
    requires Inv(s) && s.active.Some?
    ensures Claim(s, app).0.active != s.active <==> TakesAway(s, DoClaim(app))
  {
    ClaimKeeps(s, app);
    assert Claim(s, app).0.active == Holder(Claim(s, app).0);
  }

  /** A holder loses the speaker by these calls and by no others. */
  lemma LosesExactly(s: State, op: Op, builds: Speaker.Builds)
    requires Inv(s) && s.active.Some?
    ensures Do(s, op, builds).active != s.active <==> TakesAway(s, op)
  {
    match op
    case DoRelease(app) => ReleaseTakesAwayExactly(s, app);
    case DoClaim(app) => ClaimTakesAwayExactly(s, app);
    case DoDestroy(id) =>
      if id in s.sessionMap { ReleaseTakesAwayExactly(s, s.sessions[s.sessionMap[id]].app); }
    case DoCreate(app) => HasSessionIffMapped(s, app);
    case _ =>
      if SpeakerOp(op) { SpeakerStepMovesOnlySpeaker(s, op, builds); }
  }

  /** No other app can displace an app that holds by a claim, nor undo its claim. */
  lemma ClaimIsExclusive(s: State, other: uint32, builds: Speaker.Builds)
    requires Inv(s) && s.active.Some? && s.claimed != 0 && other != s.claimed
    ensures forall op | op in [DoReserve(other), DoClaim(other), DoRelease(other), DoCreate(other)] ::
              Do(s, op, builds).active == s.active && Do(s, op, builds).claimed == s.claimed
  {}

  function ClaimAndRelease(s: State, app: uint32): (r: State)
    requires Closed(s)
    ensures Closed(r)
  {
    Release(Claim(s, app).0, app).0
  }

  lemma SameHolderSameSessions(s: State, r: State)
    requires Inv(s) && Inv(r) && SameBooks(s, r)
    ensures r.active == s.active && r.sessions == s.sessions
    ensures r == s.(notices := r.notices, speaker := r.speaker)
    ensures r.speaker.pipe.ensure == s.speaker.pipe.ensure
  {}

  lemma VacatesForClaim(s: State, app: uint32)
    requires Inv(s) && s.claimed == 0 && app in s.appMap && app != 0 && app != s.reserved
    ensures
      var claiming := s.(claimed := app);
      Claim(s, app).0 == Grant(if s.active.Some? then MakeInactive(claiming) else claiming)
  {}

  /** What a successful claim does, whoever has the reservation. */
  lemma ClaimTakesOver(s: State, app: uint32)
    requires Inv(s) && s.claimed == 0 && app in s.appMap && app != 0 && app != s.reserved
    ensures
      var r := Claim(s, app).0;
      && SameBooks(s.(claimed := app), r)
      && r.notices == s.notices
           + (if s.active.Some? then [Released(s.active.value)] else [])
           + (if s.enabled then [Acquired(s.appMap[app])] else [])
  {
    VacatesForClaim(s, app);
    var claiming := s.(claimed := app);
    var vacated := if s.active.Some? then MakeInactive(claiming) else claiming;
    Withdraws(claiming);
    assert vacated.notices
        == s.notices + if s.active.Some? then [Released(s.active.value)] else [];
    Grants(vacated);
  }

  lemma UnclaimVacates(s: State, app: uint32)
    requires Inv(s) && s.claimed == app != 0 && app != s.reserved
    ensures
      var unclaimed := s.(claimed := 0);
      Release(s, app).0 == if s.active.Some? then Grant(MakeInactive(unclaimed)) else unclaimed
  {}

  /** What the release of a claim does when another app has the reservation. */
  lemma ReleaseHandsBack(s: State, app: uint32)
    requires Inv(s) && s.claimed == app != 0 && app != s.reserved
    ensures
      var r := Release(s, app).0;
      && SameBooks(s.(claimed := 0), r)
      && r.notices == s.notices
           + (if s.active.Some? then [Released(s.active.value)] else [])
           + (if r.active.Some? then [Acquired(r.active.value)] else [])
  {
    UnclaimVacates(s, app);
    if s.active.Some? {
      var vacated := MakeInactive(s.(claimed := 0));
      Withdraws(s.(claimed := 0));
      assert vacated.notices == s.notices + [Released(s.active.value)];
      Grants(vacated);
    }
  }

  lemma ClaimThenReleaseKeepsBooks(s: State, app: uint32)
    requires Inv(s) && s.claimed == 0 && s.reserved != 0
    requires app in s.appMap && app != 0 && app != s.reserved
    ensures
      var claimed, r := Claim(s, app).0, ClaimAndRelease(s, app);
      && Inv(claimed) && claimed.active == (if s.enabled then Some(s.appMap[app]) else None)
      && Inv(r) && SameBooks(s, r)
  {
    ClaimKeeps(s, app);
    ClaimTakesOver(s, app);
    ReleaseKeeps(Claim(s, app).0, app);
    ReleaseHandsBack(Claim(s, app).0, app);
  }

  /** A claim that is over leaves no trace but the resource events: the reserving app has the speaker
      again, and every other part of the manager's state is as before. */
  lemma ClaimThenReleaseRestores(s: State, app: uint32)
    requires Inv(s) && s.claimed == 0 && s.reserved != 0
    requires app in s.appMap && app != 0 && app != s.reserved
    ensures
      var r := ClaimAndRelease(s, app);
      && r == s.(notices := r.notices, speaker := r.speaker)
      && r.speaker.pipe.ensure == s.speaker.pipe.ensure
      && r.notices == s.notices
           + (if s.active.Some? then [Released(s.active.value)] else [])
           + (if s.enabled then [Acquired(s.appMap[app])] else [])
           + (if s.enabled then [Released(s.appMap[app])] else [])
           + (if s.active.Some? then [Acquired(s.active.value)] else [])
  {
    var claimed, r := Claim(s, app).0, ClaimAndRelease(s, app);
    assert Inv(claimed) && claimed.active == (if s.enabled then Some(s.appMap[app]) else None) by {
      ClaimThenReleaseKeepsBooks(s, app);
    }
    assert r.active == s.active && r == s.(notices := r.notices, speaker := r.speaker)
           && r.speaker.pipe.ensure == s.speaker.pipe.ensure by {
      ClaimThenReleaseKeepsBooks(s, app);
      SameHolderSameSessions(s, r);
    }
    assert claimed.claimed == app && claimed.reserved == s.reserved && claimed.notices == s.notices
           + (if s.active.Some? then [Released(s.active.value)] else [])
           + (if s.enabled then [Acquired(s.appMap[app])] else []) by {
      ClaimTakesOver(s, app);
    }
    assert r.notices == claimed.notices
           + (if claimed.active.Some? then [Released(claimed.active.value)] else [])
           + (if r.active.Some? then [Acquired(r.active.value)] else []) by {
      ReleaseHandsBack(claimed, app);
    }
  }

  /** Speech is enabled and app 7, which has the first session, has both claimed and reserved. */
  function ClaimedAndReserved(limit: uint8): (s: State)
    ensures Closed(s)
  {
    Reserve(Claim(EnableTTS(CreateSession(Init(limit), 7).0, true), 7).0, 7).0
  }

  lemma ClaimedAndReservedHolds(limit: uint8)
    ensures
      var both := ClaimedAndReserved(limit);
      && Inv(both) && both.enabled && both.claimed == both.reserved == 7 && both.active == Some(0)
      && both.sessions == [Session(7, true)] && both.appMap == map[7 := 0] && both.sessionMap == map[1 := 0]
  {
    var created := CreateSession(Init(limit), 7).0;
    assert created == Init(limit).(sessions := [Session(7, false)], appMap := map[7 := 0],
                                   sessionMap := map[1 := 0]);
    EnableKeeps(created, true);
    ClaimKeeps(EnableTTS(created, true), 7);
    ReserveKeeps(Claim(EnableTTS(created, true), 7).0, 7);
  }

  /** An app that claims and then reserves, and whose session is destroyed, leaves its session with
      the speaker; when the app comes back, two sessions have it. */
  lemma ClaimAndReserveThenDestroyDuplicates(limit: uint8)
    ensures
      var both := ClaimedAndReserved(limit);
      var gone := DestroySession(both, 1).0;
      var back := CreateSession(gone, 7).0;
      && Inv(both) && Breaks(both, DoDestroy(1))
      && gone.active == Some(0) && 1 !in gone.sessionMap && 7 !in gone.appMap
      && |back.sessions| == 2 && back.sessions[0].hasSpeaker && back.sessions[1].hasSpeaker
  {
    ClaimedAndReservedHolds(limit);
    var gone := DestroySession(ClaimedAndReserved(limit), 1).0;
    assert gone.sessionMap == map[] && gone.appMap == map[];
  }
}
