/** Session ids: a 32-bit counter, and what follows as long as it has not run over. */
module SessionIds {
  import opened Types
  import Speaker
  import opened Engine
  import opened Arbitration

  /** Fewer than 2^32 sessions apart, ids differ. */
  lemma IdsDiffer(i: nat, j: nat)
    requires i < j < i + 0x1_0000_0000
    ensures IdOf(i) != IdOf(j)
  {
    var a, b := i + 1, j + 1;
    assert b - a == (b / 0x1_0000_0000 - a / 0x1_0000_0000) * 0x1_0000_0000
                    + (b % 0x1_0000_0000 - a % 0x1_0000_0000);
  }

  /** The first sessions have the ids 1, 2, 3 and so on; zero comes up only when the counter runs over. */
  lemma IdsCountUp(i: nat)
    requires i < 0xffff_ffff
    ensures IdOf(i) == i + 1
  {}

  /** Every entry of the session map stands under the id of the session it leads to. */
  predicate Filed(s: State)
    requires Closed(s)
  {
    forall id | id in s.sessionMap :: IdOf(s.sessionMap[id]) == id
  }

  lemma HandoverLeavesMap(s: State)
    requires Closed(s)
    ensures MakeInactive(s).sessionMap == s.sessionMap && |MakeInactive(s).sessions| == |s.sessions|
    ensures Grant(s).sessionMap == s.sessionMap && |Grant(s).sessions| == |s.sessions|
  {}

  lemma UnclaimLeavesMap(s: State)
    requires Closed(s)
    ensures Unclaim(s).sessionMap == s.sessionMap && |Unclaim(s).sessions| == |s.sessions|
  {
    HandoverLeavesMap(s.(claimed := 0));
    HandoverLeavesMap(MakeInactive(s.(claimed := 0)));
  }

  lemma UnreserveLeavesMap(s: State)
    requires Closed(s)
    ensures Unreserve(s).sessionMap == s.sessionMap && |Unreserve(s).sessions| == |s.sessions|
  {
    HandoverLeavesMap(s);
  }

  lemma ReleaseLeavesMap(s: State, app: uint32)
    requires Closed(s)
    ensures Release(s, app).0.sessionMap == s.sessionMap && |Release(s, app).0.sessions| == |s.sessions|
  {
    UnclaimLeavesMap(s);
    UnreserveLeavesMap(s);
  }

  lemma ClaimLeavesMap(s: State, app: uint32)
    requires Closed(s)
    ensures Claim(s, app).0.sessionMap == s.sessionMap && |Claim(s, app).0.sessions| == |s.sessions|
  {
    var claiming := s.(claimed := app);
    ReleaseLeavesMap(claiming, s.reserved);
    HandoverLeavesMap(Vacate(claiming));
  }

  lemma SameMapIsFiled(s: State, r: State)
    requires Closed(s) && Closed(r) && Filed(s)
    requires r.sessionMap == s.sessionMap && |r.sessions| == |s.sessions|
    ensures Filed(r)
  {}

  lemma CreateFiles(s: State, app: uint32)
    requires Closed(s) && Filed(s)
    ensures Filed(CreateSession(s, app).0) && |CreateSession(s, app).0.sessions| >= |s.sessions|
  {
    if !HasSession(s, app) {
      var r := Register(s, app);
      assert Filed(r);
      HandoverLeavesMap(r);
      SameMapIsFiled(r, Grant(r));
    }
  }

  lemma DestroyFiles(s: State, id: uint32)
    requires Closed(s) && Filed(s)
    ensures Filed(DestroySession(s, id).0) && |DestroySession(s, id).0.sessions| == |s.sessions|
  {
    if id in s.sessionMap {
      var app := s.sessions[s.sessionMap[id]].app;
      var released := Release(s, app).0;
      ReleaseLeavesMap(s, app);
      SameMapIsFiled(s, released);
      assert Filed(Erase(released, id, app));
    }
  }

  lemma EnableLeavesMap(s: State, on: bool)
    requires Closed(s)
    ensures EnableTTS(s, on).sessionMap == s.sessionMap && |EnableTTS(s, on).sessions| == |s.sessions|
  {
    HandoverLeavesMap(s.(enabled := true));
    HandoverLeavesMap(s.(enabled := false));
  }

  lemma StepFiles(s: State, op: Op, builds: Speaker.Builds)
    requires Closed(s) && Filed(s)
    ensures Filed(Do(s, op, builds)) && |Do(s, op, builds).sessions| >= |s.sessions|
  {
    match op
    case DoEnable(on) => EnableLeavesMap(s, on); SameMapIsFiled(s, EnableTTS(s, on));
    case DoCreate(app) => CreateFiles(s, app);
    case DoDestroy(id) => DestroyFiles(s, id);
    case DoReserve(app) => HandoverLeavesMap(s.(reserved := app)); SameMapIsFiled(s, Reserve(s, app).0);
    case DoRelease(app) => ReleaseLeavesMap(s, app); SameMapIsFiled(s, Release(s, app).0);
    case DoClaim(app) => ClaimLeavesMap(s, app); SameMapIsFiled(s, Claim(s, app).0);
    case _ =>
      SpeakerStepMovesOnlySpeaker(s, op, builds);
      SameMapIsFiled(s, Do(s, op, builds));
  }

  lemma {:induction false} RunFiles(limit: uint8, ops: seq<Op>, builds: Speaker.Builds)
    ensures Filed(Run(limit, ops, builds))
    ensures ops != [] ==> |Run(limit, ops[..|ops| - 1], builds).sessions| <= |Run(limit, ops, builds).sessions|
    decreases |ops|
  {
    if ops != [] {
      RunFiles(limit, ops[..|ops| - 1], builds);
      StepFiles(Run(limit, ops[..|ops| - 1], builds), ops[|ops| - 1], builds);
    }
  }

  /** On every run, clean or not: while fewer than 2^32 sessions were created, creating one never meets an
      id that is in use. */
  lemma CreatingIsSafe(limit: uint8, ops: seq<Op>, builds: Speaker.Builds, app: uint32)
    requires |Run(limit, ops, builds).sessions| < 0x1_0000_0000
    ensures IdOf(|Run(limit, ops, builds).sessions|) !in Run(limit, ops, builds).sessionMap
    ensures !Breaks(Run(limit, ops, builds), DoCreate(app))
  {
    var s := Run(limit, ops, builds);
    RunFiles(limit, ops, builds);
    if IdOf(|s.sessions|) in s.sessionMap {
      IdsDiffer(s.sessionMap[IdOf(|s.sessions|)], |s.sessions|);
      assert false;
    }
  }

  /** The call destroys the session of an app that, while speech is enabled, has claimed and reserved. */
  predicate DestroysDoubleOwner(s: State, op: Op)
    requires Closed(s)
  {
    && op.DoDestroy? && op.id in s.sessionMap && s.enabled
    && var app := s.sessions[s.sessionMap[op.id]].app;
       app != 0 && s.claimed == app && s.reserved == app
  }

  predicate SparesDoubleOwners(limit: uint8, ops: seq<Op>, builds: Speaker.Builds)
    decreases |ops|
  {
    ops != [] ==>
      var before := ops[..|ops| - 1];
      && SparesDoubleOwners(limit, before, builds)
      && !DestroysDoubleOwner(Run(limit, before, builds), ops[|ops| - 1])
  }

  /** As long as fewer than 2^32 sessions were created, a run is clean, and so keeps the arbitration's
      invariant throughout, if and only if it never destroys the session of an enabled double owner. */
  lemma {:induction false} CleanExactly(limit: uint8, ops: seq<Op>, builds: Speaker.Builds)
    requires |Run(limit, ops, builds).sessions| < 0x1_0000_0000
    ensures Clean(limit, ops, builds) <==> SparesDoubleOwners(limit, ops, builds)
    ensures Throughout(limit, ops, builds) <==> SparesDoubleOwners(limit, ops, builds)
    decreases |ops|
  {
    InvariantHoldsExactly(limit, ops, builds);
    if ops != [] {
      var before, op := ops[..|ops| - 1], ops[|ops| - 1];
      RunFiles(limit, ops, builds);
      CleanExactly(limit, before, builds);
      if op.DoCreate? { CreatingIsSafe(limit, before, builds, op.app); }
    }
  }
}
