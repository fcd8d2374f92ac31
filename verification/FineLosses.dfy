/** What a call that takes the speaker from a session does to its speeches, with the worker moving inside
    the call. */
module FineLosses {
  import opened Types
  import opened Speaker
  import SpeechCancellation
  import E = Engine
  import EngineSpeech
  import EngineQueue
  import FineCalls

  /** First the session's speeches are cleared; what follows only concerns the wish for a pipeline. */
  predicate Clears(script: seq<Action>, session: nat) {
    && script != [] && script[0] == DoClearFrom(session)
    && forall k :: 0 < k < |script| ==> script[k].DoEnsure?
  }

  lemma WithdrawClears(s: E.State, session: nat)
    requires E.Closed(s) && s.active == Some(session) && s.sessions[session].hasSpeaker
    ensures EngineSpeech.WithdrawScript(s) == [DoClearFrom(session)] + [DoEnsure(false)]
  {}

  lemma ClearsAndGrants(script: seq<Action>, s: E.State, session: nat)
    requires Clears(script, session)
    ensures Clears(script + EngineSpeech.GrantScript(s), session)
    ensures Clears(script + [DoEnsure(false)], session)
  {}

  lemma UnclaimClears(s: E.State, session: nat)
    requires E.Closed(s)
    requires EngineQueue.MayQueue(s, session) && !EngineQueue.MayQueue(E.Unclaim(s), session)
    ensures Clears(EngineSpeech.UnclaimScript(s), session)
  {
    var unclaimed := s.(claimed := 0);
    assert s.active == Some(session);
    WithdrawClears(unclaimed, session);
    ClearsAndGrants(EngineSpeech.WithdrawScript(unclaimed), E.MakeInactive(unclaimed), session);
  }

  lemma UnreserveClears(s: E.State, session: nat)
    requires E.Closed(s)
    requires EngineQueue.MayQueue(s, session) && !EngineQueue.MayQueue(E.Unreserve(s), session)
    ensures Clears(EngineSpeech.UnreserveScript(s), session)
  {
    assert s.active == Some(session);
    WithdrawClears(s, session);
  }

  lemma ReleaseClears(s: E.State, app: uint32, session: nat)
    requires E.Closed(s)
    requires EngineQueue.MayQueue(s, session) && !EngineQueue.MayQueue(E.Release(s, app).0, session)
    ensures Clears(EngineSpeech.ReleaseScript(s, app), session)
  {
    if s.claimed == app { UnclaimClears(s, session); } else { UnreserveClears(s, session); }
  }

  lemma ClaimClears(s: E.State, app: uint32, session: nat)
    requires E.Closed(s)
    requires EngineQueue.MayQueue(s, session) && !EngineQueue.MayQueue(E.Claim(s, app).0, session)
    ensures Clears(EngineSpeech.ClaimScript(s, app), session)
  {
    var claiming := s.(claimed := app);
    var vacated := E.Vacate(claiming);
    assert !EngineQueue.MayQueue(vacated, session);
    ReleaseClears(claiming, s.reserved, session);
    ClearsAndGrants(EngineSpeech.ReleaseScript(claiming, s.reserved), vacated, session);
  }

  lemma DestroyClears(s: E.State, id: uint32, session: nat)
    requires E.Closed(s)
    requires EngineQueue.MayQueue(s, session) && !EngineQueue.MayQueue(E.DestroySession(s, id).0, session)
    ensures Clears(EngineSpeech.DestroyScript(s, id), session)
  {
    var app := s.sessions[s.sessionMap[id]].app;
    assert !EngineQueue.MayQueue(E.Release(s, app).0, session);
    ReleaseClears(s, app, session);
    ClearsAndGrants(EngineSpeech.ReleaseScript(s, app), s, session);
    assert EngineSpeech.ReleaseScript(s, app) + [] == EngineSpeech.ReleaseScript(s, app);
  }

  lemma LosingClears(s: E.State, op: E.Op, builds: Builds, session: nat)
    requires E.Closed(s) && EngineQueue.Loses(s, op, builds, session)
    ensures Clears(EngineSpeech.Script(s, op), session)
  {
    match op
    case DoEnable(_) => WithdrawClears(s.(enabled := false), session);
    case DoRelease(app) => ReleaseClears(s, app, session);
    case DoClaim(app) => ClaimClears(s, app, session);
    case DoDestroy(id) => DestroyClears(s, id, session);
    case _ =>
  }

  /** Where the main loop's first action stands in the mixed sequence. */
  lemma {:induction false} FirstCall(mixed: seq<Action>) returns (n: nat)
    requires FineCalls.CallsOf(mixed) != []
    ensures n < |mixed| && mixed[n] == FineCalls.CallsOf(mixed)[0]
    ensures forall k :: 0 <= k < n ==> mixed[k] == DoWork
    ensures forall k :: n < k < |mixed| ==> mixed[k] == DoWork || mixed[k] in FineCalls.CallsOf(mixed)[1..]
    decreases |mixed|
  {
    var before, last := mixed[..|mixed| - 1], mixed[|mixed| - 1];
    var calls := FineCalls.CallsOf(before);
    if calls == [] {
      n := |before|;
      NoCallsIsWork(before);
    } else {
      n := FirstCall(before);
      if last != DoWork { assert FineCalls.CallsOf(mixed)[1..] == calls[1..] + [last]; }
    }
  }

  lemma {:induction false} NoCallsIsWork(mixed: seq<Action>)
    requires FineCalls.CallsOf(mixed) == []
    ensures forall k :: 0 <= k < |mixed| ==> mixed[k] == DoWork
    decreases |mixed|
  {
    if mixed != [] { NoCallsIsWork(mixed[..|mixed| - 1]); }
  }

  predicate NoneQueued(s: State, session: nat) {
    forall k :: 0 <= k < |s.queue| ==> s.queue[k].client != session
  }

  /** `u` has followed upon the clearing in state `t`. A speech of the session in the worker's hand is one
      it had popped and not marked then, or one that was cancelled with the clearing. */
  ghost predicate Cleared(t: State, u: State, session: nat) {
    && SpeechCancellation.CancelInv(u) && NoneQueued(u, session)
    && (u.phase.Held? && u.phase.speech.client == session ==> t.phase == u.phase)
    && (u.phase.Speaking? && u.phase.speech.client == session ==>
          (u.flushed <==> t.phase != Held(u.phase.speech)))
  }

  lemma ClearingClears(t: State, session: nat, builds: Builds)
    requires SpeechCancellation.CancelInv(t)
    ensures Cleared(t, ClearFrom(t, session), session)
  {
    SpeechCancellation.ActKeeps(t, DoClearFrom(session), builds);
    EngineQueue.OthersAreOthers(t.queue, session);
  }

  lemma WorkKeepsCleared(t: State, u: State, session: nat, builds: Builds)
    requires Cleared(t, u, session)
    ensures Cleared(t, WorkerStep(u, builds), session)
  {
    var r := WorkerStep(u, builds);
    SpeechCancellation.WorkKeeps(u, builds);
    EngineQueue.WorkOnlyPops(u, builds);
    HandAfterWork(u, builds);
  }

  /** What the worker takes in its hand. */
  lemma HandAfterWork(u: State, builds: Builds)
    ensures
      var r := WorkerStep(u, builds);
      && (r.phase.Held? ==> u.phase == Committed(false) && u.queue != [] && r.phase.speech == u.queue[0])
      && (r.phase.Speaking? ==> u.phase == Held(r.phase.speech) && r.flushed == u.flushed)
  {}

  lemma {:induction false} StaysCleared(t: State, session: nat, rest: seq<Action>, builds: Builds)
    requires SpeechCancellation.CancelInv(t)
    requires forall k :: 0 <= k < |rest| ==> rest[k] == DoWork || rest[k].DoEnsure?
    ensures Cleared(t, Run(ClearFrom(t, session), rest, builds), session)
    decreases |rest|
  {
    if rest == [] {
      ClearingClears(t, session, builds);
    } else {
      var before, last := rest[..|rest| - 1], rest[|rest| - 1];
      var u := Run(ClearFrom(t, session), before, builds);
      StaysCleared(t, session, before, builds);
      if last == DoWork {
        WorkKeepsCleared(t, u, session, builds);
      } else {
        SpeechCancellation.ActKeeps(u, last, builds);
      }
    }
  }

  lemma {:induction false} ActsKeepInv(s: State, acts: seq<Action>, builds: Builds)
    requires SpeechCancellation.CancelInv(s)
    ensures SpeechCancellation.CancelInv(Run(s, acts, builds))
    decreases |acts|
  {
    if acts != [] {
      ActsKeepInv(s, acts[..|acts| - 1], builds);
      SpeechCancellation.ActKeeps(Run(s, acts[..|acts| - 1], builds), acts[|acts| - 1], builds);
    }
  }

  lemma RunThrough(s: State, mixed: seq<Action>, n: nat, builds: Builds)
    requires n < |mixed|
    ensures Run(s, mixed, builds) == Run(Act(Run(s, mixed[..n], builds), mixed[n], builds), mixed[n + 1..], builds)
  {
    assert mixed == mixed[..n] + [mixed[n]] + mixed[n + 1..];
    RunSnoc(s, mixed[..n], mixed[n], builds);
    RunCompose(s, mixed[..n] + [mixed[n]], mixed[n + 1..], builds);
  }

  /** Whatever call takes the speaker from a session, and however the worker moves meanwhile: at some
      point `n` the session's speeches are cleared, in the end none of them is queued, and the one being
      spoken, if any, is due for cancellation unless the worker had popped and not yet marked it at that
      point; if it had, it is not. */
  lemma LosingSilencesFinely(
      s: E.State, op: E.Op, r: E.State, mixed: seq<Action>, builds: Builds, session: nat) returns (n: nat)
    requires E.Closed(s) && SpeechCancellation.CancelInv(s.speaker)
    requires EngineQueue.Loses(s, op, builds, session) && FineCalls.Finely(s, op, r, mixed, builds)
    ensures n < |mixed| && mixed[n] == DoClearFrom(session)
    ensures NoneQueued(r.speaker, session)
    ensures r.speaker.phase.Speaking? && r.speaker.phase.speech.client == session ==>
              (SpeechCancellation.CancelDue(r.speaker, r.speaker.phase.speech)
               <==> Run(s.speaker, mixed[..n], builds).phase != Held(r.speaker.phase.speech))
  {
    LosingClears(s, op, builds, session);
    n := FirstCall(mixed);
    var t, rest := Run(s.speaker, mixed[..n], builds), mixed[n + 1..];
    ActsKeepInv(s.speaker, mixed[..n], builds);
    RunThrough(s.speaker, mixed, n, builds);
    forall k | 0 <= k < |rest| ensures rest[k] == DoWork || rest[k].DoEnsure? {
      assert rest[k] == mixed[n + 1 + k];
    }
    StaysCleared(t, session, rest, builds);
  }
}
