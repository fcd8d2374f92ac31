/** Whose speeches are queued, and what becomes of the speeches of a session that loses the speaker. */
module EngineQueue {
  import opened Types
  import Speaker
  import SpeechCancellation
  import opened Engine
  import Arbitration
  import EngineSpeech

  /** Every queued speech belongs to a session that has the speaker. */
  predicate QueueInv(s: State) {
    forall k :: 0 <= k < |s.speaker.queue| ==> MayQueue(s, s.speaker.queue[k].client)
  }

  predicate MayQueue(s: State, session: nat) {
    session < |s.sessions| && s.sessions[session].hasSpeaker
  }

  lemma {:induction false} OthersAreOthers(q: seq<Speaker.Speech>, client: nat)
    ensures forall k :: 0 <= k < |Speaker.Others(q, client)| ==>
              Speaker.Others(q, client)[k] in q && Speaker.Others(q, client)[k].client != client
  {
    if q != [] { OthersAreOthers(q[1..], client); }
  }

  lemma WithdrawKeeps(s: State)
    requires Closed(s) && QueueInv(s)
    ensures QueueInv(MakeInactive(s))
  {
    if s.active.Some? { OthersAreOthers(s.speaker.queue, s.active.value); }
  }

  lemma GrantKeeps(s: State)
    requires Closed(s) && QueueInv(s)
    ensures QueueInv(Grant(s))
  {}

  lemma UnclaimKeeps(s: State)
    requires Closed(s) && QueueInv(s)
    ensures QueueInv(Unclaim(s))
  {
    var unclaimed := s.(claimed := 0);
    assert QueueInv(unclaimed);
    WithdrawKeeps(unclaimed);
    GrantKeeps(MakeInactive(unclaimed));
  }

  lemma UnreserveKeeps(s: State)
    requires Closed(s) && QueueInv(s)
    ensures QueueInv(Unreserve(s))
  {
    WithdrawKeeps(s);
    var vacated := if Holds(s, s.reserved) then MakeInactive(s) else s;
    assert QueueInv(vacated);
  }

  lemma ReleaseKeeps(s: State, app: uint32)
    requires Closed(s) && QueueInv(s)
    ensures QueueInv(Release(s, app).0)
  {
    if app != 0 && s.claimed == app {
      UnclaimKeeps(s);
    } else if app != 0 && s.reserved == app {
      UnreserveKeeps(s);
    }
  }

  lemma VacateKeeps(s: State)
    requires Closed(s) && QueueInv(s)
    ensures QueueInv(Vacate(s))
  {
    ReleaseKeeps(s, s.reserved);
  }

  lemma ClaimKeeps(s: State, app: uint32)
    requires Closed(s) && QueueInv(s)
    ensures QueueInv(Claim(s, app).0)
  {
    var claiming := s.(claimed := app);
    VacateKeeps(claiming);
    GrantKeeps(Vacate(claiming));
  }

  lemma DestroyKeeps(s: State, id: uint32)
    requires Closed(s) && QueueInv(s)
    ensures QueueInv(DestroySession(s, id).0)
  {
    if id in s.sessionMap { ReleaseKeeps(s, s.sessions[s.sessionMap[id]].app); }
  }

  lemma SpeakKeeps(s: State, session: nat, id: uint32, configured: bool, preemptive: bool)
    requires Closed(s) && QueueInv(s) && session < |s.sessions|
    ensures QueueInv(Speak(s, session, id, configured, preemptive).0)
  {}

  lemma AbortKeeps(s: State, session: nat)
    requires Closed(s) && QueueInv(s) && session < |s.sessions|
    ensures QueueInv(AbortAndClearPending(s, session))
  {
    OthersAreOthers(s.speaker.queue, session);
  }

  lemma SpeakerOpKeeps(s: State, op: Op, builds: Speaker.Builds)
    requires Closed(s) && QueueInv(s) && Arbitration.SpeakerOp(op) && op != DoWork
    ensures QueueInv(Do(s, op, builds))
  {
    match op
    case DoSpeak(session, id, configured, preemptive) =>
      if session < |s.sessions| { SpeakKeeps(s, session, id, configured, preemptive); }
    case DoAbort(session) => if session < |s.sessions| { AbortKeeps(s, session); }
    case DoShut(session) => assert Do(s, op, builds).speaker.queue == s.speaker.queue;
    case DoBusError(_) => assert Do(s, op, builds).speaker.queue == s.speaker.queue;
  }

  lemma WorkKeeps(s: State, builds: Speaker.Builds)
    requires Closed(s) && QueueInv(s)
    ensures QueueInv(Do(s, DoWork, builds))
  {
    var left := Speaker.WorkerStep(s.speaker, builds).queue;
    assert left == s.speaker.queue || (s.speaker.queue != [] && left == s.speaker.queue[1..]) by {
      WorkOnlyPops(s.speaker, builds);
    }
  }

  lemma WorkOnlyPops(speaker: Speaker.State, builds: Speaker.Builds)
    ensures
      var left := Speaker.WorkerStep(speaker, builds).queue;
      left == speaker.queue || (speaker.queue != [] && left == speaker.queue[1..])
  {
    var r := Speaker.WorkerStep(speaker, builds);
    match speaker.phase
    case Top => assert r.queue == speaker.queue;
    case Build => assert r.queue == speaker.queue;
    case AfterBuild => assert r.queue == speaker.queue;
    case Waiting => assert r.queue == speaker.queue;
    case Ready => assert r.queue == speaker.queue;
    case Committed(broken) => assert r == Speaker.Pop(speaker, broken);
    case Failing(speech) => assert r == Speaker.Answer(speaker, speech);
    case Held(speech) => assert r == Speaker.Begin(speaker, speech);
    case Speaking(speech) => assert r == Speaker.Report(speaker, speech);
    case Clearing => assert r.queue == speaker.queue;
    case Resetting => assert r.queue == speaker.queue;
    case Stopped => assert r == speaker;
    case Undefined => assert r == speaker;
  }

  lemma StepKeeps(s: State, op: Op, builds: Speaker.Builds)
    requires Closed(s) && QueueInv(s)
    ensures QueueInv(Do(s, op, builds))
  {
    match op
    case DoEnable(on) => GrantKeeps(s.(enabled := true)); WithdrawKeeps(s.(enabled := false));
    case DoCreate(app) =>
      if !HasSession(s, app) { GrantKeeps(Register(s, app)); }
    case DoDestroy(id) => DestroyKeeps(s, id);
    case DoReserve(app) => GrantKeeps(s.(reserved := app));
    case DoRelease(app) => ReleaseKeeps(s, app);
    case DoClaim(app) => ClaimKeeps(s, app);
    case DoWork => WorkKeeps(s, builds);
    case _ => SpeakerOpKeeps(s, op, builds);
  }

  lemma {:induction false} RunKeeps(limit: uint8, ops: seq<Op>, builds: Speaker.Builds)
    ensures QueueInv(Run(limit, ops, builds))
    decreases |ops|
  {
    if ops != [] {
      var before := ops[..|ops| - 1];
      RunKeeps(limit, before, builds);
      StepKeeps(Run(limit, before, builds), ops[|ops| - 1], builds);
    }
  }

  /** On every run, each queued speech belongs to a session that has the speaker; if no call broke the
      arbitration, that is the session that holds it. */
  lemma QueuedSpeechesBelongToHolder(limit: uint8, ops: seq<Op>, builds: Speaker.Builds, k: nat)
    requires k < |Run(limit, ops, builds).speaker.queue|
    ensures
      var s := Run(limit, ops, builds);
      var session := s.speaker.queue[k].client;
      && session < |s.sessions| && s.sessions[session].hasSpeaker
      && (Arbitration.Clean(limit, ops, builds) ==> s.active == Some(session))
  {
    RunKeeps(limit, ops, builds);
    Arbitration.InvariantHoldsExactly(limit, ops, builds);
    assert MayQueue(Run(limit, ops, builds), Run(limit, ops, builds).speaker.queue[k].client);
  }

  /** The session had the speaker before the call and has it no more. */
  predicate Loses(s: State, op: Op, builds: Speaker.Builds, session: nat)
    requires Closed(s)
  {
    MayQueue(s, session) && !MayQueue(Do(s, op, builds), session)
  }

  /** The session's speeches are off the queue, and the one being spoken, if any, is due to be
      reported as interrupted. */
  ghost predicate Silenced(s: State, session: nat) {
    && (forall k :: 0 <= k < |s.speaker.queue| ==> s.speaker.queue[k].client != session)
    && (s.speaker.phase.Speaking? && s.speaker.phase.speech.client == session ==>
          SpeechCancellation.CancelDue(s.speaker, s.speaker.phase.speech))
  }

  lemma WithdrawSilences(s: State)
    requires Closed(s) && s.active.Some? && SpeechCancellation.CancelInv(s.speaker)
    requires s.sessions[s.active.value].hasSpeaker
    ensures Silenced(MakeInactive(s), s.active.value)
  {
    OthersAreOthers(s.speaker.queue, s.active.value);
  }

  lemma GrantKeepsSilence(s: State, session: nat)
    requires Closed(s) && Silenced(s, session)
    ensures Silenced(Grant(s), session)
  {}

  lemma ReleaseSilences(s: State, app: uint32, session: nat)
    requires Closed(s) && SpeechCancellation.CancelInv(s.speaker)
    requires MayQueue(s, session) && !MayQueue(Release(s, app).0, session)
    ensures Silenced(Release(s, app).0, session)
  {
    assert s.active == Some(session);
    if s.claimed == app {
      WithdrawSilences(s.(claimed := 0));
      GrantKeepsSilence(MakeInactive(s.(claimed := 0)), session);
    } else {
      WithdrawSilences(s);
    }
  }

  lemma ClaimSilences(s: State, app: uint32, session: nat)
    requires Closed(s) && SpeechCancellation.CancelInv(s.speaker)
    requires MayQueue(s, session) && !MayQueue(Claim(s, app).0, session)
    ensures Silenced(Claim(s, app).0, session)
  {
    var claiming := s.(claimed := app);
    var released := Release(claiming, s.reserved).0;
    var vacated := released.(reserved := s.reserved);
    assert Claim(s, app).0 == Grant(vacated);
    assert !MayQueue(released, session);
    ReleaseSilences(claiming, s.reserved, session);
    GrantKeepsSilence(vacated, session);
  }

  lemma DestroySilences(s: State, id: uint32, session: nat)
    requires Closed(s) && SpeechCancellation.CancelInv(s.speaker)
    requires MayQueue(s, session) && !MayQueue(DestroySession(s, id).0, session)
    ensures Silenced(DestroySession(s, id).0, session)
  {
    var app := s.sessions[s.sessionMap[id]].app;
    var released := Release(s, app).0;
    assert !MayQueue(released, session);
    ReleaseSilences(s, app, session);
    assert Erase(released, id, app).speaker.queue == released.speaker.queue;
  }

  /** Whatever call takes the speaker from a session also silences it. */
  lemma LosingSilences(s: State, op: Op, builds: Speaker.Builds, session: nat)
    requires Closed(s) && SpeechCancellation.CancelInv(s.speaker) && Loses(s, op, builds, session)
    ensures Silenced(Do(s, op, builds), session)
  {
    match op
    case DoEnable(_) => WithdrawSilences(s.(enabled := false));
    case DoRelease(app) => ReleaseSilences(s, app, session);
    case DoClaim(app) => ClaimSilences(s, app, session);
    case DoDestroy(id) => DestroySilences(s, id, session);
    case _ =>
  }

  /** Calls do not move the worker, nor mark a speech as being spoken; they can only set the flag that
      interrupts, and only while a speech is marked. */
  predicate WorkerUnmoved(from: Speaker.State, to: Speaker.State) {
    && to.phase == from.phase && to.speaking == from.speaking
    && (from.flushed ==> to.flushed) && (!from.speaking ==> to.flushed == from.flushed)
  }

  lemma ActLeavesWorker(from: Speaker.State, a: Speaker.Action, builds: Speaker.Builds)
    requires a != Speaker.DoWork
    ensures WorkerUnmoved(from, Speaker.Act(from, a, builds))
  {}

  lemma {:induction false} ActsLeaveWorker(
      from: Speaker.State, acts: seq<Speaker.Action>, builds: Speaker.Builds)
    requires Speaker.DoWork !in acts
    ensures WorkerUnmoved(from, Speaker.Run(from, acts, builds))
    decreases |acts|
  {
    if acts != [] {
      var before := acts[..|acts| - 1];
      ActsLeaveWorker(from, before, builds);
      ActLeavesWorker(Speaker.Run(from, before, builds), acts[|acts| - 1], builds);
    }
  }

  lemma {:induction false} CallsLeaveWorker(s: State, ops: seq<Op>, builds: Speaker.Builds)
    requires Closed(s) && DoWork !in ops
    ensures WorkerUnmoved(s.speaker, RunFrom(s, ops, builds).speaker)
    decreases |ops|
  {
    if ops != [] {
      var before, op := RunFrom(s, ops[..|ops| - 1], builds), ops[|ops| - 1];
      CallsLeaveWorker(s, ops[..|ops| - 1], builds);
      EngineSpeech.ScriptRuns(before, op, builds);
      ActsLeaveWorker(before.speaker, EngineSpeech.Script(before, op), builds);
    }
  }

  lemma OneCallLeavesWorker(s: State, op: Op, builds: Speaker.Builds)
    requires Closed(s) && op != DoWork
    ensures WorkerUnmoved(s.speaker, Do(s, op, builds).speaker)
  {
    CallsLeaveWorker(s, [op], builds);
    assert [op][..0] == [];
    assert RunFrom(s, [op], builds) == Do(s, op, builds);
  }

  lemma DueIsReported(
      from: Speaker.State, to: Speaker.State, builds: Speaker.Builds, speech: Speaker.Speech)
    requires from.phase == Speaker.Speaking(speech) && SpeechCancellation.CancelDue(from, speech)
    requires WorkerUnmoved(from, to)
    ensures Speaker.WorkerStep(to, builds).hist.log
         == to.hist.log + [Speaker.Reported(speech, Speaker.Interrupted)]
  {}

  /** A speech being spoken when its session loses the speaker is reported as interrupted, whatever
      calls come in before the report. */
  lemma LostSpeechIsInterrupted(
      s: State, op: Op, builds: Speaker.Builds, speech: Speaker.Speech, later: seq<Op>)
    requires Closed(s) && SpeechCancellation.CancelInv(s.speaker) && op != DoWork
    requires Loses(s, op, builds, speech.client) && s.speaker.phase == Speaker.Speaking(speech)
    requires DoWork !in later
    ensures
      var waiting := RunFrom(Do(s, op, builds), later, builds).speaker;
      Speaker.WorkerStep(waiting, builds).hist.log
      == waiting.hist.log + [Speaker.Reported(speech, Speaker.Interrupted)]
  {
    var r := Do(s, op, builds);
    LosingSilences(s, op, builds, speech.client);
    OneCallLeavesWorker(s, op, builds);
    CallsLeaveWorker(r, later, builds);
    DueIsReported(r.speaker, RunFrom(r, later, builds).speaker, builds, speech);
  }

  /** But a speech the worker has popped and not yet marked escapes every call, so also the one that
      takes the speaker from its session: it is spoken and never reported as interrupted, unless a
      further call comes in. */
  lemma HeldSpeechEscapes(s: State, op: Op, builds: Speaker.Builds, speech: Speaker.Speech)
    requires Closed(s) && SpeechCancellation.CancelInv(s.speaker) && op != DoWork
    requires s.speaker.phase == Speaker.Held(speech)
    ensures
      var started := Speaker.WorkerStep(Do(s, op, builds).speaker, builds);
      var log := Speaker.WorkerStep(started, builds).hist.log;
      && started.phase == Speaker.Speaking(speech)
      && log != [] && log[|log| - 1] == Speaker.Reported(speech, Speaker.Verdict(started))
      && Speaker.Verdict(started) != Speaker.Interrupted
  {
    OneCallLeavesWorker(s, op, builds);
  }
}
