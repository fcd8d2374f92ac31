/** What the worker does while no pipeline can be built although one is wanted. */
module FailingBuilds {
  import opened Types
  import opened Speaker
  import SpeechFates

  ghost predicate AllFail(builds: Builds) {
    forall n :: !builds(n)
  }

  /** How many speeches were answered with the build failure report. */
  function Answered(log: seq<Event>): nat
    decreases |log|
  {
    if log == [] then 0
    else Answered(log[..|log| - 1]) + if log[|log| - 1].BuildFailed? then 1 else 0
  }

  lemma AnsweredSnoc(log: seq<Event>, e: Event)
    ensures Answered(log + [e]) == Answered(log) + if e.BuildFailed? then 1 else 0
  {}

  /** `each` taken `count` times, as a sum. */
  function Times(each: nat, count: nat): nat {
    if count == 0 then 0 else Times(each, count - 1) + each
  }

  lemma {:induction false} TimesIsProduct(each: nat, count: nat)
    ensures Times(each, count) == each * count
  {
    if count != 0 { TimesIsProduct(each, count - 1); }
  }

  function Gone(s: State): int {
    |s.hist.accepted| - |s.queue|
  }

  /** Attempts paid for by the threshold: `limit` for each time the counter restarts at zero. */
  function Free(s: State): int {
    Times(s.pipe.limit, Answered(s.hist.log) + s.pipe.wraps)
    + if s.pipe.failures < s.pipe.limit && s.phase != Stopped then s.pipe.failures else s.pipe.limit
  }

  /** Attempts beyond the threshold that the 8-bit counter accounts for. */
  function Beyond(s: State): int {
    Times(0x100 - s.pipe.limit, s.pipe.wraps)
    + if s.pipe.failures < s.pipe.limit then 0 else s.pipe.failures - s.pipe.limit
  }

  /** Every attempt beyond the threshold is paid for by a speech that has left the queue: one that was
      popped for speaking at the latest when the worker resets, any other at the latest when the
      worker is through with the attempt. */
  predicate PaidFor(s: State, spent: int) {
    match s.phase
    case Build => spent <= Gone(s) && (s.pipe.failures >= s.pipe.limit ==> spent < |s.hist.accepted|)
    case AfterBuild => spent <= Gone(s) + 1 && spent <= |s.hist.accepted|
    case Committed(broken) => spent <= Gone(s) + (if broken then 1 else 0) && spent <= |s.hist.accepted|
    case Held(_) => spent < Gone(s)
    case Speaking(_) => spent < Gone(s)
    case Clearing => spent < Gone(s)
    case Resetting => spent < Gone(s)
    case _ => spent <= Gone(s)
  }

  predicate Ledger(s: State) {
    PaidFor(s, s.pipe.attempts - Free(s)) && PaidFor(s, Beyond(s))
  }

  /** A pipeline is wanted and there is none; so there are no errors of one either. */
  predicate Dark(s: State) {
    !s.pipe.up && s.pipe.ensure && !s.pipe.error && !s.pipe.networkError
  }

  /** No speech is reported as spoken, nor with a network error. */
  predicate NothingSpoken(log: seq<Event>) {
    forall i :: 0 <= i < |log| && log[i].Reported? ==>
      log[i].outcome == PlaybackError || log[i].outcome == Interrupted
  }

  lemma {:induction false} FilterShortens(q: seq<Speech>, client: nat)
    ensures |Others(q, client)| <= |q|
  {
    if q != [] { FilterShortens(q[1..], client); }
  }

  /** The step from `s` to `r` keeps the books. */
  predicate Pays(s: State, r: State) {
    Ledger(r) && Dark(r) && r.pipe.limit == s.pipe.limit
  }

  lemma AttemptFails(p: Pipe, builds: Builds)
    requires AllFail(builds) && !p.up && p.ensure && !p.error && !p.networkError
    ensures Create(p, builds) == CountFailure(p.(attempts := p.attempts + 1))
    ensures ResetPipe(p, builds) == CountFailure(p.(paused := false, attempts := p.attempts + 1))
  {}

  /** An attempt below the threshold is free; one beyond it costs one. */
  lemma AttemptCosts(s: State, r: State)
    requires s.phase != Stopped && r.phase != Stopped && r.hist.log == s.hist.log
    requires r.pipe == CountFailure(s.pipe.(attempts := s.pipe.attempts + 1))
    ensures
      var cost := if s.pipe.failures >= s.pipe.limit then 1 else 0;
      && r.pipe.attempts - Free(r) <= s.pipe.attempts - Free(s) + cost
      && Beyond(r) <= Beyond(s) + cost
  {}

  lemma BuildPays(s: State, builds: Builds)
    requires Dark(s) && Ledger(s) && AllFail(builds) && s.phase.Build?
    ensures Pays(s, WorkerStep(s, builds))
  {
    var r := s.(pipe := CountFailure(s.pipe.(attempts := s.pipe.attempts + 1)), phase := AfterBuild);
    AttemptFails(s.pipe, builds);
    assert WorkerStep(s, builds) == r;
    AttemptCosts(s, r);
    assert Gone(r) == Gone(s);
  }

  lemma ResetPays(s: State, builds: Builds)
    requires Dark(s) && Ledger(s) && AllFail(builds) && s.phase.Resetting?
    ensures Pays(s, WorkerStep(s, builds))
  {
    var calm := s.(pipe := s.pipe.(paused := false));
    var r := s.(pipe := CountFailure(calm.pipe.(attempts := s.pipe.attempts + 1)), phase := Top);
    AttemptFails(s.pipe, builds);
    assert WorkerStep(s, builds) == r;
    AttemptCosts(calm, r);
    assert Gone(r) == Gone(s) && Free(calm) == Free(s) && Beyond(calm) == Beyond(s);
  }

  lemma RestartPays(s: State, r: State)
    requires Dark(s) && Ledger(s) && s.phase.Failing? && r.phase.Waiting?
    requires r.pipe == s.pipe.(failures := 0) && r.queue == s.queue && r.hist.accepted == s.hist.accepted
    requires Answered(r.hist.log) == Answered(s.hist.log) + 1
    ensures Pays(s, r)
  {
    assert Free(r) >= Free(s) && Beyond(r) <= Beyond(s) && Gone(r) == Gone(s);
  }

  lemma AnswerPays(s: State, builds: Builds)
    requires Dark(s) && Ledger(s) && s.phase.Failing?
    ensures Pays(s, WorkerStep(s, builds))
  {
    AnsweredSnoc(s.hist.log, BuildFailed(s.phase.speech));
    RestartPays(s, Answer(s, s.phase.speech));
  }

  lemma DecidingPays(s: State, builds: Builds)
    requires Dark(s) && Ledger(s) && (s.phase.Top? || s.phase.Waiting? || s.phase.Ready?)
    ensures Pays(s, WorkerStep(s, builds))
  {
    var r := WorkerStep(s, builds);
    assert r.hist == s.hist && r.queue == s.queue && r.pipe.attempts == s.pipe.attempts;
    assert r.phase != Stopped ==> r.pipe == s.pipe;
  }

  lemma PoppingPays(s: State, builds: Builds)
    requires Dark(s) && Ledger(s)
    requires s.phase.AfterBuild? || s.phase.Committed? || s.phase.Stopped? || s.phase.Undefined?
    ensures Pays(s, WorkerStep(s, builds))
  {
    var r := WorkerStep(s, builds);
    assert r.hist == s.hist && r.pipe == s.pipe;
  }

  lemma UncountedPays(s: State, r: State)
    requires Dark(s) && Ledger(s) && r.pipe == s.pipe && r.queue == s.queue && r.hist.accepted == s.hist.accepted
    requires Answered(r.hist.log) == Answered(s.hist.log)
    requires s.phase.Held? || s.phase.Speaking? || s.phase.Clearing?
    requires r.phase.Speaking? || r.phase.Clearing? || r.phase.Resetting?
    ensures Pays(s, r)
  {
    assert Free(r) == Free(s) && Beyond(r) == Beyond(s) && Gone(r) == Gone(s);
  }

  lemma HeldPays(s: State, builds: Builds)
    requires Dark(s) && Ledger(s) && s.phase.Held?
    ensures Pays(s, WorkerStep(s, builds))
  {
    AnsweredSnoc(s.hist.log, Began(s.phase.speech));
    UncountedPays(s, WorkerStep(s, builds));
  }

  lemma SpeakingPays(s: State, builds: Builds)
    requires Dark(s) && Ledger(s) && s.phase.Speaking?
    ensures Pays(s, WorkerStep(s, builds))
  {
    AnsweredSnoc(s.hist.log, Reported(s.phase.speech, Verdict(s)));
    UncountedPays(s, WorkerStep(s, builds));
  }

  lemma ClearingPays(s: State, builds: Builds)
    requires Dark(s) && Ledger(s) && s.phase.Clearing?
    ensures Pays(s, WorkerStep(s, builds))
  {
    UncountedPays(s, WorkerStep(s, builds));
  }

  lemma WorkPays(s: State, builds: Builds)
    requires Dark(s) && Ledger(s) && AllFail(builds)
    ensures Pays(s, WorkerStep(s, builds))
  {
    match s.phase
    case Build => BuildPays(s, builds);
    case Resetting => ResetPays(s, builds);
    case Failing(_) => AnswerPays(s, builds);
    case Top => DecidingPays(s, builds);
    case Waiting => DecidingPays(s, builds);
    case Ready => DecidingPays(s, builds);
    case Held(_) => HeldPays(s, builds);
    case Speaking(_) => SpeakingPays(s, builds);
    case Clearing => ClearingPays(s, builds);
    case _ => PoppingPays(s, builds);
  }

  /** The main loop leaves the counters alone, and speeches only leave the queue or are accepted. */
  predicate CountersStay(s: State, r: State) {
    && r.phase == s.phase && r.pipe.failures == s.pipe.failures && r.pipe.limit == s.pipe.limit
    && r.pipe.attempts == s.pipe.attempts && r.pipe.wraps == s.pipe.wraps
    && |s.hist.accepted| <= |r.hist.accepted| && Gone(s) <= Gone(r)
    && (r.hist.log == s.hist.log || r.hist.log == s.hist.log + [CancelCall])
  }

  lemma MainLoopLeavesCounters(s: State, a: Action, builds: Builds)
    requires Dark(s) && a != DoWork && a != DoEnsure(false)
    ensures CountersStay(s, Act(s, a, builds)) && Dark(Act(s, a, builds))
  {
    if a.DoClearFrom? { FilterShortens(s.queue, a.client); }
  }

  lemma MainLoopPays(s: State, r: State)
    requires Ledger(s) && CountersStay(s, r) && Dark(r)
    ensures Pays(s, r)
  {
    assert Answered(r.hist.log) == Answered(s.hist.log) by { AnsweredSnoc(s.hist.log, CancelCall); }
    assert Free(r) == Free(s) && Beyond(r) == Beyond(s);
  }

  lemma SpeaksNothing(s: State, a: Action, builds: Builds)
    requires Dark(s) && NothingSpoken(s.hist.log)
    ensures NothingSpoken(Act(s, a, builds).hist.log)
  {
    if a == DoWork {
      assert Verdict(s) == PlaybackError || Verdict(s) == Interrupted;
      WorkSpeaksNothing(s, builds);
    }
  }

  lemma WorkSpeaksNothing(s: State, builds: Builds)
    requires NothingSpoken(s.hist.log) && (Verdict(s) == PlaybackError || Verdict(s) == Interrupted)
    ensures NothingSpoken(WorkerStep(s, builds).hist.log)
  {
    var log, r := s.hist.log, WorkerStep(s, builds);
    match s.phase
    case Failing(speech) => assert r.hist.log == log + [BuildFailed(speech)];
    case Held(speech) => assert r.hist.log == log + [Began(speech)];
    case Speaking(speech) => assert r.hist.log == log + [Reported(speech, Verdict(s))];
    case _ => assert r.hist.log == log;
  }

  predicate Inv(s: State, limit: uint8) {
    Dark(s) && NothingSpoken(s.hist.log) && Ledger(s) && s.pipe.limit == limit
  }

  lemma StepKeeps(s: State, limit: uint8, a: Action, builds: Builds)
    requires Inv(s, limit) && AllFail(builds) && a != DoEnsure(false)
    ensures Inv(Act(s, a, builds), limit)
  {
    SpeaksNothing(s, a, builds);
    if a == DoWork {
      WorkPays(s, builds);
    } else {
      MainLoopLeavesCounters(s, a, builds);
      MainLoopPays(s, Act(s, a, builds));
    }
  }

  function WantedRun(limit: uint8, acts: seq<Action>, builds: Builds): State {
    Run(Ensure(Init(limit), true), acts, builds)
  }

  lemma {:induction false} RunKeeps(limit: uint8, acts: seq<Action>, builds: Builds)
    requires AllFail(builds) && DoEnsure(false) !in acts
    ensures Inv(WantedRun(limit, acts, builds), limit)
    decreases |acts|
  {
    if acts != [] {
      var last := |acts| - 1;
      RunKeeps(limit, acts[..last], builds);
      StepKeeps(WantedRun(limit, acts[..last], builds), limit, acts[last], builds);
    }
  }

  predicate Bounded(s: State, limit: uint8) {
    && s.pipe.attempts <= |s.hist.accepted| + limit * (Answered(s.hist.log) + s.pipe.wraps + 1)
    && (0x100 - limit) * s.pipe.wraps <= |s.hist.accepted|
  }

  lemma LedgerBounds(s: State, limit: uint8)
    requires Inv(s, limit)
    ensures Bounded(s, limit)
  {
    assert s.pipe.attempts - Free(s) <= |s.hist.accepted| && Beyond(s) <= |s.hist.accepted|;
    assert Free(s) <= Times(limit, Answered(s.hist.log) + s.pipe.wraps + 1);
    TimesIsProduct(limit, Answered(s.hist.log) + s.pipe.wraps + 1);
    TimesIsProduct(0x100 - limit, s.pipe.wraps);
  }

  /** The client of the speech was told that it failed, or that it was interrupted. */
  predicate ToldOf(log: seq<Event>, speech: Speech) {
    || BuildFailed(speech) in log
    || Reported(speech, PlaybackError) in log
    || Reported(speech, Interrupted) in log
  }

  /** Not popped, or popped and not yet answered. */
  predicate Unanswered(s: State, speech: Speech) {
    || speech in s.queue || speech in SpeechFates.InHand(s.phase)
    || speech in s.hist.dropped || speech in SpeechFates.Flatten(s.hist.cancelled)
  }

  lemma {:induction false} DoneMeansTold(log: seq<Event>, speech: Speech)
    requires NothingSpoken(log) && speech in SpeechFates.Done(log)
    ensures ToldOf(log, speech)
    decreases |log|
  {
    var before, e := log[..|log| - 1], log[|log| - 1];
    if speech in SpeechFates.Done(before) {
      DoneMeansTold(before, speech);
      assert log == before + [e];
    } else {
      assert e in log && (e == BuildFailed(speech) || (e.Reported? && e.speech == speech));
    }
  }

  lemma WantedRunIsRun(limit: uint8, acts: seq<Action>, builds: Builds)
    ensures WantedRun(limit, acts, builds) == Run(Init(limit), [DoEnsure(true)] + acts, builds)
  {
    RunCompose(Init(limit), [DoEnsure(true)], acts, builds);
    assert [DoEnsure(true)] == [] + [DoEnsure(true)];
    RunSnoc(Init(limit), [], DoEnsure(true), builds);
  }

  lemma PoppedIsTold(limit: uint8, acts: seq<Action>, builds: Builds, i: nat)
    requires NothingSpoken(WantedRun(limit, acts, builds).hist.log)
    requires i < |WantedRun(limit, acts, builds).hist.accepted|
    ensures
      var s := WantedRun(limit, acts, builds);
      Unanswered(s, s.hist.accepted[i]) || ToldOf(s.hist.log, s.hist.accepted[i])
  {
    var s := WantedRun(limit, acts, builds);
    WantedRunIsRun(limit, acts, builds);
    SpeechFates.EachSpeechInOnePlace(limit, [DoEnsure(true)] + acts, builds, i);
    if !Unanswered(s, s.hist.accepted[i]) {
      assert s.hist.accepted[i] in multiset(SpeechFates.Done(s.hist.log));
      DoneMeansTold(s.hist.log, s.hist.accepted[i]);
    }
  }

  /** On every run in which a pipeline is wanted and no build succeeds: no speech is reported as spoken;
      every speech the worker has popped is answered, with the build failure report, with a playback
      error or as interrupted, or is the one in its hand; and attempts stay bounded: one for each
      accepted speech, and the threshold for each failure report and each overrun of the 8-bit counter,
      of which there are few. */
  lemma FailingBuildsAreBounded(limit: uint8, acts: seq<Action>, builds: Builds)
    requires AllFail(builds) && DoEnsure(false) !in acts
    ensures
      var s := WantedRun(limit, acts, builds);
      && NothingSpoken(s.hist.log)
      && Bounded(s, limit)
      && forall i :: 0 <= i < |s.hist.accepted| ==>
           Unanswered(s, s.hist.accepted[i]) || ToldOf(s.hist.log, s.hist.accepted[i])
  {
    var s := WantedRun(limit, acts, builds);
    RunKeeps(limit, acts, builds);
    LedgerBounds(s, limit);
    forall i | 0 <= i < |s.hist.accepted|
      ensures Unanswered(s, s.hist.accepted[i]) || ToldOf(s.hist.log, s.hist.accepted[i])
    {
      PoppedIsTold(limit, acts, builds, i);
    }
  }

  // When no speech is even started

  /** The worker pops, if at all, to answer a failed build. */
  predicate OnlyAnswers(s: State) {
    match s.phase
    case Committed(broken) => broken
    case Held(_) => false
    case Speaking(_) => false
    case Clearing => false
    case Resetting => false
    case Undefined => false
    case _ => true
  }

  /** What the worker tested before still holds when it moves on: leaving its wait it has something to
      build, and popping it finds a speech. */
  predicate TestHolds(s: State, a: Action) {
    a == DoWork ==>
      && (s.phase.Ready? ==> !s.running || NeedsUpdate(s))
      && (s.phase.Committed? ==> s.queue != [])
  }

  predicate OnlyAnswersThroughout(limit: uint8, acts: seq<Action>, builds: Builds)
    decreases |acts|
  {
    && (acts != [] ==> OnlyAnswersThroughout(limit, acts[..|acts| - 1], builds))
    && OnlyAnswers(WantedRun(limit, acts, builds))
  }

  predicate TestsHold(limit: uint8, acts: seq<Action>, builds: Builds)
    decreases |acts|
  {
    acts != [] ==>
      var before := acts[..|acts| - 1];
      TestsHold(limit, before, builds) && TestHolds(WantedRun(limit, before, builds), acts[|acts| - 1])
  }

  lemma WorkOnlyAnswersExactly(s: State, builds: Builds)
    requires Dark(s) && OnlyAnswers(s)
    ensures OnlyAnswers(WorkerStep(s, builds)) <==> TestHolds(s, DoWork)
  {}

  predicate OnlyFailures(log: seq<Event>) {
    forall i :: 0 <= i < |log| ==> log[i].BuildFailed? || log[i].CancelCall?
  }

  lemma AnswersAreFailures(s: State, builds: Builds)
    requires OnlyAnswers(s) && OnlyFailures(s.hist.log)
    ensures OnlyFailures(WorkerStep(s, builds).hist.log)
  {}

  /** No speech is ever started, and every answer is the build failure report, if and only if the
      worker's tests still hold each time it acts on them. */
  lemma {:induction false} NothingIsStartedExactly(limit: uint8, acts: seq<Action>, builds: Builds)
    requires AllFail(builds) && DoEnsure(false) !in acts
    ensures OnlyAnswersThroughout(limit, acts, builds) <==> TestsHold(limit, acts, builds)
    ensures TestsHold(limit, acts, builds) ==> OnlyFailures(WantedRun(limit, acts, builds).hist.log)
    decreases |acts|
  {
    if acts != [] {
      var before, a := acts[..|acts| - 1], acts[|acts| - 1];
      var s := WantedRun(limit, before, builds);
      NothingIsStartedExactly(limit, before, builds);
      RunKeeps(limit, before, builds);
      if TestsHold(limit, before, builds) {
        assert OnlyAnswers(s);
        if a == DoWork {
          WorkOnlyAnswersExactly(s, builds);
          AnswersAreFailures(s, builds);
        } else {
          MainLoopLeavesCounters(s, a, builds);
        }
      }
    }
  }

  /** The worker waits, a build having failed. */
  function Waiting1(): State {
    var s := Ensure(Init(1), true);
    s.(pipe := s.pipe.(failures := 1, attempts := 1), phase := Waiting)
  }

  lemma BuildFailsOnce(builds: Builds)
    requires AllFail(builds)
    ensures WantedRun(1, [DoWork, DoWork, DoWork], builds) == Waiting1()
  {
    var s := Ensure(Init(1), true);
    var building, failed := s.(phase := Build), Waiting1().(phase := AfterBuild);
    assert Act(s, DoWork, builds) == building;
    assert Act(building, DoWork, builds) == failed by { AttemptFails(s.pipe, builds); }
    assert Act(failed, DoWork, builds) == Waiting1();
    RunThree(s, [DoWork, DoWork, DoWork], builds);
  }

  lemma RequestIsSeen(builds: Builds)
    ensures
      var first := Speech(0, 0, 7);
      Run(Waiting1(), [DoPush(0, 7), DoWork, DoCancel], builds)
      == Waiting1().(queue := [first], phase := Ready, hist := History([first], [], [], [CancelCall]))
  {
    RunThree(Waiting1(), [DoPush(0, 7), DoWork, DoCancel], builds);
  }

  lemma TestFallsBetween(s: State, builds: Builds)
    requires s.phase == Ready && s.running && s.pipe.failures >= s.pipe.limit
    ensures
      var r := Run(s, [DoFlush, DoWork, DoPush(0, 8)], builds);
      var speech := Speech(|s.hist.accepted|, 0, 8);
      && r.phase == Committed(false) && r.pipe == s.pipe && r.queue == [speech]
      && WorkerStep(WorkerStep(r, builds), builds).phase == Speaking(speech)
  {
    RunThree(s, [DoFlush, DoWork, DoPush(0, 8)], builds);
    assert Decide(Flush(s)) == Flush(s).(phase := Committed(false));
  }

  /** A preemptive request whose flush and push fall on either side of the worker's test has its speech
      started with no pipeline. */
  lemma PreemptionStarts(builds: Builds)
    requires AllFail(builds)
    ensures
      var s := WantedRun(1, [DoWork, DoWork, DoWork] + [DoPush(0, 7), DoWork, DoCancel]
                            + [DoFlush, DoWork, DoPush(0, 8)], builds);
      && s.phase == Committed(false) && !s.pipe.up
      && WorkerStep(WorkerStep(s, builds), builds).phase == Speaking(Speech(1, 0, 8))
  {
    var s := Ensure(Init(1), true);
    var a, b, c := [DoWork, DoWork, DoWork], [DoPush(0, 7), DoWork, DoCancel], [DoFlush, DoWork, DoPush(0, 8)];
    RunCompose(s, a + b, c, builds);
    RunCompose(s, a, b, builds);
    BuildFailsOnce(builds);
    RequestIsSeen(builds);
    TestFallsBetween(Run(Waiting1(), b, builds), builds);
  }
}
