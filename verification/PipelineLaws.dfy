/** What building, resetting and tearing down come to, and what the error flags tell. */
module PipelineLaws {
  import opened Types
  import opened Speaker

  // Resetting and creating

  /** A reset leaves no error, no network error and no pause. After an error the pipeline is gone, and
      with one still wanted there was exactly one attempt at a new one. Without an error a pipeline that
      stands is left alone. */
  lemma ResetRecovers(p: Pipe, builds: Builds)
    ensures
      var r := ResetPipe(p, builds);
      && !r.error && !r.networkError && !r.paused && r.ensure == p.ensure && r.limit == p.limit
      && (p.error && p.ensure ==> r.attempts == p.attempts + 1 && (r.up <==> builds(p.attempts)))
      && (p.error && !p.ensure ==> !r.up && r.attempts == p.attempts)
      && (!p.error && p.up ==> r.up && r.attempts == p.attempts && r.failures == p.failures)
      && (!p.error && !p.up && p.ensure ==>
            r.attempts == p.attempts + 1 && (r.up <==> builds(p.attempts)))
      && (!p.error && !p.up && !p.ensure ==> !r.up && r.attempts == p.attempts)
  {}

  /** Creating does nothing unless a pipeline is wanted and missing. Then a first attempt decides; if an
      old error flag is up, what it built is torn down and a second attempt decides. */
  lemma CreateBuilds(p: Pipe, builds: Builds)
    ensures
      var r := Create(p, builds);
      && (!p.ensure || p.up ==> r == p)
      && (p.ensure && !p.up && !builds(p.attempts) ==>
            !r.up && r.attempts == p.attempts + 1 && r.error == p.error && r.networkError == p.networkError)
      && (p.ensure && !p.up && builds(p.attempts) && !p.error ==>
            r.up && r.attempts == p.attempts + 1 && r.failures == 0 && !r.networkError && !r.error)
      && (p.ensure && !p.up && builds(p.attempts) && p.error ==>
            && (r.up <==> builds(p.attempts + 1)) && r.attempts == p.attempts + 2
            && !r.networkError && !r.error)
  {}

  /** The failure counter stands at zero whenever a pipeline has just been built, and is one up, as far
      as eight bits go, after an attempt that failed. */
  lemma CounterCountsFailures(p: Pipe, builds: Builds)
    ensures
      var r := Attempt(p, builds);
      && (r.up && !p.up ==> r.failures == 0)
      && (!builds(p.attempts) ==>
            r.up == p.up && (r.failures == p.failures + 1 || (p.failures == 255 && r.failures == 0)))
  {}

  // The head of the worker's loop

  /** A pipeline no longer wanted is torn down, and there is nothing more to do. */
  lemma UnwantedPipelineGoes(s: State, builds: Builds)
    requires s.phase == Top && s.running && s.pipe.up && !s.pipe.ensure
    requires s.pipe.failures < s.pipe.limit || s.queue != []
    ensures
      var r := WorkerStep(s, builds);
      r.phase == Waiting && !r.pipe.up && r.pipe.failures == 0 && !NeedsUpdate(r) && r.queue == s.queue
  {}

  /** A wanted one is built, if the media framework lets it. */
  lemma WantedPipelineComes(s: State, builds: Builds)
    requires s.phase == Top && s.running && !s.pipe.up && s.pipe.ensure
    requires s.pipe.failures < s.pipe.limit || s.queue != []
    requires builds(s.pipe.attempts) && builds(s.pipe.attempts + 1)
    ensures
      var r := WorkerStep(WorkerStep(s, builds), builds);
      r.phase == AfterBuild && r.pipe.up && !r.pipe.error && !NeedsUpdate(r)
  {
    CreateBuilds(s.pipe, builds);
  }

  /** Told to stop, the worker ends with no pipeline, or with none it would touch again. */
  lemma StopEndsTheWorker(s: State, builds: Builds)
    requires !s.running && (s.phase == Top || s.phase == Ready)
    ensures
      var r := WorkerStep(s, builds);
      r.phase == Stopped && WorkerStep(r, builds) == r && (s.phase == Top ==> !r.pipe.up)
  {}

  /** A new speaker rests: nothing is built, popped or reported until it is asked for. */
  lemma NewSpeakerRests(limit: uint8, builds: Builds)
    ensures
      var r := WorkerStep(Init(limit), builds);
      && r == Init(limit).(phase := Waiting) && WorkerStep(r, builds) == r
      && r.queue == [] && !r.pipe.up && r.pipe.attempts == 0
  {}

  /** Answering a failed build gives the next request an attempt of its own. */
  lemma AnswerAllowsAnAttempt(s: State, speech: Speech, builds: Builds)
    requires s.phase == Failing(speech) && s.pipe.ensure && !s.pipe.up && s.pipe.limit > 0
    ensures
      var r := WorkerStep(s, builds);
      NeedsUpdate(r) && r.hist.log == s.hist.log + [BuildFailed(speech)]
  {}

  // Requests

  /** A preemptive request is alone in the queue, what was queued is dropped, and what is being spoken is
      to be interrupted; any other request only queues up. */
  lemma RequestsQueueUp(s: State, client: nat, id: uint32, preemptive: bool)
    ensures
      var r := Speak(s, client, id, preemptive);
      var speech := Speech(|s.hist.accepted|, client, id);
      && r.hist.accepted == s.hist.accepted + [speech]
      && (preemptive ==>
            && r.queue == [speech] && r.hist.dropped == s.hist.dropped + s.queue
            && (s.speaking ==> r.flushed))
      && (!preemptive ==>
            r.queue == s.queue + [speech] && r.hist.dropped == s.hist.dropped && r.flushed == s.flushed)
  {}

  // What the error flags tell, on runs

  /** The worker's step clears the error flags: it resets, or a pipeline it builds is reset at once. */
  predicate ClearsErrors(s: State, a: Action, builds: Builds) {
    && a == DoWork
    && (s.phase.Resetting? || (s.phase.Build? && s.pipe.ensure && !s.pipe.up && builds(s.pipe.attempts)))
  }

  /** At step `k` an error came, with a pipeline there, and no step since has cleared the flags. */
  predicate Struck(limit: uint8, acts: seq<Action>, builds: Builds, k: nat) {
    && k < |acts| && acts[k].DoBusError? && Run(Init(limit), acts[..k], builds).pipe.up
    && forall i :: k < i < |acts| ==> !ClearsErrors(Run(Init(limit), acts[..i], builds), acts[i], builds)
  }

  lemma WorkOnFlags(s: State, builds: Builds)
    ensures
      var r := WorkerStep(s, builds);
      if ClearsErrors(s, DoWork, builds) then !r.pipe.error && !r.pipe.networkError
      else r.pipe.error == s.pipe.error && r.pipe.networkError == s.pipe.networkError
  {
    match s.phase
    case Build => CreateBuilds(s.pipe, builds);
    case Resetting => ResetRecovers(s.pipe, builds);
    case Top => TestsLeaveFlags(s, builds);
    case AfterBuild => TestsLeaveFlags(s, builds);
    case Waiting => TestsLeaveFlags(s, builds);
    case Ready => TestsLeaveFlags(s, builds);
    case Stopped =>
    case Undefined =>
    case _ => SpeechLeavesFlags(s, builds);
  }

  lemma TestsLeaveFlags(s: State, builds: Builds)
    requires s.phase.Top? || s.phase.AfterBuild? || s.phase.Waiting? || s.phase.Ready?
    ensures
      var r := WorkerStep(s, builds);
      r.pipe.error == s.pipe.error && r.pipe.networkError == s.pipe.networkError
  {}

  lemma SpeechLeavesFlags(s: State, builds: Builds)
    requires s.phase.Committed? || s.phase.Failing? || s.phase.Held? || s.phase.Speaking? || s.phase.Clearing?
    ensures
      var r := WorkerStep(s, builds);
      r.pipe.error == s.pipe.error && r.pipe.networkError == s.pipe.networkError
  {}

  predicate FlagsAfter(s: State, r: State, a: Action) {
    && r.pipe.error == (s.pipe.error || (a.DoBusError? && s.pipe.up))
    && r.pipe.networkError == (s.pipe.networkError || (a == DoBusError(true) && s.pipe.up))
  }

  lemma CallsOnFlags(s: State, a: Action, builds: Builds)
    requires a != DoWork
    ensures FlagsAfter(s, Act(s, a, builds), a)
  {
    match a
    case DoPush(client, id) => assert FlagsAfter(s, Push(s, client, id), a);
    case DoFlush => assert FlagsAfter(s, Flush(s), a);
    case DoCancel => assert FlagsAfter(s, Cancel(s), a);
    case DoClearFrom(client) => assert FlagsAfter(s, ClearFrom(s, client), a);
    case DoEnsure(on) => assert FlagsAfter(s, Ensure(s, on), a);
    case DoStop => assert FlagsAfter(s, Stop(s), a);
    case DoBusError(network) => assert FlagsAfter(s, BusError(s, network), a);
  }

  lemma StruckOn(limit: uint8, acts: seq<Action>, a: Action, builds: Builds, k: nat)
    requires k < |acts|
    ensures Struck(limit, acts + [a], builds, k)
            <==> Struck(limit, acts, builds, k) && !ClearsErrors(Run(Init(limit), acts, builds), a, builds)
  {
    var more := acts + [a];
    assert more[|acts|] == a && more[..|acts|] == acts;
    assert forall i :: 0 <= i < |acts| ==> more[i] == acts[i] && more[..i] == acts[..i];
  }

  lemma StruckNow(limit: uint8, acts: seq<Action>, a: Action, builds: Builds)
    ensures Struck(limit, acts + [a], builds, |acts|)
            <==> a.DoBusError? && Run(Init(limit), acts, builds).pipe.up
  {
    assert (acts + [a])[..|acts|] == acts && (acts + [a])[|acts|] == a;
  }

  /** Some error that the condition picks out has struck. */
  ghost predicate AnyStruck(limit: uint8, acts: seq<Action>, builds: Builds, onlyNetwork: bool) {
    exists k: nat :: Struck(limit, acts, builds, k) && (onlyNetwork ==> acts[k] == DoBusError(true))
  }

  lemma AnyStruckSnoc(limit: uint8, acts: seq<Action>, a: Action, builds: Builds, onlyNetwork: bool)
    ensures
      var s := Run(Init(limit), acts, builds);
      AnyStruck(limit, acts + [a], builds, onlyNetwork)
      <==> || (AnyStruck(limit, acts, builds, onlyNetwork) && !ClearsErrors(s, a, builds))
           || (a.DoBusError? && s.pipe.up && (onlyNetwork ==> a == DoBusError(true)))
  {
    var more := acts + [a];
    StruckNow(limit, acts, a, builds);
    assert more[|acts|] == a;
    if AnyStruck(limit, more, builds, onlyNetwork) {
      var k: nat :| Struck(limit, more, builds, k) && (onlyNetwork ==> more[k] == DoBusError(true));
      if k < |acts| { StruckOn(limit, acts, a, builds, k); assert more[k] == acts[k]; }
    }
    if AnyStruck(limit, acts, builds, onlyNetwork) {
      var k: nat :| Struck(limit, acts, builds, k) && (onlyNetwork ==> acts[k] == DoBusError(true));
      StruckOn(limit, acts, a, builds, k);
      assert more[k] == acts[k];
    }
  }

  /** On every run: the error flag is up if and only if an error came, with a pipeline there, since the
      worker last reset or built it; the network flag, if and only if a network error did. */
  lemma {:induction false} FlagsTellExactly(limit: uint8, acts: seq<Action>, builds: Builds)
    ensures
      var s := Run(Init(limit), acts, builds);
      && (s.pipe.error <==> AnyStruck(limit, acts, builds, false))
      && (s.pipe.networkError <==> AnyStruck(limit, acts, builds, true))
    decreases |acts|
  {
    if acts != [] {
      var before, a := acts[..|acts| - 1], acts[|acts| - 1];
      var s := Run(Init(limit), before, builds);
      FlagsTellExactly(limit, before, builds);
      assert acts == before + [a];
      AnyStruckSnoc(limit, before, a, builds, false);
      AnyStruckSnoc(limit, before, a, builds, true);
      if a == DoWork { WorkOnFlags(s, builds); } else { CallsOnFlags(s, a, builds); }
    }
  }

  /** So a report tells of a network error if and only if the speech was not interrupted and one came
      since the last reset; of a playback error, if there was no network error but any other or no
      pipeline; and "spoke" only if there was none since. */
  lemma ReportTellsOfErrorsExactly(limit: uint8, acts: seq<Action>, builds: Builds, speech: Speech)
    requires Run(Init(limit), acts, builds).phase == Speaking(speech)
    ensures
      var s := Run(Init(limit), acts, builds);
      var log := WorkerStep(s, builds).hist.log;
      && log == s.hist.log + [Reported(speech, log[|log| - 1].outcome)]
      && var outcome := log[|log| - 1].outcome;
         && (outcome == Interrupted <==> s.flushed)
         && (outcome == NetworkError <==> !s.flushed && AnyStruck(limit, acts, builds, true))
         && (outcome == Spoke <==> !s.flushed && s.pipe.up && !AnyStruck(limit, acts, builds, false))
  {
    FlagsTellExactly(limit, acts, builds);
    NetworkErrorIsError(limit, acts, builds);
    var s := Run(Init(limit), acts, builds);
    assert WorkerStep(s, builds).hist.log == s.hist.log + [Reported(speech, Verdict(s))];
  }

  lemma NetworkErrorIsError(limit: uint8, acts: seq<Action>, builds: Builds)
    ensures AnyStruck(limit, acts, builds, true) ==> AnyStruck(limit, acts, builds, false)
  {
    if k: nat :| Struck(limit, acts, builds, k) && acts[k] == DoBusError(true) {
      assert Struck(limit, acts, builds, k);
    }
  }
}
