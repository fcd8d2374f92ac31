/** A cancelling call whose test and write are one step reaches the speech being spoken when it is made,
    and no other. */
module SpeechCancellation {
  import opened Types
  import opened Speaker

  /** From the start of a speech, logged at `i`, up to `j` the log holds nothing but cancelling calls. */
  predicate OnlyCancels(log: seq<Event>, i: int, j: nat, speech: Speech) {
    && 0 <= i < j <= |log| && log[i] == Began(speech)
    && forall k :: i < k < j ==> log[k] == CancelCall
  }

  /** The report at `j` says "interrupted" if and only if a cancelling call was made between the start
      of its speech and the report. */
  ghost predicate Justified(log: seq<Event>, j: nat)
    requires j < |log|
  {
    log[j].Reported? ==>
      exists i :: OnlyCancels(log, i, j, log[j].speech)
                  && (log[j].outcome == Interrupted <==> exists k :: i < k < j && log[k] == CancelCall)
  }

  ghost predicate CancelInv(s: State) {
    var log := s.hist.log;
    && (s.flushed ==> s.speaking)
    && (s.speaking <==> s.phase.Speaking? || s.phase.Clearing?)
    && (s.speaking <==> s.clientSpeaking.Some?)
    && (s.phase.Speaking? ==>
          && s.clientSpeaking == Some(s.phase.speech.client)
          && exists i :: OnlyCancels(log, i, |log|, s.phase.speech) && (s.flushed <==> i + 1 < |log|))
    && (forall j :: 0 <= j < |log| ==> Justified(log, j))
  }

  lemma Grown(log: seq<Event>, e: Event, j: nat)
    requires j < |log| && Justified(log, j)
    ensures Justified(log + [e], j)
  {
    var more := log + [e];
    assert more[j] == log[j];
    if log[j].Reported? {
      var i :| OnlyCancels(log, i, j, log[j].speech)
               && (log[j].outcome == Interrupted <==> exists k :: i < k < j && log[k] == CancelCall);
      assert OnlyCancels(more, i, j, log[j].speech);
      if k :| i < k < j && log[k] == CancelCall {
        assert more[k] == CancelCall;
      }
      assert log[j].outcome == Interrupted <==> exists k :: i < k < j && more[k] == CancelCall;
    }
  }

  lemma AllGrown(log: seq<Event>, e: Event)
    requires forall j :: 0 <= j < |log| ==> Justified(log, j)
    requires !e.Reported?
    ensures forall j :: 0 <= j < |log| + 1 ==> Justified(log + [e], j)
  {
    forall j | 0 <= j < |log| + 1 ensures Justified(log + [e], j) {
      if j < |log| { Grown(log, e, j); }
    }
  }

  lemma CancelKeeps(s: State)
    requires CancelInv(s)
    ensures CancelInv(Cancel(s))
  {
    var log, r := s.hist.log, Cancel(s);
    AllGrown(log, CancelCall);
    if s.phase.Speaking? {
      var i :| OnlyCancels(log, i, |log|, s.phase.speech) && (s.flushed <==> i + 1 < |log|);
      assert OnlyCancels(r.hist.log, i, |r.hist.log|, s.phase.speech);
    }
  }

  lemma ReportKeeps(s: State, builds: Builds)
    requires CancelInv(s) && s.phase.Speaking?
    ensures CancelInv(WorkerStep(s, builds))
  {
    var log, speech, r := s.hist.log, s.phase.speech, WorkerStep(s, builds);
    var i :| OnlyCancels(log, i, |log|, speech) && (s.flushed <==> i + 1 < |log|);
    assert OnlyCancels(r.hist.log, i, |log|, speech);
    if s.flushed {
      assert r.hist.log[i + 1] == CancelCall;
    }
    assert Justified(r.hist.log, |log|);
    forall j | 0 <= j < |log| ensures Justified(r.hist.log, j) {
      Grown(log, r.hist.log[|log|], j);
    }
  }

  lemma WorkKeeps(s: State, builds: Builds)
    requires CancelInv(s)
    ensures CancelInv(WorkerStep(s, builds))
  {
    var log, r := s.hist.log, WorkerStep(s, builds);
    match s.phase
    case Speaking(_) => ReportKeeps(s, builds);
    case Failing(speech) => AllGrown(log, BuildFailed(speech));
    case Held(speech) =>
      AllGrown(log, Began(speech));
      assert OnlyCancels(r.hist.log, |log|, |r.hist.log|, speech);
    case _ =>
  }

  lemma ActKeeps(s: State, a: Action, builds: Builds)
    requires CancelInv(s)
    ensures CancelInv(Act(s, a, builds))
  {
    match a
    case DoCancel => CancelKeeps(s);
    case DoStop => CancelKeeps(s);
    case DoClearFrom(client) =>
      if s.clientSpeaking == Some(client) {
        CancelKeeps(TakeOut(s, client));
      }
    case DoWork => WorkKeeps(s, builds);
    case _ =>
  }

  lemma {:induction false} RunKeeps(limit: uint8, acts: seq<Action>, builds: Builds)
    ensures CancelInv(Run(Init(limit), acts, builds))
    decreases |acts|
  {
    if acts != [] {
      var last := |acts| - 1;
      RunKeeps(limit, acts[..last], builds);
      ActKeeps(Run(Init(limit), acts[..last], builds), acts[last], builds);
    }
  }

  /** On every run, every report of a speech taken for speaking is "interrupted" exactly when a
      cancelling call was made while that speech was marked as being spoken and not yet reported. */
  lemma InterruptedIffCancelled(limit: uint8, acts: seq<Action>, builds: Builds, j: nat)
    requires j < |Run(Init(limit), acts, builds).hist.log|
    ensures Justified(Run(Init(limit), acts, builds).hist.log, j)
  {
    RunKeeps(limit, acts, builds);
  }

  ghost predicate CancelDue(s: State, speech: Speech) {
    s.phase == Speaking(speech) && s.speaking && s.flushed
  }

  lemma StaysDue(s: State, speech: Speech, a: Action, builds: Builds)
    requires CancelDue(s, speech) && a != DoWork
    ensures CancelDue(Act(s, a, builds), speech)
  {}

  /** While the worker does not move, whatever the main loop does, a speech whose cancellation is due
      stays due, and the worker's next report is "interrupted" for that very speech. */
  lemma {:induction false} CancelledIsReportedNext(
      s: State, speech: Speech, acts: seq<Action>, builds: Builds)
    requires CancelDue(s, speech) && DoWork !in acts
    ensures
      var waiting := Run(s, acts, builds);
      && CancelDue(waiting, speech)
      && WorkerStep(waiting, builds).hist.log == waiting.hist.log + [Reported(speech, Interrupted)]
    decreases |acts|
  {
    if acts != [] {
      var last := |acts| - 1;
      CancelledIsReportedNext(s, speech, acts[..last], builds);
      StaysDue(Run(s, acts[..last], builds), speech, acts[last], builds);
    }
  }
}
