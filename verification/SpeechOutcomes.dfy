/** What a client is told about a speech, in terms of what happened while it was being spoken. */
module SpeechOutcomes {
  import opened Types
  import opened Speaker
  import SpeechCancellation

  /** One of the calls cancels the speech of this client. */
  predicate Cancels(acts: seq<Action>, client: nat) {
    exists k :: 0 <= k < |acts| && (acts[k].DoCancel? || acts[k].DoStop? || acts[k] == DoClearFrom(client))
  }

  predicate Fails(acts: seq<Action>) {
    exists k :: 0 <= k < |acts| && acts[k].DoBusError?
  }

  predicate FailsOnNetwork(acts: seq<Action>) {
    exists k :: 0 <= k < |acts| && acts[k] == DoBusError(true)
  }

  /** The outcome owed to the client if `acts` happen in state `s` before the report. */
  function Owed(s: State, client: nat, acts: seq<Action>): Outcome {
    if s.flushed || Cancels(acts, client) then Interrupted
    else if s.pipe.networkError || (s.pipe.up && FailsOnNetwork(acts)) then NetworkError
    else if !s.pipe.up || s.pipe.error || Fails(acts) then PlaybackError
    else Spoke
  }

  predicate BeingSpoken(s: State, speech: Speech) {
    s.phase == Speaking(speech) && s.speaking && s.clientSpeaking == Some(speech.client)
  }

  lemma OneMoreAct(acts: seq<Action>, a: Action, client: nat)
    ensures Cancels(acts + [a], client)
            <==> Cancels(acts, client) || a.DoCancel? || a.DoStop? || a == DoClearFrom(client)
    ensures Fails(acts + [a]) <==> Fails(acts) || a.DoBusError?
    ensures FailsOnNetwork(acts + [a]) <==> FailsOnNetwork(acts) || a == DoBusError(true)
  {
    var more := acts + [a];
    assert more[|acts|] == a && forall k :: 0 <= k < |acts| ==> more[k] == acts[k];
  }

  lemma FlagsTell(s: State, a: Action, builds: Builds, speech: Speech)
    requires BeingSpoken(s, speech) && a != DoWork
    ensures
      var r := Act(s, a, builds);
      && BeingSpoken(r, speech) && r.pipe.up == s.pipe.up
      && (r.flushed <==> s.flushed || a.DoCancel? || a.DoStop? || a == DoClearFrom(speech.client))
      && (r.pipe.error <==> s.pipe.error || (s.pipe.up && a.DoBusError?))
      && (r.pipe.networkError <==> s.pipe.networkError || (s.pipe.up && a == DoBusError(true)))
  {}

  lemma {:induction false} FlagsRemember(s: State, acts: seq<Action>, builds: Builds, speech: Speech)
    requires BeingSpoken(s, speech) && DoWork !in acts
    ensures
      var r := Run(s, acts, builds);
      && BeingSpoken(r, speech) && r.pipe.up == s.pipe.up
      && (r.flushed <==> s.flushed || Cancels(acts, speech.client))
      && (r.pipe.error <==> s.pipe.error || (s.pipe.up && Fails(acts)))
      && (r.pipe.networkError <==> s.pipe.networkError || (s.pipe.up && FailsOnNetwork(acts)))
    decreases |acts|
  {
    if acts != [] {
      var before, a := acts[..|acts| - 1], acts[|acts| - 1];
      FlagsRemember(s, before, builds, speech);
      FlagsTell(Run(s, before, builds), a, builds, speech);
      assert acts == before + [a];
      OneMoreAct(before, a, speech.client);
    }
  }

  /** Whatever happens while a speech is being spoken, its client is told once, and what it is told is
      decided by it: a cancelling call goes before a network error, that before any other error, and
      without any of them the speech is reported as spoken. An error that came before the speech, with
      the pipeline up and no reset since, counts as well. */
  lemma ReportTellsWhatHappened(s: State, acts: seq<Action>, builds: Builds, speech: Speech)
    requires SpeechCancellation.CancelInv(s) && s.phase == Speaking(speech) && DoWork !in acts
    ensures
      var waiting := Run(s, acts, builds);
      WorkerStep(waiting, builds).hist.log
      == waiting.hist.log + [Reported(speech, Owed(s, speech.client, acts))]
  {
    FlagsRemember(s, acts, builds, speech);
  }
}
