/** The engine with the worker moving inside main-loop calls too, between any two of the things a call
    does to the speaker. */
module FineCalls {
  import opened Types
  import opened Speaker
  import SpeechFates
  import SpeechCancellation
  import E = Engine
  import Arbitration
  import EngineSpeech
  import EngineQueue

  /** The main loop's part of a mixed sequence. */
  function CallsOf(mixed: seq<Action>): seq<Action>
    decreases |mixed|
  {
    if mixed == [] then []
    else
      var before, last := CallsOf(mixed[..|mixed| - 1]), mixed[|mixed| - 1];
      if last == DoWork then before else before + [last]
  }

  /** What the call does to the manager's books is as in one step; what it does to the speaker, it does
      with the worker moving in between. */
  predicate Finely(s: E.State, op: E.Op, r: E.State, mixed: seq<Action>, builds: Builds)
    requires E.Closed(s)
  {
    && CallsOf(mixed) == EngineSpeech.Script(s, op)
    && r == E.Do(s, op, builds).(speaker := Run(s.speaker, mixed, builds))
  }

  ghost predicate FineStep(s: E.State, op: E.Op, r: E.State, builds: Builds)
    requires E.Closed(s)
  {
    if op == E.DoWork then r == E.Do(s, op, builds)
    else exists mixed :: Finely(s, op, r, mixed, builds)
  }

  lemma {:induction false} NoWorkIsCalls(acts: seq<Action>)
    requires DoWork !in acts
    ensures CallsOf(acts) == acts
    decreases |acts|
  {
    if acts != [] {
      NoWorkIsCalls(acts[..|acts| - 1]);
      assert acts == acts[..|acts| - 1] + [acts[|acts| - 1]];
    }
  }

  /** The calls as single steps are among them. */
  lemma SingleStepIsFine(s: E.State, op: E.Op, builds: Builds)
    requires E.Closed(s)
    ensures FineStep(s, op, E.Do(s, op, builds), builds)
  {
    if op != E.DoWork {
      EngineSpeech.ScriptRuns(s, op, builds);
      NoWorkIsCalls(EngineSpeech.Script(s, op));
      assert Finely(s, op, E.Do(s, op, builds), EngineSpeech.Script(s, op), builds);
    }
  }

  // The worker only takes away

  lemma {:induction false} OthersMember(q: seq<Speech>, client: nat, x: Speech)
    ensures x in Others(q, client) <==> x in q && x.client != client
  {
    if q != [] {
      OthersMember(q[1..], client, x);
      assert x in q <==> x == q[0] || x in q[1..];
    }
  }

  /** `few` has gone through the same calls as `many`, with the worker moving in between. */
  ghost predicate Fewer(few: State, many: State) {
    && few.hist.accepted == many.hist.accepted && few.pipe.ensure == many.pipe.ensure
    && forall x :: x in few.queue ==> x in many.queue
  }

  lemma CallKeepsFewer(few: State, many: State, a: Action, builds: Builds)
    requires Fewer(few, many) && a != DoWork
    ensures Fewer(Act(few, a, builds), Act(many, a, builds))
  {
    match a
    case DoPush(client, id) => assert Fewer(Push(few, client, id), Push(many, client, id));
    case DoFlush => assert Fewer(Flush(few), Flush(many));
    case DoCancel => assert Fewer(Cancel(few), Cancel(many));
    case DoClearFrom(client) => ClearKeepsFewer(few, many, client);
    case DoEnsure(on) => assert Fewer(Ensure(few, on), Ensure(many, on));
    case DoStop => assert Fewer(Stop(few), Stop(many));
    case DoBusError(network) => assert Fewer(BusError(few, network), BusError(many, network));
  }

  lemma ClearKeepsFewer(few: State, many: State, client: nat)
    requires Fewer(few, many)
    ensures Fewer(ClearFrom(few, client), ClearFrom(many, client))
  {
    var f, m := TakeOut(few, client), TakeOut(many, client);
    forall x | x in f.queue ensures x in m.queue {
      OthersMember(few.queue, client, x);
      OthersMember(many.queue, client, x);
    }
    assert ClearFrom(few, client).queue == f.queue && ClearFrom(many, client).queue == m.queue;
  }

  lemma WorkKeepsFewer(few: State, many: State, builds: Builds)
    requires Fewer(few, many)
    ensures Fewer(WorkerStep(few, builds), many)
  {
    EngineQueue.WorkOnlyPops(few, builds);
    SpeechFates.WorkMoves(few, builds);
    Arbitration.WorkKeepsFlag(few, builds);
  }

  lemma {:induction false} MixedIsFewer(s: State, mixed: seq<Action>, builds: Builds)
    ensures Fewer(Run(s, mixed, builds), Run(s, CallsOf(mixed), builds))
    decreases |mixed|
  {
    if mixed != [] {
      var before, last := mixed[..|mixed| - 1], mixed[|mixed| - 1];
      var few, many := Run(s, before, builds), Run(s, CallsOf(before), builds);
      MixedIsFewer(s, before, builds);
      if last == DoWork {
        WorkKeepsFewer(few, many, builds);
      } else {
        CallKeepsFewer(few, many, last, builds);
        RunSnoc(s, CallsOf(before), last, builds);
      }
    }
  }

  lemma FineIsFewer(s: E.State, op: E.Op, r: E.State, mixed: seq<Action>, builds: Builds)
    requires E.Closed(s) && Finely(s, op, r, mixed, builds)
    ensures Fewer(r.speaker, E.Do(s, op, builds).speaker)
  {
    MixedIsFewer(s.speaker, mixed, builds);
    EngineSpeech.ScriptRuns(s, op, builds);
  }

  // Fine runs

  /** `states` are the states between the calls of a fine run. */
  ghost predicate FineRun(limit: uint8, states: seq<E.State>, ops: seq<E.Op>, builds: Builds) {
    && |states| == |ops| + 1 && states[0] == E.Init(limit)
    && (forall k :: 0 <= k < |states| ==> E.Closed(states[k]))
    && forall k :: 0 <= k < |ops| ==> FineStep(states[k], ops[k], states[k + 1], builds)
  }

  ghost predicate FineInv(limit: uint8, s: E.State, builds: Builds) {
    E.Closed(s) && EngineQueue.QueueInv(s) && EngineSpeech.Reaches(Init(limit), s.speaker, builds)
  }

  lemma FineStepKeeps(limit: uint8, s: E.State, op: E.Op, r: E.State, builds: Builds)
    requires FineInv(limit, s, builds) && E.Closed(r) && FineStep(s, op, r, builds)
    ensures FineInv(limit, r, builds)
  {
    EngineQueue.StepKeeps(s, op, builds);
    if op == E.DoWork {
      EngineSpeech.ScriptRuns(s, op, builds);
      EngineSpeech.ReachesOn(Init(limit), s.speaker, EngineSpeech.Script(s, op), builds);
    } else {
      var mixed :| Finely(s, op, r, mixed, builds);
      EngineSpeech.ReachesOn(Init(limit), s.speaker, mixed, builds);
      FineIsFewer(s, op, r, mixed, builds);
      forall k | 0 <= k < |r.speaker.queue| ensures EngineQueue.MayQueue(r, r.speaker.queue[k].client) {
        assert r.speaker.queue[k] in E.Do(s, op, builds).speaker.queue;
      }
    }
  }

  lemma {:induction false} FineRunKeeps(
      limit: uint8, states: seq<E.State>, ops: seq<E.Op>, builds: Builds, k: nat)
    requires FineRun(limit, states, ops, builds) && k < |states|
    ensures FineInv(limit, states[k], builds)
    decreases k
  {
    if k == 0 {
      assert Run(Init(limit), [], builds) == Init(limit);
    } else {
      FineRunKeeps(limit, states, ops, builds, k - 1);
      FineStepKeeps(limit, states[k - 1], ops[k - 1], states[k], builds);
    }
  }

  /** With the worker moving inside calls as well: between calls, queued speeches belong to sessions that
      have the speaker; and at any point of any call (`inside` is how far it has come), speeches are
      conserved and cancellations justified. */
  lemma FineRunsKeepSpeeches(
      limit: uint8, states: seq<E.State>, ops: seq<E.Op>, builds: Builds, k: nat, inside: seq<Action>)
    requires FineRun(limit, states, ops, builds) && k < |states|
    ensures EngineQueue.QueueInv(states[k])
    ensures SpeechFates.FatesInv(Run(states[k].speaker, inside, builds))
    ensures SpeechCancellation.CancelInv(Run(states[k].speaker, inside, builds))
  {
    FineRunKeeps(limit, states, ops, builds, k);
    EngineSpeech.ReachesOn(Init(limit), states[k].speaker, inside, builds);
    var acts :| Run(Init(limit), acts, builds) == Run(states[k].speaker, inside, builds);
    SpeechFates.RunKeeps(limit, acts, builds);
    SpeechCancellation.RunKeeps(limit, acts, builds);
  }

  lemma SwapsSpeaker(s: E.State, r: E.State)
    requires Arbitration.Inv(s) && r == s.(speaker := r.speaker)
    requires r.speaker.pipe.ensure == s.speaker.pipe.ensure
    ensures Arbitration.Inv(r)
  {
    Arbitration.OnlySpeakerMoves(s, r.speaker);
  }

  /** And the arbitration does not notice: a call keeps its invariant except exactly as it does alone. */
  lemma FineStepArbitratesExactly(s: E.State, op: E.Op, r: E.State, builds: Builds)
    requires Arbitration.Inv(s) && FineStep(s, op, r, builds)
    ensures Arbitration.Inv(r) <==> !Arbitration.Breaks(s, op)
  {
    var coarse := E.Do(s, op, builds);
    Arbitration.StepKeepsExactly(s, op, builds);
    if op != E.DoWork {
      var mixed :| Finely(s, op, r, mixed, builds);
      FineIsFewer(s, op, r, mixed, builds);
      if Arbitration.Inv(coarse) { SwapsSpeaker(coarse, r); }
      if Arbitration.Inv(r) { SwapsSpeaker(r, coarse); }
    }
  }
}
