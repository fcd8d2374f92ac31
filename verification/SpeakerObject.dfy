/** The speaker object: its main-loop calls, and its worker thread cut at lock points. Clients are known
    by the number of their session. */
module SpeakerObject {
  import opened Types
  import opened Speaker
  import opened Sequences

  class TTSSpeaker {
    var queue: seq<Speech>
    var flushed: bool
    var isSpeaking: bool
    var clientSpeaking: Option<nat>
    var runThread: bool
    var pipeline: bool   // there is one
    var pipelineError: bool
    var networkError: bool
    var ensurePipeline: bool
    var isPaused: bool
    var failures: uint8
    const maxFailures: uint8
    var phase: Phase     // where the worker thread stands
    var attempts: nat
    var wraps: nat
    var hist: History    // like the two counters above, no part of the program's data

    ghost function PipeModel(): Pipe
      reads this
    {
      Pipe(pipeline, pipelineError, networkError, ensurePipeline, isPaused,
           failures, maxFailures, attempts, wraps)
    }

    ghost function Model(): State
      reads this
    {
      State(queue, flushed, isSpeaking, clientSpeaking, runThread, PipeModel(), phase, hist)
    }

    constructor (maxFailures: uint8)
      ensures Model() == Speaker.Init(maxFailures)
    {
      queue, flushed, isSpeaking, clientSpeaking, runThread := [], false, false, None, true;
      pipeline, pipelineError, networkError, ensurePipeline, isPaused := false, false, false, false, false;
      failures, this.maxFailures, phase := 0, maxFailures, Top;
      attempts, wraps, hist := 0, 0, History([], [], [], []);
    }

    // Main-loop calls

    method EnsurePipeline(flag: bool)
      modifies this`ensurePipeline
      ensures Model() == Ensure(old(Model()), flag)
    {
      ensurePipeline := flag;
    }

    method CancelCurrentSpeech()
      modifies this`isPaused, this`flushed, this`hist
      ensures Model() == Cancel(old(Model()))
    {
      hist := hist.(log := hist.log + [CancelCall]);
      if isSpeaking {
        isPaused := false;
        flushed := true;
      }
    }

    method FlushQueue()
      modifies this`queue, this`hist
      ensures Model() == Flush(old(Model()))
    {
      hist := hist.(dropped := hist.dropped + queue);
      queue := [];
    }

    method QueueData(client: nat, id: uint32)
      modifies this`queue, this`hist
      ensures Model() == Push(old(Model()), client, id)
    {
      var data := Speech(|hist.accepted|, client, id);
      queue := queue + [data];
      hist := hist.(accepted := hist.accepted + [data]);
    }

    method Reset()
      modifies this`isPaused, this`flushed, this`queue, this`hist
      ensures Model() == Speaker.Reset(old(Model()))
    {
      CancelCurrentSpeech();
      FlushQueue();
    }

    method Speak(client: nat, id: uint32, preemptive: bool)
      modifies this`isPaused, this`flushed, this`queue, this`hist
      ensures Model() == Speaker.Speak(old(Model()), client, id, preemptive)
    {
      if preemptive { Reset(); }
      QueueData(client, id);
    }

    method SpeakingFor(client: nat) returns (r: bool)
      ensures r <==> clientSpeaking == Some(client)
    {
      return clientSpeaking == Some(client);
    }

    /** The loop over the queue, erasing while it iterates. */
    method TakeFrom(client: nat) returns (ids: seq<uint32>)
      modifies this`queue
      ensures queue == Others(old(queue), client) && ids == Ids(Mine(old(queue), client))
    {
      ids := [];
      var it: nat := 0;
      ghost var kept, mine, rest := [], [], queue;
      while it < |queue|
        invariant it == |kept| && queue == kept + rest && ids == Ids(mine)
        invariant kept + Others(rest, client) == Others(old(queue), client)
        invariant mine + Mine(rest, client) == Mine(old(queue), client)
        decreases |rest|
      {
        Unfold(kept, rest);
        SortOut(kept, mine, rest, client);
        if queue[it].client == client {
          ids := ids + [queue[it].id];
          mine := mine + [rest[0]];
          queue := queue[..it] + queue[it + 1..];
        } else {
          it := it + 1;
          kept := kept + [rest[0]];
        }
        rest := rest[1..];
      }
      assert rest == [] && kept + Others(rest, client) == kept && mine + Mine(rest, client) == mine;
    }

    method ClearAllSpeechesFrom(client: nat) returns (ids: seq<uint32>)
      modifies this`queue, this`isPaused, this`flushed, this`hist
      ensures Model() == ClearFrom(old(Model()), client)
      ensures ids == Ids(Mine(old(queue), client))
    {
      hist := hist.(cancelled := hist.cancelled + [Mine(queue, client)]);
      ids := TakeFrom(client);
      var speaking := SpeakingFor(client);
      if speaking { CancelCurrentSpeech(); }
    }

    method HandleError(network: bool)
      modifies this`networkError, this`pipelineError
      ensures Model() == BusError(old(Model()), network)
    {
      if !pipeline { return; }
      if network { networkError := true; }
      pipelineError := true;
    }

    /** The destructor's part that the worker can see. */
    method StopThread()
      modifies this`flushed, this`runThread, this`hist
      ensures Model() == Stop(old(Model()))
    {
      hist := hist.(log := hist.log + [CancelCall]);
      if isSpeaking { flushed := true; }
      runThread := false;
    }

    // The pipeline

    predicate NeedsPipelineUpdate()
      reads this
    {
      && (if failures < maxFailures then true else queue != [])
      && ((ensurePipeline && !pipeline) || (pipeline && !ensurePipeline))
    }

    method DestroyPipeline()
      modifies this`pipeline, this`failures
      ensures PipeModel() == Destroy(old(PipeModel()))
    {
      pipeline := false;
      failures := 0;
    }

    /** Creating resets and resetting creates; that this comes to an end needs that no error comes in
        between. */
    method CreatePipeline(builds: Builds)
      modifies this`pipeline, this`pipelineError, this`networkError, this`isPaused, this`failures,
               this`attempts, this`wraps
      ensures PipeModel() == Create(old(PipeModel()), builds)
      decreases pipelineError, !pipeline, false
    {
      if !ensurePipeline || pipeline { return; }
      var succeeds := builds(attempts);
      attempts := attempts + 1;
      if !succeeds {
        if failures == 0xff { wraps := wraps + 1; }
        failures := (failures + 1) % 0x100;
        return;
      }
      pipeline := true;
      failures := 0;
      ResetPipeline(builds);
    }

    method ResetPipeline(builds: Builds)
      modifies this`pipeline, this`pipelineError, this`networkError, this`isPaused, this`failures,
               this`attempts, this`wraps
      ensures PipeModel() == ResetPipe(old(PipeModel()), builds)
      decreases pipelineError, !pipeline, true
    {
      if pipelineError { DestroyPipeline(); }
      pipelineError, networkError, isPaused := false, false, false;
      if !pipeline { CreatePipeline(builds); }
    }

    // The worker

    method SetSpeakingState(state: bool, client: Option<nat>)
      requires state <==> client.Some?
      modifies this`isSpeaking, this`clientSpeaking, this`flushed
      ensures Model() == Speaker.SetSpeakingState(old(Model()), client)
    {
      isSpeaking := state;
      clientSpeaking := client;
      if state == false { flushed := false; }
    }

    method DequeueData() returns (d: Speech)
      requires queue != []
      modifies this`queue, this`flushed
      ensures d == old(queue)[0] && Model() == Dequeue(old(Model()))
    {
      d := queue[0];
      queue := queue[1..];
      flushed := false;
    }

    method CheckPipeline()
      modifies this`phase, this`pipeline, this`failures
      ensures Model() == Speaker.CheckPipeline(old(Model()))
    {
      if !runThread {
        DestroyPipeline();
        phase := Stopped;
      } else {
        phase := Waiting;
        if NeedsPipelineUpdate() {
          if ensurePipeline { phase := Build; } else { DestroyPipeline(); }
        }
      }
    }

    method LeaveWait()
      modifies this`phase
      ensures Model() == Decide(old(Model()))
    {
      if !runThread {
        phase := Stopped;
      } else if NeedsPipelineUpdate() {
        phase := Top;
      } else {
        phase := Committed(false);
      }
    }

    method TakeNext(broken: bool)
      modifies this`phase, this`queue, this`flushed
      ensures Model() == Pop(old(Model()), broken)
    {
      if queue == [] {
        phase := Undefined;
      } else {
        var data := DequeueData();
        phase := if broken then Failing(data) else Held(data);
      }
    }

    /** The speech's client hears one of four outcomes. */
    method InformAfterSpeaking(data: Speech)
      modifies this`phase, this`hist
      ensures Model() == Report(old(Model()), data)
    {
      var outcome;
      if flushed {
        outcome := Interrupted;
      } else if networkError {
        outcome := NetworkError;
      } else if !pipeline || pipelineError {
        outcome := PlaybackError;
      } else {
        outcome := Spoke;
      }
      hist := hist.(log := hist.log + [Reported(data, outcome)]);
      phase := Clearing;
    }

    method SendBuildError(data: Speech)
      modifies this`phase, this`hist, this`failures
      ensures Model() == Answer(old(Model()), data)
    {
      hist := hist.(log := hist.log + [BuildFailed(data)]);
      failures := 0;
      phase := Waiting;
    }

    method StartSpeaking(data: Speech)
      modifies this`phase, this`hist, this`isSpeaking, this`clientSpeaking, this`flushed
      ensures Model() == Begin(old(Model()), data)
    {
      SetSpeakingState(true, Some(data.client));
      hist := hist.(log := hist.log + [Began(data)]);
      phase := Speaking(data);
    }

    /** The worker's loop from one lock point to the next: what it does about the pipeline, ... */
    method PipelineStep(builds: Builds)
      requires phase.Top? || phase.Build? || phase.AfterBuild? || phase.Waiting? || phase.Ready?
               || phase.Resetting?
      modifies this
      ensures Model() == WorkerStep(old(Model()), builds)
    {
      match phase
      case Top => CheckPipeline();
      case Build => CreatePipeline(builds); phase := AfterBuild;
      case AfterBuild => phase := if !pipeline && queue != [] then Committed(true) else Waiting;
      case Waiting =>
        if !(runThread && queue == [] && !NeedsPipelineUpdate()) { phase := Ready; }
      case Ready => LeaveWait();
      case Resetting => ResetPipeline(builds); phase := Top;
    }

    /** ... and about a speech. */
    method SpeechStep(builds: Builds)
      requires phase.Committed? || phase.Failing? || phase.Held? || phase.Speaking? || phase.Clearing?
      modifies this
      ensures Model() == WorkerStep(old(Model()), builds)
    {
      match phase
      case Committed(broken) => TakeNext(broken);
      case Failing(data) => SendBuildError(data);
      case Held(data) => StartSpeaking(data);
      case Speaking(data) => InformAfterSpeaking(data);
      case Clearing => SetSpeakingState(false, None); phase := Resetting;
    }

    method Step(builds: Builds)
      modifies this
      ensures Model() == WorkerStep(old(Model()), builds)
    {
      match phase
      case Stopped =>
      case Undefined =>
      case Committed(_) => SpeechStep(builds);
      case Failing(_) => SpeechStep(builds);
      case Held(_) => SpeechStep(builds);
      case Speaking(_) => SpeechStep(builds);
      case Clearing => SpeechStep(builds);
      case _ => PipelineStep(builds);
    }
  }

  /** One round of the loop over the queue. */
  lemma SortOut(kept: seq<Speech>, mine: seq<Speech>, rest: seq<Speech>, client: nat)
    requires rest != []
    ensures
      var takes := rest[0].client == client;
      && kept + Others(rest, client)
         == (if takes then kept else kept + [rest[0]]) + Others(rest[1..], client)
      && mine + Mine(rest, client)
         == (if takes then mine + [rest[0]] else mine) + Mine(rest[1..], client)
  {
    if rest[0].client == client {
      assert Others(rest, client) == Others(rest[1..], client);
      Assoc(mine, [rest[0]], Mine(rest[1..], client));
    } else {
      assert Mine(rest, client) == Mine(rest[1..], client);
      Assoc(kept, [rest[0]], Others(rest[1..], client));
    }
  }
}
