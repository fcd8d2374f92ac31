/** The speaker: one queue shared by the main loop, which fills, flushes and filters it, and by one
    worker thread, which drains it. Main-loop calls and worker steps interleave at lock points. */
module Speaker {
  import opened Types

  /** `serial` counts the speeches ever queued, so it tells equal requests apart. */
  datatype Speech = Speech(serial: nat, client: nat, id: uint32)

  datatype Outcome = Spoke | Interrupted | NetworkError | PlaybackError

  /** What the worker and the cancelling calls did, in order. */
  datatype Event =
    | Began(speech: Speech)
    | CancelCall
    | Reported(speech: Speech, outcome: Outcome)
    | BuildFailed(speech: Speech)

  /** Where the worker thread stands. The speech it has popped, if any, is part of the phase. */
  datatype Phase =
    | Top
    | Build
    | AfterBuild
    | Waiting
    | Ready
    | Committed(broken: bool)   // about to pop: for a failure report, or to speak
    | Failing(speech: Speech)
    | Held(speech: Speech)      // popped, not yet marked as being spoken
    | Speaking(speech: Speech)
    | Clearing
    | Resetting
    | Stopped
    | Undefined                 // front() was called on an empty list

  /** What happened so far; the program keeps none of it. */
  datatype History = History(
    accepted: seq<Speech>,
    dropped: seq<Speech>,
    cancelled: seq<seq<Speech>>,
    log: seq<Event>)

  /** The media pipeline, its flags and its failure counter. `attempts` and `wraps` are history:
      how often a pipeline was asked for, and how often the 8-bit counter ran over. */
  datatype Pipe = Pipe(
    up: bool,
    error: bool,
    networkError: bool,
    ensure: bool,
    paused: bool,
    failures: uint8,
    limit: uint8,
    attempts: nat,
    wraps: nat)

  datatype State = State(
    queue: seq<Speech>,
    flushed: bool,
    speaking: bool,
    clientSpeaking: Option<nat>,
    running: bool,
    pipe: Pipe,
    phase: Phase,
    hist: History)

  /** For each attempt at building a pipeline, whether the media framework lets it succeed. */
  type Builds = nat -> bool

  function Init(limit: uint8): State {
    State([], false, false, None, true, Pipe(false, false, false, false, false, 0, limit, 0, 0), Top,
          History([], [], [], []))
  }

  // Main-loop calls

  function Log(s: State, e: Event): State {
    s.(hist := s.hist.(log := s.hist.log + [e]))
  }

  function Push(s: State, client: nat, id: uint32): State {
    var speech := Speech(|s.hist.accepted|, client, id);
    s.(queue := s.queue + [speech], hist := s.hist.(accepted := s.hist.accepted + [speech]))
  }

  function Flush(s: State): State {
    s.(queue := [], hist := s.hist.(dropped := s.hist.dropped + s.queue))
  }

  /** The test of m_isSpeaking and the setting of m_flushed are one step. */
  function Cancel(s: State): State {
    var logged := Log(s, CancelCall);
    if s.speaking then logged.(pipe := s.pipe.(paused := false), flushed := true) else logged
  }

  function Reset(s: State): State {
    Flush(Cancel(s))
  }

  function Speak(s: State, client: nat, id: uint32, preemptive: bool): State {
    Push(if preemptive then Reset(s) else s, client, id)
  }

  function Mine(q: seq<Speech>, client: nat): seq<Speech> {
    if q == [] then []
    else (if q[0].client == client then [q[0]] else []) + Mine(q[1..], client)
  }

  function Others(q: seq<Speech>, client: nat): seq<Speech> {
    if q == [] then []
    else (if q[0].client == client then [] else [q[0]]) + Others(q[1..], client)
  }

  function Ids(q: seq<Speech>): seq<uint32> {
    seq(|q|, i requires 0 <= i < |q| => q[i].id)
  }

  /** The client's speeches leave the queue. */
  function TakeOut(s: State, client: nat): State {
    s.(queue := Others(s.queue, client),
       hist := s.hist.(cancelled := s.hist.cancelled + [Mine(s.queue, client)]))
  }

  /** The queue lock, held throughout, keeps the worker from popping; that the worker does not mark or
      report a speech meanwhile either is an idealisation, like the one step of a cancel. */
  function ClearFrom(s: State, client: nat): State {
    var cleared := TakeOut(s, client);
    if s.clientSpeaking == Some(client) then Cancel(cleared) else cleared
  }

  function Ensure(s: State, on: bool): State {
    s.(pipe := s.pipe.(ensure := on))
  }

  /** The destructor's part that the worker can see. */
  function Stop(s: State): State {
    Log(s, CancelCall).(running := false, flushed := s.flushed || s.speaking)
  }

  function BusError(s: State, network: bool): State {
    if s.pipe.up
    then s.(pipe := s.pipe.(error := true, networkError := s.pipe.networkError || network))
    else s
  }

  // The pipeline

  predicate NeedsUpdate(s: State) {
    (s.pipe.failures < s.pipe.limit || s.queue != []) && s.pipe.ensure != s.pipe.up
  }

  function Destroy(p: Pipe): Pipe {
    p.(up := false, failures := 0)
  }

  function CountFailure(p: Pipe): Pipe {
    p.(failures := (p.failures + 1) % 0x100,
       wraps := p.wraps + if p.failures + 1 == 0x100 then 1 else 0)
  }

  function Attempt(p: Pipe, builds: Builds): Pipe {
    var tried := p.(attempts := p.attempts + 1);
    if builds(p.attempts) then tried.(up := true, failures := 0) else CountFailure(tried)
  }

  /** What resetting comes to: after an error the pipeline is built anew, once. */
  function ResetPipe(p: Pipe, builds: Builds): Pipe {
    var recovered := (if p.error then Destroy(p) else p)
      .(error := false, networkError := false, paused := false);
    if recovered.up || !recovered.ensure then recovered else Attempt(recovered, builds)
  }

  /** What creating comes to: a new pipeline is reset at once, which an old error flag makes a second
      attempt. */
  function Create(p: Pipe, builds: Builds): Pipe {
    if !p.ensure || p.up then p
    else
      var built := Attempt(p, builds);
      if built.up then ResetPipe(built, builds) else built
  }

  // The worker

  function Verdict(s: State): Outcome {
    if s.flushed then Interrupted
    else if s.pipe.networkError then NetworkError
    else if !s.pipe.up || s.pipe.error then PlaybackError
    else Spoke
  }

  function SetSpeakingState(s: State, client: Option<nat>): State {
    s.(speaking := client.Some?, clientSpeaking := client, flushed := s.flushed && client.Some?)
  }

  function Dequeue(s: State): State
    requires s.queue != []
  {
    s.(queue := s.queue[1..], flushed := false)
  }

  /** The head of the loop. */
  function CheckPipeline(s: State): State {
    if !s.running then s.(pipe := Destroy(s.pipe), phase := Stopped)
    else if !NeedsUpdate(s) then s.(phase := Waiting)
    else if s.pipe.ensure then s.(phase := Build)
    else s.(pipe := Destroy(s.pipe), phase := Waiting)
  }

  /** Leaving the wait, the worker tests once more what it waited for. */
  function Decide(s: State): State {
    s.(phase := if !s.running then Stopped else if NeedsUpdate(s) then Top else Committed(false))
  }

  function Pop(s: State, broken: bool): State {
    if s.queue == [] then s.(phase := Undefined)
    else Dequeue(s).(phase := if broken then Failing(s.queue[0]) else Held(s.queue[0]))
  }

  function Answer(s: State, speech: Speech): State {
    Log(s, BuildFailed(speech)).(pipe := s.pipe.(failures := 0), phase := Waiting)
  }

  function Begin(s: State, speech: Speech): State {
    Log(SetSpeakingState(s, Some(speech.client)), Began(speech)).(phase := Speaking(speech))
  }

  function Report(s: State, speech: Speech): State {
    Log(s, Reported(speech, Verdict(s))).(phase := Clearing)
  }

  /** One step of the worker, from one lock point to the next. */
  function WorkerStep(s: State, builds: Builds): State {
    match s.phase
    case Top => CheckPipeline(s)
    case Build => s.(pipe := Create(s.pipe, builds), phase := AfterBuild)
    case AfterBuild =>
      s.(phase := if !s.pipe.up && s.queue != [] then Committed(true) else Waiting)
    case Waiting => if !s.running || s.queue != [] || NeedsUpdate(s) then s.(phase := Ready) else s
    case Ready => Decide(s)
    case Committed(broken) => Pop(s, broken)
    case Failing(speech) => Answer(s, speech)
    case Held(speech) => Begin(s, speech)
    case Speaking(speech) => Report(s, speech)
    case Clearing => SetSpeakingState(s, None).(phase := Resetting)
    case Resetting => s.(pipe := ResetPipe(s.pipe, builds), phase := Top)
    case Stopped => s
    case Undefined => s
  }

  // Runs

  datatype Action =
    | DoPush(client: nat, id: uint32)
    | DoFlush
    | DoCancel
    | DoClearFrom(client: nat)
    | DoEnsure(on: bool)
    | DoStop
    | DoBusError(network: bool)
    | DoWork

  function Act(s: State, a: Action, builds: Builds): State {
    match a
    case DoPush(client, id) => Push(s, client, id)
    case DoFlush => Flush(s)
    case DoCancel => Cancel(s)
    case DoClearFrom(client) => ClearFrom(s, client)
    case DoEnsure(on) => Ensure(s, on)
    case DoStop => Stop(s)
    case DoBusError(network) => BusError(s, network)
    case DoWork => WorkerStep(s, builds)
  }

  function Run(s: State, acts: seq<Action>, builds: Builds): State
    decreases |acts|
  {
    if acts == [] then s
    else Act(Run(s, acts[..|acts| - 1], builds), acts[|acts| - 1], builds)
  }

  lemma RunSnoc(s: State, acts: seq<Action>, a: Action, builds: Builds)
    ensures Run(s, acts + [a], builds) == Act(Run(s, acts, builds), a, builds)
  {}

  lemma {:induction false} RunCompose(s: State, first: seq<Action>, second: seq<Action>, builds: Builds)
    ensures Run(s, first + second, builds) == Run(Run(s, first, builds), second, builds)
    decreases |second|
  {
    if second == [] {
      assert first + second == first;
    } else {
      var before, last := second[..|second| - 1], second[|second| - 1];
      RunCompose(s, first, before, builds);
      assert first + second == first + before + [last] && second == before + [last];
      RunSnoc(s, first + before, last, builds);
      RunSnoc(Run(s, first, builds), before, last, builds);
    }
  }

  lemma RunThree(s: State, acts: seq<Action>, builds: Builds)
    requires |acts| == 3
    ensures Run(s, acts, builds) == Act(Act(Act(s, acts[0], builds), acts[1], builds), acts[2], builds)
  {
    assert acts == [] + [acts[0]] + [acts[1]] + [acts[2]];
    RunSnoc(s, [], acts[0], builds);
    RunSnoc(s, [] + [acts[0]], acts[1], builds);
    RunSnoc(s, [] + [acts[0]] + [acts[1]], acts[2], builds);
  }
}
