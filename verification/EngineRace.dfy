/** A run of the whole engine, with nothing unusual in it, at whose end the worker pops from an empty
    queue. */
module EngineRace {
  import opened Types
  import Speaker
  import opened Engine
  import Arbitration

  /** The calls lead to the state without breaking the arbitration. */
  predicate LeadsTo(ops: seq<Op>, s: State, builds: Speaker.Builds) {
    Arbitration.Clean(1, ops, builds) && Run(1, ops, builds) == s
  }

  lemma OneMore(ops: seq<Op>, op: Op, s: State, next: State, builds: Speaker.Builds)
    requires Closed(s) && !Arbitration.Breaks(s, op) && Do(s, op, builds) == next
    ensures LeadsTo(ops, s, builds) ==> LeadsTo(ops + [op], next, builds)
  {
    assert (ops + [op])[..|ops|] == ops;
  }

  /** App 7 has reserved the speaker and has the only session. */
  function Holding(speaker: Speaker.State): State {
    State(true, 7, 0, Some(0), [Session(7, true)], map[7 := 0], map[1 := 0], [Acquired(0)], speaker)
  }

  function Enabled(): (s: State)
    ensures Closed(s)
  {
    Init(1).(enabled := true)
  }

  function Created(): (s: State)
    ensures Closed(s)
  {
    Enabled().(sessions := [Session(7, false)], appMap := map[7 := 0], sessionMap := map[1 := 0])
  }

  lemma FirstCalls()
    ensures EnableTTS(Init(1), true) == Enabled()
    ensures CreateSession(Enabled(), 7).0 == Created()
  {
    assert !HasSession(Enabled(), 7) && Register(Enabled(), 7) == Created();
  }

  lemma ThirdCall()
    ensures Reserve(Created(), 7).0 == Holding(Speaker.Ensure(Speaker.Init(1), true))
  {}

  predicate Leads(ops: seq<Op>, speaker: Speaker.State, builds: Speaker.Builds) {
    LeadsTo(ops, Holding(speaker), builds)
  }

  lemma Grants(builds: Speaker.Builds)
    ensures Leads([DoEnable(true)] + [DoCreate(7)] + [DoReserve(7)], Speaker.Ensure(Speaker.Init(1), true), builds)
  {
    FirstCalls();
    ThirdCall();
    assert [DoEnable(true)] == [] + [DoEnable(true)] && LeadsTo([], Init(1), builds);
    OneMore([], DoEnable(true), Init(1), Enabled(), builds);
    OneMore([DoEnable(true)], DoCreate(7), Enabled(), Created(), builds);
    OneMore([DoEnable(true)] + [DoCreate(7)], DoReserve(7), Created(),
            Holding(Speaker.Ensure(Speaker.Init(1), true)), builds);
  }

  /** The speaker of that engine with its pipeline built. */
  function Built(phase: Speaker.Phase): Speaker.State {
    Speaker.Ensure(Speaker.Init(1), true)
      .(pipe := Speaker.Pipe(true, false, false, true, false, 0, 1, 1, 0), phase := phase)
  }

  lemma Works(ops: seq<Op>, speaker: Speaker.State, next: Speaker.State, builds: Speaker.Builds)
    requires Speaker.WorkerStep(speaker, builds) == next
    ensures Leads(ops, speaker, builds) ==> Leads(ops + [DoWork], next, builds)
  {
    OneMore(ops, DoWork, Holding(speaker), Holding(next), builds);
  }

  lemma BuildSteps(builds: Speaker.Builds)
    requires builds(0)
    ensures
      var wanted := Speaker.Ensure(Speaker.Init(1), true);
      && Speaker.WorkerStep(wanted, builds) == wanted.(phase := Speaker.Build)
      && Speaker.WorkerStep(wanted.(phase := Speaker.Build), builds) == Built(Speaker.AfterBuild)
      && Speaker.WorkerStep(Built(Speaker.AfterBuild), builds) == Built(Speaker.Waiting)
  {}

  lemma Builds(ops: seq<Op>, builds: Speaker.Builds)
    requires builds(0)
    ensures Leads(ops, Speaker.Ensure(Speaker.Init(1), true), builds)
            ==> Leads(ops + [DoWork] + [DoWork] + [DoWork], Built(Speaker.Waiting), builds)
  {
    var wanted := Speaker.Ensure(Speaker.Init(1), true);
    BuildSteps(builds);
    Works(ops, wanted, wanted.(phase := Speaker.Build), builds);
    Works(ops + [DoWork], wanted.(phase := Speaker.Build), Built(Speaker.AfterBuild), builds);
    Works(ops + [DoWork] + [DoWork], Built(Speaker.AfterBuild), Built(Speaker.Waiting), builds);
  }

  /** One speech is requested, as requests are made by default. */
  function Requested(phase: Speaker.Phase): Speaker.State {
    var speech := Speaker.Speech(0, 0, 5);
    Built(phase).(queue := [speech], hist := Speaker.History([speech], [], [], [Speaker.CancelCall]))
  }

  lemma RequestSteps(builds: Speaker.Builds)
    ensures Do(Holding(Built(Speaker.Waiting)), DoSpeak(0, 5, true, true), builds)
         == Holding(Requested(Speaker.Waiting))
    ensures Speaker.WorkerStep(Requested(Speaker.Waiting), builds) == Requested(Speaker.Ready)
  {
    assert Speaker.Speak(Built(Speaker.Waiting), 0, 5, true) == Requested(Speaker.Waiting);
  }

  lemma Requests(ops: seq<Op>, builds: Speaker.Builds)
    ensures Leads(ops, Built(Speaker.Waiting), builds)
            ==> Leads(ops + [DoSpeak(0, 5, true, true)] + [DoWork], Requested(Speaker.Ready), builds)
  {
    RequestSteps(builds);
    OneMore(ops, DoSpeak(0, 5, true, true), Holding(Built(Speaker.Waiting)), Holding(Requested(Speaker.Waiting)),
            builds);
    Works(ops + [DoSpeak(0, 5, true, true)], Requested(Speaker.Waiting), Requested(Speaker.Ready), builds);
  }

  /** The speech is taken out of the queue again. */
  function Emptied(phase: Speaker.Phase): Speaker.State {
    Speaker.TakeOut(Requested(phase), 0)
  }

  lemma AbortSteps(builds: Speaker.Builds)
    ensures Do(Holding(Requested(Speaker.Ready)), DoAbort(0), builds) == Holding(Emptied(Speaker.Ready))
    ensures Speaker.WorkerStep(Emptied(Speaker.Ready), builds) == Emptied(Speaker.Committed(false))
    ensures Speaker.WorkerStep(Emptied(Speaker.Committed(false)), builds) == Emptied(Speaker.Undefined)
  {
    assert Emptied(Speaker.Ready).queue == [] && Emptied(Speaker.Committed(false)).queue == [];
    assert Speaker.Decide(Emptied(Speaker.Ready)) == Emptied(Speaker.Committed(false));
  }

  lemma Aborts(ops: seq<Op>, builds: Speaker.Builds)
    ensures Leads(ops, Requested(Speaker.Ready), builds)
            ==> Leads(ops + [DoAbort(0)] + [DoWork] + [DoWork], Emptied(Speaker.Undefined), builds)
  {
    AbortSteps(builds);
    OneMore(ops, DoAbort(0), Holding(Requested(Speaker.Ready)), Holding(Emptied(Speaker.Ready)), builds);
    Works(ops + [DoAbort(0)], Emptied(Speaker.Ready), Emptied(Speaker.Committed(false)), builds);
    Works(ops + [DoAbort(0)] + [DoWork], Emptied(Speaker.Committed(false)), Emptied(Speaker.Undefined), builds);
  }

  /** Enabling, creating a session, reserving, one request while the pipeline stands, and an abort after
      the worker has left its wait for that request: the pop is undefined. */
  lemma AbortAfterTestIsUndefined(builds: Speaker.Builds)
    requires builds(0)
    ensures
      var ops := [DoEnable(true)] + [DoCreate(7)] + [DoReserve(7)]
                 + [DoWork] + [DoWork] + [DoWork] + [DoSpeak(0, 5, true, true)] + [DoWork]
                 + [DoAbort(0)] + [DoWork] + [DoWork];
      Arbitration.Clean(1, ops, builds) && Run(1, ops, builds).speaker.phase == Speaker.Undefined
  {
    var granted := [DoEnable(true)] + [DoCreate(7)] + [DoReserve(7)];
    var built := granted + [DoWork] + [DoWork] + [DoWork];
    var requested := built + [DoSpeak(0, 5, true, true)] + [DoWork];
    Grants(builds);
    Builds(granted, builds);
    Requests(built, builds);
    Aborts(requested, builds);
    assert Leads(requested + [DoAbort(0)] + [DoWork] + [DoWork], Emptied(Speaker.Undefined), builds);
  }
}
