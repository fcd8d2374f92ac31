/** A run in which a cancelling call strays from the speech it was made for onto the next. */
module StrayCancel {
  import opened Types
  import opened Speaker
  import opened SplitCancels

  /** An engine at work: the pipeline is built, and no error has occurred. */
  function AtWork(queue: seq<Speech>, phase: Phase, accepted: seq<Speech>, log: seq<Event>): State {
    State(queue, false, phase.Speaking? || phase.Clearing?,
          if phase.Speaking? || phase.Clearing? then Some(0) else None,
          true, Pipe(true, false, false, true, false, 0, 1, 1, 0), phase, History(accepted, [], [], log))
  }

  lemma ThreeSteps(
      s: Split, a: Move, b: Move, c: Move, one: Split, two: Split, three: Split, builds: Builds)
    requires Step(s, a, builds) == one && Step(one, b, builds) == two && Step(two, c, builds) == three
    ensures Play(s, [a, b, c], builds) == three
  {
    PlayThree(s, a, b, c, builds);
  }

  /** Once a speech is over the worker comes back to its pop. */
  lemma RoundBegins(
      q: seq<Speech>, acc: seq<Speech>, log: seq<Event>, caller: Caller, marks: seq<Mark>, builds: Builds)
    requires q != []
    ensures
      Play(Split(AtWork(q, Waiting, acc, log), caller, marks), [Turn, Turn], builds)
      == Split(AtWork(q, Committed(false), acc, log), caller, marks)
  {
    var s := Split(AtWork(q, Waiting, acc, log), caller, marks);
    var ready := Split(AtWork(q, Ready, acc, log), caller, marks);
    assert Step(s, Turn, builds) == ready;
    assert [Turn, Turn] == [Turn] + [Turn];
    PlayOn(s, [Turn], [Turn], builds);
    PlayOne(s, Turn, builds);
    PlayOne(ready, Turn, builds);
  }

  lemma RoundEnds(
      q: seq<Speech>, acc: seq<Speech>, log: seq<Event>, caller: Caller, marks: seq<Mark>, builds: Builds)
    ensures
      Play(Split(AtWork(q, Clearing, acc, log), caller, marks), [Turn, Turn, Turn], builds)
      == Split(AtWork(q, Waiting, acc, log), caller, marks)
  {
    var s := Split(AtWork(q, Clearing, acc, log), caller, marks);
    var resetting := Split(AtWork(q, Resetting, acc, log), caller, marks);
    var top := Split(AtWork(q, Top, acc, log), caller, marks);
    assert Step(s, Turn, builds) == resetting;
    assert Step(resetting, Turn, builds) == top;
    ThreeSteps(s, Turn, Turn, Turn, resetting, top, Split(AtWork(q, Waiting, acc, log), caller, marks), builds);
  }

  const FIRST := Speech(0, 0, 7)
  const SECOND := Speech(1, 0, 8)
  const BOTH := [FIRST, SECOND]

  /** The pipeline is built. */
  lemma PipelineIsBuilt(builds: Builds)
    requires builds(0)
    ensures Play(Start(1), [Call(DoEnsure(true)), Turn, Turn], builds)
         == Split(AtWork([], AfterBuild, [], []), Idle, [])
  {
    var wanted := Split(Ensure(Init(1), true), Idle, []);
    var building := wanted.(base := wanted.base.(phase := Build));
    assert Step(wanted, Turn, builds) == building;
    ThreeSteps(Start(1), Call(DoEnsure(true)), Turn, Turn, wanted, building,
               Split(AtWork([], AfterBuild, [], []), Idle, []), builds);
  }

  /** Two speeches are accepted. */
  lemma Asks(builds: Builds)
    ensures
      Play(Split(AtWork([], AfterBuild, [], []), Idle, []), [Turn, Call(DoPush(0, 7)), Call(DoPush(0, 8))], builds)
      == Split(AtWork(BOTH, Waiting, BOTH, []), Idle, [])
  {
    var s := Split(AtWork([], AfterBuild, [], []), Idle, []);
    var waiting := Split(AtWork([], Waiting, [], []), Idle, []);
    ThreeSteps(s, Turn, Call(DoPush(0, 7)), Call(DoPush(0, 8)), waiting,
               Split(AtWork([FIRST], Waiting, [FIRST], []), Idle, []),
               Split(AtWork(BOTH, Waiting, BOTH, []), Idle, []), builds);
  }

  /** The first is being spoken, and a plain call begins to cancel. */
  lemma FirstIsSpoken(builds: Builds)
    ensures
      Play(Split(AtWork(BOTH, Committed(false), BOTH, []), Idle, []), [Turn, Turn, Call(DoCancel)], builds)
      == Split(AtWork([SECOND], Speaking(FIRST), BOTH, [Began(FIRST)]), Testing(Plain), [Popped(FIRST, Idle)])
  {
    var s := Split(AtWork(BOTH, Committed(false), BOTH, []), Idle, []);
    var held := Split(AtWork([SECOND], Held(FIRST), BOTH, []), Idle, [Popped(FIRST, Idle)]);
    var spoken := Split(AtWork([SECOND], Speaking(FIRST), BOTH, [Began(FIRST)]), Idle, [Popped(FIRST, Idle)]);
    assert BOTH[1..] == [SECOND];
    assert Step(s, Turn, builds) == held;
    assert Step(held, Turn, builds) == spoken;
    ThreeSteps(s, Turn, Turn, Call(DoCancel), held, spoken, spoken.(caller := Testing(Plain)), builds);
  }

  function MissedLog(): seq<Event> {
    [Began(FIRST), CancelCall, Reported(FIRST, Spoke)]
  }

  function MissedMarks(): seq<Mark> {
    [Popped(FIRST, Idle), Passed, Told(FIRST, Spoke, Armed(Plain))]
  }

  /** The test passes, and the speech ends before the write. */
  lemma CancelIsLate(builds: Builds)
    ensures
      Play(Split(AtWork([SECOND], Speaking(FIRST), BOTH, [Began(FIRST)]), Testing(Plain), [Popped(FIRST, Idle)]),
           [Continue, Turn], builds)
      == Split(AtWork([SECOND], Clearing, BOTH, MissedLog()), Armed(Plain), MissedMarks())
  {
    var s := Split(AtWork([SECOND], Speaking(FIRST), BOTH, [Began(FIRST)]), Testing(Plain), [Popped(FIRST, Idle)]);
    var armed := Split(AtWork([SECOND], Speaking(FIRST), BOTH, [Began(FIRST), CancelCall]), Armed(Plain),
                       [Popped(FIRST, Idle), Passed]);
    assert Step(s, Continue, builds) == armed;
    assert [Continue, Turn] == [Continue] + [Turn];
    PlayOn(s, [Continue], [Turn], builds);
    PlayOne(s, Continue, builds);
    PlayOne(armed, Turn, builds);
  }

  /** The write lands when the second speech has been popped. */
  lemma WriteStrays(builds: Builds)
    ensures
      Play(Split(AtWork([SECOND], Committed(false), BOTH, MissedLog()), Armed(Plain), MissedMarks()),
           [Turn, Continue, Turn], builds)
      == Split(AtWork([], Speaking(SECOND), BOTH, MissedLog() + [Began(SECOND)]).(flushed := true), Idle,
               MissedMarks() + [Popped(SECOND, Armed(Plain)), Wrote])
  {
    var s := Split(AtWork([SECOND], Committed(false), BOTH, MissedLog()), Armed(Plain), MissedMarks());
    var held := Split(AtWork([], Held(SECOND), BOTH, MissedLog()), Armed(Plain),
                      MissedMarks() + [Popped(SECOND, Armed(Plain))]);
    var hit := Split(AtWork([], Held(SECOND), BOTH, MissedLog()).(flushed := true), Idle,
                     MissedMarks() + [Popped(SECOND, Armed(Plain)), Wrote]);
    assert held.marks + [Wrote] == hit.marks;
    assert Step(s, Turn, builds) == held;
    assert Step(held, Continue, builds) == hit;
    ThreeSteps(s, Turn, Continue, Turn, held, hit,
               Split(AtWork([], Speaking(SECOND), BOTH, MissedLog() + [Began(SECOND)]).(flushed := true), Idle,
                     hit.marks), builds);
  }

  lemma Follow(s: Split, done: seq<Move>, more: seq<Move>, mid: Split, r: Split, builds: Builds)
    requires Play(s, done, builds) == mid && Play(mid, more, builds) == r
    ensures Play(s, done + more, builds) == r
  {
    PlayOn(s, done, more, builds);
  }

  function Asked(): seq<Move> {
    [Call(DoEnsure(true)), Turn, Turn] + [Turn, Call(DoPush(0, 7)), Call(DoPush(0, 8))]
  }

  function Missed(): seq<Move> {
    Asked() + [Turn, Turn] + [Turn, Turn, Call(DoCancel)] + [Continue, Turn]
  }

  function Strayed(): seq<Move> {
    Missed() + [Turn, Turn, Turn] + [Turn, Turn] + [Turn, Continue, Turn] + [Turn]
  }

  lemma MissedPlays(builds: Builds)
    requires builds(0)
    ensures Play(Start(1), Missed(), builds)
         == Split(AtWork([SECOND], Clearing, BOTH, MissedLog()), Armed(Plain), MissedMarks())
  {
    var s := Start(1);
    var built := Split(AtWork([], AfterBuild, [], []), Idle, []);
    var asked := Split(AtWork(BOTH, Waiting, BOTH, []), Idle, []);
    var begun := Split(AtWork(BOTH, Committed(false), BOTH, []), Idle, []);
    var spoken := Split(AtWork([SECOND], Speaking(FIRST), BOTH, [Began(FIRST)]), Testing(Plain),
                        [Popped(FIRST, Idle)]);
    var missed := Split(AtWork([SECOND], Clearing, BOTH, MissedLog()), Armed(Plain), MissedMarks());
    PipelineIsBuilt(builds);
    Asks(builds);
    Follow(s, [Call(DoEnsure(true)), Turn, Turn], [Turn, Call(DoPush(0, 7)), Call(DoPush(0, 8))],
           built, asked, builds);
    RoundBegins(BOTH, BOTH, [], Idle, [], builds);
    Follow(s, Asked(), [Turn, Turn], asked, begun, builds);
    FirstIsSpoken(builds);
    Follow(s, Asked() + [Turn, Turn], [Turn, Turn, Call(DoCancel)], begun, spoken, builds);
    CancelIsLate(builds);
    Follow(s, Asked() + [Turn, Turn] + [Turn, Turn, Call(DoCancel)], [Continue, Turn], spoken, missed, builds);
  }

  lemma StrayPlays(moves: seq<Move>, builds: Builds)
    requires Play(Start(1), moves, builds)
          == Split(AtWork([SECOND], Clearing, BOTH, MissedLog()), Armed(Plain), MissedMarks())
    ensures Play(Start(1), moves + [Turn, Turn, Turn] + [Turn, Turn] + [Turn, Continue, Turn], builds)
         == Split(AtWork([], Speaking(SECOND), BOTH, MissedLog() + [Began(SECOND)]).(flushed := true), Idle,
                  MissedMarks() + [Popped(SECOND, Armed(Plain)), Wrote])
  {
    RoundEnds([SECOND], BOTH, MissedLog(), Armed(Plain), MissedMarks(), builds);
    PlayOn(Start(1), moves, [Turn, Turn, Turn], builds);
    RoundBegins([SECOND], BOTH, MissedLog(), Armed(Plain), MissedMarks(), builds);
    PlayOn(Start(1), moves + [Turn, Turn, Turn], [Turn, Turn], builds);
    WriteStrays(builds);
    PlayOn(Start(1), moves + [Turn, Turn, Turn] + [Turn, Turn], [Turn, Continue, Turn], builds);
  }

  lemma SecondIsInterrupted(hit: Split, builds: Builds)
    requires hit.base.phase == Speaking(SECOND) && hit.base.flushed && hit.caller.Idle?
    ensures Play(hit, [Turn], builds).marks == hit.marks + [Told(SECOND, Interrupted, Idle)]
  {
    PlayOne(hit, Turn, builds);
  }

  /** A run from the start, with a pipeline and no error: the call made for the first speech misses it,
      and the second, for which none was made, is reported as interrupted. */
  lemma CancelStrays(builds: Builds)
    requires builds(0)
    ensures Play(Start(1), Strayed(), builds).marks
         == MissedMarks() + [Popped(SECOND, Armed(Plain)), Wrote, Told(SECOND, Interrupted, Idle)]
  {
    var before := Missed() + [Turn, Turn, Turn] + [Turn, Turn] + [Turn, Continue, Turn];
    MissedPlays(builds);
    StrayPlays(Missed(), builds);
    PlayOn(Start(1), before, [Turn], builds);
    SecondIsInterrupted(Play(Start(1), before, builds), builds);
  }
}
