/** Cancelling calls as the program makes them: they test whether something is being spoken, and write
    the flag that interrupts it, with no lock around the two, so the worker can move in between. */
module SplitCancels {
  import opened Types
  import opened Speaker

  /** Who cancels: a plain call, a session that aborts and holds the queue lock meanwhile, or the
      speaker's destructor. */
  datatype Kind = Plain | Abort | Destructor

  /** Where the main loop stands in its call. */
  datatype Caller =
    | Idle
    | Asking(client: nat)   // is this client being spoken for?
    | Testing(kind: Kind)
    | Armed(kind: Kind)     // the test has passed, the write is to come
    | Quitting

  /** What decides over interruptions, in order; `during` is where the main loop stood. */
  datatype Mark =
    | Popped(speech: Speech, during: Caller)
    | Passed
    | Wrote
    | Told(speech: Speech, outcome: Outcome, during: Caller)

  datatype Split = Split(base: State, caller: Caller, marks: seq<Mark>)

  function Start(limit: uint8): Split {
    Split(Init(limit), Idle, [])
  }

  /** A call begins; those that cancel nothing are over at once. */
  function Begin(s: Split, a: Action, builds: Builds): Split
    requires a != DoWork
  {
    match a
    case DoCancel => s.(caller := Testing(Plain))
    case DoStop => s.(caller := Testing(Destructor))
    // from here to its end, the call holds the queue lock
    case DoClearFrom(client) => s.(base := TakeOut(s.base, client), caller := Asking(client))
    case _ => s.(base := Act(s.base, a, builds))
  }

  function Next(kind: Kind): Caller {
    if kind.Destructor? then Quitting else Idle
  }

  /** The next step of the call in progress. */
  function Proceed(s: Split): Split {
    match s.caller
    case Idle => s
    case Asking(client) =>
      s.(caller := if s.base.clientSpeaking == Some(client) then Testing(Abort) else Idle)
    case Testing(kind) =>
      var logged := Log(s.base, CancelCall);
      if s.base.speaking then s.(base := logged, caller := Armed(kind), marks := s.marks + [Passed])
      else s.(base := logged, caller := Next(kind))
    case Armed(kind) =>
      var pipe := if kind.Destructor? then s.base.pipe else s.base.pipe.(paused := false);
      Split(s.base.(flushed := true, pipe := pipe), Next(kind), s.marks + [Wrote])
    case Quitting => s.(base := s.base.(running := false), caller := Idle)
  }

  predicate HoldsQueueLock(c: Caller) {
    c.Asking? || c == Testing(Abort) || c == Armed(Abort)
  }

  /** The worker moves, but to pop it needs the queue lock. */
  function Work(s: Split, builds: Builds): Split {
    var base := WorkerStep(s.base, builds);
    match s.base.phase
    case Committed(broken) =>
      if HoldsQueueLock(s.caller) then s
      else if broken || s.base.queue == [] then s.(base := base)
      else s.(base := base, marks := s.marks + [Popped(s.base.queue[0], s.caller)])
    case Speaking(speech) =>
      s.(base := base, marks := s.marks + [Told(speech, Verdict(s.base), s.caller)])
    case _ => s.(base := base)
  }

  datatype Move = Call(action: Action) | Continue | Turn

  /** The main loop makes one call at a time; a call that cannot begin does not. */
  function Step(s: Split, m: Move, builds: Builds): Split {
    match m
    case Call(a) => if s.caller.Idle? && a != DoWork then Begin(s, a, builds) else s
    case Continue => Proceed(s)
    case Turn => Work(s, builds)
  }

  function Play(s: Split, moves: seq<Move>, builds: Builds): Split
    decreases |moves|
  {
    if moves == [] then s else Play(Step(s, moves[0], builds), moves[1..], builds)
  }

  // What the marks tell

  /** The speech was popped at `i`, and up to `j` only the main loop made marks. It tests and writes in
      turn, and it writes first exactly if it stood between test and write at the pop. */
  predicate Since(marks: seq<Mark>, i: nat, j: nat, speech: Speech) {
    && i < j <= |marks| && marks[i].Popped? && marks[i].speech == speech
    && (forall k :: i < k < j ==> marks[k].Passed? || marks[k].Wrote?)
    && (i + 1 < j ==> (marks[i + 1].Wrote? <==> marks[i].during.Armed?))
    && forall k :: i + 1 < k < j ==> (marks[k].Wrote? <==> marks[k - 1].Passed?)
  }

  /** Whether the main loop stands between a test and its write at `j`. */
  predicate ArmedAt(marks: seq<Mark>, i: nat, j: nat)
    requires i < j <= |marks| && marks[i].Popped?
  {
    if i + 1 == j then marks[i].during.Armed? else marks[j - 1].Passed?
  }

  predicate WroteBetween(marks: seq<Mark>, i: nat, j: nat)
    requires j <= |marks|
  {
    exists k :: i < k < j && marks[k].Wrote?
  }

  predicate PassedBetween(marks: seq<Mark>, i: nat, j: nat)
    requires j <= |marks|
  {
    exists k :: i < k < j && marks[k].Passed?
  }

  /** The report at `j` belongs to the pop at `i`, and says "interrupted" if and only if a write landed
      between the two. */
  predicate Answers(marks: seq<Mark>, i: nat, j: nat) {
    && j < |marks| && marks[j].Told?
    && Since(marks, i, j, marks[j].speech)
    && (marks[j].during.Armed? <==> ArmedAt(marks, i, j))
    && (marks[j].outcome == Interrupted <==> WroteBetween(marks, i, j))
  }

  ghost predicate Answered(marks: seq<Mark>, j: nat)
    requires j < |marks|
  {
    marks[j].Told? ==> exists i: nat :: Answers(marks, i, j)
  }

  predicate InHand(s: Split, i: nat, speech: Speech) {
    && Since(s.marks, i, |s.marks|, speech)
    && (s.caller.Armed? <==> ArmedAt(s.marks, i, |s.marks|))
    && (s.base.flushed <==> WroteBetween(s.marks, i, |s.marks|))
  }

  ghost predicate HandInv(s: Split) {
    s.base.phase.Held? || s.base.phase.Speaking? ==> exists i: nat :: InHand(s, i, s.base.phase.speech)
  }

  ghost predicate MarksInv(marks: seq<Mark>) {
    && (forall j :: 0 <= j < |marks| ==> Answered(marks, j))
    && forall j :: 0 <= j < |marks| && marks[j].Popped? ==> !HoldsQueueLock(marks[j].during)
  }

  ghost predicate SplitInv(s: Split) {
    HandInv(s) && MarksInv(s.marks)
  }

  lemma Grows(marks: seq<Mark>, m: Mark, i: nat, j: nat)
    requires Answers(marks, i, j)
    ensures Answers(marks + [m], i, j)
  {
    var more := marks + [m];
    assert forall k :: 0 <= k < |marks| ==> more[k] == marks[k];
    if k :| i < k < j && marks[k].Wrote? { assert more[k].Wrote?; }
  }

  lemma MarksGrow(marks: seq<Mark>, m: Mark)
    requires MarksInv(marks) && (m.Told? ==> Answered(marks + [m], |marks|))
    requires m.Popped? ==> !HoldsQueueLock(m.during)
    ensures MarksInv(marks + [m])
  {
    forall j | 0 <= j <= |marks| ensures Answered(marks + [m], j) {
      if j < |marks| && marks[j].Told? {
        assert Answered(marks, j);
        var i: nat :| Answers(marks, i, j);
        Grows(marks, m, i, j);
      }
    }
  }

  /** The main loop's mark: a test passed, or the write after it. */
  lemma CallerMarks(s: Split, r: Split, m: Mark)
    requires SplitInv(s) && r.marks == s.marks + [m] && r.base.phase == s.base.phase
    requires m.Passed? || m.Wrote?
    requires m.Passed? ==> !s.caller.Armed? && r.caller.Armed? && r.base.flushed == s.base.flushed
    requires m.Wrote? ==> s.caller.Armed? && !r.caller.Armed? && r.base.flushed
    ensures SplitInv(r)
  {
    MarksGrow(s.marks, m);
    if s.base.phase.Held? || s.base.phase.Speaking? {
      var i: nat :| InHand(s, i, s.base.phase.speech);
      var n := |s.marks|;
      assert r.marks[n] == m && forall k :: 0 <= k < n ==> r.marks[k] == s.marks[k];
      if k :| i < k < n && s.marks[k].Wrote? { assert r.marks[k].Wrote?; }
      assert InHand(r, i, s.base.phase.speech);
    }
  }

  /** Steps that mark nothing, and do not matter to the speech in hand. */
  lemma Unmarked(s: Split, r: Split)
    requires SplitInv(s) && r.marks == s.marks
    requires r.base.phase.Held? || r.base.phase.Speaking? ==>
               && (s.base.phase.Held? || s.base.phase.Speaking?)
               && r.base.phase.speech == s.base.phase.speech
               && r.base.flushed == s.base.flushed && (r.caller.Armed? <==> s.caller.Armed?)
    ensures SplitInv(r)
  {
    if r.base.phase.Held? || r.base.phase.Speaking? {
      var i: nat :| InHand(s, i, s.base.phase.speech);
      assert InHand(r, i, r.base.phase.speech);
    }
  }

  lemma PopKeeps(s: Split, builds: Builds)
    requires SplitInv(s) && s.base.phase.Committed?
    ensures SplitInv(Work(s, builds))
  {
    var r := Work(s, builds);
    if r.base.phase.Held? {
      MarksGrow(s.marks, Popped(s.base.queue[0], s.caller));
      assert InHand(r, |s.marks|, r.base.phase.speech);
    } else {
      Unmarked(s, r);
    }
  }

  lemma TellKeeps(s: Split, builds: Builds)
    requires SplitInv(s) && s.base.phase.Speaking?
    ensures SplitInv(Work(s, builds))
  {
    var speech, n := s.base.phase.speech, |s.marks|;
    var m := Told(speech, Verdict(s.base), s.caller);
    var more := s.marks + [m];
    var i: nat :| InHand(s, i, speech);
    assert more[n] == m && forall k :: 0 <= k < n ==> more[k] == s.marks[k];
    if k :| i < k < n && s.marks[k].Wrote? { assert more[k].Wrote?; }
    assert Answers(more, i, n);
    MarksGrow(s.marks, m);
  }

  lemma WorkKeeps(s: Split, builds: Builds)
    requires SplitInv(s)
    ensures SplitInv(Work(s, builds))
  {
    if s.base.phase.Committed? {
      PopKeeps(s, builds);
    } else if s.base.phase.Speaking? {
      TellKeeps(s, builds);
    } else {
      Unmarked(s, Work(s, builds));
    }
  }

  lemma ProceedKeeps(s: Split)
    requires SplitInv(s)
    ensures SplitInv(Proceed(s))
  {
    if s.caller.Armed? {
      CallerMarks(s, Proceed(s), Wrote);
    } else if s.caller.Testing? && s.base.speaking {
      CallerMarks(s, Proceed(s), Passed);
    } else {
      Unmarked(s, Proceed(s));
    }
  }

  lemma BeginKeeps(s: Split, a: Action, builds: Builds)
    requires SplitInv(s) && s.caller.Idle? && a != DoWork
    ensures SplitInv(Begin(s, a, builds))
  {
    Unmarked(s, Begin(s, a, builds));
  }

  lemma StepKeeps(s: Split, m: Move, builds: Builds)
    requires SplitInv(s)
    ensures SplitInv(Step(s, m, builds))
  {
    match m
    case Call(a) => if s.caller.Idle? && a != DoWork { BeginKeeps(s, a, builds); }
    case Continue => ProceedKeeps(s);
    case Turn => WorkKeeps(s, builds);
  }

  lemma {:induction false} PlayKeeps(s: Split, moves: seq<Move>, builds: Builds)
    requires SplitInv(s)
    ensures SplitInv(Play(s, moves, builds))
    decreases |moves|
  {
    if moves != [] {
      StepKeeps(s, moves[0], builds);
      PlayKeeps(Step(s, moves[0], builds), moves[1..], builds);
    }
  }

  /** On every run, with the worker moving at any point of any call: a report says "interrupted" if and
      only if a write landed between the pop of its speech and the report. */
  lemma InterruptedIffWritten(limit: uint8, moves: seq<Move>, builds: Builds, j: nat)
    requires j < |Play(Start(limit), moves, builds).marks|
    requires Play(Start(limit), moves, builds).marks[j].Told?
    ensures exists i: nat :: Answers(Play(Start(limit), moves, builds).marks, i, j)
  {
    PlayKeeps(Start(limit), moves, builds);
    assert Answered(Play(Start(limit), moves, builds).marks, j);
  }

  /** A cancelling call strays onto a speech during which none was made exactly if it stood between
      test and write when the speech was popped, wrote before the report, and nothing else happened;
      and it misses the speech it was made for exactly if it stood there at the report, having passed
      its test since the pop. In all other cases, "interrupted" means that a call found the speech
      being spoken. */
  lemma StraysExactly(marks: seq<Mark>, i: nat, j: nat)
    requires Answers(marks, i, j)
    ensures
      var interrupted, cancelled := marks[j].outcome == Interrupted, PassedBetween(marks, i, j);
      var before, after := marks[i].during.Armed?, marks[j].during.Armed?;
      && (interrupted && !cancelled <==> before && j == i + 2)
      && (!interrupted && cancelled <==> !before && j == i + 2)
      && (!before && !after ==> (interrupted <==> cancelled))
  {
    if j == i + 2 { assert marks[i + 1].Wrote? || marks[i + 1].Passed?; }
    if j > i + 2 {
      assert marks[i + 1].Passed? <==> marks[i + 2].Wrote?;
      assert marks[i + 1].Wrote? || marks[i + 1].Passed?;
      assert marks[i + 2].Wrote? || marks[i + 2].Passed?;
    }
  }

  /** A session that aborts holds the queue lock, so its write cannot stray onto a later speech. */
  lemma AbortsDoNotStray(limit: uint8, moves: seq<Move>, builds: Builds, i: nat)
    requires i < |Play(Start(limit), moves, builds).marks|
    requires Play(Start(limit), moves, builds).marks[i].Popped?
    ensures Play(Start(limit), moves, builds).marks[i].during != Armed(Abort)
  {
    PlayKeeps(Start(limit), moves, builds);
  }

  // Calls that are not interrupted

  /** The worker does not move while a call is in progress. */
  predicate Uninterrupted(s: Split, moves: seq<Move>, builds: Builds)
    decreases |moves|
  {
    moves != [] ==>
      (moves[0].Turn? ==> s.caller.Idle?) && Uninterrupted(Step(s, moves[0], builds), moves[1..], builds)
  }

  predicate MarkedAtRest(marks: seq<Mark>) {
    forall k :: 0 <= k < |marks| && (marks[k].Popped? || marks[k].Told?) ==> marks[k].during.Idle?
  }

  lemma {:induction false} RestStays(s: Split, moves: seq<Move>, builds: Builds)
    requires MarkedAtRest(s.marks) && Uninterrupted(s, moves, builds)
    ensures MarkedAtRest(Play(s, moves, builds).marks)
    decreases |moves|
  {
    if moves != [] { RestStays(Step(s, moves[0], builds), moves[1..], builds); }
  }

  /** Then no cancelling call strays: a report says "interrupted" if and only if a call found the speech
      being spoken. */
  lemma UninterruptedCallsDoNotStray(limit: uint8, moves: seq<Move>, builds: Builds, j: nat)
    requires Uninterrupted(Start(limit), moves, builds)
    requires j < |Play(Start(limit), moves, builds).marks|
    requires Play(Start(limit), moves, builds).marks[j].Told?
    ensures
      var marks := Play(Start(limit), moves, builds).marks;
      exists i: nat :: Answers(marks, i, j)
                       && (marks[j].outcome == Interrupted <==> PassedBetween(marks, i, j))
  {
    var marks := Play(Start(limit), moves, builds).marks;
    InterruptedIffWritten(limit, moves, builds, j);
    RestStays(Start(limit), moves, builds);
    var i: nat :| Answers(marks, i, j);
    StraysExactly(marks, i, j);
  }

  function Moves(a: Action): seq<Move> {
    match a
    case DoWork => [Turn]
    case DoCancel => [Call(a), Continue, Continue]
    case DoClearFrom(_) => [Call(a), Continue, Continue, Continue]
    case DoStop => [Call(a), Continue, Continue, Continue]
    case _ => [Call(a)]
  }

  function AllMoves(acts: seq<Action>): seq<Move>
    decreases |acts|
  {
    if acts == [] then [] else AllMoves(acts[..|acts| - 1]) + Moves(acts[|acts| - 1])
  }

  lemma {:induction false} PlayOn(s: Split, first: seq<Move>, second: seq<Move>, builds: Builds)
    ensures Play(s, first + second, builds) == Play(Play(s, first, builds), second, builds)
    ensures Uninterrupted(s, first + second, builds)
            <==> Uninterrupted(s, first, builds) && Uninterrupted(Play(s, first, builds), second, builds)
    decreases |first|
  {
    if first == [] {
      assert first + second == second;
    } else {
      assert (first + second)[1..] == first[1..] + second;
      PlayOn(Step(s, first[0], builds), first[1..], second, builds);
    }
  }

  lemma PlayOne(s: Split, a: Move, builds: Builds)
    ensures Play(s, [a], builds) == Step(s, a, builds)
    ensures Uninterrupted(s, [a], builds) <==> (a.Turn? ==> s.caller.Idle?)
  {
    assert [a][1..] == [];
  }

  lemma PlayThree(s: Split, a: Move, b: Move, c: Move, builds: Builds)
    ensures
      var one := Step(s, a, builds);
      var two := Step(one, b, builds);
      && Play(s, [a, b, c], builds) == Step(two, c, builds)
      && (Uninterrupted(s, [a, b, c], builds)
          <==> (a.Turn? ==> s.caller.Idle?) && (b.Turn? ==> one.caller.Idle?) && (c.Turn? ==> two.caller.Idle?))
  {
    var one := Step(s, a, builds);
    assert [a, b, c] == [a] + [b, c] && [b, c] == [b] + [c];
    PlayOn(s, [a], [b, c], builds);
    PlayOn(one, [b], [c], builds);
    PlayOne(s, a, builds);
    PlayOne(one, b, builds);
    PlayOne(Step(one, b, builds), c, builds);
  }

  lemma ActIsMoves(s: Split, a: Action, builds: Builds)
    requires s.caller.Idle?
    ensures
      var r := Play(s, Moves(a), builds);
      r.base == Act(s.base, a, builds) && r.caller.Idle? && Uninterrupted(s, Moves(a), builds)
  {
    match a
    case DoCancel => PlayThree(s, Call(a), Continue, Continue, builds);
    case DoClearFrom(_) => FourMoves(s, a, builds);
    case DoStop => FourMoves(s, a, builds);
    case _ => PlayOne(s, Moves(a)[0], builds);
  }

  lemma FourMoves(s: Split, a: Action, builds: Builds)
    requires s.caller.Idle? && (a.DoClearFrom? || a.DoStop?)
    ensures
      var r := Play(s, Moves(a), builds);
      r.base == Act(s.base, a, builds) && r.caller.Idle? && Uninterrupted(s, Moves(a), builds)
  {
    var three := [Call(a), Continue, Continue];
    assert Moves(a) == three + [Continue];
    PlayOn(s, three, [Continue], builds);
    PlayThree(s, Call(a), Continue, Continue, builds);
    PlayOne(Play(s, three, builds), Continue, builds);
  }

  /** The speaker whose calls are single steps is the special case in which the worker never moves
      inside a call. */
  lemma {:induction false} SingleStepsAreUninterrupted(limit: uint8, acts: seq<Action>, builds: Builds)
    ensures
      var r := Play(Start(limit), AllMoves(acts), builds);
      && r.base == Run(Init(limit), acts, builds) && r.caller.Idle?
      && Uninterrupted(Start(limit), AllMoves(acts), builds)
    decreases |acts|
  {
    if acts != [] {
      var before, last := acts[..|acts| - 1], acts[|acts| - 1];
      SingleStepsAreUninterrupted(limit, before, builds);
      PlayOn(Start(limit), AllMoves(before), Moves(last), builds);
      ActIsMoves(Play(Start(limit), AllMoves(before), builds), last, builds);
    }
  }
}
