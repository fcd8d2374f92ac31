/** Handing tasks to a worker thread that lives only while there is work. Posting and the worker's loop
    meet in critical sections, and each of those is one step here. One outsider posts at a time; a task
    may post as well. */
module TaskHandoff {
  import opened Types

  type Task = nat

  datatype Thread =
    | Starting
    | Executing(task: Task)
    | Stuck(task: Task)   // its own post has come to join the thread it runs on
    | Exited

  datatype Poster = Resting | Joining | Spawning

  /** `handle` is m_thread, as a number into the threads ever started; `posted` and `started` are
      histories. */
  datatype State = State(
    tasks: seq<Task>,
    running: bool,
    handle: Option<nat>,
    threads: seq<Thread>,
    poster: Poster,
    posted: seq<Task>,
    started: seq<Task>)

  /** The constructor leaves m_running to chance. */
  function Init(running: bool): State {
    State([], running, None, [], Resting, [], [])
  }

  // The poster

  function Enqueue(s: State, task: Task): State {
    s.(tasks := s.tasks + [task], posted := s.posted + [task])
  }

  function Post(s: State, task: Task): State
    requires s.poster.Resting?
  {
    Enqueue(s, task).(poster := if s.running then Resting else Joining)
  }

  predicate Joinable(s: State) {
    s.handle.Some? && s.handle.value < |s.threads| ==> s.threads[s.handle.value].Exited?
  }

  /** Joining waits for the thread. */
  function Join(s: State): State
    requires s.poster.Joining?
  {
    if Joinable(s) then s.(handle := None, poster := Spawning) else s
  }

  function Spawn(s: State): State
    requires s.poster.Spawning?
  {
    s.(threads := s.threads + [Starting], handle := Some(|s.threads|), poster := Resting)
  }

  // The worker

  /** The critical section at the head of the loop: the next task, or the end of the thread. */
  function TakeTask(s: State, i: nat): State
    requires i < |s.threads|
  {
    if s.tasks == [] then s.(running := false, threads := s.threads[i := Exited])
    else s.(running := true, tasks := s.tasks[1..], started := s.started + [s.tasks[0]],
            threads := s.threads[i := Executing(s.tasks[0])])
  }

  function PostFromTask(s: State, i: nat, task: Task): State
    requires i < |s.threads| && s.threads[i].Executing?
  {
    var queued := Enqueue(s, task);
    if s.running then queued else queued.(threads := s.threads[i := Stuck(s.threads[i].task)])
  }

  // Runs

  datatype Step =
    | DoPost(task: Task)
    | DoJoin
    | DoSpawn
    | DoWork(thread: nat)
    | DoPostFromTask(thread: nat, task: Task)

  /** A step that is not possible in the state does not happen. */
  function Advance(s: State, step: Step): State {
    match step
    case DoPost(task) => if s.poster.Resting? then Post(s, task) else s
    case DoJoin => if s.poster.Joining? then Join(s) else s
    case DoSpawn => if s.poster.Spawning? then Spawn(s) else s
    case DoWork(i) =>
      if i < |s.threads| && (s.threads[i].Starting? || s.threads[i].Executing?) then TakeTask(s, i) else s
    case DoPostFromTask(i, task) =>
      if i < |s.threads| && s.threads[i].Executing? then PostFromTask(s, i, task) else s
  }

  function Run(running: bool, steps: seq<Step>): State
    decreases |steps|
  {
    if steps == [] then Init(running) else Advance(Run(running, steps[..|steps| - 1]), steps[|steps| - 1])
  }

  // What holds throughout

  predicate Live(t: Thread) {
    t.Starting? || t.Executing?
  }

  /** The thread m_thread stands for, if any, is the only one that may not have ended. */
  predicate OthersExited(s: State) {
    && (s.handle.Some? ==> s.handle.value < |s.threads|)
    && forall i :: 0 <= i < |s.threads| && s.handle != Some(i) ==> s.threads[i].Exited?
  }

  predicate Inv(s: State) {
    && s.posted == s.started + s.tasks
    && OthersExited(s)
    && (s.running <==> s.handle.Some? && s.threads[s.handle.value].Executing?)
    && (s.handle.Some? ==> !s.threads[s.handle.value].Stuck?)
    && (s.poster.Spawning? ==> s.handle.None?)
    && (s.poster.Resting? && s.tasks != [] ==> s.handle.Some? && Live(s.threads[s.handle.value]))
  }

  lemma AdvanceKeeps(s: State, step: Step)
    requires Inv(s)
    ensures Inv(Advance(s, step))
  {
    match step
    case DoWork(i) =>
      if i < |s.threads| && Live(s.threads[i]) {
        assert s.handle == Some(i);
        assert s.tasks != [] ==> s.started + s.tasks == s.started + [s.tasks[0]] + s.tasks[1..];
      }
    case DoPost(task) => assert s.started + (s.tasks + [task]) == s.started + s.tasks + [task];
    case DoPostFromTask(i, task) =>
      assert s.started + (s.tasks + [task]) == s.started + s.tasks + [task];
    case _ =>
  }

  lemma {:induction false} RunKeeps(steps: seq<Step>)
    ensures Inv(Run(false, steps))
    decreases |steps|
  {
    if steps != [] {
      RunKeeps(steps[..|steps| - 1]);
      AdvanceKeeps(Run(false, steps[..|steps| - 1]), steps[|steps| - 1]);
    }
  }

  /** However the steps interleave: tasks start at most once and in the order of posting; of all threads
      ever started at most one has not ended, and it is the one m_thread stands for; no task's own post
      comes to join its thread; and whenever no post is in progress, queued tasks have a live thread. */
  lemma HandoffIsSafe(steps: seq<Step>)
    ensures
      var s := Run(false, steps);
      && s.posted == s.started + s.tasks
      && (forall i :: 0 <= i < |s.threads| && !s.threads[i].Exited? ==>
            s.handle == Some(i) && Live(s.threads[i]))
      && (s.poster.Resting? && s.tasks != [] ==>
            exists i :: 0 <= i < |s.threads| && Live(s.threads[i]))
  {
    RunKeeps(steps);
    var s := Run(false, steps);
    if s.poster.Resting? && s.tasks != [] { assert Live(s.threads[s.handle.value]); }
  }

  function Work(s: State, i: nat, count: nat): State
    decreases count
  {
    if count == 0 then s else Work(Advance(s, DoWork(i)), i, count - 1)
  }

  /** Left alone, that thread starts every queued task and then ends. */
  lemma {:induction false} LiveThreadDrains(s: State, i: nat)
    requires Inv(s) && i < |s.threads| && Live(s.threads[i])
    ensures
      var done := Work(s, i, |s.tasks| + 1);
      done.started == s.posted && done.tasks == [] && done.threads == s.threads[i := Exited] && !done.running
    decreases |s.tasks|
  {
    var next := Advance(s, DoWork(i));
    AdvanceKeeps(s, DoWork(i));
    assert Work(s, i, |s.tasks| + 1) == Work(next, i, |s.tasks|);
    if s.tasks == [] {
      assert s.started + s.tasks == s.started;
    } else {
      LiveThreadDrains(next, i);
      assert next.threads[i := Exited] == s.threads[i := Exited];
    }
  }

  /** Were m_running true from the start, nothing would ever be started. */
  lemma {:induction false} RunningFromTheStartStrands(steps: seq<Step>)
    ensures
      var s := Run(true, steps);
      s.threads == [] && s.started == [] && s.tasks == s.posted && s.poster.Resting? && s.running
    decreases |steps|
  {
    if steps != [] { RunningFromTheStartStrands(steps[..|steps| - 1]); }
  }
}
