/** The worker object's methods, each run without interruption. */
module AsyncWorker {
  import opened Types
  import opened TaskHandoff

  class AsyncWorker {
    var tasklist: seq<Task>
    var running: bool
    var thread: Option<nat>
    var threads: seq<Thread>   // kept by the system, which a join asks
    ghost var poster: Poster
    ghost var posted: seq<Task>
    ghost var started: seq<Task>

    ghost function Model(): State
      reads this
    {
      State(tasklist, running, thread, threads, poster, posted, started)
    }

    constructor (running: bool)
      ensures Model() == TaskHandoff.Init(running)
    {
      tasklist, this.running, thread := [], running, None;
      threads, poster, posted, started := [], Resting, [], [];
    }

    ghost predicate Valid()
      reads this
    {
      Inv(Model())
    }

    /** The function the thread runs, from its start to its end: it takes the tasks one by one. */
    method RunThread(i: nat)
      requires i < |threads| && threads[i].Starting?
      modifies this
      ensures Model() == Work(old(Model()), i, |old(tasklist)| + 1)
    {
      ghost var before := Model();
      running := true;
      while |tasklist| > 0
        invariant i < |threads| && Live(threads[i]) && running
        invariant Work(Model().(running := before.running), i, |tasklist| + 1)
               == Work(Model(), i, |tasklist| + 1) == Work(before, i, |before.tasks| + 1)
        decreases |tasklist|
      {
        var task := tasklist[0];
        tasklist := tasklist[1..];
        started := started + [task];
        threads := threads[i := Executing(task)];
      }
      running := false;
      threads := threads[i := Exited];
    }

    /** Joining waits until the thread has ended, so it runs to its end first. */
    method Cleanup()
      requires Valid() && poster.Joining? && !running
      modifies this
      ensures Valid() && poster.Spawning? && Model() == Advance(Waited(old(Model())), DoJoin)
    {
      if thread.None? {
        poster := Spawning;
        return;
      }
      WaitedHasEnded(Model());
      if threads[thread.value].Starting? { RunThread(thread.value); }
      thread, poster := None, Spawning;
    }

    /** `newThread` is the handle of a thread started now. */
    method Post(task: Task, newThread: nat)
      requires Valid() && poster.Resting? && newThread == |threads|
      modifies this
      ensures Valid()
      ensures
        var queued := TaskHandoff.Post(old(Model()), task);
        Model() == if old(running) then queued else Advance(Advance(Waited(queued), DoJoin), DoSpawn)
    {
      ghost var before := Model();
      AdvanceKeeps(before, DoPost(task));
      tasklist := tasklist + [task];
      posted := posted + [task];
      if running { return; }
      poster := Joining;
      WaitedHasEnded(Model());
      Cleanup();
      AdvanceKeeps(Model(), DoSpawn);
      thread := Some(newThread);
      threads, poster := threads + [Starting], Resting;
    }
  }

  /** The state when the thread that m_thread stands for, left alone, has ended. */
  function Waited(s: State): State {
    if s.handle.Some? && s.handle.value < |s.threads| && Live(s.threads[s.handle.value])
    then Work(s, s.handle.value, |s.tasks| + 1)
    else s
  }

  lemma {:induction false} WorkKeeps(s: State, i: nat, count: nat)
    requires Inv(s)
    ensures Inv(Work(s, i, count)) && Work(s, i, count).poster == s.poster
    ensures Work(s, i, count).handle == s.handle
    decreases count
  {
    if count > 0 {
      AdvanceKeeps(s, DoWork(i));
      WorkKeeps(Advance(s, DoWork(i)), i, count - 1);
    }
  }

  /** So waiting does come to an end, and joining goes through. */
  lemma WaitedHasEnded(s: State)
    requires Inv(s)
    ensures Inv(Waited(s)) && Joinable(Waited(s))
    ensures Waited(s).poster == s.poster && Waited(s).handle == s.handle
    ensures |Waited(s).threads| == |s.threads| && Inv(Advance(Waited(s), DoJoin))
  {
    if s.handle.Some? && Live(s.threads[s.handle.value]) {
      LiveThreadDrains(s, s.handle.value);
      WorkKeeps(s, s.handle.value, |s.tasks| + 1);
    }
    AdvanceKeeps(Waited(s), DoJoin);
  }
}
