/** The worker tests the queue and the pipeline flag without holding the lock under which it later
    pops. Exactly when the pop then finds the queue empty. */
module SpeakerRaces {
  import opened Types
  import opened Speaker

  // What calls do, told from the calls alone

  function ClientsOf(q: seq<Speech>): seq<nat> {
    seq(|q|, i requires 0 <= i < |q| => q[i].client)
  }

  function Without(clients: seq<nat>, client: nat): seq<nat> {
    if clients == [] then []
    else (if clients[0] == client then [] else [clients[0]]) + Without(clients[1..], client)
  }

  /** Whose speeches the calls leave queued, if the worker pops none meanwhile. */
  function Left(clients: seq<nat>, calls: seq<Action>): seq<nat>
    decreases |calls|
  {
    if calls == [] then clients
    else
      var before := Left(clients, calls[..|calls| - 1]);
      match calls[|calls| - 1]
      case DoPush(client, _) => before + [client]
      case DoFlush => []
      case DoClearFrom(client) => Without(before, client)
      case _ => before
  }

  /** Whether a pipeline is wanted after the calls. */
  function Wanted(ensure: bool, calls: seq<Action>): bool
    decreases |calls|
  {
    if calls == [] then ensure
    else match calls[|calls| - 1]
         case DoEnsure(on) => on
         case _ => Wanted(ensure, calls[..|calls| - 1])
  }

  predicate Stops(calls: seq<Action>) {
    exists k :: 0 <= k < |calls| && calls[k].DoStop?
  }

  lemma StopsSnoc(calls: seq<Action>, a: Action)
    ensures Stops(calls + [a]) <==> Stops(calls) || a.DoStop?
  {
    var more := calls + [a];
    assert more[|calls|] == a && forall k :: 0 <= k < |calls| ==> more[k] == calls[k];
  }

  lemma {:induction false} ClientsOfOthers(q: seq<Speech>, client: nat)
    ensures ClientsOf(Others(q, client)) == Without(ClientsOf(q), client)
  {
    if q == [] {
      assert ClientsOf(q) == [];
    } else {
      ClientsOfOthers(q[1..], client);
      assert ClientsOf(q) == [q[0].client] + ClientsOf(q[1..]);
      if q[0].client != client {
        assert ClientsOf([q[0]] + Others(q[1..], client)) == [q[0].client] + ClientsOf(Others(q[1..], client));
      }
    }
  }

  /** What of the state the worker's tests and its pop depend on, after calls. */
  predicate Foretold(s: State, calls: seq<Action>, r: State) {
    && r.phase == s.phase
    && ClientsOf(r.queue) == Left(ClientsOf(s.queue), calls)
    && r.pipe.ensure == Wanted(s.pipe.ensure, calls) && r.running == (s.running && !Stops(calls))
    && r.pipe.up == s.pipe.up && r.pipe.failures == s.pipe.failures && r.pipe.limit == s.pipe.limit
  }

  lemma OneCall(s: State, a: Action, builds: Builds)
    requires a != DoWork
    ensures
      var r := Act(s, a, builds);
      && r.phase == s.phase && r.pipe.up == s.pipe.up
      && r.pipe.failures == s.pipe.failures && r.pipe.limit == s.pipe.limit
      && r.pipe.ensure == (if a.DoEnsure? then a.on else s.pipe.ensure)
      && r.running == (s.running && !a.DoStop?)
      && ClientsOf(r.queue)
         == match a
            case DoPush(client, _) => ClientsOf(s.queue) + [client]
            case DoFlush => []
            case DoClearFrom(client) => Without(ClientsOf(s.queue), client)
            case _ => ClientsOf(s.queue)
  {
    if a.DoClearFrom? { ClientsOfOthers(s.queue, a.client); }
  }

  lemma {:induction false} CallsAreForetold(s: State, calls: seq<Action>, builds: Builds)
    requires DoWork !in calls
    ensures Foretold(s, calls, Run(s, calls, builds))
    decreases |calls|
  {
    if calls != [] {
      var before, a := calls[..|calls| - 1], calls[|calls| - 1];
      CallsAreForetold(s, before, builds);
      OneCall(Run(s, before, builds), a, builds);
      assert calls == before + [a];
      StopsSnoc(before, a);
    }
  }

  // From the test to the pop

  /** Leaving the wait after these calls, the worker finds nothing to build or tear down. */
  predicate GoesOnToPop(s: State, gap: seq<Action>) {
    && s.running && !Stops(gap)
    && (Wanted(s.pipe.ensure, gap) == s.pipe.up
        || (s.pipe.failures >= s.pipe.limit && Left(ClientsOf(s.queue), gap) == []))
  }

  lemma EmptyIffNoClients(q: seq<Speech>)
    ensures q == [] <==> ClientsOf(q) == []
  {
    assert |ClientsOf(q)| == |q|;
  }

  /** The worker has left its wait. Its pop, with any calls before and after its last test, finds the
      queue empty if and only if the test lets it go on and the calls leave nothing queued. */
  lemma PopFindsNothingExactly(s: State, gap1: seq<Action>, gap2: seq<Action>, builds: Builds)
    requires s.phase == Ready && DoWork !in gap1 && DoWork !in gap2
    ensures
      var decided := WorkerStep(Run(s, gap1, builds), builds);
      WorkerStep(Run(decided, gap2, builds), builds).phase == Undefined
      <==> GoesOnToPop(s, gap1) && Left(Left(ClientsOf(s.queue), gap1), gap2) == []
  {
    var tested := Run(s, gap1, builds);
    CallsAreForetold(s, gap1, builds);
    EmptyIffNoClients(tested.queue);
    assert !GoesOnToPop(s, gap1) <==> !tested.running || NeedsUpdate(tested);
    var decided := WorkerStep(tested, builds);
    CallsAreForetold(decided, gap2, builds);
    EmptyIffNoClients(Run(decided, gap2, builds).queue);
  }

  /** The same for the pop that answers a failed build. */
  lemma AnswerFindsNothingExactly(s: State, gap1: seq<Action>, gap2: seq<Action>, builds: Builds)
    requires s.phase == AfterBuild && DoWork !in gap1 && DoWork !in gap2
    ensures
      var decided := WorkerStep(Run(s, gap1, builds), builds);
      WorkerStep(Run(decided, gap2, builds), builds).phase == Undefined
      <==> && !s.pipe.up && Left(ClientsOf(s.queue), gap1) != []
           && Left(Left(ClientsOf(s.queue), gap1), gap2) == []
  {
    var tested := Run(s, gap1, builds);
    CallsAreForetold(s, gap1, builds);
    EmptyIffNoClients(tested.queue);
    var decided := WorkerStep(tested, builds);
    CallsAreForetold(decided, gap2, builds);
    EmptyIffNoClients(Run(decided, gap2, builds).queue);
  }

  // Whole runs

  /** The worker's test that sends it to the pop. */
  predicate SendsToPop(s: State) {
    || (s.phase == Ready && s.running && !NeedsUpdate(s))
    || (s.phase == AfterBuild && !s.pipe.up && s.queue != [])
  }

  /** The worker tests at step `n` and pops at step `m`, and what is called in between leaves nothing
      of what the test saw. */
  predicate EmptiedBetween(limit: uint8, acts: seq<Action>, builds: Builds, n: nat, m: nat) {
    && n < m < |acts| && acts[n] == acts[m] == DoWork && DoWork !in acts[n + 1..m]
    && var s := Run(Init(limit), acts[..n], builds);
       SendsToPop(s) && Left(ClientsOf(s.queue), acts[n + 1..m]) == []
  }

  /** The worker has tested at step `n` and gone on to its pop, and has not popped yet. */
  predicate AboutToPop(limit: uint8, acts: seq<Action>, builds: Builds, n: nat) {
    && n < |acts| && acts[n] == DoWork && DoWork !in acts[n + 1..]
    && SendsToPop(Run(Init(limit), acts[..n], builds))
  }

  lemma PhaseAfter(s: State, builds: Builds)
    ensures SendsToPop(s) <==> WorkerStep(s, builds).phase.Committed?
    ensures s.phase == Undefined || (s.phase.Committed? && s.queue == [])
            <==> WorkerStep(s, builds).phase == Undefined
  {}

  lemma AfterTheTest(limit: uint8, acts: seq<Action>, builds: Builds, n: nat)
    requires AboutToPop(limit, acts, builds, n)
    ensures
      var s := Run(Init(limit), acts, builds);
      && s.phase.Committed?
      && (s.queue == [] <==> Left(ClientsOf(Run(Init(limit), acts[..n], builds).queue), acts[n + 1..]) == [])
  {
    var s, gap := Run(Init(limit), acts[..n], builds), acts[n + 1..];
    assert acts == acts[..n] + [DoWork] + gap;
    RunCompose(Init(limit), acts[..n] + [DoWork], gap, builds);
    RunSnoc(Init(limit), acts[..n], DoWork, builds);
    PhaseAfter(s, builds);
    CallsAreForetold(WorkerStep(s, builds), gap, builds);
    EmptyIffNoClients(Run(Init(limit), acts, builds).queue);
  }

  lemma {:induction false} UndefinedStays(s: State, acts: seq<Action>, builds: Builds)
    requires s.phase == Undefined
    ensures Run(s, acts, builds).phase == Undefined
    decreases |acts|
  {
    if acts != [] {
      var before := Run(s, acts[..|acts| - 1], builds);
      UndefinedStays(s, acts[..|acts| - 1], builds);
      if acts[|acts| - 1] != DoWork { OneCall(before, acts[|acts| - 1], builds); }
    }
  }

  lemma PopOnEmpty(s: State, rest: seq<Action>, builds: Builds)
    requires s.phase.Committed? && s.queue == []
    ensures Run(s, [DoWork] + rest, builds).phase == Undefined
  {
    PhaseAfter(s, builds);
    assert [DoWork] == [] + [DoWork];
    RunSnoc(s, [], DoWork, builds);
    RunCompose(s, [DoWork], rest, builds);
    UndefinedStays(WorkerStep(s, builds), rest, builds);
  }

  lemma EmptiedIsUndefined(limit: uint8, acts: seq<Action>, builds: Builds, n: nat, m: nat)
    requires EmptiedBetween(limit, acts, builds, n, m)
    ensures Run(Init(limit), acts, builds).phase == Undefined
  {
    var tested, rest := acts[..m], [DoWork] + acts[m + 1..];
    assert tested[..n] == acts[..n] && tested[n + 1..] == acts[n + 1..m] && acts == tested + rest;
    AfterTheTest(limit, tested, builds, n);
    RunCompose(Init(limit), tested, rest, builds);
    PopOnEmpty(Run(Init(limit), tested, builds), acts[m + 1..], builds);
  }

  lemma {:induction false} CommittedWasSent(limit: uint8, acts: seq<Action>, builds: Builds) returns (n: nat)
    requires Run(Init(limit), acts, builds).phase.Committed?
    ensures AboutToPop(limit, acts, builds, n)
    decreases |acts|
  {
    var before, a := acts[..|acts| - 1], acts[|acts| - 1];
    var s := Run(Init(limit), before, builds);
    if a == DoWork {
      n := |before|;
      PhaseAfter(s, builds);
    } else {
      OneCall(s, a, builds);
      n := CommittedWasSent(limit, before, builds);
      assert acts[..n] == before[..n] && acts[n + 1..] == before[n + 1..] + [a];
    }
  }

  lemma JustEmptied(limit: uint8, before: seq<Action>, a: Action, builds: Builds) returns (n: nat)
    requires Run(Init(limit), before, builds).phase != Undefined
    requires Act(Run(Init(limit), before, builds), a, builds).phase == Undefined
    ensures EmptiedBetween(limit, before + [a], builds, n, |before|)
  {
    var s, acts := Run(Init(limit), before, builds), before + [a];
    if a != DoWork { OneCall(s, a, builds); }
    PhaseAfter(s, builds);
    n := CommittedWasSent(limit, before, builds);
    AfterTheTest(limit, before, builds, n);
    assert acts[..n] == before[..n] && acts[n + 1..|before|] == before[n + 1..];
  }

  lemma EmptiedGrows(limit: uint8, before: seq<Action>, a: Action, builds: Builds, n: nat, m: nat)
    requires EmptiedBetween(limit, before, builds, n, m)
    ensures EmptiedBetween(limit, before + [a], builds, n, m)
  {
    var acts := before + [a];
    assert acts[n] == before[n] && acts[m] == before[m];
    assert acts[..n] == before[..n] && acts[n + 1..m] == before[n + 1..m];
  }

  lemma {:induction false} UndefinedWasEmptied(limit: uint8, acts: seq<Action>, builds: Builds)
      returns (n: nat, m: nat)
    requires Run(Init(limit), acts, builds).phase == Undefined
    ensures EmptiedBetween(limit, acts, builds, n, m)
    decreases |acts|
  {
    var before, a := acts[..|acts| - 1], acts[|acts| - 1];
    assert acts == before + [a];
    RunSnoc(Init(limit), before, a, builds);
    if Run(Init(limit), before, builds).phase == Undefined {
      n, m := UndefinedWasEmptied(limit, before, builds);
      EmptiedGrows(limit, before, a, builds, n, m);
    } else {
      n := JustEmptied(limit, before, a, builds);
      m := |before|;
    }
  }

  /** A run calls front() on an empty list if and only if, at some pop of its, the calls made since the
      worker's last test left nothing of what the test saw and brought nothing new. */
  lemma RunIsUndefinedExactly(limit: uint8, acts: seq<Action>, builds: Builds)
    ensures Run(Init(limit), acts, builds).phase == Undefined
            <==> exists n: nat, m: nat :: EmptiedBetween(limit, acts, builds, n, m)
  {
    if Run(Init(limit), acts, builds).phase == Undefined {
      var n, m := UndefinedWasEmptied(limit, acts, builds);
    }
    if n: nat, m: nat :| EmptiedBetween(limit, acts, builds, n, m) {
      EmptiedIsUndefined(limit, acts, builds, n, m);
    }
  }

  // No speech is needed

  lemma FlagSeen(builds: Builds)
    ensures Run(Init(1), [DoWork, DoEnsure(true), DoWork], builds)
         == Ensure(Init(1), true).(phase := Ready)
  {
    RunThree(Init(1), [DoWork, DoEnsure(true), DoWork], builds);
  }

  /** Asking for the pipeline and giving it up before the worker's test is enough. */
  lemma FlagFlipIsUndefined(builds: Builds)
    ensures
      var seen := Run(Init(1), [DoWork, DoEnsure(true), DoWork], builds);
      seen.phase == Ready && Run(seen, [DoEnsure(false), DoWork, DoWork], builds).phase == Undefined
  {
    FlagSeen(builds);
    RunThree(Ensure(Init(1), true).(phase := Ready), [DoEnsure(false), DoWork, DoWork], builds);
  }
}
