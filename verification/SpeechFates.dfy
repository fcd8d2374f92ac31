/** Conservation and order of speeches over every interleaving of main-loop calls and worker steps. */
module SpeechFates {
  import opened Types
  import opened Speaker

  function InHand(p: Phase): seq<Speech> {
    match p
    case Failing(speech) => [speech]
    case Held(speech) => [speech]
    case Speaking(speech) => [speech]
    case _ => []
  }

  function Flatten(batches: seq<seq<Speech>>): seq<Speech>
    decreases |batches|
  {
    if batches == [] then [] else Flatten(batches[..|batches| - 1]) + batches[|batches| - 1]
  }

  /** The speeches the worker reported to their clients, in the order of the reports. */
  function Done(log: seq<Event>): seq<Speech>
    decreases |log|
  {
    if log == [] then []
    else
      var e, before := log[|log| - 1], Done(log[..|log| - 1]);
      if e.Reported? || e.BuildFailed? then before + [e.speech] else before
  }

  /** The speeches of one client, and so all of them, from the oldest report to the youngest request. */
  function Line(s: State): seq<Speech> {
    Done(s.hist.log) + InHand(s.phase) + s.queue
  }

  predicate Increasing(xs: seq<Speech>) {
    forall i, j :: 0 <= i < j < |xs| ==> xs[i].serial < xs[j].serial
  }

  predicate Numbered(accepted: seq<Speech>) {
    forall i :: 0 <= i < |accepted| ==> accepted[i].serial == i
  }

  /** How often a speech occurs in the five places together. */
  function Tally(s: State, speech: Speech): nat {
    multiset(s.queue)[speech] + multiset(InHand(s.phase))[speech] + multiset(s.hist.dropped)[speech]
    + multiset(Flatten(s.hist.cancelled))[speech] + multiset(Done(s.hist.log))[speech]
  }

  ghost predicate FatesInv(s: State) {
    && Numbered(s.hist.accepted)
    && (forall speech :: Tally(s, speech) == multiset(s.hist.accepted)[speech])
    && Increasing(Line(s))
  }

  lemma DoneSnoc(log: seq<Event>, e: Event)
    ensures Done(log + [e]) ==
            if e.Reported? || e.BuildFailed? then Done(log) + [e.speech] else Done(log)
  {}

  lemma FlattenSnoc(batches: seq<seq<Speech>>, b: seq<Speech>)
    ensures Flatten(batches + [b]) == Flatten(batches) + b
  {}

  lemma {:induction false} FilterSplits(q: seq<Speech>, client: nat)
    ensures multiset(q) == multiset(Mine(q, client)) + multiset(Others(q, client))
  {
    if q != [] {
      FilterSplits(q[1..], client);
      assert q == [q[0]] + q[1..];
    }
  }

  lemma {:induction false} FilterKeepsOrder(before: seq<Speech>, q: seq<Speech>, client: nat)
    requires Increasing(before + q)
    ensures Increasing(before + Others(q, client))
    decreases |q|
  {
    if q != [] {
      if q[0].client == client {
        forall i, j | 0 <= i < j < |before + q[1..]|
          ensures (before + q[1..])[i].serial < (before + q[1..])[j].serial
        {
          var i', j' := if i < |before| then i else i + 1, if j < |before| then j else j + 1;
          assert (before + q)[i'].serial < (before + q)[j'].serial;
        }
        FilterKeepsOrder(before, q[1..], client);
        assert Others(q, client) == Others(q[1..], client);
      } else {
        assert (before + [q[0]]) + q[1..] == before + q;
        FilterKeepsOrder(before + [q[0]], q[1..], client);
        assert (before + [q[0]]) + Others(q[1..], client) == before + Others(q, client);
      }
    }
  }

  /** The two states hold the same speeches in the same order, maybe in other places. */
  ghost predicate SameSpeeches(s: State, r: State) {
    && r.hist.accepted == s.hist.accepted && Line(r) == Line(s)
    && forall speech :: Tally(r, speech) == Tally(s, speech)
  }

  /** A step that only moves speeches from one place to the next keeps the invariant. */
  lemma MovingKeeps(s: State, r: State)
    requires FatesInv(s)
    requires SameSpeeches(s, r)
    ensures FatesInv(r)
  {}

  lemma YoungestComesLast(s: State, x: Speech)
    requires FatesInv(s) && x in Line(s)
    ensures x.serial < |s.hist.accepted|
  {
    assert x in multiset(Line(s));
    assert Tally(s, x) >= multiset(Line(s))[x];
    assert x in multiset(s.hist.accepted);
  }

  lemma PushKeeps(s: State, client: nat, id: uint32)
    requires FatesInv(s)
    ensures FatesInv(Push(s, client, id))
  {
    var r := Push(s, client, id);
    var line, speech := Line(s), r.hist.accepted[|s.hist.accepted|];
    assert Line(r) == line + [speech];
    forall i | 0 <= i < |line| ensures line[i].serial < speech.serial {
      YoungestComesLast(s, line[i]);
    }
  }

  lemma FlushKeeps(s: State)
    requires FatesInv(s)
    ensures FatesInv(Flush(s))
  {
    assert Line(s) == Line(Flush(s)) + s.queue;
    forall i, j | 0 <= i < j < |Line(Flush(s))|
      ensures Line(Flush(s))[i].serial < Line(Flush(s))[j].serial
    {
      assert Line(s)[i] == Line(Flush(s))[i] && Line(s)[j] == Line(Flush(s))[j];
    }
  }

  lemma CancelKeeps(s: State)
    requires FatesInv(s)
    ensures FatesInv(Cancel(s))
  {
    DoneSnoc(s.hist.log, CancelCall);
    MovingKeeps(s, Cancel(s));
  }

  lemma ClearingKeeps(s: State, client: nat)
    requires FatesInv(s)
    ensures FatesInv(TakeOut(s, client))
  {
    var r := TakeOut(s, client);
    FlattenSnoc(s.hist.cancelled, Mine(s.queue, client));
    FilterSplits(s.queue, client);
    FilterKeepsOrder(Done(s.hist.log) + InHand(s.phase), s.queue, client);
    forall speech ensures Tally(r, speech) == Tally(s, speech) {
      assert multiset(s.queue)[speech]
          == multiset(Mine(s.queue, client))[speech] + multiset(r.queue)[speech];
    }
  }

  lemma ClearFromKeeps(s: State, client: nat)
    requires FatesInv(s)
    ensures FatesInv(ClearFrom(s, client))
  {
    ClearingKeeps(s, client);
    CancelKeeps(TakeOut(s, client));
  }

  lemma DequeueMoves(s: State, r: State, speech: Speech)
    requires s.queue == [speech] + r.queue && InHand(s.phase) == [] && InHand(r.phase) == [speech]
    requires r.hist == s.hist
    ensures SameSpeeches(s, r)
  {}

  lemma ReportMoves(s: State, r: State, e: Event)
    requires e.Reported? || e.BuildFailed?
    requires InHand(s.phase) == [e.speech] && InHand(r.phase) == []
    requires r.hist == s.hist.(log := s.hist.log + [e]) && r.queue == s.queue
    ensures SameSpeeches(s, r)
  {}

  lemma StayingMoves(s: State, r: State)
    requires InHand(r.phase) == InHand(s.phase) && r.queue == s.queue
    requires r.hist.accepted == s.hist.accepted && r.hist.dropped == s.hist.dropped
    requires r.hist.cancelled == s.hist.cancelled && Done(r.hist.log) == Done(s.hist.log)
    ensures SameSpeeches(s, r)
  {}

  lemma HandMoves(s: State, builds: Builds)
    requires s.phase.Failing? || s.phase.Held? || s.phase.Speaking?
    ensures SameSpeeches(s, WorkerStep(s, builds))
  {
    var r := WorkerStep(s, builds);
    match s.phase
    case Failing(speech) => ReportMoves(s, r, BuildFailed(speech));
    case Held(speech) => DoneSnoc(s.hist.log, Began(speech)); StayingMoves(s, r);
    case Speaking(speech) => ReportMoves(s, r, Speaker.Reported(speech, Verdict(s)));
  }

  lemma PopMoves(s: State, builds: Builds)
    requires s.phase.Committed?
    ensures SameSpeeches(s, WorkerStep(s, builds))
  {
    var r := WorkerStep(s, builds);
    if s.queue != [] { DequeueMoves(s, r, s.queue[0]); } else { StayingMoves(s, r); }
  }

  lemma OtherMoves(s: State, builds: Builds)
    requires s.phase.Top? || s.phase.Build? || s.phase.AfterBuild? || s.phase.Waiting? || s.phase.Ready?
             || s.phase.Clearing? || s.phase.Resetting? || s.phase.Stopped? || s.phase.Undefined?
    ensures SameSpeeches(s, WorkerStep(s, builds))
  {
    StayingMoves(s, WorkerStep(s, builds));
  }

  /** A worker step moves at most one speech, from one place to the next. */
  lemma WorkMoves(s: State, builds: Builds)
    ensures SameSpeeches(s, WorkerStep(s, builds))
  {
    match s.phase
    case Failing(_) => HandMoves(s, builds);
    case Held(_) => HandMoves(s, builds);
    case Speaking(_) => HandMoves(s, builds);
    case Committed(_) => PopMoves(s, builds);
    case _ => OtherMoves(s, builds);
  }

  lemma WorkKeeps(s: State, builds: Builds)
    requires FatesInv(s)
    ensures FatesInv(WorkerStep(s, builds))
  {
    WorkMoves(s, builds);
    MovingKeeps(s, WorkerStep(s, builds));
  }

  lemma FlagsKeep(s: State, a: Action, builds: Builds)
    requires FatesInv(s)
    requires a.DoCancel? || a.DoStop? || a.DoEnsure? || a.DoBusError?
    ensures FatesInv(Act(s, a, builds))
  {
    var r := Act(s, a, builds);
    assert Done(r.hist.log) == Done(s.hist.log) by { DoneSnoc(s.hist.log, CancelCall); }
    StayingMoves(s, r);
    MovingKeeps(s, r);
  }

  lemma ActKeeps(s: State, a: Action, builds: Builds)
    requires FatesInv(s)
    ensures FatesInv(Act(s, a, builds))
  {
    match a
    case DoPush(client, id) => PushKeeps(s, client, id);
    case DoFlush => FlushKeeps(s);
    case DoClearFrom(client) => ClearFromKeeps(s, client);
    case DoWork => WorkKeeps(s, builds);
    case _ => FlagsKeep(s, a, builds);
  }

  lemma {:induction false} RunKeeps(limit: uint8, acts: seq<Action>, builds: Builds)
    ensures FatesInv(Run(Init(limit), acts, builds))
    decreases |acts|
  {
    if acts != [] {
      var last := |acts| - 1;
      RunKeeps(limit, acts[..last], builds);
      ActKeeps(Run(Init(limit), acts[..last], builds), acts[last], builds);
    }
  }

  /** In whatever order main loop and worker step, the i-th accepted speech is in exactly one place:
      queued, held by the worker, silently flushed, in one cancelled batch, or reported once. */
  lemma EachSpeechInOnePlace(limit: uint8, acts: seq<Action>, builds: Builds, i: nat)
    requires i < |Run(Init(limit), acts, builds).hist.accepted|
    ensures
      var s := Run(Init(limit), acts, builds);
      var speech := s.hist.accepted[i];
      Tally(s, speech) == 1
  {
    RunKeeps(limit, acts, builds);
    OccursOnce(Run(Init(limit), acts, builds).hist.accepted, i);
  }

  lemma {:induction false} OccursOnce(accepted: seq<Speech>, i: nat)
    requires Numbered(accepted) && i < |accepted|
    ensures multiset(accepted)[accepted[i]] == 1
    decreases |accepted|
  {
    var last := |accepted| - 1;
    var rest := accepted[..last];
    assert accepted == rest + [accepted[last]];
    if i < last {
      OccursOnce(rest, i);
    } else {
      assert accepted[i] !in rest;
    }
  }

  /** `picks` are the places in `whole`, from left to right, of the elements of `part`. */
  predicate Selects(picks: seq<nat>, part: seq<Speech>, whole: seq<Speech>) {
    && |picks| == |part|
    && (forall k :: 0 <= k < |picks| ==> picks[k] < |whole| && whole[picks[k]] == part[k])
    && (forall j, k :: 0 <= j < k < |picks| ==> picks[j] < picks[k])
  }

  ghost predicate IsSubsequence(part: seq<Speech>, whole: seq<Speech>) {
    exists picks :: Selects(picks, part, whole)
  }

  /** Reports come in the order in which the speeches were accepted. */
  lemma ReportsFollowRequests(limit: uint8, acts: seq<Action>, builds: Builds)
    ensures
      var s := Run(Init(limit), acts, builds);
      IsSubsequence(Done(s.hist.log), s.hist.accepted)
  {
    RunKeeps(limit, acts, builds);
    var s := Run(Init(limit), acts, builds);
    var part := Done(s.hist.log);
    var picks: seq<nat> := seq(|part|, k requires 0 <= k < |part| => part[k].serial);
    forall k | 0 <= k < |part|
      ensures picks[k] < |s.hist.accepted| && s.hist.accepted[picks[k]] == part[k]
    {
      assert part[k] in multiset(part);
      assert Tally(s, part[k]) > 0;
      assert part[k] in multiset(s.hist.accepted);
    }
    forall j, k | 0 <= j < k < |picks| ensures picks[j] < picks[k] {
      assert Line(s)[j] == part[j] && Line(s)[k] == part[k];
    }
    assert Selects(picks, part, s.hist.accepted);
  }

  /** What a client's clearing cancels is listed, and what it leaves stays queued, in the order of the
      requests. */
  lemma {:induction false} ClearingKeepsOrder(q: seq<Speech>, client: nat)
    requires Increasing(q)
    ensures Increasing(Mine(q, client)) && Increasing(Others(q, client))
    ensures forall x :: x in Mine(q, client) <==> x in q && x.client == client
    ensures forall x :: x in Others(q, client) <==> x in q && x.client != client
  {
    if q != [] {
      ClearingKeepsOrder(q[1..], client);
      assert q == [q[0]] + q[1..];
      assert forall x :: x in q <==> x == q[0] || x in q[1..];
      forall x | x in q[1..] ensures q[0].serial < x.serial {
        var i :| 0 <= i < |q[1..]| && q[1..][i] == x;
        assert q[i + 1] == x;
      }
      HeadFirst(q[0], Mine(q[1..], client));
      HeadFirst(q[0], Others(q[1..], client));
    }
  }

  lemma HeadFirst(x: Speech, xs: seq<Speech>)
    requires Increasing(xs) && forall y :: y in xs ==> x.serial < y.serial
    ensures Increasing([x] + xs)
  {
    var all := [x] + xs;
    forall i, j | 0 <= i < j < |all| ensures all[i].serial < all[j].serial {
      assert all[j] == xs[j - 1] && (i > 0 ==> all[i] == xs[i - 1]);
    }
  }
}
