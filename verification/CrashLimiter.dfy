/** The crash limiter: after how many crashes in a row a service is no longer revived. */
module CrashLimiter {

  /** Seconds and counts; a clock tick is a `perSecond`-th of a second. */
  datatype Limits = Limits(healthThreshold: nat, maxRestarts: nat, perSecond: nat)

  /** std::chrono::duration_cast, which drops the fraction, whatever the sign. */
  function Seconds(ticks: int, perSecond: nat): int
    requires perSecond > 0
  {
    if ticks < 0 then -(-ticks / perSecond) else ticks / perSecond
  }

  predicate Healthy(gap: int, l: Limits)
    requires l.perSecond > 0
  {
    Seconds(gap, l.perSecond) >= l.healthThreshold
  }

  /** The clock is read twice at a crash: to judge the time since the last one, and for the stamp. */
  datatype Crash = Crash(judged: int, stamp: int)

  /** The time between two crashes, as the later one judges it. */
  function Gap(earlier: Crash, later: Crash): int {
    later.judged - earlier.stamp
  }

  /** The place of the last crash in its burst: a burst goes on while the gaps are not healthy. */
  function Position(crashes: seq<Crash>, l: Limits): (n: nat)
    requires l.perSecond > 0
    ensures n <= |crashes| && (crashes != [] ==> n > 0)
  {
    var last := |crashes| - 1;
    if crashes == [] then 0
    else if last == 0 || Healthy(Gap(crashes[last - 1], crashes[last]), l) then 1
    else Position(crashes[..last], l) + 1
  }

  /** How many of the crashes were followed by an attempt to revive the service. */
  function Revived(crashes: seq<Crash>, l: Limits): nat
    requires l.perSecond > 0
  {
    if crashes == [] then 0
    else Revived(crashes[..|crashes| - 1], l) + if Position(crashes, l) <= l.maxRestarts then 1 else 0
  }

  /** The crashes from the one at `i` on belong to one burst. */
  predicate OneBurst(crashes: seq<Crash>, i: nat, l: Limits)
    requires l.perSecond > 0
  {
    forall k :: i < k < |crashes| ==> !Healthy(Gap(crashes[k - 1], crashes[k]), l)
  }

  predicate StartsBurst(crashes: seq<Crash>, i: nat, l: Limits)
    requires l.perSecond > 0 && i < |crashes|
  {
    i == 0 || Healthy(Gap(crashes[i - 1], crashes[i]), l)
  }

  function Min(a: nat, b: nat): nat {
    if a < b then a else b
  }

  lemma {:induction false} PositionInBurst(crashes: seq<Crash>, i: nat, l: Limits)
    requires l.perSecond > 0 && i < |crashes| && OneBurst(crashes, i, l)
    ensures Position(crashes, l) >= |crashes| - i
    ensures StartsBurst(crashes, i, l) ==> Position(crashes, l) == |crashes| - i
    decreases |crashes|
  {
    if i < |crashes| - 1 { PositionInBurst(crashes[..|crashes| - 1], i, l); }
  }

  /** Part of a burst is followed by no more attempts than allowed; a burst from its start on by exactly
      as many as allowed, if it is long enough. */
  lemma {:induction false} BurstIsLimitedExactly(crashes: seq<Crash>, i: nat, l: Limits)
    requires l.perSecond > 0 && i < |crashes| && OneBurst(crashes, i, l)
    ensures Revived(crashes, l) <= Revived(crashes[..i], l) + Min(|crashes| - i, l.maxRestarts)
    ensures StartsBurst(crashes, i, l) ==>
              Revived(crashes, l) == Revived(crashes[..i], l) + Min(|crashes| - i, l.maxRestarts)
    decreases |crashes|
  {
    var last := |crashes| - 1;
    PositionInBurst(crashes, i, l);
    if i < last {
      assert crashes[..last][..i] == crashes[..i];
      BurstIsLimitedExactly(crashes[..last], i, l);
    }
  }

  predicate Unstable(crashes: seq<Crash>, l: Limits)
    requires l.perSecond > 0
  {
    Position(crashes, l) > l.maxRestarts
  }

  /** Once unstable, a service stays so through any number of crashes until one gap between them is
      healthy. */
  lemma {:induction false} UnstableUntilHealthy(crashes: seq<Crash>, i: nat, l: Limits)
    requires l.perSecond > 0 && 0 < i <= |crashes| && Unstable(crashes[..i], l)
    requires forall k :: i <= k < |crashes| ==> !Healthy(Gap(crashes[k - 1], crashes[k]), l)
    ensures Unstable(crashes, l)
    decreases |crashes|
  {
    if i == |crashes| {
      assert crashes[..i] == crashes;
    } else {
      var before := crashes[..|crashes| - 1];
      assert before[..i] == crashes[..i];
      UnstableUntilHealthy(before, i, l);
    }
  }

  /** A healthy gap makes it stable at once, if any restart is allowed at all. */
  lemma StableAfterHealthyGap(crashes: seq<Crash>, crash: Crash, l: Limits)
    requires l.perSecond > 0 && crashes != [] && Unstable(crashes, l)
    ensures Unstable(crashes + [crash], l)
            <==> !Healthy(crash.judged - crashes[|crashes| - 1].stamp, l) || l.maxRestarts == 0
  {
    assert (crashes + [crash])[..|crashes|] == crashes;
  }

  /** In whole seconds the gap of a clock that does not run backwards is healthy if and only if it
      reaches the threshold. */
  lemma HealthyIsReachingThreshold(gap: nat, l: Limits)
    requires l.perSecond > 0
    ensures Healthy(gap, l) <==> gap >= l.healthThreshold * l.perSecond
  {
    var q, r := gap / l.perSecond, gap % l.perSecond;
    assert gap == q * l.perSecond + r;
    if q >= l.healthThreshold {
      assert q * l.perSecond >= l.healthThreshold * l.perSecond;
    } else {
      assert (q + 1) * l.perSecond <= l.healthThreshold * l.perSecond;
    }
  }

  /** With a clock that was set back, a gap is healthy only if nothing is asked of it, and then only within
      the second. */
  lemma SetBackClock(gap: int, l: Limits)
    requires l.perSecond > 0 && gap < 0
    ensures Healthy(gap, l) <==> l.healthThreshold == 0 && -gap < l.perSecond
  {}

  function Stamps(crashes: seq<Crash>): seq<int> {
    seq(|crashes|, k requires 0 <= k < |crashes| => crashes[k].stamp)
  }

  /** The crashes of the burst the last one belongs to. */
  function Burst(crashes: seq<Crash>, l: Limits): seq<Crash>
    requires l.perSecond > 0
  {
    crashes[|crashes| - Position(crashes, l)..]
  }

  predicate AfterHealth(crashes: seq<Crash>, now: int, l: Limits)
    requires l.perSecond > 0
  {
    crashes == [] || Healthy(now - crashes[|crashes| - 1].stamp, l)
  }

  lemma OneMoreCrash(crashes: seq<Crash>, crash: Crash, l: Limits)
    requires l.perSecond > 0
    ensures
      var more := crashes + [crash];
      && Burst(more, l) == (if AfterHealth(crashes, crash.judged, l) then [] else Burst(crashes, l)) + [crash]
      && Revived(more, l) == Revived(crashes, l) + if |Burst(more, l)| <= l.maxRestarts then 1 else 0
  {
    var more := crashes + [crash];
    assert more[..|crashes|] == crashes;
    assert Position(more, l) == if AfterHealth(crashes, crash.judged, l) then 1 else Position(crashes, l) + 1;
  }

  lemma StampsSnoc(crashes: seq<Crash>, crash: Crash)
    ensures Stamps(crashes + [crash]) == Stamps(crashes) + [crash.stamp]
  {}

  class Service {
    const limits: Limits
    const activateOnCrash: bool
    const excludeRequested: bool
    var crashTimeStamps: seq<int>
    var revivals: nat
    ghost var crashes: seq<Crash>   // every deactivation that counted, since the start

    ghost predicate Valid()
      reads this
    {
      && limits.perSecond > 0
      && crashTimeStamps == Stamps(Burst(crashes, limits))
      && revivals == Revived(crashes, limits)
    }

    constructor (limits: Limits, activateOnCrash: bool, excludeRequested: bool)
      requires limits.perSecond > 0
      ensures Valid() && crashes == []
      ensures this.limits == limits
      ensures this.activateOnCrash == activateOnCrash && this.excludeRequested == excludeRequested
    {
      this.limits, this.activateOnCrash, this.excludeRequested := limits, activateOnCrash, excludeRequested;
      crashTimeStamps, revivals, crashes := [], 0, [];
    }

    method LastSessionWasHealthy(now: int) returns (healthy: bool)
      requires Valid()
      ensures healthy <==> AfterHealth(crashes, now, limits)
    {
      if |crashTimeStamps| > 0 {
        var inSeconds := Seconds(now - crashTimeStamps[|crashTimeStamps| - 1], limits.perSecond);
        return inSeconds >= limits.healthThreshold;
      }
      return true;
    }

    method IsServiceUnstable() returns (unstable: bool)
      requires Valid()
      ensures unstable <==> Unstable(crashes, limits)
    {
      return |crashTimeStamps| > limits.maxRestarts;
    }

    /** A deactivation counts unless it was asked for and such are excluded. The kept timestamps are
        those of the current burst, so reviving is decided by the crash's position in it. */
    method OnDeactivation(requested: bool, judged: int, stamp: int)
      requires Valid()
      modifies this
      ensures Valid()
      ensures crashes == if activateOnCrash && !(requested && excludeRequested)
                         then old(crashes) + [Crash(judged, stamp)] else old(crashes)
      ensures revivals == old(revivals)
                          + if crashes != old(crashes) && Position(crashes, limits) <= limits.maxRestarts
                            then 1 else 0
    {
      if activateOnCrash {
        if requested && excludeRequested { return; }
        var healthy := LastSessionWasHealthy(judged);
        ghost var crash := Crash(judged, stamp);
        OneMoreCrash(crashes, crash, limits);
        StampsSnoc(if healthy then [] else Burst(crashes, limits), crash);
        if healthy { crashTimeStamps := []; }
        crashTimeStamps := crashTimeStamps + [stamp];
        crashes := crashes + [crash];
        if |crashTimeStamps| > limits.maxRestarts { return; }
        revivals := revivals + 1;
      }
    }
  }
}
