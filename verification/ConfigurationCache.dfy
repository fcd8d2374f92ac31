/** Configuring while disconnected: the client merges the settings and sends them once, on connecting.
    When does the engine end up as if each had been sent on its own? */
module ConfigurationCache {
  import opened Types
  import opened Configuration
  import Tokens

  // The engine

  /** An engine with one end point uses it for the other as well. */
  function Fallback(c: Config): Config {
    if c.endPoint == "" && c.secureEndPoint != "" then c.(endPoint := c.secureEndPoint)
    else if c.secureEndPoint == "" && c.endPoint != "" then c.(secureEndPoint := c.endPoint)
    else c
  }

  function SetConfiguration(c: Config, str: string): (Outcome, Config) {
    var r := FromString(c, str);
    if r.0 == Accepted then (Accepted, Fallback(r.1)) else r
  }

  function Deliver(c: Config, sent: seq<string>): Config {
    if sent == [] then c
    else SetConfiguration(Deliver(c, sent[..|sent| - 1]), sent[|sent| - 1]).1
  }

  // The client

  function Blank(): Config {
    Config("", "", "", "", 0, 0)
  }

  function Merged(base: Config, cs: seq<Config>): Config {
    if cs == [] then base else Update(Merged(base, cs[..|cs| - 1]), cs[|cs| - 1])
  }

  function Sent(cs: seq<Config>): seq<string> {
    seq(|cs|, k requires 0 <= k < |cs| => ToString(cs[k]))
  }

  /** Merging settings first and applying them at once is applying them one by one. */
  lemma {:induction false} MergingIsAssociative(base: Config, cs: seq<Config>)
    ensures Update(base, Merged(Blank(), cs)) == Merged(base, cs)
  {
    if cs != [] { MergingIsAssociative(base, cs[..|cs| - 1]); }
  }

  predicate AllCommaFree(cs: seq<Config>) {
    forall k :: 0 <= k < |cs| ==> CommaFree(cs[k])
  }

  lemma UpdateIsCommaFree(base: Config, c: Config)
    requires CommaFree(base) && CommaFree(c)
    ensures CommaFree(Update(base, c))
  {
    var texts := Texts(Update(base, c));
    forall k | 0 <= k < 4 ensures Tokens.Free(texts[k], ',') {
      assert texts[k] == Texts(base)[k] || texts[k] == Texts(c)[k];
    }
  }

  lemma {:induction false} MergedIsCommaFree(cs: seq<Config>)
    requires AllCommaFree(cs)
    ensures CommaFree(Merged(Blank(), cs))
  {
    if cs != [] {
      MergedIsCommaFree(cs[..|cs| - 1]);
      UpdateIsCommaFree(Merged(Blank(), cs[..|cs| - 1]), cs[|cs| - 1]);
    }
  }

  // What sending each configuration in turn comes to

  /** The first value an end point had after some call, if it ever had one. */
  function FirstEndPoint(base: Config, cs: seq<Config>): string {
    if cs == [] then ""
    else
      var first := FirstEndPoint(base, cs[..|cs| - 1]);
      if first != "" then first else Merged(base, cs).endPoint
  }

  function FirstSecureEndPoint(base: Config, cs: seq<Config>): string {
    if cs == [] then ""
    else
      var first := FirstSecureEndPoint(base, cs[..|cs| - 1]);
      if first != "" then first else Merged(base, cs).secureEndPoint
  }

  /** An end point that no call gave stands at the first value of the other. */
  function Online(base: Config, cs: seq<Config>): Config {
    var merged := Merged(base, cs);
    if cs == [] then base
    else
      merged.(endPoint := SetText(FirstSecureEndPoint(base, cs), merged.endPoint),
              secureEndPoint := SetText(FirstEndPoint(base, cs), merged.secureEndPoint))
  }

  lemma {:induction false} FirstIffAny(base: Config, cs: seq<Config>)
    requires cs != []
    ensures FirstEndPoint(base, cs) == "" <==> Merged(base, cs).endPoint == ""
    ensures FirstSecureEndPoint(base, cs) == "" <==> Merged(base, cs).secureEndPoint == ""
  {
    if |cs| > 1 { FirstIffAny(base, cs[..|cs| - 1]); }
  }

  lemma OnlineStep(base: Config, cs: seq<Config>)
    requires cs != []
    ensures Fallback(Update(Online(base, cs[..|cs| - 1]), cs[|cs| - 1])) == Online(base, cs)
  {
    FirstIffAny(base, cs);
    if |cs| > 1 { FirstIffAny(base, cs[..|cs| - 1]); }
  }

  /** The configurations whose texts hold no comma; the engine refuses the others one by one. */
  function Readable(cs: seq<Config>): seq<Config>
    decreases |cs|
  {
    if cs == [] then []
    else
      var before, last := Readable(cs[..|cs| - 1]), cs[|cs| - 1];
      if CommaFree(last) then before + [last] else before
  }

  lemma {:induction false} ReadableIsAll(cs: seq<Config>)
    requires AllCommaFree(cs)
    ensures Readable(cs) == cs
    decreases |cs|
  {
    if cs != [] {
      ReadableIsAll(cs[..|cs| - 1]);
      assert cs == cs[..|cs| - 1] + [cs[|cs| - 1]];
    }
  }

  lemma OneSent(c: Config, sent: Config)
    ensures SetConfiguration(c, ToString(sent)).1 == if CommaFree(sent) then Fallback(Update(c, sent)) else c
  {
    SettingsArriveExactly(c, sent);
  }

  lemma DeliverLast(base: Config, cs: seq<Config>)
    requires cs != []
    ensures
      var before, last := cs[..|cs| - 1], cs[|cs| - 1];
      Deliver(base, Sent(cs)) == SetConfiguration(Deliver(base, Sent(before)), ToString(last)).1
  {
    assert Sent(cs)[..|cs| - 1] == Sent(cs[..|cs| - 1]);
  }

  lemma {:induction false} SendingEachInTurn(base: Config, cs: seq<Config>)
    ensures Deliver(base, Sent(cs)) == Online(base, Readable(cs))
    decreases |cs|
  {
    if cs != [] {
      var before, last := cs[..|cs| - 1], cs[|cs| - 1];
      SendingEachInTurn(base, before);
      DeliverLast(base, cs);
      OneSent(Online(base, Readable(before)), last);
      if CommaFree(last) {
        assert Readable(cs)[..|Readable(cs)| - 1] == Readable(before);
        OnlineStep(base, Readable(cs));
      }
    }
  }

  /** A comma left in the merged texts loses everything; else the merge of all configurations counts. */
  lemma SendingOnce(base: Config, cs: seq<Config>)
    ensures Deliver(base, [ToString(Merged(Blank(), cs))])
         == if CommaFree(Merged(Blank(), cs)) then Fallback(Merged(base, cs)) else base
  {
    var cached := Merged(Blank(), cs);
    OneSent(base, cached);
    MergingIsAssociative(base, cs);
    var sent := [ToString(cached)];
    assert sent[..0] == [] && Deliver(base, []) == base;
  }

  /** The settings other than the end points are the same. */
  predicate SameBesides(a: Config, b: Config) {
    a.language == b.language && a.voice == b.voice && a.volume == b.volume && a.rate == b.rate
  }

  /** With commas about. If the merged texts are free of them, the refused configurations must not have
      mattered, and each end point, or where it is missing the last of the other, must be what the others
      gave, or where they gave none the first of the other. If they are not, the configurations that are
      not refused must change nothing. */
  predicate Agree(base: Config, cs: seq<Config>) {
    var all, read := Merged(base, cs), Merged(base, Readable(cs));
    var endPoint := SetText(FirstSecureEndPoint(base, Readable(cs)), read.endPoint);
    var secureEndPoint := SetText(FirstEndPoint(base, Readable(cs)), read.secureEndPoint);
    if CommaFree(Merged(Blank(), cs))
    then
      && SameBesides(all, read)
      && SetText(all.secureEndPoint, all.endPoint) == endPoint
      && SetText(all.endPoint, all.secureEndPoint) == secureEndPoint
    else
      SameBesides(base, read) && base.endPoint == endPoint && base.secureEndPoint == secureEndPoint
  }

  /** For any configurations: sending the merged one once leaves the engine as sending each in turn does
      if and only if they agree. */
  lemma CachingRefinesSendingExactly(base: Config, cs: seq<Config>)
    ensures Deliver(base, [ToString(Merged(Blank(), cs))]) == Deliver(base, Sent(cs)) <==> Agree(base, cs)
  {
    SendingEachInTurn(base, cs);
    SendingOnce(base, cs);
  }

  /** While one end point is missing to the end, the first value the other had is also its last. */
  predicate Settled(base: Config, cs: seq<Config>) {
    var merged := Merged(base, cs);
    && (merged.endPoint == "" ==> FirstSecureEndPoint(base, cs) == merged.secureEndPoint)
    && (merged.secureEndPoint == "" ==> FirstEndPoint(base, cs) == merged.endPoint)
  }

  /** Without commas, that comes to the end points being settled. */
  lemma CommaFreeCachingRefinesExactly(base: Config, cs: seq<Config>)
    requires cs != [] && AllCommaFree(cs)
    ensures Deliver(base, [ToString(Merged(Blank(), cs))]) == Deliver(base, Sent(cs)) <==> Settled(base, cs)
  {
    CachingRefinesSendingExactly(base, cs);
    ReadableIsAll(cs);
    MergedIsCommaFree(cs);
    FirstIffAny(base, cs);
  }

  lemma {:induction false} EndPointsStay(base: Config, cs: seq<Config>)
    requires base.endPoint != "" && base.secureEndPoint != ""
    ensures Merged(base, cs).endPoint != "" && Merged(base, cs).secureEndPoint != ""
  {
    if cs != [] { EndPointsStay(base, cs[..|cs| - 1]); }
  }

  /** An engine that has both end points ends up the same in either way. */
  lemma CachingRefinesSending(base: Config, cs: seq<Config>)
    requires cs != [] && AllCommaFree(cs) && base.endPoint != "" && base.secureEndPoint != ""
    ensures Deliver(base, [ToString(Merged(Blank(), cs))]) == Deliver(base, Sent(cs))
  {
    EndPointsStay(base, cs);
    CommaFreeCachingRefinesExactly(base, cs);
  }

  /** A comma left in the merged texts loses every cached setting. */
  lemma CommaLosesTheCache(base: Config, cs: seq<Config>)
    requires !CommaFree(Merged(Blank(), cs))
    ensures Deliver(base, [ToString(Merged(Blank(), cs))]) == base
  {
    SendingOnce(base, cs);
  }

  /** One end point given twice, the other never: sent in turn, the first stays as the secure one. */
  lemma CachingCanDiffer(base: Config, first: string, second: string)
    requires base.endPoint == "" && base.secureEndPoint == ""
    requires first != "" && second != "" && first != second
    ensures !Settled(base, [Blank().(endPoint := first), Blank().(endPoint := second)])
  {
    var cs := [Blank().(endPoint := first), Blank().(endPoint := second)];
    assert cs[..1] == [cs[0]] && cs[..1][..0] == [];
    assert Merged(base, cs[..1]) == Update(base, cs[0]);
    assert FirstEndPoint(base, cs[..1]) == first;
  }
}
