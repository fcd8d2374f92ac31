/** The list of cancelled speech ids on the wire: printed by the engine, parsed by the client. */
module IdList {
  import opened Types
  import opened Decimal
  import opened Sequences
  import opened Tokens

  function Numerals(ids: seq<uint32>): seq<string> {
    seq(|ids|, k requires 0 <= k < |ids| => Print(ids[k]))
  }

  function PrintIds(ids: seq<uint32>): string {
    Join(Numerals(ids), ',')
  }

  lemma {:induction false} JoinSnoc(tokens: seq<string>, token: string, delim: char)
    ensures Join(tokens + [token], delim)
         == if tokens == [] then token else Join(tokens, delim) + [delim] + token
  {
    if |tokens| > 1 {
      JoinSnoc(tokens[1..], token, delim);
      assert (tokens + [token])[1..] == tokens[1..] + [token];
      Assoc(tokens[0] + [delim], Join(tokens[1..], delim), [delim] + token);
      Assoc(Join(tokens[1..], delim), [delim], token);
      Assoc(Join(tokens, delim), [delim], token);
    } else if |tokens| == 1 {
      assert (tokens + [token])[1..] == [token];
    }
  }

  /** The printing loop as it is. */
  method Cancelled(ids: seq<uint32>) returns (ss: string)
    ensures ss == PrintIds(ids)
  {
    ss := "";
    for i := 0 to |ids|
      invariant ss == PrintIds(ids[..i])
    {
      assert Numerals(ids[..i + 1]) == Numerals(ids[..i]) + [Print(ids[i])];
      JoinSnoc(Numerals(ids[..i]), Print(ids[i]), ',');
      if i != 0 { ss := ss + ","; }
      ss := ss + Print(ids[i]);
    }
    assert ids[..|ids|] == ids;
  }

  // The parser

  /** atol, where `longMax` is the largest long; values beyond the range of long are clamped to it. */
  function Atol(s: string, longMax: nat): int {
    var v: int := Value(LeadingDigits(Unsigned(s)));
    if IsNegative(s) then (if v > longMax + 1 then -(longMax + 1) else -v)
    else if v > longMax then longMax else v
  }

  /** The conversion of a long to a 32-bit id. */
  function ToId(v: int): uint32 {
    v % 0x1_0000_0000
  }

  function ToIds(tokens: seq<string>, longMax: nat): seq<uint32> {
    seq(|tokens|, k requires 0 <= k < |tokens| => ToId(Atol(tokens[k], longMax)))
  }

  function ParseIds(s: string, longMax: nat): seq<uint32> {
    ToIds(NonEmpty(Split(s, ',')), longMax)
  }

  /** The ids parsed from one piece: none from an empty one. */
  function ParsePiece(piece: string, longMax: nat): seq<uint32> {
    if piece == [] then [] else [ToId(Atol(piece, longMax))]
  }

  function After(s: string, i: nat): string {
    if i < |s| then s[i + 1..] else []
  }

  lemma ToIdsCons(piece: string, tokens: seq<string>, longMax: nat)
    ensures ToIds(NonEmpty([piece] + tokens), longMax)
         == ParsePiece(piece, longMax) + ToIds(NonEmpty(tokens), longMax)
  {}

  lemma ParseStep(rest: string, longMax: nat)
    requires rest != []
    ensures
      var i := Index(rest, ',');
      ParseIds(rest, longMax) == ParsePiece(rest[..i], longMax) + ParseIds(After(rest, i), longMax)
  {
    var i := Index(rest, ',');
    ToIdsCons(rest[..i], Split(After(rest, i), ','), longMax);
    if i == |rest| { assert rest[..i] == rest && [rest] == [rest] + Split([], ','); }
  }

  /** One round of the loop. */
  lemma ParseRound(done: seq<uint32>, rest: string, longMax: nat)
    requires rest != []
    ensures
      var i := Index(rest, ',');
      done + ParseIds(rest, longMax)
      == (if i == 0 then done else done + [ToId(Atol(rest[..i], longMax))]) + ParseIds(After(rest, i), longMax)
  {
    var i := Index(rest, ',');
    ParseStep(rest, longMax);
    Assoc(done, ParsePiece(rest[..i], longMax), ParseIds(After(rest, i), longMax));
    if i == 0 { assert rest[..0] == [] && done + [] == done; }
  }

  /** The client's loop as it is, with strtok's state written out. It calls back once for each id. */
  method OnCancelled(s: string, longMax: nat) returns (calledBack: seq<uint32>)
    ensures calledBack == ParseIds(s, longMax)
  {
    calledBack := [];
    var rest := s;
    while rest != []
      invariant calledBack + ParseIds(rest, longMax) == ParseIds(s, longMax)
      decreases |rest|
    {
      var end := Index(rest, ',');
      ParseRound(calledBack, rest, longMax);
      if end != 0 { calledBack := calledBack + [ToId(Atol(rest[..end], longMax))]; }
      rest := After(rest, end);
    }
    assert calledBack + ParseIds([], longMax) == calledBack;
  }

  // The round trip

  lemma AtolOfPrint(n: nat, longMax: nat)
    ensures Atol(Print(n), longMax) == if n > longMax then longMax else n
  {
    ValueOfPrint(n);
    LeadingDigitsOf(Print(n), []);
    assert Print(n) + [] == Print(n);
  }

  /** Spaces before a number are skipped, a sign is read, what follows the digits is not, and a value
      beyond a long is clamped at its end. */
  lemma AtolReadsSigned(n: nat, rest: string, longMax: nat)
    requires rest != [] ==> !IsDigit(rest[0])
    ensures Atol(Print(n) + rest, longMax) == if n > longMax then longMax else n
    ensures Atol(['-'] + (Print(n) + rest), longMax) == if n > longMax + 1 then -(longMax + 1) else -(n as int)
    ensures Atol([' '] + (Print(n) + rest), longMax) == Atol(Print(n) + rest, longMax)
  {
    ValueOfPrint(n);
    PrintIsNumeral(n);
    LeadingDigitsOf(Print(n), rest);
    var s := Print(n) + rest;
    assert s[0] == Print(n)[0] && SkipSpaces(s) == s;
    assert (['-'] + s)[1..] == s && SkipSpaces(['-'] + s) == ['-'] + s;
    assert ([' '] + s)[1..] == s && SkipSpaces([' '] + s) == s;
  }

  lemma {:induction false} NonEmptyKeeps(tokens: seq<string>)
    requires forall k :: 0 <= k < |tokens| ==> tokens[k] != []
    ensures NonEmpty(tokens) == tokens
  {
    if tokens != [] {
      NonEmptyKeeps(tokens[1..]);
      assert tokens == [tokens[0]] + tokens[1..];
    }
  }

  function Arrives(id: uint32, longMax: nat): uint32 {
    ToId(if id > longMax then longMax else id)
  }

  lemma ArrivesExactly(id: uint32, longMax: nat)
    ensures Arrives(id, longMax) == id <==> id <= longMax
  {}

  lemma PrintedIdsParse(ids: seq<uint32>, longMax: nat)
    ensures |ParseIds(PrintIds(ids), longMax)| == |ids|
    ensures forall k :: 0 <= k < |ids| ==>
              ParseIds(PrintIds(ids), longMax)[k] == Arrives(ids[k], longMax)
  {
    var tokens := Numerals(ids);
    forall k | 0 <= k < |ids|
      ensures Free(tokens[k], ',') && tokens[k] != []
              && Atol(tokens[k], longMax) == if ids[k] > longMax then longMax else ids[k]
    {
      PrintIsNumeral(ids[k]);
      AtolOfPrint(ids[k], longMax);
    }
    if ids != [] { SplitOfJoin(tokens, ','); }
    NonEmptyKeeps(tokens);
  }

  /** The client hears of exactly the cancelled ids, in order, if and only if every id fits into a long
      of the client's machine: always with 64-bit longs, below 2^31 with 32-bit ones. */
  lemma IdsArriveExactly(ids: seq<uint32>, longMax: nat)
    ensures ParseIds(PrintIds(ids), longMax) == ids <==> forall k :: 0 <= k < |ids| ==> ids[k] <= longMax
  {
    var parsed := ParseIds(PrintIds(ids), longMax);
    assert |parsed| == |ids| && forall k :: 0 <= k < |ids| ==> parsed[k] == Arrives(ids[k], longMax) by {
      PrintedIdsParse(ids, longMax);
    }
    forall k | 0 <= k < |ids| ensures parsed[k] == ids[k] <==> ids[k] <= longMax {
      ArrivesExactly(ids[k], longMax);
    }
  }
}
