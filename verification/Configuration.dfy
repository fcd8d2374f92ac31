/** The speech configuration: how settings are merged, how they travel as one comma-separated text, and
    what the engine makes of that text. Volumes count millionths, the unit of the printed form. */
module Configuration {
  import opened Types
  import opened Decimal
  import opened Sequences
  import opened Tokens

  datatype Config = Config(
    endPoint: string,
    secureEndPoint: string,
    language: string,
    voice: string,
    volume: int,
    rate: uint8)

  // Merging

  function SetText(was: string, text: string): string {
    if text != "" then text else was
  }

  function SetVolume(was: int, volume: int): int {
    if 1_000_000 <= volume <= 100_000_000 then volume else was
  }

  function SetRate(was: uint8, rate: uint8): uint8 {
    if 1 <= rate <= 100 then rate else was
  }

  /** Settings that are empty or out of range leave what was set before. */
  function Update(base: Config, c: Config): Config {
    Config(SetText(base.endPoint, c.endPoint),
           SetText(base.secureEndPoint, c.secureEndPoint),
           SetText(base.language, c.language),
           SetText(base.voice, c.voice),
           SetVolume(base.volume, c.volume),
           SetRate(base.rate, c.rate))
  }

  /** Some end point is set, so speech can be requested. */
  predicate IsConfigured(c: Config) {
    !(c.endPoint == "" && c.secureEndPoint == "")
  }

  // Numbers

  /** The last `width` digits, with leading zeros. */
  function Pad(n: nat, width: nat): string {
    if width == 0 then [] else Pad(n / 10, width - 1) + [DigitOf(n % 10)]
  }

  function Abs(v: int): nat {
    if v < 0 then -v else v
  }

  function PrintParts(whole: nat, part: nat): (s: string)
    ensures s != []
  {
    Print(whole) + (['.'] + Pad(part, 6))
  }

  function PrintUnsigned(n: nat): (s: string)
    ensures s != []
  {
    PrintParts(n / 1_000_000, n % 1_000_000)
  }

  /** std::to_string of a double: six decimals. */
  function PrintFixed(v: int): string {
    if v < 0 then ['-'] + PrintUnsigned(Abs(v)) else PrintUnsigned(Abs(v))
  }

  function Decimals(s: string): (digits: string)
    ensures AllDigits(digits)
  {
    if s != [] && s[0] == '.' then LeadingDigits(s[1..]) else []
  }

  /** Six decimals, whatever was written. */
  function SixOf(decimals: string): (six: string)
    requires AllDigits(decimals)
    ensures AllDigits(six) && |six| == 6
  {
    seq(6, i requires 0 <= i < 6 => if i < |decimals| then decimals[i] else '0')
  }

  function Millionths(whole: nat, part: nat): nat {
    whole * 1_000_000 + part
  }

  function ReadParts(s: string): Option<nat> {
    var whole := LeadingDigits(s);
    var decimals := Decimals(s[|whole|..]);
    if whole == [] && decimals == [] then None
    else Some(Millionths(Value(whole), Value(SixOf(decimals))))
  }

  function Signed(v: nat, negative: bool): int {
    if negative then -(v as int) else v
  }

  /** std::stod, but for exponents, hexadecimals, infinities and decimals after the sixth. None stands
      for the exception. */
  function ReadFixed(s: string): Option<int> {
    match ReadParts(Unsigned(s))
    case None => None
    case Some(v) => Some(Signed(v, IsNegative(s)))
  }

  /** std::stoi; None stands for the exceptions. */
  function ReadInt(s: string): Option<int> {
    var digits := LeadingDigits(Unsigned(s));
    var v := Signed(Value(digits), IsNegative(s));
    if digits == [] || v < -0x8000_0000 || v > 0x7fff_ffff then None else Some(v)
  }

  lemma ReadIntOfPrint(n: nat)
    requires n <= 0x7fff_ffff
    ensures ReadInt(Print(n)) == Some(n)
  {
    ValueOfPrint(n);
    PrintIsNumeral(n);
    LeadingDigitsOf(Print(n), []);
    assert Print(n) + [] == Print(n);
  }

  lemma {:induction false} PadIsNumeral(n: nat, width: nat)
    ensures |Pad(n, width)| == width && AllDigits(Pad(n, width))
  {
    if width > 0 { PadIsNumeral(n / 10, width - 1); }
  }

  function Power10(width: nat): nat {
    if width == 0 then 1 else 10 * Power10(width - 1)
  }

  lemma {:induction false} ValueOfPad(n: nat, width: nat)
    requires n < Power10(width)
    ensures AllDigits(Pad(n, width)) && Value(Pad(n, width)) == n
  {
    PadIsNumeral(n, width);
    if width > 0 {
      ValueOfPad(n / 10, width - 1);
      assert Pad(n, width)[..width - 1] == Pad(n / 10, width - 1);
    }
  }

  lemma DigitsThenDot(whole: string, decimals: string)
    requires AllDigits(whole) && AllDigits(decimals) && |decimals| == 6 && whole != []
    ensures ReadParts(whole + (['.'] + decimals)) == Some(Millionths(Value(whole), Value(decimals)))
  {
    var rest := ['.'] + decimals;
    LeadingDigitsOf(whole, rest);
    assert (whole + rest)[|whole|..] == rest;
    assert Decimals(rest) == decimals by {
      assert rest[1..] == decimals && decimals + [] == decimals;
      LeadingDigitsOf(decimals, []);
    }
    assert SixOf(decimals) == decimals;
  }

  lemma ReadSigned(body: string, v: nat, negative: bool)
    requires body != [] && IsDigit(body[0]) && ReadParts(body) == Some(v)
    ensures ReadFixed(if negative then ['-'] + body else body) == Some(Signed(v, negative))
  {
    var s := if negative then ['-'] + body else body;
    assert SkipSpaces(s) == s;
    assert negative ==> s[1..] == body;
    assert Unsigned(s) == body && IsNegative(s) == negative;
  }

  lemma SixDigits(n: nat)
    ensures n < Power10(6) <==> n < 1_000_000
  {}

  lemma ReadBody(whole: nat, part: nat)
    requires part < 1_000_000
    ensures ReadParts(PrintParts(whole, part)) == Some(Millionths(whole, part))
    ensures IsDigit(PrintParts(whole, part)[0])
  {
    ValueOfPrint(whole);
    PrintIsNumeral(whole);
    SixDigits(part);
    ValueOfPad(part, 6);
    PadIsNumeral(part, 6);
    DigitsThenDot(Print(whole), Pad(part, 6));
  }

  lemma PartsOf(n: nat)
    ensures n % 1_000_000 < 1_000_000 && Millionths(n / 1_000_000, n % 1_000_000) == n
  {}

  lemma ReadUnsigned(n: nat)
    ensures IsDigit(PrintUnsigned(n)[0]) && ReadParts(PrintUnsigned(n)) == Some(n)
  {
    PartsOf(n);
    ReadBody(n / 1_000_000, n % 1_000_000);
  }

  lemma ReadFixedOfPrintFixed(v: int)
    ensures ReadFixed(PrintFixed(v)) == Some(v)
  {
    ReadUnsigned(Abs(v));
    ReadSigned(PrintUnsigned(Abs(v)), Abs(v), v < 0);
  }

  // The wire form

  function Texts(c: Config): seq<string> {
    [c.endPoint, c.secureEndPoint, c.language, c.voice]
  }

  function Fields(c: Config): seq<string> {
    Texts(c) + [PrintFixed(c.volume), Print(c.rate)]
  }

  function ToString(c: Config): string {
    Join(Fields(c), ',')
  }

  /** Thrown: a number could not be read; the settings before it have been made already. */
  datatype Outcome = Accepted | WrongCount | Thrown

  function ReadVolume(token: string): Option<int> {
    if token == "" then Some(100_000_000) else ReadFixed(token)
  }

  function ReadRate(token: string): Option<int> {
    if token == "" then Some(50) else ReadInt(token)
  }

  function FromTokens(base: Config, tokens: seq<string>): (Outcome, Config)
    requires |tokens| == 6
  {
    var texts := base.(endPoint := SetText(base.endPoint, tokens[0]),
                       secureEndPoint := SetText(base.secureEndPoint, tokens[1]),
                       language := SetText(base.language, tokens[2]),
                       voice := SetText(base.voice, tokens[3]));
    match ReadVolume(tokens[4])
    case None => (Thrown, texts)
    case Some(volume) =>
      var loud := texts.(volume := SetVolume(base.volume, volume));
      match ReadRate(tokens[5])
      case None => (Thrown, loud)
      case Some(rate) => (Accepted, loud.(rate := SetRate(base.rate, rate % 0x100)))
  }

  /** The engine's reading of a configuration text into the configuration it has. */
  function FromString(base: Config, str: string): (Outcome, Config) {
    var tokens := Split(str, ',');
    if |tokens| == 6 then FromTokens(base, tokens) else (WrongCount, base)
  }

  function ReadTokens(tokens: seq<string>): Option<Config>
    requires |tokens| == 6
  {
    match (ReadFixed(tokens[4]), ReadInt(tokens[5]))
    case (Some(volume), Some(rate)) =>
      Some(Config(tokens[0], tokens[1], tokens[2], tokens[3], volume, rate % 0x100))
    case _ => None
  }

  /** The client's reading: every field is taken as it comes. */
  function ReadBack(str: string): Option<Config> {
    var tokens := Split(str, ',');
    if |tokens| == 6 then ReadTokens(tokens) else None
  }

  // The round trip

  lemma JoinMany(tokens: seq<string>, delim: char)
    requires |tokens| > 1
    ensures Join(tokens, delim) == tokens[0] + [delim] + Join(tokens[1..], delim)
  {}

  lemma CountOne(c: char)
    ensures Count([c], c) == 1
  {}

  /** A joined text holds one delimiter less than pieces, and more if a piece holds any. */
  lemma {:induction false} DelimitersInJoin(tokens: seq<string>, delim: char)
    requires tokens != []
    ensures Count(Join(tokens, delim), delim) >= |tokens| - 1
    ensures Count(Join(tokens, delim), delim) == |tokens| - 1 <==> AllFree(tokens, delim)
  {
    FreeIffNone(tokens[0], delim);
    if |tokens| > 1 {
      var tail := tokens[1..];
      DelimitersInJoin(tail, delim);
      CountAppend(tokens[0] + [delim], Join(tail, delim), delim);
      CountAppend(tokens[0], [delim], delim);
      CountOne(delim);
      assert AllFree(tokens, delim) <==> Free(tokens[0], delim) && AllFree(tail, delim) by {
        assert forall k :: 0 < k < |tokens| ==> tokens[k] == tail[k - 1];
      }
    }
  }

  lemma {:induction false} JoinEndsInLast(tokens: seq<string>, delim: char)
    requires tokens != [] && tokens[|tokens| - 1] != []
    ensures
      var s, last := Join(tokens, delim), tokens[|tokens| - 1];
      s != [] && s[|s| - 1] == last[|last| - 1]
  {
    if |tokens| > 1 {
      JoinEndsInLast(tokens[1..], delim);
      JoinMany(tokens, delim);
    }
  }

  /** Splitting gives the pieces back if and only if none holds the delimiter; else there are more. */
  lemma PiecesArriveExactly(tokens: seq<string>, delim: char)
    requires tokens != []
    requires
      var last := tokens[|tokens| - 1];
      last != [] && last[|last| - 1] != delim
    ensures
      var split := Split(Join(tokens, delim), delim);
      if AllFree(tokens, delim) then split == tokens else |split| > |tokens|
  {
    JoinEndsInLast(tokens, delim);
    SplitCounts(Join(tokens, delim), delim);
    DelimitersInJoin(tokens, delim);
    if AllFree(tokens, delim) { SplitOfJoin(tokens, delim); }
  }

  predicate CommaFree(c: Config) {
    AllFree(Texts(c), ',')
  }

  lemma NumbersAreFree(c: Config)
    ensures Free(PrintFixed(c.volume), ',') && Free(Print(c.rate), ',')
    ensures PrintFixed(c.volume) != [] && Print(c.rate) != []
    ensures IsDigit(Print(c.rate)[|Print(c.rate)| - 1])
  {
    PrintIsNumeral(c.rate);
    PrintIsNumeral(Abs(c.volume) / 1_000_000);
    PadIsNumeral(Abs(c.volume) % 1_000_000, 6);
  }

  lemma FieldsArrive(c: Config)
    ensures
      var tokens := Split(ToString(c), ',');
      if CommaFree(c) then tokens == Fields(c) else |tokens| > 6
  {
    NumbersAreFree(c);
    var fields := Fields(c);
    assert AllFree(fields, ',') <==> CommaFree(c) by {
      assert forall k :: 0 <= k < 4 ==> fields[k] == Texts(c)[k];
    }
    PiecesArriveExactly(fields, ',');
  }

  lemma TokensRead(base: Config, c: Config, volume: string, rate: string)
    requires ReadVolume(volume) == ReadFixed(volume) == Some(c.volume)
    requires ReadRate(rate) == ReadInt(rate) == Some(c.rate)
    ensures FromTokens(base, Texts(c) + [volume, rate]) == (Accepted, Update(base, c))
    ensures ReadTokens(Texts(c) + [volume, rate]) == Some(c)
  {}

  lemma FieldsRead(base: Config, c: Config)
    ensures FromTokens(base, Fields(c)) == (Accepted, Update(base, c))
    ensures ReadTokens(Fields(c)) == Some(c)
  {
    var volume, rate := PrintFixed(c.volume), Print(c.rate);
    assert ReadVolume(volume) == ReadFixed(volume) == Some(c.volume) by {
      ReadFixedOfPrintFixed(c.volume);
      NumbersAreFree(c);
    }
    assert ReadRate(rate) == ReadInt(rate) == Some(c.rate) by {
      ReadIntOfPrint(c.rate);
      NumbersAreFree(c);
    }
    TokensRead(base, c, volume, rate);
  }

  /** What the engine makes of a sent configuration: it is merged field by field if and only if no text
      in it holds a comma; otherwise it is refused as a whole. */
  lemma SettingsArriveExactly(base: Config, c: Config)
    ensures
      FromString(base, ToString(c))
      == if CommaFree(c) then (Accepted, Update(base, c)) else (WrongCount, base)
  {
    FieldsArrive(c);
    FieldsRead(base, c);
  }

  // Asking the engine

  /** The voice the engine answers with: without one set, its default for the language. */
  function VoiceOf(c: Config, voices: map<string, string>): string {
    if c.voice != "" then c.voice
    else if "voice_for_" + c.language in voices then voices["voice_for_" + c.language]
    else ""
  }

  /** The answer to getConfiguration. */
  function Answer(c: Config, voices: map<string, string>): string {
    ToString(c.(voice := VoiceOf(c, voices)))
  }

  /** The client reads back what the engine has, with the default voice filled in; sending that again
      changes the engine's configuration exactly if it had no voice of its own but a default one. */
  lemma ReadBackAndSet(c: Config, voices: map<string, string>)
    requires CommaFree(c.(voice := VoiceOf(c, voices)))
    ensures ReadBack(Answer(c, voices)) == Some(c.(voice := VoiceOf(c, voices)))
    ensures FromString(c, Answer(c, voices)).0 == Accepted
    ensures FromString(c, Answer(c, voices)).1 == c <==> c.voice == VoiceOf(c, voices)
  {
    var answered := c.(voice := VoiceOf(c, voices));
    FieldsArrive(answered);
    FieldsRead(c, answered);
  }
}
