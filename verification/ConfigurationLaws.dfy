/** What settings, numbers and texts of a configuration come to, told without the setters. */
module ConfigurationLaws {
  import opened Types
  import opened Decimal
  import opened Tokens
  import opened Configuration
  import ConfigurationCache

  // Ranges

  /** Volume and rate are both within one and a hundred. */
  predicate InRange(c: Config) {
    1_000_000 <= c.volume <= 100_000_000 && 1 <= c.rate <= 100
  }

  /** Nothing that is merged or read brings a configuration out of range, and every complete one within
      range is taken over as it is. */
  lemma UpdateStaysInRange(base: Config, c: Config)
    requires InRange(base)
    ensures InRange(Update(base, c))
    ensures InRange(c) && c.endPoint != "" && c.secureEndPoint != "" && c.language != "" && c.voice != ""
            ==> Update(base, c) == c
    ensures c.endPoint == "" && c.secureEndPoint == "" && c.language == "" && c.voice == ""
            && c.volume < 1_000_000 && c.rate == 0
            ==> Update(base, c) == base
  {}

  lemma ReadingStaysInRange(base: Config, str: string)
    requires InRange(base)
    ensures InRange(FromString(base, str).1)
  {}

  /** The least and the greatest volume that are taken, as they are written. */
  lemma VolumesFromOneToAHundred(base: Config, v: int)
    ensures ReadFixed("1") == Some(1_000_000) && ReadFixed("100") == Some(100_000_000)
    ensures SetVolume(base.volume, v) == v
            <==> v == base.volume || ReadFixed("1").value <= v <= ReadFixed("100").value
    ensures SetVolume(base.volume, v) != v ==> SetVolume(base.volume, v) == base.volume
  {
    WholeNumber("1", 1);
    WholeNumber("100", 100);
  }

  lemma WholeNumber(s: string, n: nat)
    requires s == Print(n)
    ensures ReadFixed(s) == Some(n * 1_000_000)
  {
    PrintIsNumeral(n);
    ValueOfPrint(n);
    LeadingDigitsOf(s, []);
    assert s + [] == s && s[|s|..] == [];
    assert Value(SixOf([])) == 0 by { ZerosAreZero(SixOf([])); }
    ReadSigned(s, n * 1_000_000, false);
  }

  lemma {:induction false} ZerosAreZero(s: string)
    requires AllDigits(s) && forall i :: 0 <= i < |s| ==> s[i] == '0'
    ensures Value(s) == 0
    decreases |s|
  {
    if s != [] { ZerosAreZero(s[..|s| - 1]); }
  }

  lemma RatesFromOneToAHundred(was: uint8, rate: uint8)
    ensures SetRate(was, rate) == rate <==> rate == was || 1 <= rate <= 100
    ensures SetRate(was, rate) != rate ==> SetRate(was, rate) == was
  {}

  // The text

  /** The order of the fields. */
  lemma WireForm(c: Config)
    ensures
      ToString(c) == c.endPoint + [','] + (c.secureEndPoint + [','] + (c.language + [',']
                     + (c.voice + [','] + (PrintFixed(c.volume) + [','] + Print(c.rate)))))
  {
    var last := [Print(c.rate)];
    var two := [PrintFixed(c.volume)] + last;
    var three := [c.voice] + two;
    var four := [c.language] + three;
    var five := [c.secureEndPoint] + four;
    assert Fields(c) == [c.endPoint] + five;
    JoinCons(c.endPoint, five, ',');
    JoinCons(c.secureEndPoint, four, ',');
    JoinCons(c.language, three, ',');
    JoinCons(c.voice, two, ',');
    JoinCons(PrintFixed(c.volume), last, ',');
  }

  /** The form of a volume: a sign only if it is negative, and six decimals. */
  lemma FixedForm(v: int)
    ensures
      var whole, decimals := Print(Abs(v) / 1_000_000), Pad(Abs(v) % 1_000_000, 6);
      && PrintFixed(v) == (if v < 0 then ['-'] else []) + (whole + (['.'] + decimals))
      && AllDigits(whole) && AllDigits(decimals) && |decimals| == 6
      && Millionths(Value(whole), Value(decimals)) == Abs(v)
  {
    var n := Abs(v);
    ValueOfPrint(n / 1_000_000);
    PadIsNumeral(n % 1_000_000, 6);
    SixDigits(n % 1_000_000);
    ValueOfPad(n % 1_000_000, 6);
    PartsOf(n);
    var body := PrintParts(n / 1_000_000, n % 1_000_000);
    assert [] + body == body;
  }

  // Numbers that are missing, or wide

  lemma SplitWithout(texts: seq<string>, empty: seq<string>)
    requires |texts| == 4 && AllFree(texts, ',') && empty != []
    requires forall k :: 0 <= k < |empty| ==> empty[k] == ""
    ensures Split(Join(texts + empty, ','), ',') == texts + empty[1..]
  {
    var all := texts + empty;
    forall k | 0 <= k < |all| ensures Free(all[k], ',') {
      assert all[k] == if k < 4 then texts[k] else empty[k - 4];
    }
    SplitOfJoin(all, ',');
    assert all[|all| - 1] == empty[|empty| - 1] == "";
    assert all[..|all| - 1] == texts + empty[1..];
  }

  lemma DefaultNumbers(base: Config, tokens: seq<string>)
    requires |tokens| == 6 && tokens[4] == "" && tokens[5] == ""
    ensures FromTokens(base, tokens)
         == (Accepted, Update(base, Config(tokens[0], tokens[1], tokens[2], tokens[3], 100_000_000, 50)))
  {}

  /** A missing volume stands for 100, and a missing rate for 50; but splitting drops an empty last piece,
      so a text that ends where the rate should be is refused, and one more comma is needed. */
  lemma MissingNumbers(base: Config, texts: seq<string>)
    requires |texts| == 4 && AllFree(texts, ',')
    ensures FromString(base, Join(texts + ["", ""], ',')) == (WrongCount, base)
    ensures FromString(base, Join(texts + ["", "", ""], ','))
         == (Accepted, Update(base, Config(texts[0], texts[1], texts[2], texts[3], 100_000_000, 50)))
  {
    assert |Split(Join(texts + ["", ""], ','), ',')| == 5 by { SplitWithout(texts, ["", ""]); }
    SplitWithout(texts, ["", "", ""]);
    var tokens := texts + ["", "", ""][1..];
    assert tokens[4] == "" && tokens[5] == "";
    assert tokens[0] == texts[0] && tokens[1] == texts[1] && tokens[2] == texts[2] && tokens[3] == texts[3];
    DefaultNumbers(base, tokens);
  }

  /** A rate is read as an int and taken modulo 256, so 306 is taken for 50. */
  lemma RatesWrapAround(base: Config, c: Config, n: nat)
    requires CommaFree(c) && n <= 0x7fff_ffff
    ensures FromString(base, Join(Texts(c) + [PrintFixed(c.volume), Print(n)], ','))
         == (Accepted, Update(base, c.(rate := n % 0x100)))
  {
    var fields := Texts(c) + [PrintFixed(c.volume), Print(n)];
    NumbersAreFree(c);
    PrintIsNumeral(n);
    assert AllFree(fields, ',') by {
      assert forall k :: 0 <= k < 4 ==> fields[k] == Texts(c)[k];
    }
    SplitOfJoin(fields, ',');
    ReadWide(base, c, PrintFixed(c.volume), n);
  }

  lemma ReadWide(base: Config, c: Config, volume: string, n: nat)
    requires n <= 0x7fff_ffff && volume == PrintFixed(c.volume)
    ensures FromTokens(base, Texts(c) + [volume, Print(n)]) == (Accepted, Update(base, c.(rate := n % 0x100)))
  {
    assert ReadVolume(volume) == Some(c.volume) by {
      ReadFixedOfPrintFixed(c.volume);
      NumbersAreFree(c);
    }
    assert ReadRate(Print(n)) == Some(n) by {
      ReadIntOfPrint(n);
      PrintIsNumeral(n);
    }
  }

  /** One beyond an int throws, when the settings before it have been made. */
  lemma TooWide(n: nat)
    requires n > 0x7fff_ffff
    ensures ReadInt(Print(n)) == None
  {
    ValueOfPrint(n);
    LeadingDigitsOf(Print(n), []);
    assert Print(n) + [] == Print(n);
  }

  // End points

  /** What the engine accepts leaves it configured if and only if it was so before or the text gives an
      end point; and a configured engine has both. */
  lemma AcceptedIsConfigured(c: Config, str: string)
    requires ConfigurationCache.SetConfiguration(c, str).0 == Accepted
    ensures
      var r, tokens := ConfigurationCache.SetConfiguration(c, str).1, Split(str, ',');
      && |tokens| == 6
      && (IsConfigured(r) <==> IsConfigured(c) || tokens[0] != "" || tokens[1] != "")
      && (IsConfigured(r) ==> r.endPoint != "" && r.secureEndPoint != "")
  {}

  /** Without a voice of its own the engine answers with the default of its language, and with that of no
      other; a voice that is set always goes first. */
  lemma DefaultVoiceFollowsLanguage(c: Config, key: string, v: string, voices: map<string, string>)
    ensures
      var answer := VoiceOf(c, voices[key := v]);
      && (c.voice != "" ==> answer == c.voice)
      && (c.voice == "" && key == "voice_for_" + c.language ==> answer == v)
      && (c.voice == "" && key != "voice_for_" + c.language ==> answer == VoiceOf(c, voices))
    ensures c.voice == "" ==> VoiceOf(c, map[]) == ""
  {}
}
