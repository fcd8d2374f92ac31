/** What the speaker makes of a text before it escapes it for the request. */
module Sanitizer {
  import opened Types
  import opened Isolated
  import opened Punctuation
  import opened Sequences

  /** None stands for the read past the end of the text. */
  function Sanitize(text: string): Option<string> {
    Scan([], SpellOut(text))
  }

  method SanitizeString(input: string) returns (r: Option<string>)
    ensures r == Sanitize(input)
  {
    var text := ReplaceIfIsolated(input, '$', "dollar");
    text := ReplaceIfIsolated(text, '#', "pound");
    text := ReplaceIfIsolated(text, '&', "and");
    text := ReplaceIfIsolated(text, '|', "bar");
    text := ReplaceIfIsolated(text, '/', "or");
    r := ReplaceSuccessivePunctuation(text);
  }

  /** Erasing a separator isolates nothing: a symbol that does not stand alone has a neighbour that is
      not erased. */
  lemma ErasingIsolatesNothing(left: string, sep: char, right: string, symbol: char)
    requires Separates(sep) && Clear(left + [sep] + right, symbol)
    ensures Clear(left + right, symbol)
  {
    var was, now := left + [sep] + right, left + right;
    forall i | 0 <= i < |now| && now[i] == symbol ensures !IsolatedAt(now, i) {
      var k := if i < |left| then i else i + 1;
      assert was[k] == symbol && !IsolatedAt(was, k);
      assert i > 0 && !Separates(was[k - 1]) ==> now[i - 1] == was[k - 1];
      assert i + 1 < |now| && !Separates(was[k + 1]) ==> now[i + 1] == was[k + 1];
    }
  }

  /** `r` has no isolated symbol. */
  predicate StaysClear(r: Option<string>, symbol: char) {
    r.Some? ==> Clear(r.value, symbol)
  }

  lemma {:induction false} ScanKeepsClear(done: string, rest: string, symbol: char)
    requires Clear(done + rest, symbol)
    ensures StaysClear(Scan(done, rest), symbol)
    decreases |rest|, 1
  {
    if rest == [] {
      assert done + rest == done;
    } else if !IsQuote(rest[0]) {
      VisitKeepsClear(done, rest, symbol);
    } else if |rest| >= 2 {
      Unfold(done, rest);
      ErasingIsolatesNothing(done, rest[0], rest[1..], symbol);
      Unfold(done, rest[1..]);
      assert rest[1..][1..] == rest[2..];
      if |rest| == 2 {
        assert done + [rest[1]] == done + rest[1..];
      } else {
        VisitKeepsClear(done + [rest[1]], rest[2..], symbol);
      }
    }
  }

  lemma {:induction false} VisitKeepsClear(done: string, rest: string, symbol: char)
    requires rest != [] && Clear(done + rest, symbol)
    ensures StaysClear(Visit(done, rest), symbol)
    decreases |rest|, 0
  {
    Unfold(done, rest);
    if IsPunct(rest[0]) {
      SwallowKeepsClear(done + [rest[0]], rest[1..], symbol);
    } else {
      ScanKeepsClear(done + [rest[0]], rest[1..], symbol);
    }
  }

  lemma {:induction false} SwallowKeepsClear(done: string, rest: string, symbol: char)
    requires Clear(done + rest, symbol)
    ensures StaysClear(Swallow(done, rest), symbol)
    decreases |rest|, 2
  {
    Unfold(done, rest);
    if rest != [] && IsSilent(rest[0]) {
      ErasingIsolatesNothing(done, rest[0], rest[1..], symbol);
      SwallowKeepsClear(done, rest[1..], symbol);
    } else if rest != [] && IsSpace(rest[0]) {
      SwallowKeepsClear(done + [rest[0]], rest[1..], symbol);
    } else {
      ScanKeepsClear(done, rest, symbol);
    }
  }

  lemma {:induction false} PassIsQuoteFree(done: string, rest: string, symbol: char, word: string)
    requires QuoteFree(done) && QuoteFree(rest) && QuoteFree(word)
    ensures QuoteFree(Pass(done, rest, symbol, word))
    decreases |rest|
  {
    if rest != [] {
      PassIsQuoteFree(done + word, rest[1..], symbol, word);
      PassIsQuoteFree(done + [rest[0]], rest[1..], symbol, word);
    }
  }

  lemma SpelledOutIsQuoteFree(text: string)
    requires QuoteFree(text)
    ensures QuoteFree(SpellOut(text))
  {
    PassIsQuoteFree([], text, '$', "dollar");
    var t1 := Pass([], text, '$', "dollar");
    PassIsQuoteFree([], t1, '#', "pound");
    var t2 := Pass([], t1, '#', "pound");
    PassIsQuoteFree([], t2, '&', "and");
    var t3 := Pass([], t2, '&', "and");
    PassIsQuoteFree([], t3, '|', "bar");
    PassIsQuoteFree([], Pass([], t3, '|', "bar"), '/', "or");
  }

  /** However the two stages act on each other, no symbol stands alone in the end. */
  lemma SanitizedIsClear(text: string)
    ensures Sanitize(text).Some? ==> AllClear(Sanitize(text).value)
  {
    var spelled := SpellOut(text);
    SpelledOutIsClear(text);
    assert [] + spelled == spelled;
    ScanKeepsClear([], spelled, '$');
    ScanKeepsClear([], spelled, '#');
    ScanKeepsClear([], spelled, '&');
    ScanKeepsClear([], spelled, '|');
    ScanKeepsClear([], spelled, '/');
  }

  /** A text without quotes is always sanitised, into a text in which no symbol stands alone and no
      silent mark follows a mark; it is left as it is exactly if it is such a text already, and so
      sanitising twice is sanitising once. */
  lemma QuoteFreeIsSanitized(text: string)
    requires QuoteFree(text)
    ensures
      var r := Sanitize(text);
      && r.Some? && AllClear(r.value) && Quiet(r.value)
      && (r == Some(text) <==> AllClear(text) && Quiet(text))
      && Sanitize(r.value) == r
  {
    SpelledOutIsQuoteFree(text);
    QuoteFreeScan(SpellOut(text));
    SanitizedIsClear(text);
    SpelledOutIsClear(text);
    SpelledOutIsClear(Sanitize(text).value);
  }
}
