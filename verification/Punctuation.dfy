/** Dropping stray quotes and the silent punctuation that follows other punctuation. */
module Punctuation {
  import opened Types
  import opened Isolated
  import opened Sequences

  predicate IsSilent(c: char) {
    c in "?!:;-()"
  }

  predicate IsQuote(c: char) {
    c == '"'
  }

  /** The scan; `done` is the part of the text before the loop's position. None stands for a read past
      the end of the text, which happens right after a quote in the last place is erased. */
  function Scan(done: string, rest: string): Option<string>
    decreases |rest|, 1
  {
    if rest == [] then Some(done)
    else if !IsQuote(rest[0]) then Visit(done, rest)
    else if |rest| == 1 then None
    else if |rest| == 2 then Some(done + [rest[1]])
    else Visit(done + [rest[1]], rest[2..])   // the character after an erased quote is stepped over
  }

  function Visit(done: string, rest: string): Option<string>
    requires rest != []
    decreases |rest|, 0
  {
    if IsPunct(rest[0]) then Swallow(done + [rest[0]], rest[1..]) else Scan(done + [rest[0]], rest[1..])
  }

  /** After a punctuation mark: silent marks go, spaces stay. */
  function Swallow(done: string, rest: string): Option<string>
    decreases |rest|, 2
  {
    if rest != [] && IsSilent(rest[0]) then Swallow(done, rest[1..])
    else if rest != [] && IsSpace(rest[0]) then Swallow(done + [rest[0]], rest[1..])
    else Scan(done, rest)
  }

  /** The inner loop, which erases in place. */
  method SwallowSilent(text: string, from: nat, ghost done: string, ghost rest: string)
    returns (r: string, pos: nat, ghost done': string, ghost rest': string)
    requires from == |done| && text == done + rest
    ensures pos == |done'| && r == done' + rest' && |rest'| <= |rest|
    ensures Scan(done', rest') == Swallow(done, rest)
  {
    r, pos, done', rest' := text, from, done, rest;
    Unfold(done', rest');
    while pos < |r| && (IsSilent(r[pos]) || IsSpace(r[pos]))
      invariant pos == |done'| && r == done' + rest' && |rest'| <= |rest|
      invariant Swallow(done', rest') == Swallow(done, rest)
      decreases |rest'|
    {
      Unfold(done', rest');
      if IsSilent(r[pos]) {
        r := r[..pos] + r[pos + 1..];
      } else {
        pos := pos + 1;
        done' := done' + [rest'[0]];
      }
      rest' := rest'[1..];
    }
    Unfold(done', rest');
  }

  /** The loop as it is. */
  method ReplaceSuccessivePunctuation(text: string) returns (r: Option<string>)
    ensures r == Scan([], text)
  {
    var t, pos: nat := text, 0;
    ghost var done, rest := "", text;
    while pos < |t|
      invariant pos == |done| && t == done + rest && Scan(done, rest) == Scan([], text)
      decreases |rest|
    {
      Unfold(done, rest);
      if IsQuote(t[pos]) {
        t := t[..pos] + t[pos + 1..];
        pos := pos + 1;
        if pos == |t| {
          assert t == done + [rest[1]];
          return Some(t);
        }
        if pos > |t| {
          return None;
        }
        done, rest := done + [rest[1]], rest[2..];
        assert t == done + rest;
        Unfold(done, rest);
      }
      assert Visit(done, rest) == Scan([], text);
      if IsPunct(t[pos]) {
        t, pos, done, rest := SwallowSilent(t, pos + 1, done + [rest[0]], rest[1..]);
      } else {
        pos := pos + 1;
        done, rest := done + [rest[0]], rest[1..];
      }
    }
    assert rest == [] && done + rest == done;
    return Some(t);
  }

  // When the scan reads past the end

  /** The last character is a quote and the scan comes to test it: a quote that is tested hides the two
      characters after it from the test. */
  predicate EndsAtQuote(text: string) {
    text != [] &&
    if IsQuote(text[0]) then |text| == 1 || (|text| > 3 && EndsAtQuote(text[3..]))
    else EndsAtQuote(text[1..])
  }

  lemma {:induction false} ScanFailsExactly(done: string, rest: string)
    ensures Scan(done, rest) == None <==> EndsAtQuote(rest)
    decreases |rest|, 1
  {
    if rest != [] {
      if !IsQuote(rest[0]) {
        VisitFailsExactly(done, rest);
      } else if |rest| > 2 {
        VisitFailsExactly(done + [rest[1]], rest[2..]);
        assert rest[2..][1..] == rest[3..];
      }
    }
  }

  lemma {:induction false} VisitFailsExactly(done: string, rest: string)
    requires rest != []
    ensures Visit(done, rest) == None <==> EndsAtQuote(rest[1..])
    decreases |rest|, 0
  {
    if IsPunct(rest[0]) {
      SwallowFailsExactly(done + [rest[0]], rest[1..]);
    } else {
      ScanFailsExactly(done + [rest[0]], rest[1..]);
    }
  }

  lemma {:induction false} SwallowFailsExactly(done: string, rest: string)
    ensures Swallow(done, rest) == None <==> EndsAtQuote(rest)
    decreases |rest|, 2
  {
    if rest != [] && IsSilent(rest[0]) {
      SwallowFailsExactly(done, rest[1..]);
    } else if rest != [] && IsSpace(rest[0]) {
      SwallowFailsExactly(done + [rest[0]], rest[1..]);
    } else {
      ScanFailsExactly(done, rest);
    }
  }

  // What is kept

  /** The characters that are neither quotes nor silent marks. */
  function Loud(text: string): string {
    if text == [] then []
    else (if IsQuote(text[0]) || IsSilent(text[0]) then [] else [text[0]]) + Loud(text[1..])
  }

  lemma {:induction false} LoudSnoc(text: string, c: char)
    ensures Loud(text + [c]) == if IsQuote(c) || IsSilent(c) then Loud(text) else Loud(text) + [c]
  {
    if text != [] {
      LoudSnoc(text[1..], c);
      assert (text + [c])[1..] == text[1..] + [c];
    }
  }

  /** `r` keeps, in order, every loud character of `done` and `rest`. */
  predicate KeepsLoud(r: Option<string>, done: string, rest: string) {
    r.Some? ==> Loud(r.value) == Loud(done) + Loud(rest)
  }

  lemma KeepsLoudStep(r: Option<string>, done: string, rest: string)
    requires rest != [] && KeepsLoud(r, done + [rest[0]], rest[1..])
    ensures KeepsLoud(r, done, rest)
  {
    LoudSnoc(done, rest[0]);
  }

  lemma {:induction false} ScanKeepsLoud(done: string, rest: string)
    ensures KeepsLoud(Scan(done, rest), done, rest)
    decreases |rest|, 1
  {
    if rest != [] {
      if !IsQuote(rest[0]) {
        VisitKeepsLoud(done, rest);
      } else if |rest| >= 2 {
        LoudSnoc(done, rest[1]);
        assert Loud(rest) == Loud(rest[1..]) && rest[1..][1..] == rest[2..] && rest[1..][0] == rest[1];
        if |rest| > 2 {
          VisitKeepsLoud(done + [rest[1]], rest[2..]);
          KeepsLoudStep(Scan(done, rest), done, rest[1..]);
        }
      }
    }
  }

  lemma {:induction false} VisitKeepsLoud(done: string, rest: string)
    requires rest != []
    ensures KeepsLoud(Visit(done, rest), done, rest)
    decreases |rest|, 0
  {
    if IsPunct(rest[0]) {
      SwallowKeepsLoud(done + [rest[0]], rest[1..]);
    } else {
      ScanKeepsLoud(done + [rest[0]], rest[1..]);
    }
    KeepsLoudStep(Visit(done, rest), done, rest);
  }

  lemma {:induction false} SwallowKeepsLoud(done: string, rest: string)
    ensures KeepsLoud(Swallow(done, rest), done, rest)
    decreases |rest|, 2
  {
    if rest != [] && IsSilent(rest[0]) {
      SwallowKeepsLoud(done, rest[1..]);
    } else if rest != [] && IsSpace(rest[0]) {
      SwallowKeepsLoud(done + [rest[0]], rest[1..]);
      KeepsLoudStep(Swallow(done, rest), done, rest);
    } else {
      ScanKeepsLoud(done, rest);
    }
  }

  // What is left on texts without quotes

  predicate QuoteFree(text: string) {
    forall i :: 0 <= i < |text| ==> !IsQuote(text[i])
  }

  /** The last character that is not a space is a punctuation mark. */
  predicate EndsInPunct(text: string)
    decreases |text|
  {
    text != [] &&
    var last := text[|text| - 1];
    if IsSpace(last) then EndsInPunct(text[..|text| - 1]) else IsPunct(last)
  }

  /** No silent mark follows a punctuation mark, not even across spaces. */
  predicate Quiet(text: string) {
    forall i :: 0 <= i < |text| && IsSilent(text[i]) ==> !EndsInPunct(text[..i])
  }

  lemma QuietSnoc(text: string, c: char)
    ensures Quiet(text + [c]) <==> Quiet(text) && (IsSilent(c) ==> !EndsInPunct(text))
    ensures EndsInPunct(text + [c]) <==> if IsSpace(c) then EndsInPunct(text) else IsPunct(c)
  {
    var more := text + [c];
    assert more[..|text|] == text && more[|text|] == c;
    assert forall i :: 0 <= i < |text| ==> more[..i] == text[..i] && more[i] == text[i];
  }

  lemma {:induction false} ScanQuiets(done: string, rest: string)
    requires QuoteFree(done) && QuoteFree(rest) && Quiet(done)
    requires EndsInPunct(done) && rest != [] ==> !IsSilent(rest[0]) && !IsSpace(rest[0])
    ensures Scan(done, rest).Some? && Quiet(Scan(done, rest).value) && QuoteFree(Scan(done, rest).value)
    decreases |rest|, 1
  {
    if rest != [] {
      QuietSnoc(done, rest[0]);
      if IsPunct(rest[0]) {
        SwallowQuiets(done + [rest[0]], rest[1..]);
      } else {
        ScanQuiets(done + [rest[0]], rest[1..]);
      }
    }
  }

  lemma {:induction false} SwallowQuiets(done: string, rest: string)
    requires QuoteFree(done) && QuoteFree(rest) && Quiet(done) && EndsInPunct(done)
    ensures Swallow(done, rest).Some? && Quiet(Swallow(done, rest).value)
    ensures QuoteFree(Swallow(done, rest).value)
    decreases |rest|, 2
  {
    if rest != [] && IsSilent(rest[0]) {
      SwallowQuiets(done, rest[1..]);
    } else if rest != [] && IsSpace(rest[0]) {
      QuietSnoc(done, rest[0]);
      SwallowQuiets(done + [rest[0]], rest[1..]);
    } else {
      ScanQuiets(done, rest);
    }
  }

  lemma QuietPrefix(done: string, rest: string)
    requires rest != [] && Quiet(done + rest)
    ensures IsSilent(rest[0]) ==> !EndsInPunct(done)
    ensures done + rest == done + [rest[0]] + rest[1..]
  {
    Unfold(done, rest);
  }

  lemma {:induction false} ScanLeavesQuiet(done: string, rest: string)
    requires QuoteFree(rest) && Quiet(done + rest)
    ensures Scan(done, rest) == Some(done + rest)
    decreases |rest|, 1
  {
    if rest != [] {
      QuietPrefix(done, rest);
      QuietSnoc(done, rest[0]);
      if IsPunct(rest[0]) {
        SwallowLeavesQuiet(done + [rest[0]], rest[1..]);
      } else {
        ScanLeavesQuiet(done + [rest[0]], rest[1..]);
      }
    } else {
      assert done + rest == done;
    }
  }

  lemma {:induction false} SwallowLeavesQuiet(done: string, rest: string)
    requires QuoteFree(rest) && Quiet(done + rest) && EndsInPunct(done)
    ensures Swallow(done, rest) == Some(done + rest)
    decreases |rest|, 2
  {
    if rest != [] { QuietPrefix(done, rest); }
    if rest != [] && IsSpace(rest[0]) {
      QuietSnoc(done, rest[0]);
      SwallowLeavesQuiet(done + [rest[0]], rest[1..]);
    } else {
      ScanLeavesQuiet(done, rest);
    }
  }

  /** On a text without quotes the scan succeeds, what it leaves is quiet, and it changes exactly the
      texts that are not; so doing it twice is doing it once. */
  lemma QuoteFreeScan(text: string)
    requires QuoteFree(text)
    ensures
      var r := Scan([], text);
      && r.Some? && Quiet(r.value) && (r == Some(text) <==> Quiet(text))
      && Scan([], r.value) == r
  {
    ScanQuiets([], text);
    var r := Scan([], text).value;
    assert [] + text == text && [] + r == r;
    if Quiet(text) { ScanLeavesQuiet([], text); }
    ScanLeavesQuiet([], r);
  }

  // Which quotes are left

  predicate HasQuote(text: string) {
    exists i :: 0 <= i < |text| && IsQuote(text[i])
  }

  /** One of the two characters after an erased quote, which the scan does not test, is a quote. */
  predicate HidesQuote(text: string) {
    text != [] &&
    if IsQuote(text[0])
    then (|text| > 1 && IsQuote(text[1])) || (|text| > 2 && IsQuote(text[2]))
         || (|text| > 3 && HidesQuote(text[3..]))
    else HidesQuote(text[1..])
  }

  lemma HasQuoteSnoc(text: string, c: char)
    ensures HasQuote(text + [c]) <==> HasQuote(text) || IsQuote(c)
  {
    var more := text + [c];
    if i :| 0 <= i < |text| && IsQuote(text[i]) { assert more[i] == text[i]; }
    assert more[|text|] == c;
    if i :| 0 <= i < |more| && IsQuote(more[i]) { assert i < |text| ==> text[i] == more[i]; }
  }

  /** Not every quote goes: one is left if and only if the scan steps over it. */
  lemma {:induction false} QuotesLeftExactly(done: string, rest: string)
    ensures Scan(done, rest).Some? ==>
              (HasQuote(Scan(done, rest).value) <==> HasQuote(done) || HidesQuote(rest))
    decreases |rest|, 1
  {
    if rest != [] {
      if !IsQuote(rest[0]) {
        VisitLeavesExactly(done, rest);
      } else if |rest| >= 2 {
        HasQuoteSnoc(done, rest[1]);
        if |rest| > 2 {
          VisitLeavesExactly(done + [rest[1]], rest[2..]);
          assert rest[2..][1..] == rest[3..];
        }
      }
    }
  }

  lemma {:induction false} VisitLeavesExactly(done: string, rest: string)
    requires rest != []
    ensures Visit(done, rest).Some? ==>
              (HasQuote(Visit(done, rest).value)
               <==> HasQuote(done) || IsQuote(rest[0]) || HidesQuote(rest[1..]))
    decreases |rest|, 0
  {
    HasQuoteSnoc(done, rest[0]);
    if IsPunct(rest[0]) {
      SwallowLeavesExactly(done + [rest[0]], rest[1..]);
    } else {
      QuotesLeftExactly(done + [rest[0]], rest[1..]);
    }
  }

  lemma {:induction false} SwallowLeavesExactly(done: string, rest: string)
    ensures Swallow(done, rest).Some? ==>
              (HasQuote(Swallow(done, rest).value) <==> HasQuote(done) || HidesQuote(rest))
    decreases |rest|, 2
  {
    if rest != [] && IsSilent(rest[0]) {
      SwallowLeavesExactly(done, rest[1..]);
    } else if rest != [] && IsSpace(rest[0]) {
      HasQuoteSnoc(done, rest[0]);
      SwallowLeavesExactly(done + [rest[0]], rest[1..]);
    } else {
      QuotesLeftExactly(done, rest);
    }
  }

  /** After a full stop exactly the marks ?, !, :, ;, -, ( and ) are dropped. */
  lemma SilentMarksGo(c: char)
    requires !IsQuote(c)
    ensures Scan([], ['.', c]) == Some(if c in ['?', '!', ':', ';', '-', '(', ')'] then "." else ['.', c])
  {
    var text := ['.', c];
    assert text[1..] == [c] && [c][1..] == [];
    assert ['.'] + [c] == text && [] + ['.'] == ['.'] && IsPunct('.') && !IsQuote('.');
    assert Scan([], text) == Visit([], text);
    assert Visit([], text) == Swallow([] + ['.'], [c]);
    if IsSilent(c) {
      assert Swallow(['.'], [c]) == Swallow(['.'], []) == Scan(['.'], []);
    } else if IsSpace(c) {
      assert Swallow(['.'], [c]) == Swallow(text, []) == Scan(text, []);
    } else {
      assert Swallow(['.'], [c]) == Scan(['.'], [c]) == Visit(['.'], [c]);
      assert Visit(['.'], [c]) == if IsPunct(c) then Swallow(text, []) else Scan(text, []);
    }
  }
}
