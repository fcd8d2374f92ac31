/** Spelling out symbols that stand alone, as the speaker does before it sends a text out. Characters
    are classified as in the C locale. */
module Isolated {
  import opened Sequences

  predicate IsPunct(c: char) {
    '!' <= c <= '/' || ':' <= c <= '@' || '[' <= c <= '`' || '{' <= c <= '~'
  }

  predicate IsSpace(c: char) {
    c == ' ' || '\t' <= c <= '\r'
  }

  predicate Separates(c: char) {
    IsPunct(c) || IsSpace(c)
  }

  predicate IsolatedAt(text: string, i: nat)
    requires i < |text|
  {
    && (i == 0 || Separates(text[i - 1]))
    && (i + 1 == |text| || Separates(text[i + 1]))
  }

  /** One pass from left to right. What stands to the left of a symbol is what the pass has made of it,
      so in "$$" only the first symbol is replaced. */
  function Pass(done: string, rest: string, symbol: char, word: string): string
    decreases |rest|
  {
    if rest == [] then done
    else if rest[0] == symbol && IsolatedAt(done + rest, |done|)
    then Pass(done + word, rest[1..], symbol, word)
    else Pass(done + [rest[0]], rest[1..], symbol, word)
  }

  // The loop

  /** std::string::find of one character. */
  method Find(text: string, c: char, from: nat) returns (pos: nat)
    requires from <= |text|
    ensures from <= pos <= |text| && forall i :: from <= i < pos ==> text[i] != c
    ensures pos < |text| ==> text[pos] == c
  {
    pos := from;
    while pos < |text| && text[pos] != c
      invariant from <= pos <= |text| && forall i :: from <= i < pos ==> text[i] != c
    {
      pos := pos + 1;
    }
  }

  lemma {:induction false} PassSkips(done: string, rest: string, n: nat, symbol: char, word: string)
    requires n <= |rest| && forall i :: 0 <= i < n ==> rest[i] != symbol
    ensures Pass(done, rest, symbol, word) == Pass(done + rest[..n], rest[n..], symbol, word)
    decreases n
  {
    if n == 0 {
      assert done + rest[..0] == done;
    } else {
      PassSkips(done + [rest[0]], rest[1..], n - 1, symbol, word);
      assert done + [rest[0]] + rest[1..][..n - 1] == done + rest[..n];
      assert rest[1..][n - 1..] == rest[n..];
    }
  }

  /** Where the search from the position finds the symbol, the pass gets to unchanged. */
  lemma SkipTo(done: string, rest: string, pos: nat, symbol: char, word: string)
    requires |done| <= pos <= |done + rest|
    requires forall i :: |done| <= i < pos ==> (done + rest)[i] != symbol
    ensures
      var text := done + rest;
      && text[..pos] + text[pos..] == text
      && Pass(done, rest, symbol, word) == Pass(text[..pos], text[pos..], symbol, word)
  {
    var n := pos - |done|;
    assert forall i :: 0 <= i < n ==> rest[i] == (done + rest)[|done| + i];
    PassSkips(done, rest, n, symbol, word);
    assert (done + rest)[..pos] == done + rest[..n] && (done + rest)[pos..] == rest[n..];
  }

  /** The loop as it is: it ends although a replacement makes the text longer, because what is left to
      look at gets shorter. */
  method ReplaceIfIsolated(text: string, search: char, replace: string) returns (r: string)
    ensures r == Pass([], text, search, replace)
  {
    r := text;
    var pos := 0;
    ghost var done, rest := "", text;
    while true
      invariant pos == |done| && r == done + rest
      invariant Pass(done, rest, search, replace) == Pass([], text, search, replace)
      decreases |rest|
    {
      pos := Find(r, search, pos);
      SkipTo(done, rest, pos, search, replace);
      done, rest := r[..pos], r[pos..];
      if pos == |r| {
        break;
      }
      Unfold(done, rest);
      var punctBefore := pos == 0 || Separates(r[pos - 1]);
      var punctAfter := pos + 1 == |r| || Separates(r[pos + 1]);
      assert IsolatedAt(r, pos) <==> punctBefore && punctAfter;
      if punctBefore && punctAfter {
        r := r[..pos] + replace + r[pos + 1..];
        pos := pos + |replace|;
        done := done + replace;
      } else {
        pos := pos + 1;
        done := done + [rest[0]];
      }
      rest := rest[1..];
    }
    assert rest == "" && done + rest == done;
  }

  // What a pass achieves

  /** No occurrence of the symbol among the first n characters is isolated in the text. */
  predicate ClearUpTo(text: string, n: nat, symbol: char)
    requires n <= |text|
  {
    forall i :: 0 <= i < n && text[i] == symbol ==> !IsolatedAt(text, i)
  }

  predicate Clear(text: string, symbol: char) {
    ClearUpTo(text, |text|, symbol)
  }

  /** A word of letters: nothing in it separates. */
  predicate IsWord(word: string) {
    word != [] && forall i :: 0 <= i < |word| ==> !Separates(word[i])
  }

  /** Putting a word in the place of a separator isolates nothing to its left, ... */
  lemma WordIsolatesNothingBefore(left: string, sep: char, right: string, word: string, symbol: char)
    requires Separates(sep) && IsWord(word)
    requires ClearUpTo(left + [sep] + right, |left|, symbol)
    ensures ClearUpTo(left + word + right, |left|, symbol)
  {
    var was, now := left + [sep] + right, left + word + right;
    forall i | 0 <= i < |left| && now[i] == symbol ensures !IsolatedAt(now, i) {
      assert was[i] == symbol && now[i + 1] == if i + 1 < |left| then was[i + 1] else word[0];
    }
  }

  lemma ClearUpToWord(left: string, word: string, right: string, symbol: char)
    requires IsWord(word) && Separates(symbol) && ClearUpTo(left + word + right, |left|, symbol)
    ensures ClearUpTo(left + word + right, |left + word|, symbol)
  {}

  /** ... and nothing to its right. */
  lemma WordIsolatesNothing(left: string, sep: char, right: string, word: string, symbol: char)
    requires Separates(sep) && IsWord(word) && Separates(symbol) && Clear(left + [sep] + right, symbol)
    ensures Clear(left + word + right, symbol)
  {
    var was, now := left + [sep] + right, left + word + right;
    WordIsolatesNothingBefore(left, sep, right, word, symbol);
    ClearUpToWord(left, word, right, symbol);
    forall i | |left + word| <= i < |now| && now[i] == symbol ensures !IsolatedAt(now, i) {
      var k := i - |left + word|;
      assert now[i] == right[k] == was[|left| + 1 + k];
      if k == 0 {
        assert now[i - 1] == word[|word| - 1];
      } else {
        assert now[i - 1] == right[k - 1] == was[|left| + k];
        assert i + 1 < |now| ==> now[i + 1] == right[k + 1] == was[|left| + 2 + k];
      }
    }
  }

  lemma {:induction false} PassClearsSymbol(done: string, rest: string, symbol: char, word: string)
    requires IsPunct(symbol) && IsWord(word) && ClearUpTo(done + rest, |done|, symbol)
    ensures Clear(Pass(done, rest, symbol, word), symbol)
    decreases |rest|
  {
    if rest == [] {
      assert done + rest == done;
    } else {
      assert done + rest == done + [rest[0]] + rest[1..];
      if rest[0] == symbol && IsolatedAt(done + rest, |done|) {
        WordIsolatesNothingBefore(done, symbol, rest[1..], word, symbol);
        ClearUpToWord(done, word, rest[1..], symbol);
        PassClearsSymbol(done + word, rest[1..], symbol, word);
      } else {
        PassClearsSymbol(done + [rest[0]], rest[1..], symbol, word);
      }
    }
  }

  lemma {:induction false} PassKeepsClear(
      done: string, rest: string, symbol: char, word: string, other: char)
    requires IsPunct(symbol) && IsWord(word) && Separates(other) && Clear(done + rest, other)
    ensures Clear(Pass(done, rest, symbol, word), other)
    decreases |rest|
  {
    if rest == [] {
      assert done + rest == done;
    } else {
      assert done + rest == done + [rest[0]] + rest[1..];
      if rest[0] == symbol && IsolatedAt(done + rest, |done|) {
        WordIsolatesNothing(done, symbol, rest[1..], word, other);
        PassKeepsClear(done + word, rest[1..], symbol, word, other);
      } else {
        PassKeepsClear(done + [rest[0]], rest[1..], symbol, word, other);
      }
    }
  }

  lemma {:induction false} PassLeavesClear(done: string, rest: string, symbol: char, word: string)
    requires Clear(done + rest, symbol)
    ensures Pass(done, rest, symbol, word) == done + rest
    decreases |rest|
  {
    if rest != [] {
      assert done + rest == done + [rest[0]] + rest[1..];
      assert (done + rest)[|done|] == rest[0];
      PassLeavesClear(done + [rest[0]], rest[1..], symbol, word);
    }
  }

  /** A pass leaves no isolated occurrence of its symbol, isolates no other symbol, and changes exactly
      the texts that hold an isolated occurrence; so doing it twice is doing it once. */
  lemma PassIsExact(text: string, symbol: char, word: string)
    requires IsPunct(symbol) && IsWord(word)
    ensures
      var r := Pass([], text, symbol, word);
      && Clear(r, symbol)
      && (forall other :: Separates(other) && Clear(text, other) ==> Clear(r, other))
      && (r == text <==> Clear(text, symbol))
      && Pass([], r, symbol, word) == r
  {
    var r := Pass([], text, symbol, word);
    assert [] + text == text && [] + r == r;
    PassClearsSymbol([], text, symbol, word);
    forall other | Separates(other) && Clear(text, other) ensures Clear(r, other) {
      PassKeepsClear([], text, symbol, word, other);
    }
    if Clear(text, symbol) { PassLeavesClear([], text, symbol, word); }
    PassLeavesClear([], r, symbol, word);
  }

  // The five passes

  function SpellOut(text: string): string {
    var t1 := Pass([], text, '$', "dollar");
    var t2 := Pass([], t1, '#', "pound");
    var t3 := Pass([], t2, '&', "and");
    var t4 := Pass([], t3, '|', "bar");
    Pass([], t4, '/', "or")
  }

  predicate AllClear(text: string) {
    Clear(text, '$') && Clear(text, '#') && Clear(text, '&') && Clear(text, '|') && Clear(text, '/')
  }

  /** After the five passes none of the five symbols stands alone, and a text in which none does is
      left as it is. */
  lemma SpelledOutIsClear(text: string)
    ensures AllClear(SpellOut(text))
    ensures AllClear(text) <==> SpellOut(text) == text
    ensures SpellOut(SpellOut(text)) == SpellOut(text)
  {
    FivePasses(text);
    FivePasses(SpellOut(text));
  }

  lemma WordsAreWords()
    ensures IsWord("dollar") && IsWord("pound") && IsWord("and") && IsWord("bar") && IsWord("or")
  {}

  lemma OnePass(text: string, symbol: char, word: string, other: char)
    requires IsPunct(symbol) && IsPunct(other) && IsWord(word)
    ensures Clear(text, other) ==> Clear(Pass([], text, symbol, word), other)
  {
    PassIsExact(text, symbol, word);
  }

  lemma FivePasses(text: string)
    ensures AllClear(SpellOut(text))
    ensures AllClear(text) ==> SpellOut(text) == text
  {
    WordsAreWords();
    var t1 := Pass([], text, '$', "dollar");
    assert Clear(t1, '$') && (Clear(text, '$') ==> t1 == text) by { PassIsExact(text, '$', "dollar"); }
    var t2 := Pass([], t1, '#', "pound");
    assert Clear(t2, '#') && (Clear(t1, '#') ==> t2 == t1) by { PassIsExact(t1, '#', "pound"); }
    OnePass(t1, '#', "pound", '$');
    var t3 := Pass([], t2, '&', "and");
    assert Clear(t3, '&') && (Clear(t2, '&') ==> t3 == t2) by { PassIsExact(t2, '&', "and"); }
    OnePass(t2, '&', "and", '$'); OnePass(t2, '&', "and", '#');
    var t4 := Pass([], t3, '|', "bar");
    assert Clear(t4, '|') && (Clear(t3, '|') ==> t4 == t3) by { PassIsExact(t3, '|', "bar"); }
    OnePass(t3, '|', "bar", '$'); OnePass(t3, '|', "bar", '#'); OnePass(t3, '|', "bar", '&');
    var t5 := Pass([], t4, '/', "or");
    assert Clear(t5, '/') && (Clear(t4, '/') ==> t5 == t4) by { PassIsExact(t4, '/', "or"); }
    OnePass(t4, '/', "or", '$'); OnePass(t4, '/', "or", '#');
    OnePass(t4, '/', "or", '&'); OnePass(t4, '/', "or", '|');
  }

  // Which occurrences are replaced

  /** The occurrence at `i` is replaced: it stands alone in the original text, and the pass has not made
      a word of an occurrence right before it. */
  predicate Replaced(text: string, i: nat, symbol: char)
    requires i < |text|
  {
    text[i] == symbol && IsolatedAt(text, i) && !(i > 0 && Replaced(text, i - 1, symbol))
  }

  /** The text from `k` on, with each replaced occurrence written as the word. */
  function Written(text: string, k: nat, symbol: char, word: string): string
    requires k <= |text|
    decreases |text| - k
  {
    if k == |text| then []
    else (if Replaced(text, k, symbol) then word else [text[k]]) + Written(text, k + 1, symbol, word)
  }

  /** `done` is what the pass has made of the first `k` characters: its last character separates exactly
      if that of the text does and has not been replaced. */
  predicate EndsAs(done: string, text: string, k: nat, symbol: char)
    requires k <= |text|
  {
    && (done == [] <==> k == 0)
    && (k > 0 ==>
          (Separates(done[|done| - 1]) <==> Separates(text[k - 1]) && !Replaced(text, k - 1, symbol)))
  }

  lemma SameNeighbours(done: string, text: string, k: nat, symbol: char)
    requires k < |text| && EndsAs(done, text, k, symbol)
    ensures IsolatedAt(done + text[k..], |done|)
            <==> IsolatedAt(text, k) && !(k > 0 && Replaced(text, k - 1, symbol))
  {
    var now := done + text[k..];
    assert k + 1 < |text| ==> now[|done| + 1] == text[k + 1];
    assert k > 0 ==> now[|done| - 1] == done[|done| - 1];
  }

  lemma {:induction false} PassIsWritten(done: string, text: string, k: nat, symbol: char, word: string)
    requires IsPunct(symbol) && IsWord(word) && k <= |text| && EndsAs(done, text, k, symbol)
    ensures Pass(done, text[k..], symbol, word) == done + Written(text, k, symbol, word)
    decreases |text| - k
  {
    if k == |text| {
      assert done + [] == done;
    } else {
      SameNeighbours(done, text, k, symbol);
      assert text[k..][0] == text[k] && text[k..][1..] == text[k + 1..];
      var piece := if Replaced(text, k, symbol) then word else [text[k]];
      Assoc(done, piece, Written(text, k + 1, symbol, word));
      assert (done + piece)[|done + piece| - 1] == piece[|piece| - 1];
      PassIsWritten(done + piece, text, k + 1, symbol, word);
    }
  }

  /** A pass writes the word for exactly those occurrences of its symbol that stand alone in the text and
      do not come right after a replaced one; of adjacent ones that is every second. */
  lemma PassReplacesExactly(text: string, symbol: char, word: string)
    requires IsPunct(symbol) && IsWord(word)
    ensures Pass([], text, symbol, word) == Written(text, 0, symbol, word)
  {
    PassIsWritten([], text, 0, symbol, word);
    assert text[0..] == text && [] + Written(text, 0, symbol, word) == Written(text, 0, symbol, word);
  }

  // Which word stands for which symbol

  predicate IsFive(c: char) {
    c == '$' || c == '#' || c == '&' || c == '|' || c == '/'
  }

  /** Of the five symbols, the one at `n` stands alone in the text, and no other does. */
  predicate AloneAt(text: string, n: nat) {
    && n < |text| && IsFive(text[n]) && IsolatedAt(text, n)
    && forall i :: 0 <= i < |text| && IsFive(text[i]) && i != n ==> !IsolatedAt(text, i)
  }

  lemma {:induction false} WrittenFrom(text: string, k: nat, n: nat, symbol: char, word: string)
    requires k <= n < |text| && Replaced(text, n, symbol)
    requires forall i :: 0 <= i < |text| && i != n ==> !Replaced(text, i, symbol)
    ensures Written(text, k, symbol, word) == text[k..n] + (word + text[n + 1..])
    decreases n - k
  {
    var tail := word + text[n + 1..];
    if k == n {
      WrittenRest(text, n + 1, symbol, word);
      assert text[n..n] + tail == tail;
    } else {
      WrittenFrom(text, k + 1, n, symbol, word);
      assert text[k..n] == [text[k]] + text[k + 1..n];
      Assoc([text[k]], text[k + 1..n], tail);
    }
  }

  lemma {:induction false} WrittenRest(text: string, k: nat, symbol: char, word: string)
    requires k <= |text| && forall i :: k <= i < |text| ==> !Replaced(text, i, symbol)
    ensures Written(text, k, symbol, word) == text[k..]
    decreases |text| - k
  {
    if k < |text| {
      WrittenRest(text, k + 1, symbol, word);
      assert text[k..] == [text[k]] + text[k + 1..];
    }
  }

  /** The pass of its own symbol writes the word for it, the others leave the text alone. */
  lemma PassAlone(text: string, n: nat, symbol: char, word: string)
    requires AloneAt(text, n) && IsFive(symbol) && IsWord(word)
    ensures Pass([], text, symbol, word)
         == if text[n] == symbol then text[..n] + word + text[n + 1..] else text
  {
    if text[n] == symbol {
      PassReplacesExactly(text, symbol, word);
      WrittenFrom(text, 0, n, symbol, word);
      assert text[0..n] == text[..n];
      Assoc(text[..n], word, text[n + 1..]);
    } else {
      assert [] + text == text;
      PassLeavesClear([], text, symbol, word);
    }
  }

  lemma NowAllClear(text: string, n: nat, word: string)
    requires AloneAt(text, n) && IsWord(word)
    ensures AllClear(text[..n] + word + text[n + 1..])
  {
    PassAlone(text, n, text[n], word);
    PassIsExact(text, text[n], word);
  }

  lemma PassClear(text: string, symbol: char, word: string)
    requires Clear(text, symbol)
    ensures Pass([], text, symbol, word) == text
  {
    assert [] + text == text;
    PassLeavesClear([], text, symbol, word);
  }

  /** A symbol that alone stands alone is spoken by its name: dollar, pound, and, bar, or. */
  lemma SymbolIsSpelledOut(left: string, symbol: char, right: string, word: string)
    requires AloneAt(left + [symbol] + right, |left|)
    requires || (symbol == '$' && word == "dollar")
             || (symbol == '#' && word == "pound")
             || (symbol == '&' && word == "and")
             || (symbol == '|' && word == "bar")
             || (symbol == '/' && word == "or")
    ensures SpellOut(left + [symbol] + right) == left + word + right
  {
    var text, spelled := left + [symbol] + right, left + word + right;
    WordsAreWords();
    assert text[|left|] == symbol && text[..|left|] == left && text[|left| + 1..] == right;
    NowAllClear(text, |left|, word);
    var t1 := if symbol == '$' then spelled else text;
    PassAlone(text, |left|, '$', "dollar");
    var t2 := if symbol == '#' then spelled else t1;
    if symbol == '$' { PassClear(spelled, '#', "pound"); } else { PassAlone(text, |left|, '#', "pound"); }
    var t3 := if symbol == '&' then spelled else t2;
    if t2 == spelled { PassClear(spelled, '&', "and"); } else { PassAlone(text, |left|, '&', "and"); }
    var t4 := if symbol == '|' then spelled else t3;
    if t3 == spelled { PassClear(spelled, '|', "bar"); } else { PassAlone(text, |left|, '|', "bar"); }
    if t4 == spelled { PassClear(spelled, '/', "or"); } else { PassAlone(text, |left|, '/', "or"); }
  }

  /** And in general: each symbol's word is written for its occurrences that stand alone and do not come
      right after a replaced one, symbol by symbol. */
  lemma SpelledOutIsWritten(text: string)
    ensures
      var dollars := Written(text, 0, '$', "dollar");
      var pounds := Written(dollars, 0, '#', "pound");
      var ands := Written(pounds, 0, '&', "and");
      var bars := Written(ands, 0, '|', "bar");
      SpellOut(text) == Written(bars, 0, '/', "or")
  {
    WordsAreWords();
    PassReplacesExactly(text, '$', "dollar");
    var dollars := Written(text, 0, '$', "dollar");
    PassReplacesExactly(dollars, '#', "pound");
    var pounds := Written(dollars, 0, '#', "pound");
    PassReplacesExactly(pounds, '&', "and");
    var ands := Written(pounds, 0, '&', "and");
    PassReplacesExactly(ands, '|', "bar");
    PassReplacesExactly(Written(ands, 0, '|', "bar"), '/', "or");
  }

  /** The blank, tab, line feed, vertical tab, form feed and carriage return are spaces. */
  lemma SpacesAreSix(c: char)
    ensures IsSpace(c) <==> c as int in [32, 9, 10, 11, 12, 13]
  {}

  /** Among the printing characters, punctuation is what is neither letter nor digit. */
  lemma PunctuationIsTheRest(c: char)
    ensures IsPunct(c)
            <==> '!' <= c <= '~' && !('0' <= c <= '9') && !('A' <= c <= 'Z') && !('a' <= c <= 'z')
  {}
}
