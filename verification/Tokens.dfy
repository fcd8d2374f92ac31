/** Joining and splitting texts at a delimiter. */
module Tokens {
  import opened Sequences

  predicate Free(s: string, delim: char) {
    forall i :: 0 <= i < |s| ==> s[i] != delim
  }

  /** The place of the first delimiter, or the length. */
  function Index(s: string, delim: char): (i: nat)
    ensures i <= |s|
  {
    if s == [] || s[0] == delim then 0 else 1 + Index(s[1..], delim)
  }

  lemma {:induction false} IndexFinds(s: string, delim: char)
    ensures
      var i := Index(s, delim);
      Free(s[..i], delim) && (i < |s| ==> s[i] == delim)
  {
    if s != [] && s[0] != delim {
      IndexFinds(s[1..], delim);
      var i := Index(s, delim);
      assert s[..i] == [s[0]] + s[1..][..i - 1];
    }
  }

  /** An empty last piece is dropped. */
  function Split(s: string, delim: char): seq<string>
    decreases |s|
  {
    if s == [] then []
    else
      var i := Index(s, delim);
      if i == |s| then [s] else [s[..i]] + Split(s[i + 1..], delim)
  }

  function Join(tokens: seq<string>, delim: char): string {
    if tokens == [] then []
    else if |tokens| == 1 then tokens[0]
    else tokens[0] + [delim] + Join(tokens[1..], delim)
  }

  predicate AllFree(tokens: seq<string>, delim: char) {
    forall k :: 0 <= k < |tokens| ==> Free(tokens[k], delim)
  }

  lemma {:induction false} IndexIs(s: string, delim: char, i: nat)
    requires i <= |s| && Free(s[..i], delim) && (i < |s| ==> s[i] == delim)
    ensures Index(s, delim) == i
  {
    if i > 0 {
      assert s[0] == s[..i][0] && s[1..][..i - 1] == s[..i][1..];
      IndexIs(s[1..], delim, i - 1);
    }
  }

  lemma SplitStep(token: string, rest: string, delim: char)
    requires Free(token, delim)
    ensures Split(token + [delim] + rest, delim) == [token] + Split(rest, delim)
  {
    var s := token + [delim] + rest;
    assert s[..|token|] == token && s[|token|] == delim && s[|token| + 1..] == rest;
    IndexIs(s, delim, |token|);
  }

  lemma SplitOne(token: string, delim: char)
    requires Free(token, delim)
    ensures Split(token, delim) == if token == [] then [] else [token]
  {
    assert token[..|token|] == token;
    IndexIs(token, delim, |token|);
  }

  /** Splitting undoes joining exactly when the last piece is not empty. */
  lemma {:induction false} SplitOfJoin(tokens: seq<string>, delim: char)
    requires tokens != [] && AllFree(tokens, delim)
    ensures
      var last := |tokens| - 1;
      Split(Join(tokens, delim), delim) == if tokens[last] == [] then tokens[..last] else tokens
  {
    if |tokens| == 1 {
      SplitOne(tokens[0], delim);
      assert tokens == [tokens[0]] && tokens[..0] == [];
    } else {
      var tail := tokens[1..];
      assert AllFree(tail, delim);
      SplitOfJoin(tail, delim);
      SplitStep(tokens[0], Join(tail, delim), delim);
      assert Split(Join(tokens, delim), delim) == [tokens[0]] + Split(Join(tail, delim), delim);
      HeadAndTail(tokens);
    }
  }

  lemma JoinCons(token: string, tokens: seq<string>, delim: char)
    ensures Join([token] + tokens, delim)
         == if tokens == [] then token else token + [delim] + Join(tokens, delim)
  {}

  lemma DropLast(a: string, delim: char, b: string)
    ensures b != [] ==> (a + [delim] + b)[..|a + [delim] + b| - 1] == a + [delim] + b[..|b| - 1]
    ensures (a + [delim])[..|a|] == a && a + [delim] + [] == a + [delim]
  {}

  /** Joining undoes splitting, but for a delimiter at the end. */
  lemma {:induction false} JoinOfSplit(s: string, delim: char)
    ensures
      Join(Split(s, delim), delim)
      == if s != [] && s[|s| - 1] == delim then s[..|s| - 1] else s
    decreases |s|
  {
    if s != [] {
      var i := Index(s, delim);
      IndexFinds(s, delim);
      if i < |s| {
        var piece, rest := s[..i], s[i + 1..];
        assert s == piece + [delim] + rest;
        assert rest != [] ==> s[|s| - 1] == rest[|rest| - 1];
        JoinOfSplit(rest, delim);
        JoinCons(piece, Split(rest, delim), delim);
        DropLast(piece, delim, rest);
      }
    }
  }

  function Count(s: string, delim: char): nat {
    if s == [] then 0 else (if s[0] == delim then 1 else 0) + Count(s[1..], delim)
  }

  lemma {:induction false} CountAppend(a: string, b: string, delim: char)
    ensures Count(a + b, delim) == Count(a, delim) + Count(b, delim)
  {
    if a == [] {
      assert a + b == b;
    } else {
      assert (a + b)[1..] == a[1..] + b;
      CountAppend(a[1..], b, delim);
    }
  }

  lemma {:induction false} FreeIffNone(s: string, delim: char)
    ensures Free(s, delim) <==> Count(s, delim) == 0
  {
    if s != [] {
      FreeIffNone(s[1..], delim);
      assert forall i :: 0 < i < |s| ==> s[i] == s[1..][i - 1];
    }
  }

  /** One piece more than delimiters, unless a delimiter comes last. */
  lemma {:induction false} SplitCounts(s: string, delim: char)
    requires s != [] && s[|s| - 1] != delim
    ensures |Split(s, delim)| == Count(s, delim) + 1
    decreases |s|
  {
    var i := Index(s, delim);
    IndexFinds(s, delim);
    var piece, rest := s[..i], s[i..];
    assert s == piece + rest;
    CountAppend(piece, rest, delim);
    FreeIffNone(piece, delim);
    if rest != [] {
      assert rest[0] == delim && rest[1..] == s[i + 1..];
      assert Count(rest, delim) == 1 + Count(rest[1..], delim);
      assert rest[1..] != [] && rest[1..][|rest| - 2] == s[|s| - 1];
      SplitCounts(rest[1..], delim);
      assert Split(s, delim) == [piece] + Split(rest[1..], delim);
    } else {
      assert Split(s, delim) == [s];
    }
  }

  /** The loop as it is. */
  method SplitLoop(str: string, delim: char) returns (tokens: seq<string>)
    ensures tokens == Split(str, delim)
  {
    var prevPos, pos: nat := 0, 0;
    tokens := [];
    ghost var rest := str;
    while true
      invariant prevPos == pos <= |str| && rest == str[pos..]
      invariant tokens + Split(rest, delim) == Split(str, delim)
      decreases |rest|
    {
      var found := pos + Index(str[pos..], delim);
      if found == |str| {
        break;
      }
      assert rest[..found - pos] == str[prevPos..found] && rest[found - pos + 1..] == str[found + 1..];
      Assoc(tokens, [str[prevPos..found]], Split(str[found + 1..], delim));
      tokens := tokens + [str[prevPos..found]];
      pos := found + 1;
      prevPos := pos;
      rest := str[pos..];
    }
    if prevPos < |str| {
      assert Split(rest, delim) == [rest];
      tokens := tokens + [str[prevPos..]];
    } else {
      assert rest == [] && tokens + [] == tokens;
    }
  }

  // strtok: empty pieces are skipped

  function NonEmpty(tokens: seq<string>): seq<string> {
    if tokens == [] then []
    else (if tokens[0] == [] then [] else [tokens[0]]) + NonEmpty(tokens[1..])
  }
}
