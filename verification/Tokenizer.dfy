/** src/tokenizer.cpp: a token is a maximal run of ASCII letters and digits,
    lower-cased; every other character separates. */
module Tokenizer {

  predicate IsTokenChar(c: char) {
    'A' <= c <= 'Z' || 'a' <= c <= 'z' || '0' <= c <= '9'
  }

  function ToAsciiLower(c: char): char {
    if 'A' <= c <= 'Z' then (c as int + 32) as char else c
  }

  function Lower(s: string): (r: string)
    ensures |r| == |s|
    ensures forall i :: 0 <= i < |s| ==> r[i] == ToAsciiLower(s[i])
  {
    seq(|s|, i requires 0 <= i < |s| => ToAsciiLower(s[i]))
  }

  /** What a flush of the token being accumulated adds to the output. */
  function Flush(current: string): seq<string> {
    if current == "" then [] else [current]
  }

  /** The tokens still to come when `current` has been accumulated and `rest` is unread. */
  function TokensFrom(current: string, rest: string): seq<string>
    decreases |rest|
  {
    if rest == "" then Flush(current)
    else if IsTokenChar(rest[0]) then TokensFrom(current + [ToAsciiLower(rest[0])], rest[1..])
    else Flush(current) + TokensFrom("", rest[1..])
  }

  function Tokenize(input: string): seq<string> {
    TokensFrom("", input)
  }

  /** The single pass of the source. */
  method TokenizeLoop(input: string) returns (tokens: seq<string>)
    ensures tokens == Tokenize(input)
  {
    tokens := [];
    var current := "";
    for i := 0 to |input|
      invariant tokens + TokensFrom(current, input[i..]) == Tokenize(input)
    {
      var c := input[i];
      assert input[i..][1..] == input[i + 1..];
      if IsTokenChar(c) {
        current := current + [ToAsciiLower(c)];
      } else {
        assert tokens + (Flush(current) + TokensFrom("", input[i + 1..]))
            == tokens + Flush(current) + TokensFrom("", input[i + 1..]);
        if current != "" {
          tokens := tokens + [current];
          current := "";
        }
      }
    }
    if current != "" {
      tokens := tokens + [current];
    }
  }

  ghost predicate IsRun(s: string, lo: nat, hi: nat) {
    lo <= hi <= |s| && forall k :: lo <= k < hi ==> IsTokenChar(s[k])
  }

  /** s[lo..hi] cannot be extended on either side and is not empty. */
  ghost predicate IsMaximalRun(s: string, lo: nat, hi: nat) {
    && lo < hi
    && IsRun(s, lo, hi)
    && (lo == 0 || !IsTokenChar(s[lo - 1]))
    && (hi == |s| || !IsTokenChar(s[hi]))
  }

  /** Every listed interval is a maximal run at or after `from` and its token is that run. */
  ghost predicate RunsOf(tokens: seq<string>, bounds: seq<(nat, nat)>, s: string, from: nat) {
    && |bounds| == |tokens|
    && forall k :: 0 <= k < |bounds| ==>
         && from <= bounds[k].0
         && IsMaximalRun(s, bounds[k].0, bounds[k].1)
         && tokens[k] == Lower(s[bounds[k].0..bounds[k].1])
  }

  ghost predicate LeftToRight(bounds: seq<(nat, nat)>) {
    forall k, l :: 0 <= k < l < |bounds| ==> bounds[k].1 < bounds[l].0
  }

  ghost predicate AllRunsFrom(bounds: seq<(nat, nat)>, s: string, from: nat) {
    forall lo: nat, hi: nat :: from <= lo && IsMaximalRun(s, lo, hi) ==> (lo, hi) in bounds
  }

  /** `bounds` lists, left to right, all maximal runs of `s` that start at or after
      `from`, and `tokens` are those runs in lower case. */
  ghost predicate AreRuns(tokens: seq<string>, bounds: seq<(nat, nat)>, s: string, from: nat) {
    RunsOf(tokens, bounds, s, from) && LeftToRight(bounds) && AllRunsFrom(bounds, s, from)
  }

  /** The output is exactly the maximal runs of the input, in order. */
  lemma TokensAreMaximalRuns(s: string) returns (bounds: seq<(nat, nat)>)
    ensures AreRuns(Tokenize(s), bounds, s, 0)
  {
    bounds := RunsFrom(s, 0, 0);
    assert Lower(s[0..0]) == "" && s[0..] == s;
  }

  lemma {:induction false} RunsFrom(s: string, start: nat, p: nat) returns (bounds: seq<(nat, nat)>)
    requires start <= p <= |s| && IsRun(s, start, p)
    requires start == 0 || !IsTokenChar(s[start - 1])
    ensures AreRuns(TokensFrom(Lower(s[start..p]), s[p..]), bounds, s, start)
    decreases |s| - p
  {
    if p == |s| {
      bounds := if start < p then [(start, p)] else [];
      LastRun(s, start, bounds);
    } else if IsTokenChar(s[p]) {
      assert Lower(s[start..p + 1]) == Lower(s[start..p]) + [ToAsciiLower(s[p])];
      assert s[p..][1..] == s[p + 1..];
      bounds := RunsFrom(s, start, p + 1);
    } else {
      assert s[p..][1..] == s[p + 1..];
      assert Lower(s[p + 1..p + 1]) == "";
      var rest := RunsFrom(s, p + 1, p + 1);
      bounds := (if start < p then [(start, p)] else []) + rest;
      PrependRun(s, start, p, TokensFrom("", s[p + 1..]), rest, bounds);
    }
  }

  lemma LastRun(s: string, start: nat, bounds: seq<(nat, nat)>)
    requires start <= |s| && IsRun(s, start, |s|)
    requires start == 0 || !IsTokenChar(s[start - 1])
    requires bounds == if start < |s| then [(start, |s|)] else []
    ensures AreRuns(Flush(Lower(s[start..])), bounds, s, start)
  {
    forall lo: nat, hi: nat | start <= lo && IsMaximalRun(s, lo, hi) ensures (lo, hi) in bounds {
      RunCovers(s, start, |s|, lo, hi);
    }
  }

  /** A separator at p ends the run s[start..p]; what follows is `rest`. */
  lemma PrependRun(s: string, start: nat, p: nat, tokens: seq<string>,
                   rest: seq<(nat, nat)>, bounds: seq<(nat, nat)>)
    requires start <= p < |s| && IsRun(s, start, p) && !IsTokenChar(s[p])
    requires start == 0 || !IsTokenChar(s[start - 1])
    requires AreRuns(tokens, rest, s, p + 1)
    requires bounds == (if start < p then [(start, p)] else []) + rest
    ensures AreRuns(Flush(Lower(s[start..p])) + tokens, bounds, s, start)
  {
    PrependIsComplete(s, start, p, rest, bounds);
    if start < p {
      var token := Lower(s[start..p]);
      assert Flush(token) + tokens == [token] + tokens;
      ConsRun(token, tokens, s, start, p, rest);
    } else {
      assert bounds == rest && Flush(Lower(s[start..p])) + tokens == tokens;
    }
  }

  lemma ConsRun(token: string, tokens: seq<string>, s: string, start: nat, p: nat, rest: seq<(nat, nat)>)
    requires IsMaximalRun(s, start, p) && token == Lower(s[start..p])
    requires RunsOf(tokens, rest, s, p + 1) && LeftToRight(rest)
    ensures RunsOf([token] + tokens, [(start, p)] + rest, s, start) && LeftToRight([(start, p)] + rest)
  {
    var all, bounds := [token] + tokens, [(start, p)] + rest;
    forall k | 1 <= k < |bounds| ensures bounds[k] == rest[k - 1] && all[k] == tokens[k - 1] && p < bounds[k].0 {
    }
  }

  lemma PrependIsComplete(s: string, start: nat, p: nat, rest: seq<(nat, nat)>, bounds: seq<(nat, nat)>)
    requires start <= p < |s| && IsRun(s, start, p) && !IsTokenChar(s[p])
    requires AllRunsFrom(rest, s, p + 1)
    requires bounds == (if start < p then [(start, p)] else []) + rest
    ensures AllRunsFrom(bounds, s, start)
  {
    forall lo: nat, hi: nat | start <= lo && IsMaximalRun(s, lo, hi) ensures (lo, hi) in bounds {
      if lo <= p {
        RunCovers(s, start, p, lo, hi);
        assert bounds[0] == (lo, hi);
      } else {
        assert (lo, hi) in rest;
      }
    }
  }

  /** Within a run that ends at p, the only maximal run starting at or after its
      start and not after p is the run itself. */
  lemma RunCovers(s: string, start: nat, p: nat, lo: nat, hi: nat)
    requires start <= lo <= p <= |s| && IsRun(s, start, p) && IsMaximalRun(s, lo, hi)
    requires p == |s| || !IsTokenChar(s[p])
    ensures start < p && lo == start && hi == p
  {
    var before := lo > 0 && IsTokenChar(s[lo - 1]);
    var atEnd := hi < |s| && IsTokenChar(s[hi]);
    var afterRun := p < |s| && IsTokenChar(s[p]);
  }

  /** A separator splits the work: tokenizing is a homomorphism on separated text. */
  lemma {:induction false} SeparatorSplits(current: string, a: string, sep: char, b: string)
    requires !IsTokenChar(sep)
    ensures TokensFrom(current, a + [sep] + b) == TokensFrom(current, a) + Tokenize(b)
    decreases |a|
  {
    var whole := a + [sep] + b;
    if a == "" {
      assert whole == [sep] + b && whole[1..] == b;
    } else {
      assert whole[0] == a[0] && whole[1..] == a[1..] + [sep] + b;
      if IsTokenChar(a[0]) {
        SeparatorSplits(current + [ToAsciiLower(a[0])], a[1..], sep, b);
      } else {
        SeparatorSplits("", a[1..], sep, b);
      }
    }
  }

  // ---------------------------------------------------------------------------
  // Case
  // ---------------------------------------------------------------------------

  const DIGITS := "0123456789"
  const UPPER := "ABCDEFGHIJKLMNOPQRSTUVWXYZ"
  const LOWER := "abcdefghijklmnopqrstuvwxyz"

  /** The same letter or digit, whatever its case. */
  predicate SameLetter(c: char, d: char) {
    || (c == d && IsTokenChar(c))
    || ('A' <= c <= 'Z' && 'a' <= d <= 'z' && c as int - 'A' as int == d as int - 'a' as int)
    || ('A' <= d <= 'Z' && 'a' <= c <= 'z' && d as int - 'A' as int == c as int - 'a' as int)
  }

  ghost predicate SameLetters(s: string, t: string) {
    |s| == |t| && forall i :: 0 <= i < |s| ==> SameLetter(s[i], t[i])
  }

  lemma TokenCharsAre(c: char)
    ensures IsTokenChar(c) <==> c in DIGITS || c in LOWER || c in UPPER
  {
    InDigits(c);
    InLower(c);
    InUpper(c);
  }

  lemma InDigits(c: char)
    ensures c in DIGITS <==> '0' <= c <= '9'
  {
    assert forall i :: 0 <= i < 10 ==> DIGITS[i] as int == '0' as int + i;
    if '0' <= c <= '9' { assert DIGITS[c as int - '0' as int] == c; }
  }

  lemma InLower(c: char)
    ensures c in LOWER <==> 'a' <= c <= 'z'
  {
    assert forall i :: 0 <= i < 26 ==> LOWER[i] as int == 'a' as int + i;
    if 'a' <= c <= 'z' { assert LOWER[c as int - 'a' as int] == c; }
  }

  lemma InUpper(c: char)
    ensures c in UPPER <==> 'A' <= c <= 'Z'
  {
    assert forall i :: 0 <= i < 26 ==> UPPER[i] as int == 'A' as int + i;
    if 'A' <= c <= 'Z' { assert UPPER[c as int - 'A' as int] == c; }
  }

  /** Lowering a token character gives the same letter or digit, which is no capital. */
  lemma LoweredIsSameLetter(c: char)
    requires IsTokenChar(c)
    ensures var l := ToAsciiLower(c); SameLetter(c, l) && IsTokenChar(l) && !('A' <= l <= 'Z')
  {
  }

  lemma SameLetterSameLower(c: char, d: char)
    requires IsTokenChar(c) && IsTokenChar(d)
    ensures SameLetter(c, d) <==> ToAsciiLower(c) == ToAsciiLower(d)
  {
  }

  lemma LowerHead(s: string)
    requires s != ""
    ensures Lower(s) == [ToAsciiLower(s[0])] + Lower(s[1..])
  {
  }

  lemma {:induction false} LetterRun(current: string, s: string)
    requires IsRun(s, 0, |s|)
    ensures TokensFrom(current, s) == Flush(current + Lower(s))
    decreases |s|
  {
    if s != "" {
      assert IsRun(s[1..], 0, |s| - 1);
      LetterRun(current + [ToAsciiLower(s[0])], s[1..]);
      LowerHead(s);
      assert current + ([ToAsciiLower(s[0])] + Lower(s[1..])) == current + [ToAsciiLower(s[0])] + Lower(s[1..]);
    } else {
      assert current + Lower(s) == current;
    }
  }

  /** Two words have the same tokens exactly when they are the same letters and digits in
      any case. */
  lemma CaseIsIgnored(s: string, t: string)
    requires IsRun(s, 0, |s|) && IsRun(t, 0, |t|)
    ensures Tokenize(s) == Tokenize(t) <==> SameLetters(s, t)
  {
    LetterRun("", s);
    LetterRun("", t);
    assert "" + Lower(s) == Lower(s) && "" + Lower(t) == Lower(t);
    assert Tokenize(s) == Tokenize(t) ==> Lower(s) == Lower(t) by {
      if s != "" && t != "" { assert Tokenize(s)[0] == Lower(s) && Tokenize(t)[0] == Lower(t); }
    }
    assert SameLetters(s, t) <==> Lower(s) == Lower(t) by {
      if |s| == |t| {
        forall i | 0 <= i < |s| ensures SameLetter(s[i], t[i]) <==> Lower(s)[i] == Lower(t)[i] {
          SameLetterSameLower(s[i], t[i]);
        }
      }
    }
  }

  /** A word's token is the word without capitals, and is its own token. */
  lemma WordIsItsToken(s: string)
    requires s != "" && IsRun(s, 0, |s|)
    ensures Tokenize(s) == [Lower(s)] && SameLetters(s, Lower(s))
    ensures forall i :: 0 <= i < |s| ==> !('A' <= Lower(s)[i] <= 'Z')
    ensures Tokenize(Lower(s)) == [Lower(s)]
  {
    forall i | 0 <= i < |s|
      ensures SameLetter(s[i], Lower(s)[i]) && IsTokenChar(Lower(s)[i]) && !('A' <= Lower(s)[i] <= 'Z')
    {
      LoweredIsSameLetter(s[i]);
    }
    LetterRun("", s);
    LetterRun("", Lower(s));
    assert Lower(Lower(s)) == Lower(s) && "" + Lower(s) == Lower(s);
  }

  predicate IsBlankChar(c: char) {
    c == ' ' || c == '\t' || c == '\n' || c == '\r'
  }

  /** Strip characters of one kind at both ends. */
  function Strip(s: string, blank: char -> bool): string {
    if s == "" then ""
    else if blank(s[0]) then Strip(s[1..], blank)
    else if blank(s[|s| - 1]) then Strip(s[..|s| - 1], blank)
    else s
  }

  /** What is cut off at either end is all of that kind, and no more could be cut. */
  lemma {:induction false} StripCuts(s: string, blank: char -> bool) returns (lo: nat, hi: nat)
    ensures lo <= hi <= |s| && Strip(s, blank) == s[lo..hi]
    ensures forall i :: 0 <= i < lo || hi <= i < |s| ==> blank(s[i])
    ensures lo < hi ==> !blank(s[lo]) && !blank(s[hi - 1])
    decreases |s|
  {
    if s == "" {
      lo, hi := 0, 0;
    } else if blank(s[0]) {
      lo, hi := StripCuts(s[1..], blank);
      assert s[1..][lo..hi] == s[lo + 1..hi + 1];
      assert forall i :: 1 <= i < |s| ==> s[i] == s[1..][i - 1];
      lo, hi := lo + 1, hi + 1;
    } else if blank(s[|s| - 1]) {
      lo, hi := StripCuts(s[..|s| - 1], blank);
      assert s[..|s| - 1][lo..hi] == s[lo..hi];
    } else {
      lo, hi := 0, |s|;
      assert s[0..|s|] == s;
    }
  }

  /** Nothing is left exactly of text that is all blank. */
  lemma BlankIff(s: string)
    ensures Trim(s) == "" <==> forall i :: 0 <= i < |s| ==> IsBlankChar(s[i])
  {
    var lo, hi := StripCuts(s, IsBlankChar);
  }

  /** src/search_service.cpp:24-32: strip blanks at both ends. */
  function Trim(s: string): string {
    Strip(s, IsBlankChar)
  }

  /** The single-index service tokenizes the trimmed query and the coordinator the
      raw one; they see the same terms. */
  lemma {:induction false} TrimKeepsTokens(s: string)
    ensures Tokenize(Trim(s)) == Tokenize(s)
    decreases |s|
  {
    if s == "" {
    } else if IsBlankChar(s[0]) {
      TrimKeepsTokens(s[1..]);
      assert s == "" + [s[0]] + s[1..];
      SeparatorSplits("", "", s[0], s[1..]);
    } else if IsBlankChar(s[|s| - 1]) {
      var init, last := s[..|s| - 1], s[|s| - 1];
      TrimKeepsTokens(init);
      assert s == init + [last] + "";
      SeparatorSplits("", init, last, "");
    }
  }

  /** A document with no token character has no tokens and conversely. */
  lemma NoTokensIff(s: string)
    ensures Tokenize(s) == [] <==> forall k :: 0 <= k < |s| ==> !IsTokenChar(s[k])
  {
    NoTokensFrom("", s);
  }

  lemma {:induction false} NoTokensFrom(current: string, s: string)
    ensures TokensFrom(current, s) == [] <==>
            current == "" && forall k :: 0 <= k < |s| ==> !IsTokenChar(s[k])
    decreases |s|
  {
    if s != "" {
      if IsTokenChar(s[0]) {
        NoTokensFrom(current + [ToAsciiLower(s[0])], s[1..]);
      } else {
        NoTokensFrom("", s[1..]);
        assert forall k :: 0 < k < |s| ==> s[k] == s[1..][k - 1];
      }
    }
  }
}
