/** The few Python built-ins on `str` and `int` that the game logic relies on:
    `str.isspace`, `str.lower`, `str.strip`, `str.split()` and `str(n)`. */
module PyText {

  datatype Option<+T> = None | Some(value: T)

  /** Python's `str.isspace` for one character: the ASCII blanks and
      separators plus the Unicode space separators. */
  predicate IsSpace(c: char) {
    var k := c as int;
    (0x09 <= k <= 0x0d) || (0x1c <= k <= 0x20) || k == 0x85 || k == 0xa0
    || k == 0x1680 || (0x2000 <= k <= 0x200a) || k == 0x2028 || k == 0x2029
    || k == 0x202f || k == 0x205f || k == 0x3000
  }

  predicate AllSpace(s: string) {
    forall i :: 0 <= i < |s| ==> IsSpace(s[i])
  }

  predicate IsUpper(c: char) { 'A' <= c <= 'Z' }

  function LowerChar(c: char): char {
    if IsUpper(c) then (c as int + 32) as char else c
  }

  /** `str.lower` on ASCII letters. */
  function Lower(s: string): (r: string)
    ensures |r| == |s|
    ensures forall i :: 0 <= i < |r| ==> !IsUpper(r[i])
    ensures forall i :: 0 <= i < |s| && !IsUpper(s[i]) ==> r[i] == s[i]
    ensures forall i :: 0 <= i < |s| && IsUpper(s[i]) ==> r[i] == Alphabet[s[i] as int - 'A' as int]
  {
    AlphabetIsAscii();
    seq(|s|, i requires 0 <= i < |s| => LowerChar(s[i]))
  }

  /** The lower-case letters in order, the table `str.lower` maps 'A'..'Z' onto. */
  const Alphabet := "abcdefghijklmnopqrstuvwxyz"

  lemma AlphabetIsAscii()
    ensures |Alphabet| == 26
    ensures forall k :: 0 <= k < 26 ==> Alphabet[k] as int == 'a' as int + k
  {
  }

  /** Drops the leading whitespace: what is left is a suffix of `s`. */
  function StripLeft(s: string): (r: string)
    ensures |r| <= |s| && r == s[|s| - |r|..]
    ensures AllSpace(s[..|s| - |r|])
    ensures r == [] || !IsSpace(r[0])
  {
    if s != [] && IsSpace(s[0]) then
      var r := StripLeft(s[1..]);
      assert s[..|s| - |r|] == [s[0]] + s[1..][..|s| - 1 - |r|];
      r
    else s
  }

  /** Drops the trailing whitespace: what is left is a prefix of `s`. */
  function StripRight(s: string): (r: string)
    ensures |r| <= |s| && r == s[..|r|]
    ensures AllSpace(s[|r|..])
    ensures r == [] || !IsSpace(r[|r| - 1])
  {
    if s != [] && IsSpace(s[|s| - 1]) then
      var r := StripRight(s[..|s| - 1]);
      assert s[|r|..] == s[..|s| - 1][|r|..] + [s[|s| - 1]];
      r
    else s
  }

  /** `str.strip()`: the part of `s` between its leading and trailing
      whitespace, which itself neither starts nor ends with whitespace. */
  function Strip(s: string): (r: string)
    ensures r == [] || (!IsSpace(r[0]) && !IsSpace(r[|r| - 1]))
    ensures |r| <= |s|
  {
    StripRight(StripLeft(s))
  }

  /** `Strip` removes exactly the whitespace around a word. */
  lemma {:induction false} StripAround(lead: string, w: string, trail: string)
    requires AllSpace(lead) && AllSpace(trail)
    requires w == [] || (!IsSpace(w[0]) && !IsSpace(w[|w| - 1]))
    ensures Strip(lead + w + trail) == w
  {
    var rest := w + trail;
    assert lead + w + trail == lead + rest;
    StripLeftPrefix(lead, rest);
    if w == [] {
      StripAllSpace(trail);
    } else {
      StripWordFirst(w, trail);
    }
  }

  /** A text that neither starts nor ends with whitespace is unchanged by
      `Strip`. */
  lemma StripWord(w: string)
    requires w == [] || (!IsSpace(w[0]) && !IsSpace(w[|w| - 1]))
    ensures Strip(w) == w
  {
    var none: string := [];
    assert none + w + none == w;
    StripAround(none, w, none);
  }

  lemma StripAllSpace(trail: string)
    requires AllSpace(trail)
    ensures StripRight(StripLeft([] + trail)) == []
  {
    assert [] + trail == trail + [];
    StripLeftPrefix(trail, []);
  }

  lemma StripWordFirst(w: string, trail: string)
    requires AllSpace(trail)
    requires w != [] && !IsSpace(w[0]) && !IsSpace(w[|w| - 1])
    ensures StripRight(StripLeft(w + trail)) == w
  {
    assert (w + trail)[0] == w[0];
    StripRightSuffix(w, trail);
  }

  lemma {:induction false} StripLeftPrefix(lead: string, s: string)
    requires AllSpace(lead)
    ensures StripLeft(lead + s) == StripLeft(s)
  {
    if lead != [] {
      assert (lead + s)[0] == lead[0];
      assert (lead + s)[1..] == lead[1..] + s;
      StripLeftPrefix(lead[1..], s);
    } else {
      assert lead + s == s;
    }
  }

  lemma {:induction false} StripRightSuffix(w: string, trail: string)
    requires AllSpace(trail)
    requires w == [] || !IsSpace(w[|w| - 1])
    ensures StripRight(w + trail) == w
  {
    if trail == [] {
      assert w + trail == w;
    } else {
      var shorter := trail[..|trail| - 1];
      assert (w + trail)[..|w + trail| - 1] == w + shorter;
      assert (w + trail)[|w + trail| - 1] == trail[|trail| - 1];
      StripRightSuffix(w, shorter);
    }
  }

  /** `str.split()` with no separator: the maximal runs of non-whitespace
      characters, in order. */
  function Split(s: string): (tokens: seq<string>)
    ensures forall t :: t in tokens ==> t != [] && NoSpace(t)
  {
    SplitFrom(s, [])
  }

  predicate NoSpace(t: string) {
    forall i :: 0 <= i < |t| ==> !IsSpace(t[i])
  }

  /** Splits `s`, where `word` is the token read so far. */
  function SplitFrom(s: string, word: string): (tokens: seq<string>)
    requires NoSpace(word)
    ensures forall t :: t in tokens ==> t != [] && NoSpace(t)
    decreases |s|
  {
    if s == [] then
      (if word == [] then [] else [word])
    else if IsSpace(s[0]) then
      (if word == [] then SplitFrom(s[1..], []) else [word] + SplitFrom(s[1..], []))
    else
      SplitFrom(s[1..], word + [s[0]])
  }

  /** Joining two texts with a space splits into the tokens of each. */
  lemma SplitJoin(a: string, b: string)
    ensures Split(a + " " + b) == Split(a) + Split(b)
  {
    SplitFromJoin(a, b, []);
  }

  lemma {:induction false} SplitFromJoin(a: string, b: string, word: string)
    requires NoSpace(word)
    ensures SplitFrom(a + " " + b, word) == SplitFrom(a, word) + SplitFrom(b, [])
    decreases |a|
  {
    var s := a + " " + b;
    if a == [] {
      assert s[0] == ' ' && s[1..] == b;
    } else {
      assert s[0] == a[0];
      assert s[1..] == a[1..] + " " + b;
      if IsSpace(a[0]) {
        SplitFromJoin(a[1..], b, []);
      } else {
        SplitFromJoin(a[1..], b, word + [a[0]]);
      }
    }
  }

  /** A single run of non-whitespace splits into itself. */
  lemma SplitWord(w: string)
    requires w != [] && NoSpace(w)
    ensures Split(w) == [w]
  {
    SplitFromWord(w, []);
    assert [] + w == w;
  }

  lemma {:induction false} SplitFromWord(s: string, word: string)
    requires NoSpace(word) && NoSpace(s) && word + s != []
    ensures SplitFrom(s, word) == [word + s]
    decreases |s|
  {
    if s == [] {
      assert word + s == word;
    } else {
      assert !IsSpace(s[0]);
      assert (word + [s[0]]) + s[1..] == word + s;
      SplitFromWord(s[1..], word + [s[0]]);
    }
  }

  /** `" ".join(tokens)`. */
  function JoinSpace(tokens: seq<string>): string {
    if |tokens| <= 1 then (if tokens == [] then "" else tokens[0])
    else tokens[0] + " " + JoinSpace(tokens[1..])
  }

  /** Joining words with single spaces and splitting again gives the words
      back. */
  lemma {:induction false} SplitJoinSpace(tokens: seq<string>)
    requires forall i :: 0 <= i < |tokens| ==> tokens[i] != [] && NoSpace(tokens[i])
    ensures Split(JoinSpace(tokens)) == tokens
  {
    if tokens == [] {
    } else if |tokens| == 1 {
      SplitWord(tokens[0]);
    } else {
      SplitWord(tokens[0]);
      SplitJoinSpace(tokens[1..]);
      SplitJoin(tokens[0], JoinSpace(tokens[1..]));
      assert [tokens[0]] + tokens[1..] == tokens;
    }
  }

  function DigitChar(d: int): char
    requires 0 <= d < 10
  {
    ('0' as int + d) as char
  }

  /** `str(n)` for a natural number: its decimal digits, without leading zeros. */
  function NatToString(n: nat): (s: string)
    ensures 1 <= |s|
    ensures |s| == 1 <==> n < 10
    ensures forall i :: 0 <= i < |s| ==> '0' <= s[i] <= '9'
    ensures s[|s| - 1] == DigitChar(n % 10)
    ensures DigitsValue(s) == n
    ensures s[0] == '0' <==> n == 0
    ensures |s| > 1 ==> s[0] != '0'
  {
    if n < 10 then [DigitChar(n)]
    else
      var init := NatToString(n / 10);
      assert (init + [DigitChar(n % 10)])[..|init|] == init;
      init + [DigitChar(n % 10)]
  }

  /** The number a string of decimal digits denotes, read left to right:
      each digit multiplies what was read so far by ten and adds itself. */
  function DigitsValue(s: string): int {
    if s == [] then 0 else DigitsValue(s[..|s| - 1]) * 10 + (s[|s| - 1] as int - '0' as int)
  }

  /** Different numbers have different decimal forms. */
  lemma {:induction false} NatToStringInjective(m: nat, n: nat)
    requires NatToString(m) == NatToString(n)
    ensures m == n
  {
    var s := NatToString(m);
    assert DigitChar(m % 10) == DigitChar(n % 10);
    if m >= 10 && n >= 10 {
      assert NatToString(m / 10) == s[..|s| - 1] == NatToString(n / 10);
      NatToStringInjective(m / 10, n / 10);
    }
  }
}
