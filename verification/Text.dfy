/** Text as the program reads it: decimal numbers, case, white space and substrings (ASCII only). */
module Text {

  function Digit(d: nat): char
    requires d < 10
  {
    '0' + d as char
  }

  /** `n` in decimal, padded with zeros to `width` digits, and never cut when it is longer. */
  function Padded(n: nat, width: nat): string {
    if n < 10 && width <= 1 then [Digit(n)]
    else Padded(n / 10, if width == 0 then 0 else width - 1) + [Digit(n % 10)]
  }

  function Decimal(n: nat): string {
    Padded(n, 1)
  }

  predicate IsDigit(c: char) {
    '0' <= c <= '9'
  }

  function ValueOf(s: string): nat
    requires forall c | c in s :: IsDigit(c)
  {
    if s == [] then 0
    else
      var last := s[|s| - 1];
      assert IsDigit(last);
      10 * ValueOf(s[..|s| - 1]) + (last as int - '0' as int)
  }

  /** Reading a number back gives the number, so no two numbers are written alike. */
  lemma {:induction false} PaddedReadsBack(n: nat, width: nat)
    ensures Padded(n, width) != [] && forall c | c in Padded(n, width) :: IsDigit(c)
    ensures ValueOf(Padded(n, width)) == n
  {
    var s := Padded(n, width);
    if n < 10 && width <= 1 {
      assert s[..0] == [];
    } else {
      var rest := Padded(n / 10, if width == 0 then 0 else width - 1);
      PaddedReadsBack(n / 10, if width == 0 then 0 else width - 1);
      assert s[..|s| - 1] == rest;
    }
  }

  /** How many digits a text ends with. */
  function TrailingDigits(s: string): nat {
    if s == [] || !IsDigit(s[|s| - 1]) then 0 else 1 + TrailingDigits(s[..|s| - 1])
  }

  lemma {:induction false} TrailingDigitsOf(s: string, digits: string)
    requires forall c | c in digits :: IsDigit(c)
    requires s == [] || !IsDigit(s[|s| - 1])
    ensures TrailingDigits(s + digits) == |digits|
  {
    var all := s + digits;
    if digits == [] {
      assert all == s;
    } else {
      assert all[..|all| - 1] == s + digits[..|digits| - 1];
      TrailingDigitsOf(s, digits[..|digits| - 1]);
    }
  }

  /** A number written after text that does not end in a digit can be read off again. */
  lemma NumberedApart(a: string, n: nat, b: string, m: nat)
    requires a == [] || !IsDigit(a[|a| - 1])
    requires b == [] || !IsDigit(b[|b| - 1])
    requires a + Decimal(n) == b + Decimal(m)
    ensures a == b && n == m
  {
    PaddedReadsBack(n, 1);
    PaddedReadsBack(m, 1);
    TrailingDigitsOf(a, Decimal(n));
    TrailingDigitsOf(b, Decimal(m));
    var whole := a + Decimal(n);
    assert whole[|whole| - |Decimal(n)|..] == Decimal(n);
    assert (b + Decimal(m))[|whole| - |Decimal(m)|..] == Decimal(m);
    assert whole[..|whole| - |Decimal(n)|] == a;
    assert (b + Decimal(m))[..|whole| - |Decimal(m)|] == b;
  }

  function LowerChar(c: char): char {
    if 'A' <= c <= 'Z' then c - 'A' + 'a' else c
  }

  function Lower(s: string): (r: string)
    ensures |r| == |s| && forall i :: 0 <= i < |s| ==> r[i] == LowerChar(s[i])
  {
    seq(|s|, i requires 0 <= i < |s| => LowerChar(s[i]))
  }

  predicate IsSpace(c: char) {
    c == ' ' || '\t' <= c <= '\r'
  }

  function StripLeft(s: string): string {
    if s != [] && IsSpace(s[0]) then StripLeft(s[1..]) else s
  }

  function StripRight(s: string): string {
    if s != [] && IsSpace(s[|s| - 1]) then StripRight(s[..|s| - 1]) else s
  }

  function Strip(s: string): string {
    StripRight(StripLeft(s))
  }

  /** The word occurs in the text. */
  predicate Contains(s: string, word: string) {
    |word| <= |s| && (s[..|word|] == word || (s != [] && Contains(s[1..], word)))
  }

  lemma {:induction false} ContainsAt(s: string, word: string, i: nat)
    requires i + |word| <= |s| && s[i..i + |word|] == word
    ensures Contains(s, word)
  {
    if i > 0 {
      assert s[1..][i - 1..i - 1 + |word|] == word;
      ContainsAt(s[1..], word, i - 1);
    }
  }

  lemma {:induction false} ContainsWhere(s: string, word: string) returns (i: nat)
    requires Contains(s, word)
    ensures i + |word| <= |s| && s[i..i + |word|] == word
  {
    if s[..|word|] == word {
      i := 0;
    } else {
      var j := ContainsWhere(s[1..], word);
      i := j + 1;
      assert s[i..i + |word|] == s[1..][j..j + |word|];
    }
  }

  /** A word without white space survives stripping the text around it. */
  lemma {:induction false} ContainsStripLeft(s: string, word: string)
    requires Contains(s, word) && word != [] && !IsSpace(word[0])
    ensures Contains(StripLeft(s), word)
  {
    if IsSpace(s[0]) {
      ContainsStripLeft(s[1..], word);
    }
  }

  lemma {:induction false} ContainsStripRight(s: string, word: string)
    requires Contains(s, word) && word != [] && !IsSpace(word[|word| - 1])
    ensures Contains(StripRight(s), word)
  {
    if IsSpace(s[|s| - 1]) {
      var i := ContainsWhere(s, word);
      assert s[i + |word| - 1] == word[|word| - 1];
      assert s[..|s| - 1][i..i + |word|] == word;
      ContainsAt(s[..|s| - 1], word, i);
      ContainsStripRight(s[..|s| - 1], word);
    }
  }

  lemma {:induction false} LowerStripLeft(s: string)
    ensures StripLeft(Lower(s)) == Lower(StripLeft(s))
  {
    if s != [] && IsSpace(s[0]) {
      assert Lower(s)[1..] == Lower(s[1..]);
      LowerStripLeft(s[1..]);
    }
  }

  lemma {:induction false} LowerStripRight(s: string)
    ensures StripRight(Lower(s)) == Lower(StripRight(s))
  {
    if s != [] && IsSpace(s[|s| - 1]) {
      assert Lower(s)[..|s| - 1] == Lower(s[..|s| - 1]);
      LowerStripRight(s[..|s| - 1]);
    }
  }

  /** What a lower-cased text contains, it contains stripped as well. */
  lemma ContainsStripped(s: string, word: string)
    requires Contains(Lower(s), word) && word != [] && !IsSpace(word[0]) && !IsSpace(word[|word| - 1])
    ensures Contains(Lower(Strip(s)), word)
  {
    LowerStripLeft(s);
    LowerStripRight(StripLeft(s));
    ContainsStripLeft(Lower(s), word);
    ContainsStripRight(StripLeft(Lower(s)), word);
  }
}
