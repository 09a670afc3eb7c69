/** What the formatted reads take from any text at all, printed by this program or not. */
module Reading {
  import opened Text

  /** A character of white space in the C locale: blank, tab, line feed, vertical tab, form feed or return. */
  predicate White(c: char) {
    c as int in {32, 9, 10, 11, 12, 13}
  }

  predicate AllWhite(s: string) {
    forall i | 0 <= i < |s| :: White(s[i])
  }

  predicate AllDigits(s: string) {
    s != "" && forall i | 0 <= i < |s| :: '0' <= s[i] <= '9'
  }

  predicate SignedValue(sign: string, digits: string, n: int)
    requires AllDigits(digits)
  {
    if sign == "-" then n == -(ValueOf(digits) as int) else (sign == "" || sign == "+") && n == ValueOf(digits)
  }

  /** White space, at most one sign, and all the digits that follow, of value `n`; then `rest`. */
  ghost predicate Parses(s: string, blank: string, sign: string, digits: string, n: int, rest: string) {
    && s == blank + (sign + (digits + rest)) && AllWhite(blank) && AllDigits(digits)
    && (rest == "" || !('0' <= rest[0] <= '9'))
    && SignedValue(sign, digits, n)
  }

  ghost predicate Numeral(s: string, n: int, rest: string) {
    exists blank, sign, digits :: Parses(s, blank, sign, digits, n, rest)
  }

  lemma {:induction false} SkipSplits(s: string) returns (k: nat)
    ensures k <= |s| && AllWhite(s[..k]) && SkipSpace(s) == s[k..]
    ensures k < |s| ==> !White(s[k])
  {
    if s != "" && IsSpace(s[0]) {
      var m := SkipSplits(s[1..]);
      k := m + 1;
      forall i | 0 <= i < k
        ensures White(s[i])
      {
        assert i == 0 || s[i] == s[1..][..m][i - 1];
      }
      assert s[1..][m..] == s[k..];
    } else {
      k := 0;
    }
  }

  lemma {:induction false} SkipsWhite(blank: string, s: string)
    requires AllWhite(blank) && (s == "" || !White(s[0]))
    ensures SkipSpace(blank + s) == s
  {
    if blank == "" {
      assert blank + s == s;
    } else {
      assert (blank + s)[1..] == blank[1..] + s;
      SkipsWhite(blank[1..], s);
    }
  }

  lemma {:induction false} CountsAllDigits(s: string)
    ensures CountDigits(s) < |s| ==> !IsDigit(s[CountDigits(s)])
  {
    if s != "" && IsDigit(s[0]) {
      CountsAllDigits(s[1..]);
    }
  }

  /** A run of digits is read in full. */
  lemma ReadNatIff(s: string, n: nat, rest: string)
    ensures ReadNat(s) == Got(n, rest)
       <==> exists digits :: s == digits + rest && AllDigits(digits) && ValueOf(digits) == n
                             && (rest == "" || !IsDigit(rest[0]))
  {
    var k := CountDigits(s);
    DigitsAreDigits(s);
    CountsAllDigits(s);
    if ReadNat(s) == Got(n, rest) {
      assert s == s[..k] + rest && AllDigits(s[..k]);
    }
    if digits :| s == digits + rest && AllDigits(digits) && ValueOf(digits) == n && (rest == "" || !IsDigit(rest[0])) {
      CountDigitsUpTo(digits, rest);
      assert s[..|digits|] == digits && s[|digits|..] == rest;
    }
  }

  /** A number is read exactly if the text begins with a numeral, and is the value of that numeral. */
  lemma ReadNumberIff(s: string, n: int, rest: string)
    ensures ReadNumber(s) == Got(n, rest) <==> Numeral(s, n, rest)
  {
    if ReadNumber(s) == Got(n, rest) {
      NumberIsNumeral(s, n, rest);
    }
    if blank, sign, digits :| Parses(s, blank, sign, digits, n, rest) {
      NumeralIsNumber(s, blank, sign, digits, n, rest);
    }
  }

  /** The sign and the digits of a number that no white space precedes. */
  lemma SignAndDigits(t: string, n: int, rest: string) returns (sign: string, digits: string)
    requires SkipSpace(t) == t && ReadNumber(t) == Got(n, rest)
    ensures t == sign + (digits + rest) && AllDigits(digits) && (rest == "" || !IsDigit(rest[0]))
    ensures SignedValue(sign, digits, n)
  {
    hide ReadNat, ValueOf;
    var size := if n < 0 then -n else n;
    sign := if t != "" && (t[0] == '-' || t[0] == '+') then [t[0]] else "";
    var u := if sign == "" then t else t[1..];
    assert t == sign + u;
    ReadNatIff(u, size, rest);
    digits :| u == digits + rest && AllDigits(digits) && ValueOf(digits) == size && (rest == "" || !IsDigit(rest[0]));
  }

  lemma NumberIsNumeral(s: string, n: int, rest: string)
    requires ReadNumber(s) == Got(n, rest)
    ensures Numeral(s, n, rest)
  {
    var k := SkipSplits(s);
    var blank, t := s[..k], s[k..];
    NothingToSkip(t);
    hide ReadNumber, SignedValue, AllDigits, AllWhite;
    SameAfterSkip(s, t);
    var sign, digits := SignAndDigits(t, n, rest);
    assert s == blank + t;
    assert Parses(s, blank, sign, digits, n, rest);
  }

  lemma NothingToSkip(t: string)
    requires t == "" || !White(t[0])
    ensures SkipSpace(t) == t
  {
  }

  lemma SameAfterSkip(s: string, t: string)
    requires SkipSpace(s) == t && SkipSpace(t) == t
    ensures ReadNumber(s) == ReadNumber(t)
  {
  }

  lemma SignedIsNumber(t: string, sign: string, digits: string, n: int, rest: string)
    requires t == sign + (digits + rest) && AllDigits(digits) && (rest == "" || !IsDigit(rest[0]))
    requires SignedValue(sign, digits, n)
    ensures ReadNumber(t) == Got(n, rest) && !White(t[0])
  {
    hide ReadNat, ValueOf;
    var u := digits + rest;
    assert u[0] == digits[0] && t[0] == if sign == "" then digits[0] else sign[0];
    assert t[|sign|..] == u;
    ReadNatIff(u, ValueOf(digits), rest);
  }

  lemma NumeralIsNumber(s: string, blank: string, sign: string, digits: string, n: int, rest: string)
    requires Parses(s, blank, sign, digits, n, rest)
    ensures ReadNumber(s) == Got(n, rest)
  {
    hide ReadNumber, SkipSpace, SignedValue, AllDigits, AllWhite;
    var t := sign + (digits + rest);
    SignedIsNumber(t, sign, digits, n, rest);
    SkipsWhite(blank, t);
    NothingToSkip(t);
    SameAfterSkip(s, t);
  }

  /** Into an `int`: the numeral must be in range. */
  lemma ReadIntIff(s: string, n: int, rest: string)
    ensures ReadInt(s) == Got(n, rest) <==> Numeral(s, n, rest) && -0x8000_0000 <= n <= 0x7fff_ffff
  {
    ReadNumberIff(s, n, rest);
  }

  /** Into an unsigned type: a numeral in range, or a negative one that wraps around once. */
  lemma ReadUnsignedIff(s: string, modulus: nat, u: nat, rest: string)
    requires modulus > 0
    ensures ReadUnsigned(s, modulus) == Got(u, rest)
       <==> u < modulus && (Numeral(s, u, rest) || (u > 0 && Numeral(s, u - modulus, rest)))
  {
    ReadNumberIff(s, u, rest);
    ReadNumberIff(s, u - modulus, rest);
  }

  /** Into a `bool`: nothing but 0 and 1. */
  lemma ReadBoolIff(s: string, b: bool, rest: string)
    ensures ReadBool(s) == Got(b, rest) <==> Numeral(s, if b then 1 else 0, rest)
  {
    ReadNumberIff(s, if b then 1 else 0, rest);
  }

  lemma {:induction false} CountsWholeWord(s: string)
    ensures CountWord(s) < |s| ==> IsSpace(s[CountWord(s)])
  {
    if s != "" && !IsSpace(s[0]) {
      CountsWholeWord(s[1..]);
    }
  }

  /** White space, a word, and white space or the end after it. */
  ghost predicate Separate(s: string, blank: string, word: string, rest: string) {
    && s == blank + (word + rest) && AllWhite(blank)
    && word != "" && (forall i | 0 <= i < |word| :: !White(word[i]))
    && (rest == "" || White(rest[0]))
  }

  /** A word is what stands between white space, whatever its characters. */
  lemma ReadWordIff(s: string, word: string, rest: string)
    ensures ReadWord(s) == Got(word, rest) <==> exists blank :: Separate(s, blank, word, rest)
  {
    if ReadWord(s) == Got(word, rest) {
      WordIsSeparate(s, word, rest);
    }
    if blank :| Separate(s, blank, word, rest) {
      SeparateIsWord(s, blank, word, rest);
    }
  }

  lemma WordIsSeparate(s: string, word: string, rest: string)
    requires ReadWord(s) == Got(word, rest)
    ensures exists blank :: Separate(s, blank, word, rest)
  {
    var k := SkipSplits(s);
    CountsWholeWord(s[k..]);
    CountedAreNotSpace(s[k..]);
    assert s[k..] == word + rest;
    assert s == s[..k] + s[k..];
    assert Separate(s, s[..k], word, rest);
  }

  lemma SeparateIsWord(s: string, blank: string, word: string, rest: string)
    requires Separate(s, blank, word, rest)
    ensures ReadWord(s) == Got(word, rest)
  {
    assert (word + rest)[0] == word[0];
    SkipsWhite(blank, word + rest);
    CountWordUpTo(word, rest);
    assert (word + rest)[..|word|] == word && (word + rest)[|word|..] == rest;
  }
}
