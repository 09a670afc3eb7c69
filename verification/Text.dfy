/** Formatted text as the standard streams write and read it: numbers and words between white space. */
module Text {

  datatype Read<+T> = Bad | Got(value: T, rest: string) {
    predicate IsFailure() {
      Bad?
    }

    function PropagateFailure<U>(): Read<U>
      requires Bad?
    {
      Bad
    }

    function Extract(): (T, string)
      requires Got?
    {
      (value, rest)
    }
  }

  predicate IsSpace(c: char) {
    c == ' ' || '\t' <= c <= '\r'
  }

  predicate IsDigit(c: char) {
    '0' <= c <= '9'
  }

  /** What may follow a token: nothing, or white space. */
  predicate Stops(rest: string) {
    rest == "" || IsSpace(rest[0])
  }

  function SkipSpace(s: string): string {
    if s != "" && IsSpace(s[0]) then SkipSpace(s[1..]) else s
  }

  // ---- Writing numbers ---------------------------------------------------

  function Digit(n: nat): char
    requires n < 10
  {
    (n as char) + '0'
  }

  function PrintNat(n: nat): (s: string)
    ensures s != "" && forall i | 0 <= i < |s| :: IsDigit(s[i])
  {
    if n < 10 then [Digit(n)] else PrintNat(n / 10) + [Digit(n % 10)]
  }

  function PrintInt(n: int): string {
    if n < 0 then "-" + PrintNat(-n) else PrintNat(n)
  }

  // ---- Reading numbers -----------------------------------------------------

  function CountDigits(s: string): (n: nat)
    ensures n <= |s|
  {
    if s != "" && IsDigit(s[0]) then 1 + CountDigits(s[1..]) else 0
  }

  function ValueOf(digits: string): nat
    requires forall i | 0 <= i < |digits| :: IsDigit(digits[i])
  {
    if digits == "" then 0
    else
      var front, last := digits[..|digits| - 1], digits[|digits| - 1];
      assert IsDigit(last);
      10 * ValueOf(front) + (last - '0') as nat
  }

  lemma {:induction false} DigitsAreDigits(s: string)
    ensures forall i | 0 <= i < CountDigits(s) :: IsDigit(s[i])
  {
    if s != "" && IsDigit(s[0]) {
      DigitsAreDigits(s[1..]);
      forall i | 0 <= i < CountDigits(s)
        ensures IsDigit(s[i])
      {
        assert i == 0 || s[i] == s[1..][i - 1];
      }
    }
  }

  /** The longest run of digits, without a sign. */
  function ReadNat(s: string): Read<nat> {
    var n := CountDigits(s);
    DigitsAreDigits(s);
    if n == 0 then Bad else Got(ValueOf(s[..n]), s[n..])
  }

  /** White space, an optional sign, digits. */
  function ReadNumber(s: string): Read<int> {
    var t := SkipSpace(s);
    if t != "" && t[0] == '-' then
      var (n, rest) :- ReadNat(t[1..]);
      Got(-(n as int), rest)
    else if t != "" && t[0] == '+' then
      var (n, rest) :- ReadNat(t[1..]);
      Got(n, rest)
    else
      var (n, rest) :- ReadNat(t);
      Got(n, rest)
  }

  const TWO_31 := 0x8000_0000
  const TWO_32 := 0x1_0000_0000
  const TWO_64 := 0x1_0000_0000_0000_0000

  predicate IsInt32(n: int) {
    -TWO_31 <= n < TWO_31
  }

  /** static_cast<unsigned int>: modulo 2^32. */
  function AsUnsigned(n: int): nat {
    n % TWO_32
  }

  /** static_cast<int> of a 32-bit unsigned. */
  function AsInt32(u: nat): int {
    if u < TWO_31 then u else u - TWO_32
  }

  /** `is >> int`: out of range is a failed read. */
  function ReadInt(s: string): Read<int> {
    var (n, rest) :- ReadNumber(s);
    if IsInt32(n) then Got(n, rest) else Bad
  }

  /** `is >> unsigned`: a minus sign wraps the value around instead of failing. */
  function ReadUnsigned(s: string, modulus: nat): Read<nat>
    requires modulus > 0
  {
    var (n, rest) :- ReadNumber(s);
    if -(modulus as int) < n < 0 then Got(n + modulus, rest)
    else if 0 <= n < modulus then Got(n, rest)
    else Bad
  }

  /** `is >> bool` takes 0 and 1 only. */
  function ReadBool(s: string): Read<bool> {
    var (n, rest) :- ReadNumber(s);
    if n == 0 then Got(false, rest) else if n == 1 then Got(true, rest) else Bad
  }

  function PrintBool(b: bool): string {
    if b then "1" else "0"
  }

  // ---- Words ---------------------------------------------------------------

  function CountWord(s: string): (n: nat)
    ensures n <= |s|
  {
    if s != "" && !IsSpace(s[0]) then 1 + CountWord(s[1..]) else 0
  }

  /** `is >> string`: the characters up to the next white space. */
  function ReadWord(s: string): Read<string> {
    var t := SkipSpace(s);
    var n := CountWord(t);
    if n == 0 then Bad else Got(t[..n], t[n..])
  }

  predicate IsWord(s: string) {
    s != "" && forall i | 0 <= i < |s| :: !IsSpace(s[i])
  }

  // ---- Numbers survive the trip ------------------------------------------

  lemma {:induction false} ValueOfPrint(n: nat)
    ensures ValueOf(PrintNat(n)) == n
  {
    if n >= 10 {
      ValueOfPrint(n / 10);
      var s := PrintNat(n);
      assert s[..|s| - 1] == PrintNat(n / 10);
    } else {
      assert PrintNat(n)[..0] == "";
    }
  }

  lemma {:induction false} CountDigitsUpTo(digits: string, rest: string)
    requires forall i | 0 <= i < |digits| :: IsDigit(digits[i])
    requires rest == "" || !IsDigit(rest[0])
    ensures CountDigits(digits + rest) == |digits|
  {
    if digits == "" {
      assert digits + rest == rest;
    } else {
      assert (digits + rest)[1..] == digits[1..] + rest;
      CountDigitsUpTo(digits[1..], rest);
    }
  }

  lemma ReadPrintedNat(n: nat, rest: string)
    requires Stops(rest)
    ensures ReadNat(PrintNat(n) + rest) == Got(n, rest)
  {
    var s := PrintNat(n);
    CountDigitsUpTo(s, rest);
    ValueOfPrint(n);
    assert (s + rest)[..|s|] == s && (s + rest)[|s|..] == rest;
  }

  /** A printed integer reads back, up to the white space after it. */
  lemma ReadPrinted(n: int, rest: string)
    requires Stops(rest)
    ensures ReadNumber(PrintInt(n) + rest) == Got(n, rest)
  {
    hide PrintNat, ReadNat;
    var s := PrintInt(n);
    assert (s + rest)[0] == s[0];
    if n < 0 {
      ReadPrintedNat(-n, rest);
      assert (s + rest)[1..] == PrintNat(-n) + rest;
    } else {
      assert IsDigit(s[0]);
      ReadPrintedNat(n, rest);
    }
  }

  /** Leading white space does not matter to a number or a word. */
  lemma ReadAfterSpace(s: string)
    ensures ReadNumber(" " + s) == ReadNumber(s)
    ensures ReadWord(" " + s) == ReadWord(s)
  {
    assert (" " + s)[1..] == s;
  }

  lemma {:induction false} CountWordUpTo(word: string, rest: string)
    requires forall i | 0 <= i < |word| :: !IsSpace(word[i])
    requires Stops(rest)
    ensures CountWord(word + rest) == |word|
  {
    if word == "" {
      assert word + rest == rest;
    } else {
      assert (word + rest)[1..] == word[1..] + rest;
      CountWordUpTo(word[1..], rest);
    }
  }

  lemma ReadPrintedWord(word: string, rest: string)
    requires IsWord(word) && Stops(rest)
    ensures ReadWord(word + rest) == Got(word, rest)
  {
    CountWordUpTo(word, rest);
    assert (word + rest)[0] == word[0];
    assert (word + rest)[..|word|] == word && (word + rest)[|word|..] == rest;
  }

  lemma {:induction false} CountedAreNotSpace(s: string)
    ensures forall i | 0 <= i < CountWord(s) :: !IsSpace(s[i])
  {
    if s != "" && !IsSpace(s[0]) {
      CountedAreNotSpace(s[1..]);
      forall i | 0 <= i < CountWord(s)
        ensures !IsSpace(s[i])
      {
        assert i == 0 || s[i] == s[1..][i - 1];
      }
    }
  }

  /** Only words are ever read as words. */
  lemma ReadWordIsWord(s: string)
    ensures ReadWord(s).Got? ==> IsWord(ReadWord(s).value)
  {
    CountedAreNotSpace(SkipSpace(s));
  }
}
