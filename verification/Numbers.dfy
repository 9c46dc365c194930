/** The conversion of numbers in vseprint (libtask/print.c). A C string is the sequence
    of its characters before the NUL; buffers hold the NUL. */
module Numbers {
  import opened Base

  const NUL := '\0'

  ghost predicate CString(s: string) {
    forall i :: 0 <= i < |s| ==> s[i] != NUL
  }

  const DIGITS := "0123456789abcdef"

  ghost predicate IsBase(b: nat) {
    b == 8 || b == 10 || b == 16
  }

  /** n / base and n % base, with the base written out: a division by a constant. */
  function Quot(n: nat, base: nat): (q: nat)
    requires IsBase(base)
    ensures n > 0 ==> q < n
  {
    if base == 8 then n / 8 else if base == 10 then n / 10 else n / 16
  }

  function Rem(n: nat, base: nat): (d: nat)
    requires IsBase(base)
    ensures d < base
  {
    if base == 8 then n % 8 else if base == 10 then n % 10 else n % 16
  }

  ghost function DigitsOf(n: nat, base: nat): (s: string)
    requires IsBase(base)
  {
    if n == 0 then "" else DigitsOf(Quot(n, base), base) + [DIGITS[Rem(n, base)]]
  }

  /** What the digit loop and the prefixes behind it leave in the buffer. */
  ghost function NumText(n: nat, base: nat): string
    requires IsBase(base)
  {
    (if base == 8 || n == 0 then "0" else "") + (if base == 16 then "0x" else "") + DigitsOf(n, base)
  }

  lemma QuotRem(n: nat, base: nat)
    requires IsBase(base)
    ensures n == Quot(n, base) * base + Rem(n, base) && Quot(n, base) == n / base && Rem(n, base) == n % base
  {
  }

  /** The value of a digit character, or 16 if it is none. */
  function DigitValue(c: char): (v: nat)
    ensures v <= 16 && (v < 16 ==> DIGITS[v] == c)
  {
    if '0' <= c <= '9' then (c - '0') as nat
    else if 'a' <= c <= 'f' then (c - 'a') as nat + 10
    else 16
  }

  /** The number that a string of digits stands for. */
  function Value(s: string, base: nat): Option<nat> {
    if s == "" then Some(0) else WithDigit(Value(s[..|s| - 1], base), DigitValue(s[|s| - 1]), base)
  }

  function WithDigit(v: Option<nat>, d: nat, base: nat): Option<nat> {
    if v.Some? && d < base then Some(v.value * base + d) else None
  }

  /** How C reads a constant of this base: 0x and digits, 0 and digits, or digits. */
  function Parse(s: string, base: nat): Option<nat> {
    if base == 16 then
      if |s| > 2 && s[..2] == "0x" then Value(s[2..], 16) else None
    else if base == 8 then
      if |s| > 0 && s[0] == '0' then Value(s[1..], 8) else None
    else
      if |s| > 0 then Value(s, base) else None
  }

  lemma LastDigit(n: nat, base: nat)
    requires IsBase(base) && n > 0
    ensures var s, d := DigitsOf(n, base), Rem(n, base);
      && s != "" && s[..|s| - 1] == DigitsOf(Quot(n, base), base) && s[|s| - 1] == DIGITS[d]
      && DigitValue(DIGITS[d]) == d && DIGITS[d] != NUL
  {
    DigitsDistinct(Rem(n, base));
  }

  lemma {:induction false} ValueOfDigits(n: nat, base: nat)
    requires IsBase(base)
    ensures Value(DigitsOf(n, base), base) == Some(n)
  {
    if n > 0 {
      LastDigit(n, base);
      var q, d, s := Quot(n, base), Rem(n, base), DigitsOf(n, base);
      QuotRem(n, base);
      ValueOfDigits(q, base);
      assert Value(s, base) == WithDigit(Some(q), d, base);
    }
  }

  lemma DigitsDistinct(d: nat)
    requires d < 16
    ensures DigitValue(DIGITS[d]) == d && DIGITS[d] != NUL
  {
  }

  /** The text of a number reads back as that number, except zero in base 16. */
  lemma NumberRoundTrip(n: nat, base: nat)
    requires IsBase(base)
    ensures Parse(NumText(n, base), base) == (if n == 0 && base == 16 then None else Some(n))
  {
    ValueOfDigits(n, base);
    var s, d := NumText(n, base), DigitsOf(n, base);
    if base == 16 && n > 0 {
      assert s == "0x" + d && s[2..] == d && d != "";
    } else if base == 8 {
      assert s[1..] == d;
    } else if base == 10 {
      assert n == 0 ==> s == "0" && s[..0] == "";
      assert n > 0 ==> s == d;
    } else {
      assert s == "00x";
    }
  }

  /** No zero in front of the digits, but for those that the base calls for. */
  ghost predicate Shortest(s: string, base: nat) {
    if base == 16 then s == "00x" || (|s| > 2 && s[..2] == "0x" && s[2] != '0')
    else if base == 8 then s == "0" || (|s| > 1 && s[0] == '0' && s[1] != '0')
    else s == "0" || (s != "" && s[0] != '0')
  }

  lemma {:induction false} FirstDigit(n: nat, base: nat)
    requires IsBase(base) && n > 0
    ensures DigitsOf(n, base) != "" && DigitsOf(n, base)[0] != '0'
  {
    if Quot(n, base) > 0 {
      FirstDigit(Quot(n, base), base);
    } else {
      QuotRem(n, base);
      DigitsDistinct(Rem(n, base));
    }
  }

  lemma NumberIsShortest(n: nat, base: nat)
    requires IsBase(base)
    ensures Shortest(NumText(n, base), base)
  {
    if n > 0 {
      FirstDigit(n, base);
      var d := DigitsOf(n, base);
      if base == 16 { assert NumText(n, base) == "0x" + d; } else if base == 10 { assert NumText(n, base) == d; }
    } else if base == 16 {
      assert NumText(0, 16) == "00x";
    }
  }

  ghost function Pow(b: nat, k: nat): nat {
    if k == 0 then 1 else b * Pow(b, k - 1)
  }

  lemma Shrinks(q: nat, p: nat, n: nat, base: nat)
    requires IsBase(base) && q * base <= n < base * p
    ensures q < p
  {
  }

  lemma {:induction false} FewDigits(n: nat, base: nat, k: nat)
    requires IsBase(base) && n < Pow(base, k)
    ensures |DigitsOf(n, base)| <= k
  {
    if n > 0 {
      QuotRem(n, base);
      Shrinks(Quot(n, base), Pow(base, k - 1), n, base);
      FewDigits(Quot(n, base), base, k - 1);
    }
  }

  lemma {:induction false} PowAdd(b: nat, j: nat, k: nat)
    ensures Pow(b, j + k) == Pow(b, j) * Pow(b, k)
  {
    if j > 0 {
      PowAdd(b, j - 1, k);
      var p, q := Pow(b, j - 1), Pow(b, k);
      assert b * (p * q) == (b * p) * q;
    }
  }

  lemma Powers()
    ensures Pow(8, 22) == 0x4_0000_0000_0000_0000
    ensures Pow(10, 20) == 100_000_000_000_000_000_000
    ensures Pow(16, 16) == 0x1_0000_0000_0000_0000
  {
    PowAdd(8, 11, 11);
    PowAdd(10, 10, 10);
    PowAdd(16, 8, 8);
    assert Pow(8, 11) == 0x2_0000_0000 && Pow(10, 10) == 10_000_000_000 && Pow(16, 8) == 0x1_0000_0000;
  }

  /** Any 64-bit magnitude fits the buffer of 30 with its prefixes and its NUL. */
  lemma NumberFits(n: nat, base: nat)
    requires IsBase(base) && n <= 0xffff_ffff_ffff_ffff
    ensures |NumText(n, base)| <= 23
  {
    Powers();
    FewDigits(n, base, if base == 8 then 22 else if base == 10 then 20 else 16);
  }

  lemma {:induction false} DigitsCString(n: nat, base: nat)
    requires IsBase(base)
    ensures CString(DigitsOf(n, base))
  {
    if n > 0 {
      LastDigit(n, base);
      DigitsCString(Quot(n, base), base);
    }
  }

  lemma MoveDigit(luv: nat, base: nat, rest: string)
    requires IsBase(base) && luv > 0
    ensures var left := DigitsOf(Quot(luv, base), base);
      && DigitsOf(luv, base) + rest == left + ([DIGITS[Rem(luv, base)]] + rest)
      && |DigitsOf(luv, base)| == |left| + 1
  {
    Regroup(DigitsOf(Quot(luv, base), base), [DIGITS[Rem(luv, base)]], rest);
  }

  /** One more digit, and what is left of the number. */
  method NextDigit(luv: nat, base: nat) returns (c: char, left: nat)
    requires IsBase(base)
    ensures c == DIGITS[Rem(luv, base)] && left == Quot(luv, base)
  {
    QuotRem(luv, base);
    c, left := DIGITS[luv % base], luv / base;
  }

  /** The digit loop, from the end of the buffer of 30. */
  method WriteDigits(n: nat, base: nat, buf: array<char>) returns (p: nat)
    requires IsBase(base) && buf.Length == 30 && |DigitsOf(n, base)| <= 29
    modifies buf
    ensures p == 29 - |DigitsOf(n, base)| && buf[p..29] == DigitsOf(n, base) && buf[29] == NUL
  {
    var luv := n;
    p := 29;
    buf[29] := NUL;
    assert buf[p..29] == "";
    while luv > 0
      invariant 0 <= luv && 0 <= p <= 29 && buf[29] == NUL
      invariant DigitsOf(n, base) == DigitsOf(luv, base) + buf[p..29]
      invariant |DigitsOf(luv, base)| <= p
    {
      ghost var rest := buf[p..29];
      MoveDigit(luv, base, rest);
      var c;
      c, luv := NextDigit(luv, base);
      p := p - 1;
      buf[p] := c;
      assert buf[p..29] == [c] + rest;
    }
  }

  /** The conversion into the buffer of 30: the text ends at the NUL in its last cell. */
  method FormatNumber(n: nat, base: nat, buf: array<char>) returns (p: nat)
    requires IsBase(base) && n <= 0xffff_ffff_ffff_ffff && buf.Length == 30
    modifies buf
    ensures 6 <= p <= 29 && buf[p..29] == NumText(n, base) && buf[29] == NUL
  {
    NumberFits(n, base);
    p := WriteDigits(n, base, buf);
    if base == 16 {
      p := p - 1;
      buf[p] := 'x';
      p := p - 1;
      buf[p] := '0';
    }
    if base == 8 || n == 0 {
      p := p - 1;
      buf[p] := '0';
    }
  }

  // ----- arguments

  /** luv, for a variadic argument that holds the number v: int, long and vlong are
      extended to 64 bits with their sign. longs counts the l flags. */
  function Fetched(v: int, longs: nat, uns: bool): (luv: nat)
    ensures luv <= 0xffff_ffff_ffff_ffff
  {
    if longs > 0 then v % 0x1_0000_0000_0000_0000
    else if uns then v % 0x1_0000_0000
    else ((v + 0x8000_0000) % 0x1_0000_0000 - 0x8000_0000) % 0x1_0000_0000_0000_0000
  }

  /** luv after its negation when it is negative as a vlong. */
  function Magnitude(luv: nat, uns: bool): (m: nat)
    requires luv <= 0xffff_ffff_ffff_ffff
    ensures m <= 0xffff_ffff_ffff_ffff
  {
    if !uns && luv >= 0x8000_0000_0000_0000 then 0x1_0000_0000_0000_0000 - luv else luv
  }

  /** The values of the argument type that the flags name. */
  ghost predicate InRange(v: int, longs: nat, uns: bool) {
    if longs > 0 then
      if uns then 0 <= v < 0x1_0000_0000_0000_0000 else -0x8000_0000_0000_0000 <= v < 0x8000_0000_0000_0000
    else
      if uns then 0 <= v < 0x1_0000_0000 else -0x8000_0000 <= v < 0x8000_0000
  }

  /** What is printed is the magnitude; a minus sign never is. */
  lemma PrintsMagnitude(v: int, longs: nat, uns: bool)
    requires InRange(v, longs, uns)
    ensures Magnitude(Fetched(v, longs, uns), uns) == if v < 0 then -v else v
  {
  }

  /** So the text of an argument reads back as the argument exactly when it is not
      negative, and not zero in base 16. */
  lemma ArgumentRoundTrip(v: int, longs: nat, uns: bool, base: nat)
    requires InRange(v, longs, uns) && IsBase(base)
    ensures var r := Parse(NumText(Magnitude(Fetched(v, longs, uns), uns), base), base);
      r.Some? && r.value == v <==> v >= 0 && !(v == 0 && base == 16)
  {
    PrintsMagnitude(v, longs, uns);
    NumberRoundTrip(Magnitude(Fetched(v, longs, uns), uns), base);
  }

  lemma ReadsBack(m: nat, v: nat)
    ensures Parse(NumText(m, 16), 16) == Some(v) <==> m == v && 0 < v
  {
    NumberRoundTrip(m, 16);
  }

  /** Is v small enough for the argument type that the flags name? */
  predicate Fits(v: nat, longs: nat, uns: bool) {
    if longs > 0 then uns || v <= 0x8000_0000_0000_0000 else if uns then v < 0x1_0000_0000 else v <= 0x8000_0000
  }

  lemma PointerMagnitude(v: nat, longs: nat, uns: bool)
    requires v <= 0xffff_ffff_ffff_ffff
    ensures Magnitude(Fetched(v, longs, uns), uns) == v <==> Fits(v, longs, uns)
  {
  }

  /** What %p and %x print of a 64-bit value reads back as that value exactly if it is not
      zero and fits: without an l flag the lower half at most, and only with lu any. */
  lemma PointerRoundTrip(v: nat, longs: nat, uns: bool)
    requires v <= 0xffff_ffff_ffff_ffff
    ensures Parse(NumText(Magnitude(Fetched(v, longs, uns), uns), 16), 16) == Some(v) <==> 0 < v && Fits(v, longs, uns)
  {
    PointerMagnitude(v, longs, uns);
    ReadsBack(Magnitude(Fetched(v, longs, uns), uns), v);
  }

  /** Pointers that are printed as others: the upper half is lost, or the sign. */
  lemma PointersMisprinted()
    ensures Parse(NumText(Magnitude(Fetched(0x7fff_0000_1000, 0, false), false), 16), 16) == Some(0x1000)
    ensures Parse(NumText(Magnitude(Fetched(0xffff_ffff_ffff_f000, 1, false), false), 16), 16) == Some(0x1000)
  {
    assert Magnitude(Fetched(0x7fff_0000_1000, 0, false), false) == 0x1000;
    assert Magnitude(Fetched(0xffff_ffff_ffff_f000, 1, false), false) == 0x1000;
    ReadsBack(0x1000, 0x1000);
  }
}
