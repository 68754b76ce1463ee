/** Decimal text of numbers: `%d` in formatted keys, zero-padded fields of dates, and `strconv.Atoi`. */
module Decimal {
  import opened Lex

  predicate IsDigit(c: char)
  {
    '0' <= c <= '9'
  }

  function Digit(n: nat): (c: char)
    requires n < 10
    ensures IsDigit(c) && DigitValue(c) == n
  {
    ('0' as int + n) as char
  }

  function DigitValue(c: char): (n: nat)
    requires IsDigit(c)
    ensures n < 10
  {
    c as int - '0' as int
  }

  function Digits(n: nat): (s: string)
    ensures s != ""
    ensures forall i :: 0 <= i < |s| ==> IsDigit(s[i])
  {
    if n < 10 then [Digit(n)] else Digits(n / 10) + [Digit(n % 10)]
  }

  function Value(s: string): nat
    requires forall i :: 0 <= i < |s| ==> IsDigit(s[i])
  {
    if s == "" then 0 else Value(s[..|s| - 1]) * 10 + DigitValue(s[|s| - 1])
  }

  lemma {:induction false} ValueOfDigits(n: nat)
    ensures Value(Digits(n)) == n
  {
    if n < 10 {
      assert Digits(n)[..0] == "";
    } else {
      ValueOfDigits(n / 10);
      assert Digits(n)[..|Digits(n)| - 1] == Digits(n / 10);
    }
  }

  lemma DigitsInjective(m: nat, n: nat)
    ensures Digits(m) == Digits(n) ==> m == n
  {
    ValueOfDigits(m);
    ValueOfDigits(n);
  }

  /** Zero-padded to at least `width` characters; longer numbers keep all their digits. */
  function Pad(width: nat, n: nat): (s: string)
    ensures |s| >= width && s != ""
    ensures forall i :: 0 <= i < |s| ==> IsDigit(s[i])
  {
    if width <= 1 then Digits(n) else Pad(width - 1, n / 10) + [Digit(n % 10)]
  }

  function Pow10(w: nat): (p: nat)
    ensures p > 0
  {
    if w == 0 then 1 else 10 * Pow10(w - 1)
  }

  lemma {:induction false} PadWidth(w: nat, n: nat)
    requires 1 <= w && n < Pow10(w)
    ensures |Pad(w, n)| == w
  {
    if w > 1 {
      PadWidth(w - 1, n / 10);
    }
  }

  /** Within one width, text order is number order. */
  lemma {:induction false} PadOrder(w: nat, m: nat, n: nat)
    requires 1 <= w && m < Pow10(w) && n < Pow10(w)
    ensures Less(Pad(w, m), Pad(w, n)) <==> m < n
    ensures Pad(w, m) == Pad(w, n) <==> m == n
  {
    if w == 1 {
      assert Pad(w, m) == [Digit(m)] && Pad(w, n) == [Digit(n)];
      assert [Digit(m)][0] == Digit(m) && [Digit(n)][0] == Digit(n);
      assert DigitValue(Digit(m)) == m && DigitValue(Digit(n)) == n;
    } else {
      var a, b := Pad(w - 1, m / 10), Pad(w - 1, n / 10);
      var x, y := [Digit(m % 10)], [Digit(n % 10)];
      PadOrder(w - 1, m / 10, n / 10);
      PadWidth(w - 1, m / 10);
      PadWidth(w - 1, n / 10);
      assert (a + x)[..w - 1] == a && (b + y)[..w - 1] == b;
      assert (a + x)[w - 1] == Digit(m % 10) && (b + y)[w - 1] == Digit(n % 10);
      assert DigitValue(Digit(m % 10)) == m % 10 && DigitValue(Digit(n % 10)) == n % 10;
      if m / 10 == n / 10 {
        LessAfterPrefix(a, x, y);
        assert Less(x, y) <==> m % 10 < n % 10;
      } else {
        LessDecidedByHead(a, b, x, y);
      }
    }
  }

  const MAX_INT := 0x7fff_ffff_ffff_ffff

  predicate AllDigits(s: string)
  {
    forall i :: 0 <= i < |s| ==> IsDigit(s[i])
  }

  function Unsigned(s: string): string
  {
    if s != "" && (s[0] == '-' || s[0] == '+') then s[1..] else s
  }

  /** `strconv.Atoi` with its error dropped: 0 for malformed text, saturated when out of range. */
  function Atoi(s: string): (i: int)
    ensures -MAX_INT - 1 <= i <= MAX_INT
  {
    var negative := s != "" && s[0] == '-';
    var digits := Unsigned(s);
    if digits == "" || !AllDigits(digits) then 0
    else if negative then
      if Value(digits) > MAX_INT + 1 then -MAX_INT - 1 else 0 - Value(digits)
    else
      if Value(digits) > MAX_INT then MAX_INT else Value(digits)
  }

  lemma AtoiOfDigits(n: nat)
    requires n <= MAX_INT
    ensures Atoi(Digits(n)) == n
  {
    ValueOfDigits(n);
    assert IsDigit(Digits(n)[0]);
  }

  lemma AtoiWithSlash(text: string)
    requires '/' in text
    ensures Atoi(text) == 0
  {
    var i :| 0 <= i < |text| && text[i] == '/';
    var k := if Unsigned(text) == text then i else i - 1;
    assert Unsigned(text) != text ==> Unsigned(text) == text[1..] && text[0] != '/';
    assert Unsigned(text)[k] == '/' && !IsDigit('/');
  }

  /** Decimal text of a positive number does not begin with 0. */
  lemma {:induction false} NoLeadingZero(n: nat)
    ensures Digits(n)[0] == '0' ==> n == 0
  {
    if n >= 10 {
      NoLeadingZero(n / 10);
    } else {
      assert DigitValue(Digit(n)) == n;
    }
  }

  lemma AtoiOfPadded()
    ensures Atoi("007") == 7
  {
    var s := "007";
    assert s[..2] == "00" && s[..2][..1] == "0" && s[..2][..1][..0] == "";
    assert Value("0") == 0 && Value("00") == 0;
    assert AllDigits(s) && Unsigned(s) == s;
  }
}
