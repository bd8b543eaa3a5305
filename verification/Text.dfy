/** Strings as the operator handles them: ASCII text, decimal numerals, and Go's byte-wise order. */
module Wrappers {
  datatype Option<+T> = None | Some(value: T)

  datatype Result<+T> = Ok(value: T) | Err(error: string)
}

module Text {
  import opened Wrappers

  predicate Ascii(s: string) {
    forall i | 0 <= i < |s| :: s[i] < 128 as char
  }

  // ---------------------------------------------------------------- case and space

  function LowerChar(c: char): char {
    if 'A' <= c <= 'Z' then (c as int + 32) as char else c
  }

  function UpperChar(c: char): char {
    if 'a' <= c <= 'z' then (c as int - 32) as char else c
  }

  function ToLower(s: string): (r: string)
    ensures |r| == |s|
  {
    seq(|s|, i requires 0 <= i < |s| => LowerChar(s[i]))
  }

  function ToUpper(s: string): (r: string)
    ensures |r| == |s|
  {
    seq(|s|, i requires 0 <= i < |s| => UpperChar(s[i]))
  }

  predicate IsSpace(c: char) {
    c == ' ' || ('\t' <= c <= '\r')
  }

  function TrimLeft(s: string): string {
    if s != [] && IsSpace(s[0]) then TrimLeft(s[1..]) else s
  }

  function TrimRight(s: string): string {
    if s != [] && IsSpace(s[|s| - 1]) then TrimRight(s[..|s| - 1]) else s
  }

  /** strings.TrimSpace on ASCII text. */
  function TrimSpace(s: string): string {
    TrimRight(TrimLeft(s))
  }

  lemma {:induction false} TrimLeftLength(s: string)
    ensures |TrimLeft(s)| <= |s|
    ensures |TrimLeft(s)| == |s| ==> TrimLeft(s) == s
  {
    if s != [] && IsSpace(s[0]) {
      TrimLeftLength(s[1..]);
    }
  }

  lemma {:induction false} TrimRightPrefix(s: string)
    ensures TrimRight(s) <= s
  {
    if s != [] && IsSpace(s[|s| - 1]) {
      TrimRightPrefix(s[..|s| - 1]);
    }
  }

  /** Trimming that does not shorten a text leaves it alone. */
  lemma TrimSpaceLength(s: string)
    ensures |TrimSpace(s)| == |s| ==> TrimSpace(s) == s
  {
    TrimLeftLength(s);
    TrimRightPrefix(TrimLeft(s));
  }

  /** Letters change case within the alphabet; every other character stays. */
  lemma LetterCase(c: char, k: nat)
    requires k < 26
    ensures LowerChar("ABCDEFGHIJKLMNOPQRSTUVWXYZ"[k]) == "abcdefghijklmnopqrstuvwxyz"[k]
    ensures UpperChar("abcdefghijklmnopqrstuvwxyz"[k]) == "ABCDEFGHIJKLMNOPQRSTUVWXYZ"[k]
    ensures !('A' <= c <= 'Z') ==> LowerChar(c) == c
    ensures !('a' <= c <= 'z') ==> UpperChar(c) == c
  {
  }

  /** What trimming keeps: the part between the first and the last character that is no blank or line end. */
  lemma {:induction false} TrimSpaceKeeps(s: string) returns (i: nat, j: nat)
    ensures i <= j <= |s| && TrimSpace(s) == s[i..j]
    ensures forall k | 0 <= k < i || j <= k < |s| :: s[k] in " \t\n\r" || s[k] as int in {11, 12}
    ensures i < j ==> !(s[i] in " \t\n\r" || s[i] as int in {11, 12})
    ensures i < j ==> !(s[j - 1] in " \t\n\r" || s[j - 1] as int in {11, 12})
  {
    i := TrimLeftKeeps(s);
    j := TrimRightKeeps(s[i..]);
    j := i + j;
  }

  lemma {:induction false} TrimLeftKeeps(s: string) returns (i: nat)
    ensures i <= |s| && TrimLeft(s) == s[i..] && forall k | 0 <= k < i :: IsSpace(s[k])
    ensures i < |s| ==> !IsSpace(s[i])
  {
    i := 0;
    if s != [] && IsSpace(s[0]) {
      i := TrimLeftKeeps(s[1..]);
      i := i + 1;
    }
  }

  lemma {:induction false} TrimRightKeeps(s: string) returns (j: nat)
    ensures j <= |s| && TrimRight(s) == s[..j] && forall k | j <= k < |s| :: IsSpace(s[k])
    ensures j > 0 ==> !IsSpace(s[j - 1])
  {
    j := |s|;
    if s != [] && IsSpace(s[|s| - 1]) {
      j := TrimRightKeeps(s[..|s| - 1]);
    }
  }

  // ---------------------------------------------------------------- affixes

  predicate HasPrefix(s: string, p: string) {
    |s| >= |p| && s[..|p|] == p
  }

  predicate HasSuffix(s: string, p: string) {
    |s| >= |p| && s[|s| - |p|..] == p
  }

  function TrimPrefix(s: string, p: string): string {
    if HasPrefix(s, p) then s[|p|..] else s
  }

  function TrimSuffix(s: string, p: string): string {
    if HasSuffix(s, p) then s[..|s| - |p|] else s
  }

  // ---------------------------------------------------------------- order

  /** Go's `<` on strings. */
  predicate Less(a: string, b: string) {
    b != [] && (a == [] || a[0] < b[0] || (a[0] == b[0] && Less(a[1..], b[1..])))
  }

  predicate AtMost(a: string, b: string) {
    !Less(b, a)
  }

  /** The order spelled out: the first place where they differ decides, and a proper prefix comes first. */
  lemma {:induction false} LessExactly(a: string, b: string)
    ensures Less(a, b) <==>
            exists k :: 0 <= k <= |a| && k < |b| && a[..k] == b[..k] && (k == |a| || a[k] < b[k])
  {
    if a != [] && b != [] && a[0] == b[0] {
      LessExactly(a[1..], b[1..]);
      if Less(a[1..], b[1..]) {
        var k :| 0 <= k < |a| && k + 1 < |b| && a[1..][..k] == b[1..][..k] && (k + 1 == |a| || a[k + 1] < b[k + 1]);
        assert a[..k + 1] == [a[0]] + a[1..][..k] && b[..k + 1] == [b[0]] + b[1..][..k];
      }
      forall k | 0 <= k <= |a| && k < |b| && a[..k] == b[..k] && (k == |a| || a[k] < b[k])
        ensures Less(a[1..], b[1..])
      {
        assert a[1..][..k - 1] == a[..k][1..] && b[1..][..k - 1] == b[..k][1..];
      }
    } else if Less(a, b) {
      assert a[..0] == b[..0];
    }
  }

  lemma {:induction false} LessTrichotomy(a: string, b: string)
    ensures Less(a, b) || a == b || Less(b, a)
    ensures !(Less(a, b) && Less(b, a))
    ensures Less(a, b) ==> a != b
  {
    if a != [] && b != [] && a[0] == b[0] {
      LessTrichotomy(a[1..], b[1..]);
      assert a == [a[0]] + a[1..] && b == [b[0]] + b[1..];
    }
  }

  lemma {:induction false} LessTransitive(a: string, b: string, c: string)
    requires Less(a, b) && Less(b, c)
    ensures Less(a, c)
  {
    if a != [] && a[0] == b[0] && b[0] == c[0] {
      LessTransitive(a[1..], b[1..], c[1..]);
    }
  }

  lemma AtMostTransitive(a: string, b: string, c: string)
    requires AtMost(a, b) && AtMost(b, c)
    ensures AtMost(a, c)
  {
    LessTrichotomy(a, b);
    LessTrichotomy(b, c);
    LessTrichotomy(a, c);
    if a != b && b != c && Less(c, a) {
      LessTransitive(a, b, c);
    }
  }

  // ---------------------------------------------------------------- decimal numerals

  predicate IsDigit(c: char) {
    '0' <= c <= '9'
  }

  function DigitChar(d: nat): (c: char)
    requires d < 10
    ensures IsDigit(c) && c as int - '0' as int == d
  {
    (d + '0' as int) as char
  }

  /** The numeral "%d" prints for a non-negative integer. */
  function Decimal(n: nat): (s: string)
    ensures s != [] && forall i | 0 <= i < |s| :: IsDigit(s[i])
  {
    if n < 10 then [DigitChar(n)] else Decimal(n / 10) + [DigitChar(n % 10)]
  }

  /** The value of a string of digits; None when it is empty or holds anything else. */
  function DigitsValue(s: string): (r: Option<nat>) {
    if s == [] || !IsDigit(s[|s| - 1]) then None
    else
      var d := s[|s| - 1] as int - '0' as int;
      if |s| == 1 then Some(d)
      else
        match DigitsValue(s[..|s| - 1])
        case None => None
        case Some(v) => Some(10 * v + d)
  }

  const MAX_INT: int := 0x7fff_ffff_ffff_ffff

  /** strconv.Atoi: an optional sign, then digits, within 64 bits. */
  function Atoi(s: string): (r: Result<int>) {
    var signed := s != [] && (s[0] == '-' || s[0] == '+');
    var negative := signed && s[0] == '-';
    match DigitsValue(if signed then s[1..] else s)
    case None => Err("invalid syntax")
    case Some(v) =>
      var m: int := v;
      var n := if negative then -m else m;
      if -MAX_INT - 1 <= n <= MAX_INT then Ok(n) else Err("value out of range")
  }

  lemma {:induction false} DecimalRoundTrip(n: nat)
    ensures DigitsValue(Decimal(n)) == Some(n)
  {
    if n >= 10 {
      DecimalRoundTrip(n / 10);
      var s := Decimal(n);
      assert s[..|s| - 1] == Decimal(n / 10) && s[|s| - 1] == DigitChar(n % 10);
    }
  }

  function PowerOfTen(i: nat): (p: nat)
    ensures p > 0
  {
    if i == 0 then 1 else 10 * PowerOfTen(i - 1)
  }

  /** A text has a value exactly when it is one digit or more. */
  lemma {:induction false} NumeralsHaveValues(s: string)
    ensures DigitsValue(s).Some? <==> s != "" && forall i | 0 <= i < |s| :: s[i] in "0123456789"
  {
    if s != [] && IsDigit(s[|s| - 1]) {
      var c := s[|s| - 1];
      assert c == "0123456789"[c as int - '0' as int];
      NumeralsHaveValues(s[..|s| - 1]);
    }
  }

  /** The digits of a numeral are those of its value, unit last. */
  lemma {:induction false} DigitsSpellValue(s: string, v: nat, i: nat)
    requires DigitsValue(s) == Some(v) && i < |s|
    ensures s[|s| - 1 - i] == "0123456789"[v / PowerOfTen(i) % 10]
  {
    var init, d := s[..|s| - 1], s[|s| - 1] as int - '0' as int;
    if i == 0 {
      assert v % 10 == d && v / 1 == v;
    } else {
      var u := DigitsValue(init).value;
      DigitsSpellValue(init, u, i - 1);
      DropUnit(u, d, PowerOfTen(i - 1));
      assert init[|init| - i] == s[|s| - 1 - i];
    }
  }

  lemma {:induction false} DigitsBoundValue(s: string, v: nat)
    requires DigitsValue(s) == Some(v)
    ensures v < PowerOfTen(|s|)
  {
    if |s| == 1 {
      assert PowerOfTen(1) == 10 * PowerOfTen(0);
    } else {
      DigitsBoundValue(s[..|s| - 1], DigitsValue(s[..|s| - 1]).value);
    }
  }

  lemma DropUnit(v: nat, d: nat, p: nat)
    requires d < 10 && p > 0
    ensures (10 * v + d) / (10 * p) == v / p
  {
    var q, r := v / p, v % p;
    assert v == p * q + r;
    assert 10 * v + d == (10 * p) * q + (10 * r + d) by {
      assert 10 * (p * q) == (10 * p) * q;
    }
    QuotientIs(10 * v + d, 10 * p, q, 10 * r + d);
  }

  lemma QuotientIs(x: nat, m: nat, q: nat, r: nat)
    requires r < m && x == m * q + r
    ensures x / m == q
  {
    var k := x / m - q;
    assert x == m * (x / m) + x % m;
    assert m * k == m * (x / m) - m * q;
    assert k >= 1 ==> m * k >= m;
    assert k <= -1 ==> m * k + m <= 0;
  }

  lemma DecimalInjective(m: nat, n: nat)
    requires Decimal(m) == Decimal(n)
    ensures m == n
  {
    DecimalRoundTrip(m);
    DecimalRoundTrip(n);
  }

  lemma AtoiDecimal(n: nat)
    requires n <= MAX_INT
    ensures Atoi(Decimal(n)) == Ok(n)
  {
    DecimalRoundTrip(n);
    assert IsDigit(Decimal(n)[0]);
  }
}
