/** The number printing of csapp.c: sio_ltoa builds the digits of a long backwards in the
    caller's buffer and sio_reverse turns them round in place. */
module Sio {
  import opened Text

  const LONG_MAX := 0x7fff_ffff_ffff_ffff

  predicate Base(b: nat) { 2 <= b <= 36 }

  function DigitChar(d: nat): char
    requires d < 36
  {
    if d < 10 then '0' + d as char else 'a' + (d - 10) as char
  }

  /** Reading a digit; 36 stands for "not a digit in any base". */
  function DigitValue(c: char): (d: nat)
    ensures d <= 36
  {
    if '0' <= c <= '9' then (c - '0') as nat
    else if 'a' <= c <= 'z' then (c - 'a') as nat + 10
    else 36
  }

  lemma DigitRoundTrip(d: nat)
    requires d < 36
    ensures DigitValue(DigitChar(d)) == d && DigitChar(d) !in {'\0', '-'}
  {
  }

  const DIGITS := "0123456789abcdefghijklmnopqrstuvwxyz"

  lemma DigitExactly(d: nat)
    requires d < 36
    ensures DigitChar(d) == DIGITS[d]
  {
    assert DIGITS[..10] == "0123456789" && DIGITS[10..] == "abcdefghijklmnopqrstuvwxyz";
  }

  /** The digits of `n`, most significant first. */
  function Digits(n: nat, b: nat): (s: string)
    requires Base(b)
    ensures s != ""
  {
    if n < b then [DigitChar(n)] else DivShrinks(n, b); Digits(n / b, b) + [DigitChar(n % b)]
  }

  function Numeral(v: int, b: nat): string
    requires Base(b)
  {
    if v < 0 then "-" + Digits(-v, b) else Digits(v, b)
  }

  /** Reading digits back, independently of how they were produced. */
  function Value(s: string, b: nat): nat {
    if s == "" then 0 else Value(s[..|s| - 1], b) * b + DigitValue(s[|s| - 1])
  }

  function ReadNumeral(s: string, b: nat): int {
    if s != "" && s[0] == '-' then 0 - Value(s[1..], b) else Value(s, b)
  }

  /** Only digits of the base, and no leading zero except in "0" itself. */
  ghost predicate Canonical(s: string, b: nat) {
    && s != ""
    && (forall i :: 0 <= i < |s| ==> DigitValue(s[i]) < b)
    && (s[0] == '0' ==> |s| == 1)
  }

  lemma {:induction false} DigitsCanonical(n: nat, b: nat)
    requires Base(b)
    ensures Canonical(Digits(n, b), b)
    ensures Digits(n, b)[0] == '0' ==> n == 0
  {
    if n >= b {
      DivShrinks(n, b);
      DigitsCanonical(n / b, b);
      DigitRoundTrip(n % b);
      CanonicalAppend(Digits(n / b, b), DigitChar(n % b), b);
    } else {
      DigitRoundTrip(n);
    }
  }

  lemma CanonicalAppend(s: string, c: char, b: nat)
    requires Canonical(s, b) && s[0] != '0' && DigitValue(c) < b
    ensures Canonical(s + [c], b)
  {
  }

  lemma CanonicalPlain(s: string, b: nat)
    requires Base(b) && Canonical(s, b)
    ensures '\0' !in s && '-' !in s
  {
    assert DigitValue('\0') == 36 && DigitValue('-') == 36;
  }

  lemma Multiples(t: int, b: nat)
    ensures t >= 1 ==> t * b >= b
    ensures t <= -1 ==> t * b <= 0 - b
    ensures t >= 0 && b >= 2 ==> t * b >= t * 2
  {
    if t >= 0 && b >= 2 {
      assert t * b == t * 2 + t * (b - 2);
    }
  }

  lemma DivShrinks(n: nat, b: nat)
    requires 2 <= b <= n
    ensures 0 < n / b <= n / 2 < n && n == n / b * b + n % b
  {
    Multiples(n / b, b);
  }

  /** Reading what was printed gives the number back. */
  lemma {:induction false} ValueOfDigits(n: nat, b: nat)
    requires Base(b)
    ensures Value(Digits(n, b), b) == n
  {
    if n < b {
      DigitRoundTrip(n);
      assert [DigitChar(n)][..0] == "";
    } else {
      DivShrinks(n, b);
      var front := Digits(n / b, b);
      ValueOfDigits(n / b, b);
      DigitRoundTrip(n % b);
      assert (front + [DigitChar(n % b)])[..|front|] == front;
    }
  }

  /** And printing what was read gives the text back, so each number has one text. */
  lemma {:induction false} DigitsOfValue(s: string, b: nat)
    requires Base(b) && Canonical(s, b)
    ensures Digits(Value(s, b), b) == s
  {
    var last := DigitValue(s[|s| - 1]);
    assert DigitChar(last) == s[|s| - 1];
    if |s| == 1 {
      assert Value(s[..0], b) == 0;
      assert s == [DigitChar(last)];
    } else {
      var front := s[..|s| - 1];
      DigitsOfValue(front, b);
      var q := Value(front, b);
      assert Digits(0, b) == "0";
      QuotientAndDigit(q, last, b);
      assert s == front + [DigitChar(last)];
    }
  }

  lemma QuotientAndDigit(q: nat, d: nat, b: nat)
    requires q > 0 && d < b
    ensures q * b + d >= b && (q * b + d) / b == q && (q * b + d) % b == d
  {
    var n := q * b + d;
    var t := q - n / b;
    Multiples(q, b);
    Multiples(t, b);
    assert n == n / b * b + n % b;
    assert t * b == n % b - d;
  }

  /** The round trip on every long that sio_ltoa can negate. */
  lemma ReadNumeralBack(v: int, b: nat)
    requires Base(b)
    ensures ReadNumeral(Numeral(v, b), b) == v
    ensures Numeral(v, b) != "-0"
  {
    var n := if v < 0 then -v else v;
    DigitsCanonical(n, b);
    CanonicalPlain(Digits(n, b), b);
    ValueOfDigits(n, b);
    if v < 0 {
      assert ("-" + Digits(n, b))[1..] == Digits(n, b);
    }
  }

  function Pow2(k: nat): nat { if k == 0 then 1 else 2 * Pow2(k - 1) }

  lemma {:induction false} DigitsLength(n: nat, b: nat, k: nat)
    requires Base(b) && k >= 1 && n < Pow2(k)
    ensures |Digits(n, b)| <= k
  {
    assert Pow2(1) == 2 * Pow2(0);
    if n >= b {
      DivShrinks(n, b);
      DigitsLength(n / b, b, k - 1);
    }
  }

  lemma {:induction false} Pow2Add(j: nat, k: nat)
    ensures Pow2(j + k) == Pow2(j) * Pow2(k)
  {
    if j > 0 {
      Pow2Add(j - 1, k);
      assert Pow2(j + k) == 2 * (Pow2(j - 1) * Pow2(k));
    }
  }

  lemma Pow2Of63()
    ensures Pow2(63) == LONG_MAX + 1
  {
    assert Pow2(7) == 128;
    assert Pow2(14) == 0x4000 by { Pow2Add(7, 7); }
    assert Pow2(28) == 0x1000_0000 by { Pow2Add(14, 14); }
    assert Pow2(56) == 0x100_0000_0000_0000 by { Pow2Add(28, 28); }
    Pow2Add(56, 7);
  }

  /** 63 digits, a sign and the terminator: 65 bytes always suffice. */
  lemma NumeralLength(v: int, b: nat)
    requires Base(b) && -LONG_MAX <= v <= LONG_MAX
    ensures |Numeral(v, b)| + 1 <= 65
  {
    Pow2Of63();
    DigitsLength(if v < 0 then -v else v, b, 63);
  }

  function Reversed(s: string): (r: string)
    ensures |r| == |s|
  {
    seq(|s|, i requires 0 <= i < |s| => s[|s| - 1 - i])
  }

  lemma ReversedTwice(s: string)
    ensures Reversed(Reversed(s)) == s
  {
  }

  /** sio_reverse: the string in front of the terminator is reversed, the rest is kept. */
  method Reverse(s: array<char>, ghost n: nat)
    requires n < s.Length && CString(s[..]) == s[..n] && s[n] == '\0'
    modifies s
    ensures s[..n] == Reversed(old(s[..n]))
    ensures forall k :: n <= k < s.Length ==> s[k] == old(s[k])
  {
    ghost var was := s[..];
    var i, j := 0, |CString(s[..])| - 1;
    while i < j
      invariant 0 <= i && i + j == n - 1 && i <= j + 1
      invariant forall k :: 0 <= k < i ==> s[k] == was[n - 1 - k]
      invariant forall k :: j < k < n ==> s[k] == was[n - 1 - k]
      invariant forall k :: i <= k <= j ==> s[k] == was[k]
      invariant forall k :: n <= k < s.Length ==> s[k] == was[k]
    {
      var c := s[i];
      s[i] := s[j];
      s[j] := c;
      i, j := i + 1, j - 1;
    }
  }

  /** The digit loop of sio_ltoa: least significant digit first. */
  method PutDigits(v: nat, s: array<char>, b: nat) returns (i: nat)
    requires Base(b) && |Digits(v, b)| <= s.Length
    modifies s
    ensures i == |Digits(v, b)| && s[..i] == Reversed(Digits(v, b))
    ensures forall k :: i <= k < s.Length ==> s[k] == old(s[k])
  {
    ghost var digits := Digits(v, b);
    var n: nat := v;
    i := 0;
    var more := true;
    while more
      invariant i <= |digits|
      invariant more ==> Digits(n, b) == digits[..|digits| - i]
      invariant !more ==> i == |digits|
      invariant forall k :: 0 <= k < i ==> s[k] == digits[|digits| - 1 - k]
      invariant forall k :: i <= k < s.Length ==> s[k] == old(s[k])
      decreases more, n
    {
      LastDigit(n, b);
      s[i] := DigitChar(n % b);
      i := i + 1;
      n := n / b;
      more := n > 0;
    }
  }

  /** Splitting off the last digit, as the loop does. */
  lemma LastDigit(n: nat, b: nat)
    requires Base(b)
    ensures var s := Digits(n, b);
            s[|s| - 1] == DigitChar(n % b) && n / b <= n &&
            (if n / b > 0 then n / b < n && Digits(n / b, b) == s[..|s| - 1] else |s| == 1)
  {
    if n >= b {
      DivShrinks(n, b);
    } else {
      assert n / b == 0 && n % b == n by {
        assert n == n / b * b + n % b;
        Multiples(n / b, b);
      }
    }
  }

  /** Everything sio_ltoa does before it reverses the buffer. */
  method PutNumeral(v: int, s: array<char>, b: nat) returns (i: nat)
    requires Base(b) && s.Length > |Numeral(v, b)|
    modifies s
    ensures i == |Numeral(v, b)| && s[..i] == Reversed(Numeral(v, b)) && s[i] == '\0'
    ensures forall k :: i < k < s.Length ==> s[k] == old(s[k])
  {
    if v < 0 {
      i := PutDigits(-v, s, b);
      ReversedSign(Digits(-v, b));
      s[i] := '-';
      i := i + 1;
    } else {
      i := PutDigits(v, s, b);
    }
    ghost var reversed := s[..i];
    s[i] := '\0';
    assert s[..i] == reversed;
  }

  /** sio_ltoa: the buffer holds the numeral, NUL-terminated, and is otherwise untouched. */
  method Ltoa(v: int, s: array<char>, b: nat)
    requires Base(b) && -LONG_MAX <= v <= LONG_MAX
    requires s.Length > |Numeral(v, b)|
    modifies s
    ensures CString(s[..]) == Numeral(v, b)
    ensures forall k :: |Numeral(v, b)| < k < s.Length ==> s[k] == old(s[k])
  {
    ghost var text := Numeral(v, b);
    NumeralPlain(v, b);
    ReversedSame(text, '\0');
    ReversedTwice(text);
    var i := PutNumeral(v, s, b);
    Terminated(s[..], Reversed(text));
    Reverse(s, i);
    Terminated(s[..], text);
  }

  lemma ReversedSign(digits: string)
    ensures Reversed("-" + digits) == Reversed(digits) + ['-']
  {
  }

  lemma Terminated(buffer: string, text: string)
    requires |text| < |buffer| && buffer[..|text|] == text && buffer[|text|] == '\0' && '\0' !in text
    ensures CString(buffer) == text
  {
    BeforeUnique(buffer, '\0', text);
  }

  lemma NumeralPlain(v: int, b: nat)
    requires Base(b)
    ensures '\0' !in Numeral(v, b)
  {
    var n := if v < 0 then -v else v;
    DigitsCanonical(n, b);
    CanonicalPlain(Digits(n, b), b);
  }

  lemma ReversedSame(s: string, c: char)
    requires c !in s
    ensures c !in Reversed(s)
  {
  }
}
