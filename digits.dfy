/**
 * Decimal digit strings: `int(...)` on a digit string, `str(n)` of a natural,
 * and the character stripping done with `str.replace(c, "")`.
 */
module Digits {
  import opened Wrappers

  predicate IsDigit(c: char) {
    '0' <= c <= '9'
  }

  predicate AllDigits(s: string) {
    forall i :: 0 <= i < |s| ==> IsDigit(s[i])
  }

  function DigitValue(c: char): (d: nat)
    requires IsDigit(c)
    ensures d < 10
  {
    (c as int - '0' as int) as nat
  }

  function DigitChar(d: nat): (c: char)
    requires d < 10
    ensures IsDigit(c) && DigitValue(c) == d
  {
    (d + '0' as int) as char
  }

  function Pow10(k: nat): (p: nat)
    ensures p >= 1
  {
    if k == 0 then 1 else 10 * Pow10(k - 1)
  }

  /** The value of a digit string, most significant digit first. */
  function DigitsValue(s: string): nat
    requires AllDigits(s)
  {
    if s == [] then 0 else 10 * DigitsValue(s[..|s| - 1]) + DigitValue(s[|s| - 1])
  }

  /** `int(s)` restricted to unsigned decimal strings: None where Python raises. */
  function ParseNat(s: string): (r: Option<nat>)
    ensures r.Some? <==> s != [] && AllDigits(s)
  {
    if s != [] && AllDigits(s) then Some(DigitsValue(s)) else None
  }

  /** `str(n)` for a natural number. */
  function NatToString(n: nat): (s: string)
    ensures s != [] && AllDigits(s)
  {
    if n < 10 then [DigitChar(n)] else NatToString(n / 10) + [DigitChar(n % 10)]
  }

  lemma {:induction false} NatToStringRoundTrip(n: nat)
    ensures ParseNat(NatToString(n)) == Some(n)
  {
    if n >= 10 {
      var s := NatToString(n);
      NatToStringRoundTrip(n / 10);
      assert s[..|s| - 1] == NatToString(n / 10);
      assert s[|s| - 1] == DigitChar(n % 10);
      assert DigitsValue(s) == 10 * (n / 10) + n % 10;
    }
  }

  lemma NatToStringInjective(m: nat, n: nat)
    ensures NatToString(m) == NatToString(n) <==> m == n
  {
    NatToStringRoundTrip(m);
    NatToStringRoundTrip(n);
  }

  lemma TenTimes(x: int, p: int)
    ensures 10 * (x * p) == x * (10 * p)
  {
  }

  /** Reading a digit string in two pieces. */
  lemma {:induction false} DigitsValueAppend(a: string, b: string)
    requires AllDigits(a) && AllDigits(b)
    ensures AllDigits(a + b)
    ensures DigitsValue(a + b) == DigitsValue(a) * Pow10(|b|) + DigitsValue(b)
  {
    var ab := a + b;
    assert AllDigits(ab) by {
      forall i | 0 <= i < |ab| ensures IsDigit(ab[i]) {
        if i < |a| { assert ab[i] == a[i]; } else { assert ab[i] == b[i - |a|]; }
      }
    }
    if b != [] {
      var b' := b[..|b| - 1];
      var d := DigitValue(b[|b| - 1]);
      assert ab[..|ab| - 1] == a + b';
      assert ab[|ab| - 1] == b[|b| - 1];
      DigitsValueAppend(a, b');
      var x, y, p := DigitsValue(a), DigitsValue(b'), Pow10(|b'|);
      calc {
        DigitsValue(ab);
        10 * DigitsValue(a + b') + d;
        10 * (x * p + y) + d;
        { TenTimes(x, p); }
        x * (10 * p) + (10 * y + d);
        x * Pow10(|b|) + DigitsValue(b);
      }
    } else {
      assert ab == a;
    }
  }

  /** `s` with every character of `drop` removed: a chain of `s.replace(c, "")`. */
  function Without(s: string, drop: set<char>): (r: string)
    ensures |r| <= |s|
    ensures forall i :: 0 <= i < |r| ==> r[i] !in drop
  {
    if s == [] then []
    else if s[0] in drop then Without(s[1..], drop)
    else [s[0]] + Without(s[1..], drop)
  }

  lemma {:induction false} WithoutAppend(a: string, b: string, drop: set<char>)
    ensures Without(a + b, drop) == Without(a, drop) + Without(b, drop)
  {
    if a != [] {
      assert (a + b)[1..] == a[1..] + b;
      WithoutAppend(a[1..], b, drop);
    } else {
      assert a + b == b;
    }
  }

  lemma {:induction false} WithoutUntouched(s: string, drop: set<char>)
    requires forall i :: 0 <= i < |s| ==> s[i] !in drop
    ensures Without(s, drop) == s
  {
    if s != [] {
      WithoutUntouched(s[1..], drop);
    }
  }

  /** Removing characters keeps the others, in order, with their multiplicities. */
  lemma {:induction false} WithoutKeepsOthers(s: string, drop: set<char>, c: char)
    requires c !in drop
    ensures multiset(Without(s, drop))[c] == multiset(s)[c]
  {
    if s != [] {
      WithoutKeepsOthers(s[1..], drop, c);
      assert s == [s[0]] + s[1..];
    }
  }

  lemma {:induction false} WithoutAllDropped(s: string, drop: set<char>)
    requires forall i :: 0 <= i < |s| ==> s[i] in drop
    ensures Without(s, drop) == []
  {
    if s != [] {
      WithoutAllDropped(s[1..], drop);
    }
  }

  /** Only a text made of dropped characters becomes empty. */
  lemma {:induction false} WithoutEmpty(s: string, drop: set<char>)
    requires Without(s, drop) == []
    ensures forall i :: 0 <= i < |s| ==> s[i] in drop
  {
    if s != [] {
      WithoutEmpty(s[1..], drop);
      assert forall i :: 1 <= i < |s| ==> s[i] == s[1..][i - 1];
    }
  }

  /** Three zero-padded digits: the group after a thousands separator. */
  function Pad3(k: nat): (s: string)
    requires k < 1000
    ensures |s| == 3 && AllDigits(s)
  {
    [DigitChar(k / 100), DigitChar(k / 10 % 10), DigitChar(k % 10)]
  }

  /** A count as the site prints it, with a comma between groups of three digits. */
  function WithCommas(n: nat): (s: string)
    ensures s != [] && IsDigit(s[0])
    ensures forall i :: 0 <= i < |s| ==> IsDigit(s[i]) || s[i] == ','
  {
    if n < 1000 then NatToString(n) else WithCommas(n / 1000) + "," + Pad3(n % 1000)
  }

  lemma Pad3Value(k: nat)
    requires k < 1000
    ensures DigitsValue(Pad3(k)) == k
  {
    var s := Pad3(k);
    var a, b, c := k / 100, k / 10 % 10, k % 10;
    assert s[..2][..1] == [DigitChar(a)] && s[..2][1] == DigitChar(b);
    assert [DigitChar(a)][..0] == [];
    assert DigitsValue([DigitChar(a)]) == a;
    assert DigitsValue(s[..2]) == 10 * a + b;
    assert DigitsValue(s) == 10 * (10 * a + b) + c;
    assert k / 10 == 10 * a + b;
  }

  lemma {:induction false} WithCommasValue(n: nat)
    ensures AllDigits(Without(WithCommas(n), {','}))
    ensures DigitsValue(Without(WithCommas(n), {','})) == n
  {
    if n < 1000 {
      WithoutUntouched(NatToString(n), {','});
      NatToStringRoundTrip(n);
    } else {
      var high := WithCommas(n / 1000);
      var low := Pad3(n % 1000);
      WithCommasValue(n / 1000);
      WithoutAppend(high + ",", low, {','});
      WithoutAppend(high, ",", {','});
      WithoutUntouched(low, {','});
      assert Without(",", {','}) == [];
      var h := Without(high, {','});
      assert Without(WithCommas(n), {','}) == h + low;
      DigitsValueAppend(h, low);
      Pad3Value(n % 1000);
      assert Pow10(3) == 1000;
    }
  }

  /** Removing two sets of characters agrees on a string where the sets agree. */
  lemma {:induction false} WithoutSameOn(s: string, d1: set<char>, d2: set<char>)
    requires forall i :: 0 <= i < |s| ==> (s[i] in d1 <==> s[i] in d2)
    ensures Without(s, d1) == Without(s, d2)
  {
    if s != [] {
      WithoutSameOn(s[1..], d1, d2);
    }
  }
}
