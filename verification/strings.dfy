/**
 Text helpers the field types rely on: joining clauses with single spaces,
 as Python's `' '.join(...)` does, and the decimal rendering of integers
 performed by Python's `str(int)`, together with a parser that inverts it.
 */
module Strings {
  import opened Wrappers

  /** The clauses of `xs` separated by single spaces. */
  function Join(xs: seq<string>): (r: string)
    decreases |xs|
  {
    if |xs| == 0 then ""
    else if |xs| == 1 then xs[0]
    else xs[0] + " " + Join(xs[1..])
  }

  /** Joining a leading clause in front of a non-empty list inserts one space. */
  lemma JoinCons(x: string, xs: seq<string>)
    requires xs != []
    ensures Join([x] + xs) == x + " " + Join(xs)
  {
    assert ([x] + xs)[1..] == xs;
  }

  /** The joined text starts with the first clause. */
  lemma JoinStartsWithHead(xs: seq<string>)
    requires xs != []
    ensures xs[0] <= Join(xs)
  {
  }

  /** Replacing the first clause changes only the text before the first space. */
  lemma JoinSwapHead(a: string, b: string, xs: seq<string>)
    ensures Join([a] + xs) == a + Join([b] + xs)[|b|..]
  {
    if xs == [] {
      assert [a] + xs == [a] && [b] + xs == [b];
    } else {
      JoinCons(a, xs);
      JoinCons(b, xs);
      assert (b + " " + Join(xs))[|b|..] == " " + Join(xs);
    }
  }

  lemma JoinTwo(a: string, b: string)
    ensures Join([a, b]) == a + " " + b
  {
    assert [a, b][1..] == [b];
  }

  lemma JoinThree(a: string, b: string, c: string)
    ensures Join([a, b, c]) == a + " " + b + " " + c
  {
    assert [a, b, c][1..] == [b, c];
    JoinTwo(b, c);
  }

  /** Appending a clause to a non-empty list appends one space and the clause. */
  lemma {:induction false} JoinSnoc(xs: seq<string>, y: string)
    requires xs != []
    ensures Join(xs + [y]) == Join(xs) + " " + y
    decreases |xs|
  {
    if |xs| == 1 {
      assert xs + [y] == [xs[0]] + [y];
      JoinCons(xs[0], [y]);
    } else {
      assert (xs + [y])[1..] == xs[1..] + [y];
      JoinSnoc(xs[1..], y);
      JoinCons(xs[0], xs[1..] + [y]);
    }
  }

  predicate IsDigit(c: char) {
    '0' <= c <= '9'
  }

  predicate AllDigits(s: string) {
    forall i :: 0 <= i < |s| ==> IsDigit(s[i])
  }

  /** The decimal digit character for `d`. */
  function DigitChar(d: nat): (c: char)
    requires d < 10
    ensures IsDigit(c)
    ensures c as int - '0' as int == d
  {
    ('0' as int + d) as char
  }

  /** The decimal rendering of `n`: digits only, no leading zero. */
  function NatToString(n: nat): (r: string)
    ensures r != []
    ensures AllDigits(r)
    ensures r[0] == '0' ==> n == 0
    decreases n
  {
    if n < 10 then [DigitChar(n)]
    else NatToString(n / 10) + [DigitChar(n % 10)]
  }

  /** Python's `str(n)` for an integer: a minus sign before negative values. */
  function IntToString(n: int): (r: string)
    ensures r != []
    ensures n < 0 <==> r[0] == '-'
  {
    if n < 0 then "-" + NatToString(-n) else NatToString(n)
  }

  /** The number whose decimal digits are `s`. */
  function DigitsValue(s: string): nat
    requires AllDigits(s)
    decreases |s|
  {
    if |s| == 0 then 0
    else 10 * DigitsValue(s[..|s| - 1]) + (s[|s| - 1] as int - '0' as int)
  }

  /** Reads a canonical decimal natural number: digits only, no leading zero. */
  function ParseNat(s: string): Option<nat> {
    if s != [] && AllDigits(s) && (s[0] != '0' || |s| == 1) then Some(DigitsValue(s))
    else None
  }

  /** Reads back what `IntToString` writes; `-0` is not a rendering of any integer. */
  function ParseInt(s: string): Option<int> {
    if s != [] && s[0] == '-' then
      match ParseNat(s[1..])
      case Some(k) => if k > 0 then Some(0 - k as int) else None
      case None => None
    else ParseNat(s)
  }

  lemma {:induction false} DigitsValueOfNatToString(n: nat)
    ensures DigitsValue(NatToString(n)) == n
    decreases n
  {
    if n >= 10 {
      var s := NatToString(n / 10);
      var c := DigitChar(n % 10);
      assert NatToString(n) == s + [c];
      assert (s + [c])[..|s + [c]| - 1] == s;
      DigitsValueOfNatToString(n / 10);
    }
  }

  /** Decimal rendering of naturals is inverted by `ParseNat`. */
  lemma NatRoundTrip(n: nat)
    ensures ParseNat(NatToString(n)) == Some(n)
  {
    DigitsValueOfNatToString(n);
  }

  /** Decimal rendering of integers is inverted by `ParseInt`. */
  lemma IntRoundTrip(n: int)
    ensures ParseInt(IntToString(n)) == Some(n)
  {
    if n < 0 {
      var s := NatToString(-n);
      assert ("-" + s)[1..] == s;
      NatRoundTrip(-n);
    } else {
      NatRoundTrip(n);
    }
  }
}
