/** Python's `%d` and `%s` conversions as the client uses them: `%d` of an
    integer delta or millisecond count, and `%s` of a sample rate. */
module Format {
  import opened Python

  predicate IsDigit(c: char) {
    '0' <= c <= '9'
  }

  predicate AllDigits(s: string) {
    forall k :: 0 <= k < |s| ==> IsDigit(s[k])
  }

  function DigitChar(d: nat): (c: char)
    requires d < 10
    ensures IsDigit(c) && c as int - '0' as int == d
  {
    ('0' as int + d) as char
  }

  function DigitValue(c: char): (d: nat)
    requires IsDigit(c)
    ensures d < 10
  {
    c as int - '0' as int
  }

  /** Decimal digits of `n`, most significant first, without leading zeros. */
  function NatText(n: nat): (s: string)
    ensures |s| >= 1 && AllDigits(s)
    ensures (s[0] == '0') <==> n == 0
    decreases n
  {
    if n < 10 then [DigitChar(n)] else NatText(n / 10) + [DigitChar(n % 10)]
  }

  /** `'%d' % i`: an optional minus sign followed by the digits of |i|. */
  function Dec(i: int): (s: string)
    ensures |s| >= 1
    ensures (s[0] == '-') <==> i < 0
  {
    if i < 0 then "-" + NatText(-i) else NatText(i)
  }

  /** `%d` text holds only digits after an optional leading minus sign, so
      it never contains the `:`, `|` or `@` separators of a datagram. */
  lemma DecAlphabet(i: int)
    ensures forall k :: 0 <= k < |Dec(i)| ==> IsDigit(Dec(i)[k]) || (k == 0 && Dec(i)[k] == '-')
    ensures ':' !in Dec(i) && '|' !in Dec(i) && '@' !in Dec(i)
  {
    if i < 0 {
      assert Dec(i)[1..] == NatText(-i);
    }
  }

  /** The renderings the tests expect. */
  lemma DecExamples()
    ensures Dec(1) == "1" && Dec(-1) == "-1" && Dec(5) == "5" && Dec(-5) == "-5"
    ensures Dec(100) == "100" && Dec(250) == "250" && Dec(-250) == "-250" && Dec(510) == "510"
  {
    assert NatText(1) == "1" && NatText(5) == "5" && NatText(2) == "2";
    assert NatText(10) == "10" by { assert NatText(10) == NatText(1) + [DigitChar(0)]; }
    assert NatText(100) == "100" by { assert NatText(100) == NatText(10) + [DigitChar(0)]; }
    assert NatText(25) == "25" by { assert NatText(25) == NatText(2) + [DigitChar(5)]; }
    assert NatText(250) == "250" by { assert NatText(250) == NatText(25) + [DigitChar(0)]; }
    assert NatText(51) == "51" by { assert NatText(51) == NatText(5) + [DigitChar(1)]; }
    assert NatText(510) == "510" by { assert NatText(510) == NatText(51) + [DigitChar(0)]; }
  }

  /** `'%s' % v`; the decimal text of a float is the runtime's `render`. */
  function Str(v: PyValue, render: real -> string): string {
    match v
    case PyNone => "None"
    case PyStr(s) => s
    case PyInt(i) => Dec(i)
    case PyFloat(f) => render(f)
  }

  /** Reading a digit string back as a number. */
  function ParseNat(s: string): nat
    requires AllDigits(s)
    decreases |s|
  {
    if s == [] then 0 else ParseNat(s[..|s| - 1]) * 10 + DigitValue(s[|s| - 1])
  }

  /** A digit string with no leading zero, as `NatText` writes them. */
  predicate Canonical(s: string) {
    |s| >= 1 && AllDigits(s) && (|s| == 1 || s[0] != '0')
  }

  /** Reading a `%d` rendering back: the inverse of `Dec`. */
  function ParseDec(s: string): (r: Option<int>) {
    if s == [] then None
    else if s[0] == '-' then
      if Canonical(s[1..]) && s[1] != '0' then Some(-(ParseNat(s[1..]) as int)) else None
    else if Canonical(s) then Some(ParseNat(s))
    else None
  }

  lemma {:induction false} ParseNatText(n: nat)
    ensures ParseNat(NatText(n)) == n
    decreases n
  {
    var s := NatText(n);
    if n >= 10 {
      ParseNatText(n / 10);
      assert s[..|s| - 1] == NatText(n / 10);
    }
  }

  /** `Dec` loses nothing: its text reads back as the same integer. */
  lemma {:induction false} DecRoundTrip(i: int)
    ensures ParseDec(Dec(i)) == Some(i)
  {
    var s := Dec(i);
    if i < 0 {
      var digits := NatText(-i);
      assert s[1..] == digits;
      assert Canonical(digits);
      ParseNatText(-i);
    } else {
      assert Canonical(s);
      ParseNatText(i);
    }
  }

  /** Distinct integers have distinct `%d` renderings. */
  lemma DecInjective(a: int, b: int)
    ensures Dec(a) == Dec(b) <==> a == b
  {
    if Dec(a) == Dec(b) {
      DecRoundTrip(a);
      DecRoundTrip(b);
    }
  }

  /** Every `ParseDec` success came from `Dec`: the two are inverse on the
      whole of `ParseDec`'s domain. */
  lemma ParseDecSound(s: string)
    ensures ParseDec(s).Some? ==> Dec(ParseDec(s).value) == s
  {
    if ParseDec(s).Some? {
      if s[0] == '-' {
        ParseNatCanonical(s[1..]);
      } else {
        ParseNatCanonical(s);
      }
    }
  }

  lemma {:induction false} ParseNatCanonical(s: string)
    requires Canonical(s)
    ensures NatText(ParseNat(s)) == s
    decreases |s|
  {
    var init := s[..|s| - 1];
    if |s| > 1 {
      ParseNatCanonical(init);
      var m := ParseNat(init);
      assert m != 0 by {
        assert NatText(m)[0] != '0';
      }
      var n := ParseNat(s);
      assert n / 10 == m && n % 10 == DigitValue(s[|s| - 1]);
      assert s == init + [s[|s| - 1]];
    }
  }
}
