/**
 * The two conversions between integers and their decimal text that the gatekeeper relies on:
 * Python's `str(n)` (used for button labels, callback payloads and the puzzle text) and
 * `int(s)` (used to read the pressed button's payload back).  Only the decimal grammar with an
 * optional leading minus sign is modelled.
 */
module PyInt {
  import opened Wrappers

  predicate IsDigit(c: char) {
    '0' <= c <= '9'
  }

  predicate AllDigits(s: string) {
    forall i :: 0 <= i < |s| ==> IsDigit(s[i])
  }

  function DigitChar(d: nat): (c: char)
    requires d < 10
    ensures IsDigit(c)
  {
    ('0' as int + d) as char
  }

  function DigitValue(c: char): (d: nat)
    requires IsDigit(c)
    ensures d < 10 && DigitChar(d) == c
  {
    c as int - '0' as int
  }

  /** Decimal digits of `n`, most significant first, without leading zeros. */
  function NatToText(n: nat): (s: string)
    ensures |s| > 0 && AllDigits(s)
    ensures s[0] == '0' ==> n == 0
    decreases n
  {
    if n < 10 then [DigitChar(n)] else NatToText(n / 10) + [DigitChar(n % 10)]
  }

  /** Python's `str(i)` for an `int`. */
  function IntToText(i: int): (s: string)
    ensures |s| > 0
    ensures i < 0 <==> s[0] == '-'
  {
    if i < 0 then "-" + NatToText(-i) else NatToText(i)
  }

  /** The value of a string of decimal digits, read most significant digit first. */
  function DigitsValue(s: string): nat
    requires AllDigits(s)
    decreases |s|
  {
    if |s| == 0 then 0 else DigitsValue(s[..|s| - 1]) * 10 + DigitValue(s[|s| - 1])
  }

  /**
   * Python's `int(s)` on the decimal subset: an optional '-' followed by one or more digits
   * (leading zeros allowed).  Anything else is the ValueError case, `None`.
   */
  function ParseInt(s: string): (r: Option<int>)
    ensures r.Some? <==> |s| > 0 && s != "-" && (s[0] == '-' || IsDigit(s[0])) &&
                         forall i :: 1 <= i < |s| ==> IsDigit(s[i])
    ensures r.Some? && s[0] != '-' ==> r.value == DigitsValue(s)
    ensures r.Some? && s[0] == '-' ==> r.value == -(DigitsValue(s[1..]) as int)
  {
    if |s| > 0 && s[0] == '-' then
      if |s| > 1 && AllDigits(s[1..]) then Some(-(DigitsValue(s[1..]) as int)) else None
    else if |s| > 0 && AllDigits(s) then Some(DigitsValue(s))
    else None
  }

  lemma {:induction false} DigitsValueOfNatToText(n: nat)
    ensures DigitsValue(NatToText(n)) == n
    decreases n
  {
    if n >= 10 {
      var s := NatToText(n);
      var prefix := NatToText(n / 10);
      assert s == prefix + [DigitChar(n % 10)];
      assert s[..|s| - 1] == prefix;
      DigitsValueOfNatToText(n / 10);
    }
  }

  /** Round trip: `int(str(i)) == i` for every integer. */
  lemma ParseIntOfIntToText(i: int)
    ensures ParseInt(IntToText(i)) == Some(i)
  {
    if i < 0 {
      var s := IntToText(i);
      assert s[1..] == NatToText(-i);
      DigitsValueOfNatToText(-i);
    } else {
      DigitsValueOfNatToText(i);
    }
  }

  /** `str(i)` holds only a sign and digits, so no space. */
  lemma IntToTextHasNoSpace(i: int)
    ensures forall k :: 0 <= k < |IntToText(i)| ==> IntToText(i)[k] != ' '
  {
    var s := IntToText(i);
    var digits := if i < 0 then NatToText(-i) else NatToText(i);
    assert AllDigits(digits);
    forall k | 0 <= k < |s| ensures s[k] != ' ' {
      if i < 0 && k > 0 {
        assert s[k] == digits[k - 1];
      }
    }
  }

  /** The round trip for every integer at once. */
  lemma IntToTextReadsBack()
    ensures forall i :: ParseInt(IntToText(i)) == Some(i)
  {
    forall i ensures ParseInt(IntToText(i)) == Some(i) {
      ParseIntOfIntToText(i);
    }
  }

  /** Different integers have different decimal texts. */
  lemma IntToTextInjective(a: int, b: int)
    ensures IntToText(a) == IntToText(b) <==> a == b
  {
    ParseIntOfIntToText(a);
    ParseIntOfIntToText(b);
  }
}
