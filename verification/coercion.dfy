/** How ADD_KEYFRAME turns the incoming keyframe string into the stored value:
    a number when JavaScript's `isNaN` says it is one, the `parseInt` of every
    comma-separated part when it contains a comma (an RGB colour), and
    otherwise the raw string, with a warning. Strings are restricted to the
    cases below: a numeric string is one or more decimal digits, and `parseInt`
    reads a leading run of digits (no whitespace, sign, radix prefix or
    fraction). */
module Coercion {
  import opened Objects

  predicate IsDigit(c: char) { '0' <= c <= '9' }

  predicate AllDigits(s: string) { forall i :: 0 <= i < |s| ==> IsDigit(s[i]) }

  /** A string `isNaN` accepts as a number, within this model. */
  predicate IsDecimal(s: string) { |s| > 0 && AllDigits(s) }

  function DigitValue(c: char): (d: nat)
    requires IsDigit(c)
    ensures d < 10
  {
    (c as int) - ('0' as int)
  }

  function DigitChar(d: nat): (c: char)
    requires d < 10
    ensures IsDigit(c) && DigitValue(c) == d
  {
    (('0' as int) + d) as char
  }

  /** The base-10 value of a run of digits (the empty run is 0). */
  function DecimalValue(s: string): nat
    requires AllDigits(s)
  {
    if |s| == 0 then 0 else 10 * DecimalValue(s[..|s| - 1]) + DigitValue(s[|s| - 1])
  }

  /** The decimal numeral of a natural number (no exponent form). */
  function Decimal(n: nat): (s: string)
    ensures IsDecimal(s)
  {
    if n < 10 then [DigitChar(n)] else Decimal(n / 10) + [DigitChar(n % 10)]
  }

  /** The longest run of digits `s` starts with. */
  function DigitPrefix(s: string): (p: string)
    ensures AllDigits(p) && p <= s
    ensures |p| < |s| ==> !IsDigit(s[|p|])
  {
    if |s| == 0 || !IsDigit(s[0]) then "" else [s[0]] + DigitPrefix(s[1..])
  }

  /** `parseInt(s)`: the value of the leading digits, NaN when there are none. */
  function ParseInt(s: string): (v: Value)
    ensures v.Num? || v == NaN
    ensures v.Num? <==> |s| > 0 && IsDigit(s[0])
    ensures AllDigits(s) && |s| > 0 ==> v == Num(DecimalValue(s))
  {
    var p := DigitPrefix(s);
    DigitPrefixOfDigits(s);
    if |p| == 0 then NaN else Num(DecimalValue(p))
  }

  lemma {:induction false} DigitPrefixOfDigits(s: string)
    ensures AllDigits(s) ==> DigitPrefix(s) == s
  {
    if |s| > 0 && AllDigits(s) {
      DigitPrefixOfDigits(s[1..]);
    }
  }

  /** `s.split(',')`. */
  function SplitCommas(s: string): (parts: seq<string>)
    ensures |parts| >= 1
    ensures forall k :: 0 <= k < |parts| ==> ',' !in parts[k]
  {
    if |s| == 0 then [""]
    else
      var rest := SplitCommas(s[1..]);
      if s[0] == ',' then [""] + rest else [[s[0]] + rest[0]] + rest[1..]
  }

  /** `parts.join(',')`. */
  function JoinCommas(parts: seq<string>): (s: string)
    requires |parts| >= 1
    ensures (forall k :: 0 <= k < |parts| ==> ',' !in parts[k]) ==> (',' in s <==> |parts| > 1)
  {
    if |parts| == 1 then parts[0] else parts[0] + "," + JoinCommas(parts[1..])
  }

  /** `parts.map(color => parseInt(color))`. */
  function ParseEach(parts: seq<string>): (vs: seq<Value>)
    ensures |vs| == |parts|
    ensures forall k :: 0 <= k < |parts| ==> vs[k] == ParseInt(parts[k])
  {
    seq(|parts|, k requires 0 <= k < |parts| => ParseInt(parts[k]))
  }

  /** The stored value, and whether the source logged "is not handled". */
  datatype Coerced = Coerced(value: Value, warned: bool)

  /** ADD_KEYFRAME's coercion of `keyframeValue`. */
  function CoerceKeyframeValue(s: string): (c: Coerced)
    ensures c.warned <==> !IsDecimal(s) && ',' !in s
    ensures c.warned ==> c.value == Str(s)
    ensures IsDecimal(s) ==> c.value == Num(DecimalValue(s))
    ensures ',' in s ==> c.value.List? && |c.value.items| == |SplitCommas(s)|
    ensures ',' in s ==> forall k :: 0 <= k < |SplitCommas(s)| ==> c.value.items[k] == ParseInt(SplitCommas(s)[k])
  {
    if IsDecimal(s) then Coerced(Num(DecimalValue(s)), false)
    else if ',' in s then Coerced(List(ParseEach(SplitCommas(s))), false)
    else Coerced(Str(s), true)
  }

  /** Writing a number and reading it back gives the number. */
  lemma {:induction false} DecimalRoundTrip(n: nat)
    ensures DecimalValue(Decimal(n)) == n
  {
    if n >= 10 {
      DecimalRoundTrip(n / 10);
      var s := Decimal(n);
      assert s[..|s| - 1] == Decimal(n / 10);
    }
  }

  /** Splitting a comma-free prefix glued to `t` adds it to the first part of `t`. */
  lemma {:induction false} SplitCommasPrefix(p: string, t: string)
    requires ',' !in p
    ensures SplitCommas(p + t) == [p + SplitCommas(t)[0]] + SplitCommas(t)[1..]
  {
    if |p| > 0 {
      assert (p + t)[1..] == p[1..] + t;
      SplitCommasPrefix(p[1..], t);
      assert [p[0]] + (p[1..] + SplitCommas(t)[0]) == p + SplitCommas(t)[0];
    } else {
      var parts := SplitCommas(t);
      assert p + t == t;
      assert p + parts[0] == parts[0];
      assert [parts[0]] + parts[1..] == parts;
    }
  }

  /** Splitting undoes joining comma-free parts. */
  lemma {:induction false} SplitJoin(parts: seq<string>)
    requires |parts| >= 1
    requires forall k :: 0 <= k < |parts| ==> ',' !in parts[k]
    ensures SplitCommas(JoinCommas(parts)) == parts
  {
    if |parts| == 1 {
      SplitCommasPrefix(parts[0], "");
      assert parts[0] + "" == parts[0];
    } else {
      var rest := JoinCommas(parts[1..]);
      SplitJoin(parts[1..]);
      assert parts[0] + "," + rest == parts[0] + ("," + rest);
      SplitCommasPrefix(parts[0], "," + rest);
      assert ("," + rest)[1..] == rest;
      assert SplitCommas("," + rest) == [""] + parts[1..];
      assert parts[0] + "" == parts[0];
    }
  }

  /** Joining undoes splitting. */
  lemma {:induction false} JoinSplit(s: string)
    ensures JoinCommas(SplitCommas(s)) == s
  {
    if |s| > 0 {
      JoinSplit(s[1..]);
      var rest := SplitCommas(s[1..]);
      if s[0] == ',' {
        assert s == "," + s[1..];
      } else if |rest| == 1 {
        assert s == [s[0]] + s[1..];
      } else {
        assert JoinCommas(rest) == rest[0] + "," + JoinCommas(rest[1..]);
        assert s == [s[0]] + s[1..];
      }
    }
  }

  /** The numerals of `xs`. */
  function Decimals(xs: seq<nat>): (ss: seq<string>)
    ensures |ss| == |xs|
    ensures forall k :: 0 <= k < |xs| ==> ss[k] == Decimal(xs[k])
  {
    seq(|xs|, k requires 0 <= k < |xs| => Decimal(xs[k]))
  }

  /** A numeral is stored as its integer, without a warning. */
  lemma CoerceNumeral(n: nat)
    ensures CoerceKeyframeValue(Decimal(n)) == Coerced(Num(n), false)
  {
    DecimalRoundTrip(n);
  }

  /** Two or more comma-separated numerals (an RGB colour such as "255,0,128")
      are stored as the list of their integers, without a warning. */
  lemma CoerceColour(xs: seq<nat>)
    requires |xs| >= 2
    ensures CoerceKeyframeValue(JoinCommas(Decimals(xs))) == Coerced(List(seq(|xs|, k requires 0 <= k < |xs| => Num(xs[k]))), false)
  {
    var parts := Decimals(xs);
    forall k | 0 <= k < |parts|
      ensures ',' !in parts[k]
    {
      assert AllDigits(parts[k]);
      assert forall i :: 0 <= i < |parts[k]| ==> parts[k][i] != ',';
    }
    var s := JoinCommas(parts);
    assert ',' in s;
    assert !IsDecimal(s) by {
      var i :| 0 <= i < |s| && s[i] == ',';
      assert !IsDigit(s[i]);
    }
    SplitJoin(parts);
    forall k | 0 <= k < |xs|
      ensures ParseInt(parts[k]) == Num(xs[k])
    {
      DecimalRoundTrip(xs[k]);
    }
  }

  /** The three cases on sample inputs: "5" is 5, "1,2,3" is [1,2,3], and "abc"
      is kept as it is with a warning. */
  lemma CoercionExamples()
    ensures CoerceKeyframeValue("5") == Coerced(Num(5), false)
    ensures CoerceKeyframeValue("1,2,3") == Coerced(List([Num(1), Num(2), Num(3)]), false)
    ensures CoerceKeyframeValue("abc") == Coerced(Str("abc"), true)
  {
    CoerceNumeral(5);
    CoerceColour([1, 2, 3]);
    assert JoinCommas(Decimals([1, 2, 3])) == "1,2,3";
    assert !IsDigit('a');
  }
}
