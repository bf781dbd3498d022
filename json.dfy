/** JSON-shaped values as the Python code sees them after `json.loads`, with the
    truthiness test (`if x:`) and the `int(x)`, `float(x)` and `str(x)` conversions
    the order builder applies to them. */
module Json {
  import opened Wrappers
  import opened Strs

  /** `JFloat(r)` is a Python float (finite, exact). `JFloatStr(r)` is the string
      `str(r)` of such a float: the model keeps the number rather than its digits. */
  datatype Json =
    | JNull
    | JBool(b: bool)
    | JInt(i: int)
    | JFloat(r: real)
    | JFloatStr(r: real)
    | JStr(s: string)
    | JArr(items: seq<Json>)
    | JObj(fields: map<string, Json>)

  type Dict = map<string, Json>

  /** Python truthiness. */
  predicate Truthy(j: Json) {
    match j
    case JNull => false
    case JBool(b) => b
    case JInt(i) => i != 0
    case JFloat(r) => r != 0.0
    case JFloatStr(_) => true
    case JStr(s) => s != ""
    case JArr(xs) => |xs| > 0
    case JObj(m) => |m| > 0
  }

  /** `d.get(k, default)` */
  function Get(d: Dict, k: string, default: Json): Json {
    if k in d then d[k] else default
  }

  predicate AllDigits(s: string) {
    forall i :: 0 <= i < |s| ==> IsDigit(s[i])
  }

  /** Splits an optional leading sign off. */
  function Sign(s: string): (r: (int, string))
    ensures r.0 == 1 || r.0 == -1
    ensures |r.1| <= |s|
  {
    if |s| > 0 && s[0] == '-' then (-1, s[1..])
    else if |s| > 0 && s[0] == '+' then (1, s[1..])
    else (1, s)
  }

  /** `int(s)` for a string: surrounding whitespace, an optional sign and at least
      one decimal digit; anything else is a ValueError (None). */
  function ParseInt(s: string): (r: Option<int>)
    ensures r.Some? ==> exists c :: c in Trim(s) && IsDigit(c)
  {
    var (sg, body) := Sign(Trim(s));
    if |body| > 0 && AllDigits(body) then
      assert body[0] in Trim(s);
      Some(sg * DigitsValue(body))
    else None
  }

  /** `float(s)` for a string: whitespace, an optional sign, digits with at most one
      decimal point and at least one digit, then optionally an exponent (`e` or `E`, an
      optional sign and at least one digit); anything else is a ValueError (None). */
  function ParseDecimal(s: string): Option<real> {
    var (sg, body) := Sign(Trim(s));
    match UnsignedDecimal(body)
    case None => None
    case Some(v) => Some(if sg < 0 then -v else v)
  }

  /** The number after the sign: a mantissa and an optional exponent. */
  function UnsignedDecimal(body: string): Option<real> {
    var (mant, ex) := SplitExponent(body);
    var m := Mantissa(mant);
    var e := if ex.Some? then Exponent(ex.value) else Some(0);
    if m.Some? && e.Some? then Some(Scale(m.value.0, e.value - m.value.1)) else None
  }

  predicate IsExponentMark(c: char) { c == 'e' || c == 'E' }

  /** The text before the first `e` or `E`, and the rest after it when there is one. */
  function SplitExponent(s: string): (r: (string, Option<string>))
    ensures r.1.None? ==> r.0 == s && forall i :: 0 <= i < |s| ==> !IsExponentMark(s[i])
    ensures r.1.Some? ==> |r.0| < |s| && IsExponentMark(s[|r.0|]) && s == r.0 + [s[|r.0|]] + r.1.value
                          && forall i :: 0 <= i < |r.0| ==> !IsExponentMark(s[i])
  {
    if |s| == 0 then ("", None)
    else if IsExponentMark(s[0]) then ("", Some(s[1..]))
    else
      var (h, t) := SplitExponent(s[1..]);
      assert s == [s[0]] + s[1..];
      ([s[0]] + h, t)
  }

  /** The split falls at the first exponent mark, or nowhere when there is none. */
  lemma SplitExponentAt(s: string, k: nat)
    requires k <= |s| && (k < |s| ==> IsExponentMark(s[k])) && forall i :: 0 <= i < k ==> !IsExponentMark(s[i])
    ensures k < |s| ==> SplitExponent(s) == (s[..k], Some(s[k + 1..]))
    ensures k == |s| ==> SplitExponent(s) == (s, None)
  {
    var r := SplitExponent(s);
    if k < |s| {
      assert r.1.Some?;
      assert |r.0| == k;
      assert s[..k] == r.0;
      assert s[k + 1..] == r.1.value;
    }
  }

  /** Digits with at most one decimal point and at least one digit, as the integer all
      the digits spell and the number of digits after the point. */
  function Mantissa(t: string): Option<(nat, nat)> {
    var (ip, fp) := SplitOnce(t, '.');
    var frac := if fp.Some? then fp.value else "";
    if AllDigits(ip) && AllDigits(frac) && |ip| + |frac| > 0 then
      assert AllDigits(ip + frac) by {
        assert forall i :: 0 <= i < |ip + frac| ==> (ip + frac)[i] == if i < |ip| then ip[i] else frac[i - |ip|];
      }
      Some((DigitsValue(ip + frac), |frac|))
    else None
  }

  /** An exponent: an optional sign and at least one digit. */
  function Exponent(t: string): Option<int> {
    var (sg, digits) := Sign(t);
    if |digits| > 0 && AllDigits(digits) then Some(sg * DigitsValue(digits)) else None
  }

  /** `m * 10 ** e`, exactly. */
  function Scale(m: nat, e: int): (r: real)
    ensures r >= 0.0
    ensures m > 0 ==> r > 0.0
  {
    if e >= 0 then (m * Pow10(e)) as real else m as real / Pow10(-e) as real
  }

  function Pow10(n: nat): (r: nat)
    ensures r >= 1
  {
    if n == 0 then 1 else 10 * Pow10(n - 1)
  }

  /** `int(x)`; None stands for the ValueError or TypeError Python raises. */
  function PyInt(j: Json): Option<int> {
    match j
    case JInt(i) => Some(i)
    case JBool(b) => Some(if b then 1 else 0)
    case JStr(s) => ParseInt(s)
    case JFloat(r) => Some(TruncateReal(r))
    // the text of a float always holds a '.', an exponent, "inf" or "nan"
    case JFloatStr(_) => None
    case _ => None
  }

  /** `float(x)`; None stands for the ValueError or TypeError Python raises. */
  function PyFloat(j: Json): Option<real> {
    match j
    case JInt(i) => Some(i as real)
    case JBool(b) => Some(if b then 1.0 else 0.0)
    case JStr(s) => ParseDecimal(s)
    case JFloat(r) => Some(r)
    case JFloatStr(r) => Some(r)
    case _ => None
  }

  /** `int(r)` for a float: rounds toward zero. */
  function TruncateReal(r: real): (n: int)
    ensures r >= 0.0 ==> 0 <= n && n as real <= r < n as real + 1.0
    ensures r < 0.0 ==> n <= 0 && n as real - 1.0 < r <= n as real
  {
    if r >= 0.0 then r.Floor else -((-r).Floor)
  }

  /** `str(x)` for scalars; strings and containers are kept as they are (their repr is not rendered). */
  function PyStr(j: Json): Json {
    match j
    case JNull => JStr("None")
    case JBool(b) => JStr(if b then "True" else "False")
    case JInt(i) => JStr(IntToString(i))
    case JFloat(r) => JFloatStr(r)
    case _ => j
  }

  /** What `int()` reads back: optional whitespace, an optional sign and decimal digits,
      with the value the digits spell, negated after a '-'. */
  lemma ParseIntValue(s: string)
    ensures var t := Trim(s);
            ParseInt(s).Some? <==>
              || (|t| > 0 && AllDigits(t))
              || (|t| > 1 && (t[0] == '-' || t[0] == '+') && AllDigits(t[1..]))
    ensures var t := Trim(s);
            ParseInt(s).Some? ==>
              if t[0] == '-' then ParseInt(s).value == -(DigitsValue(t[1..]) as int) && ParseInt(s).value <= 0
              else if t[0] == '+' then ParseInt(s).value == DigitsValue(t[1..]) && ParseInt(s).value >= 0
              else ParseInt(s).value == DigitsValue(t) && ParseInt(s).value >= 0
  {
    var t := Trim(s);
    if |t| > 0 && AllDigits(t) {
      assert IsDigit(t[0]);
    }
  }

  /** `int(str(n)) == n`: the decimal rendering of any integer reads back as it. */
  lemma ParseIntRoundTrip(n: int)
    ensures ParseInt(IntToString(n)) == Some(n)
  {
    var a := if n < 0 then -n else n;
    var s := IntToString(n);
    NatToStringRoundTrip(a);
    IntToStringTrimmed(n);
    ParseIntValue(s);
    if n < 0 {
      assert s[1..] == NatToString(a);
    }
  }

  /** A run of digits has no exponent. */
  lemma DigitsHaveNoExponent(d: string)
    requires AllDigits(d)
    ensures SplitExponent(d) == (d, None)
  {
    SplitExponentAt(d, |d|);
  }

  /** A run of digits, without a point, is read as its value. */
  lemma MantissaOfDigits(d: string)
    requires |d| > 0 && AllDigits(d)
    ensures Mantissa(d) == Some((DigitsValue(d), 0))
  {
    SplitOnceAt(d, '.', |d|);
    assert d + "" == d;
  }

  /** A run of digits is read as its value. */
  lemma UnsignedDigits(d: string)
    requires |d| > 0 && AllDigits(d)
    ensures UnsignedDecimal(d) == Some(DigitsValue(d) as real)
  {
    var v := DigitsValue(d);
    DigitsHaveNoExponent(d);
    MantissaOfDigits(d);
    ScaleByOne(v);
    UnsignedDecimalParts(d, d, None, (v, 0), 0);
  }

  /** Scaling by ten to the zero changes nothing. */
  lemma ScaleByOne(m: nat)
    ensures Scale(m, 0) == m as real
  {
    assert Pow10(0) == 1;
  }

  /** `float(s)` from its parts: the sign, and the number after it. */
  lemma ParseDecimalParts(s: string, sg: int, body: string, v: real)
    requires Sign(Trim(s)) == (sg, body) && UnsignedDecimal(body) == Some(v)
    ensures ParseDecimal(s) == Some(if sg < 0 then -v else v)
  {
  }

  /** The number after the sign from its parts: the mantissa and the exponent. */
  lemma UnsignedDecimalParts(body: string, mant: string, ex: Option<string>, m: (nat, nat), e: int)
    requires SplitExponent(body) == (mant, ex)
    requires Mantissa(mant) == Some(m)
    requires (if ex.Some? then Exponent(ex.value) else Some(0)) == Some(e)
    ensures UnsignedDecimal(body) == Some(Scale(m.0, e - m.1))
  {
  }

  /** Every text `int()` accepts, `float()` accepts too, with the same value. */
  lemma ParseDecimalOfIntText(s: string)
    requires ParseInt(s).Some?
    ensures ParseDecimal(s) == Some(ParseInt(s).value as real)
  {
    var (sg, body) := Sign(Trim(s));
    assert |body| > 0 && AllDigits(body);
    UnsignedDigits(body);
    ParseDecimalParts(s, sg, body, DigitsValue(body) as real);
  }

  /** `float(str(n)) == n` for any integer n. */
  lemma ParseDecimalOfInt(n: int)
    ensures ParseDecimal(IntToString(n)) == Some(n as real)
  {
    ParseIntRoundTrip(n);
    ParseDecimalOfIntText(IntToString(n));
  }

  /** Text that starts with neither whitespace nor a sign and does not end in
      whitespace is read as an unsigned number. */
  lemma ParseDecimalUnsigned(s: string)
    requires |s| > 0 && !IsSpace(s[0]) && !IsSpace(s[|s| - 1]) && s[0] != '-' && s[0] != '+'
    ensures ParseDecimal(s) == UnsignedDecimal(s)
  {
    TrimUnchanged(s);
    assert Sign(s) == (1, s);
  }

  /** Digits around a decimal point: all the digits, and how many follow the point. */
  lemma MantissaWithPoint(ip: string, frac: string)
    requires AllDigits(ip) && AllDigits(frac) && |ip| + |frac| > 0
    ensures Mantissa(ip + "." + frac) == Some((DigitsValue(ip + frac), |frac|))
  {
    var t := ip + "." + frac;
    assert forall i :: 0 <= i < |ip| ==> t[i] == ip[i];
    SplitOnceAt(t, '.', |ip|);
    assert t[..|ip|] == ip && t[|ip| + 1..] == frac;
  }

  /** Text without an exponent mark, a mark, and the rest splits at that mark. */
  lemma SplitExponentOfConcat(mant: string, mark: char, ex: string)
    requires IsExponentMark(mark) && forall i :: 0 <= i < |mant| ==> !IsExponentMark(mant[i])
    ensures SplitExponent(mant + [mark] + ex) == (mant, Some(ex))
  {
    var s := mant + [mark] + ex;
    assert forall i :: 0 <= i < |mant| ==> s[i] == mant[i];
    SplitExponentAt(s, |mant|);
    assert s[..|mant|] == mant && s[|mant| + 1..] == ex;
  }

  /** A mantissa, an exponent mark and an exponent: the mantissa's digits times ten to
      the exponent less the number of digits after the point. */
  lemma UnsignedWithExponent(mant: string, mark: char, ex: string)
    requires IsExponentMark(mark) && forall i :: 0 <= i < |mant| ==> !IsExponentMark(mant[i])
    requires Mantissa(mant).Some? && Exponent(ex).Some?
    ensures UnsignedDecimal(mant + [mark] + ex)
            == Some(Scale(Mantissa(mant).value.0, Exponent(ex).value - Mantissa(mant).value.1))
  {
    SplitExponentOfConcat(mant, mark, ex);
    UnsignedDecimalParts(mant + [mark] + ex, mant, Some(ex), Mantissa(mant).value, Exponent(ex).value);
  }

  /** After the sign, "1e3" is 1 times ten to the three. */
  lemma UnsignedThousand()
    ensures UnsignedDecimal("1e3") == Some(1000.0)
  {
    assert DigitsValue("1") == 1 && DigitsValue("3") == 3 by {
      assert "1"[..0] == [] && "3"[..0] == [];
    }
    MantissaOfDigits("1");
    assert Exponent("3") == Some(3);
    UnsignedWithExponent("1", 'e', "3");
    assert "1" + ['e'] + "3" == "1e3";
    assert Pow10(3) == 1000;
  }

  /** "1e3" is 1000: a positive exponent multiplies by a power of ten. */
  lemma ParseDecimalPositiveExponent()
    ensures ParseDecimal("1e3") == Some(1000.0)
  {
    UnsignedThousand();
    ParseDecimalUnsigned("1e3");
  }

  /** "2.5" spells 25 with one digit after the point. */
  lemma MantissaTwoPointFive()
    ensures Mantissa("2.5") == Some((25, 1))
  {
    assert DigitsValue("25") == 25 by {
      assert "25"[..1] == "2" && "2"[..0] == [];
    }
    MantissaWithPoint("2", "5");
    assert "2" + "." + "5" == "2.5" && "2" + "5" == "25";
  }

  /** "-1" is the exponent minus one. */
  lemma ExponentMinusOne()
    ensures Exponent("-1") == Some(-1)
  {
    assert DigitsValue("1") == 1 by {
      assert "1"[..0] == [];
    }
    assert Sign("-1") == (-1, "1");
  }

  /** After the sign, "2.5E-1" is 25 divided by ten to the two. */
  lemma UnsignedQuarter()
    ensures UnsignedDecimal("2.5E-1") == Some(0.25)
  {
    MantissaTwoPointFive();
    ExponentMinusOne();
    UnsignedWithExponent("2.5", 'E', "-1");
    assert "2.5" + ['E'] + "-1" == "2.5E-1";
    assert Scale(25, -2) == 0.25 by {
      assert Pow10(2) == 100;
    }
  }

  /** "2.5E-1" is a quarter: the exponent letter may be upper case, and a negative
      exponent divides. */
  lemma ParseDecimalNegativeExponent()
    ensures ParseDecimal("2.5E-1") == Some(0.25)
  {
    UnsignedQuarter();
    ParseDecimalUnsigned("2.5E-1");
  }

  /** An exponent needs a number before it and a digit after it. */
  lemma ParseDecimalBareExponent()
    ensures ParseDecimal("e3") == None && ParseDecimal("1e") == None
  {
    SplitExponentAt("e3", 0);
    assert "e3"[..0] == "";
    SplitOnceAt("", '.', 0);
    ParseDecimalUnsigned("e3");
    SplitExponentAt("1e", 1);
    assert "1e"[2..] == "";
    assert Exponent("") == None;
    ParseDecimalUnsigned("1e");
  }

  /** Text holding a letter, such as "invalid", is not a number: `int()` raises. */
  lemma ParseIntRejectsLetters(s: string, k: nat)
    requires k < |Trim(s)| && 'a' <= Trim(s)[k] <= 'z'
    ensures ParseInt(s) == None
  {
    var t := Trim(s);
    var (sg, body) := Sign(t);
    if body != t {
      assert body == t[1..] && k > 0 && body[k - 1] == t[k];
    }
  }
}
