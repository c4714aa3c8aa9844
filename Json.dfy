/**
 * Decoded JSON values and the handful of Python conversions the ingestion
 * code applies to them: `float(x)`, `int(x)`, `str.isdigit()` and the
 * decimal rendering of a non-negative integer (`f'{i}'`).
 */
module Json {

  datatype Option<+T> = None | Some(value: T)

  /** A value produced by `json.loads`: JSON integers and JSON floats stay distinct, as in Python. */
  datatype Json =
    | JNull
    | JBool(b: bool)
    | JInt(i: int)
    | JFloat(r: real)
    | JStr(s: string)
    | JArr(items: seq<Json>)
    | JObj(fields: map<string, Json>)

  /** `d.get(key, default)` on a dictionary. */
  function Get(d: map<string, Json>, key: string, default: Json): (v: Json)
    ensures key in d ==> v == d[key]
    ensures key !in d ==> v == default
  {
    if key in d then d[key] else default
  }

  predicate IsDigit(c: char) {
    '0' <= c <= '9'
  }

  predicate AllDigits(s: string) {
    forall i :: 0 <= i < |s| ==> IsDigit(s[i])
  }

  /** Python's `s.isdigit()` restricted to ASCII digits: false on the empty string. */
  predicate IsDigitString(s: string) {
    |s| > 0 && AllDigits(s)
  }

  /** The value of a string of decimal digits, most significant first. */
  function DigitsValue(s: string): nat
    requires AllDigits(s)
  {
    if s == [] then 0 else 10 * DigitsValue(s[..|s| - 1]) + (s[|s| - 1] as int - '0' as int)
  }

  function Pow10(k: nat): (r: nat)
    ensures r >= 1
  {
    if k == 0 then 1 else 10 * Pow10(k - 1)
  }

  /** The decimal rendering of a natural number, as `str(n)` gives it. */
  function NatToString(n: nat): (s: string)
    ensures IsDigitString(s)
    ensures |s| > 1 ==> s[0] != '0'
    decreases n
  {
    if n < 10 then [('0' as int + n) as char]
    else NatToString(n / 10) + [('0' as int + n % 10) as char]
  }

  /** Rendering and reading back a natural number gives the number again. */
  lemma {:induction false} NatToStringRoundTrip(n: nat)
    ensures DigitsValue(NatToString(n)) == n
    decreases n
  {
    if n >= 10 {
      var s := NatToString(n);
      var p := NatToString(n / 10);
      assert s[..|s| - 1] == p;
      NatToStringRoundTrip(n / 10);
    }
  }

  /** `str(i)` for a Python int. */
  function IntToString(i: int): string {
    if i < 0 then "-" + NatToString(-i) else NatToString(i)
  }

  /** A leading '+' or '-' and the rest of the string. */
  function SplitSign(s: string): (bool, string) {
    if |s| > 0 && (s[0] == '-' || s[0] == '+') then (s[0] == '-', s[1..]) else (false, s)
  }

  /** Index of the first c in s, or |s| when there is none. */
  function IndexOf(s: string, c: char): (k: nat)
    ensures k <= |s|
    ensures k < |s| ==> s[k] == c
  {
    if s == [] then 0
    else if s[0] == c then 0
    else 1 + IndexOf(s[1..], c)
  }

  /** IndexOf finds the first occurrence: c does not occur before it. */
  lemma {:induction false} IndexOfFirst(s: string, c: char)
    ensures forall j :: 0 <= j < IndexOf(s, c) ==> s[j] != c
    decreases |s|
  {
    if s != [] && s[0] != c {
      IndexOfFirst(s[1..], c);
      forall j | 0 <= j < IndexOf(s, c) ensures s[j] != c {
        if j > 0 {
          assert s[j] == s[1..][j - 1];
        }
      }
    }
  }

  /** A digit string has no decimal point. */
  lemma {:induction false} NoPointInDigits(s: string)
    requires AllDigits(s)
    ensures IndexOf(s, '.') == |s|
  {
    var k := IndexOf(s, '.');
    if k < |s| {
      assert false;
    }
  }

  /** The first '.' after a run of digits is the one that ends the run. */
  lemma {:induction false} PointAfterDigits(w: string, rest: string)
    requires AllDigits(w) && rest != [] && rest[0] == '.'
    ensures IndexOf(w + rest, '.') == |w|
    decreases |w|
  {
    if w != [] {
      assert (w + rest)[0] == w[0];
      assert (w + rest)[1..] == w[1..] + rest;
      PointAfterDigits(w[1..], rest);
    }
  }

  /**
   * The text `float()` accepts after its sign: digits and at most one '.', with at
   * least one digit somewhere.
   */
  predicate DecimalBody(b: string) {
    && (forall i :: 0 <= i < |b| ==> IsDigit(b[i]) || b[i] == '.')
    && (forall i, j :: 0 <= i < j < |b| && b[i] == '.' ==> b[j] != '.')
    && (exists i :: 0 <= i < |b| && IsDigit(b[i]))
  }

  /** Splitting at the first '.' gives two digit runs, not both empty, exactly when the text is a DecimalBody. */
  lemma DecimalSplit(b: string)
    ensures var k := IndexOf(b, '.');
      var whole := b[..k];
      var frac := if k < |b| then b[k + 1..] else [];
      AllDigits(whole) && AllDigits(frac) && |whole| + |frac| > 0 <==> DecimalBody(b)
  {
    var k := IndexOf(b, '.');
    IndexOfFirst(b, '.');
    var whole := b[..k];
    var frac: string := if k < |b| then b[k + 1..] else [];
    if AllDigits(whole) && AllDigits(frac) && |whole| + |frac| > 0 {
      forall i | 0 <= i < |b| ensures IsDigit(b[i]) || b[i] == '.' {
        if i < k {
          assert b[i] == whole[i];
        } else if i > k {
          assert b[i] == frac[i - k - 1];
        }
      }
      forall i, j | 0 <= i < j < |b| && b[i] == '.' ensures b[j] != '.' {
        assert b[j] == frac[j - k - 1];
      }
      if |whole| > 0 {
        assert b[0] == whole[0];
      } else {
        assert b[k + 1] == frac[0];
      }
    }
    if DecimalBody(b) {
      forall i | 0 <= i < |whole| ensures IsDigit(whole[i]) {
        assert whole[i] == b[i];
      }
      forall i | 0 <= i < |frac| ensures IsDigit(frac[i]) {
        assert frac[i] == b[k + 1 + i];
      }
      var i :| 0 <= i < |b| && IsDigit(b[i]);
      if i < k {
        assert |whole| > 0;
      } else {
        assert i > k;
        assert |frac| > 0;
      }
    }
  }

  /**
   * `int(s)` on a string: an optional sign followed by at least one digit.
   * Surrounding blanks and '_' separators, which Python also accepts, are not modelled.
   */
  function ParseInteger(s: string): (r: Option<int>)
    ensures r.Some? <==> IsDigitString(SplitSign(s).1)
  {
    var (neg, body) := SplitSign(s);
    if IsDigitString(body) then Some(if neg then -(DigitsValue(body) as int) else DigitsValue(body))
    else None
  }

  /** `int()` of a digit string is its decimal value, negated under a leading '-'. */
  lemma ParseIntegerValue(w: string)
    requires IsDigitString(w)
    ensures ParseInteger(w) == Some(DigitsValue(w))
    ensures ParseInteger("-" + w) == Some(-(DigitsValue(w) as int))
  {
    assert IsDigit(w[0]);
    assert SplitSign(w) == (false, w);
    assert ("-" + w)[1..] == w;
  }

  /**
   * `float(s)` on a string: an optional sign, digits, at most one '.', and
   * at least one digit. Exponents, blanks, '_' and inf/nan are not modelled.
   */
  function ParseDecimal(s: string): (r: Option<real>)
    ensures r.Some? <==> DecimalBody(SplitSign(s).1)
    ensures r.Some? ==> |s| > 0
  {
    var (neg, body) := SplitSign(s);
    DecimalSplit(body);
    var k := IndexOf(body, '.');
    var whole := body[..k];
    var frac := if k < |body| then body[k + 1..] else [];
    if AllDigits(whole) && AllDigits(frac) && |whole| + |frac| > 0 then
      var mag := DigitsValue(whole) as real + DigitsValue(frac) as real / Pow10(|frac|) as real;
      Some(if neg then -mag else mag)
    else None
  }

  /** The value of digits, a point and digits: the whole part plus the fraction digits over their power of ten. */
  function DecimalValue(w: string, f: string): real
    requires AllDigits(w) && AllDigits(f)
  {
    DigitsValue(w) as real + DigitsValue(f) as real / Pow10(|f|) as real
  }

  /** `float()` of a plain digit string is its decimal value. */
  lemma ParseDecimalDigits(w: string)
    requires IsDigitString(w)
    ensures ParseDecimal(w) == Some(DigitsValue(w) as real)
  {
    var empty: string := [];
    assert DigitsValue(empty) == 0 && Pow10(|empty|) == 1;
    assert IsDigit(w[0]);
    assert SplitSign(w) == (false, w);
    NoPointInDigits(w);
    assert w[..IndexOf(w, '.')] == w;
  }

  /** `float()` of digits, a point and digits is their DecimalValue. */
  lemma ParseDecimalPoint(w: string, f: string)
    requires AllDigits(w) && AllDigits(f) && |w| + |f| > 0
    ensures ParseDecimal(w + "." + f) == Some(DecimalValue(w, f))
  {
    var body := w + "." + f;
    PointSplit(w, f);
    assert SplitSign(body) == (false, body);
    var k := IndexOf(body, '.');
    assert body[..k] == w;
    assert (if k < |body| then body[k + 1..] else []) == f;
  }

  /** Under a leading '-', `float()` of digits, a point and digits is the negated DecimalValue. */
  lemma ParseDecimalNegative(w: string, f: string)
    requires AllDigits(w) && AllDigits(f) && |w| + |f| > 0
    ensures ParseDecimal("-" + w + "." + f) == Some(-DecimalValue(w, f))
  {
    var body := w + "." + f;
    PointSplit(w, f);
    var neg := "-" + w + "." + f;
    assert neg[1..] == body;
    assert SplitSign(neg) == (true, body);
    var k := IndexOf(body, '.');
    assert body[..k] == w;
    assert (if k < |body| then body[k + 1..] else []) == f;
  }

  /** Where digits, a point and digits split: at the point, into the two runs. */
  lemma PointSplit(w: string, f: string)
    requires AllDigits(w) && AllDigits(f) && |w| + |f| > 0
    ensures var body := w + "." + f;
      && IndexOf(body, '.') == |w| && body[..|w|] == w && body[|w| + 1..] == f
      && (body[0] == '.' || IsDigit(body[0]))
  {
    var body := w + "." + f;
    assert body == w + ("." + f);
    PointAfterDigits(w, "." + f);
    if |w| > 0 {
      assert body[0] == w[0];
    }
  }

  /** Python's `int(r)` on a float truncates toward zero. */
  function Truncate(r: real): (n: int)
    ensures r >= 0.0 ==> n as real <= r < n as real + 1.0
    ensures r < 0.0 ==> n as real - 1.0 < r <= n as real
  {
    if r >= 0.0 then r.Floor else -((-r).Floor)
  }

  /** Python's `float(x)` on a decoded JSON value; None stands for the exception it raises. */
  function ToFloat(j: Json): (r: Option<real>)
    ensures j.JInt? ==> r == Some(j.i as real)
    ensures j.JFloat? ==> r == Some(j.r)
    ensures j.JBool? ==> r == Some(if j.b then 1.0 else 0.0)
    ensures j.JStr? ==> r == ParseDecimal(j.s)
    ensures j.JNull? || j.JArr? || j.JObj? ==> r.None?
  {
    match j
    case JBool(b) => Some(if b then 1.0 else 0.0)
    case JInt(i) => Some(i as real)
    case JFloat(r) => Some(r)
    case JStr(s) => ParseDecimal(s)
    case _ => None
  }

  /** Python's `int(x)` on a decoded JSON value; None stands for the exception it raises. */
  function ToInt(j: Json): (r: Option<int>)
    ensures j.JInt? ==> r == Some(j.i)
    ensures j.JFloat? ==> r == Some(Truncate(j.r))
    ensures j.JBool? ==> r == Some(if j.b then 1 else 0)
    ensures j.JStr? ==> r == ParseInteger(j.s)
    ensures j.JNull? || j.JArr? || j.JObj? ==> r.None?
  {
    match j
    case JBool(b) => Some(if b then 1 else 0)
    case JInt(i) => Some(i)
    case JFloat(r) => Some(Truncate(r))
    case JStr(s) => ParseInteger(s)
    case _ => None
  }

  /** `int(str(n))` is n again: the tank ids the table renders can be read back from text. */
  lemma IntOfRenderedId(n: nat)
    ensures ToInt(JStr(NatToString(n))) == Some(n)
  {
    var s := NatToString(n);
    assert SplitSign(s) == (false, s);
    NatToStringRoundTrip(n);
  }

  /** Sequence concatenation regrouped, for the folds that append one step at a time. */
  lemma AppendAssoc<T>(a: seq<T>, b: seq<T>, c: seq<T>)
    ensures (a + b) + c == a + (b + c)
  {
  }
}
