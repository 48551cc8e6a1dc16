/**
 * The slice of JavaScript value semantics the screens rely on: truthiness,
 * the `||` defaulting operator, `String.prototype.trim`, `parseInt(s, 10)`
 * and the conversion of an integer to its decimal text.
 */
module Js {

  /** An optional value: `null`/`undefined` versus something present. */
  datatype Option<+T> = None | Some(value: T)

  /**
   * The primitive JavaScript values the screens handle. Numbers are the
   * integers plus NaN; objects other than the records modelled elsewhere do
   * not occur here.
   */
  datatype JsValue = Undefined | Null | Bool(b: bool) | Num(n: int) | NaN | Str(s: string)

  /** The six falsy values of the modelled domain. */
  const FalsyValues: set<JsValue> := {Undefined, Null, Bool(false), Num(0), NaN, Str("")}

  /** `if (v)`: false exactly for undefined, null, false, 0, NaN and the empty string. */
  predicate Truthy(v: JsValue): (t: bool)
    ensures t <==> v !in FalsyValues
  {
    match v
    case Undefined => false
    case Null => false
    case NaN => false
    case Bool(b) => b
    case Num(n) => n != 0
    case Str(s) => s != ""
  }

  /** `a || b`: the left operand when it is truthy, the right one otherwise. */
  function Or(a: JsValue, b: JsValue): (r: JsValue) {
    if Truthy(a) then a else b
  }

  // ---------------------------------------------------------------------
  // Whitespace and String.prototype.trim
  // ---------------------------------------------------------------------

  /** WhiteSpace and LineTerminator code points, the set `trim` and `parseInt` skip. */
  predicate IsSpace(c: char) {
    || c == '\t' || c == '\n' || c == '\U{000B}' || c == '\U{000C}' || c == '\r'
    || c == ' ' || c == '\U{00A0}' || c == '\U{1680}'
    || ('\U{2000}' <= c <= '\U{200A}')
    || c == '\U{2028}' || c == '\U{2029}' || c == '\U{202F}' || c == '\U{205F}'
    || c == '\U{3000}' || c == '\U{FEFF}'
  }

  /** `s` with its leading whitespace removed: a suffix of `s`. */
  function TrimStart(s: string): (r: string)
    ensures |r| <= |s| && r == s[|s| - |r|..]
    ensures forall i :: 0 <= i < |s| - |r| ==> IsSpace(s[i])
    ensures r != [] ==> !IsSpace(r[0])
  {
    if s != [] && IsSpace(s[0]) then TrimStart(s[1..]) else s
  }

  /** `s` with its trailing whitespace removed: a prefix of `s`. */
  function TrimEnd(s: string): (r: string)
    ensures |r| <= |s| && r == s[..|r|]
    ensures forall i :: |r| <= i < |s| ==> IsSpace(s[i])
    ensures r != [] ==> !IsSpace(r[|r| - 1])
  {
    if s != [] && IsSpace(s[|s| - 1]) then TrimEnd(s[..|s| - 1]) else s
  }

  /** `s[..i]` and `s[j..]` hold only whitespace. */
  predicate SpaceOutside(s: string, i: int, j: int)
    requires 0 <= i <= j <= |s|
  {
    (forall k :: 0 <= k < i ==> IsSpace(s[k])) && (forall k :: j <= k < |s| ==> IsSpace(s[k]))
  }

  /**
   * `s.trim()`: the slice of `s` left when the whitespace before and after it
   * is dropped; it neither starts nor ends in whitespace.
   */
  function Trim(s: string): (r: string)
    ensures exists i, j :: 0 <= i <= j <= |s| && SpaceOutside(s, i, j) && r == s[i..j]
    ensures r != [] ==> !IsSpace(r[0]) && !IsSpace(r[|r| - 1])
  {
    var t := TrimStart(s);
    var r := TrimEnd(t);
    SliceBetweenSpaces(s, t, r);
    assert SpaceOutside(s, |s| - |t|, |s| - |t| + |r|);
    r
  }

  /**
   * Cutting whitespace off the front of `s` and then off the back of what is
   * left leaves a slice of `s` with whitespace only outside it.
   */
  lemma SliceBetweenSpaces(s: string, t: string, r: string)
    requires |t| <= |s| && t == s[|s| - |t|..] && forall i :: 0 <= i < |s| - |t| ==> IsSpace(s[i])
    requires |r| <= |t| && r == t[..|r|] && forall i :: |r| <= i < |t| ==> IsSpace(t[i])
    ensures SpaceOutside(s, |s| - |t|, |s| - |t| + |r|)
    ensures r == s[|s| - |t|..|s| - |t| + |r|]
  {
    var i, j := |s| - |t|, |s| - |t| + |r|;
    forall k | j <= k < |s| ensures IsSpace(s[k]) {
      assert s[k] == t[k - i];
    }
  }

  /** Trimming leaves nothing exactly when every character is whitespace. */
  lemma TrimEmptyIffBlank(s: string)
    ensures Trim(s) == "" <==> forall i :: 0 <= i < |s| ==> IsSpace(s[i])
  {
    var t := TrimStart(s);
    if Trim(s) == "" {
      var i, j :| 0 <= i <= j <= |s| && SpaceOutside(s, i, j) && Trim(s) == s[i..j];
      assert i == j;
    } else {
      var r := Trim(s);
      assert r == TrimEnd(t);
      assert t[0] == r[0];
      assert s[|s| - |t|] == t[0];
    }
  }

  // ---------------------------------------------------------------------
  // Decimal digits, parseInt(s, 10) and integer-to-string
  // ---------------------------------------------------------------------

  predicate IsDigit(c: char) {
    '0' <= c <= '9'
  }

  predicate AllDigits(s: string) {
    forall i :: 0 <= i < |s| ==> IsDigit(s[i])
  }

  function DigitValue(c: char): (d: nat)
    requires IsDigit(c)
    ensures d < 10
  {
    (c as int) - ('0' as int)
  }

  function DigitChar(d: nat): (c: char)
    requires d < 10
    ensures IsDigit(c) && DigitValue(c) == d
  {
    ('0' as int + d) as char
  }

  /** The length of the run of decimal digits at the front of `s`. */
  function DigitRun(s: string): (n: nat)
    ensures n <= |s| && AllDigits(s[..n])
    ensures n < |s| ==> !IsDigit(s[n])
  {
    if s != [] && IsDigit(s[0]) then
      var k := DigitRun(s[1..]);
      assert s[..k + 1] == [s[0]] + s[1..][..k];
      k + 1
    else
      0
  }

  /** The value of a string of decimal digits, most significant first. */
  function DigitsValue(d: string): (v: nat)
    requires AllDigits(d)
  {
    if d == [] then 0 else 10 * DigitsValue(d[..|d| - 1]) + DigitValue(d[|d| - 1])
  }

  /**
   * `parseInt(s, 10)`: skip leading whitespace, take an optional sign, then
   * the longest run of decimal digits; NaN when that run is empty.
   */
  function ParseInt10(s: string): (r: JsValue)
    ensures r.Num? || r.NaN?
    ensures r.NaN? <==> DigitRun(UnsignedPart(TrimStart(s))) == 0
  {
    var t := TrimStart(s);
    var u := UnsignedPart(t);
    var k := DigitRun(u);
    if k == 0 then NaN
    else
      var m: int := DigitsValue(u[..k]);
      Num(if t != [] && t[0] == '-' then -m else m)
  }

  /** What follows an optional leading `+` or `-`. */
  function UnsignedPart(t: string): (u: string)
    ensures u == t || (t != [] && (t[0] == '-' || t[0] == '+') && u == t[1..])
  {
    if t != [] && (t[0] == '-' || t[0] == '+') then t[1..] else t
  }

  /** The decimal digits of a natural number, without leading zeros. */
  function NatDigits(n: nat): (s: string)
    ensures s != [] && AllDigits(s)
    ensures |s| > 1 ==> s[0] != '0'
  {
    if n < 10 then [DigitChar(n)] else NatDigits(n / 10) + [DigitChar(n % 10)]
  }

  /** `String(n)` for an integer `n` (below 10^21 in magnitude in the real engine). */
  function DecimalString(n: int): (s: string) {
    if n < 0 then "-" + NatDigits(-n) else NatDigits(n)
  }

  /**
   * `String(v)`, the conversion a template literal `${v}` applies: a string
   * is kept, a number is written in decimal so that `parseInt` reads it
   * back, and only the empty string converts to empty text.
   */
  function ToStr(v: JsValue): (r: string)
    ensures v.Str? ==> r == v.s
    ensures v.Num? ==> ParseInt10(r) == v
    ensures r == "" <==> v == Str("")
  {
    match v
    case Undefined => "undefined"
    case Null => "null"
    case NaN => "NaN"
    case Bool(b) => if b then "true" else "false"
    case Num(n) => ParseIntOfDecimalString(n); DecimalString(n)
    case Str(s) => s
  }

  lemma {:induction false} NatDigitsValue(n: nat)
    ensures DigitsValue(NatDigits(n)) == n
  {
    if n >= 10 {
      NatDigitsValue(n / 10);
      var s := NatDigits(n);
      assert s[..|s| - 1] == NatDigits(n / 10);
    }
  }

  /** Leading whitespace is skipped up to the first character that is not whitespace. */
  lemma {:induction false} TrimStartSkipsSpace(w: string, t: string)
    requires forall i :: 0 <= i < |w| ==> IsSpace(w[i])
    requires t == [] || !IsSpace(t[0])
    ensures TrimStart(w + t) == t
  {
    if w == [] {
      assert w + t == t;
    } else {
      assert (w + t)[0] == w[0];
      assert (w + t)[1..] == w[1..] + t;
      TrimStartSkipsSpace(w[1..], t);
    }
  }

  /** The digit run of `d + x` is exactly `d` when `x` does not start with a digit. */
  lemma {:induction false} DigitRunOfDigits(d: string, x: string)
    requires AllDigits(d)
    requires x == [] || !IsDigit(x[0])
    ensures DigitRun(d + x) == |d|
  {
    if d == [] {
      assert d + x == x;
    } else {
      assert (d + x)[0] == d[0];
      assert (d + x)[1..] == d[1..] + x;
      DigitRunOfDigits(d[1..], x);
    }
  }

  /** After an optional sign, the unsigned part of `sign + d + x` is `d + x`. */
  lemma SignThenDigits(sign: string, d: string, x: string)
    requires sign == "" || sign == "+" || sign == "-"
    requires d != [] && AllDigits(d)
    ensures var t := sign + d + x;
      t != [] && !IsSpace(t[0]) && (t[0] == '-' <==> sign == "-") && UnsignedPart(t) == d + x
  {
    var t := sign + d + x;
    assert d[0] == d[..1][0];
    if sign == "" {
      assert t == d + x;
      assert t[0] == d[0];
    } else {
      assert t[0] == sign[0];
      assert t[1..] == d + x;
    }
  }

  /** `parseInt` on a string already starting at its sign or digits. */
  lemma ParseIntAtDigits(t: string, d: string, x: string)
    requires d != [] && AllDigits(d)
    requires x == [] || !IsDigit(x[0])
    requires t != [] && UnsignedPart(t) == d + x
    requires TrimStart(t) == t
    ensures ParseInt10(t) == Num(if t[0] == '-' then 0 - DigitsValue(d) else DigitsValue(d))
  {
    var u := UnsignedPart(t);
    DigitRunOfDigits(d, x);
    assert DigitRun(u) == |d|;
    assert u[..|d|] == d;
  }

  /** Concatenation regrouped. */
  lemma ConcatAssociates(w: string, sign: string, d: string, x: string)
    ensures w + sign + d + x == w + (sign + d + x)
  {
  }

  /** `parseInt` looks only at what is left after the leading whitespace. */
  lemma SameTrimSameParse(s: string, s': string)
    requires TrimStart(s) == TrimStart(s')
    ensures ParseInt10(s) == ParseInt10(s')
  {
  }

  /**
   * `parseInt(w + sign + d + x, 10)` for leading whitespace `w`, an optional
   * sign, a non-empty digit string `d` and a rest `x` that does not start
   * with a digit: the value of `d`, negated after a minus. Leading zeros and
   * trailing text do not matter.
   */
  lemma ParseIntOfParts(w: string, sign: string, d: string, x: string)
    requires forall i :: 0 <= i < |w| ==> IsSpace(w[i])
    requires sign == "" || sign == "+" || sign == "-"
    requires d != [] && AllDigits(d)
    requires x == [] || !IsDigit(x[0])
    ensures ParseInt10(w + sign + d + x) == Num(if sign == "-" then 0 - DigitsValue(d) else DigitsValue(d))
  {
    var t := sign + d + x;
    SignThenDigits(sign, d, x);
    ParseIntAtDigits(t, d, x);
    TrimStartSkipsSpace(w, t);
    ConcatAssociates(w, sign, d, x);
    SameTrimSameParse(w + sign + d + x, t);
  }

  /** `parseInt(String(n), 10)` gives `n` back for every integer. */
  lemma ParseIntOfDecimalString(n: int)
    ensures ParseInt10(DecimalString(n)) == Num(n)
  {
    var m: nat := if n < 0 then -n else n;
    var d := NatDigits(m);
    var s := DecimalString(n);
    NatDigitsValue(m);
    assert !IsSpace(s[0]);
    assert TrimStart(s) == s;
    assert !IsDigit('-');
    assert UnsignedPart(s) == d;
    assert DigitRun(d) == |d|;
    assert d[..|d|] == d;
  }
}
