/**
 A model of JavaScript's `parseInt(s, 10)` on the decimal radix, as the
 backend applies it to `BACKEND_PORT`: leading white space is skipped, an
 optional `+` or `-` sign is read, then the longest run of decimal digits;
 anything after that run is ignored, and an empty run gives `NaN`.
 */
module ParseInt {
  import opened Wrappers

  /** The ECMAScript WhiteSpace and LineTerminator code points that
      `parseInt` strips before reading a number. */
  predicate IsJsWhiteSpace(c: char) {
    var n := c as int;
    || n == 0x09 || n == 0x0A || n == 0x0B || n == 0x0C || n == 0x0D
    || n == 0x20 || n == 0xA0 || n == 0x1680
    || (0x2000 <= n <= 0x200A)
    || n == 0x2028 || n == 0x2029 || n == 0x202F || n == 0x205F
    || n == 0x3000 || n == 0xFEFF
  }

  predicate IsDigit(c: char) {
    '0' <= c <= '9'
  }

  predicate AllDigits(s: string) {
    forall i :: 0 <= i < |s| ==> IsDigit(s[i])
  }

  predicate AllWhiteSpace(s: string) {
    forall i :: 0 <= i < |s| ==> IsJsWhiteSpace(s[i])
  }

  predicate StartsWithDigit(s: string) {
    s != [] && IsDigit(s[0])
  }

  predicate StartsWithWhiteSpace(s: string) {
    s != [] && IsJsWhiteSpace(s[0])
  }

  predicate StartsWithSign(s: string) {
    s != [] && IsSignChar(s[0])
  }

  function DigitValue(c: char): (d: nat)
    requires IsDigit(c)
    ensures d < 10
  {
    c as int - '0' as int
  }

  function DigitChar(d: nat): (c: char)
    requires d < 10
    ensures IsDigit(c) && DigitValue(c) == d
  {
    ('0' as int + d) as char
  }

  /** The base-10 value of a digit string, most significant digit first. */
  function DigitsValue(ds: string): nat
    requires AllDigits(ds)
  {
    if ds == [] then 0
    else DigitsValue(ds[..|ds| - 1]) * 10 + DigitValue(ds[|ds| - 1])
  }

  /** The canonical decimal rendering of `n`: digits only, no leading zero. */
  function ToDecimal(n: nat): (s: string)
    ensures |s| > 0 && AllDigits(s)
    ensures s[0] == '0' ==> n == 0
  {
    if n < 10 then [DigitChar(n)] else ToDecimal(n / 10) + [DigitChar(n % 10)]
  }

  /** `s` with its leading white space removed. */
  function SkipWhiteSpace(s: string): (t: string)
    ensures |t| <= |s| && t == s[|s| - |t|..]
    ensures AllWhiteSpace(s[..|s| - |t|])
    ensures !StartsWithWhiteSpace(t)
  {
    if s != [] && IsJsWhiteSpace(s[0]) then SkipWhiteSpace(s[1..]) else s
  }

  /** The longest prefix of `s` made of decimal digits. */
  function DigitRun(s: string): (d: string)
    ensures |d| <= |s| && d == s[..|d|]
    ensures AllDigits(d)
    ensures !StartsWithDigit(s[|d|..])
  {
    if s != [] && IsDigit(s[0]) then [s[0]] + DigitRun(s[1..]) else []
  }

  predicate IsSignChar(c: char) {
    c == '+' || c == '-'
  }

  /** The optional sign `parseInt` reads after the white space. */
  datatype Sign = NoSign | Plus | Minus

  function SignText(sign: Sign): (t: string)
    ensures |t| <= 1
  {
    match sign
    case NoSign => ""
    case Plus => "+"
    case Minus => "-"
  }

  function ApplySign(sign: Sign, n: nat): int {
    if sign == Minus then -(n as int) else n
  }

  /** The sign at the head of `t`, if any. */
  function SignOf(t: string): (sign: Sign)
    ensures sign == NoSign <==> !StartsWithSign(t)
    ensures t[..|SignText(sign)|] == SignText(sign)
  {
    if t == [] then NoSign
    else if t[0] == '+' then Plus
    else if t[0] == '-' then Minus
    else NoSign
  }

  /** The sign and digits stage of `parseInt`, applied once the white space
      is gone. */
  function ParseSigned(t: string): Option<int> {
    var sign := SignOf(t);
    var d := DigitRun(t[|SignText(sign)|..]);
    if d == [] then None else Some(ApplySign(sign, DigitsValue(d)))
  }

  /** `parseInt(s, 10)`; `None` is `NaN`. */
  function ParseIntDecimal(s: string): (r: Option<int>)
    // an empty string is NaN
    ensures s == [] ==> r == None
    // a string that starts with a digit is a number, and not a negative one
    ensures StartsWithDigit(s) ==> r.Some? && r.value >= 0
  {
    var t := SkipWhiteSpace(s);
    assert StartsWithDigit(s) ==> t == s by {
      if StartsWithDigit(s) {
        DigitIsNotWhiteSpace(s[0]);
      }
    }
    ParseSigned(t)
  }

  lemma {:induction false} DigitsValueAppend(ds: string, c: char)
    requires AllDigits(ds) && IsDigit(c)
    ensures AllDigits(ds + [c])
    ensures DigitsValue(ds + [c]) == DigitsValue(ds) * 10 + DigitValue(c)
  {
    assert (ds + [c])[..|ds|] == ds;
  }

  /** Reading back the canonical rendering of a number gives the number. */
  lemma {:induction false} DigitsValueOfDecimal(n: nat)
    ensures DigitsValue(ToDecimal(n)) == n
  {
    if n >= 10 {
      DigitsValueOfDecimal(n / 10);
      DigitsValueAppend(ToDecimal(n / 10), DigitChar(n % 10));
    }
  }

  lemma {:induction false} SkipWhiteSpaceAppend(ws: string, x: string)
    requires AllWhiteSpace(ws) && !StartsWithWhiteSpace(x)
    ensures SkipWhiteSpace(ws + x) == x
  {
    if ws != [] {
      assert (ws + x)[1..] == ws[1..] + x;
      SkipWhiteSpaceAppend(ws[1..], x);
    }
  }

  lemma {:induction false} DigitRunAppend(ds: string, rest: string)
    requires AllDigits(ds) && !StartsWithDigit(rest)
    ensures DigitRun(ds + rest) == ds
  {
    if ds != [] {
      assert (ds + rest)[1..] == ds[1..] + rest;
      DigitRunAppend(ds[1..], rest);
    }
  }

  lemma DigitIsNotWhiteSpace(c: char)
    requires IsDigit(c)
    ensures !IsJsWhiteSpace(c)
  {
  }

  /** Reading the sign off `SignText(sign) + u` leaves `u`, provided `u` does
      not itself start with a sign when there is none. */
  lemma SignOfPrefix(sign: Sign, u: string)
    requires sign == NoSign ==> !StartsWithSign(u)
    ensures SignOf(SignText(sign) + u) == sign
    ensures (SignText(sign) + u)[|SignText(sign)|..] == u
  {
    if sign == NoSign {
      assert SignText(sign) + u == u;
    }
  }

  /** Any string of the shape white space, sign, a non-empty digit run, and
      a tail that does not continue the run parses to the signed value of
      the run: leading zeros count for nothing and the tail is ignored. */
  lemma ParseDigits(ws: string, sign: Sign, ds: string, rest: string)
    requires AllWhiteSpace(ws)
    requires ds != [] && AllDigits(ds) && !StartsWithDigit(rest)
    ensures ParseIntDecimal(ws + SignText(sign) + ds + rest) == Some(ApplySign(sign, DigitsValue(ds)))
  {
    var u := ds + rest;
    var t := SignText(sign) + u;
    assert ws + SignText(sign) + ds + rest == ws + t;
    assert u[0] == ds[0];
    SignOfPrefix(sign, u);
    assert !StartsWithWhiteSpace(t) by {
      if sign != NoSign {
        assert t[0] == SignText(sign)[0];
      } else {
        assert t == u;
        DigitIsNotWhiteSpace(ds[0]);
      }
    }
    SkipWhiteSpaceAppend(ws, t);
    DigitRunAppend(ds, rest);
  }

  /** The canonical rendering of a number, after white space and a sign and
      before any non-digit tail, parses back to the signed number. */
  lemma ParseDecimalRoundTrip(ws: string, sign: Sign, n: nat, rest: string)
    requires AllWhiteSpace(ws) && !StartsWithDigit(rest)
    ensures ParseIntDecimal(ws + SignText(sign) + ToDecimal(n) + rest) == Some(ApplySign(sign, n))
  {
    ParseDigits(ws, sign, ToDecimal(n), rest);
    DigitsValueOfDecimal(n);
  }

  /** When no digit follows the white space and the optional sign, the
      result is `NaN`. */
  lemma ParseNoDigits(ws: string, sign: Sign, rest: string)
    requires AllWhiteSpace(ws) && !StartsWithDigit(rest)
    requires sign == NoSign ==> !StartsWithWhiteSpace(rest) && !StartsWithSign(rest)
    ensures ParseIntDecimal(ws + SignText(sign) + rest) == None
  {
    var t := SignText(sign) + rest;
    assert ws + SignText(sign) + rest == ws + t;
    SignOfPrefix(sign, rest);
    assert !StartsWithWhiteSpace(t) by {
      if sign != NoSign {
        assert t[0] == SignText(sign)[0];
      } else {
        assert t == rest;
      }
    }
    SkipWhiteSpaceAppend(ws, t);
  }

  /** A string of white space alone (`" "`, `"\t\n"`) is `NaN`. */
  lemma ParseWhiteSpaceOnly(ws: string)
    requires AllWhiteSpace(ws)
    ensures ParseIntDecimal(ws) == None
  {
    assert ws == ws + SignText(NoSign) + "";
    ParseNoDigits(ws, NoSign, "");
  }

  /** Worked case: the default port string reads as 3847. */
  lemma ParseDefaultPortExample()
    ensures ParseIntDecimal("3847") == Some(3847)
  {
    var s := "3847";
    assert s == "" + SignText(NoSign) + ToDecimal(3847) + "";
    ParseDecimalRoundTrip("", NoSign, 3847, "");
  }

  /** Worked case: a digit prefix stops at the first non-digit. */
  lemma ParseDigitPrefixExample()
    ensures ParseIntDecimal("12ab") == Some(12)
  {
    var s := "12ab";
    assert s == "" + SignText(NoSign) + ToDecimal(12) + "ab";
    ParseDecimalRoundTrip("", NoSign, 12, "ab");
  }

  /** Worked case: a string with no leading digit is `NaN`. */
  lemma ParseNaNExample()
    ensures ParseIntDecimal("abc") == None
  {
    var s := "abc";
    assert s == "" + SignText(NoSign) + s;
    ParseNoDigits("", NoSign, s);
  }
}
