/** The global parseInt(string) with no radix, restricted to decimal:
    leading white space is skipped, one optional sign is read, then the
    longest run of decimal digits; no digits at all gives NaN (None). */
module JsParseInt {
  import opened JsValues

  /** ECMAScript StrWhiteSpaceChar: WhiteSpace (including every Zs
      character) and LineTerminator. */
  predicate IsJsWhitespace(ch: char) {
    || ch == '\t' || ch == '\n' || ch == '\U{000B}' || ch == '\U{000C}' || ch == '\r'
    || ch == ' ' || ch == '\U{00A0}' || ch == '\U{1680}'
    || ('\U{2000}' <= ch <= '\U{200A}')
    || ch == '\U{2028}' || ch == '\U{2029}' || ch == '\U{202F}' || ch == '\U{205F}'
    || ch == '\U{3000}' || ch == '\U{FEFF}'
  }

  predicate AllWhitespace(s: string) {
    forall k :: 0 <= k < |s| ==> IsJsWhitespace(s[k])
  }

  /** The string with its leading white space removed. */
  function TrimStart(s: string): string {
    if s != [] && IsJsWhitespace(s[0]) then TrimStart(s[1..]) else s
  }

  /** Trimming removes a prefix made of white space, and what is left does
      not start with white space. */
  lemma {:induction false} TrimStartSpec(s: string)
    ensures var t := TrimStart(s);
      && |t| <= |s| && t == s[|s| - |t|..]
      && AllWhitespace(s[..|s| - |t|])
      && (t == [] || !IsJsWhitespace(t[0]))
  {
    if s != [] && IsJsWhitespace(s[0]) {
      TrimStartSpec(s[1..]);
      var t := TrimStart(s);
      assert s[..|s| - |t|] == [s[0]] + s[1..][..|s| - 1 - |t|];
    }
  }

  /** The longest prefix of `s` made of decimal digits. */
  function LeadingDigits(s: string): string {
    if s != [] && IsDigit(s[0]) then [s[0]] + LeadingDigits(s[1..]) else []
  }

  /** The leading digits are a prefix of the string, all digits, and not
      followed by another digit. */
  lemma {:induction false} LeadingDigitsSpec(s: string)
    ensures var d := LeadingDigits(s);
      && |d| <= |s| && d == s[..|d|] && AllDigits(d)
      && (|d| == |s| || !IsDigit(s[|d|]))
  {
    if s != [] && IsDigit(s[0]) {
      LeadingDigitsSpec(s[1..]);
    }
  }

  /** The number a string of decimal digits denotes. */
  function DigitsValue(d: string): nat
    requires AllDigits(d)
  {
    if d == [] then 0
    else DigitsValue(d[..|d| - 1]) * 10 + (d[|d| - 1] as int - '0' as int)
  }

  /** The text after the optional sign. */
  function Unsigned(t: string): string {
    if t != [] && (t[0] == '-' || t[0] == '+') then t[1..] else t
  }

  function ParseLeadingInt(s: string): Option<int> {
    var t := TrimStart(s);
    var digits := LeadingDigits(Unsigned(t));
    LeadingDigitsSpec(Unsigned(t));
    if digits == [] then None
    else
      var magnitude: int := DigitsValue(digits);
      Some(if t[0] == '-' then -magnitude else magnitude)
  }

  lemma {:induction false} LeadingDigitsOfDigits(d: string, rest: string)
    requires AllDigits(d)
    requires rest == [] || !IsDigit(rest[0])
    ensures LeadingDigits(d + rest) == d
  {
    if d != [] {
      assert (d + rest)[1..] == d[1..] + rest;
      LeadingDigitsOfDigits(d[1..], rest);
    } else {
      assert d + rest == rest;
    }
  }

  lemma {:induction false} DigitsValueOfDecimal(n: nat)
    ensures AllDigits(NatDecimal(n)) && DigitsValue(NatDecimal(n)) == n
    decreases n
  {
    if n >= 10 {
      var s := NatDecimal(n);
      NatDecimalDigits(n / 10);
      assert s[..|s| - 1] == NatDecimal(n / 10);
      DigitsValueOfDecimal(n / 10);
    }
  }

  lemma TrimStartKeeps(s: string)
    requires s == [] || !IsJsWhitespace(s[0])
    ensures TrimStart(s) == s
  {
  }

  /** Reading back a number's own decimal form, followed by any text that
      does not continue the digits, gives that number ("42px" is 42). */
  lemma ParseDecimalPrefix(n: int, rest: string)
    requires rest == [] || !IsDigit(rest[0])
    ensures ParseLeadingInt(DecimalString(n) + rest) == Some(n)
  {
    var sign, d := DecimalParts(n);
    ParseDigitRun("", sign, d, rest);
    assert "" + sign + d + rest == DecimalString(n) + rest;
  }

  /** An integer's decimal form is a sign (or none) and a non-empty run
      of digits whose signed value is the integer. */
  lemma DecimalParts(n: int) returns (sign: string, d: string)
    ensures DecimalString(n) == sign + d && (sign == "" || sign == "-")
    ensures d != [] && AllDigits(d) && SignedValue(sign, d) == n
  {
    var m: nat := if n < 0 then -n else n;
    NatDecimalDigits(m);
    DigitsValueOfDecimal(m);
    sign := if n < 0 then "-" else "";
    d := NatDecimal(m);
  }

  lemma {:induction false} TrimStartWhitespace(ws: string, s: string)
    requires AllWhitespace(ws)
    ensures TrimStart(ws + s) == TrimStart(s)
  {
    if ws != [] {
      assert (ws + s)[0] == ws[0];
      assert (ws + s)[1..] == ws[1..] + s;
      TrimStartWhitespace(ws[1..], s);
    } else {
      assert ws + s == s;
    }
  }

  /** Leading white space never changes the result. */
  lemma ParseSkipsWhitespace(ws: string, s: string)
    requires AllWhitespace(ws)
    ensures ParseLeadingInt(ws + s) == ParseLeadingInt(s)
  {
    TrimStartWhitespace(ws, s);
  }

  /** The value of a run of digits after an optional sign. */
  function SignedValue(sign: string, d: string): int
    requires AllDigits(d)
  {
    var magnitude: int := DigitsValue(d);
    if sign == "-" then -magnitude else magnitude
  }

  /** Optional white space, an optional sign and a run of digits that is
      not continued by another digit parse to the value of those digits,
      negated after a minus sign ("007px" is 7, "+3" is 3). */
  lemma ParseDigitRun(ws: string, sign: string, d: string, rest: string)
    requires AllWhitespace(ws) && (sign == "" || sign == "+" || sign == "-")
    requires d != [] && AllDigits(d) && (rest == [] || !IsDigit(rest[0]))
    ensures ParseLeadingInt(ws + sign + d + rest) == Some(SignedValue(sign, d))
  {
    var t := sign + (d + rest);
    assert ws + sign + d + rest == ws + t;
    TrimStartWhitespace(ws, t);
    SignedStart(sign, d + rest);
    LeadingDigitsOfDigits(d, rest);
  }

  /** A sign (or none) followed by a digit is left alone by the trimming,
      and the sign is what is then stripped. */
  lemma SignedStart(sign: string, u: string)
    requires sign == "" || sign == "+" || sign == "-"
    requires u != [] && IsDigit(u[0])
    ensures TrimStart(sign + u) == sign + u
    ensures Unsigned(sign + u) == u
    ensures (sign + u)[0] == '-' <==> sign == "-"
  {
    assert (sign + u)[0] == (if sign == "" then u[0] else sign[0]);
    if sign != "" {
      assert (sign + u)[1..] == u;
    }
  }

  /** Every text splits at `i <= j <= k` into a maximal white-space prefix
      `s[..i]`, an optional sign `s[i..j]`, a maximal run of digits
      `s[j..k]` and the rest; parseInt is NaN exactly when that run is
      empty, and otherwise the run's value, negated after a minus sign. */
  lemma ParseSplit(s: string) returns (i: nat, j: nat, k: nat)
    ensures i <= j <= k <= |s|
    ensures AllWhitespace(s[..i]) && (i == |s| || !IsJsWhitespace(s[i]))
    ensures j == i || (j == i + 1 && (s[i] == '-' || s[i] == '+'))
    ensures j == i ==> i == |s| || (s[i] != '-' && s[i] != '+')
    ensures AllDigits(s[j..k]) && (k == |s| || !IsDigit(s[k]))
    ensures ParseLeadingInt(s) == None <==> j == k
    ensures j < k ==> ParseLeadingInt(s) == Some(SignedValue(s[i..j], s[j..k]))
  {
    TrimStartSpec(s);
    var t := TrimStart(s);
    i := |s| - |t|;
    j := if t != [] && (t[0] == '-' || t[0] == '+') then i + 1 else i;
    var u := Unsigned(t);
    LeadingDigitsSpec(u);
    var d := LeadingDigits(u);
    k := j + |d|;
    SplitSlices(s, t, u, d, i, j);
    ParseParts(s, t, u, d);
  }

  /** The pieces parseInt reads, as slices of the text. */
  lemma SplitSlices(s: string, t: string, u: string, d: string, i: nat, j: nat)
    requires i == |s| - |t| && t == s[|s| - |t|..] && u == Unsigned(t)
    requires j == if t != [] && (t[0] == '-' || t[0] == '+') then i + 1 else i
    requires |d| <= |u| && d == u[..|d|]
    ensures u == s[j..] && d == s[j..j + |d|]
    ensures j == i + 1 ==> s[i..j] == [t[0]]
  {
  }

  /** parseInt in terms of the three steps of its reading. */
  lemma ParseParts(s: string, t: string, u: string, d: string)
    requires t == TrimStart(s) && u == Unsigned(t) && d == LeadingDigits(u) && AllDigits(d)
    ensures ParseLeadingInt(s) == None <==> d == []
    ensures d != [] ==> ParseLeadingInt(s) == Some(SignedValue(if t[0] == '-' then "-" else "", d))
  {
  }

  /** A text of white space only, the empty text included, is NaN. */
  lemma ParseBlank(s: string)
    requires AllWhitespace(s)
    ensures ParseLeadingInt(s) == None
  {
    TrimStartWhitespace(s, "");
    assert s + "" == s;
  }

  /** Text that starts with something other than white space, a sign or a
      digit is NaN. */
  lemma ParseRejectsNonNumeric(s: string)
    requires s != [] && !IsJsWhitespace(s[0]) && !IsDigit(s[0]) && s[0] != '-' && s[0] != '+'
    ensures ParseLeadingInt(s) == None
  {
    TrimStartKeeps(s);
  }

  /** A sign that is not followed by a digit is NaN too. */
  lemma ParseLoneSign(sign: char, rest: string)
    requires sign == '-' || sign == '+'
    requires rest == [] || !IsDigit(rest[0])
    ensures ParseLeadingInt([sign] + rest) == None
  {
    TrimStartKeeps([sign] + rest);
    assert Unsigned([sign] + rest) == rest;
  }

  lemma ParseExamplePixels()
    ensures ParseLeadingInt("42px") == Some(42)
  {
    assert DigitsValue("42") == 42 by {
      assert "42"[..1] == "4";
    }
    ParseDigitRun("", "", "42", "px");
    assert "" + "" + "42" + "px" == "42px";
  }

  lemma ParseExampleWord()
    ensures ParseLeadingInt("foo") == None
  {
    ParseRejectsNonNumeric("foo");
  }

  lemma ParseExampleSpaceAndSign()
    ensures ParseLeadingInt(" -7 apples") == Some(-7)
  {
    assert DigitsValue("7") == 7;
    ParseDigitRun(" ", "-", "7", " apples");
    assert " " + "-" + "7" + " apples" == " -7 apples";
  }
}
