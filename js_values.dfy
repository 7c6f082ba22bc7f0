/** JavaScript values as the share endpoint receives them in its JSON body,
    and the parts of `parseInt(x, 10)` and of truthiness the endpoint relies on. */
module JsValues {

  import opened Wrappers

  /** The integer result of `parseInt`: a whole number or NaN. */
  datatype Parsed = NaN | Int(value: int)

  /** A field of the request body: absent (`undefined`), `null`, a string,
      or an integer JSON number. */
  datatype Field = Missing | Null | Text(s: string) | Number(n: int)

  /** `!field` in JavaScript. */
  predicate Falsy(f: Field) {
    match f
    case Missing => true
    case Null => true
    case Text(s) => s == ""
    case Number(n) => n == 0
  }

  /** The characters `parseInt` skips before the number (StrWhiteSpaceChar:
      the ECMAScript white space and line terminators). */
  predicate IsJsSpace(c: char) {
    c == '\t' || c == '\n' || c == '\U{000B}' || c == '\U{000C}' || c == '\r' || c == ' ' ||
    c == '\U{00A0}' || c == '\U{1680}' || ('\U{2000}' <= c <= '\U{200A}') ||
    c == '\U{2028}' || c == '\U{2029}' || c == '\U{202F}' || c == '\U{205F}' ||
    c == '\U{3000}' || c == '\U{FEFF}'
  }

  predicate IsDigit(c: char) {
    '0' <= c <= '9'
  }

  function DigitOf(c: char): nat
    requires IsDigit(c)
  {
    (c as int - '0' as int) as nat
  }

  function DigitChar(d: nat): char
    requires d < 10
  {
    (d + '0' as int) as char
  }

  function TrimStart(s: string): string {
    if s != [] && IsJsSpace(s[0]) then TrimStart(s[1..]) else s
  }

  /** The longest prefix of `s` made of decimal digits. */
  function DigitPrefix(s: string): (r: string)
    ensures forall i :: 0 <= i < |r| ==> IsDigit(r[i])
    ensures |r| <= |s| && r == s[..|r|]
    ensures |r| < |s| ==> !IsDigit(s[|r|])
  {
    if s != [] && IsDigit(s[0]) then [s[0]] + DigitPrefix(s[1..]) else []
  }

  /** The value of a digit string, most significant digit first, as
      `parseInt` accumulates it. */
  function DigitsValue(ds: string): nat
    requires forall i :: 0 <= i < |ds| ==> IsDigit(ds[i])
  {
    if ds == [] then 0 else DigitsValue(ds[..|ds| - 1]) * 10 + DigitOf(ds[|ds| - 1])
  }

  /** `parseInt(s, 10)`: skip leading white space, read an optional sign and
      the longest run of digits after it; NaN when there is no digit. */
  function ParseInt(s: string): Parsed {
    var t := TrimStart(s);
    var negative := t != [] && t[0] == '-';
    var body := if t != [] && (t[0] == '-' || t[0] == '+') then t[1..] else t;
    var ds := DigitPrefix(body);
    if ds == [] then NaN
    else
      var v: int := DigitsValue(ds);
      Int(if negative then -v else v)
  }

  /** `parseInt(field, 10)` on a request field. `parseInt` first converts
      its argument to a string: `undefined` and `null` become "undefined"
      and "null", which hold no digit, and a number becomes its decimal
      text, with a minus sign when negative, which reads back as the number. */
  function ParseField(f: Field): (r: Parsed)
    ensures f.Missing? ==> r == ParseInt("undefined")
    ensures f.Null? ==> r == ParseInt("null")
    ensures f.Text? ==> r == ParseInt(f.s)
    ensures f.Number? && f.n >= 0 ==> r == ParseInt(Decimal(f.n))
    ensures f.Number? && f.n < 0 ==> r == ParseInt("-" + Decimal(-f.n))
    ensures f.Missing? || f.Null? ==> r == NaN
    ensures f.Number? ==> r == Int(f.n)
  {
    match f
    case Missing => assert DigitPrefix("undefined") == []; NaN
    case Null => assert DigitPrefix("null") == []; NaN
    case Text(s) => ParseInt(s)
    case Number(n) =>
      if n >= 0 then ParseIntDecimal(n); Int(n)
      else ParseIntNegative(-n); Int(n)
  }

  /** The decimal text of a natural number, as JavaScript prints it. */
  function Decimal(n: nat): (r: string)
    ensures r != [] && IsDigit(r[0])
    ensures forall i :: 0 <= i < |r| ==> IsDigit(r[i])
  {
    if n < 10 then [DigitChar(n)] else Decimal(n / 10) + [DigitChar(n % 10)]
  }

  lemma {:induction false} DecimalValue(n: nat)
    ensures DigitsValue(Decimal(n)) == n
  {
    if n >= 10 {
      var d := Decimal(n);
      assert d[..|d| - 1] == Decimal(n / 10);
      DecimalValue(n / 10);
    }
  }

  lemma {:induction false} DigitPrefixOfDigits(s: string)
    requires forall i :: 0 <= i < |s| ==> IsDigit(s[i])
    ensures DigitPrefix(s) == s
  {
    if s != [] {
      DigitPrefixOfDigits(s[1..]);
    }
  }

  /** Round trip: `parseInt` reads back the decimal text of every natural number. */
  lemma ParseIntDecimal(n: nat)
    ensures ParseInt(Decimal(n)) == Int(n)
  {
    var d := Decimal(n);
    assert TrimStart(d) == d;
    DigitPrefixOfDigits(d);
    DecimalValue(n);
  }

  /** `parseInt` reads back the decimal text of a negative number. */
  lemma ParseIntNegative(m: nat)
    ensures ParseInt("-" + Decimal(m)) == Int(-(m as int))
  {
    var d := Decimal(m);
    var t := "-" + d;
    assert TrimStart(t) == t;
    assert t[1..] == d;
    DigitPrefixOfDigits(d);
    DecimalValue(m);
  }

  /** Leading white space never changes what `parseInt` reads. */
  lemma {:induction false} ParseIntSkipsSpace(ws: string, s: string)
    requires forall i :: 0 <= i < |ws| ==> IsJsSpace(ws[i])
    ensures ParseInt(ws + s) == ParseInt(s)
  {
    assert TrimStart(ws + s) == TrimStart(s) by {
      SpacePrefixTrimmed(ws, s);
    }
  }

  lemma {:induction false} SpacePrefixTrimmed(ws: string, s: string)
    requires forall i :: 0 <= i < |ws| ==> IsJsSpace(ws[i])
    ensures TrimStart(ws + s) == TrimStart(s)
  {
    if ws != [] {
      assert (ws + s)[0] == ws[0];
      assert (ws + s)[1..] == ws[1..] + s;
      SpacePrefixTrimmed(ws[1..], s);
    } else {
      assert ws + s == s;
    }
  }

  /** `Math.max(1, parseInt(delay, 10))` with the destructuring default
      `delay = 1`, which only an absent field takes. NaN stays NaN. */
  function DelayOf(delay: Field): (r: Parsed)
    ensures r == NaN || r.value >= 1
    ensures delay.Missing? ==> r == Int(1)
    ensures !delay.Missing? && ParseField(delay).Int? ==>
      r == Int(if ParseField(delay).value < 1 then 1 else ParseField(delay).value)
    ensures !delay.Missing? && ParseField(delay) == NaN ==> r == NaN
  {
    match (if delay.Missing? then Int(1) else ParseField(delay))
    case NaN => NaN
    case Int(v) => Int(if v < 1 then 1 else v)
  }

  /** `x > 0` on a parsed value: false for NaN. */
  predicate Positive(p: Parsed) {
    p.Int? && p.value > 0
  }

  // ---------------------------------------------------------------------
  // The limit range check, as written and as intended.

  /** `limitNum < 1 || limitNum > 50` as the handler writes it: every
      comparison with NaN is false, so NaN is not rejected. */
  predicate RejectedAsWritten(p: Parsed) {
    (p.Int? && p.value < 1) || (p.Int? && p.value > 50)
  }

  /** A limit that is not a number passes the range check as written. */
  lemma NonNumericLimitPassesAsWritten()
    ensures ParseField(Text("abc")) == NaN
    ensures !RejectedAsWritten(ParseField(Text("abc")))
  {
    assert TrimStart("abc") == "abc";
    assert DigitPrefix("abc") == [];
  }

  /** The intended check: the limit is a whole number between 1 and 50. */
  function LimitValue(p: Parsed): (r: Option<nat>)
    ensures r.Some? <==> p.Int? && 1 <= p.value <= 50
    ensures r.Some? ==> p == Int(r.value)
  {
    if p.Int? && 1 <= p.value <= 50 then Some(p.value) else None
  }

  /** The corrected check differs from the written one on NaN alone. */
  lemma LimitValueAgreesOnNumbers(p: Parsed)
    ensures p.Int? ==> (LimitValue(p).None? <==> RejectedAsWritten(p))
    ensures LimitValue(NaN).None? && !RejectedAsWritten(NaN)
  {
  }

  /** `a + b` on JavaScript numbers restricted to integers and NaN. */
  function AddAsWritten(a: Parsed, b: Parsed): Parsed {
    if a.Int? && b.Int? then Int(a.value + b.value) else NaN
  }

  /** `x > k` on a JavaScript number: false for NaN. */
  predicate AboveAsWritten(x: Parsed, k: int) {
    x.Int? && x.value > k
  }

  /** The three quota comparisons of `checkRealLimits` evaluated on
      JavaScript numbers: true when the request is admitted. */
  predicate AdmittedAsWritten(hour: Parsed, day: Parsed, req: Parsed) {
    !AboveAsWritten(req, 50) &&
    !AboveAsWritten(AddAsWritten(hour, req), 200) &&
    !AboveAsWritten(AddAsWritten(day, req), 1000)
  }

  /** A user who has used the whole hourly and daily quota is still admitted
      with a NaN limit; committing it makes both counters NaN, after which a
      request for 50 more shares is admitted as well, and again after that. */
  lemma NaNLimitVoidsQuotaAsWritten()
    ensures AdmittedAsWritten(Int(200), Int(1000), NaN)
    ensures AddAsWritten(Int(200), NaN) == NaN && AddAsWritten(Int(1000), NaN) == NaN
    ensures AdmittedAsWritten(NaN, NaN, Int(50))
    ensures AddAsWritten(NaN, Int(50)) == NaN
  {
  }

}
