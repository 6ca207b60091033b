/** The admission webhook's check of a limit, and what it means for the command
    line the limit ends up on. */
module Admission {
  import opened Options
  import opened Text
  import opened CommandLine

  datatype Float = Finite(value: real) | Infinity(negative: bool) | NotANumber

  /** strconv.ParseInt(s, 10, 64). */
  function ParseInt64(s: string): Option<int> {
    var n := ParseDecimal(s);
    if n.Some? && -0x8000_0000_0000_0000 <= n.value < 0x8000_0000_0000_0000 then n else None
  }

  /** The error text for a limit; the float parser is a parameter. */
  function ValidateLimit(limit: string, parseFloat: string -> Option<Float>): Option<string> {
    if limit == "" then None
    else if ParseInt64(limit).Some? then None
    else
      var f := parseFloat(limit);
      if f.Some? && f.value.Finite? && f.value.value <= 1.0 && f.value.value > 0.0 then None
      else Some("must  be an integer or a float number between 0.0 to 1.0")
  }

  // The literals strconv.ParseFloat knows, as Go's floating-point syntax has them

  predicate HexDigit(c: char) {
    IsDigit(c) || 'a' <= c <= 'f' || 'A' <= c <= 'F'
  }

  function Lower(c: char): char {
    if 'A' <= c <= 'Z' then c - 'A' + 'a' else c
  }

  function LowerAll(s: string): (t: string)
    ensures |t| == |s|
  {
    seq(|s|, i requires 0 <= i < |s| => Lower(s[i]))
  }

  function Unsigned(s: string): string {
    if s != "" && (s[0] == '+' || s[0] == '-') then s[1..] else s
  }

  /** The length of the mantissa at the front: digits, underscores and a point. */
  function MantissaEnd(s: string, hex: bool): (n: nat)
    ensures n <= |s|
    ensures forall i :: 0 <= i < n ==> HexDigit(s[i]) || s[i] == '_' || s[i] == '.'
  {
    if s != "" && ((if hex then HexDigit(s[0]) else IsDigit(s[0])) || s[0] == '_' || s[0] == '.') then
      1 + MantissaEnd(s[1..], hex)
    else 0
  }

  /** Underscores may separate digits, in the exponent too. */
  predicate ExponentDigits(s: string) {
    s != "" && IsDigit(s[0]) && forall i :: 0 <= i < |s| ==> IsDigit(s[i]) || s[i] == '_'
  }

  predicate Exponent(s: string, mark: char) {
    s == "" || (Lower(s[0]) == mark && ExponentDigits(Unsigned(s[1..])))
  }

  predicate FloatLiteral(s: string) {
    var t := Unsigned(s);
    || LowerAll(t) == "inf" || LowerAll(t) == "infinity" || LowerAll(t) == "nan"
    || (t != "" && MantissaEnd(t, false) > 0 && Exponent(t[MantissaEnd(t, false)..], 'e'))
    || (|t| > 2 && t[0] == '0' && Lower(t[1]) == 'x'
        && MantissaEnd(t[2..], true) > 0 && Exponent(t[2..][MantissaEnd(t[2..], true)..], 'p'))
  }

  /** The float parser accepts nothing but literals. */
  ghost predicate ParsesLiterals(parseFloat: string -> Option<Float>) {
    forall s :: parseFloat(s).Some? ==> FloatLiteral(s)
  }

  /** Letters, digits, signs, points and underscores. */
  predicate Plain(c: char) {
    IsDigit(c) || 'a' <= c <= 'z' || 'A' <= c <= 'Z' || c == '+' || c == '-' || c == '.' || c == '_'
  }

  predicate AllPlain(s: string) {
    forall i :: 0 <= i < |s| ==> Plain(s[i])
  }

  lemma UnsignedPlain(s: string)
    requires AllPlain(Unsigned(s))
    ensures AllPlain(s)
  {
    if Unsigned(s) != s {
      assert forall i :: 1 <= i < |s| ==> s[i] == s[1..][i - 1];
    }
  }

  lemma PlainAfter(s: string, n: nat)
    requires n <= |s| && (forall i :: 0 <= i < n ==> Plain(s[i])) && AllPlain(s[n..])
    ensures AllPlain(s)
  {
    assert forall i :: n <= i < |s| ==> s[i] == s[n..][i - n];
  }

  lemma ExponentPlain(s: string, mark: char)
    requires Exponent(s, mark) && (mark == 'e' || mark == 'p')
    ensures AllPlain(s)
  {
    if s != "" {
      assert AllPlain(Unsigned(s[1..]));
      UnsignedPlain(s[1..]);
      PlainAfter(s, 1);
    }
  }

  lemma NamePlain(t: string, name: string)
    requires LowerAll(t) == name && forall i :: 0 <= i < |name| ==> 'a' <= name[i] <= 'z'
    ensures AllPlain(t)
  {
    forall i | 0 <= i < |t| ensures Plain(t[i]) {
      assert LowerAll(t)[i] == Lower(t[i]);
    }
  }

  lemma FloatLiteralPlain(s: string)
    requires FloatLiteral(s)
    ensures AllPlain(s)
  {
    var t := Unsigned(s);
    if LowerAll(t) == "inf" {
      NamePlain(t, "inf");
    } else if LowerAll(t) == "infinity" {
      NamePlain(t, "infinity");
    } else if LowerAll(t) == "nan" {
      NamePlain(t, "nan");
    } else if t != "" && MantissaEnd(t, false) > 0 && Exponent(t[MantissaEnd(t, false)..], 'e') {
      ExponentPlain(t[MantissaEnd(t, false)..], 'e');
      PlainAfter(t, MantissaEnd(t, false));
    } else {
      var u := t[2..];
      ExponentPlain(u[MantissaEnd(u, true)..], 'p');
      PlainAfter(u, MantissaEnd(u, true));
      PlainAfter(t, 2);
    }
    UnsignedPlain(s);
  }

  /** Every admitted limit consists of letters, digits, signs, points and
      underscores: it is not split on the command line. */
  lemma AdmittedLimitIsPlain(limit: string, parseFloat: string -> Option<Float>)
    requires ParsesLiterals(parseFloat) && ValidateLimit(limit, parseFloat).None?
    ensures AllPlain(limit) && NoBlanks(limit)
    ensures limit != "" ==> Fields(limit) == [limit]
  {
    if limit != "" {
      if ParseInt64(limit).Some? {
        assert AllPlain(Unsigned(limit));
        UnsignedPlain(limit);
      } else {
        FloatLiteralPlain(limit);
      }
      FieldsJoin([limit]);
    }
  }

  /** Every 64-bit integer is admitted as it is printed, also a negative one; the
      float parser is not asked. */
  lemma IntegersAreAdmitted(n: int, parseFloat: string -> Option<Float>)
    ensures -0x8000_0000_0000_0000 <= n < 0x8000_0000_0000_0000 ==> ValidateLimit(Itoa(n), parseFloat).None?
    ensures ParseInt64(Itoa(n)).Some? <==> -0x8000_0000_0000_0000 <= n < 0x8000_0000_0000_0000
  {
    ParseItoa(n);
  }

  /** The integers are the digits with or without a sign. */
  lemma SignedDigitsAreIntegers(s: string)
    ensures ParseDecimal(s).Some? <==> AllDigits(Unsigned(s))
    ensures AllDigits(Unsigned(s)) ==>
              ParseDecimal(s) == Some(if s[0] == '-' then -(Value(Unsigned(s)) as int) else Value(Unsigned(s)))
  {}

  /** What is not empty and no 64-bit integer is admitted exactly if it is a float
      above 0 and up to 1; so infinities and NaN never are. */
  lemma OthersAreFractions(limit: string, parseFloat: string -> Option<Float>)
    requires limit != "" && ParseInt64(limit).None?
    ensures ValidateLimit(limit, parseFloat).None?
            <==> exists x: real :: parseFloat(limit) == Some(Finite(x)) && 0.0 < x <= 1.0
  {
    var f := parseFloat(limit);
    if f.Some? && f.value.Finite? {
      assert f == Some(Finite(f.value.value));
    }
  }

  /** Admission feeds the printer: if the other fields can be read back, an
      admitted job's command line can, with its limit. */
  lemma AdmittedJobReadsBack(spec: Spec, parseFloat: string -> Option<Float>)
    requires ParsesLiterals(parseFloat) && ValidateLimit(spec.limit, parseFloat).None?
    ensures Decode(Line(spec)) == Some(View(spec)) <==> Clean(spec.(limit := ""))
  {
    AdmittedLimitIsPlain(spec.limit, parseFloat);
    LineRoundTrip(spec);
  }
}
