/** Strings as the printers and parsers use them: joining, splitting, fields and
    decimal numbers. */
module Text {
  import opened Options

  predicate Free(s: string, c: char) {
    forall i :: 0 <= i < |s| ==> s[i] != c
  }

  // Join and Split

  /** strings.Join with a one-character separator. */
  function Join(parts: seq<string>, c: char): string {
    if parts == [] then ""
    else if |parts| == 1 then parts[0]
    else parts[0] + [c] + Join(parts[1..], c)
  }

  /** The length of the part before the first separator. */
  function Cut(s: string, c: char): (n: nat)
    ensures n <= |s| && Free(s[..n], c) && (n < |s| ==> s[n] == c)
  {
    if s == "" || s[0] == c then 0
    else
      var n := Cut(s[1..], c);
      assert s[..n + 1] == [s[0]] + s[1..][..n];
      n + 1
  }

  /** strings.Split on a one-character separator. */
  function Split(s: string, c: char): (parts: seq<string>)
    ensures parts != []
    ensures forall i :: 0 <= i < |parts| ==> Free(parts[i], c)
    decreases |s|
  {
    var n := Cut(s, c);
    if n == |s| then [s] else [s[..n]] + Split(s[n + 1..], c)
  }

  lemma CutAt(a: string, b: string, c: char)
    requires Free(a, c)
    ensures Cut(a + [c] + b, c) == |a|
    ensures Cut(a, c) == |a|
  {
    var s := a + [c] + b;
    assert s[|a|] == c && forall i :: 0 <= i < |a| ==> s[i] == a[i];
    assert forall n :: |a| < n <= |s| ==> s[..n][|a|] == c;
  }

  lemma {:induction false} SplitJoin(parts: seq<string>, c: char)
    requires parts != [] && forall i :: 0 <= i < |parts| ==> Free(parts[i], c)
    ensures Split(Join(parts, c), c) == parts
  {
    if |parts| == 1 {
      CutAt(parts[0], "", c);
      assert Join(parts, c) == parts[0];
    } else {
      var rest := Join(parts[1..], c);
      var s := Join(parts, c);
      assert s == parts[0] + [c] + rest;
      CutAt(parts[0], rest, c);
      assert s[..|parts[0]|] == parts[0] && s[|parts[0]| + 1..] == rest;
      SplitJoin(parts[1..], c);
    }
  }

  lemma {:induction false} JoinSplit(s: string, c: char)
    ensures Join(Split(s, c), c) == s
    decreases |s|
  {
    var n := Cut(s, c);
    if n < |s| {
      var rest := Split(s[n + 1..], c);
      JoinSplit(s[n + 1..], c);
      var parts := Split(s, c);
      assert parts == [s[..n]] + rest;
      assert parts[0] == s[..n] && parts[1..] == rest && |parts| > 1;
      assert s == s[..n] + [c] + s[n + 1..];
    }
  }

  // Fields

  /** What separates words on a command line. */
  predicate IsBlank(c: char) {
    c == ' ' || c == '\t' || c == '\n'
  }

  predicate Word(s: string) {
    s != "" && forall i :: 0 <= i < |s| ==> !IsBlank(s[i])
  }

  function WordEnd(s: string): (n: nat)
    ensures n <= |s| && (forall i :: 0 <= i < n ==> !IsBlank(s[i])) && (n < |s| ==> IsBlank(s[n]))
  {
    if s == "" || IsBlank(s[0]) then 0 else 1 + WordEnd(s[1..])
  }

  /** The words of a line. */
  function Fields(s: string): (words: seq<string>)
    ensures forall i :: 0 <= i < |words| ==> Word(words[i])
    decreases |s|
  {
    if s == "" then []
    else if IsBlank(s[0]) then Fields(s[1..])
    else
      var n := WordEnd(s);
      [s[..n]] + Fields(s[n..])
  }

  lemma WordEndAt(a: string, b: string)
    requires Word(a) && (b != "" ==> IsBlank(b[0]))
    ensures WordEnd(a + b) == |a|
  {
    var s := a + b;
    assert forall i :: 0 <= i < |a| ==> s[i] == a[i];
    assert b != "" ==> s[|a|] == b[0];
  }

  lemma {:induction false} FieldsJoin(words: seq<string>)
    requires forall i :: 0 <= i < |words| ==> Word(words[i])
    ensures Fields(Join(words, ' ')) == words
  {
    if |words| == 1 {
      WordEndAt(words[0], "");
      assert words[0] + "" == words[0];
      assert words[0][|words[0]|..] == "";
    } else if words != [] {
      var rest := Join(words[1..], ' ');
      var s := Join(words, ' ');
      assert s == words[0] + ([' '] + rest);
      WordEndAt(words[0], [' '] + rest);
      assert s[..|words[0]|] == words[0] && s[|words[0]|..] == [' '] + rest;
      assert ([' '] + rest)[1..] == rest;
      FieldsJoin(words[1..]);
    }
  }

  // Decimal numbers

  predicate IsDigit(c: char) {
    '0' <= c <= '9'
  }

  function DigitChar(d: nat): char
    requires d < 10
  {
    '0' + d as char
  }

  function DigitValue(c: char): nat
    requires IsDigit(c)
  {
    (c - '0') as nat
  }

  /** "%d" of a natural number. */
  function Digits(n: nat): (s: string)
    ensures s != "" && forall i :: 0 <= i < |s| ==> IsDigit(s[i])
  {
    if n < 10 then [DigitChar(n)] else Digits(n / 10) + [DigitChar(n % 10)]
  }

  /** "%d" and strconv.Itoa. */
  function Itoa(n: int): string {
    if n < 0 then "-" + Digits(-n) else Digits(n)
  }

  predicate AllDigits(s: string) {
    s != "" && forall i :: 0 <= i < |s| ==> IsDigit(s[i])
  }

  function Value(s: string): nat
    requires forall i :: 0 <= i < |s| ==> IsDigit(s[i])
  {
    if s == "" then 0 else 10 * Value(s[..|s| - 1]) + DigitValue(s[|s| - 1])
  }

  /** An optional sign and decimal digits. */
  function ParseDecimal(s: string): Option<int> {
    if s == "" then None
    else
      var signed := s[0] == '-' || s[0] == '+';
      var digits := if signed then s[1..] else s;
      if !AllDigits(digits) then None
      else Some(if s[0] == '-' then -(Value(digits) as int) else Value(digits))
  }

  lemma {:induction false} ValueOfDigits(n: nat)
    ensures Value(Digits(n)) == n
  {
    if n >= 10 {
      ValueOfDigits(n / 10);
      var s := Digits(n);
      assert s[..|s| - 1] == Digits(n / 10);
    } else {
      assert Digits(n)[..0] == "";
    }
  }

  /** No leading zero but for zero itself. */
  lemma {:induction false} LeadingDigit(n: nat)
    ensures Digits(n)[0] == '0' ==> n == 0
  {
    if n >= 10 {
      LeadingDigit(n / 10);
    }
  }

  lemma DigitsAreWord(n: nat)
    ensures Word(Digits(n)) && AllDigits(Digits(n)) && Word("-" + Digits(n))
  {}

  lemma ParseItoa(n: int)
    ensures ParseDecimal(Itoa(n)) == Some(n)
    ensures Word(Itoa(n))
  {
    var m: nat := if n < 0 then -n else n;
    ValueOfDigits(m);
    DigitsAreWord(m);
    if n < 0 {
      assert Itoa(n)[1..] == Digits(m);
    } else {
      assert IsDigit(Itoa(n)[0]);
    }
  }

  lemma DigitsInjective(m: nat, n: nat)
    requires Digits(m) == Digits(n)
    ensures m == n
  {
    ValueOfDigits(m);
    ValueOfDigits(n);
  }
}
