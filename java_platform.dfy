/** The parts of the Java platform that the migration driver relies on:
    `String.indexOf`, `String.replace`, `String.equalsIgnoreCase`,
    `Long.parseLong`, `Integer.parseInt`, `Boolean.parseBoolean`, and the two
    exception classes it throws, with `Throwable.toString`. */
module JavaPlatform {
  import opened Wrappers

  // ---------------------------------------------------------------------------
  // Exceptions
  // ---------------------------------------------------------------------------

  /** The exceptions the driver throws or lets escape. */
  datatype JavaException =
    | IllegalArgumentException(message: string)
    | SQLException(message: string, cause: Option<JavaException>)
  {
    /** `Throwable.toString()`: the class name, ": ", then the message. */
    function ToString(): (s: string)
      ensures |s| > |message|
      ensures s[|s| - |message|..] == message
    {
      match this
      case IllegalArgumentException(m) => "java.lang.IllegalArgumentException: " + m
      case SQLException(m, _) => "java.sql.SQLException: " + m
    }
  }

  /** `new SQLException(cause)`: the message is the cause's `toString()`. */
  function WrapInSQLException(cause: JavaException): (e: JavaException)
    ensures e.SQLException? && e.cause == Some(cause)
    ensures e.message == cause.ToString()
  {
    SQLException(cause.ToString(), Some(cause))
  }

  // ---------------------------------------------------------------------------
  // String.indexOf(char) and String.replace(CharSequence, CharSequence)
  // ---------------------------------------------------------------------------

  /** `s.indexOf(c)`: the first position of `c` in `s`, or -1 when it does not occur. */
  function IndexOf(s: string, c: char): (r: int)
    ensures -1 <= r < |s|
    ensures r == -1 <==> c !in s
    ensures r >= 0 ==> s[r] == c && c !in s[..r]
  {
    if |s| == 0 then -1
    else if s[0] == c then 0
    else
      var k := IndexOf(s[1..], c);
      assert k >= 0 ==> s[..k + 1] == [s[0]] + s[1..][..k];
      if k == -1 then -1 else k + 1
  }

  /** `target` occurs in `s` starting at position `i`. */
  predicate OccursAt(s: string, target: string, i: nat) {
    i + |target| <= |s| && s[i..i + |target|] == target
  }

  /** `target` occurs somewhere in `s`. */
  ghost predicate Contains(s: string, target: string) {
    exists i: nat :: OccursAt(s, target, i)
  }

  /** `s.replace(target, replacement)`: every non-overlapping occurrence of
      `target`, scanning from the left, is replaced. The driver only calls it
      with a non-empty target. */
  function Replace(s: string, target: string, replacement: string): string
    requires target != []
    decreases |s|
  {
    if |s| < |target| then s
    else if s[..|target|] == target then replacement + Replace(s[|target|..], target, replacement)
    else [s[0]] + Replace(s[1..], target, replacement)
  }

  /** Replacing a target that does not occur leaves the string as it is. */
  lemma {:induction false} ReplaceAbsent(s: string, target: string, replacement: string)
    requires target != []
    ensures !Contains(s, target) ==> Replace(s, target, replacement) == s
    decreases |s|
  {
    if |s| < |target| || Contains(s, target) {
    } else {
      assert !OccursAt(s, target, 0);
      assert s[..|target|] != target;
      forall i: nat | OccursAt(s[1..], target, i) ensures OccursAt(s, target, i + 1) {
        assert s[1..][i..i + |target|] == s[i + 1..i + 1 + |target|];
      }
      ReplaceAbsent(s[1..], target, replacement);
    }
  }

  /** Removing a target that leads the string and does not occur in the rest
      yields the rest. */
  lemma RemoveLeading(target: string, rest: string)
    requires target != []
    requires !Contains(rest, target)
    ensures Replace(target + rest, target, "") == rest
  {
    var s := target + rest;
    assert s[..|target|] == target;
    assert s[|target|..] == rest;
    ReplaceAbsent(rest, target, "");
  }

  // ---------------------------------------------------------------------------
  // String.equalsIgnoreCase and Boolean.parseBoolean
  // ---------------------------------------------------------------------------

  /** `Character.toUpperCase` on the characters whose upper case is an ASCII
      letter: ASCII lower-case letters, U+0131 (dotless i) and U+017F (long s).
      Every other character is left as it is. */
  function ToUpperCase(c: char): char {
    if 'a' <= c <= 'z' then (c as int - 32) as char
    else if c == '\U{0131}' then 'I'
    else if c == '\U{017F}' then 'S'
    else c
  }

  /** `Character.toLowerCase` on the characters whose lower case is an ASCII
      letter: ASCII upper-case letters, U+0130 (dotted capital I) and U+212A
      (Kelvin sign). Every other character is left as it is. */
  function ToLowerCase(c: char): char {
    if 'A' <= c <= 'Z' then (c as int + 32) as char
    else if c == '\U{0130}' then 'i'
    else if c == '\U{212A}' then 'k'
    else c
  }

  /** The per-character test of `String.equalsIgnoreCase`. */
  predicate CharEqualsIgnoreCase(a: char, b: char) {
    a == b
    || ToUpperCase(a) == ToUpperCase(b)
    || ToLowerCase(ToUpperCase(a)) == ToLowerCase(ToUpperCase(b))
  }

  /** `a.equalsIgnoreCase(b)`: same length, and equal character by character up to case. */
  predicate EqualsIgnoreCase(a: string, b: string) {
    |a| == |b| && forall i :: 0 <= i < |a| ==> CharEqualsIgnoreCase(a[i], b[i])
  }

  /** `Boolean.parseBoolean(s)`: true exactly when `s` is "true" up to case,
      that is, for the 16 spellings with each letter in either case. */
  function ParseBoolean(s: string): (b: bool)
    ensures b <==> |s| == 4 && s[0] in "tT" && s[1] in "rR" && s[2] in "uU" && s[3] in "eE"
  {
    EqualsIgnoreCase("true", s)
  }

  /** The spellings `"false".equalsIgnoreCase` accepts: each letter in either
      case, and also U+017F (long s) in place of the s, since Java upper-cases it to S. */
  lemma FalseSpellings(s: string)
    ensures EqualsIgnoreCase("false", s) <==>
      |s| == 5 && s[0] in "fF" && s[1] in "aA" && s[2] in "lL" && s[3] in "sS\U{017F}" && s[4] in "eE"
  {
  }

  // ---------------------------------------------------------------------------
  // Long.parseLong and Integer.parseInt
  // ---------------------------------------------------------------------------

  const LongMin: int := -0x8000_0000_0000_0000
  const LongMax: int := 0x7FFF_FFFF_FFFF_FFFF
  const IntMin: int := -0x8000_0000
  const IntMax: int := 0x7FFF_FFFF

  predicate IsDigit(c: char) {
    '0' <= c <= '9'
  }

  function DigitValue(c: char): nat
    requires IsDigit(c)
  {
    c as int - '0' as int
  }

  /** A non-empty run of decimal digits. */
  predicate IsDigits(s: string) {
    |s| > 0 && forall i :: 0 <= i < |s| ==> IsDigit(s[i])
  }

  /** The value of a run of decimal digits, most significant first. */
  function DigitsValue(s: string): nat
    requires forall i :: 0 <= i < |s| ==> IsDigit(s[i])
  {
    if s == [] then 0 else DigitsValue(s[..|s| - 1]) * 10 + DigitValue(s[|s| - 1])
  }

  /** The syntax both `Long.parseLong` and `Integer.parseInt` accept: an optional
      '+' or '-' followed by one or more digits; its value when it is one. */
  function DecimalValue(s: string): Option<int> {
    if |s| > 0 && (s[0] == '-' || s[0] == '+') then
      if IsDigits(s[1..]) then
        var magnitude: int := DigitsValue(s[1..]);
        Some(if s[0] == '-' then -magnitude else magnitude)
      else None
    else if IsDigits(s) then Some(DigitsValue(s))
    else None
  }

  /** `Long.parseLong(s)`: the value of a signed decimal numeral in the 64-bit
      range; `None` stands for the NumberFormatException it throws otherwise. */
  function ParseLong(s: string): (r: Option<int>)
    ensures r.Some? ==> LongMin <= r.value <= LongMax
    ensures r.Some? ==> |s| > 0 && (IsDigit(s[0]) || s[0] == '+' || s[0] == '-')
    ensures r.Some? ==> forall i :: 0 < i < |s| ==> IsDigit(s[i])
    ensures DecimalValue(s).Some? && LongMin <= DecimalValue(s).value <= LongMax ==> r == DecimalValue(s)
    ensures r.Some? ==> r == DecimalValue(s)
  {
    match DecimalValue(s)
    case Some(n) => if LongMin <= n <= LongMax then Some(n) else None
    case None => None
  }

  /** `Integer.parseInt(s)`: as `Long.parseLong`, over the 32-bit range. */
  function ParseInt(s: string): (r: Option<int>)
    ensures r.Some? ==> IntMin <= r.value <= IntMax
    ensures r.Some? ==> |s| > 0 && (IsDigit(s[0]) || s[0] == '+' || s[0] == '-')
    ensures r.Some? ==> forall i :: 0 < i < |s| ==> IsDigit(s[i])
    ensures DecimalValue(s).Some? && IntMin <= DecimalValue(s).value <= IntMax ==> r == DecimalValue(s)
    ensures r.Some? ==> r == DecimalValue(s)
  {
    match DecimalValue(s)
    case Some(n) => if IntMin <= n <= IntMax then Some(n) else None
    case None => None
  }

  /** The decimal digits of `n`, most significant first, as `Long.toString` writes them. */
  function Digits(n: nat): string {
    if n < 10 then [('0' as int + n) as char] else Digits(n / 10) + [('0' as int + n % 10) as char]
  }

  /** `Long.toString(n)`: a '-' for a negative number, then the digits of its magnitude. */
  function ToDecimal(n: int): string {
    if n < 0 then "-" + Digits(-n) else Digits(n)
  }

  lemma {:induction false} DigitsRoundTrip(n: nat)
    ensures IsDigits(Digits(n))
    ensures DigitsValue(Digits(n)) == n
  {
    if n >= 10 {
      DigitsRoundTrip(n / 10);
      var s := Digits(n);
      assert s[..|s| - 1] == Digits(n / 10);
    }
  }

  /** `Long.parseLong` reads back every 64-bit value `Long.toString` writes. */
  lemma ParseLongRoundTrip(n: int)
    requires LongMin <= n <= LongMax
    ensures ParseLong(ToDecimal(n)) == Some(n)
  {
    var m: nat := if n < 0 then -n else n;
    DigitsRoundTrip(m);
    if n < 0 {
      assert ToDecimal(n)[1..] == Digits(m);
    }
  }

  /** `Integer.parseInt` reads back every 32-bit value `Integer.toString` writes. */
  lemma ParseIntRoundTrip(n: int)
    requires IntMin <= n <= IntMax
    ensures ParseInt(ToDecimal(n)) == Some(n)
  {
    var m: nat := if n < 0 then -n else n;
    DigitsRoundTrip(m);
    if n < 0 {
      assert ToDecimal(n)[1..] == Digits(m);
    }
  }

  /** Just past the 64-bit range, `Long.parseLong` rejects a well-formed numeral. */
  lemma ParseLongRejectsOverflow(n: int)
    requires n == LongMax + 1 || n == LongMin - 1
    ensures DecimalValue(ToDecimal(n)) == Some(n)
    ensures ParseLong(ToDecimal(n)) == None
  {
    var m: nat := if n < 0 then -n else n;
    DigitsRoundTrip(m);
    if n < 0 {
      assert ToDecimal(n)[1..] == Digits(m);
    }
  }
}
