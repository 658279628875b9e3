/** Values shared by the WooGoSend model: optional and fallible results, the
    settings values PHP stores, and the PHP number conversions the plugin uses
    (truthiness, intval, absint, the (int) cast and ceil). */
module Values {

  datatype Option<+T> = None | Some(value: T)

  /** A WP_Error-or-value outcome; the error carries the message text. */
  datatype Result<+T> = Ok(value: T) | Err(message: string)

  /** A stored setting. Settings are kept as text by WordPress; numeric ones
      are modelled as already parsed numbers. A null setting is an absent key. */
  datatype SettingValue = Text(text: string) | Number(number: int)

  /** PHP empty() on a string: the empty string and "0". */
  predicate EmptyString(s: string) {
    s == "" || s == "0"
  }

  /** PHP truthiness of a setting that may be null. */
  predicate Truthy(v: Option<SettingValue>) {
    match v
    case None => false
    case Some(Text(s)) => !EmptyString(s)
    case Some(Number(n)) => n != 0
  }

  /** Value of the longest run of decimal digits at the head of s. */
  function DigitPrefixValue(s: string, acc: nat): nat
    decreases |s|
  {
    if |s| > 0 && '0' <= s[0] <= '9' then
      DigitPrefixValue(s[1..], acc * 10 + (s[0] as int - '0' as int))
    else
      acc
  }

  /** The whitespace PHP skips before a numeric string: space, tab, line
      feed, vertical tab, form feed and carriage return. */
  predicate IsSpace(c: char) {
    c == ' ' || '\t' <= c <= '\r'
  }

  /** s without its leading whitespace. */
  function SkipSpace(s: string): (r: string)
    ensures |r| <= |s| && r == s[|s| - |r|..]
    ensures r == [] || !IsSpace(r[0])
    ensures forall i :: 0 <= i < |s| - |r| ==> IsSpace(s[i])
    decreases |s|
  {
    if |s| > 0 && IsSpace(s[0]) then SkipSpace(s[1..]) else s
  }

  /** PHP intval of a string: leading whitespace, an optional sign, then the
      run of decimal digits; no digits read as 0. */
  function LeadingInt(s: string): int {
    var t := SkipSpace(s);
    if |t| > 0 && t[0] == '-' then -(DigitPrefixValue(t[1..], 0) as int)
    else if |t| > 0 && t[0] == '+' then DigitPrefixValue(t[1..], 0)
    else DigitPrefixValue(t, 0)
  }

  /** Whitespace in front of a number and a plus sign do not change it, and a
      minus sign negates it. */
  lemma LeadingIntPrefixes(space: string, digits: string)
    requires forall i :: 0 <= i < |space| ==> IsSpace(space[i])
    requires |digits| > 0 && '0' <= digits[0] <= '9'
    ensures LeadingInt(space + digits) == LeadingInt(digits)
    ensures LeadingInt(space + "+" + digits) == LeadingInt(digits)
    ensures LeadingInt(space + "-" + digits) == -LeadingInt(digits)
  {
    var n: int := DigitPrefixValue(digits, 0);
    assert LeadingInt(digits) == n by {
      SkipSpaceOver([], digits);
    }
    assert LeadingInt(space + digits) == n by {
      SkipSpaceOver(space, digits);
    }
    assert LeadingInt(space + "+" + digits) == n by {
      assert "+" == ['+'];
      SignedAfterSpace(space, '+', digits);
    }
    assert LeadingInt(space + "-" + digits) == -n by {
      assert "-" == ['-'];
      SignedAfterSpace(space, '-', digits);
    }
  }

  lemma SignedAfterSpace(space: string, sign: char, digits: string)
    requires forall i :: 0 <= i < |space| ==> IsSpace(space[i])
    requires sign == '+' || sign == '-'
    ensures LeadingInt(space + [sign] + digits)
            == if sign == '-' then -(DigitPrefixValue(digits, 0) as int) else DigitPrefixValue(digits, 0)
  {
    var p := [sign] + digits;
    assert space + [sign] + digits == space + p;
    SkipSpaceOver(space, p);
    assert p[1..] == digits;
  }

  lemma {:induction false} SkipSpaceOver(space: string, rest: string)
    requires forall i :: 0 <= i < |space| ==> IsSpace(space[i])
    requires |rest| > 0 && !IsSpace(rest[0])
    ensures SkipSpace(space + rest) == rest
    decreases |space|
  {
    if space != [] {
      assert (space + rest)[1..] == space[1..] + rest;
      SkipSpaceOver(space[1..], rest);
    }
  }

  /** intval(" 12") is 12 and intval("+5") is 5. */
  lemma LeadingIntExamples()
    ensures LeadingInt(" 12") == 12
    ensures LeadingInt("+5") == 5
    ensures LeadingInt("\t-7") == -7
    ensures LeadingInt("+ 5") == 0
  {
    SkipSpaceOver(" ", "12");
    SignedAfterSpace("", '+', "5");
    SignedAfterSpace("\t", '-', "7");
    assert " 12" == " " + "12";
    assert "+5" == "" + ['+'] + "5";
    assert "\t-7" == "\t" + ['-'] + "7";
    SignedAfterSpace("", '+', " 5");
    assert "+ 5" == "" + ['+'] + " 5";
  }

  /** PHP intval of a setting; null reads as 0. */
  function IntOf(v: Option<SettingValue>): int {
    match v
    case None => 0
    case Some(Number(n)) => n
    case Some(Text(s)) => LeadingInt(s)
  }

  function Abs(x: int): nat {
    if x < 0 then -x else x
  }

  /** WordPress absint: the absolute value of intval. */
  function AbsInt(v: Option<SettingValue>): nat {
    Abs(IntOf(v))
  }

  /** PHP (int) cast of a float: truncation toward zero. */
  function Trunc(r: real): (t: int)
    ensures 0.0 <= r ==> t as real <= r < t as real + 1.0
    ensures r < 0.0 ==> t as real - 1.0 < r <= t as real
  {
    if r >= 0.0 then r.Floor else -((-r).Floor)
  }

  /** PHP ceil of a float, as an integer. */
  function Ceil(r: real): (c: int)
    ensures r <= c as real < r + 1.0
  {
    -((-r).Floor)
  }

  /** PHP ceil(a / b) for integers a and a positive b. */
  function CeilDiv(a: int, b: int): (c: int)
    requires b > 0
    ensures (c - 1) * b < a <= c * b
  {
    var q := (-a) / b;
    assert -a == q * b + (-a) % b;
    -q
  }

  /** The integer ceiling division agrees with ceil of the exact quotient. */
  lemma CeilDivIsCeil(a: int, b: int)
    requires b > 0
    ensures CeilDiv(a, b) == Ceil(a as real / b as real)
  {
    assert -(a as real / b as real) == (-a) as real / b as real;
    FloorOfQuotient(-a, b);
  }

  lemma FloorOfQuotient(a: int, b: int)
    requires b > 0
    ensures (a as real / b as real).Floor == a / b
  {
    var q, m := a / b, a % b;
    assert a == q * b + m;
    FractionBounds(m, b);
    assert a as real / b as real == q as real + m as real / b as real;
  }

  lemma FractionBounds(m: int, b: int)
    requires b > 0 && 0 <= m < b
    ensures 0.0 <= m as real / b as real < 1.0
  {
    var f := m as real / b as real;
    assert f * b as real == m as real;
  }

  function MaxInt(a: int, b: int): int {
    if a >= b then a else b
  }

  function MaxReal(a: real, b: real): real {
    if a >= b then a else b
  }

  /** Sum of a sequence of reals (PHP array_sum), folded from the right end. */
  function SumReals(s: seq<real>): real {
    if s == [] then 0.0 else SumReals(s[..|s| - 1]) + s[|s| - 1]
  }

  /** Largest element of a non-empty sequence (PHP max of an array). */
  function MaxOf(s: seq<real>): (m: real)
    requires s != []
    ensures forall i :: 0 <= i < |s| ==> s[i] <= m
    ensures exists i :: 0 <= i < |s| && s[i] == m
  {
    if |s| == 1 then s[0]
    else
      var m := MaxOf(s[..|s| - 1]);
      assert forall i :: 0 <= i < |s| - 1 ==> s[..|s| - 1][i] == s[i];
      MaxReal(m, s[|s| - 1])
  }
}

/** String helpers: decimal formatting, joining, trimming, prefixes and splitting. */
module Strings {

  function DigitChar(d: nat): char
    requires d < 10
  {
    "0123456789"[d]
  }

  /** Decimal text of a natural number, as PHP prints an integer. */
  function NatToString(n: nat): (s: string)
    ensures |s| > 0
  {
    if n < 10 then [DigitChar(n)] else NatToString(n / 10) + [DigitChar(n % 10)]
  }

  function IntToString(n: int): (s: string)
    ensures |s| > 0
  {
    if n < 0 then "-" + NatToString(-n) else NatToString(n)
  }

  /** PHP implode. */
  function Join(parts: seq<string>, sep: string): string {
    if parts == [] then ""
    else if |parts| == 1 then parts[0]
    else parts[0] + sep + Join(parts[1..], sep)
  }

  /** PHP strpos(s, p) === 0. */
  predicate StartsWith(s: string, p: string) {
    |p| <= |s| && s[..|p|] == p
  }

  /** The characters PHP trim strips by default. */
  predicate IsTrimSpace(c: char) {
    c == ' ' || c == '\t' || c == '\n' || c == '\r' || c == '\0' || c == '\U{0B}'
  }

  function TrimLeft(s: string): string {
    if |s| > 0 && IsTrimSpace(s[0]) then TrimLeft(s[1..]) else s
  }

  function TrimRight(s: string): string {
    if |s| > 0 && IsTrimSpace(s[|s| - 1]) then TrimRight(s[..|s| - 1]) else s
  }

  /** PHP trim. */
  function Trim(s: string): string {
    TrimRight(TrimLeft(s))
  }

  /** PHP explode(sep, s) for a one-character separator. */
  function Split(s: string, sep: char): (parts: seq<string>)
    ensures |parts| > 0
    decreases |s|
  {
    if sep !in s then [s]
    else
      var i := FirstIndex(s, sep);
      [s[..i]] + Split(s[i + 1..], sep)
  }

  function FirstIndex(s: string, c: char): (i: nat)
    requires c in s
    ensures i < |s| && s[i] == c && c !in s[..i]
  {
    if s[0] == c then 0
    else
      assert c in s[1..];
      1 + FirstIndex(s[1..], c)
  }
}
