/** The slice of PHP's value model that the collection builders touch:
    array values, isset(), array_merge() on string keys, and the (int) cast. */
module PhpValues {

  const PhpIntMax: int := 0x7fff_ffff_ffff_ffff
  const PhpIntMin: int := -0x8000_0000_0000_0000

  /** A PHP integer on a 64-bit build. */
  type PhpInt = x: int | PhpIntMin <= x <= PhpIntMax

  /** A PHP value as it appears in query arguments. A PHP array is either a
      list (keys 0, 1, ...) or a dictionary with string keys. */
  datatype Value =
    | Null
    | Bool(b: bool)
    | Int(i: PhpInt)
    | Str(s: string)
    | List(items: seq<Value>)
    | Dict(entries: map<string, Value>)

  /** A string-keyed argument array such as the one handed to WP_Query. */
  type Args = map<string, Value>

  /** isset($args[k]): the key is present and its value is not null. */
  predicate IsSet(args: Args, k: string): (b: bool)
    ensures b ==> k in args
    ensures k in args && args[k] == Null ==> !b
  {
    k in args && args[k] != Null
  }

  /** array_merge($left, $right) on string keys: every key of either side,
      and the right-hand value wins where both have the key. */
  function ArrayMerge(left: Args, right: Args): (r: Args)
    ensures r.Keys == left.Keys + right.Keys
    ensures forall k :: k in right ==> r[k] == right[k]
    ensures forall k :: k in left && k !in right ==> r[k] == left[k]
  {
    left + right
  }

  /** A list of PHP strings, in the given order. */
  function Strs(ss: seq<string>): (r: seq<Value>)
    ensures |r| == |ss|
    ensures forall i :: 0 <= i < |ss| ==> r[i] == Str(ss[i])
  {
    if ss == [] then [] else [Str(ss[0])] + Strs(ss[1..])
  }

  // ----- decimal digits -----

  predicate IsDigit(c: char) {
    '0' <= c <= '9'
  }

  predicate AllDigits(d: string) {
    forall i :: 0 <= i < |d| ==> IsDigit(d[i])
  }

  function DigitChar(d: nat): (c: char)
    requires d < 10
    ensures IsDigit(c)
  {
    ('0' as int + d) as char
  }

  function DigitValue(c: char): (d: nat)
    requires IsDigit(c)
    ensures d < 10 && DigitChar(d) == c
  {
    c as int - '0' as int
  }

  /** The decimal rendering of a natural number, as PHP's string
      interpolation and sprintf("%d") write it: no leading zeros. */
  function NatToString(n: nat): (s: string)
    ensures |s| > 0 && AllDigits(s)
    ensures |s| > 1 ==> s[0] != '0'
  {
    if n < 10 then [DigitChar(n)] else NatToString(n / 10) + [DigitChar(n % 10)]
  }

  /** The decimal rendering of an integer, with '-' in front when negative. */
  function IntToString(n: int): (s: string)
    ensures |s| > 0
    ensures n < 0 <==> s[0] == '-'
    ensures n >= 0 ==> AllDigits(s) && DigitsValue(s) == n
    ensures n < 0 ==> AllDigits(s[1..]) && DigitsValue(s[1..]) == -n
    ensures var d := if n < 0 then s[1..] else s; |d| > 1 ==> d[0] != '0'
  {
    if n < 0 then
      DigitsValueOfNatToString(-n);
      assert ("-" + NatToString(-n))[1..] == NatToString(-n);
      "-" + NatToString(-n)
    else
      DigitsValueOfNatToString(n);
      NatToString(n)
  }

  /** The length of the longest prefix of s made of decimal digits. */
  function DigitRun(s: string): (k: nat)
    ensures k <= |s| && AllDigits(s[..k])
    ensures k < |s| ==> !IsDigit(s[k])
  {
    if |s| > 0 && IsDigit(s[0]) then
      assert s[..1 + DigitRun(s[1..])] == [s[0]] + s[1..][..DigitRun(s[1..])];
      1 + DigitRun(s[1..])
    else 0
  }

  /** The number that a string of decimal digits denotes, most significant first. */
  function DigitsValue(d: string): nat
    requires AllDigits(d)
  {
    if |d| == 0 then 0 else DigitsValue(d[..|d| - 1]) * 10 + DigitValue(d[|d| - 1])
  }

  lemma {:induction false} DigitsValueOfNatToString(n: nat)
    ensures DigitsValue(NatToString(n)) == n
  {
    if n >= 10 {
      var s := NatToString(n);
      assert s[..|s| - 1] == NatToString(n / 10);
      DigitsValueOfNatToString(n / 10);
    }
  }

  lemma {:induction false} DigitRunOfDigits(d: string, rest: string)
    requires AllDigits(d)
    requires rest == [] || !IsDigit(rest[0])
    ensures DigitRun(d + rest) == |d|
  {
    if |d| > 0 {
      assert (d + rest)[1..] == d[1..] + rest;
      DigitRunOfDigits(d[1..], rest);
    } else {
      assert d + rest == rest;
    }
  }

  // ----- the (int) cast -----

  /** The whitespace PHP skips in front of a numeric string: space, \t, \n, \v, \f, \r. */
  predicate IsSpace(c: char) {
    c == ' ' || ('\t' <= c <= '\r')
  }

  function SkipSpace(s: string): (t: string)
    ensures |t| <= |s| && t == s[|s| - |t|..]
    ensures t == [] || !IsSpace(t[0])
  {
    if |s| > 0 && IsSpace(s[0]) then SkipSpace(s[1..]) else s
  }

  /** What may follow a decimal integer so that every PHP version reads the
      integer alone: nothing, or a character that is neither a digit nor the
      start of a fraction or an exponent (PHP 7.1 and later read "42e3" as
      42000 and "42.5" through a float). */
  predicate EndsInteger(rest: string) {
    rest == [] || !(IsDigit(rest[0]) || rest[0] == '.' || rest[0] == 'e' || rest[0] == 'E')
  }

  /** s has no number at its head in any PHP version: after the blanks comes
      neither a digit, nor a '.', nor a sign followed by a digit or a '.'. */
  predicate NoNumberAtHead(s: string) {
    var t := SkipSpace(s);
    t == [] || (!IsDigit(t[0]) && t[0] != '.' &&
      !((t[0] == '-' || t[0] == '+') && |t| > 1 && (IsDigit(t[1]) || t[1] == '.')))
  }

  /** The signed decimal integer at the head of s, after leading whitespace;
      0 when s does not start with one. */
  function LeadingInteger(s: string): (r: int)
    ensures var t := SkipSpace(s);
      t == [] || (!IsDigit(t[0]) && !((t[0] == '-' || t[0] == '+') && |t| > 1 && IsDigit(t[1]))) ==> r == 0
    ensures r < 0 ==> SkipSpace(s)[0] == '-'
  {
    var t := SkipSpace(s);
    if |t| > 0 && (t[0] == '-' || t[0] == '+') then
      var u := t[1..];
      var magnitude: int := DigitsValue(u[..DigitRun(u)]);
      if t[0] == '-' then -magnitude else magnitude
    else
      DigitsValue(t[..DigitRun(t)])
  }

  /** Clamp to the 64-bit range, as PHP does for a numeric string too large for an int. */
  function Saturate(x: int): (r: PhpInt)
    ensures x < PhpIntMin ==> r == PhpIntMin
    ensures x > PhpIntMax ==> r == PhpIntMax
    ensures PhpIntMin <= x <= PhpIntMax ==> r == x
  {
    if x < PhpIntMin then PhpIntMin else if x > PhpIntMax then PhpIntMax else x
  }

  /** PHP's (int) cast of a value. */
  function IntCast(v: Value): (r: PhpInt)
    ensures v.Null? ==> r == 0
    ensures v.Bool? ==> (r == 1 <==> v.b) && (r == 0 <==> !v.b)
    ensures v.Int? ==> r == v.i
    ensures v.List? ==> (r == 0 <==> v.items == [])
    ensures v.Dict? ==> (r == 0 <==> v.entries == map[])
    ensures v.Str? && PhpIntMin <= LeadingInteger(v.s) <= PhpIntMax ==> r == LeadingInteger(v.s)
  {
    match v
    case Null => 0
    case Bool(b) => if b then 1 else 0
    case Int(i) => i
    case Str(s) => Saturate(LeadingInteger(s))
    case List(items) => if |items| == 0 then 0 else 1
    case Dict(entries) => if |entries| == 0 then 0 else 1
  }

  /** The decimal form of n followed by anything that does not start with a
      digit reads back as n. */
  lemma LeadingIntegerOfDecimal(n: int, rest: string)
    requires rest == [] || !IsDigit(rest[0])
    ensures LeadingInteger(IntToString(n) + rest) == n
  {
    if n < 0 {
      var d := NatToString(-n);
      assert IntToString(n) + rest == ['-'] + (d + rest);
      LeadingIntegerOfSigned(d + rest);
      DigitRunPrefixValue(-n, rest);
    } else {
      var s := NatToString(n) + rest;
      assert IntToString(n) + rest == s;
      assert s[0] == NatToString(n)[0];
      LeadingIntegerOfUnsigned(s);
      DigitRunPrefixValue(n, rest);
    }
  }

  /** A string that starts with a digit reads as its digit run. */
  lemma LeadingIntegerOfUnsigned(s: string)
    requires |s| > 0 && IsDigit(s[0])
    ensures LeadingInteger(s) == DigitsValue(s[..DigitRun(s)])
  {
    assert SkipSpace(s) == s;
  }

  /** The digits of n followed by a non-digit: the digit run is exactly n. */
  lemma DigitRunPrefixValue(n: nat, rest: string)
    requires rest == [] || !IsDigit(rest[0])
    ensures var s := NatToString(n) + rest; DigitsValue(s[..DigitRun(s)]) == n
  {
    var d := NatToString(n);
    DigitRunOfDigits(d, rest);
    DigitsValueOfNatToString(n);
    assert (d + rest)[..|d|] == d;
  }

  /** A '-' in front of a string that starts with no blank negates its digit run. */
  lemma LeadingIntegerOfSigned(u: string)
    ensures LeadingInteger(['-'] + u) == -(DigitsValue(u[..DigitRun(u)]) as int)
  {
    var s := ['-'] + u;
    assert SkipSpace(s) == s;
    assert s[1..] == u;
  }

  /** A string that starts with the decimal form of n and then anything that is
      not a digit, a fraction or an exponent casts back to n: "42abc" gives
      42, "-7" gives -7. */
  lemma IntCastOfDecimalPrefix(n: PhpInt, rest: string)
    requires EndsInteger(rest)
    ensures IntCast(Str(IntToString(n) + rest)) == n
  {
    LeadingIntegerOfDecimal(n, rest);
  }

  /** A string with no number at its head casts to 0: "abc" and "  -x" give 0. */
  lemma IntCastNonNumeric(s: string)
    requires NoNumberAtHead(s)
    ensures IntCast(Str(s)) == 0
  {
    var t := SkipSpace(s);
    if |t| > 0 && (t[0] == '-' || t[0] == '+') {
      assert DigitRun(t[1..]) == 0;
    }
  }
}
