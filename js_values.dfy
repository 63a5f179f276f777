/**
 * The few JavaScript value semantics the handlers depend on: truthiness of an optional
 * string, `a || b` on strings, and the built-in `parseInt` applied to a status signal.
 */
module JsValues {
  import opened Wrappers

  /** A string-or-absent value is truthy when it is present and not empty. */
  predicate Truthy(v: Option<string>)
  {
    v.Some? && v.value != ""
  }

  /** `a || b` for two optional strings. */
  function Or(a: Option<string>, b: Option<string>): Option<string>
  {
    if Truthy(a) then a else b
  }

  /** A query parameter that is only written into a URL when it is truthy. */
  function KeepTruthy(v: Option<string>): (r: Option<string>)
    ensures Truthy(r) <==> Truthy(v)
    ensures r.None? || r == v
    ensures !Truthy(v) ==> r.None?
  {
    if Truthy(v) then v else None
  }

  /** The value a handler reads from a JSON body field: absent, a number, or a string. */
  datatype BodyValue = Missing | Num(n: int) | Text(s: string)

  /** The characters that `parseInt` skips before the number (white space and line terminators). */
  predicate IsJsSpace(c: char)
  {
    c == '\t' || c == '\n' || c == '\U{B}' || c == '\U{C}' || c == '\r' || c == ' '
    || c == '\U{A0}' || c == '\U{1680}' || ('\U{2000}' <= c <= '\U{200A}')
    || c == '\U{2028}' || c == '\U{2029}' || c == '\U{202F}' || c == '\U{205F}'
    || c == '\U{3000}' || c == '\U{FEFF}'
  }

  /** The length of the white space that starts `s`. */
  function SpaceRun(s: string): (n: nat)
    ensures n <= |s|
    ensures forall k :: 0 <= k < n ==> IsJsSpace(s[k])
    ensures n < |s| ==> !IsJsSpace(s[n])
  {
    if s != [] && IsJsSpace(s[0]) then 1 + SpaceRun(s[1..]) else 0
  }

  /** `s` without its leading white space. */
  function TrimStart(s: string): (r: string)
    ensures |r| <= |s| && r == s[|s| - |r|..]
    ensures r == [] || !IsJsSpace(r[0])
    ensures forall k :: 0 <= k < |s| - |r| ==> IsJsSpace(s[k])
  {
    s[SpaceRun(s)..]
  }

  /** The value of `c` as a digit of radix up to 36, or 36 when it is no digit at all. */
  function DigitValue(c: char): nat
  {
    if '0' <= c <= '9' then c as nat - '0' as nat
    else if 'a' <= c <= 'z' then c as nat - 'a' as nat + 10
    else if 'A' <= c <= 'Z' then c as nat - 'A' as nat + 10
    else 36
  }

  /** The length of the longest prefix of `s` made of digits of the given radix. */
  function DigitRun(s: string, radix: nat): (n: nat)
    ensures n <= |s|
    ensures forall k :: 0 <= k < n ==> DigitValue(s[k]) < radix
    ensures n < |s| ==> DigitValue(s[n]) >= radix
  {
    if s != [] && DigitValue(s[0]) < radix then 1 + DigitRun(s[1..], radix) else 0
  }

  /** The number denoted by a string of digits, most significant digit first. */
  function DigitsValue(s: string, radix: nat): nat
  {
    if s == [] then 0 else DigitsValue(s[..|s| - 1], radix) * radix + DigitValue(s[|s| - 1])
  }

  /**
   * `parseInt(t)` with no radix argument: leading white space is skipped, one sign is read,
   * a `0x`/`0X` prefix selects radix 16, and the longest run of digits is converted.
   * `None` stands for NaN (no digit at all).
   */
  function ParseIntText(t: string): Option<int>
  {
    ParseSigned(TrimStart(t))
  }

  /**
   * What the first character after the white space decides: a decimal digit (not opening a
   * `0x` prefix) gives a number, no digit at all, and nothing or a letter gives NaN.
   */
  lemma ParseIntTextLeading(t: string)
    ensures var u := TrimStart(t); u != [] && '0' <= u[0] <= '9' && !(|u| >= 2 && (u[1] == 'x' || u[1] == 'X')) ==>
              ParseIntText(t).Some? && ParseIntText(t).value >= 0
    ensures var u := TrimStart(t); u == [] || 'a' <= u[0] <= 'z' || 'A' <= u[0] <= 'Z' ==> ParseIntText(t).None?
  {
  }

  /** `parseInt` after the white space: one optional sign, then the unsigned part. */
  function ParseSigned(u: string): Option<int>
  {
    if u != [] && u[0] == '-' then
      match ParseUnsigned(u[1..])
      case None => None
      case Some(v) => Some(-(v as int))
    else if u != [] && u[0] == '+' then ParseUnsigned(u[1..])
    else ParseUnsigned(u)
  }

  /** The unsigned part of `parseInt`: an optional hexadecimal prefix and the longest digit run. */
  function ParseUnsigned(s: string): Option<nat>
  {
    var hex := |s| >= 2 && s[0] == '0' && (s[1] == 'x' || s[1] == 'X');
    var radix := if hex then 16 else 10;
    var body := if hex then s[2..] else s;
    var n := DigitRun(body, radix);
    if n == 0 then None else Some(DigitsValue(body[..n], radix))
  }

  /** `parseInt(v)` for a body field: a JSON integer reads as its decimal text would, that is as itself. */
  function ParseInt(v: BodyValue): (r: Option<int>)
    ensures v.Missing? ==> r.None?
    ensures v.Num? ==> r == ParseIntText(IntText(v.n))
    ensures v.Text? ==> r == ParseIntText(v.s)
  {
    match v
    case Missing => None
    case Num(n) => ParseIntOfIntText(n); Some(n)
    case Text(s) => ParseIntText(s)
  }

  /** The decimal text of a natural number, as `String(n)` writes it. */
  function NatText(n: nat): (s: string)
    ensures |s| > 0 && forall k :: 0 <= k < |s| ==> '0' <= s[k] <= '9'
  {
    if n < 10 then [('0' as int + n) as char]
    else NatText(n / 10) + [('0' as int + n % 10) as char]
  }

  /** The decimal text of an integer, as `String(n)` writes it below 10^21 in magnitude. */
  function IntText(n: int): string
  {
    if n < 0 then "-" + NatText(-n) else NatText(n)
  }

  lemma {:induction false} NatTextValue(n: nat)
    ensures DigitsValue(NatText(n), 10) == n
  {
    var s := NatText(n);
    if n >= 10 {
      assert s[..|s| - 1] == NatText(n / 10);
      NatTextValue(n / 10);
    }
  }

  /** A run of decimal digits is read to its end. */
  lemma DecimalRunComplete(s: string)
    requires forall k :: 0 <= k < |s| ==> '0' <= s[k] <= '9'
    ensures DigitRun(s, 10) == |s|
  {
  }

  /** A non-empty run of decimal digits is read whole, in radix 10. */
  lemma {:induction false} ParseUnsignedDecimal(s: string)
    requires s != [] && forall k :: 0 <= k < |s| ==> '0' <= s[k] <= '9'
    ensures ParseUnsigned(s) == Some(DigitsValue(s, 10))
  {
    assert |s| >= 2 ==> '0' <= s[1] <= '9';
    DecimalRunComplete(s);
    assert s[..|s|] == s;
  }

  lemma {:induction false} ParseUnsignedOfNatText(m: nat)
    ensures ParseUnsigned(NatText(m)) == Some(m)
  {
    NatTextValue(m);
    ParseUnsignedDecimal(NatText(m));
  }

  /** A string that starts with a letter is NaN to `parseInt`. */
  lemma ParseIntOfWord(s: string)
    requires s != [] && ('a' <= s[0] <= 'z' || 'A' <= s[0] <= 'Z')
    ensures ParseIntText(s) == None
  {
    TrimStartKeeps(s);
    assert DigitRun(s, 10) == 0;
  }

  lemma TrimStartKeeps(s: string)
    requires s != [] && !IsJsSpace(s[0])
    ensures TrimStart(s) == s
  {
  }

  /**
   * `parseInt(String(n)) == n`: this is why a JSON number in a status field may be
   * modelled as converting to itself.
   */
  lemma {:induction false} ParseIntOfIntText(n: int)
    ensures ParseIntText(IntText(n)) == Some(n)
  {
    if n < 0 {
      ParseIntOfNegative(-n);
    } else {
      ParseIntOfNatText(n);
    }
  }

  lemma IntTextOfNegative(n: int)
    requires n < 0
    ensures IntText(n) == "-" + NatText(-n)
  {
  }

  /** Text that starts with a digit is read by the unsigned part alone. */
  lemma ParseIntOfDigits(s: string)
    requires s != [] && '0' <= s[0] <= '9'
    ensures ParseIntText(s) == ParseUnsigned(s)
  {
    TrimStartKeeps(s);
  }

  /** A minus sign in front of digits negates what the digits denote. */
  lemma {:induction false} ParseIntOfMinus(s: string, v: nat)
    requires s != [] && '0' <= s[0] <= '9' && ParseUnsigned(s) == Some(v)
    ensures ParseIntText("-" + s) == Some(-(v as int))
  {
    var t := "-" + s;
    assert t[0] == '-' && t[1..] == s;
    assert ParseSigned(t) == Some(-(v as int));
    TrimStartKeeps(t);
  }

  lemma {:induction false} ParseIntOfNatText(m: nat)
    ensures ParseIntText(NatText(m)) == Some(m)
  {
    ParseUnsignedOfNatText(m);
    ParseIntOfDigits(NatText(m));
  }

  lemma {:induction false} ParseIntOfNegative(m: nat)
    requires m > 0
    ensures ParseIntText(IntText(-(m as int))) == Some(-(m as int))
  {
    ParseUnsignedOfNatText(m);
    ParseIntOfMinus(NatText(m), m);
    IntTextOfNegative(-(m as int));
  }
}
