/** The few pieces of Python string behaviour the services rely on:
    a value that is either a `str` or `None`, f-string rendering,
    `str.join`, `str.strip` and `str(int)`. */
module Text {

  /** A Python value that is either a `str` or `None`. Article fields,
      dictionary entries and metadata are of this kind. */
  datatype Value = Str(s: string) | Null

  /** How an f-string renders a Value: a str as itself, None as "None". */
  function Render(v: Value): string
  {
    match v
    case Str(s) => s
    case Null => "None"
  }

  /** `d.get(key, default)` on a dictionary. */
  function Get<K>(d: map<K, Value>, key: K, default: Value): Value
  {
    if key in d then d[key] else default
  }

  /** `sep.join(parts)`: the parts with `sep` between neighbours. The
      first part begins the result. */
  function Join(sep: string, parts: seq<string>): (r: string)
    ensures parts == [] ==> r == ""
    ensures parts != [] ==> parts[0] <= r
  {
    if |parts| == 0 then ""
    else if |parts| == 1 then parts[0]
    else
      var init := parts[..|parts| - 1];
      assert init[0] == parts[0];
      Join(sep, init) + sep + parts[|parts| - 1]
  }

  /** The characters for which Python's `str.isspace` holds, the ones
      `str.strip()` removes. */
  predicate IsSpace(c: char)
  {
    var n := c as int;
    || 9 <= n <= 13 || 28 <= n <= 32 || n == 0x85 || n == 0xA0 || n == 0x1680
    || 0x2000 <= n <= 0x200A || n == 0x2028 || n == 0x2029 || n == 0x202F
    || n == 0x205F || n == 0x3000
  }

  /** `s.rstrip()`: the longest prefix of `s` not ending in whitespace,
      such that only whitespace follows it. */
  function TrimEnd(s: string): (r: string)
    ensures r <= s
    ensures r == [] || !IsSpace(r[|r| - 1])
    ensures forall i | |r| <= i < |s| :: IsSpace(s[i])
  {
    if s != [] && IsSpace(s[|s| - 1]) then TrimEnd(s[..|s| - 1]) else s
  }

  /** `s.lstrip()`: the longest suffix of `s` not starting with whitespace,
      such that only whitespace precedes it. */
  function TrimStart(s: string): (r: string)
    ensures |r| <= |s| && r == s[|s| - |r|..]
    ensures r == [] || !IsSpace(r[0])
    ensures forall i | 0 <= i < |s| - |r| :: IsSpace(s[i])
  {
    if s != [] && IsSpace(s[0]) then TrimStart(s[1..]) else s
  }

  /** `s.strip()`: neither end of the result is whitespace, and a string
      that already has no whitespace at either end is left as it is. */
  function Strip(s: string): (r: string)
    ensures |r| <= |s|
    ensures r == [] || (!IsSpace(r[0]) && !IsSpace(r[|r| - 1]))
    ensures s == [] || (!IsSpace(s[0]) && !IsSpace(s[|s| - 1])) ==> r == s
  {
    TrimEnd(TrimStart(s))
  }

  /** Stripping a string whose first character is not whitespace and that
      contains `p` as a prefix ending in a non-space character keeps that
      prefix, and removes only whitespace. */
  lemma StripKeepsPrefix(s: string, p: string)
    requires p != [] && p <= s && !IsSpace(p[0]) && !IsSpace(p[|p| - 1])
    ensures p <= Strip(s) && Strip(s) <= s
    ensures forall i | |Strip(s)| <= i < |s| :: IsSpace(s[i])
  {
    assert s[0] == p[0];
    assert TrimStart(s) == s;
  }

  /** A non-empty run of decimal digits. */
  predicate IsDigits(r: string)
  {
    r != [] && forall i | 0 <= i < |r| :: '0' <= r[i] <= '9'
  }

  /** The number a run of decimal digits denotes. */
  function DigitsValue(r: string): nat
    requires forall i | 0 <= i < |r| :: '0' <= r[i] <= '9'
  {
    if r == [] then 0
    else 10 * DigitsValue(r[..|r| - 1]) + (r[|r| - 1] as int - '0' as int)
  }

  /** `str(n)` for a non-negative integer: decimal digits, without a
      leading zero, that denote `n`. */
  function Decimal(n: nat): (r: string)
    ensures IsDigits(r)
    ensures |r| > 1 ==> r[0] != '0'
    ensures DigitsValue(r) == n
  {
    if n < 10 then [Digit(n)]
    else
      var prefix := Decimal(n / 10);
      var r := prefix + [Digit(n % 10)];
      assert r[..|r| - 1] == prefix;
      r
  }

  /** Different numbers print differently. */
  lemma DecimalInjective(m: nat, n: nat)
    requires Decimal(m) == Decimal(n)
    ensures m == n
  {
  }

  function Digit(d: nat): (c: char)
    requires d < 10
    ensures '0' <= c <= '9' && c as int - '0' as int == d
  {
    ['0', '1', '2', '3', '4', '5', '6', '7', '8', '9'][d]
  }
}
