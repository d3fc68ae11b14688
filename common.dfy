/** Values and JavaScript semantics shared by the scan and deployment models. */
module Common {

  datatype Option<+T> = None | Some(value: T)

  datatype Result<+T, +E> = Ok(value: T) | Err(error: E)

  /** A JavaScript number as `parseInt` or `Number()` leaves a pipeline input:
      an integer, or NaN when the text is not numeric. */
  datatype Numeric = Int(n: int) | NaN

  /** `input || fallback` for a numeric pipeline input; `None` is an empty or unset input. */
  function OrDefault(input: Option<Numeric>, fallback: int): Numeric
  {
    if input.None? then Int(fallback) else input.value
  }

  /** `count > limit` in JavaScript: every comparison with NaN is false. */
  predicate Exceeds(count: int, limit: Numeric)
  {
    limit.Int? && count > limit.n
  }

  /** `count >= limit` in JavaScript: every comparison with NaN is false. */
  predicate Reaches(count: int, limit: Numeric)
  {
    limit.Int? && count >= limit.n
  }

  /** JavaScript truthiness of an optional string: present and not empty. */
  predicate Truthy(s: Option<string>)
  {
    s.Some? && s.value != ""
  }

  /** `x || 0` for an optional count (a zero count is falsy and yields 0 as well). */
  function OrZero(x: Option<int>): int
  {
    if x.Some? then x.value else 0
  }

  /** The four severities both threshold checks read, in the order the source lists them. */
  datatype Severity = Critical | High | Medium | Low

  const Severities: seq<Severity> := [Critical, High, Medium, Low]

  lemma SeveritiesListsAll(s: Severity)
    ensures s in Severities
  {
  }

  /** The characters `String.prototype.trim` removes: WhiteSpace (including every
      Unicode space separator) and LineTerminator of ECMA-262. */
  predicate IsJsSpace(c: char)
  {
    || c == '\t' || c == '\n' || c == '\U{B}' || c == '\U{C}' || c == '\r' || c == ' '
    || c == '\U{A0}' || c == '\U{1680}' || ('\U{2000}' <= c <= '\U{200A}')
    || c == '\U{2028}' || c == '\U{2029}' || c == '\U{202F}' || c == '\U{205F}'
    || c == '\U{3000}' || c == '\U{FEFF}'
  }

  /** Drops leading white space: the result is a suffix of `s`, everything dropped is
      white space, and the result does not start with white space. */
  function TrimStart(s: string): (r: string)
    ensures |r| <= |s| && r == s[|s| - |r|..]
    ensures forall i :: 0 <= i < |s| - |r| ==> IsJsSpace(s[i])
    ensures r == [] || !IsJsSpace(r[0])
    decreases |s|
  {
    if s != [] && IsJsSpace(s[0]) then TrimStart(s[1..]) else s
  }

  /** Drops trailing white space: the result is a prefix of `s`, everything dropped is
      white space, and the result does not end with white space. */
  function TrimEnd(s: string): (r: string)
    ensures |r| <= |s| && r == s[..|r|]
    ensures forall i :: |r| <= i < |s| ==> IsJsSpace(s[i])
    ensures r == [] || !IsJsSpace(r[|r| - 1])
    decreases |s|
  {
    if s != [] && IsJsSpace(s[|s| - 1]) then TrimEnd(s[..|s| - 1]) else s
  }

  /** `r` is the infix of `s` that starts at `i`, and everything outside it is white space. */
  predicate IsCoreAt(s: string, r: string, i: int)
  {
    && 0 <= i <= |s| - |r| && r == s[i..i + |r|]
    && (forall k :: 0 <= k < i ==> IsJsSpace(s[k]))
    && (forall k :: i + |r| <= k < |s| ==> IsJsSpace(s[k]))
  }

  /** `s.trim()`: an infix of `s` that neither starts nor ends with white space,
      everything cut off on either side being white space. */
  function Trim(s: string): (r: string)
    ensures exists i :: IsCoreAt(s, r, i)
    ensures r == [] || (!IsJsSpace(r[0]) && !IsJsSpace(r[|r| - 1]))
  {
    var t := TrimStart(s);
    var r := TrimEnd(t);
    assert IsCoreAt(s, r, |s| - |t|);
    r
  }

  /** `toLowerCase` on one character, for the ASCII letters. */
  function LowerChar(c: char): char
  {
    if 'A' <= c <= 'Z' then (c as int - 'A' as int + 'a' as int) as char else c
  }

  /** `s.toLowerCase()`, for ASCII letters. */
  function ToLower(s: string): (r: string)
    ensures |r| == |s|
    ensures forall i :: 0 <= i < |s| ==> r[i] == LowerChar(s[i])
  {
    seq(|s|, i requires 0 <= i < |s| => LowerChar(s[i]))
  }

  /** The number a string of decimal digits spells. */
  function DigitsValue(s: string): nat
    requires forall i :: 0 <= i < |s| ==> '0' <= s[i] <= '9'
  {
    if s == [] then 0 else DigitsValue(s[..|s| - 1]) * 10 + (s[|s| - 1] as int - '0' as int)
  }

  /** Decimal digits of a natural number, as JavaScript renders it in a template string:
      digits only, spelling `n`, with no leading zero. */
  function NatToString(n: nat): (r: string)
    ensures |r| > 0
    ensures forall i :: 0 <= i < |r| ==> '0' <= r[i] <= '9'
    ensures DigitsValue(r) == n
    ensures |r| > 1 ==> r[0] != '0'
    decreases n
  {
    if n < 10 then [('0' as int + n) as char]
    else
      var front := NatToString(n / 10);
      var r := front + [('0' as int + n % 10) as char];
      assert r[..|r| - 1] == front;
      r
  }

  /** `s.startsWith(p)` */
  predicate StartsWith(s: string, p: string)
  {
    |p| <= |s| && s[..|p|] == p
  }

  /** `s.endsWith(p)` */
  predicate EndsWith(s: string, p: string)
  {
    |p| <= |s| && s[|s| - |p|..] == p
  }
}
