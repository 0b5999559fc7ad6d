/** The few JavaScript value semantics the four handlers depend on: numbers that
    may be NaN, thrown values and their `message`, `String.prototype.trim`,
    `includes` and `slice`. Strings are sequences of Unicode scalar values. */
module Js {

  datatype Option<+T> = None | Some(value: T)

  /** A JavaScript number as far as the handlers observe it: a finite value
      (modelled as a mathematical real, not an IEEE double) or NaN. */
  datatype Num = Finite(value: real) | NaN

  /** `a <= 0`; every comparison with NaN is false. */
  predicate AtMostZero(a: Num) {
    a.Finite? && a.value <= 0.0
  }

  /** `b < a` for a finite `b`; false when `a` is NaN. */
  predicate Below(b: real, a: Num) {
    a.Finite? && b < a.value
  }

  /** `a * k`; NaN stays NaN. */
  function Times(a: Num, k: real): Num {
    match a
    case Finite(v) => Finite(v * k)
    case NaN => NaN
  }

  /** A value caught by `catch (err)`: an `Error` instance, whose `message` is
      always a string, or any other object, whose `message` may be missing. */
  datatype Thrown = ErrorObject(message: string) | OtherValue(maybeMessage: Option<string>)

  /** The outcome of an awaited external call: the value it resolved to, or
      what it threw. */
  datatype Outcome<+T> = Returned(value: T) | Threw(error: Thrown)

  /** `err.message`, or None when the property is undefined. */
  function MessageOf(err: Thrown): Option<string> {
    match err
    case ErrorObject(m) => Some(m)
    case OtherValue(m) => m
  }

  /** `err.message || fallback`: the message when it is a non-empty string,
      otherwise the fallback. */
  function MessageOr(err: Thrown, fallback: string): (text: string)
    ensures text == fallback || Some(text) == MessageOf(err)
    ensures text == fallback <==> MessageOf(err) == None || MessageOf(err) == Some("") || MessageOf(err) == Some(fallback)
    ensures fallback != "" ==> text != ""
  {
    match MessageOf(err)
    case Some(m) => if m != "" then m else fallback
    case None => fallback
  }

  /** The characters `String.prototype.trim` removes: WhiteSpace and
      LineTerminator of ECMA-262 (sections 12.2 and 12.3). */
  predicate IsWhitespace(c: char) {
    || c == '\t' || c == '\n' || c == '\U{000B}' || c == '\U{000C}' || c == '\r'
    || c == ' ' || c == '\U{00A0}' || c == '\U{1680}'
    || ('\U{2000}' <= c <= '\U{200A}')
    || c == '\U{2028}' || c == '\U{2029}' || c == '\U{202F}' || c == '\U{205F}'
    || c == '\U{3000}' || c == '\U{FEFF}'
  }

  /** Reference meaning of `!s.trim()`: every character is whitespace. */
  ghost predicate AllWhitespace(s: string) {
    forall i :: 0 <= i < |s| ==> IsWhitespace(s[i])
  }

  /** `s` without its leading whitespace. */
  function TrimStart(s: string): (r: string)
    ensures |r| <= |s| && r == s[|s| - |r|..]
    ensures r == [] || !IsWhitespace(r[0])
    ensures forall i :: 0 <= i < |s| - |r| ==> IsWhitespace(s[i])
  {
    if |s| > 0 && IsWhitespace(s[0]) then TrimStart(s[1..]) else s
  }

  /** `s` without its trailing whitespace. */
  function TrimEnd(s: string): (r: string)
    ensures |r| <= |s| && r == s[..|r|]
    ensures r == [] || !IsWhitespace(r[|r| - 1])
    ensures forall i :: |r| <= i < |s| ==> IsWhitespace(s[i])
  {
    if |s| > 0 && IsWhitespace(s[|s| - 1]) then TrimEnd(s[..|s| - 1]) else s
  }

  /** `s.trim()`. */
  function Trim(s: string): string {
    TrimEnd(TrimStart(s))
  }

  /** `!s.trim()`: the trimmed string is empty, hence falsy. */
  predicate IsBlank(s: string) {
    Trim(s) == ""
  }

  /** A string trims to the empty string exactly when all of it is whitespace. */
  lemma BlankIffAllWhitespace(s: string)
    ensures IsBlank(s) <==> AllWhitespace(s)
  {
  }

  /** `t` occurs in `s` starting at index `i`. */
  predicate OccursAt(s: string, t: string, i: int) {
    0 <= i <= |s| - |t| && s[i..i + |t|] == t
  }

  /** `s.includes(t)`. */
  predicate Contains(s: string, t: string) {
    exists i :: 0 <= i <= |s| - |t| && OccursAt(s, t, i)
  }

  /** An occurrence in the right operand of a concatenation is an occurrence
      in the whole. */
  lemma ContainsInRight(p: string, m: string, t: string)
    requires Contains(m, t)
    ensures Contains(p + m, t)
  {
    var i :| 0 <= i <= |m| - |t| && OccursAt(m, t, i);
    assert (p + m)[|p| + i..|p| + i + |t|] == m[i..i + |t|];
    assert OccursAt(p + m, t, |p| + i);
  }

  /** `s.slice(0, n)` for `n >= 0`. */
  function SliceHead(s: string, n: nat): (r: string)
    ensures |r| == if |s| < n then |s| else n
    ensures r <= s
  {
    if |s| < n then s else s[..n]
  }

  /** `s.slice(-n)` for `n > 0`. */
  function SliceTail(s: string, n: nat): (r: string)
    requires n > 0
    ensures |r| == if |s| < n then |s| else n
    ensures r == s[|s| - |r|..]
  {
    if |s| < n then s else s[|s| - n..]
  }
}
