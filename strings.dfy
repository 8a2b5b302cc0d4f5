/**
 * The two .NET string helpers the request validation relies on:
 * `Char.IsWhiteSpace` and `String.IsNullOrWhiteSpace`, with `String.Trim`
 * as an independent description of what "blank" means.
 */
module Strings {
  import opened Wrappers

  /**
   * .NET's `Char.IsWhiteSpace`: the members of the Unicode categories
   * SpaceSeparator, LineSeparator and ParagraphSeparator, together with
   * the control characters U+0009 to U+000D and U+0085.
   */
  predicate IsWhiteSpace(c: char) {
    var n := c as int;
    || n == 0x20
    || 0x09 <= n <= 0x0D
    || n == 0x85
    || n == 0xA0
    || n == 0x1680
    || 0x2000 <= n <= 0x200A
    || n == 0x2028
    || n == 0x2029
    || n == 0x202F
    || n == 0x205F
    || n == 0x3000
  }

  /** `String.IsNullOrWhiteSpace`: null (None), empty, or white space only. */
  predicate IsNullOrWhiteSpace(s: Option<string>) {
    match s
    case None => true
    case Some(t) => forall i :: 0 <= i < |t| ==> IsWhiteSpace(t[i])
  }

  /** `String.TrimStart()`: drops the leading white space and nothing else. */
  function TrimStart(t: string): (r: string)
    ensures |r| <= |t| && r == t[|t| - |r|..]
    ensures forall i :: 0 <= i < |t| - |r| ==> IsWhiteSpace(t[i])
    ensures r != [] ==> !IsWhiteSpace(r[0])
  {
    if t != [] && IsWhiteSpace(t[0]) then TrimStart(t[1..]) else t
  }

  /** `String.TrimEnd()`: drops the trailing white space and nothing else. */
  function TrimEnd(t: string): (r: string)
    ensures |r| <= |t| && r == t[..|r|]
    ensures forall i :: |r| <= i < |t| ==> IsWhiteSpace(t[i])
    ensures r != [] ==> !IsWhiteSpace(r[|r| - 1])
  {
    if t != [] && IsWhiteSpace(t[|t| - 1]) then TrimEnd(t[..|t| - 1]) else t
  }

  /** `String.Trim()`: drops white space at both ends. */
  function Trim(t: string): string {
    TrimEnd(TrimStart(t))
  }

  /**
   * The documented meaning of `IsNullOrWhiteSpace` on a non-null string:
   * it holds exactly when trimming leaves the empty string.
   */
  lemma BlankIffTrimsToEmpty(t: string)
    ensures IsNullOrWhiteSpace(Some(t)) <==> Trim(t) == ""
  {
  }
}
