/** JavaScript runtime semantics that the form validator relies on: the
    character classes of ECMAScript regular expressions (non-Unicode mode),
    `String.prototype.trim`, `String.prototype.length` (UTF-16 code units),
    truthiness of request values, and normal/abrupt completion of a call.

    Strings are sequences of Unicode scalar values; `Utf16Length` recovers the
    code-unit length JavaScript reports.
 */
module Js {

  datatype Option<+T> = None | Some(value: T)

  /** The outcome of evaluating a JavaScript call: it returns a value or it
      throws (an awaited promise that rejects is the same thing). */
  datatype Completion<+T> = Normal(value: T) | Throw(message: string)

  /** A value received from a client: a string, or any other JSON value, of
      which only its truthiness matters to the code modelled here. */
  datatype Value = Str(s: string) | NonString(truthy: bool)

  /** A request body after `request.json()`: malformed JSON makes that call
      throw; otherwise it is an object (a property map) or some other JSON
      value (null, an array, a number, ...). */
  datatype Body = Malformed | NotAnObject | Object(props: map<string, Value>)

  // ---------------------------------------------------------------------
  // Character classes
  // ---------------------------------------------------------------------

  /** ECMAScript LineTerminator: the characters `.` does not match. */
  predicate IsLineTerminator(c: char) {
    c == '\n' || c == '\r' || c == '\U{2028}' || c == '\U{2029}'
  }

  /** ECMAScript WhiteSpace or LineTerminator: the class `\s`, and what
      `trim` removes from both ends. */
  predicate IsWhitespace(c: char) {
    || c == '\t' || c == '\U{000B}' || c == '\U{000C}' || c == ' '
    || c == '\U{00A0}' || c == '\U{1680}' || ('\U{2000}' <= c <= '\U{200A}')
    || c == '\U{202F}' || c == '\U{205F}' || c == '\U{3000}' || c == '\U{FEFF}'
    || IsLineTerminator(c)
  }

  /** The class `\w` (also under the `i` flag without `u`). */
  predicate IsWordChar(c: char) {
    ('a' <= c <= 'z') || ('A' <= c <= 'Z') || ('0' <= c <= '9') || c == '_'
  }

  /** The class `[a-f0-9]` under the `i` flag. */
  predicate IsHexChar(c: char) {
    ('a' <= c <= 'f') || ('A' <= c <= 'F') || ('0' <= c <= '9')
  }

  /** Case folding of a regular expression with the `i` flag and without the
      `u` flag (Canonicalize in the ECMAScript standard) maps a character to
      its upper case, except that a character outside ASCII never folds into
      ASCII. Every pattern character in the validator is ASCII, so the only
      folding that can decide a match is between the two cases of an ASCII
      letter (`FoldAsciiMatch`); `Fold` performs exactly that folding and
      leaves other characters as they are. */
  function Fold(c: char): (d: char)
    ensures (c as int < 128) <==> (d as int < 128)
    ensures !('a' <= d <= 'z')
    ensures 'A' <= d <= 'Z' ==> c == d || c as int == d as int + 32
  {
    if 'a' <= c <= 'z' then (c as int - 32) as char else c
  }

  /** For an ASCII pattern character `p`, a text character matches it under
      the `i` flag exactly when it is `p` itself or the other case of the
      ASCII letter `p`; no other character, ASCII or not, can match. */
  lemma FoldAsciiMatch(c: char, p: char)
    requires p as int < 128
    ensures Fold(c) == Fold(p) <==>
            || c == p
            || ('a' <= p <= 'z' && c as int == p as int - 32)
            || ('A' <= p <= 'Z' && c as int == p as int + 32)
  {
  }

  // ---------------------------------------------------------------------
  // Substring matching
  // ---------------------------------------------------------------------

  /** `pat` occurs in `s` at position `i`, ignoring ASCII case. */
  predicate MatchAtIgnoreCase(s: string, i: int, pat: string) {
    0 <= i && i + |pat| <= |s| &&
    forall k :: 0 <= k < |pat| ==> Fold(s[i + k]) == Fold(pat[k])
  }

  predicate ContainsIgnoreCase(s: string, pat: string) {
    exists i | 0 <= i <= |s| :: MatchAtIgnoreCase(s, i, pat)
  }

  /** `pat` occurs in `s` at position `i`, exactly. */
  predicate MatchAt(s: string, i: int, pat: string) {
    0 <= i && i + |pat| <= |s| && s[i..i + |pat|] == pat
  }

  predicate Contains(s: string, pat: string) {
    exists i | 0 <= i <= |s| :: MatchAt(s, i, pat)
  }

  predicate StartsWith(s: string, prefix: string) {
    |prefix| <= |s| && s[..|prefix|] == prefix
  }

  /** Every character of `s[lo..hi]` satisfies the class; the slice bounds
      are part of the statement. */
  predicate WordRun(s: string, lo: int, hi: int) {
    0 <= lo <= hi <= |s| && forall k | lo <= k < hi :: IsWordChar(s[k])
  }

  predicate SpaceRun(s: string, lo: int, hi: int) {
    0 <= lo <= hi <= |s| && forall k | lo <= k < hi :: IsWhitespace(s[k])
  }

  /** `s[lo..hi]` is matched by `.*`: it holds no line terminator. */
  predicate NoLineBreak(s: string, lo: int, hi: int) {
    0 <= lo <= hi <= |s| && forall k | lo <= k < hi :: !IsLineTerminator(s[k])
  }

  predicate HexRun(s: string, lo: int, hi: int) {
    0 <= lo <= hi <= |s| && forall k | lo <= k < hi :: IsHexChar(s[k])
  }

  /** `\b` at position `p`: exactly one of the characters around it is a
      word character (outside the string counts as a non-word character). */
  predicate WordBoundary(s: string, p: int) {
    (0 < p <= |s| && IsWordChar(s[p - 1])) != (0 <= p < |s| && IsWordChar(s[p]))
  }

  // ---------------------------------------------------------------------
  // trim, length, truthiness
  // ---------------------------------------------------------------------

  function TrimStart(s: string): (r: string)
    ensures |r| <= |s| && r == s[|s| - |r|..]
    ensures r == [] || !IsWhitespace(r[0])
    ensures forall k | 0 <= k < |s| - |r| :: IsWhitespace(s[k])
  {
    if |s| > 0 && IsWhitespace(s[0]) then TrimStart(s[1..]) else s
  }

  function TrimEnd(s: string): (r: string)
    ensures |r| <= |s| && r == s[..|r|]
    ensures r == [] || !IsWhitespace(r[|r| - 1])
    ensures forall k | |r| <= k < |s| :: IsWhitespace(s[k])
  {
    if |s| > 0 && IsWhitespace(s[|s| - 1]) then TrimEnd(s[..|s| - 1]) else s
  }

  /** `String.prototype.trim`. */
  function Trim(s: string): string {
    TrimEnd(TrimStart(s))
  }

  /** `trim` leaves nothing exactly when the string is all white space
      (the empty string included). */
  lemma TrimEmptyIff(s: string)
    ensures Trim(s) == "" <==> forall k | 0 <= k < |s| :: IsWhitespace(s[k])
  {
    var t := TrimStart(s);
    if !forall k | 0 <= k < |s| :: IsWhitespace(s[k]) {
      var k :| 0 <= k < |s| && !IsWhitespace(s[k]);
      assert k >= |s| - |t|;
      assert t[k - (|s| - |t|)] == s[k];
      var e := TrimEnd(t);
      assert k - (|s| - |t|) < |e|;
    }
  }

  /** `s.length`: the number of UTF-16 code units. */
  function Utf16Length(s: string): (n: nat)
    ensures |s| <= n <= 2 * |s|
  {
    if s == [] then 0
    else Utf16Length(s[..|s| - 1]) + (if s[|s| - 1] as int >= 0x1_0000 then 2 else 1)
  }

  /** `value || fallback` for an optional string: the empty string is falsy. */
  function OrNull(s: Option<string>): (r: Option<string>)
    ensures r.Some? <==> s.Some? && s.value != ""
    ensures r.Some? ==> r == s
  {
    if s.Some? && s.value != "" then s else None
  }

  /** The client address read from `x-forwarded-for`, `"unknown"` when the
      header is missing or empty. */
  function ClientIp(forwardedFor: Option<string>): (ip: string)
    ensures ip != ""
    ensures forwardedFor.Some? && forwardedFor.value != "" ==> ip == forwardedFor.value
    ensures !(forwardedFor.Some? && forwardedFor.value != "") ==> ip == "unknown"
  {
    if forwardedFor.Some? && forwardedFor.value != "" then forwardedFor.value else "unknown"
  }

  /** Decimal rendering of an integer, as in a template literal. */
  function IntToString(n: int): (r: string)
    ensures |r| > 0
    ensures n < 0 <==> r[0] == '-'
  {
    if n < 0 then "-" + NatToString(-n) else NatToString(n)
  }

  function NatToString(n: nat): (r: string)
    ensures |r| > 0
    ensures forall k | 0 <= k < |r| :: '0' <= r[k] <= '9'
  {
    var d := [(('0' as int) + n % 10) as char];
    if n < 10 then d else NatToString(n / 10) + d
  }
}
