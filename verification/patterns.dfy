/** The attack signatures of the validator (the `patterns` table) and the
    character tests of its fallback heuristic, as predicates over strings
    that say when the JavaScript regular expression `test`s true: some
    position of the string starts a match.
 */
module Patterns {
  import opened Js

  // ---------------------------------------------------------------------
  // XSS: /<script>|javascript:|on\w+\s*=|alert\s*\(|document\.cookie/i
  // ---------------------------------------------------------------------

  /** `on\w+\s*=` matches `s[i..k+1]`, the word run ending at `j`. */
  predicate EventHandlerAt(s: string, i: int, j: int, k: int) {
    MatchAtIgnoreCase(s, i, "on") && i + 2 < j && WordRun(s, i + 2, j)
    && SpaceRun(s, j, k) && k < |s| && s[k] == '='
  }

  predicate EventHandler(s: string) {
    exists i, j, k | 0 <= i < j <= k < |s| :: EventHandlerAt(s, i, j, k)
  }

  /** `alert\s*\(` matches `s[i..k+1]`. */
  predicate AlertCallAt(s: string, i: int, k: int) {
    MatchAtIgnoreCase(s, i, "alert") && SpaceRun(s, i + 5, k) && k < |s| && s[k] == '('
  }

  predicate AlertCall(s: string) {
    exists i, k | 0 <= i <= k < |s| :: AlertCallAt(s, i, k)
  }

  predicate Xss(s: string) {
    || ContainsIgnoreCase(s, "<script>")
    || ContainsIgnoreCase(s, "javascript:")
    || EventHandler(s)
    || AlertCall(s)
    || ContainsIgnoreCase(s, "document.cookie")
  }

  // ---------------------------------------------------------------------
  // SQL injection, three alternatives:
  //   \b(SELECT|INSERT|UPDATE|DELETE|DROP|ALTER)\b.*\b(FROM|INTO|TABLE)\b
  //   ('|").*(\s|\+)(\b(OR|AND)\b).*('|")
  //   --.*$
  // with the `i` flag only: `.` stops at line terminators and `$` is the
  // end of the whole input.
  // ---------------------------------------------------------------------

  const SqlVerbs: seq<string> := ["SELECT", "INSERT", "UPDATE", "DELETE", "DROP", "ALTER"]
  const SqlObjects: seq<string> := ["FROM", "INTO", "TABLE"]
  const SqlConnectives: seq<string> := ["OR", "AND"]

  /** `\b(w1|w2|...)\b` matches `s[i..j]`. */
  predicate KeywordAt(s: string, i: int, j: int, words: seq<string>) {
    && WordBoundary(s, i) && WordBoundary(s, j)
    && exists w | w in words :: |w| == j - i && MatchAtIgnoreCase(s, i, w)
  }

  /** First alternative: verb in `s[i..e]`, object keyword in `s[j..f]`. */
  predicate SqlStatementAt(s: string, i: int, e: int, j: int, f: int) {
    && 0 <= i <= e <= j <= f <= |s|
    && KeywordAt(s, i, e, SqlVerbs)
    && NoLineBreak(s, e, j)
    && KeywordAt(s, j, f, SqlObjects)
  }

  predicate SqlStatement(s: string) {
    exists i, e, j, f | 0 <= i <= e <= j <= f <= |s| :: SqlStatementAt(s, i, e, j, f)
  }

  predicate IsQuote(c: char) {
    c == '\'' || c == '"'
  }

  /** Second alternative: opening quote at `a`, separator at `b`, connective
      in `s[b+1..e]`, closing quote at `d`. */
  predicate SqlTautologyAt(s: string, a: int, b: int, e: int, d: int) {
    && 0 <= a < b && b + 1 <= e <= d < |s|
    && IsQuote(s[a])
    && NoLineBreak(s, a + 1, b)
    && (IsWhitespace(s[b]) || s[b] == '+')
    && KeywordAt(s, b + 1, e, SqlConnectives)
    && NoLineBreak(s, e, d)
    && IsQuote(s[d])
  }

  predicate SqlTautology(s: string) {
    exists a, b, e, d | 0 <= a < b < e <= d < |s| :: SqlTautologyAt(s, a, b, e, d)
  }

  /** Third alternative: `--` followed by the rest of the input, which must
      therefore lie on the last line. */
  predicate SqlCommentAt(s: string, i: int) {
    MatchAt(s, i, "--") && NoLineBreak(s, i + 2, |s|)
  }

  predicate SqlComment(s: string) {
    exists i | 0 <= i <= |s| :: SqlCommentAt(s, i)
  }

  predicate SqlInjection(s: string) {
    SqlStatement(s) || SqlTautology(s) || SqlComment(s)
  }

  // ---------------------------------------------------------------------
  // Command injection /;|\||\$\(|`|&/ and path traversal /\.\.\//
  // ---------------------------------------------------------------------

  predicate CommandInjection(s: string) {
    Contains(s, ";") || Contains(s, "|") || Contains(s, "$(") || Contains(s, "`") || Contains(s, "&")
  }

  predicate PathTraversal(s: string) {
    Contains(s, "../")
  }

  predicate AnySignature(s: string) {
    Xss(s) || SqlInjection(s) || CommandInjection(s) || PathTraversal(s)
  }

  // ---------------------------------------------------------------------
  // Fallback heuristic: /[<>{}[\]]/ and /[a-f0-9]{32,}/i
  // ---------------------------------------------------------------------

  predicate IsBracket(c: char) {
    c == '<' || c == '>' || c == '{' || c == '}' || c == '[' || c == ']'
  }

  predicate HasBracket(s: string) {
    exists k | 0 <= k < |s| :: IsBracket(s[k])
  }

  /** `n` hex characters start at `i`. */
  predicate HexRunAt(s: string, i: int, n: nat) {
    HexRun(s, i, i + n)
  }

  predicate HasHexRun(s: string, n: nat) {
    exists i | 0 <= i <= |s| :: HexRunAt(s, i, n)
  }

  /** The fallback's `hasSuspiciousChars || hasLongStrings`. */
  predicate FallbackSuspicious(s: string) {
    HasBracket(s) || (Utf16Length(s) > 100 && HasHexRun(s, 32))
  }

  // ---------------------------------------------------------------------
  // Scanning implementations, proved equal to the match semantics above
  // ---------------------------------------------------------------------

  /** One left-to-right pass that tracks the length of the hex run ending at
      the current position; it finds a run of `n` exactly when one exists. */
  method ScanHexRun(s: string, n: nat) returns (found: bool)
    ensures found <==> HasHexRun(s, n)
  {
    if n == 0 {
      assert HexRunAt(s, 0, 0);
      return true;
    }
    var run := 0;
    var i := 0;
    while i < |s|
      invariant 0 <= i <= |s|
      invariant 0 <= run <= i && run < n
      invariant HexRun(s, i - run, i)
      invariant i - run == 0 || !IsHexChar(s[i - run - 1])
      invariant forall j | 0 <= j && j + n <= i :: !HexRunAt(s, j, n)
    {
      if IsHexChar(s[i]) {
        run := run + 1;
      } else {
        run := 0;
      }
      i := i + 1;
      if run == n {
        assert HexRunAt(s, i - n, n);
        return true;
      }
      forall j | 0 <= j && j + n == i
        ensures !HexRunAt(s, j, n)
      {
        assert j <= i - run - 1 < i;
        assert !IsHexChar(s[i - run - 1]);
      }
    }
    found := false;
  }

  /** The end of the maximal word run starting at `p`. */
  function SkipWord(s: string, p: nat): (q: nat)
    requires p <= |s|
    ensures WordRun(s, p, q)
    ensures q == |s| || !IsWordChar(s[q])
    decreases |s| - p
  {
    if p < |s| && IsWordChar(s[p]) then SkipWord(s, p + 1) else p
  }

  /** The end of the maximal white-space run starting at `p`. */
  function SkipSpace(s: string, p: nat): (q: nat)
    requires p <= |s|
    ensures SpaceRun(s, p, q)
    ensures q == |s| || !IsWhitespace(s[q])
    decreases |s| - p
  {
    if p < |s| && IsWhitespace(s[p]) then SkipSpace(s, p + 1) else p
  }

  /** `on\w+\s*=` matched at `i` with greedy runs and no backtracking. */
  predicate EventHandlerGreedyAt(s: string, i: nat) {
    && MatchAtIgnoreCase(s, i, "on")
    && var j := SkipWord(s, i + 2);
    && j > i + 2
    && var k := SkipSpace(s, j);
    && k < |s| && s[k] == '='
  }

  /** Backtracking into the word or white-space run never helps: a match at
      `i` exists exactly when the greedy one does. */
  lemma EventHandlerGreedy(s: string, i: nat)
    ensures EventHandlerGreedyAt(s, i) <==> exists j, k | i < j <= k < |s| :: EventHandlerAt(s, i, j, k)
  {
    if exists j, k | i < j <= k < |s| :: EventHandlerAt(s, i, j, k) {
      var j, k :| i < j <= k < |s| && EventHandlerAt(s, i, j, k);
      var j' := SkipWord(s, i + 2);
      if j' > j {
        assert IsWordChar(s[j]);
        assert j < k ==> IsWhitespace(s[j]);
      }
      SkipWordMaximal(s, i + 2, j);
      var k' := SkipSpace(s, j);
      if k' > k {
        assert IsWhitespace(s[k]);
      }
      SkipSpaceMaximal(s, j, k);
    } else if EventHandlerGreedyAt(s, i) {
      var j := SkipWord(s, i + 2);
      assert EventHandlerAt(s, i, j, SkipSpace(s, j));
    }
  }

  lemma SkipWordMaximal(s: string, p: nat, q: nat)
    requires WordRun(s, p, q)
    ensures q <= SkipWord(s, p)
    decreases |s| - p
  {
    if p < q {
      SkipWordMaximal(s, p + 1, q);
    }
  }

  lemma SkipSpaceMaximal(s: string, p: nat, q: nat)
    requires SpaceRun(s, p, q)
    ensures q <= SkipSpace(s, p)
    decreases |s| - p
  {
    if p < q {
      SkipSpaceMaximal(s, p + 1, q);
    }
  }
}
