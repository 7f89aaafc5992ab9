/** Worked inputs for the signature cascade, the fallback heuristic and the
    field aggregation, each proved about the model.
 */
module Examples {
  import opened Js
  import Patterns
  import opened Validator
  import opened Analyzer

  /** A pattern with a character that the text never holds (after case
      folding) matches nowhere. */
  lemma AbsentCharNoMatch(s: string, pat: string, p: nat)
    requires p < |pat|
    requires forall k | 0 <= k < |s| :: Fold(s[k]) != Fold(pat[p])
    ensures !ContainsIgnoreCase(s, pat)
  {
    forall i | 0 <= i <= |s|
      ensures !MatchAtIgnoreCase(s, i, pat)
    {
      if i + |pat| <= |s| {
        assert Fold(s[i + p]) != Fold(pat[p]);
      }
    }
  }

  predicate DigitsAndSpaces(s: string) {
    forall k | 0 <= k < |s| :: s[k] == ' ' || '0' <= s[k] <= '9'
  }

  lemma DigitsAndSpacesNoXss(s: string)
    requires DigitsAndSpaces(s)
    ensures !Patterns.Xss(s)
  {
    AbsentCharNoMatch(s, "<script>", 0);
    AbsentCharNoMatch(s, "javascript:", 0);
    AbsentCharNoMatch(s, "document.cookie", 0);
    forall i, j, k | 0 <= i < j <= k < |s|
      ensures !Patterns.EventHandlerAt(s, i, j, k)
    {
      assert Fold(s[i]) != Fold('o');
    }
    forall i, k | 0 <= i <= k < |s|
      ensures !Patterns.AlertCallAt(s, i, k)
    {
      assert Fold(s[i]) != Fold('a');
    }
  }

  lemma DigitsAndSpacesNoKeyword(s: string, i: int, j: int, words: seq<string>)
    requires DigitsAndSpaces(s)
    requires forall w | w in words :: |w| > 0 && 'A' <= w[0] <= 'Z'
    ensures !Patterns.KeywordAt(s, i, j, words)
  {
    forall w | w in words
      ensures !MatchAtIgnoreCase(s, i, w)
    {
      if 0 <= i && i + |w| <= |s| {
        assert Fold(s[i + 0]) != Fold(w[0]);
      }
    }
  }

  lemma DigitsAndSpacesNoSql(s: string)
    requires DigitsAndSpaces(s)
    ensures !Patterns.SqlInjection(s)
  {
    forall i, e, j, f | 0 <= i <= e <= j <= f <= |s|
      ensures !Patterns.SqlStatementAt(s, i, e, j, f)
    {
      DigitsAndSpacesNoKeyword(s, i, e, Patterns.SqlVerbs);
    }
    forall a, b, e, d | 0 <= a < b < e <= d < |s|
      ensures !Patterns.SqlTautologyAt(s, a, b, e, d)
    {
      assert !Patterns.IsQuote(s[a]);
    }
    forall i | 0 <= i <= |s|
      ensures !Patterns.SqlCommentAt(s, i)
    {
      if i + 2 <= |s| {
        assert s[i..i + 2][0] == s[i];
      }
    }
  }

  lemma DigitsAndSpacesNoShellOrTraversal(s: string)
    requires DigitsAndSpaces(s)
    ensures !Patterns.CommandInjection(s) && !Patterns.PathTraversal(s)
  {
    forall i, pat | 0 <= i <= |s| && pat in [";", "|", "$(", "`", "&", "../"]
      ensures !MatchAt(s, i, pat)
    {
      if i + |pat| <= |s| {
        assert s[i..i + |pat|][0] == s[i];
      }
    }
  }

  /** Text made only of digits and spaces matches no signature. */
  lemma DigitsAndSpacesMatchNoSignature(s: string)
    requires DigitsAndSpaces(s)
    ensures !Patterns.AnySignature(s)
  {
    DigitsAndSpacesNoXss(s);
    DigitsAndSpacesNoSql(s);
    DigitsAndSpacesNoShellOrTraversal(s);
  }

  /** Any capitalisation of `<script>` is XSS, whatever else the text holds
      and whatever the classifier says. */
  lemma ScriptTagIsXss(s: string, i: nat, reply: OracleReply)
    requires MatchAtIgnoreCase(s, i, "<ScRiPt>")
    ensures ValidateWithAI(s, reply) == Verdict(false, 95, Xss,
              "Contains patterns commonly used in Cross-Site Scripting (XSS) attacks.")
  {
    assert forall k | 0 <= k < 8 :: Fold("<ScRiPt>"[k]) == Fold("<script>"[k]);
    assert MatchAtIgnoreCase(s, i, "<script>");
  }

  /** An inline handler with spaces before `=`. */
  lemma InlineHandlerIsXss()
    ensures Patterns.Xss("<img onerror  = x>")
  {
    var s := "<img onerror  = x>";
    assert Patterns.EventHandlerAt(s, 5, 12, 14);
  }

  /** A keyword alternative matches when one listed word matches between two
      word boundaries. */
  lemma KeywordWitness(s: string, i: int, j: int, words: seq<string>, n: nat)
    requires n < |words| && |words[n]| == j - i && MatchAtIgnoreCase(s, i, words[n])
    requires WordBoundary(s, i) && WordBoundary(s, j)
    ensures Patterns.KeywordAt(s, i, j, words)
  {
  }

  /** `DROP TABLE x FROM y`: the first SQL alternative. */
  lemma DropTableIsSql()
    ensures Patterns.SqlStatement("DROP TABLE x FROM y")
  {
    var s := "DROP TABLE x FROM y";
    DropIsVerb(s);
    TableIsObject(s);
    assert NoLineBreak(s, 4, 5);
    StatementWitness(s, 0, 4, 5, 10);
  }

  lemma StatementWitness(s: string, i: int, e: int, j: int, f: int)
    requires Patterns.SqlStatementAt(s, i, e, j, f)
    ensures Patterns.SqlStatement(s)
  {
  }

  lemma DropIsVerb(s: string)
    requires s == "DROP TABLE x FROM y"
    ensures Patterns.KeywordAt(s, 0, 4, Patterns.SqlVerbs)
  {
    assert MatchAtIgnoreCase(s, 0, Patterns.SqlVerbs[4]);
    KeywordWitness(s, 0, 4, Patterns.SqlVerbs, 4);
  }

  lemma TableIsObject(s: string)
    requires s == "DROP TABLE x FROM y"
    ensures Patterns.KeywordAt(s, 5, 10, Patterns.SqlObjects)
  {
    assert MatchAtIgnoreCase(s, 5, Patterns.SqlObjects[2]);
    KeywordWitness(s, 5, 10, Patterns.SqlObjects, 2);
  }

  /** `' OR '1'='1`: the quoted tautology alternative. */
  lemma QuotedOrIsSql()
    ensures Patterns.SqlTautology("' OR '1'='1")
  {
    var s := "' OR '1'='1";
    assert "OR" in Patterns.SqlConnectives && MatchAtIgnoreCase(s, 2, "OR");
    assert Patterns.SqlTautologyAt(s, 0, 1, 4, 5);
  }

  /** `--` counts only when no line break follows it. */
  lemma CommentMustBeOnLastLine()
    ensures Patterns.SqlComment("name -- x")
    ensures !Patterns.SqlComment("a --\nb")
  {
    assert Patterns.SqlCommentAt("name -- x", 5);
    var s := "a --\nb";
    forall i | 0 <= i <= |s|
      ensures !Patterns.SqlCommentAt(s, i)
    {
      if i + 2 <= |s| && s[i..i + 2] == "--" {
        assert s[i] == '-' && s[i + 1] == '-';
        assert i == 2;
        assert s[4] == '\n';
      }
    }
  }

  /** A payload matching XSS, SQL and command injection is reported as XSS. */
  lemma XssOutranksOthers(reply: OracleReply)
    ensures Patterns.SqlInjection("<script>; DROP TABLE t --")
    ensures Patterns.CommandInjection("<script>; DROP TABLE t --")
    ensures ValidateWithAI("<script>; DROP TABLE t --", reply).category == Xss
  {
    var s := "<script>; DROP TABLE t --";
    assert Patterns.SqlCommentAt(s, 23);
    assert MatchAt(s, 8, ";");
    assert MatchAtIgnoreCase(s, 0, "<script>");
  }

  /** 150 characters with a 40-character hex run, classifier down: the
      fallback flags it. */
  lemma LongHexRunFlagged()
    ensures var s := seq(110, _ => ' ') + seq(40, _ => '7');
            ValidateWithAI(s, OracleFailure) == Verdict(false, 60, Other,
              "Input contains suspicious patterns. AI validation failed, using fallback detection.")
  {
    var s := seq(110, _ => ' ') + seq(40, _ => '7');
    DigitsAndSpacesMatchNoSignature(s);
    assert Patterns.HexRunAt(s, 110, 32);
    assert Utf16Length(s) >= |s|;
  }

  /** Short plain text, classifier down: the fallback lets it through. */
  lemma ShortPlainTextPasses()
    ensures ValidateWithAI("12345", OracleFailure) == Verdict(true, 70, Safe,
              "Input appears safe. Note: AI validation failed, using fallback detection.")
  {
    DigitsAndSpacesMatchNoSignature("12345");
    assert !Patterns.HasBracket("12345");
    assert Utf16Length("12345") <= 10;
  }

  /** `{a: "<script>", b: "DROP TABLE x FROM y"}`: the first unsafe field
      wins, reported with its own confidence. */
  lemma FirstUnsafeFieldReported(oracle: string -> OracleReply)
    ensures AnalyzeFormSubmission([("a", Str("<script>")), ("b", Str("DROP TABLE x FROM y"))], oracle)
            == Normal(Report(false, 95, Some("a"), XssVerdict.explanation + " Found in " + "a" + ".", Xss))
  {
    var rec := [("a", Str("<script>")), ("b", Str("DROP TABLE x FROM y"))];
    ScriptFieldIsXss(oracle);
    assert AnalyzeField(rec[1], oracle).Normal?;
    var r := AnalyzeFields(rec, oracle);
    assert r.Normal? && r.value[0] == FieldResult("a", XssVerdict);
    FirstUnsafeFieldWins(r.value, 0);
  }

  lemma ScriptFieldIsXss(oracle: string -> OracleReply)
    ensures AnalyzeField(("a", Str("<script>")), oracle) == Normal(FieldResult("a", XssVerdict))
  {
    var t := "<script>";
    ScriptIsXss(t);
    ScriptNotBlank(t);
    assert ValidateWithAI(t, oracle(t)) == XssVerdict;
  }

  lemma ScriptIsXss(t: string)
    requires t == "<script>"
    ensures Patterns.Xss(t)
  {
    assert MatchAtIgnoreCase(t, 0, "<script>");
  }

  lemma ScriptNotBlank(t: string)
    requires t == "<script>"
    ensures !IsBlank(Str(t))
  {
    TrimEmptyIff(t);
    assert !IsWhitespace(t[0]);
  }

  /** All safe, confidences 90 and 70: the 70 field is reported; on a tie the
      earlier field is. */
  lemma LowestSafeFieldReported()
    ensures Reduce([FieldResult("a", Verdict(true, 90, Safe, "x")), FieldResult("b", Verdict(true, 70, Safe, "y"))])
            == Normal(Report(true, 70, Some("b"), "y", Safe))
    ensures Reduce([FieldResult("a", Verdict(true, 70, Safe, "x")), FieldResult("b", Verdict(true, 70, Safe, "y"))])
            == Normal(Report(true, 70, Some("a"), "x", Safe))
  {
    var r1 := [FieldResult("a", Verdict(true, 90, Safe, "x")), FieldResult("b", Verdict(true, 70, Safe, "y"))];
    AllSafeReportsLowest(r1);
    var i1 :| 0 <= i1 < 2 && IsFirstLowest(r1, i1) && Reduce(r1).value.field == Some(r1[i1].field)
              && Reduce(r1).value.message == r1[i1].result.explanation
              && Reduce(r1).value.confidence == r1[i1].result.confidence;
    FirstLowestUnique(r1, i1, 1);
    var r2 := [FieldResult("a", Verdict(true, 70, Safe, "x")), FieldResult("b", Verdict(true, 70, Safe, "y"))];
    AllSafeReportsLowest(r2);
    var i2 :| 0 <= i2 < 2 && IsFirstLowest(r2, i2) && Reduce(r2).value.field == Some(r2[i2].field)
              && Reduce(r2).value.message == r2[i2].result.explanation
              && Reduce(r2).value.confidence == r2[i2].result.confidence;
    FirstLowestUnique(r2, i2, 0);
  }
}
