/** `validateWithAI`: the signature cascade, then the hosted toxicity
    classifier's scores turned into a risk score, and the local heuristic when
    the classifier call fails. The classifier's answer is a parameter.
 */
module Validator {
  import opened Js
  import Patterns

  datatype Category = Safe | Xss | SqlInjection | CommandInjection | PathTraversal | Other | Error
  {
    /** The category string the JavaScript objects carry. */
    function Name(): string {
      match this
      case Safe => "safe"
      case Xss => "xss"
      case SqlInjection => "sql-injection"
      case CommandInjection => "command-injection"
      case PathTraversal => "path-traversal"
      case Other => "other"
      case Error => "error"
    }

    predicate IsSignature() {
      this == Xss || this == SqlInjection || this == CommandInjection || this == PathTraversal
    }
  }

  /** The object `validateWithAI` resolves to. */
  datatype Verdict = Verdict(isSafe: bool, confidence: int, category: Category, explanation: string)

  /** One `{label, score}` entry of the classifier's answer. */
  datatype LabelScore = LabelScore(name: string, score: real)

  /** What the awaited `hf.textClassification` call produced: it threw (network
      error, timeout, unusable response), or it returned a list of scores. */
  datatype OracleReply = OracleFailure | Scores(results: seq<LabelScore>)

  /** A verdict keeps its polarity and its category in step. */
  predicate WellFormed(v: Verdict) {
    v.isSafe <==> v.category == Safe
  }

  // ---------------------------------------------------------------------
  // Signature cascade
  // ---------------------------------------------------------------------

  const XssVerdict := Verdict(false, 95, Xss,
    "Contains patterns commonly used in Cross-Site Scripting (XSS) attacks.")
  const SqlVerdict := Verdict(false, 90, SqlInjection,
    "Contains SQL syntax that could be used for SQL Injection attacks.")
  const CommandVerdict := Verdict(false, 85, CommandInjection,
    "Contains characters commonly used for Command Injection attacks.")
  const TraversalVerdict := Verdict(false, 80, PathTraversal,
    "Contains directory traversal patterns that could be used to access unauthorized files.")

  /** The `if / else if` chain over the four signatures, first match wins. */
  function MatchSignature(input: string): (r: Option<Verdict>)
    ensures r.None? <==> !Patterns.AnySignature(input)
    ensures r.Some? ==> !r.value.isSafe && r.value.category.IsSignature()
  {
    if Patterns.Xss(input) then Some(XssVerdict)
    else if Patterns.SqlInjection(input) then Some(SqlVerdict)
    else if Patterns.CommandInjection(input) then Some(CommandVerdict)
    else if Patterns.PathTraversal(input) then Some(TraversalVerdict)
    else None
  }

  // ---------------------------------------------------------------------
  // Classifier scoring
  // ---------------------------------------------------------------------

  const RiskThreshold := 30

  /** `results.find((r) => r.label === label)`, as an index. */
  function FindLabel(results: seq<LabelScore>, lbl: string): (r: Option<nat>)
    ensures r.Some? ==> r.value < |results| && results[r.value].name == lbl
    ensures r.Some? ==> forall m | 0 <= m < r.value :: results[m].name != lbl
    ensures r.None? ==> forall m | 0 <= m < |results| :: results[m].name != lbl
  {
    if |results| == 0 then None
    else if results[0].name == lbl then Some(0)
    else match FindLabel(results[1..], lbl)
      case None => None
      case Some(k) => Some(k + 1)
  }

  /** `find(...)?.score || 0`: the first entry's score, 0 when the label is absent. */
  function LabelScoreOf(results: seq<LabelScore>, lbl: string): real {
    match FindLabel(results, lbl)
    case None => 0.0
    case Some(k) => results[k].score
  }

  function ScoreSum(results: seq<LabelScore>): real {
    LabelScoreOf(results, "toxic") + LabelScoreOf(results, "threat") + LabelScoreOf(results, "insult")
  }

  /** `Math.round`: the nearest integer, halves rounded up. */
  function Round(x: real): (r: int)
    ensures x - 0.5 < r as real <= x + 0.5
  {
    (x + 0.5).Floor
  }

  function RiskScore(results: seq<LabelScore>): int {
    Round(ScoreSum(results) * 100.0)
  }

  function OracleVerdict(results: seq<LabelScore>): (v: Verdict)
    ensures WellFormed(v)
    ensures v.category == Safe || v.category == Other
  {
    var risk := RiskScore(results);
    var isSafe := risk < RiskThreshold;
    Verdict(
      isSafe,
      if isSafe then 100 - risk else risk,
      if isSafe then Safe else Other,
      if isSafe then "AI analysis indicates this input is likely safe."
      else "AI detected potentially harmful content with " + IntToString(risk) + "% confidence.")
  }

  // ---------------------------------------------------------------------
  // Fallback heuristic
  // ---------------------------------------------------------------------

  const FallbackUnsafe := Verdict(false, 60, Other,
    "Input contains suspicious patterns. AI validation failed, using fallback detection.")
  const FallbackSafe := Verdict(true, 70, Safe,
    "Input appears safe. Note: AI validation failed, using fallback detection.")

  function FallbackVerdict(input: string): (v: Verdict)
    ensures WellFormed(v)
  {
    if Patterns.FallbackSuspicious(input) then FallbackUnsafe else FallbackSafe
  }

  // ---------------------------------------------------------------------
  // validateWithAI
  // ---------------------------------------------------------------------

  /** Never throws: every path ends in a verdict. */
  function ValidateWithAI(input: string, reply: OracleReply): (v: Verdict)
    ensures WellFormed(v) && v.category != Error
    ensures Patterns.Xss(input) ==> v == XssVerdict
    ensures !Patterns.Xss(input) && Patterns.SqlInjection(input) ==> v == SqlVerdict
    ensures (!Patterns.Xss(input) && !Patterns.SqlInjection(input) && Patterns.CommandInjection(input))
              ==> v == CommandVerdict
    ensures (!Patterns.Xss(input) && !Patterns.SqlInjection(input) && !Patterns.CommandInjection(input)
             && Patterns.PathTraversal(input)) ==> v == TraversalVerdict
    ensures v.category.IsSignature() <==> Patterns.AnySignature(input)
    ensures v.isSafe ==> !Patterns.AnySignature(input)
  {
    match MatchSignature(input)
    case Some(s) => s
    case None =>
      match reply
      case OracleFailure => FallbackVerdict(input)
      case Scores(results) => OracleVerdict(results)
  }

  // ---------------------------------------------------------------------
  // Properties
  // ---------------------------------------------------------------------

  /** Each attack category is reported exactly when its signature is the
      first in priority order to match. */
  lemma SignaturePriority(input: string, reply: OracleReply)
    ensures (ValidateWithAI(input, reply).category == Xss) <==> Patterns.Xss(input)
    ensures (ValidateWithAI(input, reply).category == SqlInjection) <==>
            (!Patterns.Xss(input) && Patterns.SqlInjection(input))
    ensures (ValidateWithAI(input, reply).category == CommandInjection) <==>
            (!Patterns.Xss(input) && !Patterns.SqlInjection(input) && Patterns.CommandInjection(input))
    ensures (ValidateWithAI(input, reply).category == PathTraversal) <==>
            (!Patterns.Xss(input) && !Patterns.SqlInjection(input) && !Patterns.CommandInjection(input)
             && Patterns.PathTraversal(input))
  {
  }

  /** Once a signature matches, the classifier's answer (or failure) has no
      influence on the verdict. */
  lemma OracleIgnoredOnSignature(input: string, r1: OracleReply, r2: OracleReply)
    requires Patterns.AnySignature(input)
    ensures ValidateWithAI(input, r1) == ValidateWithAI(input, r2)
    ensures ValidateWithAI(input, r1).confidence >= 80
  {
  }

  /** Without a signature match, the classifier's scores decide: the risk is
      the rounded percentage of toxic + threat + insult (first entry of each
      label, 0 when absent), safe exactly below 30. */
  lemma OracleScoring(input: string, results: seq<LabelScore>)
    requires !Patterns.AnySignature(input)
    ensures var v := ValidateWithAI(input, Scores(results));
            var risk := Round(100.0 * (LabelScoreOf(results, "toxic") + LabelScoreOf(results, "threat")
                                       + LabelScoreOf(results, "insult")));
            && (v.isSafe <==> risk < RiskThreshold)
            && v.confidence == (if risk < RiskThreshold then 100 - risk else risk)
            && v.category == (if risk < RiskThreshold then Safe else Other)
  {
  }

  /** For non-negative scores a safe verdict has confidence 71..100 and an
      unsafe one at least 30; the unsafe confidence stays within 100 only
      while the three scores sum below 1.005, since nothing clamps it. */
  lemma OracleConfidenceBounds(results: seq<LabelScore>)
    requires ScoreSum(results) >= 0.0
    ensures var v := OracleVerdict(results);
            && (v.isSafe ==> 71 <= v.confidence <= 100)
            && (!v.isSafe ==> v.confidence >= RiskThreshold)
            && (!v.isSafe ==> (v.confidence <= 100 <==> ScoreSum(results) < 1.005))
  {
    var x := ScoreSum(results) * 100.0;
    var r := Round(x);
    assert r >= 0;
    if x < 100.5 {
      assert r <= 100;
    } else {
      assert r >= 101;
    }
  }

  /** With scores in [0, 1] (what the classifier is expected to return) the
      risk lies in 0..300. */
  lemma RiskScoreRange(results: seq<LabelScore>)
    requires forall k | 0 <= k < |results| :: 0.0 <= results[k].score <= 1.0
    ensures 0 <= RiskScore(results) <= 300
  {
    LabelScoreRange(results, "toxic");
    LabelScoreRange(results, "threat");
    LabelScoreRange(results, "insult");
  }

  lemma LabelScoreRange(results: seq<LabelScore>, lbl: string)
    requires forall k | 0 <= k < |results| :: 0.0 <= results[k].score <= 1.0
    ensures 0.0 <= LabelScoreOf(results, lbl) <= 1.0
  {
  }

  /** Scores 0.1 each give risk 30: unsafe with confidence 30. */
  lemma RiskThirtyIsUnsafe()
    ensures var v := OracleVerdict([LabelScore("toxic", 0.1), LabelScore("threat", 0.1), LabelScore("insult", 0.1)]);
            !v.isSafe && v.confidence == 30 && v.category == Other
  {
    var rs := [LabelScore("toxic", 0.1), LabelScore("threat", 0.1), LabelScore("insult", 0.1)];
    assert FindLabel(rs, "toxic") == Some(0);
    assert FindLabel(rs, "threat") == Some(1);
    assert FindLabel(rs, "insult") == Some(2);
    assert ScoreSum(rs) == 0.3;
    assert Round(30.0) == 30;
  }

  /** Scores 0.5, 0.5 and 0.3 give a confidence of 130. */
  lemma ConfidenceAboveHundred()
    ensures OracleVerdict([LabelScore("toxic", 0.5), LabelScore("threat", 0.5), LabelScore("insult", 0.3)])
              .confidence == 130
  {
    var rs := [LabelScore("toxic", 0.5), LabelScore("threat", 0.5), LabelScore("insult", 0.3)];
    assert FindLabel(rs, "toxic") == Some(0);
    assert FindLabel(rs, "threat") == Some(1);
    assert FindLabel(rs, "insult") == Some(2);
  }

  /** A later duplicate label is ignored, and a missing label counts 0. */
  lemma FirstEntryPerLabel()
    ensures ScoreSum([LabelScore("toxic", 0.2), LabelScore("toxic", 0.9), LabelScore("threat", 0.1)]) == 0.3
  {
    var rs := [LabelScore("toxic", 0.2), LabelScore("toxic", 0.9), LabelScore("threat", 0.1)];
    assert FindLabel(rs, "toxic") == Some(0);
    assert FindLabel(rs, "threat") == Some(2);
    assert FindLabel(rs, "insult") == None;
  }

  /** When the classifier call fails and no signature matched, the verdict is
      one of the two fixed fallback verdicts, unsafe exactly when the text has
      a bracket or is longer than 100 code units with a 32-character hex run. */
  lemma FallbackOnOracleFailure(input: string)
    requires !Patterns.AnySignature(input)
    ensures var v := ValidateWithAI(input, OracleFailure);
            && (v == FallbackUnsafe || v == FallbackSafe)
            && (!v.isSafe <==> (Patterns.HasBracket(input)
                                || (Utf16Length(input) > 100 && Patterns.HasHexRun(input, 32))))
  {
  }
}
