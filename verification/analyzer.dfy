/** `analyzeFormSubmission`: classify every field of a record (blank fields
    short-circuit to safe), then reduce the per-field verdicts to one report:
    the first unsafe field in record order, or else the safe field with the
    lowest confidence, ties going to the earlier field.
 */
module Analyzer {
  import opened Js
  import opened Validator

  /** A `Record<string, string>` as its `Object.entries`, in enumeration order. */
  type Record = seq<(string, Value)>

  datatype FieldResult = FieldResult(field: string, result: Verdict)

  /** The object `analyzeFormSubmission` resolves to; `scanInput` returns the
      same shape, with `field` null on its error path. */
  datatype Report = Report(isSafe: bool, confidence: int, field: Option<string>, message: string, category: Category)

  const EmptyVerdict := Verdict(true, 100, Safe, "Empty input is considered safe.")

  /** `!value || value.trim() === ""`. */
  predicate IsBlank(v: Value) {
    match v
    case Str(s) => s == "" || Trim(s) == ""
    case NonString(truthy) => !truthy
  }

  /** The per-field task: a blank value is safe without classification; a
      string is classified; any other truthy value has no `trim` and throws. */
  function AnalyzeField(entry: (string, Value), oracle: string -> OracleReply): (r: Completion<FieldResult>)
    ensures r.Throw? <==> entry.1.NonString? && entry.1.truthy
    ensures r.Normal? ==> r.value.field == entry.0 && WellFormed(r.value.result)
    ensures r.Normal? ==> r.value.result.category != Error
  {
    if IsBlank(entry.1) then Normal(FieldResult(entry.0, EmptyVerdict))
    else match entry.1
      case Str(s) => Normal(FieldResult(entry.0, ValidateWithAI(s, oracle(s))))
      case NonString(_) => Throw("value.trim is not a function")
  }

  /** `Promise.all` over the per-field tasks: every result, in record order,
      or a rejection as soon as one task rejects. */
  function AnalyzeFields(rec: Record, oracle: string -> OracleReply): (r: Completion<seq<FieldResult>>)
    ensures r.Throw? <==> exists k | 0 <= k < |rec| :: AnalyzeField(rec[k], oracle).Throw?
    ensures r.Normal? ==> |r.value| == |rec|
    ensures r.Normal? ==> forall k | 0 <= k < |rec| :: AnalyzeField(rec[k], oracle) == Normal(r.value[k])
  {
    if rec == [] then Normal([])
    else match AnalyzeField(rec[0], oracle)
      case Throw(m) => Throw(m)
      case Normal(head) =>
        match AnalyzeFields(rec[1..], oracle)
        case Throw(m) =>
          assert forall k | 1 <= k < |rec| :: rec[1..][k - 1] == rec[k];
          Throw(m)
        case Normal(rest) => Normal([head] + rest)
  }

  // ---------------------------------------------------------------------
  // Reduction
  // ---------------------------------------------------------------------

  /** `results.find((r) => !r.result.isSafe)`, as an index. */
  function FirstUnsafe(results: seq<FieldResult>): (r: Option<nat>)
    ensures r.Some? ==> r.value < |results| && !results[r.value].result.isSafe
    ensures r.Some? ==> forall m | 0 <= m < r.value :: results[m].result.isSafe
    ensures r.None? ==> forall m | 0 <= m < |results| :: results[m].result.isSafe
  {
    if |results| == 0 then None
    else if !results[0].result.isSafe then Some(0)
    else match FirstUnsafe(results[1..])
      case None => None
      case Some(k) => Some(k + 1)
  }

  function Confidence(fr: FieldResult): int {
    fr.result.confidence
  }

  predicate SortedByConfidence(s: seq<FieldResult>) {
    forall i, j | 0 <= i < j < |s| :: Confidence(s[i]) <= Confidence(s[j])
  }

  /** Puts `x` before the first element whose confidence is not below its own. */
  function Insert(x: FieldResult, s: seq<FieldResult>): (r: seq<FieldResult>)
    ensures |r| == |s| + 1
    ensures multiset(r) == multiset(s) + multiset{x}
    ensures r[0] == x || (|s| > 0 && r[0] == s[0])
  {
    if s == [] || Confidence(x) <= Confidence(s[0]) then [x] + s
    else
      assert s == [s[0]] + s[1..];
      [s[0]] + Insert(x, s[1..])
  }

  lemma {:induction false} InsertSorted(x: FieldResult, s: seq<FieldResult>)
    requires SortedByConfidence(s)
    ensures SortedByConfidence(Insert(x, s))
  {
    if s != [] && Confidence(x) > Confidence(s[0]) {
      InsertSorted(x, s[1..]);
      var r := Insert(x, s);
      assert r == [s[0]] + Insert(x, s[1..]);
      forall j | 0 < j < |r|
        ensures Confidence(r[0]) <= Confidence(r[j])
      {
        assert r[j] in multiset(Insert(x, s[1..]));
        assert r[j] in multiset(s[1..]) + multiset{x};
      }
    }
  }

  /** The first position of `s` whose confidence is not below that of `x`,
      or `|s|` when there is none. */
  function FirstNotLower(x: FieldResult, s: seq<FieldResult>): (p: nat)
    ensures p <= |s|
    ensures forall m | 0 <= m < p :: Confidence(s[m]) < Confidence(x)
    ensures p < |s| ==> Confidence(x) <= Confidence(s[p])
  {
    if s == [] || Confidence(x) <= Confidence(s[0]) then 0 else 1 + FirstNotLower(x, s[1..])
  }

  /** Where `Insert` puts `x`: the elements of lower confidence keep their
      places before it, and every later element, equal confidences included,
      moves up by one behind it. This placement is what makes the sort
      stable. */
  lemma InsertPlacement(x: FieldResult, s: seq<FieldResult>)
    ensures var r := Insert(x, s);
            var p := FirstNotLower(x, s);
            && (forall m | 0 <= m < p :: r[m] == s[m])
            && r[p] == x
            && (forall m | p <= m < |s| :: r[m + 1] == s[m])
  {
    InsertKeepsLower(x, s);
    InsertPutsAt(x, s);
    InsertShiftsRest(x, s);
  }

  lemma {:induction false} InsertKeepsLower(x: FieldResult, s: seq<FieldResult>)
    ensures forall m | 0 <= m < FirstNotLower(x, s) :: Insert(x, s)[m] == s[m]
  {
    if s != [] && Confidence(x) > Confidence(s[0]) {
      InsertKeepsLower(x, s[1..]);
      var r, r' := Insert(x, s), Insert(x, s[1..]);
      assert r == [s[0]] + r';
      forall m | 1 <= m < FirstNotLower(x, s)
        ensures r[m] == s[m]
      {
        assert r[m] == r'[m - 1] && s[1..][m - 1] == s[m];
      }
    }
  }

  lemma {:induction false} InsertPutsAt(x: FieldResult, s: seq<FieldResult>)
    ensures Insert(x, s)[FirstNotLower(x, s)] == x
  {
    if s != [] && Confidence(x) > Confidence(s[0]) {
      InsertPutsAt(x, s[1..]);
      assert Insert(x, s) == [s[0]] + Insert(x, s[1..]);
    }
  }

  lemma {:induction false} InsertShiftsRest(x: FieldResult, s: seq<FieldResult>)
    ensures forall m | FirstNotLower(x, s) <= m < |s| :: Insert(x, s)[m + 1] == s[m]
  {
    if s != [] && Confidence(x) > Confidence(s[0]) {
      InsertShiftsRest(x, s[1..]);
      var r, r' := Insert(x, s), Insert(x, s[1..]);
      assert r == [s[0]] + r';
      forall m | FirstNotLower(x, s) <= m < |s|
        ensures r[m + 1] == s[m]
      {
        assert r[m + 1] == r'[m] && s[1..][m - 1] == s[m];
      }
    } else {
      assert Insert(x, s) == [x] + s;
    }
  }

  /** `results.sort((a, b) => a.result.confidence - b.result.confidence)`: a
      stable sort, here by insertion from the back, so an element precedes the
      later elements of equal confidence. */
  function SortByConfidence(results: seq<FieldResult>): (r: seq<FieldResult>)
    ensures |r| == |results|
    ensures multiset(r) == multiset(results)
    ensures SortedByConfidence(r)
  {
    if results == [] then []
    else
      assert results == [results[0]] + results[1..];
      InsertSorted(results[0], SortByConfidence(results[1..]));
      Insert(results[0], SortByConfidence(results[1..]))
  }

  /** `i` is the earliest position holding the lowest confidence. */
  predicate IsFirstLowest(results: seq<FieldResult>, i: int) {
    && 0 <= i < |results|
    && (forall m | 0 <= m < |results| :: Confidence(results[i]) <= Confidence(results[m]))
    && (forall m | 0 <= m < i :: Confidence(results[i]) < Confidence(results[m]))
  }

  function FirstLowest(results: seq<FieldResult>): (i: nat)
    requires |results| > 0
    ensures IsFirstLowest(results, i)
  {
    if |results| == 1 then 0
    else
      var k := FirstLowest(results[1..]);
      if Confidence(results[0]) <= Confidence(results[1 + k]) then 0 else 1 + k
  }

  /** After the stable sort, `results[0]` is the earliest lowest-confidence field. */
  lemma {:induction false} SortHeadIsFirstLowest(results: seq<FieldResult>)
    requires |results| > 0
    ensures SortByConfidence(results)[0] == results[FirstLowest(results)]
  {
    if |results| > 1 {
      SortHeadIsFirstLowest(results[1..]);
    }
  }

  const EmptyRecordError := "Cannot read properties of undefined (reading 'result')"

  function Reduce(results: seq<FieldResult>): Completion<Report> {
    match FirstUnsafe(results)
    case Some(k) =>
      var u := results[k];
      Normal(Report(false, u.result.confidence, Some(u.field),
                    u.result.explanation + " Found in " + u.field + ".", u.result.category))
    case None =>
      if |results| == 0 then Throw(EmptyRecordError)
      else
        var lowest := SortByConfidence(results)[0];
        Normal(Report(true, lowest.result.confidence, Some(lowest.field), lowest.result.explanation, Safe))
  }

  function AnalyzeFormSubmission(rec: Record, oracle: string -> OracleReply): (r: Completion<Report>)
    ensures r.Throw? <==> rec == [] || exists k | 0 <= k < |rec| :: rec[k].1.NonString? && rec[k].1.truthy
    ensures r.Normal? ==> (r.value.isSafe <==> r.value.category == Safe) && r.value.category != Error
    ensures r.Normal? ==> exists k | 0 <= k < |rec| :: r.value.field == Some(rec[k].0)
  {
    match AnalyzeFields(rec, oracle)
    case Throw(m) => Throw(m)
    case Normal(results) =>
      match FirstUnsafe(results)
      case Some(k) =>
        assert WellFormed(results[k].result) && results[k].result.category != Error by {
          assert AnalyzeField(rec[k], oracle) == Normal(results[k]);
        }
        assert results[k].field == rec[k].0 by {
          assert AnalyzeField(rec[k], oracle) == Normal(results[k]);
        }
        Reduce(results)
      case None =>
        if |results| > 0 then
          SortHeadIsFirstLowest(results);
          var i := FirstLowest(results);
          assert results[i].field == rec[i].0 by {
            assert AnalyzeField(rec[i], oracle) == Normal(results[i]);
          }
          Reduce(results)
        else
          Reduce(results)
  }

  // ---------------------------------------------------------------------
  // Properties
  // ---------------------------------------------------------------------

  /** A blank field is reported safe with confidence 100 whatever the
      classifier would say: it is never classified. */
  lemma BlankFieldSkipsClassifier(entry: (string, Value), o1: string -> OracleReply, o2: string -> OracleReply)
    requires IsBlank(entry.1)
    ensures AnalyzeField(entry, o1) == AnalyzeField(entry, o2)
    ensures AnalyzeField(entry, o1) == Normal(FieldResult(entry.0, Verdict(true, 100, Safe, "Empty input is considered safe.")))
  {
  }

  /** A white-space-only string is blank: `trim` removes all of it. */
  lemma WhitespaceIsBlank(s: string)
    requires forall k | 0 <= k < |s| :: IsWhitespace(s[k])
    ensures IsBlank(Str(s))
  {
    TrimEmptyIff(s);
  }

  /** Some field unsafe: the report is the first unsafe field in record
      order, whatever the confidences of the others. */
  lemma FirstUnsafeFieldWins(results: seq<FieldResult>, k: nat)
    requires k < |results| && !results[k].result.isSafe
    requires forall m | 0 <= m < k :: results[m].result.isSafe
    ensures Reduce(results) == Normal(Report(false, results[k].result.confidence, Some(results[k].field),
                                             results[k].result.explanation + " Found in " + results[k].field + ".",
                                             results[k].result.category))
  {
  }

  /** All fields safe: the report is safe and carries the earliest field of
      lowest confidence; its confidence is one of the fields' confidences. */
  lemma AllSafeReportsLowest(results: seq<FieldResult>)
    requires |results| > 0
    requires forall m | 0 <= m < |results| :: results[m].result.isSafe
    ensures Reduce(results).Normal?
    ensures var r := Reduce(results).value;
            && r.isSafe && r.category == Safe
            && exists i | 0 <= i < |results| ::
                 && IsFirstLowest(results, i)
                 && r.confidence == results[i].result.confidence
                 && r.field == Some(results[i].field)
                 && r.message == results[i].result.explanation
  {
    SortHeadIsFirstLowest(results);
    var i := FirstLowest(results);
    assert IsFirstLowest(results, i);
  }

  /** At most one position is the earliest lowest. */
  lemma FirstLowestUnique(results: seq<FieldResult>, i: int, j: int)
    requires IsFirstLowest(results, i) && IsFirstLowest(results, j)
    ensures i == j
  {
    assert Confidence(results[i]) <= Confidence(results[j]);
    assert Confidence(results[j]) <= Confidence(results[i]);
  }

  /** An empty record fails at `results[0]`. */
  lemma EmptyRecordThrows(oracle: string -> OracleReply)
    ensures AnalyzeFormSubmission([], oracle) == Throw(EmptyRecordError)
  {
  }
}
