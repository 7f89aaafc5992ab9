/** The server actions around the analyzer: `scanInput` (analysis, best-effort
    security log, fail-open default), `logSubmission` and `submitForm` (reject
    exactly the submissions the scan calls unsafe). Calls into the store are
    recorded as effects; whether each store call throws is a parameter.
 */
module Actions {
  import opened Js
  import opened Validator
  import opened Analyzer

  /** A row of the submissions table. */
  datatype SubmissionRow = SubmissionRow(
    username: Value, email: Value, message: Value, isSafe: bool, confidence: int, category: string)

  /** A call the actions make outside the process. */
  datatype Effect =
    | SaveSecurityLog(input: Record, result: Report, ip: string, threw: bool)
    | SaveSubmission(row: SubmissionRow, threw: bool)
    | RevalidatePath(path: string)

  const FailOpenMessage := "Error analyzing input. Treating as potentially safe but with low confidence."

  /** `Object.keys(input)[0] || null`. */
  function FirstKey(input: Record): (k: Option<string>)
    ensures k.Some? <==> |input| > 0 && input[0].0 != ""
    ensures k.Some? ==> k.value == input[0].0
  {
    if |input| > 0 && input[0].0 != "" then Some(input[0].0) else None
  }

  /** The result `scanInput` returns when analysis throws. */
  function FailOpen(input: Record): Report {
    Report(true, 50, FirstKey(input), FailOpenMessage, Error)
  }

  /** `scanInput`: the report, and the store calls made. `logThrows` says
      whether `saveSecurityLog` throws; its failure is swallowed. */
  function ScanInput(input: Record, oracle: string -> OracleReply, forwardedFor: Option<string>, logThrows: bool)
    : (r: (Report, seq<Effect>))
    ensures AnalyzeFormSubmission(input, oracle).Normal? ==>
              r.0 == AnalyzeFormSubmission(input, oracle).value
              && r.1 == [SaveSecurityLog(input, r.0, ClientIp(forwardedFor), logThrows)]
    ensures AnalyzeFormSubmission(input, oracle).Throw? ==>
              r.0 == Report(true, 50, FirstKey(input), FailOpenMessage, Error) && r.1 == []
    ensures r.0.category == Error <==> AnalyzeFormSubmission(input, oracle).Throw?
    ensures r.0.isSafe <==> r.0.category == Safe || r.0.category == Error
    ensures forall j | 0 <= j < |r.1| :: r.1[j].SaveSecurityLog?
  {
    match AnalyzeFormSubmission(input, oracle)
    case Normal(result) => (result, [SaveSecurityLog(input, result, ClientIp(forwardedFor), logThrows)])
    case Throw(_) => (FailOpen(input), [])
  }

  /** What `logSubmission` resolves to. */
  datatype LogResult = LogResult(success: bool, error: Option<string>)

  /** The three fields `logSubmission` reads from its argument. */
  datatype SubmitData = SubmitData(username: Value, email: Value, message: Value)

  /** The object a form sends with exactly the three declared fields, in
      declaration order. */
  function AsRecord(data: SubmitData): Record {
    [("username", data.username), ("email", data.email), ("message", data.message)]
  }

  /** The position of the first entry of `rec` carrying `key`. */
  function FindKey(rec: Record, key: string): (r: Option<nat>)
    ensures r.Some? ==> r.value < |rec| && rec[r.value].0 == key
    ensures r.Some? ==> forall m | 0 <= m < r.value :: rec[m].0 != key
    ensures r.None? ==> forall m | 0 <= m < |rec| :: rec[m].0 != key
  {
    if |rec| == 0 then None
    else if rec[0].0 == key then Some(0)
    else match FindKey(rec[1..], key)
      case None => None
      case Some(k) => Some(k + 1)
  }

  /** `obj[key]` on the object whose entries are `rec`; a missing property
      reads as `undefined`, a falsy non-string. */
  function Lookup(rec: Record, key: string): Value {
    match FindKey(rec, key)
    case None => NonString(false)
    case Some(k) => rec[k].1
  }

  /** What `{...data, scanResult}` hands `logSubmission` for the row: the
      argument's own three properties, whatever else it carries. */
  function RowFields(data: Record): SubmitData {
    SubmitData(Lookup(data, "username"), Lookup(data, "email"), Lookup(data, "message"))
  }

  /** `logSubmission`: never throws; `saveThrows` says whether `saveSubmission` threw. */
  function LogSubmission(data: SubmitData, scan: Report, saveThrows: bool): (r: (LogResult, Effect))
    ensures r.0.success <==> !saveThrows
    ensures r.0.error.None? <==> r.0.success
    ensures r.1.SaveSubmission? && r.1.threw == saveThrows
    ensures r.1.row == SubmissionRow(data.username, data.email, data.message,
                                     scan.isSafe, scan.confidence, scan.category.Name())
  {
    var row := SubmissionRow(data.username, data.email, data.message, scan.isSafe, scan.confidence, scan.category.Name());
    if saveThrows then (LogResult(false, Some("Failed to log submission")), SaveSubmission(row, true))
    else (LogResult(true, None), SaveSubmission(row, false))
  }

  /** What `submitForm` returns when it does not throw. */
  datatype SubmitOutcome = SubmitOutcome(success: bool, message: string, timestamp: string)

  function CountSaves(effects: seq<Effect>): (n: nat)
    ensures n <= |effects|
  {
    if effects == [] then 0
    else (if effects[0].SaveSubmission? then 1 else 0) + CountSaves(effects[1..])
  }

  /** `submitForm`: scan, log the submission once, then throw on an unsafe
      scan or revalidate the pages and report success. */
  function SubmitForm(data: Record, oracle: string -> OracleReply, forwardedFor: Option<string>,
                      logThrows: bool, saveThrows: bool, timestamp: string)
    : (r: (Completion<SubmitOutcome>, seq<Effect>))
    ensures var scan := ScanInput(data, oracle, forwardedFor, logThrows).0;
            && (r.0.Throw? <==> !scan.isSafe)
            && (r.0.Throw? ==> r.0.message == "Malicious input detected: " + scan.message)
            && (r.0.Normal? ==> r.0.value.success)
  {
    var (scan, scanEffects) := ScanInput(data, oracle, forwardedFor, logThrows);
    var (_, logged) := LogSubmission(RowFields(data), scan, saveThrows);
    if !scan.isSafe then
      (Throw("Malicious input detected: " + scan.message), scanEffects + [logged])
    else
      (Normal(SubmitOutcome(true, "Form submitted successfully!", timestamp)),
       scanEffects + [logged, RevalidatePath("/demo"), RevalidatePath("/dashboard")])
  }

  // ---------------------------------------------------------------------
  // Properties
  // ---------------------------------------------------------------------

  /** Whether the security log is saved or its save throws, `scanInput`
      returns the same result. */
  lemma SecurityLogFailureSwallowed(input: Record, oracle: string -> OracleReply, ff: Option<string>)
    ensures ScanInput(input, oracle, ff, true).0 == ScanInput(input, oracle, ff, false).0
  {
  }

  /** An empty record makes the analysis throw, so `scanInput` fails open
      with no field. */
  lemma EmptyInputFailsOpen(oracle: string -> OracleReply, ff: Option<string>, logThrows: bool)
    ensures ScanInput([], oracle, ff, logThrows).0 == Report(true, 50, None, FailOpenMessage, Error)
  {
  }

  /** `submitForm` saves the submission exactly once, on either path, and
      after the save only page revalidations follow. */
  lemma {:induction false} SubmissionLoggedOnce(data: Record, oracle: string -> OracleReply, ff: Option<string>,
                                                logThrows: bool, saveThrows: bool, timestamp: string)
    ensures var effects := SubmitForm(data, oracle, ff, logThrows, saveThrows, timestamp).1;
            && CountSaves(effects) == 1
            && exists i | 0 <= i < |effects| ::
                 && effects[i].SaveSubmission?
                 && forall j | i < j < |effects| :: effects[j].RevalidatePath?
  {
    var sr := ScanInput(data, oracle, ff, logThrows);
    var logged := LogSubmission(RowFields(data), sr.0, saveThrows).1;
    CountSavesNone(sr.1);
    var post := if sr.0.isSafe then [RevalidatePath("/demo"), RevalidatePath("/dashboard")] else [];
    SubmitFormEffects(data, oracle, ff, logThrows, saveThrows, timestamp);
    SaveThenRevalidations(sr.1, logged, post);
  }

  /** The store calls of `submitForm`: those of the scan, the submission
      save, then the two revalidations when the submission is accepted. */
  lemma SubmitFormEffects(data: Record, oracle: string -> OracleReply, ff: Option<string>,
                          logThrows: bool, saveThrows: bool, timestamp: string)
    ensures var sr := ScanInput(data, oracle, ff, logThrows);
            SubmitForm(data, oracle, ff, logThrows, saveThrows, timestamp).1
            == sr.1 + [LogSubmission(RowFields(data), sr.0, saveThrows).1]
               + (if sr.0.isSafe then [RevalidatePath("/demo"), RevalidatePath("/dashboard")] else [])
  {
    var sr := ScanInput(data, oracle, ff, logThrows);
    var logged := LogSubmission(RowFields(data), sr.0, saveThrows).1;
    if !sr.0.isSafe {
      assert sr.1 + [logged] + [] == sr.1 + [logged];
    } else {
      assert sr.1 + [logged] + [RevalidatePath("/demo"), RevalidatePath("/dashboard")]
          == sr.1 + [logged, RevalidatePath("/demo"), RevalidatePath("/dashboard")];
    }
  }

  lemma SaveThenRevalidations(pre: seq<Effect>, logged: Effect, post: seq<Effect>)
    requires CountSaves(pre) == 0 && logged.SaveSubmission?
    requires forall j | 0 <= j < |post| :: post[j].RevalidatePath?
    ensures var effects := pre + [logged] + post;
            && CountSaves(effects) == 1
            && effects[|pre|].SaveSubmission?
            && forall j | |pre| < j < |effects| :: effects[j].RevalidatePath?
  {
    CountSavesAppend(pre, [logged]);
    CountSavesAppend(pre + [logged], post);
    CountSavesNone(post);
  }

  lemma {:induction false} CountSavesNone(effects: seq<Effect>)
    requires forall j | 0 <= j < |effects| :: !effects[j].SaveSubmission?
    ensures CountSaves(effects) == 0
  {
    if effects != [] {
      CountSavesNone(effects[1..]);
    }
  }

  lemma {:induction false} CountSavesAppend(a: seq<Effect>, b: seq<Effect>)
    ensures CountSaves(a + b) == CountSaves(a) + CountSaves(b)
  {
    if a != [] {
      assert (a + b)[1..] == a[1..] + b;
      CountSavesAppend(a[1..], b);
    } else {
      assert a + b == b;
    }
  }

  /** The fail-open default reaches `submitForm`: when analysis throws, the
      submission is accepted. */
  lemma AnalysisFailureAccepted(data: Record, oracle: string -> OracleReply, ff: Option<string>,
                                logThrows: bool, saveThrows: bool, timestamp: string)
    requires AnalyzeFormSubmission(data, oracle).Throw?
    ensures SubmitForm(data, oracle, ff, logThrows, saveThrows, timestamp).0.Normal?
  {
  }

  /** For instance, a message that is a non-empty array is not a string and
      has no `trim`; the analysis throws and the submission goes through. */
  lemma NonStringMessageAccepted(oracle: string -> OracleReply, ff: Option<string>,
                                 logThrows: bool, saveThrows: bool, timestamp: string)
    ensures SubmitForm(AsRecord(SubmitData(Str("ab"), Str("a@b.c"), NonString(true))), oracle, ff,
                       logThrows, saveThrows, timestamp).0.Normal?
  {
    var rec := AsRecord(SubmitData(Str("ab"), Str("a@b.c"), NonString(true)));
    assert rec[2].1.NonString? && rec[2].1.truthy;
  }

  /** The saved row takes the argument's own `username`, `email` and
      `message`, wherever they stand among its properties, and the scan
      outcome; for a form's three-field object these are exactly its fields. */
  lemma SavedRowFromArgument(data: Record, oracle: string -> OracleReply, ff: Option<string>,
                             logThrows: bool, saveThrows: bool, timestamp: string)
    ensures var scan := ScanInput(data, oracle, ff, logThrows).0;
            var effects := SubmitForm(data, oracle, ff, logThrows, saveThrows, timestamp).1;
            exists i | 0 <= i < |effects| ::
              && effects[i].SaveSubmission?
              && effects[i].row == SubmissionRow(Lookup(data, "username"), Lookup(data, "email"),
                                                 Lookup(data, "message"), scan.isSafe, scan.confidence,
                                                 scan.category.Name())
              && effects[i].threw == saveThrows
  {
    var sr := ScanInput(data, oracle, ff, logThrows);
    var effects := SubmitForm(data, oracle, ff, logThrows, saveThrows, timestamp).1;
    var i := |sr.1|;
    assert effects[i] == LogSubmission(RowFields(data), sr.0, saveThrows).1;
  }

  /** On a form's three-field object, the lookups give back its fields. */
  lemma RowFieldsOfForm(d: SubmitData)
    ensures RowFields(AsRecord(d)) == d
  {
    var rec := AsRecord(d);
    assert FindKey(rec, "username") == Some(0);
    assert FindKey(rec, "email") == Some(1) by {
      assert rec[0].0 != "email";
      assert rec[1..][0].0 == "email";
    }
    assert FindKey(rec, "message") == Some(2) by {
      assert rec[0].0 != "message" && rec[1].0 != "message";
      assert FindKey(rec[1..], "message") == Some(1) by {
        assert rec[1..][0].0 != "message";
        assert rec[1..][1..][0].0 == "message";
      }
    }
  }
}
