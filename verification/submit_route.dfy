/** `POST /api/submit`: schema check of the three form fields, analysis of
    the record, and the 400 / 403 / 200 / 500 outcome. E-mail format
    validation is library behaviour and enters as the predicate `isEmail`;
    the response timestamp is a parameter.
 */
module SubmitRoute {
  import opened Js
  import opened Validator
  import opened Analyzer

  datatype Response =
    | InvalidForm
    | SecurityFailed(details: Report)
    | Submitted(timestamp: string)
    | ServerError
  {
    function Status(): int {
      match this
      case InvalidForm => 400
      case SecurityFailed(_) => 403
      case Submitted(_) => 200
      case ServerError => 500
    }
  }

  predicate StringProp(props: map<string, Value>, key: string) {
    key in props && props[key].Str?
  }

  /** `{ username: min 2, email: email(), message: min 5 }`, lengths in UTF-16 units. */
  predicate ValidForm(props: map<string, Value>, isEmail: string -> bool) {
    && StringProp(props, "username") && Utf16Length(props["username"].s) >= 2
    && StringProp(props, "email") && isEmail(props["email"].s)
    && StringProp(props, "message") && Utf16Length(props["message"].s) >= 5
  }

  /** The parsed data in schema order; unknown properties are stripped. */
  function FormRecord(props: map<string, Value>): Record
    requires StringProp(props, "username") && StringProp(props, "email") && StringProp(props, "message")
  {
    [("username", props["username"]), ("email", props["email"]), ("message", props["message"])]
  }

  function Post(body: Body, isEmail: string -> bool, oracle: string -> OracleReply, timestamp: string): (r: Response)
    ensures r.Status() == 500 <==> body == Malformed
    ensures r.Status() == 400 <==> body.NotAnObject? || (body.Object? && !ValidForm(body.props, isEmail))
    ensures r.SecurityFailed? <==>
              && body.Object? && ValidForm(body.props, isEmail)
              && !AnalyzeFormSubmission(FormRecord(body.props), oracle).value.isSafe
    ensures r.SecurityFailed? ==> r.details == AnalyzeFormSubmission(FormRecord(body.props), oracle).value
  {
    match body
    case Malformed => ServerError
    case NotAnObject => InvalidForm
    case Object(props) =>
      if !ValidForm(props, isEmail) then InvalidForm
      else
        match AnalyzeFormSubmission(FormRecord(props), oracle)
        case Throw(_) => ServerError
        case Normal(report) =>
          if !report.isSafe then SecurityFailed(report) else Submitted(timestamp)
  }

  /** A rejected form is never analysed: its response is the same whatever
      the classifier would answer. */
  lemma InvalidFormNotAnalysed(body: Body, isEmail: string -> bool, o1: string -> OracleReply,
                               o2: string -> OracleReply, timestamp: string)
    requires body.Object? && !ValidForm(body.props, isEmail)
    ensures Post(body, isEmail, o1, timestamp) == Post(body, isEmail, o2, timestamp) == InvalidForm
  {
  }

  /** A safe analysis gives the success response. */
  lemma SafeFormSubmitted(props: map<string, Value>, isEmail: string -> bool, oracle: string -> OracleReply,
                          timestamp: string)
    requires ValidForm(props, isEmail)
    requires AnalyzeFormSubmission(FormRecord(props), oracle).value.isSafe
    ensures Post(Object(props), isEmail, oracle, timestamp) == Submitted(timestamp)
  {
  }
}
