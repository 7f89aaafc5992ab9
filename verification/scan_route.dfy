/** `POST /api/scan-input`: a per-address fixed-window rate limiter over an
    in-memory map, then request-shape validation, then `validateWithAI` on
    the text. The map is passed in and the updated map returned; the clock
    reading `now` (milliseconds) and the classifier are parameters.
 */
module ScanInputRoute {
  import opened Js
  import opened Validator

  const RateLimit := 10
  const RateLimitWindow := 60 * 1000

  /** One entry of `ipRequests`. */
  datatype Window = Window(count: nat, resetTime: int)

  type Limiter = map<string, Window>

  /** The bookkeeping of one request from `ip` at `now`: open a window for a
      new address or one whose window has passed, then count the request. */
  function Touch(m: Limiter, ip: string, now: int): (m': Limiter)
    ensures m'.Keys == m.Keys + {ip}
    ensures forall other | other in m && other != ip :: m'[other] == m[other]
    ensures ip !in m ==> m'[ip] == Window(1, now + RateLimitWindow)
    ensures ip in m && now > m[ip].resetTime ==> m'[ip] == Window(1, now + RateLimitWindow)
    ensures ip in m && now <= m[ip].resetTime ==> m'[ip] == Window(m[ip].count + 1, m[ip].resetTime)
  {
    var w := if ip in m then m[ip] else Window(0, now + RateLimitWindow);
    var w' := if now > w.resetTime then Window(0, now + RateLimitWindow) else w;
    m[ip := w'.(count := w'.count + 1)]
  }

  datatype Response =
    | RateLimited
    | InvalidRequest
    | Scanned(verdict: Verdict, field: Option<string>)
    | ServerError
  {
    function Status(): int {
      match this
      case RateLimited => 429
      case InvalidRequest => 400
      case Scanned(_, _) => 200
      case ServerError => 500
    }
  }

  /** `{ text: z.string().min(1), field: z.string().optional() }`. */
  predicate ValidRequest(props: map<string, Value>) {
    && "text" in props && props["text"].Str? && Utf16Length(props["text"].s) >= 1
    && ("field" in props ==> props["field"].Str?)
  }

  /** The handler: the new limiter map and the response. */
  function Post(m: Limiter, forwardedFor: Option<string>, now: int, body: Body, oracle: string -> OracleReply)
    : (r: (Limiter, Response))
    ensures r.0 == Touch(m, ClientIp(forwardedFor), now)
    ensures r.1 == RateLimited <==> r.0[ClientIp(forwardedFor)].count > RateLimit
    ensures r.1 == ServerError <==> r.0[ClientIp(forwardedFor)].count <= RateLimit && body == Malformed
    ensures r.1 == InvalidRequest <==>
              && r.0[ClientIp(forwardedFor)].count <= RateLimit
              && (body.NotAnObject? || (body.Object? && !ValidRequest(body.props)))
    ensures r.1.Scanned? ==>
              && body.Object? && ValidRequest(body.props)
              && var text := body.props["text"].s;
              && r.1.verdict == ValidateWithAI(text, oracle(text))
              && r.1.field == (if "field" in body.props then OrNull(Some(body.props["field"].s)) else None)
  {
    var ip := ClientIp(forwardedFor);
    var m' := Touch(m, ip, now);
    if m'[ip].count > RateLimit then (m', RateLimited)
    else match body
      case Malformed => (m', ServerError)
      case NotAnObject => (m', InvalidRequest)
      case Object(props) =>
        if !ValidRequest(props) then (m', InvalidRequest)
        else
          var text := props["text"].s;
          var field := if "field" in props then Some(props["field"].s) else None;
          (m', Scanned(ValidateWithAI(text, oracle(text)), OrNull(field)))
  }

  // ---------------------------------------------------------------------
  // At most RateLimit requests per window
  // ---------------------------------------------------------------------

  /** How many of the requests from `ip` at the given times get past the
      limiter, starting from map `m`. */
  function Admitted(m: Limiter, ip: string, times: seq<int>): (n: nat)
    ensures n <= |times|
    decreases |times|
  {
    if times == [] then 0
    else
      var m' := Touch(m, ip, times[0]);
      (if m'[ip].count <= RateLimit then 1 else 0) + Admitted(m', ip, times[1..])
  }

  /** Within an open window no request resets it, so each one raises the
      count and only the first `RateLimit - count` get through. */
  lemma {:induction false} AdmittedInOpenWindow(m: Limiter, ip: string, times: seq<int>)
    requires ip in m
    requires forall k | 0 <= k < |times| :: times[k] <= m[ip].resetTime
    ensures Admitted(m, ip, times) <= if m[ip].count >= RateLimit then 0 else RateLimit - m[ip].count
    decreases |times|
  {
    if times != [] {
      var m' := Touch(m, ip, times[0]);
      assert m'[ip] == Window(m[ip].count + 1, m[ip].resetTime);
      AdmittedInOpenWindow(m', ip, times[1..]);
    }
  }

  /** Requests from one address that all fall within the window in force
      after the first of them: at most `RateLimit` are admitted. */
  lemma AtMostLimitPerWindow(m: Limiter, ip: string, times: seq<int>)
    requires |times| > 0
    requires forall k | 0 <= k < |times| :: times[k] <= Touch(m, ip, times[0])[ip].resetTime
    ensures Admitted(m, ip, times) <= RateLimit
  {
    var m' := Touch(m, ip, times[0]);
    assert m'[ip].count >= 1;
    AdmittedInOpenWindow(m', ip, times[1..]);
  }

  /** Every request is counted, including those then answered 429 or 400:
      the address's count after the request is one more than before, unless
      a new window opened. */
  lemma EveryRequestCounts(m: Limiter, ff: Option<string>, now: int, body: Body, oracle: string -> OracleReply)
    ensures var ip := ClientIp(ff);
            var after := Post(m, ff, now, body, oracle).0;
            && after[ip].count >= 1
            && (ip in m && now <= m[ip].resetTime ==> after[ip].count == m[ip].count + 1)
  {
  }

  /** Requests without a forwarded-for header share one window. */
  lemma MissingHeaderSharesKey(m: Limiter, now: int, body: Body, oracle: string -> OracleReply)
    ensures Post(m, None, now, body, oracle).0 == Post(m, Some(""), now, body, oracle).0
    ensures Post(m, None, now, body, oracle).0 == Touch(m, "unknown", now)
  {
  }
}
