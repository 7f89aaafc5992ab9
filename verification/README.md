# AI smart form: input-risk classification, in Dafny

This project models the input-risk classification pipeline of the AI smart
form and the request-level decisions around it, as pure Dafny functions over
immutable data, and proves their properties.

- **Signature matcher** (`Patterns`, `Validator.MatchSignature`). Four regular
  expressions are checked in a fixed order: XSS, SQL injection, command
  injection, path traversal. Each is a predicate stating when JavaScript's
  `RegExp.prototype.test` succeeds. The semantics follow the non-Unicode
  regex mode of the source:
  - with the `i` flag, a character folds to its upper case but never from outside ASCII into ASCII; every pattern character is ASCII, so only the two cases of an ASCII letter can match each other;
  - `\w` is `[A-Za-z0-9_]`;
  - `\s` and `trim` use the ECMAScript white-space and line-terminator set;
  - `.` stops at line terminators;
  - `$` without the `m` flag is the end of the input, so a `--` comment must be on the last line.
- **Classifier scoring** (`Validator.OracleVerdict`). The hosted classifier's answer is an input:
  either a failure or a list of `{label, score}` entries. For each of
  `toxic`, `threat` and `insult` the first entry counts, and a missing label counts 0. The risk is
  `Math.round(100 · sum)`, with `Math.round(x) = floor(x + 1/2)` over the reals.
- **Fallback heuristic** (`Validator.FallbackVerdict`). When the classifier
  call fails, the verdict depends on two tests: a bracket character, or
  more than 100 UTF-16 code units together with a run of 32 hex characters.
- **Field aggregator** (`Analyzer`). Blank fields short-circuit to safe.
  Otherwise the first unsafe field in record order wins. If every field is
  safe, the stable sort by confidence puts the earliest lowest-confidence
  field first, and that field is reported. An empty record fails at `results[0]`.
- **Server actions** (`Actions`):
  - `scanInput` passes the analysis through and swallows a failed security-log save;
  - when the analysis throws, it fails open: safe, confidence 50, category `error`;
  - `logSubmission` never throws;
  - `submitForm` throws exactly when the scan is unsafe, after saving the submission exactly once.
- **Routes and middleware**:
  - `ScanInputRoute` models the per-address fixed-window rate limiter as a map
    update and the 429/400/200/500 outcome;
  - `SubmitRoute` models the schema gate and the 400/403/200/500 outcome;
  - `Middleware` models the public-path test, the redirect decision and the
    path matcher.

External pieces are parameters:
- the classifier is a function `oracle: string -> OracleReply`;
- the clock is `now: int` (milliseconds);
- the session token is `hasToken: bool`;
- e-mail validity is `isEmail: string -> bool`;
- the response timestamp is a string;
- whether each store call throws is a `bool`.

Store calls and page revalidations are recorded as `Actions.Effect` values.

Strings are `seq<char>` of Unicode scalar values. `Js.Utf16Length` gives
JavaScript's code-unit `length`, which the fallback (`input.length > 100`) and
the `min(n)` schema checks use. On the regex side, a surrogate pair behaves
like one non-word, non-space, non-hex character. Every pattern here is ASCII,
so matching over scalar values gives the same answers as matching over code
units.

Two consequences of the code are worth stating up front:
- **Confidence is not clamped.** `validationResponseSchema` declares
  `confidence` as a number in 0..100 (`lib/ai-validator.ts:13`). The
  classifier path returns the raw risk as the confidence of an unsafe verdict,
  so it exceeds 100 once the three scores sum to 1.005 or more
  (`Validator.OracleConfidenceBounds`, `Validator.ConfidenceAboveHundred`).
- **Field order matters.** The first unsafe field in `Object.entries` order
  wins (`lib/ai-validator.ts:147`). So reordering a record's properties can change
  the reported field, confidence and message.

## Model

| member | source | states |
|---|---|---|
| Js.Fold | ai-smart-form/lib/ai-validator.ts:23-25 | Folding keeps a character inside or outside ASCII, as the `i` flag without `u` does, never yields a lower-case ASCII letter, and reaches an upper-case ASCII letter only from itself or its lower case |
| Js.FoldAsciiMatch | ai-smart-form/lib/ai-validator.ts:23-25 | For an ASCII pattern character p, a text character matches p under the `i` flag exactly when it is p or the other case of the ASCII letter p. No other character, ASCII or not, matches, which is why folding only ASCII letters gives the same matches as full case folding |
| Js.TrimEmptyIff | ai-smart-form/lib/ai-validator.ts:129 | `value.trim() === ""` holds exactly when every character is ECMAScript white space or a line terminator, the empty string included |
| Js.Utf16Length | ai-smart-form/lib/ai-validator.ts:102 | `length` counts UTF-16 code units: at least one and at most two per character |
| Js.ClientIp | ai-smart-form/app/api/scan-input/route.ts:25 | The client key is the forwarded-for header when present and non-empty, otherwise `"unknown"` |
| Patterns.ScanHexRun | ai-smart-form/lib/ai-validator.ts:102 | One left-to-right pass tracking the current hex run finds a run of `n` characters of `[a-f0-9]` (any case) exactly when the text contains one |
| Patterns.EventHandlerGreedy | ai-smart-form/lib/ai-validator.ts:23 | `on\w+\s*=` matches at a position exactly when the greedy reading does: backtracking into the word or space run never creates a match |
| Validator.MatchSignature | ai-smart-form/lib/ai-validator.ts:41-69 | The cascade yields no verdict exactly when none of the four signatures matches; any verdict it yields is unsafe with an attack category |
| Validator.FindLabel | ai-smart-form/lib/ai-validator.ts:79-81 | `find` by label returns the first entry carrying the label, and nothing exactly when no entry carries it |
| Validator.Round | ai-smart-form/lib/ai-validator.ts:84 | `Math.round` gives the nearest integer, halves rounded up: x − 1/2 < r ≤ x + 1/2 |
| Validator.OracleVerdict | ai-smart-form/lib/ai-validator.ts:84-96 | A classifier verdict is safe exactly when its category is `safe`, and its category is `safe` or `other` |
| Validator.FallbackVerdict | ai-smart-form/lib/ai-validator.ts:101-118 | A fallback verdict is safe exactly when its category is `safe` |
| Validator.ValidateWithAI | ai-smart-form/lib/ai-validator.ts:33-120 | Never throws. XSS gives {false, 95, xss} whatever else matches. SQL gives 90 only without XSS. Command injection gives 85 only without the first two. Path traversal gives 80 only without any of the others. An attack category is reported exactly when some signature matches. A safe verdict implies no signature matched. isSafe ⇔ category `safe`, and the category is never `error` |
| Validator.SignaturePriority | ai-smart-form/lib/ai-validator.ts:41-68 | Each attack category is reported if and only if its signature is the first in priority order to match |
| Validator.OracleIgnoredOnSignature | ai-smart-form/lib/ai-validator.ts:41-76 | Once a signature matches, the classifier's answer or failure cannot change the verdict, and the confidence is at least 80 |
| Validator.OracleScoring | ai-smart-form/lib/ai-validator.ts:78-96 | Without a signature match, risk = round(100·(toxic+threat+insult)). The verdict is safe iff risk < 30. Confidence is 100 − risk when safe and risk otherwise. Category is `safe` or `other` |
| Validator.OracleConfidenceBounds | ai-smart-form/lib/ai-validator.ts:83-91 | For a non-negative score sum: safe confidence lies in 71..100 and unsafe confidence is ≥ 30. Unsafe confidence is ≤ 100 exactly when the sum is below 1.005, since nothing clamps it |
| Validator.RiskScoreRange | ai-smart-form/lib/ai-validator.ts:79-84 | With every score in [0, 1], the risk lies in 0..300 |
| Validator.RiskThirtyIsUnsafe | ai-smart-form/lib/ai-validator.ts:84-92 | Scores 0.1, 0.1, 0.1 give risk 30, so the verdict is unsafe, confidence 30, category `other` |
| Validator.ConfidenceAboveHundred | ai-smart-form/lib/ai-validator.ts:84-91 | Scores 0.5, 0.5, 0.3 give confidence 130, outside the 0..100 range the response schema declares |
| Validator.FirstEntryPerLabel | ai-smart-form/lib/ai-validator.ts:79-81 | For entries toxic 0.2, toxic 0.9, threat 0.1 the sum is 0.3: the repeated label contributes only its first entry's score, and the missing `insult` contributes 0 |
| Validator.FallbackOnOracleFailure | ai-smart-form/lib/ai-validator.ts:97-119 | Classifier failure without a signature gives one of two verdicts. It is {false, 60, other} iff the text has one of `<>{}[]`, or is longer than 100 code units and has a 32-character hex run. Otherwise it is {true, 70, safe} |
| Analyzer.AnalyzeField | ai-smart-form/lib/ai-validator.ts:128-143 | A field task throws exactly for a truthy non-string value, which has no `trim`. Otherwise it keeps the field name and yields a well-formed verdict that is never `error` |
| Analyzer.AnalyzeFields | ai-smart-form/lib/ai-validator.ts:127-144 | `Promise.all` either rejects exactly when some field task throws, or gives one result per field, in record order, each the field's own task result |
| Analyzer.FirstUnsafe | ai-smart-form/lib/ai-validator.ts:147 | `find(!isSafe)` returns the first unsafe position, and nothing exactly when all fields are safe |
| Analyzer.Insert | ai-smart-form/lib/ai-validator.ts:159 | Insertion adds exactly the element to the multiset, and the result starts with the element or with the old head |
| Analyzer.FirstNotLower | ai-smart-form/lib/ai-validator.ts:159 | Finds the first position whose confidence is not below the element's: all earlier positions have lower confidence |
| Analyzer.InsertPlacement | ai-smart-form/lib/ai-validator.ts:159 | Insertion keeps the lower-confidence prefix in place, puts the element at the first position of not-lower confidence, and shifts every later element, equal confidences included, up by one. Equal elements therefore keep their input order, which makes the sort stable |
| Analyzer.InsertSorted | ai-smart-form/lib/ai-validator.ts:159 | Insertion keeps a confidence-sorted sequence sorted |
| Analyzer.SortByConfidence | ai-smart-form/lib/ai-validator.ts:159 | The sort returns a permutation of the results in ascending confidence |
| Analyzer.FirstLowest | ai-smart-form/lib/ai-validator.ts:158-160 | Finds the earliest position holding the lowest confidence |
| Analyzer.SortHeadIsFirstLowest | ai-smart-form/lib/ai-validator.ts:159-160 | After the stable sort, `results[0]` is the earliest field of lowest confidence: ties go to the earlier field |
| Analyzer.AnalyzeFormSubmission | ai-smart-form/lib/ai-validator.ts:125-169 | Throws exactly for an empty record or one holding a truthy non-string value. Otherwise the report is safe iff its category is `safe`, its category is never `error`, and it names one of the record's fields |
| Analyzer.BlankFieldSkipsClassifier | ai-smart-form/lib/ai-validator.ts:129-139 | An empty, all-white-space or falsy field yields {true, 100, safe} whatever the classifier would answer |
| Analyzer.WhitespaceIsBlank | ai-smart-form/lib/ai-validator.ts:129 | A string made only of white space counts as blank |
| Analyzer.FirstUnsafeFieldWins | ai-smart-form/lib/ai-validator.ts:147-156 | If any field is unsafe, the report is the first unsafe field's confidence and category, with message `<explanation> Found in <field>.`, whatever the other fields' confidences |
| Analyzer.AllSafeReportsLowest | ai-smart-form/lib/ai-validator.ts:158-168 | If all fields are safe, the report is {true, safe} with the confidence, name and explanation of the earliest lowest-confidence field. So its confidence is one of the fields' confidences |
| Analyzer.FirstLowestUnique | ai-smart-form/lib/ai-validator.ts:158-160 | There is at most one earliest lowest-confidence position, so the reported field is determined |
| Analyzer.EmptyRecordThrows | ai-smart-form/lib/ai-validator.ts:159-164 | An empty record fails when `results[0]` is read |
| Actions.FirstKey | ai-smart-form/lib/actions.ts:43 | `Object.keys(input)[0] \|\| null` is the first key when there is one and it is non-empty, otherwise null |
| Actions.ScanInput | ai-smart-form/lib/actions.ts:9-48 | On successful analysis, returns the result unchanged and attempts one security-log save. When analysis throws, returns {true, 50, first key or null, error} and saves nothing. Category `error` appears exactly on that path. The result is safe exactly when its category is `safe` or `error` |
| Actions.SecurityLogFailureSwallowed | ai-smart-form/lib/actions.ts:20-35 | Whether the security-log save throws or not, `scanInput` returns the same result |
| Actions.EmptyInputFailsOpen | ai-smart-form/lib/actions.ts:36-46 | An empty record gives the fail-open result with field null |
| Actions.LogSubmission | ai-smart-form/lib/actions.ts:51-79 | Never throws. Reports success exactly when `saveSubmission` did not throw, with an error message exactly otherwise. The row saved carries the scan's isSafe, confidence and category name |
| Actions.SubmitForm | ai-smart-form/lib/actions.ts:82-115 | The whole argument object, with any extra properties and in its own property order, is scanned. `submitForm` throws `Malicious input detected: <message>` exactly when that scan is unsafe, and otherwise reports success |
| Actions.FindKey | ai-smart-form/lib/actions.ts:65-68 | Property lookup finds the first entry carrying the key, and nothing exactly when no entry carries it (the value is then `undefined`) |
| Actions.SavedRowFromArgument | ai-smart-form/lib/actions.ts:90-104 | The saved submission row carries the argument's own `username`, `email` and `message`, wherever they stand among its properties, together with the scan's isSafe, confidence and category |
| Actions.RowFieldsOfForm | ai-smart-form/lib/actions.ts:82-86 | For an object with exactly the three declared fields, the row fields are those fields |
| Actions.SubmissionLoggedOnce | ai-smart-form/lib/actions.ts:88-108 | Either way, exactly one submission save happens, and only page revalidations follow it |
| Actions.AnalysisFailureAccepted | ai-smart-form/lib/actions.ts:36-46 | When analysis of the submission throws, the fail-open default makes `submitForm` accept it |
| Actions.NonStringMessageAccepted | ai-smart-form/lib/actions.ts:88-115 | A submission whose message is a non-string truthy value makes the analysis throw, and the submission is accepted |
| ScanInputRoute.Touch | ai-smart-form/app/api/scan-input/route.ts:28-39 | A new address starts a window {1, now + 60000}. A window resets to {1, now + 60000} only when now is strictly past its reset time. Otherwise the count goes up by one and the reset time is kept. No other address's entry changes |
| ScanInputRoute.Post | ai-smart-form/app/api/scan-input/route.ts:22-69 | Every request updates the limiter, before any body check. 429 iff the post-increment count exceeds 10. Otherwise: 500 iff the JSON is malformed, 400 iff the body lacks a non-empty string `text` or has a non-string `field`. 200 carries the `validateWithAI` verdict of the text and `field \|\| null` |
| ScanInputRoute.AdmittedInOpenWindow | ai-smart-form/app/api/scan-input/route.ts:12-43 | While the window stays open, at most 10 − count further requests get past the limiter |
| ScanInputRoute.AtMostLimitPerWindow | ai-smart-form/app/api/scan-input/route.ts:12-43 | Of the requests from one address within one window, at most 10 get past the limiter |
| ScanInputRoute.EveryRequestCounts | ai-smart-form/app/api/scan-input/route.ts:37-39 | Every request, including one answered 429, 400 or 500, raises its address's count by one within an open window |
| ScanInputRoute.MissingHeaderSharesKey | ai-smart-form/app/api/scan-input/route.ts:25-29 | A missing and an empty forwarded-for header both count against the shared key `"unknown"` |
| SubmitRoute.Post | ai-smart-form/app/api/submit/route.ts:15-52 | 500 exactly for a malformed JSON body. 400 exactly when the body fails the schema (username < 2, bad e-mail, message < 5). 403 exactly when the analysis is unsafe, with the whole analysis as details. 200 otherwise |
| SubmitRoute.InvalidFormNotAnalysed | ai-smart-form/app/api/submit/route.ts:19-26 | A form the schema rejects gets 400 whatever the classifier would answer: it is never analysed |
| SubmitRoute.SafeFormSubmitted | ai-smart-form/app/api/submit/route.ts:28-47 | A valid form with a safe analysis gets the success response |
| Middleware.Decide | ai-smart-form/middleware.ts:5-28 | Redirect to `/login` iff the path is not public and there is no token. Redirect to `/dashboard` iff the path is `/login` and there is a token. Pass through in every other case |
| Middleware.Handle | ai-smart-form/middleware.ts:31-33 | Paths outside the matcher always pass through |
| Middleware.PublicNeverToLogin | ai-smart-form/middleware.ts:9-27 | A public path (`/login`, `/`, `/demo`, `/api/…`) is never redirected to `/login` |
| Middleware.MatchedPathDecisions | ai-smart-form/middleware.ts:18-33 | On matched paths: a dashboard path without a token goes to `/login`, `/login` with a token goes to `/dashboard`, and everything else passes |
| Middleware.UnmatchedPathUnguarded | ai-smart-form/middleware.ts:9-33 | `/settings` is not public and the decision would redirect it, yet it lies outside the matcher and passes through |
| Examples.ScriptTagIsXss | ai-smart-form/lib/ai-validator.ts:23-47 | Any capitalisation of `<script>` gives {false, 95, xss} |
| Examples.InlineHandlerIsXss | ai-smart-form/lib/ai-validator.ts:23 | `<img onerror  = x>` matches the inline-handler signature |
| Examples.DropTableIsSql | ai-smart-form/lib/ai-validator.ts:25 | `DROP TABLE x FROM y` matches the statement alternative |
| Examples.QuotedOrIsSql | ai-smart-form/lib/ai-validator.ts:25 | `' OR '1'='1` matches the quoted-tautology alternative |
| Examples.CommentMustBeOnLastLine | ai-smart-form/lib/ai-validator.ts:25 | `--` matches when the rest of the input is one line, and not when a line break follows it |
| Examples.XssOutranksOthers | ai-smart-form/lib/ai-validator.ts:41-62 | A payload matching XSS, SQL and command injection is reported as XSS |
| Examples.DigitsAndSpacesMatchNoSignature | ai-smart-form/lib/ai-validator.ts:22-28 | Text of digits and spaces matches none of the four signatures |
| Examples.LongHexRunFlagged | ai-smart-form/lib/ai-validator.ts:97-111 | 150 characters containing a 40-character hex run, with the classifier down, give {false, 60, other} |
| Examples.ShortPlainTextPasses | ai-smart-form/lib/ai-validator.ts:97-118 | Short plain text with the classifier down gives {true, 70, safe} |
| Examples.FirstUnsafeFieldReported | ai-smart-form/lib/ai-validator.ts:147-156 | For the record {a: `<script>`, b: `DROP TABLE x FROM y`}, field `a` is reported with confidence 95 |
| Examples.LowestSafeFieldReported | ai-smart-form/lib/ai-validator.ts:158-168 | Safe fields at 90 and 70 report the 70 field; at 70 and 70 they report the earlier one |

## Left out

- The classifier call itself (`hf.textClassification`) is an input. IEEE-754 rounding of the score sum and NaN scores are not modelled: scores are reals.
- The classifier is a function of the text. So two fields with the same text get the same answer within one analysis. A network that answers differently for equal texts is not modelled.
- `Object.entries` lists integer-like keys first. A record here is given directly in enumeration order.
- `Promise.all` runs the field tasks concurrently. Here it is an order-preserving map that fails when any task fails; which rejection reason wins is not modelled, because every caller discards it.
- Console logging, `headers()`, `NextResponse` construction and `new URL(..., request.url)` are not modelled. A redirect is modelled by its path only.
- `revalidatePath` and the Supabase inserts (`lib/supabase.ts`) are recorded only as effects, with a flag saying whether each store call threw.
- Zod error formatting is not modelled: a 400 carries no details. `z.string().email()` is the parameter `isEmail`.
- The unused schemas at the top of `lib/ai-validator.ts` are not modelled.
- The middleware matcher `/dashboard/:path*` is taken as `/dashboard` or any path starting `/dashboard/`. Path-to-regexp segment rules, trailing-slash normalisation and case handling are not modelled.
- `getToken` and JWT verification are reduced to `hasToken`.
- The clock and the timestamp string are parameters.
- The ISO timestamp format is not modelled.
- A truthy non-string field value is assumed to have no `trim` method. True for every JSON value a client can send.
- React components, pages and the `next-auth` route are not modelled: they hold no decision logic of this core.
- Analyzer.SortByConfidence: its contract states sortedness and permutation, not full stability. Stability is proved for each insertion step (`Analyzer.InsertPlacement`) and for the first element of the result (`Analyzer.SortHeadIsFirstLowest`), the only element the code reads. It is not lifted to the whole sorted sequence.
- A JavaScript object has unique keys. A `Record` with a repeated key does not arise from one, and `Actions.Lookup` reads its first entry for the key.
- ScanInputRoute.AtMostLimitPerWindow: stated for the requests of one address. Requests from other addresses change only their own entries (`ScanInputRoute.Touch`).
