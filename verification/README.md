# Rural-finance assistant: risk scorer, advisor fallbacks, auth and route guard

A Dafny model of the decision logic of a rural-finance web application:

- **Transaction risk scorer** (`POST /api/fraud/check`). It validates the
  request, then runs three rules in a fixed order:
  - velocity: five or more of the user's transactions in the trailing hour;
  - amount anomaly: the amount is over five times the user's historical mean;
  - new beneficiary: the beneficiary is less than a day old and the amount
    is over 1000.

  The result is `{safe, riskScore, flags}`. Scores are integers in
  hundredths (weights 30, 30, 40; unsafe from 70). The anomaly test is
  decided by cross-multiplication. `AnomalyIsAverageTest` proves it equal to
  the route's division-based test over exact reals. The route's three
  database queries are modelled twice: once as plain input values
  (`FraudCheck.History`), and once evaluated against a table snapshot
  (`TransactionStore`).
- **Embedding normalisation**: a vector from the embedding service is
  zero-padded or truncated to the 1536 entries of the database column.
- **Answer fallback loop**: the generation models are tried in order over
  an abstract list of per-model outcomes. The first non-blank trimmed text
  wins. An error with status 500 or above stops the loop. Otherwise the
  language's canned answer is returned. Prompt and answer tables fall back
  to English.
- **Authentication**: the access token comes from a case-insensitive
  `Bearer` header or else from the `sb-access-token` cookie. The user is the
  provider-verified one, else the demo user when dummy auth is on, else
  nobody.
- **Route guard**: the middleware decides pass-through, 401, or redirect to
  `/sign-in?redirectedFrom=<path>`, using raw prefix tests on the pathname.

Files: `wrappers.dfy` (`Option`), `js_text.dfy` (JavaScript string
operations: truthiness, `startsWith`, `trim`, ASCII lower-casing),
`fraud_check.dfy`, `fraud_store.dfy`, `embedding.dfy`, `advisor.dfy`,
`auth.dfy`, `route_guard.dfy`.

Two behaviours of the route's code are worth stating plainly:
- `new_beneficiary` needs `amount > 1000` as well as a beneficiary under a
  day old. Amount 600 with a two-hour-old beneficiary and a mean of 100
  therefore raises only `amount_anomaly` (score 0.30, safe); see
  `FraudCheck.ExampleYoungBeneficiarySmallAmount`. The 0.70 boundary is
  shown with amount 1200 (`FraudCheck.ExampleThresholdIsUnsafe`).
- A history query that fails is silent: the route reads no data, treats it
  as an empty result, and reports nothing to the caller. In the model,
  `None` in `History` counts as zero transactions or no history.

## Model

| member | source | states |
|---|---|---|
| FraudCheck.Evaluate | app/api/fraud/check/route.ts:7-57 | A missing or empty `userId`, or a missing `amount`, gives the 400 error and no verdict; `amount == 0` is accepted. Otherwise the flags are exactly the rules that fire, in rule order with no repeats. The score is the sum of the listed flags' weights, at most 1.00. `safe` holds iff the score is below 0.70. |
| FraudCheck.Score | app/api/fraud/check/route.ts:11-56 | The step-by-step push/accumulate of the route produces exactly the fired rules in rule order. Its running total equals the independent weight sum of those flags. |
| FraudCheck.Post | app/api/fraud/check/route.ts:4-62 | The answer is 500 "Internal server error" iff the body cannot be read or destructured, or the request is valid and the database admin client is missing (its first query at line 16 dereferences the client unguarded, and the catch answers 500). It is 400 iff the body is read but fails validation, which runs before any query. Otherwise it is a verdict whose flags are exactly the firing rules in rule order, with the weight-sum score and `safe` iff below 0.70. |
| FraudCheck.PostScoresFiredRules | app/api/fraud/check/route.ts:11-57 | With a valid body and a configured client, the handler answers exactly the verdict built from the rule-ordered list of firing rules: that list, its weight sum, and `safe` iff the sum is below 0.70. |
| FraudCheck.NameInjective | app/api/fraud/check/route.ts:24-50 | The three reported names `high_velocity`, `amount_anomaly` and `new_beneficiary` are distinct. |
| FraudCheck.ReportedNamesAreFiredRules | app/api/fraud/check/route.ts:22-57 | The response's `flags` array names exactly the rules that fired, each once. |
| FraudCheck.RuleOrderIsCanonical | app/api/fraud/check/route.ts:24-50 | Two flag lists in rule order with the same members are equal. So the membership contract determines `flags` completely. |
| FraudCheck.FlagsAreFiredRulesInOrder | app/api/fraud/check/route.ts:22-53 | For every input, `flags` equals any rule-ordered list of exactly the firing rules. The score equals that list's weight sum. |
| FraudCheck.WeightSumByMembers | app/api/fraud/check/route.ts:23-51 | The score of a rule-ordered flag list is 30 for `high_velocity`, 30 for `amount_anomaly` and 40 for `new_beneficiary`, counted once each if present. |
| FraudCheck.UnsafeIffBeneficiaryAndAnother | app/api/fraud/check/route.ts:25-56 | A verdict is unsafe iff `new_beneficiary` is raised together with another flag. 0.30 + 0.40 reaches the 0.70 cutoff exactly; 0.30 + 0.30 does not. |
| FraudCheck.AnomalyIsAverageTest | app/api/fraud/check/route.ts:33-35 | The integer test equals the route's test on the exact mean (0 with no rows): `avg > 0 && amount > 5 * avg`. |
| FraudCheck.ScaledMeanTest | app/api/fraud/check/route.ts:34-35 | For a positive count, the mean is positive iff the total is, and a value exceeds five times the mean iff the value times the count exceeds five times the total. |
| FraudCheck.NoHistoryNoAnomaly | app/api/fraud/check/route.ts:34-35 | With no history, or a failed history query, the anomaly rule never fires. |
| FraudCheck.NonNumericCountsAsZero | app/api/fraud/check/route.ts:33 | A stored amount that is not a number contributes 0 to the total but still counts in the mean's divisor. The rule decides as if that row held 0. |
| FraudCheck.MissingBeneficiaryNeverFlags | app/api/fraud/check/route.ts:41 | An absent or empty `beneficiaryId` never raises `new_beneficiary` and never makes the request invalid. |
| FraudCheck.MissingFieldIsError | app/api/fraud/check/route.ts:7-8 | A missing or empty `userId`, or a missing `amount`, gives the validation error whatever the history. |
| FraudCheck.VelocityBoundary | app/api/fraud/check/route.ts:22-23 | Five recent transactions fire the velocity rule and four do not. A failed query counts as none. |
| FraudCheck.AnomalyBoundary | app/api/fraud/check/route.ts:35 | With mean 100, the amount 500 does not fire the rule, 501 does, and 0 never does. |
| FraudCheck.BeneficiaryBoundary | app/api/fraud/check/route.ts:47-49 | A beneficiary one hour old with amount 1500 fires the rule; with amount 1000 it does not. One 25 hours old, a record without a creation time, or no record never fires it. |
| FraudCheck.ExampleVelocityOnly | app/api/fraud/check/route.ts:14-57 | Six recent transactions, mean 200, amount 250 and no beneficiary give `[high_velocity]`, score 0.30, safe. |
| FraudCheck.ExampleThresholdIsUnsafe | app/api/fraud/check/route.ts:35-56 | Mean 100, amount 1200 and a beneficiary two hours old give `[amount_anomaly, new_beneficiary]`, score 0.70, not safe. |
| FraudCheck.ExampleYoungBeneficiarySmallAmount | app/api/fraud/check/route.ts:49 | The same history with amount 600 gives only `[amount_anomaly]`, because 600 is not over 1000. |
| TransactionStore.RecentQuery | app/api/fraud/check/route.ts:15-20 | The velocity query returns one row per transaction of the user created at or after the window start, and returns every such transaction. |
| TransactionStore.AmountsQuery | app/api/fraud/check/route.ts:29-33 | The history query returns one amount per transaction of the user: each stored amount occurs in the result exactly as often as the user has transactions with that amount. Its coerced total equals the table's coerced sum over the user's rows. |
| TransactionStore.BeneficiaryQuery | app/api/fraud/check/route.ts:42-46 | `maybeSingle()` yields the record iff exactly one beneficiary has the id, and that record's creation time. |
| TransactionStore.VelocityOverSnapshot | app/api/fraud/check/route.ts:15-26 | `high_velocity` is raised iff the query succeeds and the user has at least five transactions created no earlier than one hour before `now`. |
| TransactionStore.BeneficiaryOverSnapshot | app/api/fraud/check/route.ts:41-53 | `new_beneficiary` is raised iff all of these hold: the request names a beneficiary; the query succeeds; exactly one record has that id; its creation time is known and less than 24 hours before `now`; and the amount is over 1000. |
| TransactionStore.AnomalyOverSnapshot | app/api/fraud/check/route.ts:29-38 | `amount_anomaly` is raised iff the history query succeeds, the user has transactions, the mean of their coerced amounts is positive, and the amount exceeds five times that mean. |
| TransactionStore.WindowBoundary | app/api/fraud/check/route.ts:15-20 | The window's lower bound is inclusive: a transaction exactly one hour old counts. One a millisecond older does not, nor does another user's. |
| Embedding.Fit | lib/gemini.ts:33-40 | The stored vector has exactly 1536 entries. Each entry equals the service's entry at that position where there is one, and is 0 elsewhere. |
| Embedding.Normalize | lib/gemini.ts:31-40 | The route's three branches give a vector of length 1536: unchanged at 1536, zero-padded with the input as prefix when shorter, and the first 1536 entries when longer. All three agree with `Fit`. |
| Embedding.PseudoEmbedding | lib/gemini.ts:22-25 | The stand-in vector has 1536 entries, each in [0, 1). |
| Embedding.GenerateEmbedding | lib/gemini.ts:21-41 | The result has 1536 entries. It is the stand-in without an API key, otherwise the fitted service vector. |
| Embedding.FitIdempotent | lib/gemini.ts:33-40 | Normalising a stored vector again changes nothing. |
| Embedding.FitPadRoundTrip | lib/gemini.ts:34-37 | A vector of at most 1536 entries is recovered as the prefix of its padded form. |
| Embedding.FitIgnoresTail | lib/gemini.ts:40 | Entries past position 1536 never affect the stored vector. |
| Advisor.ModelsToTry | lib/gemini.ts:55 | Five models are tried. The first is the configured model when set and non-empty, otherwise `gemini-1.5-flash-latest`. |
| Advisor.Classify | lib/gemini.ts:69-79 | An outcome gives an answer iff it is text that is not all whitespace, and the answer is the trimmed text. It stops the loop iff it is an error whose `status`, or failing that `response.status`, is at least 500. |
| Advisor.RunModels | lib/gemini.ts:56-81 | Every outcome before the last one consumed continued the loop. The last one consumed supplied the answer, or was a server error, or was the final outcome. The number of models called never exceeds the list. |
| Advisor.GenerateAnswer | lib/gemini.ts:43-83 | Without an API key the result is the fallback answer. With one, it is the answer where the loop stops (the first non-blank trimmed text before any server error), or the fallback answer when the loop stops on a server error or runs out of models. The fallback answer is the corrected fallback lookup; see Findings. |
| Advisor.GenerateAnswerFirstWins | lib/gemini.ts:56-70 | With an API key, if every earlier model continued, the first model with non-blank text supplies the answer: its trimmed text. |
| Advisor.GenerateAnswerServerErrorFallsBack | lib/gemini.ts:73-83 | With an API key, a server error before any answer gives the language's fallback answer. |
| Advisor.GenerateAnswerExhaustedFallsBack | lib/gemini.ts:56-83 | When every model fails softly or returns blank text, the answer is the language's fallback answer, with or without an API key. |
| Advisor.FirstAnswerWins | lib/gemini.ts:69-70 | If every earlier model continued, the first model with non-blank text supplies its trimmed text, after exactly that many calls. |
| Advisor.ServerErrorStops | lib/gemini.ts:73-78 | A server error after models that all continued ends the loop with no answer. No later model is called, and later outcomes make no difference. |
| Advisor.AllSoftFailuresExhaust | lib/gemini.ts:56-82 | When every model fails softly or returns blank text, all are called and the fallback is used. |
| Advisor.ExampleFallsThroughToThirdModel | lib/gemini.ts:56-80 | A 404, then an empty reply, then text gives the third model's text after three calls. The later 503 is never reached. |
| Advisor.LookupOrEnglish | lib/gemini.ts:116 | The table's entry for a language with a non-empty own entry, English for every other key. |
| Advisor.SystemPrompt | lib/gemini.ts:85-106 | Corrected lookup; see Findings. The prompt for `hi`, `en`, `ta`, `te` or `bn`, and the English prompt for any other language key. |
| Advisor.FallbackAnswer | lib/gemini.ts:108-117 | Corrected lookup; see Findings. The canned answer for the five table languages, and the English answer for any other key. |
| Advisor.LookupAsWritten | lib/gemini.ts:105 | The lookup as written: an own non-empty entry, else an inherited `Object.prototype` member when the key names one, else English. |
| Advisor.AsWrittenAgreesOffPrototype | lib/gemini.ts:116 | For every key that does not name an inherited member, the written lookup and the corrected lookup agree. |
| Advisor.InheritedKeyEscapesTable | lib/gemini.ts:105 | The language `toString` (or `constructor`) makes the written lookup return an inherited member where English was intended. The corrected lookup returns English. |
| Auth.AccessToken | lib/auth.ts:11-18 | A header that starts with `bearer ` in any case yields the header minus its first seven characters, even when that is empty, and takes precedence over the cookie. Otherwise the result is a non-empty cookie, or nothing. |
| Auth.BearerRoundTrip | lib/auth.ts:13-15 | Any case spelling of `Bearer ` followed by a token gives that token back, whatever the cookie holds. |
| Auth.NonBearerFallsThrough | lib/auth.ts:13-17 | A header that is not a bearer header is ignored; the result is what the cookie alone gives. |
| Auth.NoBearerNoCookie | lib/auth.ts:16-17 | With no bearer header and a missing or empty cookie, there is no token. |
| Auth.AuthenticatedUser | lib/auth.ts:21-46 | A non-empty token that the configured provider verifies gives that user, before dummy auth is considered. Any other user comes from dummy auth. There is no user iff neither applies. The dummy user's id is `DUMMY_AUTH_USER_ID` when non-empty, else `demo-user-0001`; its e-mail is `DUMMY_AUTH_EMAIL` when non-empty, else `tech4earthh@adapt.demo`. |
| Auth.DummyUserDefaults | lib/auth.ts:38-45 | Dummy auth with flag exactly `true` and no overrides gives `demo-user-0001` with the default e-mail. The flags `TRUE` and `1` give no user. |
| Auth.VerifiedBearerWins | lib/auth.ts:22-31 | A bearer token the provider verifies authenticates its user, whatever the cookie and dummy-auth settings. |
| RouteGuard.Set | middleware.ts:39-41 | Setting a query parameter makes its first value the new one and leaves exactly one pair of that name. All pairs of other names are kept, in order. |
| RouteGuard.Guard | middleware.ts:4-46 | A redirect goes to `/sign-in`. Its `redirectedFrom` is the original path, and the other query parameters are kept. A rejection is status 401 with `Unauthorized`. |
| RouteGuard.CallbackAlwaysPasses | middleware.ts:8-10 | `/auth/callback` passes whatever the auth state. |
| RouteGuard.UnprotectedIgnoresUser | middleware.ts:12-13 | A path outside the three protected prefixes passes, and the decision does not depend on the user. |
| RouteGuard.SignedInPasses | middleware.ts:35-45 | With a user, every path passes. |
| RouteGuard.SignedOutOutcome | middleware.ts:35-42 | A signed-out request for a protected path gets 401 iff the path is under `/api/credit` or `/api/advisor`. It is redirected iff the path is under `/home`. |
| RouteGuard.RedirectCarriesPath | middleware.ts:39-42 | A signed-out request for a `/home` page with no query string goes to `/sign-in?redirectedFrom=<path>`. |
| RouteGuard.PrefixNotSegment | middleware.ts:12 | Protection is a raw prefix test: `/homework` and `/api/creditors` are protected, `/Home` is not. |

## Left out

- The database client, the generative-AI SDK, `console` logging and environment reads are foreign I/O. Their results are parameters: whether the database admin client exists (`clientConfigured`, `providerConfigured`), `History`, `Snapshot` and `Reachability`, the model `Outcome` list, `Verification`, `DummyEnv`, API key and model options, and the `signedIn` flag.
- FraudCheck.Evaluate: both `Date.now()` reads of the route (the window start and the beneficiary age) are one `now` parameter; the milliseconds that pass between the two reads are not modelled.
- FraudCheck.Evaluate: amounts are whole numbers, not doubles. A request `amount` that is not a number (a string, say, which JavaScript comparisons would coerce) and a non-string `userId` are not modelled.
- FraudCheck.AnomalyFires: the mean and the comparison are exact. The double rounding of `sum / length` and `5 * avg` could decide differently for non-integer or very large amounts at the exact boundary.
- FraudCheck.Score: the score is exact hundredths. For the weights used, the route's double accumulation and `toFixed(2)` give the same values and the same `< 0.7` outcome; that is argued in the module comment, not proved.
- Timestamps are integer milliseconds. ISO-8601 formatting of the window start and parsing of `created_at` are left out. A `created_at` that does not parse is `None`, which decides the same, because a `NaN` age fails the comparison.
- Embedding.GenerateEmbedding: only a successful service call is modelled. When the embedding call rejects, or its reply has no `embedding.values`, the source rejects too (there is no catch), and the model has no error result for that.
- Embedding.PseudoEmbedding: entries are exact rationals `((i * 31) mod 997) / 997`; the doubles the source computes are rounded versions of them.
- The user prompt text and the generation settings (temperature, token limit) only feed the external call, so they are not modelled.
- JsText.StartsWithIgnoringCase: only ASCII letters are lowered. That decides `toLowerCase().startsWith("bearer ")` exactly, because no other character lowers into that prefix.
- The session-cookie refresh that the middleware wires into the auth client (`setAll`) is provider plumbing and is left out. The framework's `config.matcher` is interpreted by the framework, not by this code.
- The session-cookie route, the forms route, the sign-in page, the dashboard component and the client-side user hook are UI or provider plumbing with no decision logic. They are not part of this model.

## Findings

| source | as written | input that shows it | evidently intended | confidence | as-written member | corrected member |
|---|---|---|---|---|---|---|
| lib/gemini.ts:105 | `prompts[language]` and `answers[language]` index object literals, so keys naming `Object.prototype` members return that inherited function or object, which is truthy and wins over the English entry | language `"toString"` (also `"constructor"`, `"__proto__"`, ...) | every language key not in the table falls back to English, as `getFallbackAnswer`'s and `getSystemPrompt`'s English default shows | medium; not executed (the language reaches these functions from callers that are not part of this model) | Advisor.InheritedKeyEscapesTable | Advisor.LookupOrEnglish |
