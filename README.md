# OpenAI API validator: the probe-and-classify rule

The page in `src/App.js` checks whether a chat-completion endpoint looks like
an official deployment. `validateApi` sends three identical requests to it,
all built by `sendApiRequest`. It then looks for a `system_fingerprint` key in
each response body and stores one of three results:

- official (`官方 API`, valid) when every body has the key;
- reversed (`逆向 API`, invalid) when none has it;
- mixed (`掺假 API`, invalid) otherwise.

If anything inside the `try` block throws, it stores a failure
(`请求失败: ` followed by the error message) instead.

This Dafny project models that rule and the two pieces of page state around
it (`loading` and `result`):

- `requests.dfy` (module `Requests`): the request descriptor and the batch of probes.
- `promise_all.dfy` (module `PromiseAll`): `Promise.all` over the probes. The
  order in which the requests settle is a parameter; it lists only the
  requests that have settled, so a request that never answers is simply
  absent from it. The join resolves once every request has settled or one of
  them has been rejected. The reported rejection is the first one in settle
  order. Fulfilled data is collected in issue order.
- `json.dfy` (module `JsonValues`): the value axios leaves in `r.data`.
- `classification.dfy` (module `Fingerprint`): the fingerprint projection, the
  if/else classification, and a counting reference definition it is proved
  against.
- `validator.dfy` (module `Validator`): `Validate`, the whole rule as a
  function of the settled requests; the class `App` with `loading` and
  `result`, where `Begin` is the part before the `await` and `Finish` the part
  after it; and the concrete scenarios.
- `wrappers.dfy`: `Option` and `Result`.

The network is a parameter. `ValidateApi` returns the requests it issues and
takes the outcomes of those requests (`Fulfilled(data)` or
`Rejected(message)`) together with the order in which they settled.

Behaviour the code has that a plain reading might miss:

- With an empty sequence of booleans, both `every` tests hold. The official
  branch wins only because it is tested first (`EmptyIsOfficial`). The page
  always sends three requests, so this case never arises there; `ClassifyReversed`
  needs a non-empty sequence for that reason.
- A body that is not valid JSON is not a request failure. Axios leaves it as
  a string. `'system_fingerprint' in r.data` then throws a TypeError inside
  the `try`, so the stored result is still a failure, carrying the
  TypeError's message. The same happens for a JSON body that is `null`, a
  boolean or a number. An array body has no such key and counts as "absent".
- A rejected request takes precedence over a primitive body, because the
  fingerprint test runs only after the join has succeeded.

## Model

| member | source | states |
|---|---|---|
| `Requests.SendApiRequest` | src/App.js:36-51 | the descriptor's URL is the base URL followed by `/v1/chat/completions`, and the base can be recovered from it; the headers are exactly `Content-Type: application/json` and `Authorization`, whose value is `Bearer ` followed by the key, which can be recovered from it; the body is the fixed prompt `写一个10个字的笑话` with seed 1 and model `gpt-4o-mini` |
| `Requests.RequestInjective` | src/App.js:38-47 | two descriptors are equal iff built from the same base URL and key: the URL is not normalised, so a trailing slash gives a different endpoint |
| `Requests.ProbeBatch` | src/App.js:16 | the batch has exactly `n` descriptors |
| `Requests.ProbeBatchIdentical` | src/App.js:16 | every descriptor in a batch is the same descriptor for that base and key |
| `PromiseAll.FirstRejection` | src/App.js:16 | no message iff every request named in the settle order was fulfilled; otherwise the message of a rejection with only fulfilled requests settled before it |
| `PromiseAll.JoinAll` | src/App.js:16 | once the join has resolved: success iff every request was fulfilled, and then the data of every request in issue order; otherwise the message of some rejected request |
| `PromiseAll.PendingWithoutRejection` | src/App.js:16 | while some request has not settled and none of those that settled was rejected, the join has not resolved |
| `PromiseAll.AllSettledResolves` | src/App.js:16 | once all the requests have settled, in any order, the join has resolved, whatever they returned |
| `PromiseAll.JoinAllSuccessIgnoresOrder` | src/App.js:16 | with no rejection, the joined data does not depend on the settle order |
| `PromiseAll.SoleRejectionReported` | src/App.js:16 | with exactly one rejection, its message is the one reported whatever the settle order |
| `Fingerprint.InOperatorError` | src/App.js:18 | the TypeError thrown by `in` on a primitive body: V8's fixed text naming `system_fingerprint`, followed by the body's value as text |
| `Fingerprint.HasFingerprint` | src/App.js:18 | the `in` test succeeds iff the body is an object or array; its value is true iff the body is an object with the key |
| `Fingerprint.PresenceIgnoresValue` | src/App.js:18 | a body with the key counts as present whatever the value, `null` included |
| `Fingerprint.OtherKeysIgnored` | src/App.js:18 | adding or removing any other key does not change the answer |
| `Fingerprint.Fingerprints` | src/App.js:18 | success iff every body is an object or array, and then one boolean per body with each the answer of the `in` test for it; otherwise the TypeError of the first primitive body |
| `Fingerprint.AllHaveFingerprint` | src/App.js:19 | `every(Boolean)` holds iff no boolean is false |
| `Fingerprint.NoneHaveFingerprint` | src/App.js:20 | `every(result => !result)` holds iff no boolean is true |
| `Fingerprint.Classify` | src/App.js:22-28 | the result is valid iff every boolean is true |
| `Fingerprint.CountPresentAll` | src/App.js:19 | the count of present bodies equals the length iff `every(Boolean)` holds |
| `Fingerprint.CountPresentNone` | src/App.js:20 | the count of present bodies is zero iff `every(result => !result)` holds |
| `Fingerprint.CountPresentIsMultiplicity` | src/App.js:18-20 | the count of present bodies is the multiplicity of `true` |
| `Fingerprint.ClassifyByCount` | src/App.js:19-28 | the classification equals the verdict computed from the number of present bodies alone: official when all, reversed when none, mixed otherwise |
| `Fingerprint.ClassifyPermutationInvariant` | src/App.js:18-28 | permuting the booleans does not change the result |
| `Fingerprint.ClassifyOfficial` | src/App.js:19-23 | the result is `{true, 官方 API}` iff every boolean is true |
| `Fingerprint.ClassifyReversed` | src/App.js:20-25 | on a non-empty sequence the result is `{false, 逆向 API}` iff every boolean is false |
| `Fingerprint.ClassifyMixed` | src/App.js:26-27 | the result is `{false, 掺假 API}` iff one boolean is true and another false |
| `Fingerprint.ClassifyExactlyOne` | src/App.js:22-28 | every sequence gets exactly one of the three verdicts |
| `Fingerprint.EmptyIsOfficial` | src/App.js:19-23 | on no responses both tests hold and the result is the official one |
| `Fingerprint.ThreeProbePatterns` | src/App.js:16-28 | of the eight patterns of three booleans, only all-true is official, only all-false is reversed, and the other six are mixed |
| `Fingerprint.Failed` | src/App.js:29-30 | the failure record is invalid, its reason starts with `请求失败: `, and the error message can be read back after that prefix |
| `Fingerprint.ReportInjective` | src/App.js:23-30 | the three verdict records differ from each other and from every failure record |
| `Validator.Validate` | src/App.js:15-31 | the stored record is either one of the three verdict records or a failure record, and it is valid iff every request was fulfilled with a body that has the key |
| `Validator.ValidateRejected` | src/App.js:16-30 | if any request is rejected, the result is a failure carrying the message of some rejected request, and it is none of the verdicts |
| `Validator.ValidateNonObject` | src/App.js:18-30 | if all requests are fulfilled but some body is a primitive, the result is the failure for the TypeError of the first such body |
| `Validator.ValidateOfficial` | src/App.js:16-23 | every body has the key: `{true, 官方 API}` |
| `Validator.ValidateReversed` | src/App.js:16-25 | every body is an object or array and none has the key: `{false, 逆向 API}` |
| `Validator.ValidateMixed` | src/App.js:16-27 | every body is an object or array, one has the key and one has not: `{false, 掺假 API}` |
| `Validator.ValidatePermutationInvariant` | src/App.js:16-28 | when every body is an object or array, reordering the responses does not change the result |
| `Validator.ValidateIgnoresSettleOrder` | src/App.js:16-28 | without a rejection the result does not depend on the settle order, so repeating the attempt with the same responses gives the same result |
| `Validator.App.constructor` | src/App.js:6-9 | initial state: no result, not loading, inputs as given |
| `Validator.App.Begin` | src/App.js:12-16 | loading is set and the result cleared; exactly three descriptors, all `sendApiRequest`'s for the current base and key, are issued |
| `Validator.App.Finish` | src/App.js:15-33 | once the join has resolved, loading is cleared and the result is set to `Validate` of the outcomes |
| `Validator.App.ValidateApi` | src/App.js:11-34 | an attempt whose join resolves ends with loading cleared and a result stored, equal to `Validate` of the outcomes of the three requests it issued |
| `Validator.ScenarioAllFingerprinted` | src/App.js:16-23 | once all three have settled, in any order, the join has resolved and three bodies with `system_fingerprint: "fp_123"` give `{true, 官方 API}` |
| `Validator.ScenarioNoneFingerprinted` | src/App.js:16-25 | once all three have settled, the join has resolved and three bodies without the key give `{false, 逆向 API}` |
| `Validator.ScenarioMixed` | src/App.js:16-27 | once all three have settled, the join has resolved and with, without, with gives `{false, 掺假 API}` |
| `Validator.ScenarioSecondFails` | src/App.js:16-30 | as soon as the second request has failed, the join has resolved, whether or not the others have settled, and the result is `请求失败: ` followed by its message, whatever the other two returned |

## Left out

- The JSX, the Tailwind classes, the `Helmet` metadata and the valid/invalid banner (src/App.js:53-108): presentation only.
- The input handlers that edit `apiBaseUrl` and `apiKey` (src/App.js:74, 87) are part of the JSX. The constructor takes the values the inputs hold.
- The HTTP transport (axios, status codes, timeouts, TLS): every failure it reports is an abstract `Rejected(message)`.
- JSON parsing and the serialisation of the request body: a response is the already-parsed value, and the body is a structured value.
- JSON numbers are integers, and `PrimitiveToString` writes every integer in plain decimal. JavaScript does not always do so. A body holding a fractional number, an integer of 21 or more digits (printed as `1e+21`), or an integer above 2^53 (which `JSON.parse` rounds) therefore gets a different TypeError text in the model. Only that text differs; the result is a failure either way.
- The TypeError message uses V8's wording (`Cannot use 'in' operator to search for 'system_fingerprint' in …`). Other JavaScript engines word it differently; no lemma depends on the wording.
- JavaScript's `in` also finds inherited properties. No parsed JSON object inherits `system_fingerprint`, so only own keys are modelled.
- `Promise.all` concurrency and timing: the settle order is a parameter. No lemma names which rejection wins except when there is just one.
- React's `useState` scheduling: the state fields are updated directly, in the order the calls are made.
- Validator.App.Begin: requires `!loading`. The source does not test this itself; the disabled button (src/App.js:93) keeps a second attempt from starting while one is in flight.
- Validator.App.ValidateApi: requires `!loading`, for the same reason.
- Validator.App.ValidateApi: requires the join to resolve (every request settled, or one rejected). The requests at src/App.js:37-50 set no timeout. If one request never answers and none is rejected, the `await` at line 16 never resumes. Loading then stays on and the result stays empty, which is the state `App.Begin` leaves, and the button stays disabled (`PromiseAll.PendingWithoutRejection`).
- Attempts are synchronous: the awaited interval is the gap between `App.Begin` and `App.Finish`.
