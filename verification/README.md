# api-mock: the failure-injection engine, in Dafny

api-mock is an HTTP mock server that fails requests on a fixed cadence.
It holds a request counter. With success ratio `r` it computes a period
`k = int(1/(1-r))`, and a request fails exactly when the counter is a
multiple of `k`. A single mock request answers with the configured
failure or success code and body. A batch request decodes a list of
items and answers each one in order. Each item is decided at the current
counter, and the counter is incremented after the item has been
answered.

The model covers:

- `Mock` (r_mock.dfy):
  - `ShouldFail` and its periodicity.
  - The `Service` class, which owns `reqCounter`.
  - `HandleMock`, whose answer is chosen by `ShouldFail` at the current
    counter. `ServeMock` (the middleware followed by `HandleMock`) is
    stated through `ChosenProfile`.
  - `HandleBatchMock`, together with its loop method `AnswerItems`,
    proved against the pure specification `BatchResults`.
  - The counter middleware (`IncReqCounter`, `ServeMock` and
    `ServeBatchMock`).
- `ConfigLoader` (config.dfy) and `SvcConfigLoader` (service_config.dfy)
  model the two loaders of the configuration from the environment. Each
  has two parts:
  - A specification function (`LoadConfig` or `LoadSvcConfig`), written
    as one chain of checks.
  - An imperative `LoadConfigFromEnv` that fills the fields step by step
    with early returns. It is proved equal to that function.

  Both parts apply the ratio and delay checks exactly as the Go code
  writes them. So a ratio that parses to NaN is accepted and kept, and the
  delay is stored as the wrapped 64-bit nanosecond product. A separate
  `LoadConfigCorrected` / `LoadSvcConfigCorrected` applies the corrected
  checks (see "## Findings"). Lemmas prove that the two loaders agree
  whenever the ratio does not parse to NaN and the delay's nanosecond
  product fits in int64. Other lemmas show concrete inputs at which they
  differ.
- `EnvVars` (env.dfy) holds what both loaders share:
  - `strings.Split`.
  - `stringSliceContains`, which is a loop.
  - The method whitelist.
  - The success-ratio check.
- `Authn` (authn.dfy) models the API-key and bearer-token decisions.
- `Api` (api.dfy) models the wire types, `MakeHTTPErrorResponse`, the
  error codes, and the JSON shapes the types serialise to.
- `Json` (json.dfy) and `Wrappers` (wrappers.dfy) are supporting value
  types.

The foreign calls are parameters of the model: `strconv.Atoi`,
`strconv.ParseFloat`, `json.Unmarshal`, `json.Marshal` and
`url.ParseQuery`. Each is a function that returns `None` on error. Atoi's
results are 64-bit (`Int64`), as Go's `int` is on a 64-bit platform. Two
inputs are plain value parameters of `HandleBatchMock`: the result of
`io.ReadAll` (`body: Option<string>`, `None` for a read error) and the log
ID that the logger returns.

How the counter moves:

- In a batch, an item is decided at the counter before its own
  increment.
- A marshal error skips both the append and the increment, so a skipped
  item consumes no counter value.
- The counter middleware also wraps the batch route. A served batch
  therefore advances the counter by 1 + the number of results
  (`ServeBatchMock`).
- The mutex is held across the whole downstream handler, not only
  across the increment. This is why a sequential field models the
  counter faithfully.

## Model

| member | source | states |
|---|---|---|
| Mock.ShouldFail | internal/service/r_mock.go:99-103 | a request fails exactly when the counter is a whole multiple of the period |
| Mock.ZeroAlwaysFails | internal/service/r_mock.go:99-103 | counter 0 fails for every period |
| Mock.ShouldFailPeriodic | internal/service/r_mock.go:102 | the outcome at `c + k` equals the outcome at `c` |
| Mock.PeriodFiveExample | internal/service/r_mock.go:99-103 | with k = 5 (ratio 0.8), among counters 1..10 exactly 5 and 10 fail |
| Mock.FailuresUpToIsQuotient | internal/service/r_mock.go:102 | among counters 1..n exactly `n / k` fail, one failure per period |
| Mock.DivStep | internal/service/r_mock.go:102 | from n - 1 to n the number of completed periods grows by one exactly when n is a multiple of k |
| Mock.ChosenProfile | internal/service/r_mock.go:33-40 | at a multiple of k the failure code and body are chosen, and otherwise the success code and body |
| Mock.BadBodyResponse | internal/service/r_mock.go:49-66 | status 400 with the error content "body parsing error", `CodeInvalidBody` (the literal 1001) and the log ID |
| Mock.DecodeBatchBody | internal/service/r_mock.go:48-66 | no items when the body cannot be read or form-parsed; otherwise the JSON decode of the `batch` field |
| Mock.ItemResult | internal/service/r_mock.go:71-89 | an item gets a result exactly when the chosen body serialises; the result carries the chosen code and the serialised body |
| Mock.BatchResults | internal/service/r_mock.go:68-91 | a batch never has more results than items |
| Mock.BatchResultsStep | internal/service/r_mock.go:69-91 | one loop step: item i is answered at the current counter, or skipped with the counter left as it was |
| Mock.BatchResultsAdvance | internal/service/r_mock.go:69-91 | the loop's accumulator plus the rest of the batch stays equal to the whole batch, across a skip and across an append-then-increment |
| Mock.BatchResultsInOrder | internal/service/r_mock.go:68-91 | when both bodies serialise, there is one result per item, in input order, and result j is the profile chosen at counter c + j |
| Mock.SkipIsSticky | internal/service/r_mock.go:73-75 | once an item is skipped, the unchanged counter makes every later item skip too, so the rest of the batch is empty |
| Mock.BatchIgnoresItemContents | internal/service/r_mock.go:69-71 | the results depend only on how many items there are, never on their fields |
| Mock.Service.Make | internal/service/service.go:71-75 | the new service holds the given config, and its counter is 0 |
| Mock.Service.IncReqCounter | internal/service/r_mock.go:18-27 | the counter rises by exactly 1 |
| Mock.Service.HandleMock | internal/service/r_mock.go:31-41 | the failure code and body when `ShouldFail` holds at the current counter, otherwise the success code and body, both unchanged; the counter is only read |
| Mock.Service.HandleBatchMock | internal/service/r_mock.go:45-95 | a body that cannot be read, form-parsed or JSON-decoded gets 400 with "body parsing error", code 1001 and the log ID, and the counter does not move; otherwise status 200 with `BatchResults` at the old counter, and the counter rises by the number of results |
| Mock.Service.AnswerItems | internal/service/r_mock.go:68-91 | the loop computes exactly `BatchResults` from the old counter, and the counter rises by the number of results appended |
| Mock.Service.ServeMock | internal/service/r_mock.go:18-41 | one increment, then the profile chosen at the incremented counter |
| Mock.Service.ServeBatchMock | internal/service/r_mock.go:18-27 | one increment for the HTTP request, then the batch decided from the incremented counter; a decode error leaves old + 1, and a decoded batch leaves old + 1 + the number of results |
| Mock.ThreeRequestsScenario | internal/service/r_mock_test.go:59-115 | with ratio 0.5 and one increment before each call, three requests give 200, 400, 200 |
| Mock.BatchScenario | internal/service/r_mock_test.go:238-244 | with ratio 0.5, a two-item batch on a fresh service gives `[200 {"success":true}, 400 {"success":false}]` and leaves the counter at 3 |
| EnvVars.Getenv | internal/service/config.go:43-44 | an unset variable reads as "" |
| EnvVars.Split | internal/service/config.go:140 | `strings.Split` gives at least one piece, and no piece contains the separator |
| EnvVars.JoinSplit | internal/service/config.go:150 | joining the pieces of a split gives back the original string |
| EnvVars.SplitJoin | internal/service/config.go:150 | splitting a join of separator-free pieces gives back the pieces, in order |
| EnvVars.SplitExample | internal/service/service.go:172-175 | "/foo,/bar" splits into ["/foo", "/bar"] |
| EnvVars.ListVar | internal/service/service.go:172-175 | an unset list is empty; a set list's pieces join back to the variable and contain no comma |
| EnvVars.StringSliceContains | internal/service/service.go:220-227 | true exactly when `e` is an element of `s` |
| EnvVars.StringSliceContainsExamples | internal/service/config.go:157-164 | "two" is found in ["one","two","three"], and "four" is not |
| EnvVars.FirstDisallowed | internal/service/config.go:141-145 | none exactly when every method is allowed; a result is a listed method that is not allowed |
| EnvVars.FirstDisallowedAt | internal/service/config.go:141-145 | the reported method is the first disallowed one |
| EnvVars.FindDisallowed | internal/service/config.go:141-145 | the validation loop, calling `stringSliceContains` on each method in turn, returns exactly `FirstDisallowed` |
| EnvVars.MethodsVar | internal/service/config.go:137-146 | accepted methods are the comma-split METHODS, accepted exactly when all are allowed; an error names the first listed verb that is not allowed |
| EnvVars.IntVar | internal/service/config.go:51-59 | the default when unset; an error naming the variable exactly when Atoi refuses a set value; otherwise Atoi's value |
| EnvVars.BodyVar | internal/service/config.go:84-89 | the default when unset; an error naming the variable exactly when a set value does not decode; otherwise the decoded value |
| EnvVars.RatioRejectedAsWritten | internal/service/config.go:112-114 | the written check lets through exactly NaN and the finite ratios in (0, 1] |
| EnvVars.NaNRatioAcceptedAsWritten | internal/service/config.go:112-114 | the written ratio check does not reject a parsed NaN |
| EnvVars.RatioValue | internal/service/config.go:110-118 | the corrected check accepts only a finite ratio in (0, 1] |
| EnvVars.RatioCheckAgreesExceptNaN | internal/service/config.go:113 | the corrected and the written check agree on every input except NaN |
| EnvVars.RatioVar | internal/service/service.go:132-140 | unset gives 1.0; a set value is accepted exactly when the written check lets its parse through, and is then stored as parsed (NaN or a finite value in (0, 1]); an error is `InvalidRatio` |
| EnvVars.RatioVarCorrected | internal/service/config.go:110-118 | under the corrected check, a set value is accepted exactly when it parses to a finite ratio in (0, 1], and is stored as parsed; unset gives 1.0 |
| EnvVars.RatioVarsAgree | internal/service/service.go:132-140 | unless the variable parses to NaN, the written and the corrected reading give the same result |
| EnvVars.NaNRatioRead | internal/service/service.go:134-136 | a ratio that parses to NaN is kept as written and refused by the corrected reading |
| ConfigLoader.Wrap64 | internal/service/config.go:68 | the int64 wrap lands in the signed 64-bit range and is congruent to its argument modulo 2^64 |
| ConfigLoader.Wrap64InRange | internal/service/config.go:68 | a value that is already in range is unchanged by the wrap |
| ConfigLoader.DelayTooLongAsWritten | internal/service/config.go:68-69 | where the nanosecond product does not overflow, the written check is exactly "more than 30000 ms" |
| ConfigLoader.WrappedDelayAcceptedAsWritten | internal/service/config.go:68-69 | as written, 18446744073710 ms wraps to 448384 ns and passes the 30 s check |
| ConfigLoader.NegativeWrapAcceptedAsWritten | internal/service/config.go:68-69 | as written, 9223372036855 ms wraps to -2^63 + 224192 ns and passes the 30 s check |
| ConfigLoader.DelayCheckSpec | internal/service/config.go:68-71 | the corrected check is the exact "more than 30 s" test on the unwrapped nanosecond product |
| ConfigLoader.DelayVar | internal/service/config.go:61-72 | unset gives 0; an accepted delay is the wrapped 64-bit nanosecond product of the milliseconds and at most 30 s (it can be negative); a value Atoi refuses gives `InvalidInt("RESP_DELAY")`; a parsed value is accepted exactly when the written check passes, and otherwise gives the too-long error |
| ConfigLoader.DelayVarCorrected | internal/service/config.go:61-72 | under the corrected check, a parsed delay is accepted exactly when it is at most 30000 ms, and is stored as the exact nanosecond product; a longer one gives the too-long error |
| ConfigLoader.DelayVarsAgree | internal/service/config.go:68-69 | wherever the product does not overflow, the written and the corrected delay readings agree |
| ConfigLoader.LoadConfig | internal/service/config.go:40-154 | both credentials set is refused first; an accepted config holds every parsed variable or its default, credentials not both set, a delay of at most 30 s as a wrapped Duration, a ratio that is NaN or in (0, 1], allowed methods split in order, and sub-routes split in order |
| ConfigLoader.LoadConfigOk | internal/service/config.go:40-154 | when every stage succeeds, the loader returns the config built from those stages |
| ConfigLoader.LoadConfigFromEnv | internal/service/config.go:40-154 | the step-by-step loader with early returns, with the checks as written, gives exactly `LoadConfig`: the same config or the same first error |
| ConfigLoader.LoadConfigCorrected | internal/service/config.go:61-118 | with the corrected checks, an accepted delay is the exact product and at most 30 s, and an accepted ratio is finite and in (0, 1] |
| ConfigLoader.CorrectedLoaderAgrees | internal/service/config.go:40-154 | when the ratio does not parse to NaN and the delay's nanosecond product fits in int64, the corrected loader gives exactly the result of the written one |
| ConfigLoader.NaNRatioLoadedAsWritten | internal/service/config.go:110-118 | SUCCESS_RATIO=NaN loads with ratio NaN as written, and is refused by the corrected loader |
| ConfigLoader.WrappedDelayLoadedAsWritten | internal/service/config.go:61-72 | RESP_DELAY=18446744073710 loads with a 448384 ns delay as written, and is refused by the corrected loader |
| ConfigLoader.BothCredentialsRejectedFirst | internal/service/config.go:42-49 | both credentials set is refused with `BothCredentials`, whatever else is set |
| ConfigLoader.DefaultConfig | internal/service/config.go:57-135 | the empty environment gives 8080, 400, nil failure body, 200, `{"success":true}`, 1.0, 1000 and nil rate-exceeded body, with no delay or lists |
| ConfigLoader.MalformedIntRejected | internal/service/config.go:51-128 | a set PORT, RESP_DELAY, code or RATE_LIMIT that Atoi refuses gives an error |
| ConfigLoader.MalformedBodyRejected | internal/service/config.go:84-135 | a set body that does not decode gives an error |
| ConfigLoader.RatioOutOfRangeRejected | internal/service/config.go:110-115 | a finite ratio outside (0, 1] gives an error |
| ConfigLoader.RatioTwoRejected | internal/service/config.go:110-115 | "2.0" gives `InvalidRatio` |
| ConfigLoader.DisallowedMethodRejected | internal/service/config.go:137-146 | any listed method outside the whitelist (exact, case-sensitive match) gives an error |
| EnvVars.MethodErrorIsFirst | internal/service/config.go:141-143 | when every method before position i is allowed and the one at i is not, the error names the method at i |
| ConfigLoader.MethodErrorNamesOffender | internal/service/config.go:141-143 | a method error names a method that was listed and is not allowed |
| ConfigLoader.InRangeValuesLoad | internal/service/config.go:61-118 | SUCCESS_RATIO=0.5 loads as 0.5, and RESP_DELAY=500 loads as 0.5 s in nanoseconds |
| ConfigLoader.DelayBoundary | internal/service/config.go:61-72 | 30000 ms is accepted as 30 s in nanoseconds, 30001 ms is refused, and -5 ms passes (there is no lower bound) |
| ConfigLoader.ListsSplitInOrder | internal/service/config.go:148-151 | SUB_ROUTES "/foo,/bar" becomes ["/foo", "/bar"] |
| SvcConfigLoader.LoadSvcConfig | internal/service/service.go:80-178 | an accepted config holds every parsed variable or its default, a ratio that is NaN or in (0, 1], allowed methods split in order, and sub-routes split in order |
| SvcConfigLoader.LoadSvcConfigOk | internal/service/service.go:80-178 | when every stage succeeds, the loader returns the config built from those stages |
| SvcConfigLoader.LoadConfigFromEnv | internal/service/service.go:80-178 | the step-by-step loader with early returns gives exactly `LoadSvcConfig` |
| SvcConfigLoader.LoadSvcConfigCorrected | internal/service/service.go:132-140 | with the corrected check, an accepted ratio is finite and in (0, 1] |
| SvcConfigLoader.CorrectedSvcLoaderAgrees | internal/service/service.go:80-178 | unless SUCCESS_RATIO parses to NaN, the corrected loader gives exactly the result of the written one |
| SvcConfigLoader.NaNRatioLoadedAsWritten | internal/service/service.go:132-140 | SUCCESS_RATIO=NaN loads with ratio NaN as written, and is refused by the corrected loader |
| SvcConfigLoader.DefaultSvcConfig | internal/service/service.go:90-159 | the empty environment gives 8080, 400, `{"success":false}`, 200, `{"success":true}`, 1.0, 1000 and `{"success":false,"error":"rate limit exceeded"}` |
| SvcConfigLoader.MalformedSvcVarRejected | internal/service/service.go:84-157 | a non-numeric PORT, code or RATE_LIMIT, or a body that does not decode, gives an error |
| SvcConfigLoader.SvcRatioTwoRejected | internal/service/service.go:132-140 | "2.0" gives `InvalidRatio` |
| SvcConfigLoader.SvcDisallowedMethodRejected | internal/service/service.go:161-170 | any listed method outside GET/POST/PUT/DELETE/PATCH gives an error |
| SvcConfigLoader.SvcListsSplitInOrder | internal/service/service.go:161-175 | "/foo,/bar" becomes ["/foo", "/bar"], and unset METHODS stays empty |
| Http.FirstValue | pkg/authn/authn.go:15 | `Header.Get` (also `Values.Get` at r_mock.go:62): "" for an absent name or one with no values, and otherwise its first value |
| Authn.TrimPrefix | pkg/authn/authn.go:30 | when the prefix is present, prefix + result is the input; otherwise the input is unchanged |
| Authn.ApiKeyAuth | pkg/authn/authn.go:12-22 | the next handler runs exactly when X-API-KEY equals the key; otherwise a bare 401 with no challenge |
| Authn.BearerTokenAuth | pkg/authn/authn.go:26-38 | the next handler runs exactly when Authorization, with one leading "Bearer " removed if present, equals the token; otherwise 401 with the `invalid_token` challenge |
| Authn.BearerHeaderAccepted | pkg/authn/authn.go:29-30 | "Bearer " + token passes |
| Authn.BareTokenAccepted | pkg/authn/authn.go:30 | the bare token passes too, unless it starts with "Bearer " |
| Authn.OnlyOnePrefixStripped | pkg/authn/authn.go:30 | "Bearer Bearer t" passes exactly for the token "Bearer t" |
| Authn.MissingHeader | pkg/authn/authn.go:15-17 | a missing header is rejected by a non-empty key or token and accepted by an empty one |
| Api.CodeValues | pkg/api/codes.go:5-10 | the codes are 1001 to 1005 |
| Api.CodesDistinctAboveBase | pkg/api/codes.go:5-10 | the five codes are pairwise distinct and above 1000 |
| Api.MakeHTTPErrorResponse | pkg/api/api.go:25-31 | the message, code and ID are the arguments |
| Api.ErrorContentToJson | pkg/api/api.go:18-22 | the error content serialises to the members "message", "code" and "id" |
| Api.ErrorResponseToJson | pkg/api/api.go:13-15 | an error response is one member, "error", holding the content |
| Api.BatchResponseToJson | pkg/api/api.go:7-10 | a batch result serialises to exactly "code" and "body" |
| Api.BatchToJson | pkg/api/api.go:7-10 | a batch serialises to an array with one element per result, in order |
| Api.ErrorContentMembers | pkg/api/api.go:18-22 | each member of a serialised error content reads back as written |
| Api.ErrorResponseRoundTrip | pkg/api/api.go:13-22 | an error response read back from its JSON shape is the same response |
| Api.BatchResponseRoundTrip | pkg/api/api.go:7-10 | a batch result read back from its JSON shape is the same result |
| Api.BatchRoundTrip | pkg/api/api.go:7-10 | a whole batch read back from its JSON array is the same batch |
| Json.Lookup | pkg/api/api.go:13-22 | a member is found exactly when one with that name exists, and the value found is one of that name's values |
| Json.Keys | pkg/api/api.go:7-22 | the member names, one per member, in order |

## Left out

- Mock.ShouldFail: the period `k = int(1/(1-r))` is computed in floating point, and the model takes it as a given `Period` (k >= 1) beside the config. The float and the exact result differ at some ratios: 0.95 gives 19, not 20.
- Ratio 1.0 is left out: `1/0` is +Inf, and `int(+Inf)` is implementation-defined in Go. No claim is made about what it does.
- A NaN ratio, which both loaders as written accept, is left out of `shouldFail` for the same reason: `int(1/NaN)` (r_mock.go:102) is implementation-defined in Go. The handlers take the period `k` as given, so no NaN case reaches them.
- Mock.Service.HandleMock: status codes outside 100-999 are not modelled. The loaders accept any code Atoi returns (config.go:74-99, service.go:94-121). For such a code, net/http's `WriteHeader` panics when `render.JSON` writes the response (r_mock.go:34-35, 39-40), and `middleware.Recoverer` (router.go:33) answers 500. The model returns the configured code unchanged.
- The mutex (`service.mu`, r_mock.go:21-22) is left out. Because it is held across the whole handler, the counter is modelled as a plain field updated sequentially.
- The counter is an unbounded `nat`. The wrap-around of Go's `int` after 2^63 requests is not modelled.
- `json.Marshal`, `json.Unmarshal`, `url.ParseQuery`, `strconv.Atoi` and `strconv.ParseFloat` are foreign calls. They are function parameters that return `None` on error. `io.ReadAll` is not called: its result is the value parameter `body` of `HandleBatchMock`, and JSON numbers are integers. `Api.*FromJson` is a reading of the JSON field tags, not Go's decoder.
- `Header.Get` canonicalises header names. `Http.FirstValue` matches names exactly.
- The middlewares' writes to the response are abstracted to a `Decision`: call the next handler, or a status plus the `WWW-Authenticate` values.
- Logging and trace IDs are left out. They come from `rand.Uint64`, so the log ID is a parameter of `HandleBatchMock`.
- The error messages of the loaders are abstracted to `ConfigError` values. `InvalidInt(name)` names the variable, which covers both "invalid port format" in service.go and "invalid int format" in config.go.
- Mock.Service.HandleBatchMock: the per-item loop is the separate method `AnswerItems`, with the same branches, `continue`s and order as handleBatchMock.
- `structToMapStringInterface`, the server lifecycle (`ListenAndServe`, `listenAndShutdown`, signals), router.go, the logger files and main.go are I/O and library wiring, and are not part of this model.
- The rate limiter is left out. router.go registers the counter middleware after it, so rate-limited requests never reach the counter.
- Some behaviour is expected only by the test files, from a version that is not the one modelled here:
  - Handlers named there: `handleNotFound`, `handleRateLimitExceeded` and a nil failure body becoming a "failed request" error with code 1005.
  - Mock.ThreeRequestsScenario follows r_mock.go: its second answer is the configured failure body, not that error object.
  - The end-to-end claim that a failed request is reported with code 1005 is left out. No modelled code path emits 1005.
- service.go and config.go both declare `defaultPort` and `stringSliceContains` in package `service`. The two loaders are modelled separately, as alternative versions, and share one `EnvVars` module for the variable readers.
- `render.JSON` can fail to encode its value (r_mock.go:35, 40, 94). That error path is not modelled: the response body is the value itself.

## Findings

| source | as written | input that shows it | evidently intended | confidence | as-written member | corrected member |
|---|---|---|---|---|---|---|
| internal/service/config.go:68-69 | the delay in ms is multiplied into a signed 64-bit nanosecond `time.Duration`, which wraps before the 30 s comparison | RESP_DELAY=18446744073710 wraps to 448384 ns and is accepted | refuse any delay above 30000 ms | not executed | ConfigLoader.WrappedDelayLoadedAsWritten | ConfigLoader.LoadConfigCorrected |
| internal/service/config.go:112-114 | the ratio is refused only when `r <= 0 \|\| r > 1`, and both comparisons are false for NaN | SUCCESS_RATIO=NaN parses without error and is accepted | accept only a ratio in (0, 1] | not executed | ConfigLoader.NaNRatioLoadedAsWritten | ConfigLoader.LoadConfigCorrected |
| internal/service/service.go:134-136 | the same ratio check as config.go | SUCCESS_RATIO=NaN is accepted | accept only a ratio in (0, 1] | not executed | SvcConfigLoader.NaNRatioLoadedAsWritten | SvcConfigLoader.LoadSvcConfigCorrected |

`LoadConfig`, `LoadSvcConfig` and both `LoadConfigFromEnv` methods follow the code as written. The corrected loaders sit beside them, and `CorrectedLoaderAgrees` / `CorrectedSvcLoaderAgrees` prove that they agree whenever the ratio does not parse to NaN and the delay's nanosecond product fits in int64. Every overflowing delay is excluded from that agreement, not only 18446744073710; 9223372036855 ms, for example, wraps to a negative Duration (`NegativeWrapAcceptedAsWritten`). The smaller members `WrappedDelayAcceptedAsWritten`, `NaNRatioAcceptedAsWritten`, `DelayCheckSpec` and `RatioValue` show the same two discrepancies on the checks alone.
