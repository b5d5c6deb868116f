# ArangoDB input plugin: a Dafny model

This project models Telegraf's ArangoDB input plugin (`plugins/inputs/arangodb/arangodb.go`).
Each collection cycle does the following:

- It parses the configured endpoint strings and skips those that do not parse.
- For every kept endpoint it runs `gatherURL`:
  - It logs in: a POST of the credentials to `<url>/_open/auth`, whose reply carries a JWT.
  - It fetches `<url>/_admin/statistics` with the header `Authorization: Bearer <jwt>`.
  - It flattens the decoded statistics into three field maps and hands them to the accumulator as the measurements `arangodb_system`, `arangodb_server` and `arangodb_client`. All three carry the single tag `url`.
  - It reports its return value with `AddError`.

The model has six modules:

- `Results`: Option and Result.
- `ArangoTypes`: the payload structs (`ArangoStats`, `ArangoSystem`, `ArangoServer`, `ArangoClient`, `ArangoRequestTime`, `LoginRequest`, `LoginResponse`). It also holds Go's `uint32` and `uint64` as newtypes, `float32` as an uncomputed bit pattern, the dynamic value of a `map[string]interface{}` entry, and the runtime panics the code can hit.
- `Normalizer`: the three field maps, and their inverse reading. Field names are the constructors of `FieldKey`; `FieldKey.Name()` gives the string the plugin writes (`majorPageFaults`, `req_0.01`, `count`, ...). Measurement names are likewise `Measurement.Name()` in `Endpoint`.
- `Requests`: the login and statistics targets, the Authorization header and the two requests.
- `Endpoint`: `gatherURL` as a pure function over a per-endpoint oracle (`Network`). The oracle gives the outcome of each library or network step: `json.Marshal`, `http.NewRequest`, `client.Do`, the body read and `json.Unmarshal`.
- `Collector`: `Gather` as a sequential run of one task per kept endpoint. `url.Parse` is an uninterpreted function parameter. Each task's network outcome comes from an oracle indexed by task number and endpoint. The accumulator is modelled as the sequence of `AddFields` and `AddError` calls made to it.

Behaviour of the code that the model follows:

- **Short histogram.** A histogram with fewer than six buckets makes `Counts[i]` panic. `Normalize` returns `Failure(IndexOutOfRange(n, n))`, where `n` is the histogram length and the first index past the end. The task panics, and the cycle is modelled as `Crashed`, because a goroutine panic ends the process.
- **Failed statistics request.** The errors of the statistics `http.NewRequest` and `client.Do` are discarded (lines 137 and 140). The `err != nil` test at line 142 therefore sees the nil left by the login decode, and never fires. A failed `Do` leaves a nil response, which the deferred `statsResponse.Body.Close()` dereferences. So a statistics transport failure is a panic (`NilStatsResponse`), never a returned error. Likewise a failed `NewRequest` leaves a nil request, and setting its header panics (`NilStatsRequest`).
- **Skipped parse failures.** A configured string that does not parse is skipped before any task runs.
- **Error isolation.** One task's returned error does not affect another task's records.
- **Return value.** `Gather` returns nil whenever it returns.

Neither status code is inspected. Any body that decodes counts as success, and absent JSON keys decode to zero values, including an empty histogram.

## Model

| member | source | states |
|---|---|---|
| Normalizer.SystemNamesDistinct | plugins/inputs/arangodb/arangodb.go:163-170 | the seven system field names are pairwise distinct, so no system field overwrites another |
| Normalizer.ServerNamesDistinct | plugins/inputs/arangodb/arangodb.go:172-174 | the two server field names are distinct |
| Normalizer.ClientNamesDistinct | plugins/inputs/arangodb/arangodb.go:176-184 | the eight client field names are pairwise distinct, so no bucket overwrites another or the count or sum |
| Normalizer.SystemFields | plugins/inputs/arangodb/arangodb.go:163-170 | the system map has exactly the seven keys majorPageFaults, minorPageFaults, numberOfThreads, residentSize, systemTime, userTime and virtualSize |
| Normalizer.ServerFields | plugins/inputs/arangodb/arangodb.go:172-174 | the server map has exactly the keys physicalMemory and uptime |
| Normalizer.ClientFields | plugins/inputs/arangodb/arangodb.go:176-184 | defined only when the histogram has at least six buckets. Bucket k (k < 6) is reported under the k-th of req_0.01, req_0.05, req_0.1, req_0.2, req_0.5, req_1. `count` is the request count and `sum` the sum. No other keys appear |
| Normalizer.Normalize | plugins/inputs/arangodb/arangodb.go:163-184 | fails exactly when the histogram has fewer than six buckets. The failure is an index-out-of-range panic at index len(Counts). On success the three maps have exactly the system, server and client key sets |
| Normalizer.NormalizeThenDenormalize | plugins/inputs/arangodb/arangodb.go:163-184 | reading the three maps back gives the original payload with its histogram cut to six buckets, so every field is copied unchanged to the right key |
| Normalizer.DenormalizeThenNormalize | plugins/inputs/arangodb/arangodb.go:163-184 | every triple of maps with exactly the expected keys and value types is the normalisation of the payload read back from it |
| Normalizer.NormalizeInjective | plugins/inputs/arangodb/arangodb.go:163-184 | two payloads normalise to the same maps if and only if they agree on every reported field |
| Requests.LoginTarget | plugins/inputs/arangodb/arangodb.go:111 | the login target ends in /_open/auth, and removing that postfix gives back the endpoint's rendering |
| Requests.StatsTarget | plugins/inputs/arangodb/arangodb.go:137 | the statistics target ends in /_admin/statistics, and removing that postfix gives back the endpoint's rendering |
| Requests.AuthHeader | plugins/inputs/arangodb/arangodb.go:138 | the header starts with "Bearer ", and what follows is the token verbatim |
| Requests.AuthHeaderRoundTrip | plugins/inputs/arangodb/arangodb.go:138 | a header yields a token if and only if it is the header built from that token, with no encoding in either direction |
| Requests.TargetsInjective | plugins/inputs/arangodb/arangodb.go:68-69 | two endpoints share a login target, or a statistics target, only if they are the same endpoint |
| Requests.LoginNeverStats | plugins/inputs/arangodb/arangodb.go:68-69 | no login target equals any statistics target |
| Requests.LoginRequestFor | plugins/inputs/arangodb/arangodb.go:105-111 | the login request is a POST with no Authorization header. Its body holds the configured username and password, and its target is the endpoint plus /_open/auth |
| Requests.StatsRequestFor | plugins/inputs/arangodb/arangodb.go:137-138 | the statistics request is a bodiless GET of the endpoint plus /_admin/statistics. Its Authorization header yields exactly the login token |
| Endpoint.UrlTags | plugins/inputs/arangodb/arangodb.go:160-161 | the tag map has the single key url, set to the endpoint's rendering |
| Endpoint.Records | plugins/inputs/arangodb/arangodb.go:187-189 | three records, arangodb_system, arangodb_server and arangodb_client in that order, carrying the system, server and client maps respectively, all with the url tag map |
| Endpoint.GatherUrl | plugins/inputs/arangodb/arangodb.go:102-192 | records are emitted if and only if the call returns nil. They are then exactly three, named arangodb_system, arangodb_server and arangodb_client in that order, each with the single tag url set to the endpoint's rendering. At most two requests are sent: first the login request, then the statistics request carrying the decoded token. The line-143 error is never returned |
| Endpoint.AfterLogin | plugins/inputs/arangodb/arangodb.go:116-192 | from the login exchange on: the login request is the first request sent; a second request is sent only after a decoded login, and it is the statistics request carrying the decoded token. Records appear exactly when nil is returned, and the line-143 error is never returned |
| Endpoint.AfterStats | plugins/inputs/arangodb/arangodb.go:140-192 | from the statistics exchange on: no further request is sent. Records appear exactly when nil is returned, three of them tagged with the endpoint, and the line-143 error is never returned |
| Endpoint.SuccessExactly | plugins/inputs/arangodb/arangodb.go:107-191 | the call returns nil if and only if marshal, both request builds, both exchanges and both decodes succeed and the histogram has at least six buckets. The records then carry the normalised fields of the decoded payload |
| Endpoint.EndingsExactly | plugins/inputs/arangodb/arangodb.go:127-184 | the call panics if and only if the login succeeded and then the statistics request build failed, the statistics exchange failed, or the histogram is short. It returns an error if and only if neither a panic nor full success is reached |
| Endpoint.StatsTransportNeverReturned | plugins/inputs/arangodb/arangodb.go:140-145 | after a successful login, a failed statistics exchange is a nil-response panic with both requests sent, never a returned error |
| Endpoint.NoRecordsOnFailure | plugins/inputs/arangodb/arangodb.go:107-157 | an endpoint whose steps do not all succeed emits no record |
| Endpoint.LoginUnreachable | plugins/inputs/arangodb/arangodb.go:116-119 | a login transport failure ends the call after the login request, with a connectivity error naming the endpoint and nothing emitted |
| Collector.KeptUrls | plugins/inputs/arangodb/arangodb.go:204-213 | no more endpoints are kept than are configured, and every kept endpoint is the parse of some configured string |
| Collector.KeptUrlsExactly | plugins/inputs/arangodb/arangodb.go:204-213 | the kept endpoints are the parses of exactly the parsable configured strings, in configuration order. A string is skipped if and only if it does not parse |
| Collector.Runs | plugins/inputs/arangodb/arangodb.go:216-222 | there is one task per kept endpoint. Task i runs gatherURL on the i-th endpoint with its own network outcome, and emits three records when it returns nil and none otherwise |
| Collector.TaskCalls | plugins/inputs/arangodb/arangodb.go:187-189 | a task that returned makes one AddFields call per emitted record, in emission order, and then exactly one AddError call with its return value (line 220) |
| Collector.RunTasks | plugins/inputs/arangodb/arangodb.go:216-225 | runs the tasks one after another, appending each returned task's calls, and stops at the first panic, which ends the process; a cycle that completes returns nil |
| Collector.Gather | plugins/inputs/arangodb/arangodb.go:194-226 | the cycle keeps the parsable endpoints, then runs one task per kept endpoint; when it completes it returns nil |
| Collector.RunTasksCompletes | plugins/inputs/arangodb/arangodb.go:216-225 | the cycle completes if and only if no task panics, and a completed cycle returns nil |
| Collector.RunTasksCalls | plugins/inputs/arangodb/arangodb.go:216-224 | when no task panics, the accumulator calls are each task's records followed by its error value, task by task in task order |
| Collector.RunTasksCrash | plugins/inputs/arangodb/arangodb.go:216-224 | in the sequential schedule, a crashed cycle dies with the panic of the first panicking task: every earlier task returned |
| Collector.RunTasksCounts | plugins/inputs/arangodb/arangodb.go:216-224 | a completed cycle makes exactly one AddError call per task, and exactly three AddFields calls per task that returned nil |
| Collector.CycleOutcome | plugins/inputs/arangodb/arangodb.go:216-225 | per-endpoint isolation: in a completed cycle every record of every task and every task's error value reach the accumulator, whatever the other tasks did. The cycle returns nil |
| Collector.GatherOutcome | plugins/inputs/arangodb/arangodb.go:194-226 | Gather runs as many tasks as there are parsable configured strings. When it returns, it returns nil, no task panicked, one AddError call was made per parsable string, and every task's records and error value reached the accumulator |
| Collector.KeepParsable | plugins/inputs/arangodb/arangodb.go:203-213 | the parse loop keeps exactly the endpoints the cycle definition keeps, in the same order |
| Collector.RunAll | plugins/inputs/arangodb/arangodb.go:215-225 | the task loop makes exactly the accumulator calls of the cycle definition, and stops at the first panic |
| Collector.RunGather | plugins/inputs/arangodb/arangodb.go:194-226 | the two loops of the source, with the parse loop and then the task loop, compute exactly the cycle described by Gather |
| Collector.MixedCycle | plugins/inputs/arangodb/arangodb.go:204-225 | with one healthy endpoint, one unparsable string and one endpoint whose login cannot connect, the cycle makes these accumulator calls in order: the healthy endpoint's three records, its nil, then the other endpoint's login error. It then returns nil |

## Left out

- HTTP client construction (`createHttpClient`, lines 90-100): the response timeout and disabled keep-alives configure the transport only. `createHttpClient` never fails, so the error branch at lines 196-198 is dead and not modelled.
- Network I/O, body reading, `encoding/json` and `url.Parse` are library code. They appear only as outcomes supplied by the `Network` oracle and the `parse` parameter.
- Redirect-policy failures: a `client.Do` failure that still returns a response happens only when the redirect policy fails. The oracle represents it as a delivered response whose body read fails, because that body is already closed, or, when the redirect response had no body, whose empty body fails to decode (lines 154-156).
- Goroutines and `sync.WaitGroup` (lines 201, 216-224): the fan-out is run sequentially in configuration order. In the source the accumulator calls of different endpoints may interleave. Each endpoint's own calls keep the order modelled here.
- A panic in any task is modelled as the whole cycle crashing with no output. Records that other goroutines had already handed to the accumulator before the crash are not modelled.
- Collector.RunTasksCrash: in the source each endpoint runs in its own goroutine, so when several tasks would panic, the one that crashes the process depends on scheduling. The model takes the first panicking task in the sequential schedule.
- Error message text: errors carry the endpoint and the underlying cause, not the formatted string. The source formats the `url.URL` value with `%s`, which does not call its pointer-receiver `String` method.
- `log.Printf` for a skipped endpoint (line 208): logging is a side effect with no bearing on the records.
- What the accumulator does with `AddError(nil)`: the accumulator is external. The model records the call with the value gatherURL returned.
- `float32` values are carried as bit patterns, because the plugin only copies them.
- `SampleConfig`, `Description` and `init` registration (lines 71-88, 229-233) are plugin boilerplate.
