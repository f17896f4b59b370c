# nginless, modelled in Dafny

nginless is a small HTTP gateway. A YAML router file holds a list of rules. Each
rule has a condition (one or more regular expressions), a `test` selector saying
what the patterns are matched against (the host and URL, or one request header),
and a `do` list of steps such as `proxy(http://host)`, `call(script)`,
`json(...)` or `balancing(a, b, c)`. For each request the gateway:

1. finds the first handler whose pattern matches;
2. stamps the response with an `x-nginless-version` header;
3. answers 500 when nothing matched, and otherwise runs every step of the
   handler in order, against a request context `D` (request, response writer,
   `done` flag).

This project models the following in Dafny 4.11 and proves properties about it:

- the action-string parser and the rule compiler;
- the first-match router;
- the request context and its 500 transition;
- the step dispatch and the per-request pipeline;
- the proxy, balancing, JSON and script (`call`) actions, including the tengo
  bindings `BUILDIN_REQ`, `BUILDIN_RES` and `fetch`;
- the body-copy loop;
- the `{{.key}}` template renderer.

Every module has two layers:

- **Specification functions on values.** Examples are `Router.ParseDo`,
  `Proxy.ProxySpec`, `Call.CallSpec`, `Pipeline.TrafficSpec` and
  `Render.RenderSpec`. The lemmas state the source's promises about them.
- **Imperative code in the source's own form.** Loops become methods with
  invariants. The response writer, the context `D`, the router and the gateway
  object become classes whose methods update their fields. Each method's
  `ensures` ties its result or new state to the specification function of the
  old state.

Files:

| file | models |
|---|---|
| `common.dfy` | ASCII case mapping, `strings.Split`/`Join`, concatenation |
| `http.dfy` | the `net/http` response writer (status, header, body, `WriteHeader` calls) and `Header.Get`/`Set`/`Add` |
| `context.dfy` | `D` and `returnInternalServerError` (`do.go`) |
| `router.dfy` | `parseDoString`, `isSingleParameter`, `parseSteps`, `parse`, `Match` (`router.go`) |
| `render.dfy` | `utils.Render` (`render.go`) |
| `proxy.dfy` | `doProxy` and `copyBuffer` (`do_proxy.go`) |
| `balancing.dfy` | `doBalancing` (`do_balancing.go`) |
| `json.dfy` | `doJSON` (`do_json.go`) |
| `call.dfy` | `doCall`, `createReqModule`, `createResModule`, `fetchFunc` (`do_call.go`) |
| `pipeline.dfy` | the `Nginless` object, `do` and `handleTraffic`, the port list (`nginless.go`, `do.go`) |

## Conventions

- **Header names.** `net/http` canonicalises header names, and section 5.1 of
  RFC 9110 makes them case-insensitive. The model stores every name in one
  canonical form, ASCII lower case (`Http.CanonicalKey`).
- **Headers on input.** An inbound or upstream header is a map whose keys are
  already canonical (`Http.Header`).
- **Panics.** A Go panic that aborts a request (an index out of range, a nil
  request) is the flow `Context.Flow.Panicked`. `net/http` recovers it for that
  request, so no later step runs.
- **Panics inside tengo.** A panic inside a tengo binding is recovered by the
  script run and becomes the run's error.
- **The outside world** is a parameter of each operation. This covers:
  - the regular-expression engine, as `valid` and `matches` predicates;
  - `url.Parse`, `http.NewRequest` and the HTTP clients;
  - the client connection's write outcomes;
  - the random index;
  - script files and their behaviour;
  - `String()` and `json.Marshal`;
  - Go's map iteration order.

## Model

| member | source | states |
|---|---|---|
| Router.IsSingleParameter | internal/app/nginless/router.go:245-253 | true exactly when the action is one of the single-parameter actions (`json`) |
| Router.ParseDoString | internal/app/nginless/router.go:204-243 | the scanning loop computes the step `ParseDo` describes, and `Source` is always the input string unchanged |
| Router.ParametersHaveNoBrackets | internal/app/nginless/router.go:215-233 | no parameter of any parsed step contains `(` or `)` |
| Router.NoParenthesesIsActionOnly | internal/app/nginless/router.go:204-227 | a do-string without brackets parses to its text with spaces removed as the action, with no parameters (unless a prefix spells a single-parameter action before a space) |
| Router.CallParameters | internal/app/nginless/router.go:211-235 | for a non-`json` action `name(body)` the parameters are the body with all spaces removed, split at every comma, with an empty last piece dropped |
| Router.JsonParameter | internal/app/nginless/router.go:211-233 | `json(body)` keeps spaces and commas: one verbatim parameter, or none when the body is empty |
| Router.JsonExample | internal/app/nginless/router.go:204-243 | `json({"a":1, "b":[1,2]})` yields the one parameter `{"a":1, "b":[1,2]}` |
| Router.BalancingArguments | internal/app/nginless/router.go:211-233 | `balancing(a, b, c)` yields exactly `[a, b, c]` |
| Router.EmptyMiddleArgument | internal/app/nginless/router.go:217-219 | an empty middle argument is kept as `""` |
| Router.EmptyLastArgument | internal/app/nginless/router.go:231-233 | an empty trailing argument is dropped |
| Router.NoArguments | internal/app/nginless/router.go:231-233 | `name()` yields no parameters |
| Router.SpaceAfterSingleParameterIsKept | internal/app/nginless/router.go:211 | the one space right after `json` is copied into the action, which then reads `json ` and is no longer single-parameter, so later spaces are dropped again |
| Router.ClosingDoesNotReset | internal/app/nginless/router.go:231-235 | `)` does not clear the pending argument: `a(x)(y)` yields `["x", "xy"]` |
| Router.CompilePatternList | internal/app/nginless/router.go:159-162 | a list condition compiles exactly when every element is a string `MustCompile` accepts, giving one pattern per element in order |
| Router.TargetSelection | internal/app/nginless/router.go:166-178 | a `header.` test gives the header target named after the dot exactly when there is no further dot (otherwise a panic); any other test gives the URL target |
| Router.ParseStepList | internal/app/nginless/router.go:193-201 | a list `do` gives one step per element, in order, and a non-string element panics |
| Router.ParseSteps | internal/app/nginless/router.go:193-201 | the loop computes `ParseStepList` |
| Router.SingleStringRule | internal/app/nginless/router.go:155-188 | a rule with a string condition and a string `do` compiles to one pattern, one step and its target |
| Router.ParseRule | internal/app/nginless/router.go:149-188 | compiling one rule (condition, then test, then do) computes `CompileRule`, with the first panic as the error |
| Router.CompileRulesLineUp | internal/app/nginless/router.go:148-190 | all rules compile exactly when each does, giving one handler per rule in rule order |
| Router.CompileRulesFirstError | internal/app/nginless/router.go:148-190 | a failing compilation reports the error of the first rule that fails |
| Router.Router.constructor | internal/app/nginless/router.go:94-98 | a router starts with its rules and no handlers |
| Router.Router.Parse | internal/app/nginless/router.go:148-190 | `parse` appends one compiled handler per rule to `Handlers`, in rule order, or reports the first panic |
| Router.LookupFirst | internal/app/nginless/router.go:107-126 | the first handler with a matching pattern is the one found |
| Router.LookupNone | internal/app/nginless/router.go:107-126 | nothing is found exactly when no handler has a matching pattern |
| Router.Router.Match | internal/app/nginless/router.go:107-126 | matched exactly when some handler matches; the handler returned is the first that matches; `Handler{}` otherwise |
| Render.Render | internal/app/common/utils/render.go:17-60 | the counter loop computes `RenderSpec`, including the slice-bounds panic |
| Render.SpecialEndRendersEmpty | internal/app/common/utils/render.go:53-59 | a template that is empty or ends in `{`, `}` or `.` renders to `""` (or panics) |
| Render.ResultOnlyAtLastByte | internal/app/common/utils/render.go:53-55 | the result is assigned only at an ordinary last byte |
| Render.LiteralText | internal/app/common/utils/render.go:42-55 | a template in which every `{` is followed by an ordinary byte, and which ends in one, renders to itself: lone braces and dots stay literal |
| Render.PlainText | internal/app/common/utils/render.go:48-55 | a non-empty template with no `{`, `}` or `.` renders to itself |
| Render.PlaceholderOpens | internal/app/common/utils/render.go:26-46 | `{{.` saves the text before it as a piece and starts the key after the dot |
| Render.PlaceholderCloses | internal/app/common/utils/render.go:29-40 | `}}` appends the parameter for the key when present, nothing when absent, and resets the counters |
| Render.Placeholder | internal/app/common/utils/render.go:26-55 | `a{{.key}}b` renders to `a`, the key's value (or nothing when the key is missing), then `b` |
| Render.DoubleDotPanics | internal/app/common/utils/render.go:42-46 | `{{..x` slices with a low bound past the high one and panics |
| Common.LowerCaseFixpoint | internal/app/nginless/do_proxy.go:59 | lower-casing keeps the length, yields a lower-case string, and leaves exactly the lower-case strings unchanged |
| Common.JoinSplit | internal/app/nginless/nginless.go:49 | joining the pieces of a split with the separator gives back the string |
| Common.SplitPieces | internal/app/nginless/nginless.go:49 | a split has one more piece than separators, and no piece holds the separator |
| Common.SplitJoin | internal/app/nginless/router.go:169 | splitting a join of separator-free pieces gives back the pieces |
| Http.HeaderSetGet | internal/app/nginless/do_proxy.go:64 | after `Set`, `Get` of the same name (in any case) returns the value set, and other names are unaffected |
| Http.HeaderSetOnly | internal/app/nginless/do_call.go:91 | `Set` leaves exactly one value under the name and changes no other name |
| Http.HeaderAddKeeps | internal/app/nginless/do_json.go:7 | `Add` appends after the existing values, so `Get` still reports an earlier value |
| Http.WriteAllAppends | internal/app/nginless/do_proxy.go:102 | successive writes append to the body, commit status 200 on the first write unless a status was written, and leave the header alone |
| Http.FirstStatusWins | internal/app/nginless/do_proxy.go:71 | only the first `WriteHeader` sets the status; later calls are counted but change nothing |
| Http.ResponseWriter.WriteSome | internal/app/nginless/do_proxy.go:102 | a write accepts at most the given count of bytes, and only those reach the body |
| Context.InternalServerErrorOnce | internal/app/nginless/do.go:16-23 | on a context not done: one `WriteHeader(500)`, header and body unchanged, `done` set; on a done context: nothing changes; applying it twice is the same as once |
| Context.D.constructor | internal/app/nginless/nginless.go:177 | a new context holds the request and writer, with `done` false |
| Context.D.ReturnInternalServerError | internal/app/nginless/do.go:16-23 | the method performs that transition on the writer and returns the same context |
| Proxy.CopyBuffer | internal/app/nginless/do_proxy.go:88-122 | the read/write loop writes exactly what `CopyAll` delivers and returns its count and error; an empty buffer means 32 KiB |
| Proxy.CopyCountsBytes | internal/app/nginless/do_proxy.go:93-112 | from any point of the loop, the count stays the total of bytes the writer accepted |
| Proxy.CopyAllCountsBytes | internal/app/nginless/do_proxy.go:93-112 | the returned count equals the total bytes the writer accepted |
| Proxy.CopyToPerfectWriter | internal/app/nginless/do_proxy.go:95-120 | with a writer that accepts everything, the copy delivers every byte read, and EOF ends it with no error while any other read error is returned |
| Proxy.CopyStopsAtFailedWriteFrom | internal/app/nginless/do_proxy.go:101-112 | at any iteration, a writer error or a short write ends the copy at that chunk: the accepted bytes are its last chunk and are added to the count, and the error is the writer's own or `ErrShortWrite` |
| Proxy.CopyStopsAtFailedWrite | internal/app/nginless/do_proxy.go:101-112 | the same on the first chunk, for the whole copy: one chunk written, its accepted bytes counted |
| Proxy.CopyWritesBeforeReadError | internal/app/nginless/do_proxy.go:101-120 | bytes from a read are written before that read's error is handled |
| Proxy.AddValues | internal/app/nginless/do_proxy.go:45-47 | each value of one inbound header is appended to the outbound header |
| Proxy.CopyRequestHeader | internal/app/nginless/do_proxy.go:44-48 | the outbound header holds every inbound value, none excluded |
| Proxy.SetValues | internal/app/nginless/do_proxy.go:63-65 | setting each value in turn leaves only the last one |
| Proxy.CopyName | internal/app/nginless/do_proxy.go:58-66 | one upstream header is skipped if it is the sentinel, and otherwise its last value is set |
| Proxy.CopyResponseHeader | internal/app/nginless/do_proxy.go:58-66 | the response header becomes `MergeUpstream` of the old header and the upstream header; nothing else changes |
| Proxy.MergeKeepsSentinel | internal/app/nginless/do_proxy.go:58-66 | the merge keeps the sentinel as it was, gives every other upstream name its last value, and keeps names the upstream did not send |
| Proxy.DoProxy | internal/app/nginless/do_proxy.go:21-86 | `doProxy` changes the context and sends the request exactly as `ProxySpec` says |
| Proxy.ProxyNeedsAnAddress | internal/app/nginless/do_proxy.go:22-24 | no parameter: a 500 and no outbound request |
| Proxy.ProxyTarget | internal/app/nginless/do_proxy.go:26-48 | extra parameters are ignored; the outbound URI is scheme `://` host of the first parameter followed by the inbound RequestURI; the method and every non-empty inbound header are forwarded |
| Proxy.ProxyTransportFailure | internal/app/nginless/do_proxy.go:51-55 | a transport failure gives a 500 and copies no upstream header or body |
| Proxy.ProxyAnswer | internal/app/nginless/do_proxy.go:57-85 | on an answer: headers merged, upstream status written (unless one was already), body appended, `done` set, whatever the copy's outcome |
| Proxy.ProxyKeepsSentinel | internal/app/nginless/do_proxy.go:58-61 | a proxy step never changes the sentinel header |
| Balancing.DoBalancing | internal/app/nginless/do_balancing.go:10-18 | `doBalancing` changes the context as `BalancingSpec` says |
| Balancing.BalancingNeedsAnAddress | internal/app/nginless/do_balancing.go:11-13 | no parameter: a 500, and no request is sent |
| Balancing.BalancingProxiesOne | internal/app/nginless/do_balancing.go:15-17 | otherwise the result is exactly a proxy step given a one-element list, and any request sent goes to one of the listed addresses |
| Balancing.BalancingOverOne | internal/app/nginless/do_balancing.go:16 | balancing over a single address is a proxy step to it |
| Balancing.BalancingKeepsSentinel | internal/app/nginless/do_balancing.go:15-17 | balancing never changes the sentinel header |
| Json.DoJSON | internal/app/nginless/do_json.go:4-11 | `doJSON` changes the writer as `JsonSpec` says and returns the same context |
| Json.JsonResponse | internal/app/nginless/do_json.go:7-8 | `application/json` is appended to the content type, the first parameter is appended to the body verbatim, status 200 unless already written, `done` untouched |
| Json.JsonKeepsEarlierType | internal/app/nginless/do_json.go:7 | an earlier content type remains the one `Get` reports |
| Json.JsonNeedsAParameter | internal/app/nginless/do_json.go:5 | no parameter: an index-out-of-range panic, context unchanged |
| Call.FirstOfEach | internal/app/nginless/do_call.go:51-56 | the loop maps each key to the first of its values and leaves out keys with no value |
| Call.CreateReqModule | internal/app/nginless/do_call.go:47-75 | method, host and path are copied verbatim; queries and headers map each key to its first value |
| Call.FirstValuesAgreeWithGet | internal/app/nginless/do_call.go:51-66 | a key is in the binding exactly when it has a value, and lookup agrees with `Query().Get` |
| Call.ReqHeadersAgreeWithHeaderGet | internal/app/nginless/do_call.go:61-66 | the header binding holds what `Header.Get` would return |
| Call.Answer | internal/app/nginless/do_call.go:91-98 | sets the content type, marks the context done, writes the payload |
| Call.Respond | internal/app/nginless/do_call.go:78-151 | the `html`, `text` and `json` bindings change the context and return the error `RespondSpec` says |
| Call.RespondWithoutArgument | internal/app/nginless/do_call.go:83-87 | no argument: a 500 unless already done, `done` set, header and body kept, and an error returned |
| Call.JsonBindingNeedsAMap | internal/app/nginless/do_call.go:135-139 | `json` given something other than a map: a 500 and an error |
| Call.RespondSetsType | internal/app/nginless/do_call.go:80-149 | on success the content type holds exactly `text/html`, `text/plain` or `application/json`, and no other header changes |
| Call.RespondWrites | internal/app/nginless/do_call.go:80-149 | on success: no error, `done` set, the payload appended (a string verbatim), status 200 unless already written |
| Call.RespondIgnoresDone | internal/app/nginless/do_call.go:80-149 | the bindings do not check `done`: a second call writes again |
| Call.StringifyHeaders | internal/app/nginless/do_call.go:193-204 | string header values are kept and others are stringified |
| Call.ParseOptions | internal/app/nginless/do_call.go:160-210 | option parsing computes `OptionsOf`: URL, upper-cased method (`GET` by default), data reader, headers, `json: true` |
| Call.AddHeaders | internal/app/nginless/do_call.go:218-221 | the loop adds the option headers in map order, as `AddEach` says |
| Call.AddEachDelivers | internal/app/nginless/do_call.go:218-221 | every option header's value reaches the outbound header, and nothing already there is lost |
| Call.Fetch | internal/app/nginless/do_call.go:153-238 | `fetch` returns, fails and sends as `FetchSpec` says |
| Call.FetchWithoutArgument | internal/app/nginless/do_call.go:156-158 | no argument: nil result, no error, nothing sent |
| Call.FetchNeedsData | internal/app/nginless/do_call.go:213 | without usable `data` the nil reader assertion panics: an error, and nothing sent |
| Call.FetchMethod | internal/app/nginless/do_call.go:164-180 | the method is `GET` by default and the upper-cased given method otherwise, with no lower-case letter left |
| Call.FetchJsonOption | internal/app/nginless/do_call.go:193-210 | `json: true` sets the option named exactly `Content-Type` to `application/json`, replacing a value given under that exact name; every other option, a differently spelt `content-type` among them, keeps its stringified value |
| Call.FetchHeaderOption | internal/app/nginless/do_call.go:193-204 | a string header value is passed through unchanged |
| Call.FetchSendsHeaders | internal/app/nginless/do_call.go:213-224 | the request sent carries the parsed method, URL and body, and every header option's value under the option's canonical name, since a Go `range` visits each key of the options once |
| Call.Invoke | internal/app/nginless/do_call.go:30-37 | one binding call made by the script changes the context as `Perform` says |
| Call.DoCall | internal/app/nginless/do_call.go:20-44 | `doCall` runs the script's binding calls in order and changes the context as `CallSpec` says |
| Call.CallWithoutScript | internal/app/nginless/do_call.go:21-25 | an unreadable script file: a 500 and no call made |
| Call.CallFailureFinishes | internal/app/nginless/do_call.go:37-41 | a failing binding call or a failing script run leaves the context done, and the step carries on normally |
| Call.PerformKeepsOtherNames | internal/app/nginless/do_call.go:80-149 | a binding call changes no header other than the content type |
| Call.RunKeepsOtherNames | internal/app/nginless/do_call.go:37 | nor does a sequence of binding calls |
| Call.CallKeepsOtherNames | internal/app/nginless/do_call.go:20-44 | a `call` step changes no header other than the content type |
| Call.FetchesLeaveResponse | internal/app/nginless/do_call.go:153-238 | `fetch` calls never touch the response |
| Pipeline.Nginless.constructor | internal/app/nginless/nginless.go:47-53 | the gateway keeps its version, router and action path, and its ports are the `-p` value split at commas |
| Pipeline.PortList | internal/app/nginless/nginless.go:49 | the port list has one more entry than there are commas, no entry holds a comma, and joining them gives back the flag |
| Pipeline.Nginless.Do | internal/app/nginless/do.go:25-38 | `do` dispatches `proxy` and `call` with the step's parameters, as `DoSpec` says |
| Pipeline.OtherActionsPassThrough | internal/app/nginless/do.go:37 | any other action, `json` and `balancing` included, leaves the context untouched |
| Pipeline.DoneDoesNotStop | internal/app/nginless/do.go:25-38 | `do` does not read `done`: a proxy step on a finished context still writes a status |
| Pipeline.Nginless.HandleTraffic | internal/app/nginless/nginless.go:171-200 | the request changes the writer as `TrafficSpec` says |
| Pipeline.UnmatchedRequest | internal/app/nginless/nginless.go:179-182 | an unmatched request gets exactly one 500, an empty body and only the sentinel header, and no step runs |
| Pipeline.MatchedRequest | internal/app/nginless/nginless.go:172-185 | a matched request runs the first matching handler's steps, starting from a context not done whose header carries the sentinel |
| Pipeline.SentinelIsCanonical | internal/app/nginless/nginless.go:175 | the sentinel name is already in canonical form |
| Pipeline.StepsRunInOrder | internal/app/nginless/nginless.go:185-199 | each step runs once, in declared order, on the context the previous step left, even when it is done |
| Pipeline.DoKeepsStamp | internal/app/nginless/do.go:28-37 | no step changes the sentinel header |
| Pipeline.RunKeepsStamp | internal/app/nginless/nginless.go:185-199 | nor does any sequence of steps |
| Pipeline.EveryResponseStamped | internal/app/nginless/nginless.go:175 | every response carries `x-nginless-version` with the gateway's version |
| Pipeline.WriteAllKeepsWireStamp | internal/app/nginless/do_proxy.go:102 | writing chunks keeps the stamp in the live header and in the header committed with the status |
| Pipeline.PerformKeepsWireStamp | internal/app/nginless/do_call.go:80-149 | a binding call keeps the stamp in the live header and in the header committed with the status |
| Pipeline.RunKeepsWireStamp | internal/app/nginless/do_call.go:37 | so does a script's sequence of binding calls |
| Pipeline.DoKeepsWireStamp | internal/app/nginless/do.go:28-37 | so does every step, including a proxy step that commits the upstream status on the merged header |
| Pipeline.RunKeepsWireStampSteps | internal/app/nginless/nginless.go:185-199 | so does any sequence of steps |
| Pipeline.ClientSeesStamp | internal/app/nginless/nginless.go:175 | on a writer with no status committed yet, the header the client receives with the status carries `x-nginless-version` with the gateway's version |

## Left out

- **Regular expressions.** The semantics of PCRE (`MustCompile`, `MatchString`)
  are abstract predicates supplied by the caller.
- **YAML loading.** `loadConfig` and the reflection-based kind switches are not
  modelled. A rule's condition and `do` are the datatype `Yaml` (string, list or
  other).
- **Process plumbing.** These are I/O and concurrency with no state logic to verify:
  - TLS sniffing (`tls.go`) and the HTTPS wrapper;
  - the listeners (empty stubs);
  - `New`'s flag parsing and `Run`'s socket and goroutines, apart from the port split;
  - `main` and configuration loading;
  - logging.
- **Randomness.** `rand.Intn` in `doBalancing` is the `pick` argument. Its
  distribution is not a property of the code.
- **Script semantics.** A tengo script is abstracted as a function of the request
  binding to the sequence of binding calls it makes, plus whether the run fails
  on its own.
- **Other abstracted libraries.**
  - `String()` and `json.Marshal` are given functions.
  - The connection's write outcomes are a given sequence.
  - Go's map iteration order (the header loop in `fetch`) is a given function,
    constrained to visit each key exactly once (`Call.Runtime`).
- **Call.Fetch:** the tengo map it returns holds only the `body` string.
  `ioutil.ReadAll` errors are ignored, as in the source.
- **Http.CanonicalKey:** uses lower case as the canonical header form, not Go's
  `Canonical-MIME` form, so header names as they appear on the wire are not
  modelled. Lookups and updates through `Get`, `Set` and `Add` agree with Go's.
- **Call.FirstValuesAgreeWithGet:** the keys of `BUILDIN_REQ.headers` are lower case in the
  model, where Go exposes the canonical MIME form (`User-Agent`). A script that
  indexes that map by an exact name can therefore see a different key set.
- **Router.ParseDoString:** do-strings are modelled as sequences of single-byte
  (ASCII) characters. Go's `string(s[i])` turns each byte of 0x80 or more into a
  two-byte rune, so an action or parameter holding non-ASCII text is re-encoded
  (`json({"n":"é"})` yields `{"n":"Ã©"}`). That re-encoding is not modelled.
- **Router.CallParameters:** inherits the ASCII restriction of
  `Router.ParseDoString`. A script name with non-ASCII text would name a
  different, re-encoded file in Go.
- **Router.JsonParameter:** inherits the ASCII restriction of
  `Router.ParseDoString`. Non-ASCII bytes of a `json(...)` body are re-encoded in
  Go and copied verbatim in the model.
- **Proxy.DoProxy:** the inbound request body, which `http.NewRequest` forwards
  upstream (`do_proxy.go:38`), is not modelled. `Outbound` carries the method,
  URL and header only.
- **Call.DoCall:** a script runs under `context.Background()` with no timeout
  (`do_call.go:37`), so a script that never ends blocks its request forever. A
  `Plan` is always a finite list of calls, so the model does not represent that
  case.
- **Render.Render:** templates are modelled as single-byte (ASCII) characters. A
  multi-byte UTF-8 template, where the range offset and the byte length disagree,
  is not modelled.
- **Proxy.CopyBuffer:** the byte count is an unbounded `nat`. The `int64`
  overflow of `written` is not modelled, since no body reaches 2^63 bytes.
- **Behaviour modelled as written.** These are discrepancies in the source:
  - `do_proxy.go:85` calls `d.done()`, but `done` is a boolean field of `D`. The
    model takes the evident meaning and sets `done` to true.
  - `do_proxy.go:80` re-tests the error from `client.Do`, which is nil at that
    point, so a failed body copy never produces a 500 (`Proxy.ProxyAnswer`).
  - `do_proxy.go:38-41` only logs a failed `http.NewRequest`. The nil request is
    then dereferenced, which the model records as a panic.
  - `do_call.go:213` asserts a nil `reader` to `io.Reader` whenever no usable
    `data` was given. That panic becomes the script's error (`Call.FetchNeedsData`).
  - `json` and `balancing` are parsed but never dispatched by `do`, so in a rule
    they do nothing (`Pipeline.OtherActionsPassThrough`).
