# busyhttp, modelled in Dafny

busyhttp is a small HTTP service for exercising deployments. It can delay
its startup, crash on purpose, report itself "not ready" for a while, answer
with any status code, sleep on request, echo requests, read and write files,
exit on demand, and drain slowly on shutdown. Everything is configured
through `BUSY_*` environment variables. This project models its core and
proves properties of the model:

- `helper.dfy` (helper.go). Module `Helper`:
  - `ValidateIntFlag` reads an integer setting; an unparsable one is fatal.
  - `SplitAtLast` extracts the file extension.
- `middleware.dfy` (middleware.go). `Authorize` is the bearer-token gate and
  `Guard` places it in front of every route.
- `handlers.dfy` (handlers.go). The diagnostic handlers are methods that
  write to a `Recorder`: ping, isReady, crash, exit, echo, wait, statusCode,
  readFile and uploadFile. Each is proved to produce a reply or a process
  exit. Their inputs are abstract: the path parameter, the ready flag, the
  body-parse outcome, and the file read or save outcome.
- `router.dfy` (router.go, and main.go's two registrations).
  - `Router.Engine.CreateRouter` appends the thirteen routes of a group to
    the engine's table.
  - `Router.Lookup` and `Router.Dispatch` find the route a request reaches.
  - Module `RouterFacts` proves that the table is unambiguous and that the
  "/specify/:instance" copy of the table is transparent. It also proves what
  the concrete paths reach.
- `lifecycle.dfy` (main.go). Class `Lifecycle.Server` holds the process
  phase, the `ready` flag, a clock in nanoseconds, the ready timer and the
  configuration. Its methods follow main.go step by step:
  - `Boot` (made of `Start` and `ArmReady`), `Setup` and `Listen`;
  - `Elapse`, which lets time pass and fires the ready timer;
  - `Signal` and `Shutdown`.
  - `BootResult` specifies boot as a function, with lemmas on the order of
  its steps.
  - `Run` runs the whole process and proves which exit status it ends with.
- Go library behaviour the core depends on:
  - `gostrings.dfy` models `strings.Split` with a one-character separator,
    `strings.Join` and `strings.LastIndex`;
  - `strconv.dfy` models `strconv.Atoi` and `strconv.Itoa` on 64-bit ints;
  - `gotime.dfy` models `time.Duration` wrap-around and `time.Sleep`;
  - `http.dfy` models the request, the reply, and gin's response writer, where
    the first status written wins and bodies are appended.

The model follows the code wherever the code and its description differ:

- A boot crash is a Go panic, so the process exits with status 2, not 1.
- `wait` and `statusCode` keep running after their 400 write (see Findings).

## Model

| member | source | states |
|---|---|---|
| GoStrings.Split | middleware.go:18 | `strings.Split` with a one-character separator: always at least one piece; SplitCount, SplitPieces, JoinSplit and SplitConcat below characterise the pieces |
| GoStrings.SplitCount | middleware.go:18 | n occurrences of the separator give exactly n + 1 pieces |
| GoStrings.SplitPieces | middleware.go:18 | no piece contains the separator |
| GoStrings.JoinSplit | main.go:59 | joining the pieces with the separator gives the original string back |
| GoStrings.SplitJoin | main.go:59 | splitting a join of separator-free pieces gives exactly those pieces |
| GoStrings.SplitConcat | middleware.go:18 | splitting at one occurrence concatenates the pieces of the two sides |
| GoStrings.SplitWithout | middleware.go:18 | a string without the separator is one piece |
| GoStrings.LastIndex | helper.go:25 | -1, or an index where the substring occurs with no occurrence after it |
| Strconv.Atoi | helper.go:16 | converts exactly the optionally signed decimals within int64 range, to their value; an out-of-range decimal is a range error with the clamped bound; a non-decimal is a range error exactly when its leading digit run exceeds 2^64 - 1, otherwise a syntax error with 0 |
| Strconv.Itoa | handlers.go:108 | the `%v` rendering of an int: a non-empty decimal with no '+', starting with '-' exactly for a negative int, and without leading zeros ("0" is the only rendering starting with 0); AtoiItoa shows it denotes the int |
| Strconv.AtoiItoa | helper.go:16 | parsing the rendering of any int64 gives it back |
| GoTime.SleepNanos | main.go:30 | the sleep is ms million nanoseconds while that fits in int64; a non-positive duration does not sleep |
| GoTime.SleepWraps | main.go:30 | one millisecond past the int64 nanosecond range wraps to a negative duration, so there is no sleep |
| Helper.ValidateIntFlag | helper.go:10-22 | unset or empty gives 0; a decimal within range gives its value; anything else is the fatal message naming the key and the value |
| Helper.ValidateIntFlagItoa | helper.go:10-22 | a variable set to the rendering of any int64 validates to that int |
| Helper.ValidateIntFlagRejects | helper.go:16-19 | a non-empty value that is not a decimal is always fatal |
| Helper.SplitAtLast | helper.go:24-30 | a suffix of s; s itself when sep is absent; otherwise it starts at the last character of the last occurrence of sep |
| Helper.SplitAtLastChar | helper.go:24-30 | for a one-character separator present in s, the separator followed by a tail that does not contain it |
| Helper.SplitAtLastExample | helper.go:24-30 | "a.b.txt" with "." gives ".txt" |
| Helper.SplitAtLastEmptySeparator | helper.go:24-30 | an empty separator gives the last character |
| Middleware.ShapeIff | middleware.go:18-19 | Split(auth, " ") is ["Bearer", t] exactly when auth is "Bearer " followed by a token with no space |
| Middleware.Authorize | middleware.go:9-31 | forwards iff the header is "Bearer " + secret and the secret has no space; 406 iff the header is non-empty and not bearer-shaped; 401 iff it is empty or carries the wrong token |
| Middleware.SecretWithSpaceRejectsAll | middleware.go:18-27 | a secret containing a space rejects every header |
| Middleware.UnauthorizedExamples | middleware.go:11-27 | no header, or the wrong bearer token, is rejected with 401 |
| Middleware.EmptyTokenExample | middleware.go:18-27 | "Bearer " with an empty token is a wrong token (401), not a malformed header |
| Middleware.NotAcceptableExamples | middleware.go:18-22 | headers of the wrong shape are rejected with 406 |
| Middleware.ForwardExample | middleware.go:24-29 | the exact bearer header is forwarded |
| Middleware.Guard | main.go:74-80 | without a secret every request passes; with one, the request is aborted (401 or 406) exactly when Authorize rejects it, and a passed request is unchanged |
| Http.MethodNameInjective | router.go:17-18 | distinct methods have distinct names, so "GET" names only GET and an extension method never stands for a standard one |
| Http.BodyAllowed | handlers.go:108 | gin's bodyAllowedForStatus: no body for 1xx, 204 and 304; every 2xx other than 204 and every 4xx/5xx carries one |
| Http.Recorder.WriteHeader | handlers.go:14-16 | a positive status applies only while nothing has been written |
| Http.Recorder.Render | handlers.go:57-61 | the first write fixes the status; later writes only append, and only when the code they pass allows a body |
| Handlers.Ping | handlers.go:14-16 | 200 with an empty body |
| Handlers.IsReady | handlers.go:83-89 | status 200 exactly when ready, otherwise 400; body "ok" or "not ready" |
| Handlers.Crash | handlers.go:79-81 | the process exits with status 1 and no reply was started |
| Handlers.Exit | handlers.go:91-94 | 200 "crashed" is written, then the process exits with status 0 |
| Handlers.Echo | handlers.go:27-46 | a decoded body is echoed; an absent body (EOF) is echoed as null; any other bind error answers 400 with the error text |
| Handlers.Wait | handlers.go:48-62 | the reply is WaitReply and the sleep, in nanoseconds, is the int64-wrapped `time.Duration(n) * time.Millisecond` of WaitSleep, which the lemmas below characterise |
| Handlers.WaitMissing | handlers.go:49-53 | an empty parameter answers 400 and does not sleep |
| Handlers.WaitNumber | handlers.go:55-61 | any int64 n answers 200 "ok"; it sleeps n ms when 0 <= n <= MaxInt / 10^6, does not sleep for a negative n down to -(MaxInt / 10^6), and does not sleep for MaxInt / 10^6 + 1, whose duration wraps negative |
| Handlers.WaitFallsThrough | handlers.go:55-61 | a rejected parameter answers 400 with the error text followed by "ok"; it reaches the sleep with Atoi's fallback (0, MaxInt or MinInt), and each of those sleeps 0 ns |
| Handlers.BoundsDoNotSleep | handlers.go:60 | MaxInt and MinInt milliseconds wrap to a duration of -1 ms and 0 ns, so neither sleeps |
| Handlers.WaitIntended | handlers.go:48-62 | with the return restored, the status is 200 iff the parameter converts, only then does it reach the sleep (of the wrapped duration), and a 400 carries one message |
| Handlers.StatusCode | handlers.go:96-109 | the reply is StatusCodeReply, which the lemmas below characterise |
| Handlers.StatusCodeMissing | handlers.go:97-101 | an empty code answers 400 and nothing else |
| Handlers.StatusCodeExact | handlers.go:103-108 | a code c in 200..999 other than 204 and 304 answers status c with body "status c" |
| Handlers.StatusCodeWithoutBody | handlers.go:108 | a code that forbids a body (1xx, 204, 304) answers status c with no body |
| Handlers.StatusCodeNotPositive | handlers.go:108 | a code of 0 or below is ignored by the writer: 200 with "status c" |
| Handlers.StatusCodeFallsThrough | handlers.go:103-108 | a code Atoi rejects with a syntax error (e.g. "abc") answers 400 with the error text followed by "status 0" |
| Handlers.StatusCodeRangeError | handlers.go:103-108 | a code Atoi rejects with a range error (e.g. "99999999999999999999", or "99999999999999999999x", whose digit run overflows before the bad character) answers 400 with the error text followed by "status" and the clamped bound: MinInt after a '-', MaxInt otherwise |
| Handlers.StatusCodeIntended | handlers.go:96-109 | with the return restored, a rejected code answers only the 400 message, and a parsed code answers as written |
| Handlers.ReadFile | handlers.go:147-158 | 404 with the error and the attempted path, or 200 with the bytes and the MIME type of SplitAtLast(filename, ".") |
| Handlers.UploadFile | handlers.go:160-181 | the save happens only with a file and a location; the reply is 400, 500 or 200 in that order of checks |
| Handlers.UploadOrder | handlers.go:164-176 | a missing file is reported first; a save is attempted iff both inputs are present; 200 iff it succeeds and 500 iff it fails |
| Handlers.UploadThenRead | handlers.go:147-181 | uploading bytes to a location and then reading it returns exactly those bytes with the location's MIME type |
| Router.Engine.Handle | router.go:17-18 | appends one route for the given methods under the group's base |
| Router.Engine.Any | router.go:6-16 | appends one route for all nine methods of Any |
| Router.Engine.CreateRouter | router.go:5-19 | appends the thirteen registrations, in order, under the group's base |
| Router.Build | main.go:83-87 | the table is the "/specify/:instance" routes followed by the "/" routes |
| Router.JoinPathsText | main.go:83-87 | on the path text, joining a group's path with a relative path gives the group's path, minus its trailing '/' if it has one, followed by the relative path, whose own trailing '/' is kept: no doubled '/' |
| Router.JoinPathsExamples | main.go:83-87 | "/" joined with "/help" is "/help", and "/specify/:instance" joined with "/" is "/specify/:instance/" |
| Router.Lookup | router.go:5-19 | no match iff no route answers the method on the path; otherwise the handler and parameters of a route that does |
| Router.DispatchMatches | router.go:5-19 | a request reaches no handler iff no route answers its method on the pieces of its path; otherwise it reaches the handler of a route that does |
| RouterFacts.MatchedPieces | router.go:14-16 | a matched path has the template's length and literal pieces, and non-empty parameters |
| RouterFacts.BoundValuesNonEmpty | router.go:14-16 | every bound parameter is non-empty |
| RouterFacts.LookupUnique | router.go:5-19 | in an unambiguous table, any route that answers is the one dispatch picks |
| RouterFacts.RegistrationShapes | router.go:6-18 | every registration is "/" followed by a literal piece and at most one more piece |
| RouterFacts.RegistrationsDistinct | router.go:6-18 | within a group, two registrations differ in their first piece or share no method, so no (method, path) is registered twice |
| RouterFacts.TableUnambiguous | main.go:83-87 | no two routes of the whole table answer the same request |
| RouterFacts.SpecifyDispatch | main.go:83-84 | "/specify/x/..." reaches the "/" group's handler for the rest, with instance = x first |
| RouterFacts.TopDispatch | main.go:86-87 | a path that does not start with "specify" is answered by the "/" group alone |
| RouterFacts.SpecifyTransparent | main.go:83-87 | for every q whose first piece is not "specify", dispatching "/specify/x/q" equals dispatching "/q", with instance = x in front of the parameters; the prefix is not transparent when it is repeated (see SpecifyNotNested) |
| RouterFacts.SpecifyNotNested | main.go:83-87 | "/specify/x/specify/y/" + q reaches no route for any method, so the prefix does not nest, although "/specify/y/help" reaches help |
| RouterFacts.AnyMethodRoutes | router.go:6-18 | every route except the "/file" ones answers all methods of Any; "/file" answers GET for readFile and POST for uploadFile |
| RouterFacts.MethodIndependent | router.go:6-16 | outside "/file", dispatch does not depend on which method of Any is used |
| RouterFacts.DispatchParamsNonEmpty | router.go:14-16 | every parameter dispatch hands a handler is non-empty |
| RouterFacts.RootRoute | router.go:6 | "/" reaches help for every method |
| RouterFacts.HelpRoute | router.go:7 | "/help" reaches help for every method |
| RouterFacts.FileRoutes | router.go:17-18 | "/file" reaches readFile on GET and uploadFile on POST |
| RouterFacts.FileRegistrations | router.go:17-18 | only GET and POST are registered on "/file" |
| RouterFacts.FileOtherMethods | router.go:17-18 | any other method on "/file" reaches no handler |
| RouterFacts.WaitRoute | router.go:14 | "/wait/x" binds exactly x as ms |
| RouterFacts.StatusRoute | router.go:16 | "/status/x" binds exactly x as code |
| RouterFacts.CrashRoute | router.go:13 | "/crash" reaches crash for every method of Any |
| RouterFacts.ExitRoute | router.go:15 | "/exit" reaches exit for every method of Any |
| Lifecycle.BootResult | main.go:26-54 | boot ends booted, fatally (1) or in a panic (2), and an ended boot is never ready |
| Lifecycle.CrashIff | main.go:36-38 | boot panics iff the timing flags are valid and BUSY_CRASH is neither empty nor "0" |
| Lifecycle.TimingFlagsFirst | main.go:26-34 | an invalid timing flag is fatal before any sleep; otherwise startupTime is taken after the full startup sleep |
| Lifecycle.BootOrder | main.go:26-43 | a crash wins over any ready value, and an invalid timing flag wins over a crash |
| Lifecycle.ReadyArranged | main.go:43-54 | a booted process is ready at once iff BUSY_READY_TIME_MS is 0; otherwise its timer is due the ready time after the startup sleep |
| Lifecycle.TrustedProxies | main.go:59-63 | no proxies iff the variable is empty; otherwise separator-free pieces that join back to it |
| Lifecycle.Address | main.go:89-92 | never empty; BUSY_ADDRESS when set, ":8080" when it is empty |
| Lifecycle.Ends | handlers.go:79-94 | a request that gets through the gate ends the process only at crash (1) or exit (0) |
| Lifecycle.FirstEnd | handlers.go:79-94 | the status of the first process-ending request of a sequence, which is 0 or 1 |
| Lifecycle.FirstEndIsFirst | handlers.go:79-94 | FirstEnd is None iff no request ends the process, and otherwise the status of one that does with none ending it before |
| Lifecycle.EndingRequests | router.go:13-15 | an authorized Any-method request for "/crash" ends the process with 1, and one for "/exit" with 0 |
| Lifecycle.Server.Start | main.go:26-41 | both timing flags are validated before sleeping; startupTime is taken right after the sleep; a crash then ends the process with 2 |
| Lifecycle.Server.ArmReady | main.go:43-54 | with ready time 0 the flag is stored at once, otherwise a timer is armed; an invalid value is fatal |
| Lifecycle.Server.Boot | main.go:26-54 | the new state is exactly BootResult |
| Lifecycle.Server.Elapse | main.go:45-50 | the ready flag becomes true once the timer is due and never goes back |
| Lifecycle.Server.Setup | main.go:56-92 | proxies, platform, secret, the route table and the address are derived; a rejected proxy list is fatal; readiness is untouched |
| Lifecycle.Server.Listen | main.go:94-104 | serving starts without waiting for readiness; a failed bind is fatal |
| Lifecycle.Server.Serve | main.go:73-80 | a request passes the gate iff there is no secret or Authorize forwards it, and then meets dispatch unchanged |
| Lifecycle.Server.ProbeReady | handlers.go:83-89 | while serving: "ok" when no ready delay was set, "not ready" before the timer is due, 200 exactly when ready |
| Lifecycle.Server.Deliver | handlers.go:79-94 | a request that passes the gate and reaches crash or exit ends the process with that handler's status; any other leaves the state unchanged |
| Lifecycle.Server.ServeAll | main.go:94-104 | requests served in order until one ends the process; the phase is then the status of the first that does, and nothing else changes |
| Lifecycle.Server.Signal | main.go:106-113 | the shutdown time is slept (the ready timer may still fire), then draining starts |
| Lifecycle.Server.Shutdown | main.go:115-123 | drained within 10 s exits 0; otherwise the deadline expires and the exit is fatal (1); the clock advances by the time spent, the ready timer may fire, and the configuration is unchanged |
| Lifecycle.Run | main.go:25-124 | the exit status is 0, 1 or 2; 2 iff boot panics; once serving, the first crash or exit request that gets through decides it (1 or 0); 0 iff boot, proxies and bind succeed and either that request is exit, or none ends the process and draining beats the deadline |

## Left out

- The content of `help`, `info` and `timeData`: environment, hostname, clock and an HTML template. Their routes are modelled; what they write is not.
- gin behaviour beyond the route table:
  - trailing-slash redirects and path cleaning;
  - the 404 body for an unmatched route;
  - the tree-based matching (dispatch is a first-match lookup proved order-independent), including its binding of an empty parameter in the middle of a path (see the RouterFacts.DispatchParamsNonEmpty line);
  - `ClientIP` resolution through trusted proxies and the trusted platform (the client IP is an input of the request);
  - the CIDR validation in `SetTrustedProxies` (a parameter of `Setup`).
- JSON: body decoding in `echo` is an abstract outcome, and the encoder's ordering of map keys is not modelled.
- `mime.TypeByExtension` is a function parameter, and the filesystem is reduced to read and save outcomes. A save that fails after a partial write is not modelled.
- Strings are sequences of characters, not UTF-8 bytes, and byte offsets of non-ASCII text are not modelled. Every separator the service passes is ASCII, so its own calls give the same results. The one exception is Helper.SplitAtLastEmptySeparator: with an empty separator Go slices off the last byte, which for a non-ASCII final character is a fragment of it, while the model returns the whole last character.
- Lifecycle.Run: requests are served one after another, and the time between them is not modelled. Concurrent requests are not modelled either, so a request still in flight when crash or exit ends the process has no modelled reply. Requests are served only before the signal: in the source the server keeps serving during the shutdown sleep, but a request served then has the same effect on the exit status as one placed before the signal.
- RouterFacts.DispatchParamsNonEmpty: the model never binds an empty parameter. gin's matcher binds an empty `instance` in the middle of a path, so "/specify//help" reaches help with instance = "" in gin, while the model finds no route. An empty trailing parameter ("/wait/") matches in neither. Router.MatchSegments and RouterFacts.SpecifyDispatch (which requires a non-empty x) share this gap.
- Goroutines, `atomic.Bool` and the signal channel:
  - the ready timer is a due time that `Elapse` fires;
  - the listener's result is a parameter of `Listen`;
  - a signal is handled only while serving (a signal that arrives before `signal.Notify` has the Go runtime's default effect).
- Logging output, `gin.Logger` and `template.Must` on the embedded page, which is assumed to parse.
- Handlers.StatusCodeWithoutBody: for 1xx codes net/http sends an interim response, and the final status the client sees is not modelled.
- Handlers.StatusCode: codes 1..99 and above 999 make net/http panic when the status is written, so that request gets no reply; the model answers them like any other code (for "1000", status 1000 with "status 1000").
- Helper.SplitAtLast: an empty string with an empty separator makes Go panic (slice index -1); the model requires that input away, and the service only ever passes ".".
- Lifecycle.Server.Shutdown: only an expired deadline is modelled as a shutdown error; errors from closing listeners are left out.
- Lifecycle.Server.Listen: only a failure to bind is fatal here; an accept error after a successful bind is left out.

## Findings

| source | as written | input that shows it | evidently intended | confidence | as-written member | corrected member |
|---|---|---|---|---|---|---|
| handlers.go:56-61 | after writing 400 for a non-numeric `ms`, the handler goes on: it sleeps for Atoi's fallback value and appends "ok" to the 400 reply | GET /wait/abc answers 400 with body "abc is not a valid ms parameter. Expected a number" + "ok", after sleeping 0 ms | return right after the 400, so a rejected parameter neither sleeps nor says "ok" | not executed | Handlers.WaitFallsThrough | Handlers.WaitIntended |
| handlers.go:104-108 | after writing 400 for a rejected `code`, the handler goes on and appends "status" with Atoi's fallback to the 400 reply: "status 0" after a syntax error (e.g. "abc"), the clamped bound after a range error | GET /status/abc answers 400 with body "abc is not a valid code parameter. Expected a number" + "status 0" | return right after the 400, so only the error message is sent | not executed | Handlers.StatusCodeFallsThrough | Handlers.StatusCodeIntended |
