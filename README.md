# Devices, directory sizes and HTTP middleware, modelled in Dafny

This project models the core of a Go coursework repository. It is sequential Dafny, and every property is proved by the verifier. It covers:

- **The directory-size aggregator** (`storage.sizer`). It walks a directory tree and adds up the size and count of every file. The traversal is modelled sequentially over a finite tree, and each `Ls` and each `Stat` outcome is a fixed value in the tree.
  - `processDir` sends one message per visited directory: a partial result, or the error that stopped it.
  - `worker` gives each sub-directory either to a new task or visits it inline. Which one happens is an input schedule of spawn decisions.
  - The listener sums the partials, or returns the first error.
  - For every schedule, the total, and whether an error is reported, depend only on the tree. When several directories fail, which error is reported may depend on the schedule.
- **The device store and service.** `SafeMap` is a dictionary from serial number to device, updated in place. The CRUD rules of `storageService` (store before validate on create) and the validator `verifyDeviceData` are modelled as written.
- **The HTTP layer of the device API:**
  - the mapping from service errors to statuses (status codes of section 15 of RFC 9110);
  - the status each handler answers with;
  - the method switch of the router;
  - the listen address built from the environment.
- **The HTTP client and server configuration of the middleware exercise:**
  - circuit-breaker defaulting and the trip rule;
  - reading the client configuration from the environment;
  - the layering of transports and handlers;
  - the basic-auth accept rule;
  - the text of the request and response logs.

External calls are inputs, so the model does not depend on their implementation:
- the environment is a map;
- `strconv.Atoi` is a partial function `atoi`;
- `net.ParseIP` is a predicate `validIP`;
- JSON decoding is given as its outcome, and `json.Marshal` is a partial function;
- `Request.BasicAuth` is the triple it returns;
- Go's map iteration order is an order parameter that lists each key once.

Files:
- `dir_sizer.dfy`, `device_service.dfy`, `handler.dfy`, `router.dfy` and `address.dfy` model the device API and the sizer.
- `circuit_breaker.dfy`, `client.dfy`, `server.dfy`, `basic_auth.dfy` and `format.dfy` model the middleware exercise.
- `wrappers.dfy`, `http.dfy` and `sequences.dfy` hold shared definitions.

## Model

| member | source | states |
|---|---|---|
| DirSizer.ProcessDirOutcomes | Concurrency/homework/storage/dir_sizer.go:113-132 | A failed `Ls` sends its error and expands nothing. A failing `Stat` sends the first such error in listing order and expands nothing; the earlier files are summed but no partial is sent. Otherwise the partial has Size = sum of the direct files' sizes and Count = number of direct files, and all sub-directories are returned. |
| DirSizer.FirstStatErrorNone | Concurrency/homework/storage/dir_sizer.go:121-126 | The scan of the files finds no error exactly when every `Stat` succeeds. |
| DirSizer.FirstStatErrorSome | Concurrency/homework/storage/dir_sizer.go:121-126 | A reported `Stat` error comes from a file at some position k, and every file before k was stat-ed successfully. |
| DirSizer.Sizer.ProcessDir | Concurrency/homework/storage/dir_sizer.go:112-133 | Imperative `processDir` with its accumulator loop: it appends exactly the one message `Visit(dir)` to the sent messages and returns `Expanded(dir)`. |
| DirSizer.Sizer.TrySpawn | Concurrency/homework/storage/dir_sizer.go:94-107 | The non-blocking token send succeeds exactly when the next scheduled decision is "spawn", and that decision is consumed. |
| DirSizer.Sizer.Worker | Concurrency/homework/storage/dir_sizer.go:89-109 | Whatever the schedule, the messages sent and directories visited now, together with the traversals owed by the spawned tasks, are exactly the inline traversal of `dir`, counted as multisets. |
| DirSizer.Sizer.Dispatch | Concurrency/homework/storage/dir_sizer.go:94-107 | Spawning a sub-directory and visiting it inline account for the same traversal. |
| DirSizer.Sizer.RunTasks | Concurrency/homework/storage/dir_sizer.go:41-56 | Running the root and every spawned task until none is left sends each message of the inline traversal exactly once, and visits each reachable directory exactly once. |
| DirSizer.Sizer.Size | Concurrency/homework/storage/dir_sizer.go:39-58 | End to end on a fresh sizer: every reachable directory is visited once. There is no error exactly when no `Ls`/`Stat` fails anywhere, and then the total is the size and count of all reachable files. On an error the result is empty and the error is one that a visit reported. The answer is also what the listener as written gives when the sent messages arrive in send order. |
| DirSizer.SizeOf | Concurrency/homework/storage/dir_sizer.go:32-58 | `NewSizer().Size`, for any schedule of spawn decisions: there is no error exactly when no `Ls`/`Stat` fails anywhere, and then the total is the size and count of all reachable files. On an error the result is empty and the error is one that some visit reported. |
| DirSizer.ListenForResults | Concurrency/homework/storage/dir_sizer.go:62-86 | Corrected listener, when `res` is drained before it reports closed. It returns no error exactly when no failure was received, and then the total is the sum of all partials received. Otherwise the result is empty, and the error is the first failure received. |
| DirSizer.SumPartialsPermutation | Concurrency/homework/storage/dir_sizer.go:63-73 | The aggregate is independent of the order in which the partials arrive. |
| DirSizer.SumPartialsRemove | Concurrency/homework/storage/dir_sizer.go:67-70 | Taking one message out of any position takes exactly its contribution out of the sum. |
| DirSizer.SumPartialsAppend | Concurrency/homework/storage/dir_sizer.go:67-70 | The sum over two batches of messages is the component-wise sum of their sums. |
| DirSizer.SumSizesAppend | Concurrency/homework/storage/dir_sizer.go:121-129 | The file-size sum over two lists of files is the sum of their sums. |
| DirSizer.TraceHealthy | Concurrency/homework/storage/dir_sizer.go:89-133 | With no failure in the tree, the inline traversal sends only partials, and they add up to the size and count of all reachable files. |
| DirSizer.TraceAllHealthy | Concurrency/homework/storage/dir_sizer.go:93-108 | The same over the list of sub-directories a worker loops over. |
| DirSizer.TraceUnhealthy | Concurrency/homework/storage/dir_sizer.go:89-133 | A failing `Ls` or `Stat` anywhere in the tree shows up as a failure message in the traversal. |
| DirSizer.TraceAllUnhealthy | Concurrency/homework/storage/dir_sizer.go:93-108 | The same over a list of sub-directories. |
| DirSizer.TraceFailsIff | Concurrency/homework/storage/dir_sizer.go:89-133 | The traversal sends no failure if and only if no `Ls`/`Stat` in the tree fails. |
| DirSizer.NoFailureMultiset | Concurrency/homework/storage/dir_sizer.go:74-79 | Whether a failure was sent does not depend on the arrival order. |
| DirSizer.NoFailureAppend | Concurrency/homework/storage/dir_sizer.go:74-79 | Two batches are failure-free iff each is. |
| DirSizer.SentMeetsTree | Concurrency/homework/storage/dir_sizer.go:39-86 | Messages sent in any order decide the outcome as the inline traversal does: no failure iff the tree is healthy, with the tree total. |
| DirSizer.MessagesAfterClose | Concurrency/homework/storage/dir_sizer.go:67-73 | Once `res` reports closed (after draining), no later event adds a message. |
| DirSizer.MessagesOfDeliveries | Concurrency/homework/storage/dir_sizer.go:130 | Sent messages delivered in order are received as sent. |
| DirSizer.MessagesPrefix | Concurrency/homework/storage/dir_sizer.go:64-84 | The messages received in a prefix of the events are a prefix of all messages received. |
| DirSizer.Deliveries | Concurrency/homework/storage/dir_sizer.go:115-130 | The k-th delivery event receives the k-th message sent. |
| DirSizer.EarlyCloseDropsPartials | Concurrency/homework/storage/dir_sizer.go:74-83 | Counterexample for the listener as written: a tree of one 10-byte file, when the closed `err` is selected before the buffered partial, yields an empty total with no error. |
| DirSizer.ListenAsWritten | Concurrency/homework/storage/dir_sizer.go:62-86 | The listener as written: when it reports an error, the result is empty and the error is one it received. |
| DirSizer.ListenAsWrittenInOrder | Concurrency/homework/storage/dir_sizer.go:62-86 | With the messages arriving in send order and no close before them, the listener as written reports no error exactly when no failure was sent, and then adds all partials to its running total. Otherwise the result is empty and the error is the first failure sent. |
| DirSizer.AsWrittenInSendOrder | Concurrency/homework/storage/dir_sizer.go:39-86 | Fed in send order, the listener as written gives the answer the tree decides: no error iff the tree is healthy, then the tree total; otherwise an empty result and an error some visit reported. |
| DirSizer.AgreesWithAsWritten | Concurrency/homework/storage/dir_sizer.go:62-86 | An answer that sums the partials, or is empty and names the first failure, is exactly what the listener as written returns on those messages in send order. |
| DirSizer.FirstFailureUnique | Concurrency/homework/storage/dir_sizer.go:74-76 | The first failure in a message sequence is unique. |
| DirSizer.TraceUnfold | Concurrency/homework/storage/dir_sizer.go:91-108 | A directory's traversal is its own visit followed by the traversals of what it expands. |
| DirSizer.TraceAllSnoc | Concurrency/homework/storage/dir_sizer.go:93 | Adding one sub-directory appends its traversal. |
| DirSizer.TraceAllAppend | Concurrency/homework/storage/dir_sizer.go:93 | Traversing two lists of sub-directories in order concatenates their traversals. |
| DirSizer.CoversNone | Concurrency/homework/storage/dir_sizer.go:93 | Before the loop over the sub-directories nothing is owed. |
| DirSizer.CoversVisit | Concurrency/homework/storage/dir_sizer.go:91-108 | The visit plus the accounting for its sub-directories cover the directory's whole traversal. |
| DirSizer.CoversNext | Concurrency/homework/storage/dir_sizer.go:93-107 | Handling one more sub-directory extends the accounting by exactly that sub-directory's traversal. |
| DirSizer.CoversRoot | Concurrency/homework/storage/dir_sizer.go:41-44 | A spawned root owes its whole traversal. |
| DirSizer.CoversPop | Concurrency/homework/storage/dir_sizer.go:41-56 | Running one outstanding task keeps the accounting, and strictly increases the number of messages sent. |
| DirSizer.CoversDone | Concurrency/homework/storage/dir_sizer.go:52-55 | With no task outstanding, the messages sent and directories visited are exactly the traversal. |
| DirSizer.ExpandedSmaller | Concurrency/homework/storage/dir_sizer.go:93 | Each sub-directory is a proper part of its parent, so the recursion terminates. |
| DirSizer.Sizer.constructor | Concurrency/homework/storage/dir_sizer.go:32-36 | A fresh sizer has sent nothing, visited nothing and has no outstanding task. |
| DeviceService.VerifyDeviceData | Api/homework/internal/service/service.go:53-64 | The model is checked first, then the serial number, then the IP; each error occurs exactly under its own condition; nil iff all three pass. |
| DeviceService.ErrorTextInjective | Api/homework/internal/service/service.go:10-16 | The five sentinels have distinct texts. |
| DeviceService.SafeMap.Add | Api/homework/internal/service/service.go:101-109 | Writes `d` under its serial number, overwriting; true iff the key was absent before. |
| DeviceService.SafeMap.Get | Api/homework/internal/service/service.go:111-119 | Stored device and true when present, else the zero device and false; nothing changes. |
| DeviceService.SafeMap.Del | Api/homework/internal/service/service.go:121-132 | Absent key: false, map unchanged. Present key: only that key removed, true. |
| DeviceService.SafeMap.constructor | Api/homework/internal/service/service.go:92-94 | A new store is empty. |
| DeviceService.StorageService.constructor | Api/homework/internal/service/service.go:25-27 | The service keeps the store it is given. |
| DeviceService.StorageService.GetDevice | Api/homework/internal/service/service.go:33-39 | Found device and nil, or the zero device and `ErrDeviceDoesNotExist` exactly when absent. |
| DeviceService.StorageService.CreateDevice | Api/homework/internal/service/service.go:41-52 | New store and error are those of the create rule over the old store (write first, then duplicate check, then validation). |
| DeviceService.StorageService.DeleteDevice | Api/homework/internal/service/service.go:66-72 | New store and error are those of the delete rule: removal, or `ErrDeviceDoesNotExist` and no change. |
| DeviceService.StorageService.UpdateDevice | Api/homework/internal/service/service.go:74-84 | New store and error are those of the update rule: existence check, validation, then the write. |
| DeviceService.CreateStoresBeforeChecking | Api/homework/internal/service/service.go:41-52 | A duplicate returns `ErrDeviceAlreadyExists` yet the entry is overwritten. A new invalid device is stored and its validation error returned. Success iff the serial is new and the data valid. |
| DeviceService.UpdateWritesOnlyOnSuccess | Api/homework/internal/service/service.go:74-84 | A failing update writes nothing. It succeeds iff the serial exists and the data is valid, and the key set never changes. |
| DeviceService.UpdateThenGet | Api/homework/internal/service/service.go:74-84 | After a successful update, a read returns the new device, and every other entry is unchanged. |
| DeviceService.CreateThenDelete | Api/homework/internal/service/service.go:41-52 | Creating a new device and then deleting it restores the original store. |
| DeviceService.DeleteThenMissing | Api/homework/internal/service/service.go:33-39 | After a delete, a second delete and a read both report `ErrDeviceDoesNotExist`. |
| DeviceService.OperationsKeepKeys | Api/homework/internal/service/service.go:41-84 | Create, delete and update keep every entry under its own serial number. |
| Handler.FromService | Api/homework/internal/service/service.go:10-16 | A sentinel returned directly carries its own text and is itself for `errors.Is`. |
| Handler.ErrResponse | Api/homework/internal/handler/handler.go:103-107 | The chosen status, and a JSON object whose only key is "message". |
| Handler.HandleServiceError | Api/homework/internal/handler/handler.go:77-101 | Ordered cases: already-exists → 409 "Device already exists"; does-not-exist → 404 "Device doesn't exist"; the three validation errors → 400 with the error's own text; anything else → 500 "Internal server error". |
| Handler.ServiceErrorStatus | Api/homework/internal/handler/handler.go:81-98 | Each service sentinel gets its status (409, 404 or 400 with its text), never 500. |
| Handler.ServiceErrorIsClientOrServerError | Api/homework/internal/handler/handler.go:77-107 | Every error answer is 400/404/409/500 with a one-key JSON body. |
| Handler.QueryGet | Api/homework/internal/handler/handler.go:35 | The first value of "num", or "" when absent or empty. |
| Handler.HandleCreate | Api/homework/internal/handler/handler.go:19-32 | An undecodable body → 400 "Invalid request", and the service is not called. A service error → its mapped response. Success → 201. |
| Handler.HandleGet | Api/homework/internal/handler/handler.go:34-50 | A service error → its mapped response. Marshal failure → 500 "JSON can't be marshaled". Otherwise 200 with the encoded device. |
| Handler.HandleDelete | Api/homework/internal/handler/handler.go:52-60 | A service error → its mapped response. Success → 200. |
| Handler.HandleUpdate | Api/homework/internal/handler/handler.go:62-75 | An undecodable body → 400 "Invalid request", and the service is not called. A service error → its mapped response. Success → 200. |
| Handler.CreateOverStore | Api/homework/internal/handler/handler.go:19-32 | Over the real store: a taken serial → 409, an invalid new device → 400 with the validation text, a valid new one → 201. |
| Handler.GetOverStore | Api/homework/internal/handler/handler.go:34-50 | Over the real store: an absent serial → 404, a present one → 200 with its encoding. |
| Handler.SuccessIffNoError | Api/homework/internal/handler/handler.go:19-32 | Create and Update answer below 300 exactly when the body decodes and the service call succeeds. |
| Http.PlainError | Api/homework/internal/router/router.go:22 | `http.Error` writes the status and the message plus a newline. |
| Router.Dispatch | Api/homework/internal/router/router.go:12-23 | POST → create, GET → get, PUT → update, DELETE → delete. Any other method → 405 "Invalid request method" with no handler called. Exactly one branch per method. |
| Router.DispatchMatchesTable | Api/homework/internal/router/router.go:12-23 | The switch agrees with the method table, and names are matched exactly ("post" and "Get" are rejected). |
| CircuitBreaker.ConfigureCircuitBreaker | Custom_RoundTrippers_Middlewares/homework/internal/client/circuit_breaker.go:17-43 | No breaker iff all three fields are zero. Otherwise the breaker "HTTPClient" with defaulted fields converted to `uint32` and to durations. The error is always nil. |
| CircuitBreaker.WithDefaults | Custom_RoundTrippers_Middlewares/homework/internal/client/circuit_breaker.go:19-27 | Exactly-zero fields become Timeout 5, Interval 3, MaxRequests 3; nonzero fields are kept. |
| CircuitBreaker.WithDefaultsIdempotent | Custom_RoundTrippers_Middlewares/homework/internal/client/circuit_breaker.go:19-27 | After defaulting no field is zero, and defaulting again changes nothing. |
| CircuitBreaker.Uint32 | Custom_RoundTrippers_Middlewares/homework/internal/client/circuit_breaker.go:30 | `uint32(x)` is x modulo 2^32: in range, identity on the range, congruent to x. |
| CircuitBreaker.Int64 | Custom_RoundTrippers_Middlewares/homework/internal/client/circuit_breaker.go:31-32 | int64 wrap-around: in range, identity on the range, congruent modulo 2^64. |
| CircuitBreaker.DefaultDurations | Custom_RoundTrippers_Middlewares/homework/internal/client/circuit_breaker.go:19-32 | Unset interval and timeout become 3 s and 5 s in nanoseconds. |
| CircuitBreaker.SecondsRange | Custom_RoundTrippers_Middlewares/homework/internal/client/circuit_breaker.go:31-32 | 9223372036 s is the largest duration that fits; the first whole second past the range, in either direction, wraps to the opposite sign. |
| CircuitBreaker.Seconds | Custom_RoundTrippers_Middlewares/homework/internal/client/circuit_breaker.go:31-32 | `time.Duration(n) * time.Second` is always an int64. It equals n·10^9 nanoseconds whenever -9223372036 ≤ n ≤ 9223372036, and is congruent to n·10^9 modulo 2^64 otherwise. |
| CircuitBreaker.NegativeMaxRequests | Custom_RoundTrippers_Middlewares/homework/internal/client/circuit_breaker.go:30 | A negative request limit m above -2^32 becomes the unsigned m + 2^32 (so -1 becomes 4294967295). |
| CircuitBreaker.ReadyToTrip | Custom_RoundTrippers_Middlewares/homework/internal/client/circuit_breaker.go:33-35 | Trips iff there are at least 3 consecutive failures. |
| Client.ReadConf | Custom_RoundTrippers_Middlewares/homework/internal/client/client.go:40-71 | LOG on iff exactly "true". Fields are read in the order MAX_REQUESTS, INTERVAL, TIMEOUT; empty or unset gives 0. The first unparsable value returns its error and the fields read so far, the rest 0. Otherwise every field parsed and the error is nil. |
| Client.EmptyEnvironment | Custom_RoundTrippers_Middlewares/homework/internal/client/client.go:40-71 | An empty environment gives logging off and no breaker. |
| Client.NewClient | Custom_RoundTrippers_Middlewares/homework/internal/client/client.go:17-38 | The breaker layer is added iff some breaker field is nonzero, and logging is added iff Log is set, outside the breaker. The breaker layer carries the configured settings, and the error is nil. |
| Client.LoggingOutsideBreaker | Custom_RoundTrippers_Middlewares/homework/internal/client/client.go:24-30 | A transport with both layers is logging over breaker over the default transport. |
| Server.NewServer | Custom_RoundTrippers_Middlewares/homework/internal/server/server.go:15-41 | Empty Addr → ":8080", otherwise kept. A nil mux becomes the fresh one, which is innermost. Custom middlewares wrap in argument order, the last outermost; auth is outside them iff both credentials are non-empty; logging is outermost iff Log. With nothing configured the handler is the mux. With auth, exactly the requests with the configured credentials reach the mux. |
| Server.CustomLayersReversed | Custom_RoundTrippers_Middlewares/homework/internal/server/server.go:25-27 | The k-th custom layer from outside is the k-th middleware from the end. |
| Server.WrapLayers | Custom_RoundTrippers_Middlewares/homework/internal/server/server.go:23-27 | The loop adds exactly the custom layers and keeps the mux innermost. |
| Server.CustomsForward | Custom_RoundTrippers_Middlewares/homework/internal/server/server.go:25-27 | Forwarding custom middlewares let every request through. |
| Server.LayersDetermineHandler | Custom_RoundTrippers_Middlewares/homework/internal/server/server.go:23-35 | A handler is determined by its layers and its mux. |
| BasicAuth.BasicAuthMiddleware | Custom_RoundTrippers_Middlewares/homework/internal/server/basic_auth.go:11-21 | Delegates, writing nothing, iff credentials are present and both username and password match exactly. Otherwise 401 "Unauthorized", and the inner handler is not called. |
| Format.MapStrToStrSlice | Custom_RoundTrippers_Middlewares/homework/internal/format/format.go:40-48 | Nested loops: the text is each name's lines, name after name in iteration order. |
| Format.WriteValues | Custom_RoundTrippers_Middlewares/homework/internal/format/format.go:43-45 | The inner loop appends one "name : value" line per value, in slice order. |
| Format.NameLinesInOrder | Custom_RoundTrippers_Middlewares/homework/internal/format/format.go:43-45 | A name has exactly one line per value, in slice order. |
| Format.NameBlock | Custom_RoundTrippers_Middlewares/homework/internal/format/format.go:42-46 | Each name's lines form one unbroken block at the name's place in the iteration. |
| Format.LinesPermutation | Custom_RoundTrippers_Middlewares/homework/internal/format/format.go:42-46 | Reordering the names yields the same multiset of lines. |
| Format.RenderedLinesAgree | Custom_RoundTrippers_Middlewares/homework/internal/format/format.go:42-46 | Every iteration order of a map writes the same multiset of lines. |
| Format.OrdersAgree | Custom_RoundTrippers_Middlewares/homework/internal/format/format.go:42 | Two iteration orders of the same map list the same names. |
| Format.DistinctOnce | Custom_RoundTrippers_Middlewares/homework/internal/format/format.go:42 | An iteration order lists every key once. |
| Format.EmptyRendersEmpty | Custom_RoundTrippers_Middlewares/homework/internal/format/format.go:40-48 | An empty map gives the empty string. |
| Format.LinesAppend | Custom_RoundTrippers_Middlewares/homework/internal/format/format.go:42-46 | The lines of two name sequences concatenate. |
| Format.ConcatAppend | Custom_RoundTrippers_Middlewares/homework/internal/format/format.go:41-47 | Writing two batches of lines concatenates their texts. |
| Format.WriteBlock | Custom_RoundTrippers_Middlewares/homework/internal/format/format.go:13-21 | A titled block is written only for a non-empty map. |
| Format.RequestLog | Custom_RoundTrippers_Middlewares/homework/internal/format/format.go:10-23 | "method: M, endpoint: P\n", then the headers block iff headers, then the query block iff a query, in that order. |
| Format.RequestLogLayout | Custom_RoundTrippers_Middlewares/homework/internal/format/format.go:10-23 | The text starts with the request line. "headers:" comes right after it iff there are headers, else "query params:" iff a query. A query block ends the text, and nothing else is written when both maps are empty. |
| Format.ResponseLog | Custom_RoundTrippers_Middlewares/homework/internal/format/format.go:26-37 | The headers block iff headers, then the error text with no newline, then "status code: N\n". |
| Format.ResponseLogLayout | Custom_RoundTrippers_Middlewares/homework/internal/format/format.go:26-37 | The status line is always last and its code reads back. With no headers and no error the log is that line alone, and with headers it starts with "headers:". |
| Format.Decimal | Custom_RoundTrippers_Middlewares/homework/internal/format/format.go:35 | `%v` of an int reads back as the int, and starts with '-' exactly when the int is negative. |
| Format.DigitsRoundTrip | Custom_RoundTrippers_Middlewares/homework/internal/format/format.go:35 | Decimal digits read back as the number. |
| Format.DigitsWellFormed | Custom_RoundTrippers_Middlewares/homework/internal/format/format.go:35 | Only digits are written, with no leading zero. |
| ApiCmd.Address | Api/homework/cmd/main.go:13-23 | In every environment: no host and no port give "localhost:8080". An empty host makes the address start "localhost:", and an empty port makes it end ":8080". A non-empty port ends the address after a colon. A non-empty host without a colon starts it, followed by a colon; a host with a colon starts it in brackets. |
| ApiCmd.AddressVerbatim | Api/homework/cmd/main.go:14-22 | In every environment with a colon-free port and a host not already of the form "[...]" (or one holding a colon), the address splits back into the host and port used: the given values where non-empty, "localhost" and "8080" otherwise. |
| ApiCmd.JoinHostPort | Api/homework/cmd/main.go:22 | `net.JoinHostPort` puts a host containing ':' in brackets and any other host as it is, then a colon, then the port. For a colon-free port and an unambiguous host, the host and port come back apart. |
| ApiCmd.LastColon | Api/homework/cmd/main.go:22 | The position found holds the last colon, and none means there is no colon. |
| ApiCmd.LastColonBeforePort | Api/homework/cmd/main.go:22 | In "front:port" with a colon-free port, the colon before the port is the last one. |

## Left out

- Concurrency in the sizer: goroutines, the `sync.WaitGroup`, the closer goroutine and `ctx` (dir_sizer.go:41-56, 94-104). The traversal is run sequentially, spawned tasks are a LIFO list, and the token `select` is an input schedule.
- The worker budget of 8 and the `sem` token pool. A spawned child takes a token twice, once at line 95 and once at line 98, and releases it once, so tokens leak. That concerns only concurrency limits and is not modelled.
- The unbuffered `err` channel (line 35): once the listener has returned on the first error, later senders block forever (line 76). This is a goroutine leak and is not modelled.
- Panics from reusing a sizer after its channels are closed (lines 53-55) are not modelled.
- DirSizer.Sizer.Size: the result fields are Go `int64`; the model uses unbounded integers, so the wrap-around of a huge total is not captured.
- DirSizer.Sizer.Size: the model takes `res` deliveries in send order with `res` drained before close. An order that interleaves an early `err` close is covered only by the Finding below.
- DirSizer.SizeOf: the same two limits apply. Totals do not wrap as Go's `int64` would. The answer is proved for the corrected listener and for the listener as written with deliveries in send order; a delivery order in which the closed `err` is selected before buffered partials is covered only by the Finding below.
- `sync.RWMutex` in `SafeMap` and the gap between its check and its write (service.go:102-106): the model is single-threaded.
- `net.ParseIP`, `strconv.Atoi`, JSON encoding and decoding, URL query parsing and `Request.BasicAuth` are foreign calls, taken as inputs.
- The process environment is an input map; `os.Getenv` is a lookup in it that reads an unset variable as "".
- `errors.Is` is modelled as the set of sentinels an error wraps; the unwrapping itself is not modelled.
- The gobreaker state machine, `breakerRoundTripper`, the loggers (server/logger.go, client/logger.go) and custom_roundtripper.go are library wrappers or output-only and are not modelled.
- Server.NewServer: custom middlewares are arbitrary functions in Go. The model knows them only by identity, and assumes they forward requests when it states which requests reach the mux.
- Format.MapStrToStrSlice: Go's map iteration order is unspecified, so it is an input that lists every key once. The text is proved only up to that order (same multiset of lines).
- `main()`, `ListenAndServe`, Concurrency_patterns/homework/pipeline.go and cmd/client/client.go are process wiring or concurrency, and are not modelled.
- The service tests (service_test.go) codify the store-before-validate order of `CreateDevice`. The model keeps it as written.
- ApiCmd.JoinHostPort: `SplitHostPort` is a reference reading for addresses that `JoinHostPort` writes, not Go's full `net.SplitHostPort`.
- ApiCmd.AddressVerbatim: the round trip is stated for a colon-free port and for a host that holds a colon or is not already bracketed. A port with a colon, or a host like "[x]", joins into an address that no host:port reading can split back unambiguously.

## Findings

| source | as written | input that shows it | evidently intended | confidence | as-written member | corrected member |
|---|---|---|---|---|---|---|
| Concurrency/homework/storage/dir_sizer.go:74-83 | The listener stops, reporting success, as soon as the `err` channel is seen closed. The closer closes `res` and then `err`, so `select` can take the closed `err` case while `res` still holds buffered partials. | Root with one 10-byte file; events [err closed, partial {10,1}, res closed] give total {0,0} and no error | Keep receiving until `res` is closed and drained, and ignore the closing of `err` | not executed | DirSizer.ListenAsWritten, DirSizer.EarlyCloseDropsPartials | DirSizer.ListenForResults |
