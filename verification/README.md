# http-multiplexer: a Dafny model of the batch fetch handler

The service accepts `POST /` with a JSON body `{"urls": [...]}`. It fetches every URL
concurrently under one 10-second deadline. It answers with the response bodies, JSON-encoded
as strings in input order, or with the first error it observes. This project models the decision logic of
`internal/web/handler.go` as pure functions. The goroutines, channels and I/O are replaced
by abstract inputs:

- `Fetch.Fetch` is what one GET gives back. The request could not be built, the
  transport failed (with its rendered error text and whether it was a timeout), or a
  response arrived (its status code, and its body or a failed read).
- `env(i, url)` is the fetch result task `i` obtains for `url`.
- `deadline` says whether the context deadline had fired by the time the final `select` ran.
- `marshalOk` says whether `json.Marshal` of the results succeeded.
- `pick` is the `select`'s random choice among the ready cases.
- A completion order (`Slots.IsCompletionOrder`) is any order in which the tasks finish.

Modules follow the handler's structure:

- `Format`: Go's `%v` rendering of non-negative integers, with its parser.
- `Http`: `ErrorData`, and the reply triple (content type, status, body) that
  `sendResponse` writes.
- `Routing`: `ServeHTTP`'s single route.
- `Validation`: `MAX_URLS` and the three rejections at the start of `handleRequest`.
- `Fetch`: one per-URL task, its error-channel sends, the outcome the batch can observe,
  and `Diagnose`, which reads the failure back from an error message.
- `Slots`: the `responses` slot array, filled in any completion order.
- `Orchestrator`: the final `select` over the deadline, the error channel and the result
  channel. It is a function of `pick` and also a relation (`Possible`), and the two are
  proved to agree.
- `Handler`: the whole request, end to end.

Details of the Go code that the model keeps exactly:

- The too-many message is `the maximum number of URLs allowed 20`, with no "is"
  (internal/web/handler.go:59).
- The too-many check runs before the empty check (internal/web/handler.go:56, 65).
- A transport error is wrapped in single quotes: `failed to get "<url>": '<err>'`
  (internal/web/handler.go:108).
- A request that cannot be built gives `Internal server error` with status 500
  (internal/web/handler.go:93-96).
- A marshalling failure reports `Internal server error`, capitalised
  (internal/web/handler.go:138).
- On a per-URL timeout the code sends the 408 and then a 502 for the same task
  (internal/web/handler.go:101-110). `Fetch.Task` records both sends. Only the first can
  ever be received, because the handler reads the error channel once, so `Fetch.Classify`
  reports the 408.

## Model

| member | source | states |
|---|---|---|
| Routing.RouteRequest | internal/web/handler.go:22-31 | The batch handler is reached exactly when the method is POST and the path is `/`. Every other request gets status 404, `text/plain`, body `404`. |
| Handler.ServeHttp | internal/web/handler.go:22-31 | A request other than `POST /` gets the 404 reply whatever its body, the network or the clock. `POST /` gets whatever the batch handler replies. |
| Validation.Validate | internal/web/handler.go:16-68 | A decoded list passes iff it holds 1 to 20 URLs, and it passes unchanged. Every rejection is a 400. A decode failure gives `wrong body format` before any length check. More than 20 gives `the maximum number of URLs allowed 20`. An empty list gives `array of urls required`. |
| Validation.RejectionsDistinct | internal/web/handler.go:51-68 | Two rejected bodies that get the same error were rejected for the same reason: both undecodable, or both decoded with an empty list, or both with too many URLs. |
| Format.DecimalRoundTrip | internal/web/handler.go:59 | Parsing the `%v` rendering of a number gives back that number. |
| Fetch.Task | internal/web/handler.go:87-130 | A task either stores a body in its slot or sends on the error channel, never both. It sends at most twice. It sends twice exactly on a timed-out transport error: first a 408, then a 502. |
| Fetch.Classify | internal/web/handler.go:91-129 | The observable outcome follows the source's priority. A request that cannot be built gives (`Internal server error`, 500). A timeout gives (`request timeout on "<url>"`, 408). Another transport error gives (`failed to get "<url>": '<err>'`, 502). An upstream status of 400 or more gives that status with the status-code message. A failed body read gives (`failed to process response from "<url>"`, 500). Success happens iff the status is below 400 and the body was read, and the body is returned. Every error status is at least 400. |
| Fetch.DiagnoseClassify | internal/web/handler.go:93-127 | A task fails iff its fetch result falls in a failure branch. Each reported message, read back with its URL, identifies that branch exactly. The transport error text and the upstream status code are recovered from the message. |
| Fetch.DiagnoseTransport | internal/web/handler.go:107-110 | The 502 transport message for a URL is read back as a transport failure carrying exactly the original error text. |
| Fetch.DiagnoseStatus | internal/web/handler.go:113-117 | The status-code message for a URL is read back as an upstream-status failure carrying exactly the original code. |
| Slots.FillSlots | internal/web/handler.go:70-129 | For every completion order, the slot array has one entry per URL. Slot `i` holds the body fetched for URL `i`, or the empty string if that task failed. |
| Orchestrator.Aggregate | internal/web/handler.go:133-153 | For every choice of the `select`, the reply is one the relation `Possible` allows. Those are the deadline reply if the deadline fired, a failing task's error, or the completion reply when every task succeeded. |
| Orchestrator.AggregateComplete | internal/web/handler.go:146-153 | Every reply `Possible` allows is produced by some choice of the `select`. |
| Orchestrator.PickTaskError | internal/web/handler.go:93-127 | Any failing task's error is the reply for some choice of the `select`: every failure can win the race. |
| Orchestrator.ReadySignalsSound | internal/web/handler.go:88-153 | A ready signal is the deadline only if it fired, an error only of a failing task, and the result only when no task failed. |
| Orchestrator.AllOrNothing | internal/web/handler.go:88-153 | Once any task fails, the reply is never the JSON result. It is the deadline reply or the error of a failing task. |
| Orchestrator.CompletedInOrder | internal/web/handler.go:129-152 | A JSON reply is a 200 `application/json` reply. It needs every task to have succeeded and marshalling to have worked. It holds one response per URL, with response `i` the body of task `i`. |
| Orchestrator.NoDeadlineAllFetched | internal/web/handler.go:133-153 | If the deadline has not fired and every task succeeded, every choice of the `select` gives the completion reply. |
| Handler.HandleRequest | internal/web/handler.go:45-153 | A rejected batch gets a plain-text 400. An accepted batch's reply is one the `select` may produce. Status 200 comes exactly with the JSON body. Any other reply is plain text with status 400 or more. A failing URL forces a status of 400 or more. A JSON reply has one response per URL, and response `i` is the body (as a string) the GET of URL `i` returned, with a status below 400. |
| Handler.AcceptedReply | internal/web/handler.go:70-153 | For an accepted batch, status 200 comes exactly with the JSON body. Any other reply is plain text with status 400 or more. A URL whose fetch fails rules out 200. A JSON reply's response `i` is the body (as a string) the GET of URL `i` returned, with a status below 400. |
| Handler.RejectedBatchFetchesNothing | internal/web/handler.go:51-68 | A rejected batch's reply does not depend on the fetch results, the deadline, marshalling or the `select`'s choice. |
| Handler.TaskErrorIsNotDeadline | internal/web/handler.go:101-106 | No per-URL error reply equals the deadline reply (`request timeout`, 408), including a URL's own timeout. |
| Handler.ExactlyOneOutcome | internal/web/handler.go:146-153 | An accepted batch's reply is exactly one of the deadline reply, a failing URL's error, or the completion reply. |

## Left out

- Goroutines, `sync.WaitGroup`, the unbuffered channels and the `select`'s random choice are
  not modelled as processes. The `select` is an abstract choice (`pick`) among the signals
  that can be ready. The slot writes are replayed in an abstract completion order.
- The concurrency defects are not modelled. The blocked second send after a timeout, and
  every unread error send, leave their goroutine blocked forever. Only the reply is modelled.
- Orchestrator.Possible: timing is over-approximated. Any failing task's error may win the
  race, and the deadline may win whenever it has fired, whatever the actual timing was.
- `context.WithTimeout` (10 seconds), `http.Client`, `http.Transport` and the 1-second dial
  timeout are not modelled. Each fetch is an abstract result, and the deadline is a flag.
- JSON decoding and `json.Marshal` are not modelled. Decoding gives an optional URL list.
  The JSON body is represented by the ordered list of strings it encodes, and a
  marshalling failure is a flag.
- Response bodies are byte strings in Go and `string` here. `json.Marshal` replaces invalid
  UTF-8 with U+FFFD, so response `i` equals the fetched body only for UTF-8 bodies.
- Handler.HandleRequest and Handler.AcceptedReply: response `i` is stated equal to the
  fetched body taken as a string, which matches the Go program only for UTF-8 bodies
  (see the line above).
- The rendering of Go `error` values is not modelled. The transport error text is an
  opaque string.
- `internal/web/utils.go` (`sendResponse`) only writes the header, status and body. Its
  effect is the `Http.Reply` value.
- `internal/web/web.go` and `cmd/server/main.go` are not modelled. They cover server
  construction, `ListenAndServe`, graceful shutdown and signal handling.
- Logging is not modelled.
