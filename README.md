# libpod system bindings and `pod prune`: a Dafny model

This project models three sequential pieces of the libpod client:

- **Event subscription** (`Events`, module `Bindings`). It builds the query of
  the events request: `since`, `until` and `filters`, each only when given. It
  issues one `GET /events`. Then it decodes the response body one record at a
  time and pushes each event to the event channel before it decodes the next
  one. It stops at the first end of stream, which returns nil, or at the first
  other decoding error, which returns that error wrapped.
- **System prune** (`Prune`, module `Bindings`). It sets `All` and `Volumes`
  only when their pointers are non-nil, rendered as `"true"`/`"false"`. It
  issues one `POST /system/prune` and returns the processed report.
- **The `pod prune` command** (`PrunePods`, module `Pods`). It refuses
  positional arguments and passes an engine error through unchanged. Otherwise
  it walks the per-pod responses once: it prints the id of every pod removed
  and collects the error of every pod not removed, both in response order.
  Only after the walk does it turn the collected list into the command's
  result.

Module `Common` holds the shared values: `Option` for Go pointers and nil,
`Error` for Go errors (`Wrapped` is what `errors.Wrap` builds), `Result`,
`Values` for `url.Values` with `SetParam` as its `Set`, `Request`, and `Conn`.
A `Conn` holds the transport as a total function from request to response.

The calls into code outside the model are inputs of the operations:

- Obtaining the client connection is the argument `client`.
- The connection's `DoRequest` is the function `Conn.doRequest`.
- The filter encoder is the function argument `encode`.
- Decoding the events response is the body given as a finite sequence of
  decode outcomes (`Outcome`: an event, end of stream, or a decoding error).
  Reading past the end of that sequence gives end of stream.
- Processing the prune response is the `Processed` value the transport returns.
- The engine's pod prune is the argument `engine`.
- `PrintErrors` is the function argument `printErrors`.

What the operations do outside their return values is modelled as extra
results:

- `issued`: the request sent, or `None`.
- `pushed`: the events sent on the channel, in order.
- `decodes`: the number of decode calls.
- `printed`: the lines written to standard output.
- `engineCalled`: whether the engine was asked.

The decode loop is specified by the function `Drain`. `Stop` finds the first
outcome that is not an event. Everything before it is pushed, in order. That
outcome is the last one read, and it decides between a nil result and a
wrapped error. Cancellation closes the response body. In the model, closing
makes the body look cut short (`Cancel`): from the read at which the decoder
first reaches the closed body, every read is end of stream. The decoder keeps
its own read buffer, so that read can come after events that were already
buffered when the body was closed. The cut point `k` counts the decodes up to
that read, not the decodes made when the signal arrived.

Three details of the code that the model keeps:

- `Events` sends `filters` whenever the filter map is non-nil, even when it is
  empty (system.go:32).
- `Prune` returns a non-nil report pointer together with the processing error
  when decoding the response fails (system.go:84). `Prune` here returns
  whatever processing left in the report, plus the error.
- The `pod prune` command keeps only the `Err` of a failed response and drops
  that pod's id (prune.go:56).

## Model

| member | source | states |
|---|---|---|
| `Bindings.EventParams` | pkg/bindings/system/system.go:25-38 | `since`/`until` are keys iff given, with exactly the given value; `filters` is a key iff a filter map is given (even an empty one), with its encoding; no other key; an encoding failure is returned, wrapped in "invalid filters", instead of a query |
| `Bindings.EventQueryDetermined` | pkg/bindings/system/system.go:25-38 | the events-query properties fix the query completely: two maps that meet them are equal |
| `Bindings.Stop` | pkg/bindings/system/system.go:51-58 | gives the first position whose outcome is not an event (or the length): every earlier outcome is an event |
| `Bindings.PayloadsRoundTrip` | pkg/bindings/system/system.go:52-59 | a run of decoded outcomes and the events pushed from it carry the same information: the events of the outcomes of `es` are `es`, and the outcomes of a run's events are that run |
| `Bindings.DecodeLoop` | pkg/bindings/system/system.go:50-61 | the loop pushes exactly the events before the first non-event outcome, in order, makes exactly one decode call past them, and ends clean on end of stream and broken with the cause on a decoding error (equal to `Drain`) |
| `Bindings.DrainEventsThenEnd` | pkg/bindings/system/system.go:50-61 | events e1..ek followed by end of stream, or by nothing: exactly e1..ek are pushed in order, k+1 decodes, clean end, whatever follows is never read |
| `Bindings.DrainEventsThenError` | pkg/bindings/system/system.go:53-58 | events e1..ek followed by a decoding error: exactly e1..ek are pushed in order, k+1 decodes, the loop ends with that error, whatever follows is never read |
| `Bindings.DrainInOrder` | pkg/bindings/system/system.go:51-60 | the i-th pushed event is the i-th outcome read; every read but the last was an event; the last read was not; the end is clean iff the last read was end of stream |
| `Bindings.DrainCancelled` | pkg/bindings/system/system.go:43-56 | if the decoder first reads the closed body at decode k+1 (after k events, some possibly already buffered when the close happened), exactly the first k events are delivered and the end is clean, not an error |
| `Bindings.CancelIdempotent` | pkg/bindings/system/system.go:43-48 | cutting the stream a second time, later, changes nothing about what the loop delivers or returns; the watcher itself receives one signal and closes at most once |
| `Bindings.Events` | pkg/bindings/system/system.go:20-62 | a client error is returned as is, with no request and no event; a filter encoding error is returned wrapped, before any request; otherwise exactly one GET of /events with the query above; a request error is returned with no event pushed; otherwise the pushed events, the decode count and the result are those of the decode loop over the body (nil on end of stream, the cause wrapped in "unable to decode event response" otherwise) |
| `Bindings.PruneParams` | pkg/bindings/system/system.go:73-79 | `All` (resp. `Volumes`) is a key iff its option is given, with value "true" or "false" matching it; no other key |
| `Bindings.PruneQueryDetermined` | pkg/bindings/system/system.go:73-79 | the prune-query properties fix the query; with neither option given the query is empty |
| `Bindings.Prune` | pkg/bindings/system/system.go:65-85 | a client error gives a nil report, that error and no request; otherwise one POST of /system/prune with the prune query; a request error gives a nil report and that error; otherwise the report as processed and the processing error |
| `Pods.PartitionAppend` | cmd/podmanV2/pods/prune.go:52-58 | the printed ids and the collected errors of a concatenation of responses are those of the parts, in order |
| `Pods.PartitionSizes` | cmd/podmanV2/pods/prune.go:52-58 | every response lands in exactly one output: printed ids plus collected errors number the responses |
| `Pods.SucceededIdsExactly` | cmd/podmanV2/pods/prune.go:52-55 | an id is printed iff some response carries it with no error |
| `Pods.FailedErrorsExactly` | cmd/podmanV2/pods/prune.go:56-57 | an error is collected iff some response carries it |
| `Pods.PrunePods` | cmd/podmanV2/pods/prune.go:40-60 | with arguments: the "takes no arguments" error, the engine never called, nothing printed; an engine error is returned unchanged with nothing printed; otherwise the ids of the error-free responses are printed in order, the errors are collected in order, and the result is `printErrors` of the complete list |

## Left out

- The cancellation goroutine (system.go:43-49) is concurrency. Closing the body
  is modelled only by its effect on the reader, a stream cut short (`Cancel`).
  Its write to the shared `err` and its unconditional log line are not
  modelled.
- The JSON decoder's read buffer is not modelled. Events already buffered
  when the body is closed are still decoded and pushed. The model covers this
  only by where the cut point `k` of `Cancel` falls.
- The watcher takes exactly one value from the cancel channel (system.go:45).
  A second signal is never received, and on an unbuffered channel its sender
  blocks. `CancelIdempotent` is about the stream seen by the reader, not about
  a second close, which the code never makes.
- The response body is never closed when the loop ends without a cancel
  (system.go:50-61). The watcher blocks forever on the cancel channel when no
  signal comes (system.go:45). Neither leak is modelled.
- Whether a real closed HTTP body reads as end of stream or as an error
  depends on the transport, which is not part of this model. The model reads
  it as end of stream. If it reads as an error, `DrainEventsThenError`
  describes the outcome.
- Streams that never end are not modelled: the body is a finite sequence of
  outcomes.
- The `context.Context` arguments and the deadline they may carry are not
  modelled.
- The client connection, `DoRequest`, `response.Process`, JSON decoding, the
  filter encoder, `PrintErrors` and the engine's pod prune are calls into code
  that is not part of this model, so they are inputs. No round trip of the
  filter encoding is claimed, because its format is not shown.
- Events and prune reports are opaque type parameters, because their fields
  are not shown.
- cmd/podman/system/version.go is presentation only (templates, tab writer,
  date formatting), so it is not part of this model.
- pkg/domain/entities/types.go declares data holders with no behaviour.
- The cobra command registration and flag wiring (`init`) are not modelled.
- The `--force` option is passed to the engine but stands for nothing in the
  model, because the engine's answer is an input.
