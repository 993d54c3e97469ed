# GraphQL gateway request pipeline, modelled in Dafny

This project models the request-handling core of a small GraphQL-over-HTTP
gateway written in Go (`main.go`). The gateway has two routes.

* **Execute** (`graphqlHandler`) reads the request body and decodes it as a
  `QueryBody` (`query`, `variables`). It picks the query text and variables,
  runs the query once against the schema, appends one `Request` record to the
  process-wide journal, and encodes the result with status 200. A body that
  does not decode gets status 500 and the envelope
  `{"error": "Failed to read query body: …"}`. That request is not executed
  and not journaled.
* **Inspect** (`debugHandler`) answers GET with the whole journal in arrival
  order. Any other method gets status 400 and `{"error": "invalid method"}`.

Files and modules:

* `wrappers.dfy` (`Wrappers`): `Option` and `Result`.
* `go_strings.dfy` (`GoStrings`): bytes, the `string(b)` conversion and its
  inverse, `strings.Join`, and a `Split` that inverts `Join` when there is
  at least one value and no value holds the separator.
* `graphql.dfy` (`GraphQL`): JSON values, `graphql.Params`,
  `graphql.Result`, and an `Engine` class. The engine stands for the schema
  and `graphql.Do`. It is a caller-chosen function, and its ghost
  `invocations` log records every call.
* `http.dfy` (`Http`): requests, the outcome of `io.ReadAll`, and a
  `ResponseWriter` class with Go's rules. The first `WriteHeader` wins, and a
  `Write` made before any `WriteHeader` sends 200. Its function `Sent` is
  the response as the client receives it once the handler returns. The
  handlers' contracts are stated through it.
* `gateway.dfy` (`Gateway`): the core of `main.go`. It holds
  `formatErrorMessage`, the journal record, the header-flattening loop, the
  query selection and `executeQuery`. It also holds the specification
  functions for both routes and the `Journal` class. That class has the
  `requests` field, `recordRequest`, the snapshot and both handlers.
* `gateway_properties.dfy` (`GatewayProperties`): lemmas about those
  specification functions.
* `scenarios.dfy` (`Scenarios`): client methods that drive the handlers
  through short request sequences.

Inputs that come from outside the program are parameters:

* the outcome of reading the body (`ReadResult`);
* `json.Unmarshal`, as a function `Bytes -> Result<QueryBody>`;
* the engine's resolver function;
* the timestamp string.

Two behaviours of the code differ from what one might expect of a gateway,
and the model follows the code:

* **Read failures.** One would expect a body-read failure to end the
  request. The read-failure branch (`main.go:69-77`) has no `return`.
  The handler goes on to decode the partial body. If that body decodes, the
  query runs and is journaled, and the encoded result is written after the
  first envelope with status still 500. `ReadFailureFallsThrough` states this.
* **Raw query text.** One might expect a raw query such as `{ hello }` to
  be run as the query text. Such a body fails `json.Unmarshal` and gets
  status 500. The raw body is used only when the JSON decodes with an empty
  `query`, as with `{}` or `null`. How a given body decodes is up to the
  decoder function passed in.

## Model

| member | source | states |
|---|---|---|
| `Gateway.FormatErrorMessage` | main.go:19-21 | The envelope is `{"error": "`, then the message verbatim (no escaping), then `"}`; its length is the message length plus 13 |
| `GatewayProperties.EnvelopeRoundTrip` | main.go:19-21 | The message can be read back out of every envelope |
| `GatewayProperties.EnvelopeParseSound` | main.go:19-21 | Any string that parses as an envelope is the envelope of the message read from it |
| `GatewayProperties.EnvelopeInjective` | main.go:19-21 | Different messages give different envelopes |
| `GatewayProperties.EnvelopeDoesNotEscape` | main.go:19-21 | A double quote in the message is copied into the envelope unescaped |
| `GatewayProperties.InvalidMethodEnvelope` | main.go:114 | The wrong-method body is exactly `{"error": "invalid method"}` |
| `GoStrings.Join` | main.go:58 | `strings.Join` gives "" for no values and starts with the first value; its length is the values' total length plus one separator between each pair of neighbours |
| `GoStrings.JoinSplit` | main.go:58 | Splitting on the separator and joining again gives back the string |
| `GoStrings.SplitJoin` | main.go:58 | When there is at least one value and no value holds the separator, splitting the joined text gives back the values |
| `GoStrings.JoinLosesSeparatorInValues` | main.go:58 | One value `a,b` and two values `a`, `b` join to the same text |
| `GoStrings.BytesToString` | main.go:62 | `string(body)` has as many characters as the body has bytes (that no byte is lost is `BytesRoundTrip`) |
| `GoStrings.BytesRoundTrip` | main.go:62 | `string(body)` loses nothing: the bytes come back from the string |
| `GoStrings.StringRoundTrip` | main.go:96 | A string whose characters are bytes comes back from its bytes |
| `GoStrings.BytesToStringInjective` | main.go:62 | Two bodies with the same string form are equal |
| `Gateway.FlattenHeaders` | main.go:56-59 | The loop over `r.Header` gives a map with the same names, each mapped to its values joined with `,` |
| `Gateway.NewRecord` | main.go:60-64 | The record's header names are the request's header names, each value is the joined values, the body converts back to the raw bytes, and the date is the one given |
| `GatewayProperties.HeaderValuesRecoverable` | main.go:56-59 | A journaled header with at least one value, none holding a comma, splits back into its values |
| `GatewayProperties.RecordBodyDeterminesBytes` | main.go:62 | Records with the same body string came from the same raw bytes |
| `Gateway.SelectQuery` | main.go:90-97 | A non-empty decoded query runs with exactly its decoded variables; an empty one runs the raw body with nil variables; the executed text is empty only when the query and the body both are |
| `GraphQL.Engine.Do` | main.go:24-28 | `graphql.Do` returns the schema's result for the parameters and is logged as one call |
| `Gateway.ExecuteQuery` | main.go:23-33 | The result is the engine's result for the query and variables, from exactly one engine call; errors do not change the result |
| `Http.ResponseWriter.SetHeader` | main.go:71 | `Header().Set` replaces the values of one name and changes nothing else |
| `Http.ResponseWriter.WriteHeader` | main.go:72 | The first status written wins; later ones are ignored |
| `Http.ResponseWriter.Write` | main.go:73 | A write adds one chunk, and sends 200 first if no status was written |
| `Gateway.Journal.constructor` | main.go:124-127 | The journal starts empty |
| `Gateway.Journal.RecordRequest` | main.go:51-66 | Exactly one record is appended; the old journal is a prefix and the new record is last |
| `Gateway.Journal.Snapshot` | main.go:117-121 | The snapshot is the whole journal in order, and nothing changes, so two snapshots in a row are equal |
| `Gateway.Journal.HandleExecute` | main.go:68-108 | The response is `ExecuteResponse`; the journal grows by one record exactly when the body decodes; the engine is called once exactly when the body decodes, with the selected query |
| `Gateway.Journal.HandleDebug` | main.go:110-122 | The response is `DebugResponse` for the method and the current journal; the journal is not modified |
| `GatewayProperties.ExecuteDecodeFailure` | main.go:80-88 | With the body read, a decode failure gets 500 and the envelope `Failed to read query body: ` + error; the engine is not called and nothing is journaled |
| `GatewayProperties.ExecuteSuccess` | main.go:90-104 | With the body read and decoded, the response is 200 with the engine's result; one engine call with the selected query and one record are made |
| `GatewayProperties.ExecuteStatus` | main.go:68-108 | The status is 200 exactly when the body was read and decoded, and 500 otherwise |
| `GatewayProperties.ExecuteStatusIgnoresResult` | main.go:99-104 | The status does not depend on the engine's result, so errors in it still give 200 |
| `GatewayProperties.ExecutionErrorsStillOK` | main.go:29-32 | A decoded, read body whose result carries execution errors is still sent with status 200 and that result |
| `GatewayProperties.ReadFailureFallsThrough` | main.go:69-88 | A read failure sends status 500 and its envelope first, then a second chunk; if the partial body decodes, the engine runs once and the request is journaled |
| `GatewayProperties.DebugResponseCases` | main.go:110-122 | GET gets 200 with the full journal; any other method gets 400 with `{"error": "invalid method"}` |

## Left out

- Server bootstrap (`main.go:129-151`): flag parsing, route registration, `ListenAndServe`. This is command-line and network plumbing.
- `graphql.Do` internals and the schema (`main.go:23-28`): query parsing, validation and resolution. The engine is a function supplied by the caller.
- `json.Unmarshal`: it is a decoder function passed to the handler. Go's decoding rules (case-insensitive keys, `null` leaving the zero value) are not modelled.
- `json.NewEncoder(w).Encode`: the value handed to the encoder is recorded as an `Encoded` chunk. Its bytes and the trailing newline are not modelled.
- `sync.RWMutex` locking: every journal operation is atomic, and requests are handled one after another. Interleavings of concurrent handlers are not modelled.
- `time.Now().Format(time.RFC850)`: the date is a string parameter.
- `fmt.Printf` of execution errors (`main.go:30`), `log.Fatalf` on a failed response write (`main.go:75`, `main.go:106`), and `r.Body.Close()`: output and process exit. Writes to the response always succeed in the model.
- Http.ResponseWriter.SetHeader: Go canonicalises header names and ignores header changes after `WriteHeader` when sending. The model keeps one header map and does neither. The handlers only set `Content-Type` to one value, so nothing they send changes.
- Go strings are modelled as sequences of characters, `string(body)` maps each byte to the character with the same code, and UTF-8 is not modelled.
- JSON numbers in variables are kept as their literal text; floating-point values are not modelled.
