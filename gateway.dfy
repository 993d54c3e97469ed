/**
 * The request-handling pipeline of the gateway: the error envelope, the
 * journal of received requests, the choice of query text and variables,
 * and the two handlers (execute and inspect).
 */
module Gateway {
  import opened Wrappers
  import opened GoStrings
  import opened GraphQL
  import opened Http

  // ---------------------------------------------------------------------
  // Error envelope
  // ---------------------------------------------------------------------

  const EnvelopePrefix := "{\"error\": \""
  const EnvelopeSuffix := "\"}"

  /**
   * `formatErrorMessage`: the message placed verbatim between the prefix
   * and the suffix. Nothing in the message is escaped.
   */
  function FormatErrorMessage(message: string): (envelope: string)
    ensures |envelope| == |EnvelopePrefix| + |message| + |EnvelopeSuffix|
    ensures envelope[..|EnvelopePrefix|] == EnvelopePrefix
    ensures envelope[|EnvelopePrefix|..|envelope| - |EnvelopeSuffix|] == message
    ensures envelope[|envelope| - |EnvelopeSuffix|..] == EnvelopeSuffix
  {
    EnvelopePrefix + message + EnvelopeSuffix
  }

  /** Reads the message back out of an envelope; the inverse of `FormatErrorMessage`. */
  function ParseErrorEnvelope(s: string): Option<string>
  {
    var n := |EnvelopePrefix| + |EnvelopeSuffix|;
    if |s| >= n && s[..|EnvelopePrefix|] == EnvelopePrefix && s[|s| - |EnvelopeSuffix|..] == EnvelopeSuffix
    then Some(s[|EnvelopePrefix|..|s| - |EnvelopeSuffix|])
    else None
  }

  const ReadFailurePrefix := "Failed to read GraphQL query: "
  const DecodeFailurePrefix := "Failed to read query body: "
  const InvalidMethodMessage := "invalid method"
  const ContentType := "Content-Type"
  const JsonMime := "application/json"
  const HeaderValueSeparator := ","

  // ---------------------------------------------------------------------
  // Journal records
  // ---------------------------------------------------------------------

  /** `QueryBody`: the JSON envelope of an execute request. */
  datatype QueryBody = QueryBody(query: string, variables: Variables)

  /** `Request`: one journal entry. */
  datatype Request = Request(headers: map<string, string>, body: string, date: string)

  /** The values the handlers hand to the JSON encoder. */
  datatype Payload = ResultPayload(result: ExecutionResult) | JournalPayload(requests: seq<Request>)

  /** Every header name with its values joined by commas. */
  function JoinedHeaders(header: Header): map<string, string>
  {
    map name | name in header :: Join(header[name], HeaderValueSeparator)
  }

  /**
   * The record `recordRequest` builds: the joined headers, the raw body as
   * a string and the date it was given.
   */
  function NewRecord(header: Header, body: Bytes, date: string): (rec: Request)
    ensures rec.headers.Keys == header.Keys
    ensures forall name :: name in header ==> rec.headers[name] == Join(header[name], HeaderValueSeparator)
    ensures IsByteString(rec.body) && StringToBytes(rec.body) == body
    ensures rec.date == date
  {
    BytesRoundTrip(body);
    Request(JoinedHeaders(header), BytesToString(body), date)
  }

  /** The `for name, value := range r.Header` loop of `recordRequest`. */
  method FlattenHeaders(header: Header) returns (flat: map<string, string>)
    ensures flat.Keys == header.Keys
    ensures forall name :: name in header ==> flat[name] == Join(header[name], HeaderValueSeparator)
    ensures flat == JoinedHeaders(header)
  {
    flat := map[];
    var remaining := header.Keys;
    while remaining != {}
      invariant remaining <= header.Keys
      invariant flat.Keys == header.Keys - remaining
      invariant forall name :: name in flat ==> flat[name] == Join(header[name], HeaderValueSeparator)
      decreases remaining
    {
      var name :| name in remaining;
      flat := flat[name := Join(header[name], HeaderValueSeparator)];
      remaining := remaining - {name};
    }
  }

  // ---------------------------------------------------------------------
  // Query selection and execution
  // ---------------------------------------------------------------------

  /**
   * The query and variables passed to the engine: the decoded query with
   * its variables when the query is non-empty, otherwise the whole raw body
   * with nil variables.
   */
  function SelectQuery(body: Bytes, decoded: QueryBody): (p: Params)
    ensures decoded.query != "" ==> p.requestString == decoded.query && p.variableValues == decoded.variables
    ensures decoded.query == "" ==> p.variableValues == None && IsByteString(p.requestString) && StringToBytes(p.requestString) == body
    ensures p.requestString == "" <==> decoded.query == "" && body == []
  {
    BytesRoundTrip(body);
    if decoded.query != "" then Params(decoded.query, decoded.variables)
    else Params(BytesToString(body), None)
  }

  /** `executeQuery`: one call of the engine; errors in the result are only printed. */
  method ExecuteQuery(engine: Engine, query: string, variableValues: Variables) returns (result: ExecutionResult)
    modifies engine
    ensures result == engine.resolve(Params(query, variableValues))
    ensures engine.invocations == old(engine.invocations) + [Params(query, variableValues)]
  {
    result := engine.Do(Params(query, variableValues));
  }

  // ---------------------------------------------------------------------
  // What the handlers send
  // ---------------------------------------------------------------------

  const JsonHeader: Header := map[ContentType := [JsonMime]]

  /**
   * The response of the execute route. A read failure writes its envelope
   * with status 500 and then falls through to decoding the partial body, so
   * a second chunk follows; a decode failure writes its envelope; otherwise
   * the engine's result is encoded.
   */
  function ExecuteResponse(read: ReadResult, decoded: Result<QueryBody>, resolve: Params -> ExecutionResult): Response<Payload>
  {
    var readChunks :=
      if read.err.Some? then [Text(FormatErrorMessage(ReadFailurePrefix + read.err.value))] else [];
    var status :=
      if read.err.Some? || decoded.Err? then StatusInternalServerError else StatusOK;
    var last :=
      match decoded
      case Err(e) => Text(FormatErrorMessage(DecodeFailurePrefix + e))
      case Ok(qb) => Encoded(ResultPayload(resolve(SelectQuery(read.body, qb))));
    Response(status, JsonHeader, readChunks + [last])
  }

  /** The engine calls the execute route makes: one exactly when the body decodes. */
  function ExecuteInvocations(read: ReadResult, decoded: Result<QueryBody>): seq<Params>
  {
    match decoded
    case Err(_) => []
    case Ok(qb) => [SelectQuery(read.body, qb)]
  }

  /** The records the execute route appends: one exactly when the body decodes. */
  function ExecuteRecords(r: HttpRequest, read: ReadResult, decoded: Result<QueryBody>, date: string): seq<Request>
  {
    if decoded.Ok? then [NewRecord(r.header, read.body, date)] else []
  }

  /** The response of the inspect route for a request method and journal. */
  function DebugResponse(verb: string, requests: seq<Request>): Response<Payload>
  {
    if verb != MethodGet then
      Response(StatusBadRequest, JsonHeader, [Text(FormatErrorMessage(InvalidMethodMessage))])
    else
      Response(StatusOK, JsonHeader, [Encoded(JournalPayload(requests))])
  }

  // ---------------------------------------------------------------------
  // The process-wide journal and the handlers
  // ---------------------------------------------------------------------

  /**
   * The process-wide `requests` slice, its lock taken as making every
   * operation atomic, and the two handlers that use it.
   */
  class Journal {
    var requests: seq<Request>

    /** `init`: the journal starts empty. */
    constructor ()
      ensures requests == []
    {
      requests := [];
    }

    /** `recordRequest`: appends exactly one record. */
    method RecordRequest(header: Header, body: Bytes, date: string)
      modifies this
      ensures requests == old(requests) + [NewRecord(header, body, date)]
      ensures |requests| == |old(requests)| + 1 && old(requests) <= requests
    {
      var headers := FlattenHeaders(header);
      var request := Request(headers, BytesToString(body), date);
      requests := requests + [request];
    }

    /** The read under `RLock` in `debugHandler`: the whole journal in order. */
    method Snapshot() returns (s: seq<Request>)
      ensures s == requests
    {
      s := requests;
    }

    /** `graphqlHandler`; `read` is what reading the body gave, `decode` is `json.Unmarshal`. */
    method HandleExecute(w: ResponseWriter<Payload>, engine: Engine, r: HttpRequest, read: ReadResult,
                         decode: Bytes -> Result<QueryBody>, date: string)
      requires w.IsFresh()
      modifies this, w, engine
      ensures w.Sent() == ExecuteResponse(read, decode(read.body), engine.resolve)
      ensures requests == old(requests) + ExecuteRecords(r, read, decode(read.body), date)
      ensures engine.invocations == old(engine.invocations) + ExecuteInvocations(read, decode(read.body))
    {
      var body := read.body;
      if read.err.Some? {
        w.SetHeader(ContentType, JsonMime);
        w.WriteHeader(StatusInternalServerError);
        w.Write(Text(FormatErrorMessage(ReadFailurePrefix + read.err.value)));
      }

      var decoded := decode(body);
      if decoded.Err? {
        w.SetHeader(ContentType, JsonMime);
        w.WriteHeader(StatusInternalServerError);
        w.Write(Text(FormatErrorMessage(DecodeFailurePrefix + decoded.msg)));
        return;
      }

      var p := SelectQuery(body, decoded.value);
      var result := ExecuteQuery(engine, p.requestString, p.variableValues);

      RecordRequest(r.header, body, date);

      w.SetHeader(ContentType, JsonMime);
      w.Write(Encoded(ResultPayload(result)));
    }

    /** `debugHandler`: only GET is accepted; the journal is never changed. */
    method HandleDebug(w: ResponseWriter<Payload>, r: HttpRequest)
      requires w.IsFresh()
      modifies w
      ensures w.Sent() == DebugResponse(r.verb, requests)
    {
      if r.verb != MethodGet {
        w.SetHeader(ContentType, JsonMime);
        w.WriteHeader(StatusBadRequest);
        w.Write(Text(FormatErrorMessage(InvalidMethodMessage)));
        return;
      }
      var snapshot := Snapshot();
      w.SetHeader(ContentType, JsonMime);
      w.Write(Encoded(JournalPayload(snapshot)));
    }
  }
}
