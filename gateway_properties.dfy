/** What the gateway's specification functions promise, stated as lemmas. */
module GatewayProperties {
  import opened Wrappers
  import opened GoStrings
  import opened GraphQL
  import opened Http
  import opened Gateway

  /** The message can be read back out of every envelope. */
  lemma EnvelopeRoundTrip(message: string)
    ensures ParseErrorEnvelope(FormatErrorMessage(message)) == Some(message)
  {
    var e := FormatErrorMessage(message);
    assert e[..|EnvelopePrefix|] == EnvelopePrefix;
    assert e[|e| - |EnvelopeSuffix|..] == EnvelopeSuffix;
  }

  /** Whatever parses as an envelope is the envelope of the message read from it. */
  lemma EnvelopeParseSound(s: string)
    requires ParseErrorEnvelope(s).Some?
    ensures FormatErrorMessage(ParseErrorEnvelope(s).value) == s
  {
    var m := ParseErrorEnvelope(s).value;
    assert s == s[..|EnvelopePrefix|] + m + s[|s| - |EnvelopeSuffix|..];
  }

  /** Different messages give different envelopes. */
  lemma EnvelopeInjective(a: string, b: string)
    requires FormatErrorMessage(a) == FormatErrorMessage(b)
    ensures a == b
  {
    EnvelopeRoundTrip(a);
    EnvelopeRoundTrip(b);
  }

  /** A double quote in the message is copied as it is, not escaped. */
  lemma EnvelopeDoesNotEscape()
    ensures FormatErrorMessage("a\"b") == "{\"error\": \"a\"b\"}"
  {
  }

  /** The body the inspect route sends for a wrong method. */
  lemma InvalidMethodEnvelope()
    ensures FormatErrorMessage(InvalidMethodMessage) == "{\"error\": \"invalid method\"}"
  {
  }

  /**
   * A body that does not decode: status 500 and the decode-failure envelope,
   * no engine call and no journal record.
   */
  lemma ExecuteDecodeFailure(r: HttpRequest, read: ReadResult, e: string, resolve: Params -> ExecutionResult, date: string)
    requires read.err.None?
    ensures ExecuteResponse(read, Err(e), resolve)
         == Response(StatusInternalServerError, JsonHeader, [Text(FormatErrorMessage(DecodeFailurePrefix + e))])
    ensures ParseErrorEnvelope(ExecuteResponse(read, Err(e), resolve).body[0].text) == Some(DecodeFailurePrefix + e)
    ensures ExecuteInvocations(read, Err(e)) == []
    ensures ExecuteRecords(r, read, Err(e), date) == []
  {
    EnvelopeRoundTrip(DecodeFailurePrefix + e);
  }

  /**
   * A body that decodes: status 200 and the engine's result, whatever errors
   * it holds; exactly one engine call and one record, the record last.
   */
  lemma ExecuteSuccess(r: HttpRequest, read: ReadResult, qb: QueryBody, resolve: Params -> ExecutionResult, date: string)
    requires read.err.None?
    ensures ExecuteResponse(read, Ok(qb), resolve)
         == Response(StatusOK, JsonHeader, [Encoded(ResultPayload(resolve(SelectQuery(read.body, qb))))])
    ensures ExecuteInvocations(read, Ok(qb)) == [SelectQuery(read.body, qb)]
    ensures ExecuteRecords(r, read, Ok(qb), date) == [NewRecord(r.header, read.body, date)]
  {
  }

  /** Status 200 exactly when the body was read and decoded. */
  lemma ExecuteStatus(read: ReadResult, decoded: Result<QueryBody>, resolve: Params -> ExecutionResult)
    ensures ExecuteResponse(read, decoded, resolve).status == StatusOK <==> read.err.None? && decoded.Ok?
    ensures ExecuteResponse(read, decoded, resolve).status != StatusOK ==>
              ExecuteResponse(read, decoded, resolve).status == StatusInternalServerError
  {
  }

  /** The status does not depend on what the engine returns, errors included. */
  lemma ExecuteStatusIgnoresResult(read: ReadResult, decoded: Result<QueryBody>,
                                   resolve1: Params -> ExecutionResult, resolve2: Params -> ExecutionResult)
    ensures ExecuteResponse(read, decoded, resolve1).status == ExecuteResponse(read, decoded, resolve2).status
  {
  }

  /** A result that carries execution errors is still sent with status 200. */
  lemma ExecutionErrorsStillOK(read: ReadResult, qb: QueryBody, resolve: Params -> ExecutionResult)
    requires read.err.None?
    requires HasErrors(resolve(SelectQuery(read.body, qb)))
    ensures ExecuteResponse(read, Ok(qb), resolve).status == StatusOK
    ensures ExecuteResponse(read, Ok(qb), resolve).body == [Encoded(ResultPayload(resolve(SelectQuery(read.body, qb))))]
  {
  }

  /**
   * A failed read does not stop the handler: its envelope goes out with
   * status 500 and the partial body is still decoded, so a second chunk
   * follows, and when that body decodes the engine runs and the request is
   * journaled.
   */
  lemma ReadFailureFallsThrough(r: HttpRequest, read: ReadResult, decoded: Result<QueryBody>,
                                resolve: Params -> ExecutionResult, date: string)
    requires read.err.Some?
    ensures ExecuteResponse(read, decoded, resolve).status == StatusInternalServerError
    ensures |ExecuteResponse(read, decoded, resolve).body| == 2
    ensures ExecuteResponse(read, decoded, resolve).body[0] == Text(FormatErrorMessage(ReadFailurePrefix + read.err.value))
    ensures decoded.Ok? ==>
              && ExecuteResponse(read, decoded, resolve).body[1]
                 == Encoded(ResultPayload(resolve(SelectQuery(read.body, decoded.value))))
              && |ExecuteInvocations(read, decoded)| == 1
              && |ExecuteRecords(r, read, decoded, date)| == 1
  {
  }

  /** The inspect route answers 200 with the journal exactly for GET, and 400 otherwise. */
  lemma DebugResponseCases(verb: string, requests: seq<Request>)
    ensures verb == MethodGet ==>
              DebugResponse(verb, requests) == Response(StatusOK, JsonHeader, [Encoded(JournalPayload(requests))])
    ensures verb != MethodGet ==>
              DebugResponse(verb, requests)
              == Response(StatusBadRequest, JsonHeader, [Text("{\"error\": \"invalid method\"}")])
  {
    InvalidMethodEnvelope();
  }

  /**
   * A journaled header's values can be recovered by splitting on commas,
   * provided it has at least one value and none of its values holds a comma.
   */
  lemma HeaderValuesRecoverable(header: Header, body: Bytes, date: string, name: string)
    requires name in header && header[name] != []
    requires forall k :: 0 <= k < |header[name]| ==> ',' !in header[name][k]
    ensures Split(NewRecord(header, body, date).headers[name], ',') == header[name]
  {
    SplitJoin(header[name], ',');
  }

  /** The journaled body is the raw body: two records with the same body string came from the same bytes. */
  lemma RecordBodyDeterminesBytes(h1: Header, b1: Bytes, d1: string, h2: Header, b2: Bytes, d2: string)
    requires NewRecord(h1, b1, d1).body == NewRecord(h2, b2, d2).body
    ensures b1 == b2
  {
    BytesToStringInjective(b1, b2);
  }
}
