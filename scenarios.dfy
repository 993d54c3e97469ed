/** Client programs that drive the handlers through short request sequences. */
module Scenarios {
  import opened Wrappers
  import opened GoStrings
  import opened GraphQL
  import opened Http
  import opened Gateway

  /**
   * Three POSTs of {"query": "{ hello }"}: three 200 responses carrying the
   * engine's result, three engine calls with that query, and three records
   * in arrival order.
   */
  method ThreeQueries()
  {
    var journal := new Journal();
    var hello := ExecutionResult(Some(JObject(map["hello" := JString("world")])), []);
    var engine := new Engine((p: Params) => hello);
    // the bytes of {"query": "{ hello }"}
    var body: Bytes := [123, 34, 113, 117, 101, 114, 121, 34, 58, 32, 34, 123, 32, 104, 101, 108, 108, 111, 32, 125, 34, 125];
    var decode := (b: Bytes) => if b == body then Ok(QueryBody("{ hello }", None)) else Err("invalid character");
    assert decode(body) == Ok(QueryBody("{ hello }", None));
    var post := HttpRequest("POST", map[ContentType := [JsonMime]]);
    var read := ReadResult(body, None);

    var w1 := new ResponseWriter<Payload>();
    journal.HandleExecute(w1, engine, post, read, decode, "d1");
    var w2 := new ResponseWriter<Payload>();
    journal.HandleExecute(w2, engine, post, read, decode, "d2");
    var w3 := new ResponseWriter<Payload>();
    journal.HandleExecute(w3, engine, post, read, decode, "d3");
    assert w1.Sent().status == w2.Sent().status == w3.Sent().status == StatusOK;
    assert w3.Sent().body == [Encoded(ResultPayload(hello))];
    assert engine.invocations == [Params("{ hello }", None), Params("{ hello }", None), Params("{ hello }", None)];
    assert |journal.requests| == 3;
    assert journal.requests[0].date == "d1" && journal.requests[1].date == "d2" && journal.requests[2].date == "d3";
  }

  /**
   * The inspect route on any journal: two snapshots in a row are equal, GET
   * sends the journal, POST gets 400, and the journal is unchanged.
   */
  method InspectJournal(journal: Journal)
  {
    var s1 := journal.Snapshot();
    var s2 := journal.Snapshot();
    assert s1 == s2;

    var w4 := new ResponseWriter<Payload>();
    journal.HandleDebug(w4, HttpRequest(MethodGet, map[]));
    assert w4.Sent() == Response(StatusOK, JsonHeader, [Encoded(JournalPayload(s1))]);

    var w5 := new ResponseWriter<Payload>();
    journal.HandleDebug(w5, HttpRequest("POST", map[]));
    assert w5.Sent().status == StatusBadRequest;
    assert journal.requests == s1;
  }

  /** A body that does not decode: status 500, no engine call, nothing journaled. */
  method MalformedBodyIsNotJournaled()
  {
    var journal := new Journal();
    var engine := new Engine((p: Params) => ExecutionResult(None, []));
    var decode := (b: Bytes) => Err("unexpected end of JSON input");
    var w := new ResponseWriter<Payload>();
    journal.HandleExecute(w, engine, HttpRequest("POST", map[]), ReadResult([123], None), decode, "d");
    assert w.Sent().status == StatusInternalServerError;
    assert w.Sent().body == [Text(FormatErrorMessage(DecodeFailurePrefix + "unexpected end of JSON input"))];
    assert engine.invocations == [];
    assert journal.requests == [];
  }

  /** A decoded envelope with an empty query: the raw body is executed with nil variables. */
  method EmptyQueryRunsRawBody()
  {
    var journal := new Journal();
    var engine := new Engine((p: Params) => ExecutionResult(None, [FormattedError("Syntax Error")]));
    var decode := (b: Bytes) => Ok(QueryBody("", Some(map["x" := JNull])));
    var w := new ResponseWriter<Payload>();
    var body: Bytes := [123, 125];
    journal.HandleExecute(w, engine, HttpRequest("POST", map[]), ReadResult(body, None), decode, "d");
    assert BytesToString(body) == "{}";
    assert engine.invocations == [Params("{}", None)];
    assert w.Sent().status == StatusOK;
    assert |journal.requests| == 1 && journal.requests[0].body == "{}";
  }
}
