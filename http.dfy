/**
 * The slice of net/http and io the handlers touch: the request's method and
 * header, the outcome of reading its body, and a response writer with Go's
 * rules (the first `WriteHeader` wins, a `Write` before any `WriteHeader`
 * sends status 200).
 */
module Http {
  import opened Wrappers
  import opened GoStrings

  /** `http.Header`: each name carries a list of values. */
  type Header = map<string, seq<string>>

  /** An inbound request: `verb` is `r.Method`, `header` is `r.Header`. */
  datatype HttpRequest = HttpRequest(verb: string, header: Header)

  /** What `io.ReadAll(r.Body)` returned: the bytes read and the error, if any. */
  datatype ReadResult = ReadResult(body: Bytes, err: Option<string>)

  const MethodGet := "GET"
  const StatusOK := 200
  const StatusBadRequest := 400
  const StatusInternalServerError := 500

  /**
   * One `Write` made to the response: literal text, or a value handed to
   * `json.NewEncoder(w).Encode`, whose byte form is not modelled.
   */
  datatype Chunk<V> = Text(text: string) | Encoded(value: V)

  /** What the client receives: status, header and the written chunks in order. */
  datatype Response<V> = Response(status: int, header: Header, body: seq<Chunk<V>>)

  class ResponseWriter<V> {
    var header: Header
    var wroteHeader: bool
    var status: int
    var body: seq<Chunk<V>>

    /** A writer as the server hands it to a handler. */
    predicate IsFresh()
      reads this
    {
      header == map[] && !wroteHeader && body == []
    }

    constructor ()
      ensures IsFresh()
    {
      header, wroteHeader, status, body := map[], false, 0, [];
    }

    /** The response as sent; a handler that never writes a status sends 200. */
    function Sent(): Response<V>
      reads this
    {
      Response(if wroteHeader then status else StatusOK, header, body)
    }

    /** `w.Header().Set(key, value)`. */
    method SetHeader(key: string, value: string)
      modifies this
      ensures header == old(header)[key := [value]]
      ensures wroteHeader == old(wroteHeader) && status == old(status) && body == old(body)
    {
      header := header[key := [value]];
    }

    /** `w.WriteHeader(code)`: a second call is superfluous and ignored. */
    method WriteHeader(code: int)
      modifies this
      ensures wroteHeader
      ensures status == if old(wroteHeader) then old(status) else code
      ensures header == old(header) && body == old(body)
    {
      if !wroteHeader {
        status := code;
        wroteHeader := true;
      }
    }

    /** `w.Write(data)`: sends status 200 first when no status was written. */
    method Write(data: Chunk<V>)
      modifies this
      ensures wroteHeader
      ensures status == if old(wroteHeader) then old(status) else StatusOK
      ensures header == old(header) && body == old(body) + [data]
    {
      if !wroteHeader {
        WriteHeader(StatusOK);
      }
      body := body + [data];
    }
  }
}
