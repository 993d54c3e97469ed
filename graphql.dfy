/**
 * The query engine as the gateway sees it: `graphql.Do` over a fixed schema,
 * its parameters and its result. How a query is parsed, validated and
 * resolved is not modelled; the engine is a function chosen by the caller.
 */
module GraphQL {
  import opened Wrappers

  /** A decoded JSON value (`interface{}` from encoding/json). */
  datatype JsonValue =
    | JNull
    | JBool(b: bool)
    | JNumber(literal: string)
    | JString(s: string)
    | JArray(items: seq<JsonValue>)
    | JObject(members: map<string, JsonValue>)

  /** `map[string]interface{}`; `None` is Go's nil map. */
  type Variables = Option<map<string, JsonValue>>

  /** `graphql.Params` without the schema, which the engine holds. */
  datatype Params = Params(requestString: string, variableValues: Variables)

  datatype FormattedError = FormattedError(message: string)

  /** `graphql.Result`: data and the errors the engine reported. */
  datatype ExecutionResult = ExecutionResult(data: Option<JsonValue>, errors: seq<FormattedError>)

  predicate HasErrors(r: ExecutionResult)
  {
    |r.errors| > 0
  }

  /**
   * The schema together with `graphql.Do`. Resolvers may have side effects,
   * so every call is logged in `invocations`.
   */
  class Engine {
    const resolve: Params -> ExecutionResult
    ghost var invocations: seq<Params>

    constructor (resolve: Params -> ExecutionResult)
      ensures this.resolve == resolve
      ensures invocations == []
    {
      this.resolve := resolve;
      invocations := [];
    }

    /** `graphql.Do(p)`: runs the query once. */
    method Do(p: Params) returns (result: ExecutionResult)
      modifies this
      ensures result == resolve(p)
      ensures invocations == old(invocations) + [p]
    {
      result := resolve(p);
      invocations := invocations + [p];
    }
  }
}
