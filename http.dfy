/** The API Gateway proxy event and result as the handlers see them. */
module Http {
  import opened Json

  /**
   * A proxy request. Absent path or query parameters are missing keys. `body` is None when the
   * raw body is null or the empty string (both falsy in JavaScript), and otherwise the object
   * that JSON.parse returns for it.
   */
  datatype Request = Request(
    httpMethod: string,
    pathParameters: map<string, string>,
    queryStringParameters: map<string, string>,
    body: Option<Item>)

  /** `params?.[name]` is truthy: present and not the empty string. */
  predicate Truthy(params: map<string, string>, name: string)
    ensures Truthy(params, name) <==> name in params && |params[name]| > 0
  {
    name in params && params[name] != ""
  }

  /**
   * `id !== data.id` is false: the body's `id` is the path id, as a string. A missing `id` is
   * `undefined`, and a number never strictly equals a string, so neither matches.
   */
  predicate IdMatches(body: Item, pathId: string)
    ensures IdMatches(body, pathId) ==> "id" in body && body["id"] == Str(pathId)
    ensures "id" !in body ==> !IdMatches(body, pathId)
    ensures "id" in body && !body["id"].Str? ==> !IdMatches(body, pathId)
  {
    HasStr(body, "id", pathId)
  }

  type Headers = map<string, string>

  /** `Content-Type: application/json` followed by the CORS header. */
  const JsonHeaders: Headers := map["Content-Type" := "application/json", "Access-Control-Allow-Origin" := "*"]

  /**
   * A response body. `Text` is a plain string, `JsonBody` the JSON text of a value, `Items` the
   * JSON array of a query's or scan's `Items`, and `QueryOutput` the JSON text of the whole
   * query output object, whose `Items` member is the given set.
   */
  datatype Body =
    | Text(text: string)
    | JsonBody(value: Value)
    | Items(items: set<Item>)
    | QueryOutput(items: set<Item>)

  datatype Response = Response(statusCode: int, headers: Option<Headers>, body: Body)

  /** What an invocation yields: a response, or an exception thrown by the store call. */
  datatype Result = Returned(response: Response) | Thrown
  {
    predicate Succeeded()
    {
      Returned? && response.statusCode < 400
    }
  }

  /** `{ message }` as JSON. */
  function Message(text: string): (b: Body)
    ensures b.JsonBody? && b.value.Obj? && b.value.fields.Keys == {"message"}
    ensures b.value.fields["message"] == Str(text)
  {
    JsonBody(Obj(map["message" := Str(text)]))
  }
}
