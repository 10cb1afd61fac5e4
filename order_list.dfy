/**
 * The order-list handler, read-only: GET /orderList/{listKey} queries the table on its key and
 * answers the query's `Items` with the JSON and CORS headers; every other request is answered
 * 400 with a JSON message and no headers. No branch writes.
 */
module OrderList {
  import opened Json
  import opened Store
  import opened Http
  import opened Crud
  import opened Types

  /**
   * The handler's if/else chain: GET with a list key queries the table on that key; everything
   * else is a 400 reply. No branch writes or deletes.
   */
  function Route(req: Request): (r: Action)
    ensures !r.Write? && !r.Remove?
    ensures r.List? <==> req.httpMethod == "GET" && Truthy(req.pathParameters, "listKey")
    ensures r.List? ==> r.listing == QueryBy("listKey", req.pathParameters["listKey"]) && r.headers == Some(JsonHeaders)
    ensures r.Reply? ==> r.response.statusCode == 400 && r.response.headers.None?
  {
    if req.httpMethod == "GET" && Truthy(req.pathParameters, "listKey") then
      List(QueryBy("listKey", req.pathParameters["listKey"]), false, Some(JsonHeaders))
    else
      Reply(Response(400, None, Message("Bad Request")))
  }

  /** One invocation against the order-list table `t`. */
  function Handle(req: Request, t: map<string, Item>): (o: Outcome)
    ensures o.table == t && o.result.Returned?
    ensures o.result.response.statusCode == 200 <==> req.httpMethod == "GET" && Truthy(req.pathParameters, "listKey")
    ensures o.result.response.statusCode in {200, 400}
    ensures o.result.response.headers == (if o.result.response.statusCode == 200 then Some(JsonHeaders) else None)
  {
    Run(OrderListSchema, Route(req), t)
  }

  /** The Lambda entry point, awaiting its one query on `table`. */
  method Handler(table: Table, req: Request) returns (result: Result)
    requires table.schema == OrderListSchema
    modifies table
    ensures table.items == old(table.items)
    ensures Outcome(result, table.items) == Handle(req, old(table.items))
  {
    result := Execute(table, Route(req));
  }

  /**
   * GET answers the list stored under the key as a one-element array, and an empty array (still
   * 200) for a key with no list.
   */
  lemma GetByKey(req: Request, t: map<string, Item>)
    requires req.httpMethod == "GET" && Truthy(req.pathParameters, "listKey")
    requires WellStored(OrderListSchema, t)
    ensures var key := req.pathParameters["listKey"];
            Handle(req, t)
            == Outcome(Returned(Response(200, Some(JsonHeaders), Items(if key in t then {t[key]} else {}))), t)
  {
    QueryOnKey(OrderListSchema, t, req.pathParameters["listKey"]);
  }

  /** Any other request, including GET without a list key, is a bad request. */
  lemma BadRequest(req: Request, t: map<string, Item>)
    requires !(req.httpMethod == "GET" && Truthy(req.pathParameters, "listKey"))
    ensures Handle(req, t)
         == Outcome(Returned(Response(400, None, JsonBody(Obj(map["message" := Str("Bad Request")])))), t)
  {
  }

  /** A stored order list reads back, through its rendered key, as exactly that list. */
  lemma GetStoredOrder(o: OrderListItem, t: map<string, Item>)
    requires WellStored(OrderListSchema, t)
    requires KeyString(o.listKey) in t && t[KeyString(o.listKey)] == o.ToItem()
    ensures var req := Request("GET", map["listKey" := KeyString(o.listKey)], map[], None);
            var r := Handle(req, t).result;
            && r == Returned(Response(200, Some(JsonHeaders), Items({o.ToItem()})))
            && forall it :: it in r.response.body.items ==> AsOrderListItem(it) == Some(o)
  {
    var req := Request("GET", map["listKey" := KeyString(o.listKey)], map[], None);
    assert KeyString(o.listKey) != "" by {
      OrderListKeyRoundTrip(o.listKey);
    }
    GetByKey(req, t);
    OrderListItemRoundTrip(o);
  }
}
