/**
 * The tag handler: GET lists the whole table, POST creates a tag (201), PUT /tag/{id} replaces
 * the record named by the BODY's id without comparing it with the path id, DELETE /tag/{id}
 * removes one. Successful responses carry the JSON and CORS headers; errors are 400 without them,
 * and a POST without a body is answered with a JSON message.
 */
module Tag {
  import opened Json
  import opened Store
  import opened Http
  import opened Crud
  import opened Types

  /**
   * The handler's if/else chain: GET lists, DELETE with a path id removes that id, POST with a
   * body and PUT with a path id and a body write an item stamped `updatedAt = now`. PUT does not
   * compare ids. Everything else is a 400 reply without headers.
   */
  function Route(req: Request, freshId: string, now: string): (r: Action)
    ensures r.List? <==> req.httpMethod == "GET"
    ensures r.Remove? <==> req.httpMethod == "DELETE" && Truthy(req.pathParameters, "id")
    ensures r.Remove? ==> r.id == req.pathParameters["id"] && r.id != ""
    ensures r.Write? <==>
              || (req.httpMethod == "POST" && req.body.Some?)
              || (req.httpMethod == "PUT" && Truthy(req.pathParameters, "id") && req.body.Some?)
    ensures r.Write? ==> HasStr(r.item, "updatedAt", now)
    ensures r.Write? && req.httpMethod == "POST" ==> HasStr(r.item, "createdAt", now)
    ensures r.Write? && req.httpMethod == "PUT" ==> r.item == UpdatedItem(req.body.value, now)
    ensures r.Reply? ==> r.response.statusCode == 400 && r.response.headers.None?
    ensures !r.Reply? ==> r.headers == Some(JsonHeaders)
  {
    if req.httpMethod == "GET" then
      List(ScanAll, false, Some(JsonHeaders))
    else if req.httpMethod == "POST" then
      if req.body.None? then Reply(Response(400, None, Message("Bad Request: Missing body")))
      else Write(CreatedItem(req.body.value, freshId, now), 201, Some(JsonHeaders))
    else if req.httpMethod == "PUT" then
      if !Truthy(req.pathParameters, "id") then Reply(Response(400, None, Text("Invalid request: missing id parameter")))
      else if req.body.None? then Reply(Response(400, None, Text("Invalid request: missing body")))
      else Write(UpdatedItem(req.body.value, now), 200, Some(JsonHeaders))
    else if req.httpMethod == "DELETE" then
      if !Truthy(req.pathParameters, "id") then Reply(Response(400, None, Text("Invalid request: missing id parameter")))
      else Remove(req.pathParameters["id"], Some(JsonHeaders))
    else
      Reply(Response(400, None, Text("Invalid request")))
  }

  /** One invocation against the tag table `t`; `freshId` and `now` stand for randomUUID() and the clock. */
  function Handle(req: Request, t: map<string, Item>, freshId: string, now: string): (o: Outcome)
    ensures !o.result.Succeeded() ==> o.table == t
    ensures req.httpMethod != "PUT" && req.httpMethod != "POST" && req.httpMethod != "DELETE" ==> o.table == t
    ensures o.result.Returned? ==> o.result.response.statusCode in {200, 201, 400}
    ensures o.result.Returned? ==>
              o.result.response.headers == (if o.result.response.statusCode == 400 then None else Some(JsonHeaders))
  {
    Run(TagSchema, Route(req, freshId, now), t)
  }

  /** The Lambda entry point, awaiting its one store call on `table`. */
  method Handler(table: Table, req: Request, freshId: string, now: string) returns (result: Result)
    requires table.schema == TagSchema
    modifies table
    ensures Outcome(result, table.items) == Handle(req, old(table.items), freshId, now)
  {
    result := Execute(table, Route(req, freshId, now));
  }

  lemma GetListsAll(req: Request, t: map<string, Item>, freshId: string, now: string)
    requires req.httpMethod == "GET"
    ensures Handle(req, t, freshId, now) == Outcome(Returned(Response(200, Some(JsonHeaders), Items(t.Values))), t)
  {
  }

  lemma PostWithoutBody(req: Request, t: map<string, Item>, freshId: string, now: string)
    requires req.httpMethod == "POST" && req.body.None?
    ensures Handle(req, t, freshId, now)
         == Outcome(Returned(Response(400, None, JsonBody(Obj(map["message" := Str("Bad Request: Missing body")])))), t)
  {
  }

  /** POST without a body id stores one new record under the fresh id, stamped createdAt == updatedAt == now. */
  lemma PostCreates(req: Request, t: map<string, Item>, freshId: string, now: string)
    requires req.httpMethod == "POST" && req.body.Some? && "id" !in req.body.value
    requires freshId != "" && freshId !in t
    ensures var o := Handle(req, t, freshId, now);
            && o.result == Returned(Response(201, Some(JsonHeaders), JsonBody(Obj(o.table[freshId]))))
            && o.table.Keys == t.Keys + {freshId}
            && (forall k :: k in t ==> o.table[k] == t[k])
            && o.table[freshId] == CreatedItem(req.body.value, freshId, now)
            && HasStr(o.table[freshId], "createdAt", now) && HasStr(o.table[freshId], "updatedAt", now)
  {
  }

  /** PUT needs a path id and then a body; either missing answers 400 and writes nothing. */
  lemma PutRejected(req: Request, t: map<string, Item>, freshId: string, now: string)
    requires req.httpMethod == "PUT" && (!Truthy(req.pathParameters, "id") || req.body.None?)
    ensures var message :=
              if !Truthy(req.pathParameters, "id") then "Invalid request: missing id parameter"
              else "Invalid request: missing body";
            Handle(req, t, freshId, now) == Outcome(Returned(Response(400, None, Text(message))), t)
  {
  }

  /**
   * PUT never compares the path id with the body's: the record is written under the body's id,
   * and the record under the path id, if that is another key, is left as it was.
   */
  lemma PutIgnoresPathId(req: Request, t: map<string, Item>, freshId: string, now: string, bodyId: string)
    requires req.httpMethod == "PUT" && Truthy(req.pathParameters, "id") && req.body.Some?
    requires HasStr(req.body.value, "id", bodyId) && bodyId != ""
    ensures var stored := UpdatedItem(req.body.value, now);
            var o := Handle(req, t, freshId, now);
            && o == Outcome(Returned(Response(200, Some(JsonHeaders), JsonBody(Obj(stored)))), t[bodyId := stored])
            && (req.pathParameters["id"] != bodyId && req.pathParameters["id"] in t ==>
                  o.table[req.pathParameters["id"]] == t[req.pathParameters["id"]])
  {
  }

  /** A PUT body without a usable `id` reaches the store, which refuses the item: the invocation throws. */
  lemma PutWithoutBodyIdThrows(req: Request, t: map<string, Item>, freshId: string, now: string)
    requires req.httpMethod == "PUT" && Truthy(req.pathParameters, "id") && req.body.Some?
    requires !("id" in req.body.value && req.body.value["id"].Str? && req.body.value["id"].s != "")
    ensures Handle(req, t, freshId, now) == Outcome(Thrown, t)
  {
  }

  lemma DeleteRemoves(req: Request, t: map<string, Item>, freshId: string, now: string)
    requires req.httpMethod == "DELETE" && Truthy(req.pathParameters, "id")
    ensures var id := req.pathParameters["id"];
            Handle(req, t, freshId, now)
            == Outcome(Returned(Response(200, Some(JsonHeaders), JsonBody(Obj(Echo(id))))), t - {id})
  {
  }

  lemma DeleteWithoutPathId(req: Request, t: map<string, Item>, freshId: string, now: string)
    requires req.httpMethod == "DELETE" && !Truthy(req.pathParameters, "id")
    ensures Handle(req, t, freshId, now)
         == Outcome(Returned(Response(400, None, Text("Invalid request: missing id parameter"))), t)
  {
  }

  lemma OtherMethodRejected(req: Request, t: map<string, Item>, freshId: string, now: string)
    requires req.httpMethod !in {"GET", "PUT", "POST", "DELETE"}
    ensures Handle(req, t, freshId, now) == Outcome(Returned(Response(400, None, Text("Invalid request"))), t)
  {
  }

  /** Creating from a create payload stores a complete TagItem and answers with it. */
  lemma PostPayloadStoresTagItem(p: PostTagItem, t: map<string, Item>, freshId: string, now: string)
    requires freshId != ""
    ensures var req := Request("POST", map[], map[], Some(p.ToItem()));
            var x := TagItem(freshId, p.title, p.color, now, now);
            Handle(req, t, freshId, now)
            == Outcome(Returned(Response(201, Some(JsonHeaders), JsonBody(Obj(x.ToItem())))), t[freshId := x.ToItem()])
  {
    var x := TagItem(freshId, p.title, p.color, now, now);
    assert CreatedItem(p.ToItem(), freshId, now) == x.ToItem();
  }

  /**
   * Updating with an update payload leaves a record without `createdAt`, and without `title` or
   * `color` when the payload omits them: it is no longer a TagItem.
   */
  lemma PutPayloadDropsCreatedAt(u: PutTagItem, pathId: string, t: map<string, Item>, freshId: string, now: string)
    requires u.id != "" && pathId != ""
    ensures var req := Request("PUT", map["id" := pathId], map[], Some(u.ToItem()));
            var o := Handle(req, t, freshId, now);
            && o.result.Succeeded() && u.id in o.table
            && o.table[u.id] == UpdatedItem(u.ToItem(), now)
            && "createdAt" !in o.table[u.id] && AsTagItem(o.table[u.id]).None?
  {
  }
}
