/**
 * The color handler: GET lists the whole table, PUT /color/{id} replaces a color after checking
 * that the body's id is the path id, POST creates one (201), DELETE /color/{id} removes one.
 * Successful responses carry the JSON and CORS headers; every error is 400 without headers.
 */
module Color {
  import opened Json
  import opened Store
  import opened Http
  import opened Crud
  import opened Types

  /**
   * The handler's if/else chain: GET lists, DELETE with a path id removes that id, POST with a
   * body and PUT that passes its three checks write an item stamped `updatedAt = now`, and
   * everything else is a 400 reply without headers.
   */
  function Route(req: Request, freshId: string, now: string): (r: Action)
    ensures r.List? <==> req.httpMethod == "GET"
    ensures r.Remove? <==> req.httpMethod == "DELETE" && Truthy(req.pathParameters, "id")
    ensures r.Remove? ==> r.id == req.pathParameters["id"] && r.id != ""
    ensures r.Write? <==>
              || (req.httpMethod == "POST" && req.body.Some?)
              || (req.httpMethod == "PUT" && Truthy(req.pathParameters, "id") && req.body.Some?
                  && IdMatches(req.body.value, req.pathParameters["id"]))
    ensures r.Write? ==> HasStr(r.item, "updatedAt", now)
    ensures r.Write? && req.httpMethod == "POST" ==> HasStr(r.item, "createdAt", now)
    ensures r.Write? && req.httpMethod == "PUT" ==> HasStr(r.item, "id", req.pathParameters["id"])
    ensures r.Reply? ==> r.response.statusCode == 400 && r.response.headers.None?
    ensures !r.Reply? ==> r.headers == Some(JsonHeaders)
  {
    if req.httpMethod == "GET" then
      List(ScanAll, false, Some(JsonHeaders))
    else if req.httpMethod == "PUT" then
      if !Truthy(req.pathParameters, "id") then Reply(Response(400, None, Text("Invalid request: no id in path")))
      else if req.body.None? then Reply(Response(400, None, Text("Invalid request: no body")))
      else if !IdMatches(req.body.value, req.pathParameters["id"]) then
        Reply(Response(400, None, Text("Invalid request: id in body does not match id in path")))
      else Write(UpdatedItem(req.body.value, now), 200, Some(JsonHeaders))
    else if req.httpMethod == "POST" then
      if req.body.None? then Reply(Response(400, None, Text("Invalid request: no body")))
      else Write(CreatedItem(req.body.value, freshId, now), 201, Some(JsonHeaders))
    else if req.httpMethod == "DELETE" then
      if !Truthy(req.pathParameters, "id") then Reply(Response(400, None, Text("Invalid request: no id in path")))
      else Remove(req.pathParameters["id"], Some(JsonHeaders))
    else
      Reply(Response(400, None, Text("Invalid request")))
  }

  /** One invocation against the color table `t`; `freshId` and `now` stand for randomUUID() and the clock. */
  function Handle(req: Request, t: map<string, Item>, freshId: string, now: string): (o: Outcome)
    ensures !o.result.Succeeded() ==> o.table == t
    ensures req.httpMethod != "PUT" && req.httpMethod != "POST" && req.httpMethod != "DELETE" ==> o.table == t
    ensures o.result.Returned? ==> o.result.response.statusCode in {200, 201, 400}
    ensures o.result.Returned? ==>
              o.result.response.headers == (if o.result.response.statusCode == 400 then None else Some(JsonHeaders))
  {
    Run(ColorSchema, Route(req, freshId, now), t)
  }

  /** The Lambda entry point, awaiting its one store call on `table`. */
  method Handler(table: Table, req: Request, freshId: string, now: string) returns (result: Result)
    requires table.schema == ColorSchema
    modifies table
    ensures Outcome(result, table.items) == Handle(req, old(table.items), freshId, now)
  {
    result := Execute(table, Route(req, freshId, now));
  }

  lemma GetListsAll(req: Request, t: map<string, Item>, freshId: string, now: string)
    requires req.httpMethod == "GET"
    ensures Handle(req, t, freshId, now) == Outcome(Returned(Response(200, Some(JsonHeaders), Items(t.Values))), t)
  {
  }

  lemma PutWithoutPathId(req: Request, t: map<string, Item>, freshId: string, now: string)
    requires req.httpMethod == "PUT" && !Truthy(req.pathParameters, "id")
    ensures Handle(req, t, freshId, now) == Outcome(Returned(Response(400, None, Text("Invalid request: no id in path"))), t)
  {
  }

  lemma PutWithoutBody(req: Request, t: map<string, Item>, freshId: string, now: string)
    requires req.httpMethod == "PUT" && Truthy(req.pathParameters, "id") && req.body.None?
    ensures Handle(req, t, freshId, now) == Outcome(Returned(Response(400, None, Text("Invalid request: no body"))), t)
  {
  }

  lemma PutIdMismatch(req: Request, t: map<string, Item>, freshId: string, now: string)
    requires req.httpMethod == "PUT" && Truthy(req.pathParameters, "id") && req.body.Some?
    requires !HasStr(req.body.value, "id", req.pathParameters["id"])
    ensures Handle(req, t, freshId, now)
         == Outcome(Returned(Response(400, None, Text("Invalid request: id in body does not match id in path"))), t)
  {
  }

  /** An accepted PUT stores exactly the body plus `updatedAt` under the path id, replacing any previous record. */
  lemma PutReplaces(req: Request, t: map<string, Item>, freshId: string, now: string)
    requires req.httpMethod == "PUT" && Truthy(req.pathParameters, "id") && req.body.Some?
    requires HasStr(req.body.value, "id", req.pathParameters["id"])
    ensures var id, stored := req.pathParameters["id"], req.body.value["updatedAt" := Str(now)];
            Handle(req, t, freshId, now)
            == Outcome(Returned(Response(200, Some(JsonHeaders), JsonBody(Obj(stored)))), t[id := stored])
  {
  }

  lemma PostWithoutBody(req: Request, t: map<string, Item>, freshId: string, now: string)
    requires req.httpMethod == "POST" && req.body.None?
    ensures Handle(req, t, freshId, now) == Outcome(Returned(Response(400, None, Text("Invalid request: no body"))), t)
  {
  }

  /** POST without a body id stores one new record under the fresh id, stamped createdAt == updatedAt == now. */
  lemma PostCreates(req: Request, t: map<string, Item>, freshId: string, now: string)
    requires req.httpMethod == "POST" && req.body.Some? && "id" !in req.body.value
    requires freshId != "" && freshId !in t
    ensures var o := Handle(req, t, freshId, now);
            && o.result == Returned(Response(201, Some(JsonHeaders), JsonBody(Obj(o.table[freshId]))))
            && o.table.Keys == t.Keys + {freshId}
            && (forall k :: k in t ==> o.table[k] == t[k])
            && o.table[freshId] == CreatedItem(req.body.value, freshId, now)
            && HasStr(o.table[freshId], "createdAt", now) && HasStr(o.table[freshId], "updatedAt", now)
  {
  }

  /** By spread order a body `id` wins over the fresh id: the record is stored under the body's id. */
  lemma PostBodyIdOverrides(req: Request, t: map<string, Item>, freshId: string, now: string, bodyId: string)
    requires req.httpMethod == "POST" && req.body.Some? && HasStr(req.body.value, "id", bodyId) && bodyId != ""
    ensures var o := Handle(req, t, freshId, now);
            o.table == t[bodyId := CreatedItem(req.body.value, freshId, now)] && o.result.Succeeded()
  {
  }

  lemma DeleteRemoves(req: Request, t: map<string, Item>, freshId: string, now: string)
    requires req.httpMethod == "DELETE" && Truthy(req.pathParameters, "id")
    ensures var id := req.pathParameters["id"];
            Handle(req, t, freshId, now)
            == Outcome(Returned(Response(200, Some(JsonHeaders), JsonBody(Obj(Echo(id))))), t - {id})
  {
  }

  lemma DeleteWithoutPathId(req: Request, t: map<string, Item>, freshId: string, now: string)
    requires req.httpMethod == "DELETE" && !Truthy(req.pathParameters, "id")
    ensures Handle(req, t, freshId, now) == Outcome(Returned(Response(400, None, Text("Invalid request: no id in path"))), t)
  {
  }

  lemma OtherMethodRejected(req: Request, t: map<string, Item>, freshId: string, now: string)
    requires req.httpMethod !in {"GET", "PUT", "POST", "DELETE"}
    ensures Handle(req, t, freshId, now) == Outcome(Returned(Response(400, None, Text("Invalid request"))), t)
  {
  }

  /** Creating from a create payload stores a complete ColorItem and answers with it. */
  lemma PostPayloadStoresColorItem(p: PostColorItem, t: map<string, Item>, freshId: string, now: string)
    requires freshId != ""
    ensures var req := Request("POST", map[], map[], Some(p.ToItem()));
            var x := ColorItem(freshId, p.title, p.code, now, now);
            Handle(req, t, freshId, now)
            == Outcome(Returned(Response(201, Some(JsonHeaders), JsonBody(Obj(x.ToItem())))), t[freshId := x.ToItem()])
  {
    var x := ColorItem(freshId, p.title, p.code, now, now);
    assert CreatedItem(p.ToItem(), freshId, now) == x.ToItem();
  }

  /**
   * Updating with an update payload leaves a record that is no longer a ColorItem: the update
   * carries no `createdAt`, and nothing of the replaced record survives.
   */
  lemma PutPayloadDropsCreatedAt(u: PutColorItem, t: map<string, Item>, freshId: string, now: string)
    requires u.id != ""
    ensures var req := Request("PUT", map["id" := u.id], map[], Some(u.ToItem()));
            var o := Handle(req, t, freshId, now);
            && o.result.Succeeded() && u.id in o.table
            && o.table[u.id] == UpdatedItem(u.ToItem(), now)
            && "createdAt" !in o.table[u.id] && AsColorItem(o.table[u.id]).None?
  {
  }
}
