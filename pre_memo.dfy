/**
 * The pre-memo handler: GET lists the whole table, POST creates a memo (201), PUT /preMemo/{id}
 * replaces one after the id check, DELETE /preMemo/{id} removes one. No response carries
 * headers, and every request that matches no branch is answered 405. The handler's `get`
 * helper (a GetCommand by id) is never called, so no branch reads a record before writing.
 */
module PreMemo {
  import opened Json
  import opened Store
  import opened Http
  import opened Crud
  import opened Types

  /**
   * The handler's if/else chain: GET lists, DELETE with a path id removes that id, POST with a
   * body and PUT that passes its three checks write an item stamped `updatedAt = now`. A failed
   * POST or PUT check is a 400 reply; everything else is 405.
   */
  function Route(req: Request, freshId: string, now: string): (r: Action)
    ensures r.List? <==> req.httpMethod == "GET"
    ensures r.Remove? <==> req.httpMethod == "DELETE" && Truthy(req.pathParameters, "id")
    ensures r.Remove? ==> r.id == req.pathParameters["id"] && r.id != ""
    ensures r.Write? <==>
              || (req.httpMethod == "POST" && req.body.Some?)
              || (req.httpMethod == "PUT" && Truthy(req.pathParameters, "id") && req.body.Some?
                  && IdMatches(req.body.value, req.pathParameters["id"]))
    ensures r.Write? ==> HasStr(r.item, "updatedAt", now)
    ensures r.Write? && req.httpMethod == "POST" ==> HasStr(r.item, "createdAt", now)
    ensures r.Write? && req.httpMethod == "PUT" ==> HasStr(r.item, "id", req.pathParameters["id"])
    ensures r.Reply? ==> r.response.headers.None?
    ensures r.Reply? ==> (r.response.statusCode == 400 <==> req.httpMethod in {"POST", "PUT"})
    ensures r.Reply? ==> r.response.statusCode in {400, 405}
  {
    if req.httpMethod == "GET" then
      List(ScanAll, false, None)
    else if req.httpMethod == "POST" then
      if req.body.None? then Reply(Response(400, None, Text("Invalid request: no body")))
      else Write(CreatedItem(req.body.value, freshId, now), 201, None)
    else if req.httpMethod == "PUT" then
      if !Truthy(req.pathParameters, "id") then Reply(Response(400, None, Text("Invalid request: missing id parameter")))
      else if req.body.None? then Reply(Response(400, None, Text("Invalid request: no body")))
      else if !IdMatches(req.body.value, req.pathParameters["id"]) then
        Reply(Response(400, None, Text("Invalid request: id mismatch")))
      else Write(UpdatedItem(req.body.value, now), 200, None)
    else if req.httpMethod == "DELETE" && Truthy(req.pathParameters, "id") then
      Remove(req.pathParameters["id"], None)
    else
      Reply(Response(405, None, Text("Method Not Allowed")))
  }

  /** One invocation against the pre-memo table `t`; `freshId` and `now` stand for randomUUID() and the clock. */
  function Handle(req: Request, t: map<string, Item>, freshId: string, now: string): (o: Outcome)
    ensures !o.result.Succeeded() ==> o.table == t
    ensures req.httpMethod != "PUT" && req.httpMethod != "POST" && req.httpMethod != "DELETE" ==> o.table == t
    ensures o.result.Returned? ==> o.result.response.statusCode in {200, 201, 400, 405}
    ensures o.result.Returned? ==> o.result.response.headers.None?
  {
    Run(PreMemoSchema, Route(req, freshId, now), t)
  }

  /** The Lambda entry point, awaiting its one store call on `table`. */
  method Handler(table: Table, req: Request, freshId: string, now: string) returns (result: Result)
    requires table.schema == PreMemoSchema
    modifies table
    ensures Outcome(result, table.items) == Handle(req, old(table.items), freshId, now)
  {
    result := Execute(table, Route(req, freshId, now));
  }

  lemma GetListsAll(req: Request, t: map<string, Item>, freshId: string, now: string)
    requires req.httpMethod == "GET"
    ensures Handle(req, t, freshId, now) == Outcome(Returned(Response(200, None, Items(t.Values))), t)
  {
  }

  lemma PostWithoutBody(req: Request, t: map<string, Item>, freshId: string, now: string)
    requires req.httpMethod == "POST" && req.body.None?
    ensures Handle(req, t, freshId, now) == Outcome(Returned(Response(400, None, Text("Invalid request: no body"))), t)
  {
  }

  /** POST without a body id stores one new record under the fresh id, stamped createdAt == updatedAt == now. */
  lemma PostCreates(req: Request, t: map<string, Item>, freshId: string, now: string)
    requires req.httpMethod == "POST" && req.body.Some? && "id" !in req.body.value
    requires freshId != "" && freshId !in t
    ensures var o := Handle(req, t, freshId, now);
            && o.result == Returned(Response(201, None, JsonBody(Obj(o.table[freshId]))))
            && o.table.Keys == t.Keys + {freshId}
            && (forall k :: k in t ==> o.table[k] == t[k])
            && o.table[freshId] == CreatedItem(req.body.value, freshId, now)
            && HasStr(o.table[freshId], "createdAt", now) && HasStr(o.table[freshId], "updatedAt", now)
  {
  }

  /** PUT checks the path id, then the body, then that the two ids agree; the first failure answers 400. */
  lemma PutRejected(req: Request, t: map<string, Item>, freshId: string, now: string)
    requires req.httpMethod == "PUT"
    requires !Truthy(req.pathParameters, "id") || req.body.None? || !HasStr(req.body.value, "id", req.pathParameters["id"])
    ensures var message :=
              if !Truthy(req.pathParameters, "id") then "Invalid request: missing id parameter"
              else if req.body.None? then "Invalid request: no body"
              else "Invalid request: id mismatch";
            Handle(req, t, freshId, now) == Outcome(Returned(Response(400, None, Text(message))), t)
  {
  }

  /**
   * An accepted PUT stores exactly the body plus `updatedAt` under the path id. The answer does
   * not depend on what the table held: nothing is read before the write.
   */
  lemma PutReplaces(req: Request, t: map<string, Item>, t2: map<string, Item>, freshId: string, now: string)
    requires req.httpMethod == "PUT" && Truthy(req.pathParameters, "id") && req.body.Some?
    requires HasStr(req.body.value, "id", req.pathParameters["id"])
    ensures var id, stored := req.pathParameters["id"], req.body.value["updatedAt" := Str(now)];
            && Handle(req, t, freshId, now) == Outcome(Returned(Response(200, None, JsonBody(Obj(stored)))), t[id := stored])
            && Handle(req, t, freshId, now).result == Handle(req, t2, freshId, now).result
  {
  }

  /** DELETE removes the key without any existence check: the answer is the same whether or not it was stored. */
  lemma DeleteRemoves(req: Request, t: map<string, Item>, t2: map<string, Item>, freshId: string, now: string)
    requires req.httpMethod == "DELETE" && Truthy(req.pathParameters, "id")
    ensures var id := req.pathParameters["id"];
            && Handle(req, t, freshId, now) == Outcome(Returned(Response(200, None, JsonBody(Obj(Echo(id))))), t - {id})
            && Handle(req, t, freshId, now).result == Handle(req, t2, freshId, now).result
  {
  }

  /** DELETE without an id, like every request no branch matches, falls through to 405. */
  lemma UnmatchedIs405(req: Request, t: map<string, Item>, freshId: string, now: string)
    requires || (req.httpMethod == "DELETE" && !Truthy(req.pathParameters, "id"))
             || req.httpMethod !in {"GET", "POST", "PUT", "DELETE"}
    ensures Handle(req, t, freshId, now) == Outcome(Returned(Response(405, None, Text("Method Not Allowed"))), t)
  {
  }

  /** Creating from a create payload stores a complete PreMemoItem and answers with it. */
  lemma PostPayloadStoresPreMemoItem(p: PostPreMemoItem, t: map<string, Item>, freshId: string, now: string)
    requires freshId != ""
    ensures var req := Request("POST", map[], map[], Some(p.ToItem()));
            var x := PreMemoItem(freshId, p.content, p.tag, now, now);
            Handle(req, t, freshId, now)
            == Outcome(Returned(Response(201, None, JsonBody(Obj(x.ToItem())))), t[freshId := x.ToItem()])
  {
    var x := PreMemoItem(freshId, p.content, p.tag, now, now);
    assert CreatedItem(p.ToItem(), freshId, now) == x.ToItem();
  }

  /**
   * Updating with an update payload leaves a record without `createdAt`: it is no longer a
   * PreMemoItem.
   */
  lemma PutPayloadDropsCreatedAt(u: PutPreMemoItem, t: map<string, Item>, freshId: string, now: string)
    requires u.id != ""
    ensures var req := Request("PUT", map["id" := u.id], map[], Some(u.ToItem()));
            var o := Handle(req, t, freshId, now);
            && o.result.Succeeded() && u.id in o.table
            && o.table[u.id] == UpdatedItem(u.ToItem(), now)
            && "createdAt" !in o.table[u.id] && AsPreMemoItem(o.table[u.id]).None?
  {
  }

  /** A PUT body without any `id`, whatever else it carries, is always refused as an id mismatch. */
  lemma PutBodyWithoutIdRejected(req: Request, t: map<string, Item>, freshId: string, now: string)
    requires req.httpMethod == "PUT" && Truthy(req.pathParameters, "id") && req.body.Some? && "id" !in req.body.value
    ensures Handle(req, t, freshId, now) == Outcome(Returned(Response(400, None, Text("Invalid request: id mismatch"))), t)
  {
  }
}
