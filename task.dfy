/**
 * The task handler: GET /task?memoId= queries GSI_ByMemo (partition key `memo`, sort key
 * `createdAt`), POST creates a task (201), PUT /task/{id} replaces one after the id check,
 * DELETE /task/{id} removes one. No response carries headers, and every request that matches no
 * branch is answered 405.
 */
module Task {
  import opened Json
  import opened Store
  import opened Http
  import opened Crud
  import opened Types

  /**
   * The handler's if/else chain: GET with a memo id queries the memo index, DELETE with a path
   * id removes that id, POST with a body and PUT that passes its three checks write an item
   * stamped `updatedAt = now`. A failed POST or PUT check is a 400 reply; everything else is 405.
   */
  function Route(req: Request, freshId: string, now: string): (r: Action)
    ensures r.List? <==> req.httpMethod == "GET" && Truthy(req.queryStringParameters, "memoId")
    ensures r.List? ==> r.wholeOutput && r.listing.QueryIndex? && r.listing.attr == "memo"
    ensures r.Remove? <==> req.httpMethod == "DELETE" && Truthy(req.pathParameters, "id")
    ensures r.Remove? ==> r.id == req.pathParameters["id"] && r.id != ""
    ensures r.Write? <==>
              || (req.httpMethod == "POST" && req.body.Some?)
              || (req.httpMethod == "PUT" && Truthy(req.pathParameters, "id") && req.body.Some?
                  && IdMatches(req.body.value, req.pathParameters["id"]))
    ensures r.Write? ==> HasStr(r.item, "updatedAt", now)
    ensures r.Write? && req.httpMethod == "POST" ==> HasStr(r.item, "createdAt", now)
    ensures r.Write? && req.httpMethod == "PUT" ==> HasStr(r.item, "id", req.pathParameters["id"])
    ensures r.Reply? ==> r.response.headers.None?
    ensures r.Reply? ==> (r.response.statusCode == 400 <==> req.httpMethod in {"POST", "PUT"})
    ensures r.Reply? ==> r.response.statusCode in {400, 405}
  {
    if req.httpMethod == "GET" && Truthy(req.queryStringParameters, "memoId") then
      List(QueryIndex("memo", "createdAt", req.queryStringParameters["memoId"]), true, None)
    else if req.httpMethod == "POST" then
      if req.body.None? then Reply(Response(400, None, Text("Invalid request: missing body")))
      else Write(CreatedItem(req.body.value, freshId, now), 201, None)
    else if req.httpMethod == "PUT" then
      if !Truthy(req.pathParameters, "id") then Reply(Response(400, None, Text("Invalid request: missing id parameter")))
      else if req.body.None? then Reply(Response(400, None, Text("Invalid request: missing body")))
      else if !IdMatches(req.body.value, req.pathParameters["id"]) then
        Reply(Response(400, None, Text("Invalid request: id in body does not match id in path")))
      else Write(UpdatedItem(req.body.value, now), 200, None)
    else if req.httpMethod == "DELETE" && Truthy(req.pathParameters, "id") then
      Remove(req.pathParameters["id"], None)
    else
      Reply(Response(405, None, Text("Method Not Allowed")))
  }

  /** One invocation against the task table `t`; `freshId` and `now` stand for randomUUID() and the clock. */
  function Handle(req: Request, t: map<string, Item>, freshId: string, now: string): (o: Outcome)
    ensures !o.result.Succeeded() ==> o.table == t
    ensures req.httpMethod != "PUT" && req.httpMethod != "POST" && req.httpMethod != "DELETE" ==> o.table == t
    ensures o.result.Returned? ==> o.result.response.statusCode in {200, 201, 400, 405}
    ensures o.result.Returned? ==> o.result.response.headers.None?
  {
    Run(TaskSchema, Route(req, freshId, now), t)
  }

  /** The Lambda entry point, awaiting its one store call on `table`. */
  method Handler(table: Table, req: Request, freshId: string, now: string) returns (result: Result)
    requires table.schema == TaskSchema
    modifies table
    ensures Outcome(result, table.items) == Handle(req, old(table.items), freshId, now)
  {
    result := Execute(table, Route(req, freshId, now));
  }

  /**
   * GET with a memo id answers the whole query output, whose items are exactly the tasks of that
   * memo that GSI_ByMemo holds: those carrying `createdAt`.
   */
  lemma GetByMemo(req: Request, t: map<string, Item>, freshId: string, now: string)
    requires req.httpMethod == "GET" && Truthy(req.queryStringParameters, "memoId")
    ensures var memoId := req.queryStringParameters["memoId"];
            var o := Handle(req, t, freshId, now);
            && o.table == t
            && o.result == Returned(Response(200, None, QueryOutput(IndexMatching(t, "memo", "createdAt", memoId))))
            && (forall k :: k in t ==>
                  (t[k] in o.result.response.body.items <==> HasStr(t[k], "memo", memoId) && Indexed(t[k], "createdAt")))
            && (forall it :: it in o.result.response.body.items ==> it in t.Values && HasStr(it, "memo", memoId))
  {
  }

  /**
   * A task that a PUT stored without `createdAt` keeps its memo but leaves GSI_ByMemo: the
   * memo's listing no longer finds it.
   */
  lemma PutWithoutCreatedAtUnlisted(put: Request, get: Request, t: map<string, Item>, freshId: string, now: string, memoId: string)
    requires put.httpMethod == "PUT" && Truthy(put.pathParameters, "id") && put.body.Some?
    requires HasStr(put.body.value, "id", put.pathParameters["id"])
    requires HasStr(put.body.value, "memo", memoId) && memoId != "" && "createdAt" !in put.body.value
    requires get.httpMethod == "GET" && get.queryStringParameters == map["memoId" := memoId]
    ensures var o := Handle(put, t, freshId, now);
            var stored := o.table[put.pathParameters["id"]];
            && o.result.Succeeded() && HasStr(stored, "memo", memoId)
            && stored !in Handle(get, o.table, freshId, now).result.response.body.items
  {
  }

  lemma GetWithoutMemoId(req: Request, t: map<string, Item>, freshId: string, now: string)
    requires req.httpMethod == "GET" && !Truthy(req.queryStringParameters, "memoId")
    ensures Handle(req, t, freshId, now) == Outcome(Returned(Response(405, None, Text("Method Not Allowed"))), t)
  {
  }

  lemma PostWithoutBody(req: Request, t: map<string, Item>, freshId: string, now: string)
    requires req.httpMethod == "POST" && req.body.None?
    ensures Handle(req, t, freshId, now) == Outcome(Returned(Response(400, None, Text("Invalid request: missing body"))), t)
  {
  }

  /** POST without a body id stores one new record under the fresh id, stamped createdAt == updatedAt == now. */
  lemma PostCreates(req: Request, t: map<string, Item>, freshId: string, now: string)
    requires req.httpMethod == "POST" && req.body.Some? && "id" !in req.body.value
    requires "memo" in req.body.value ==> req.body.value["memo"].Str? && req.body.value["memo"].s != ""
    requires freshId != "" && freshId !in t && now != ""
    ensures var o := Handle(req, t, freshId, now);
            && o.result == Returned(Response(201, None, JsonBody(Obj(o.table[freshId]))))
            && o.table.Keys == t.Keys + {freshId}
            && (forall k :: k in t ==> o.table[k] == t[k])
            && o.table[freshId] == CreatedItem(req.body.value, freshId, now)
            && HasStr(o.table[freshId], "createdAt", now) && HasStr(o.table[freshId], "updatedAt", now)
  {
    assert Route(req, freshId, now) == Write(CreatedItem(req.body.value, freshId, now), 201, None);
    assert Handle(req, t, freshId, now) == Run(TaskSchema, Write(CreatedItem(req.body.value, freshId, now), 201, None), t);
    RunCreate(TaskSchema, t, req.body.value, freshId, now, 201, None);
  }

  /**
   * The store refuses a `memo` that is empty or not a string, since it is GSI_ByMemo's key: the
   * invocation throws and nothing is written.
   */
  lemma PostEmptyMemoThrows(req: Request, t: map<string, Item>, freshId: string, now: string)
    requires req.httpMethod == "POST" && req.body.Some? && "memo" in req.body.value
    requires !(req.body.value["memo"].Str? && req.body.value["memo"].s != "")
    ensures Handle(req, t, freshId, now) == Outcome(Thrown, t)
  {
  }

  /** PUT checks the path id, then the body, then that the two ids agree; the first failure answers 400. */
  lemma PutRejected(req: Request, t: map<string, Item>, freshId: string, now: string)
    requires req.httpMethod == "PUT"
    requires !Truthy(req.pathParameters, "id") || req.body.None? || !HasStr(req.body.value, "id", req.pathParameters["id"])
    ensures var message :=
              if !Truthy(req.pathParameters, "id") then "Invalid request: missing id parameter"
              else if req.body.None? then "Invalid request: missing body"
              else "Invalid request: id in body does not match id in path";
            Handle(req, t, freshId, now) == Outcome(Returned(Response(400, None, Text(message))), t)
  {
  }

  /**
   * An accepted PUT whose `memo` and `createdAt`, where present, are non-empty strings stores
   * exactly the body plus `updatedAt` under the path id, replacing any previous record.
   */
  lemma PutReplaces(req: Request, t: map<string, Item>, freshId: string, now: string)
    requires req.httpMethod == "PUT" && Truthy(req.pathParameters, "id") && req.body.Some?
    requires HasStr(req.body.value, "id", req.pathParameters["id"])
    requires IndexKeysValid(TaskSchema, req.body.value)
    ensures var id, stored := req.pathParameters["id"], req.body.value["updatedAt" := Str(now)];
            Handle(req, t, freshId, now)
            == Outcome(Returned(Response(200, None, JsonBody(Obj(stored)))), t[id := stored])
  {
  }

  /** A PUT whose `memo` or `createdAt` is present but not a non-empty string makes the store call throw. */
  lemma PutInvalidIndexKeyThrows(req: Request, t: map<string, Item>, freshId: string, now: string)
    requires req.httpMethod == "PUT" && Truthy(req.pathParameters, "id") && req.body.Some?
    requires HasStr(req.body.value, "id", req.pathParameters["id"])
    requires !IndexKeysValid(TaskSchema, req.body.value)
    ensures Handle(req, t, freshId, now) == Outcome(Thrown, t)
  {
  }

  /**
   * Updating with an update payload replaces the task by a record without `memo` or `createdAt`:
   * it is no longer a TaskItem and no memo's listing contains it any more.
   */
  lemma PutPayloadDropsMemo(u: PutTaskItem, t: map<string, Item>, freshId: string, now: string)
    requires u.id != ""
    ensures var req := Request("PUT", map["id" := u.id], map[], Some(u.ToItem()));
            var o := Handle(req, t, freshId, now);
            && o.result.Succeeded() && u.id in o.table
            && o.table[u.id] == UpdatedItem(u.ToItem(), now)
            && "memo" !in o.table[u.id] && "createdAt" !in o.table[u.id]
            && AsTaskItem(o.table[u.id]).None?
            && forall memoId :: o.table[u.id] !in IndexMatching(o.table, "memo", "createdAt", memoId)
  {
  }

  lemma DeleteRemoves(req: Request, t: map<string, Item>, freshId: string, now: string)
    requires req.httpMethod == "DELETE" && Truthy(req.pathParameters, "id")
    ensures var id := req.pathParameters["id"];
            Handle(req, t, freshId, now) == Outcome(Returned(Response(200, None, JsonBody(Obj(Echo(id))))), t - {id})
  {
  }

  /** DELETE without an id, like every request no branch matches, falls through to 405. */
  lemma UnmatchedIs405(req: Request, t: map<string, Item>, freshId: string, now: string)
    requires || (req.httpMethod == "DELETE" && !Truthy(req.pathParameters, "id"))
             || req.httpMethod !in {"GET", "POST", "PUT", "DELETE"}
    ensures Handle(req, t, freshId, now) == Outcome(Returned(Response(405, None, Text("Method Not Allowed"))), t)
  {
  }

  /** Creating from a create payload stores a complete TaskItem, which the memo's listing then contains. */
  lemma PostPayloadStoresTaskItem(p: PostTaskItem, t: map<string, Item>, freshId: string, now: string)
    requires freshId != "" && p.memo != "" && now != ""
    ensures var req := Request("POST", map[], map[], Some(p.ToItem()));
            var x := TaskItem(freshId, p.memo, p.title, p.detail, now, now);
            var o := Handle(req, t, freshId, now);
            && o == Outcome(Returned(Response(201, None, JsonBody(Obj(x.ToItem())))), t[freshId := x.ToItem()])
            && x.ToItem() in IndexMatching(o.table, "memo", "createdAt", p.memo)
  {
    var x := TaskItem(freshId, p.memo, p.title, p.detail, now, now);
    assert CreatedItem(p.ToItem(), freshId, now) == x.ToItem();
  }
}
