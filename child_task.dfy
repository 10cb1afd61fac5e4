/**
 * The child-task handler: GET /childTask?parentId= queries GSI_ByParent (partition key
 * `parent`, sort key `createdAt`) and answers its `Items`, PUT /childTask/{id} replaces the
 * record named by the body's id without an id check, POST creates one and answers 200 (not 201),
 * DELETE /childTask/{id} removes one. No response carries headers, and every request that
 * matches no branch is answered 400.
 */
module ChildTask {
  import opened Json
  import opened Store
  import opened Http
  import opened Crud
  import opened Types

  /**
   * The handler's if/else chain: GET with a parent id queries the parent index, DELETE with a
   * path id removes that id, POST with a body and PUT with a path id and a body write an item
   * stamped `updatedAt = now` and answer 200. Everything else is a 400 reply. Nothing carries
   * headers.
   */
  function Route(req: Request, freshId: string, now: string): (r: Action)
    ensures r.List? <==> req.httpMethod == "GET" && Truthy(req.queryStringParameters, "parentId")
    ensures r.List? ==> !r.wholeOutput && r.listing.QueryIndex? && r.listing.attr == "parent"
    ensures r.Remove? <==> req.httpMethod == "DELETE" && Truthy(req.pathParameters, "id")
    ensures r.Remove? ==> r.id == req.pathParameters["id"] && r.id != ""
    ensures r.Write? <==>
              || (req.httpMethod == "POST" && req.body.Some?)
              || (req.httpMethod == "PUT" && Truthy(req.pathParameters, "id") && req.body.Some?)
    ensures r.Write? ==> HasStr(r.item, "updatedAt", now)
    ensures r.Write? && req.httpMethod == "POST" ==> HasStr(r.item, "createdAt", now)
    ensures r.Write? ==> r.status == 200
    ensures r.Reply? ==> r.response.statusCode == 400
    ensures r.Reply? ==> r.response.headers.None?
    ensures !r.Reply? ==> r.headers.None?
  {
    if req.httpMethod == "GET" && Truthy(req.queryStringParameters, "parentId") then
      List(QueryIndex("parent", "createdAt", req.queryStringParameters["parentId"]), false, None)
    else if req.httpMethod == "PUT" then
      if !Truthy(req.pathParameters, "id") then Reply(Response(400, None, Text("Invalid request: missing id parameter")))
      else if req.body.None? then Reply(Response(400, None, Text("Invalid request: missing body")))
      else Write(UpdatedItem(req.body.value, now), 200, None)
    else if req.httpMethod == "POST" then
      if req.body.None? then Reply(Response(400, None, Text("Invalid request: missing body")))
      else Write(CreatedItem(req.body.value, freshId, now), 200, None)
    else if req.httpMethod == "DELETE" && Truthy(req.pathParameters, "id") then
      Remove(req.pathParameters["id"], None)
    else
      Reply(Response(400, None, Text("Invalid request")))
  }

  /** One invocation against the child-task table `t`; `freshId` and `now` stand for randomUUID() and the clock. */
  function Handle(req: Request, t: map<string, Item>, freshId: string, now: string): (o: Outcome)
    ensures !o.result.Succeeded() ==> o.table == t
    ensures req.httpMethod != "PUT" && req.httpMethod != "POST" && req.httpMethod != "DELETE" ==> o.table == t
    ensures o.result.Returned? ==> o.result.response.statusCode in {200, 400}
    ensures o.result.Returned? ==> o.result.response.headers.None?
  {
    Run(ChildTaskSchema, Route(req, freshId, now), t)
  }

  /** The Lambda entry point, awaiting its one store call on `table`. */
  method Handler(table: Table, req: Request, freshId: string, now: string) returns (result: Result)
    requires table.schema == ChildTaskSchema
    modifies table
    ensures Outcome(result, table.items) == Handle(req, old(table.items), freshId, now)
  {
    result := Execute(table, Route(req, freshId, now));
  }

  /**
   * GET with a parent id answers the query's `Items`: exactly the child tasks of that parent that
   * GSI_ByParent holds, those carrying `createdAt`.
   */
  lemma GetByParent(req: Request, t: map<string, Item>, freshId: string, now: string)
    requires req.httpMethod == "GET" && Truthy(req.queryStringParameters, "parentId")
    ensures var parentId := req.queryStringParameters["parentId"];
            var o := Handle(req, t, freshId, now);
            && o.table == t
            && o.result == Returned(Response(200, None, Items(IndexMatching(t, "parent", "createdAt", parentId))))
            && (forall k :: k in t ==>
                  (t[k] in o.result.response.body.items <==> HasStr(t[k], "parent", parentId) && Indexed(t[k], "createdAt")))
            && (forall it :: it in o.result.response.body.items ==> it in t.Values && HasStr(it, "parent", parentId))
  {
  }

  /** PUT needs a path id and then a body; either missing answers 400 and writes nothing. */
  lemma PutRejected(req: Request, t: map<string, Item>, freshId: string, now: string)
    requires req.httpMethod == "PUT" && (!Truthy(req.pathParameters, "id") || req.body.None?)
    ensures var message :=
              if !Truthy(req.pathParameters, "id") then "Invalid request: missing id parameter"
              else "Invalid request: missing body";
            Handle(req, t, freshId, now) == Outcome(Returned(Response(400, None, Text(message))), t)
  {
  }

  /**
   * PUT does no id check: when `parent` and `createdAt`, where present, are non-empty strings,
   * exactly the body plus `updatedAt` is written under the body's id.
   */
  lemma PutIgnoresPathId(req: Request, t: map<string, Item>, freshId: string, now: string, bodyId: string)
    requires req.httpMethod == "PUT" && Truthy(req.pathParameters, "id") && req.body.Some?
    requires HasStr(req.body.value, "id", bodyId) && bodyId != ""
    requires IndexKeysValid(ChildTaskSchema, req.body.value)
    ensures var stored := UpdatedItem(req.body.value, now);
            Handle(req, t, freshId, now)
            == Outcome(Returned(Response(200, None, JsonBody(Obj(stored)))), t[bodyId := stored])
  {
  }

  /** A PUT whose `parent` or `createdAt` is present but not a non-empty string makes the store call throw. */
  lemma PutInvalidIndexKeyThrows(req: Request, t: map<string, Item>, freshId: string, now: string)
    requires req.httpMethod == "PUT" && Truthy(req.pathParameters, "id") && req.body.Some?
    requires !IndexKeysValid(ChildTaskSchema, req.body.value)
    ensures Handle(req, t, freshId, now) == Outcome(Thrown, t)
  {
  }

  /** POST without a body id stores one new record under the fresh id and answers 200, not 201. */
  lemma PostCreates(req: Request, t: map<string, Item>, freshId: string, now: string)
    requires req.httpMethod == "POST" && req.body.Some? && "id" !in req.body.value
    requires "parent" in req.body.value ==> req.body.value["parent"].Str? && req.body.value["parent"].s != ""
    requires freshId != "" && freshId !in t && now != ""
    ensures var o := Handle(req, t, freshId, now);
            && o.result == Returned(Response(200, None, JsonBody(Obj(o.table[freshId]))))
            && o.table.Keys == t.Keys + {freshId}
            && (forall k :: k in t ==> o.table[k] == t[k])
            && o.table[freshId] == CreatedItem(req.body.value, freshId, now)
            && HasStr(o.table[freshId], "createdAt", now) && HasStr(o.table[freshId], "updatedAt", now)
  {
    assert Route(req, freshId, now) == Write(CreatedItem(req.body.value, freshId, now), 200, None);
    RunCreate(ChildTaskSchema, t, req.body.value, freshId, now, 200, None);
  }

  lemma PostWithoutBody(req: Request, t: map<string, Item>, freshId: string, now: string)
    requires req.httpMethod == "POST" && req.body.None?
    ensures Handle(req, t, freshId, now) == Outcome(Returned(Response(400, None, Text("Invalid request: missing body"))), t)
  {
  }

  lemma DeleteRemoves(req: Request, t: map<string, Item>, freshId: string, now: string)
    requires req.httpMethod == "DELETE" && Truthy(req.pathParameters, "id")
    ensures var id := req.pathParameters["id"];
            Handle(req, t, freshId, now) == Outcome(Returned(Response(200, None, JsonBody(Obj(Echo(id))))), t - {id})
  {
  }

  /** DELETE without an id, GET without a parent id and every other method answer 400. */
  lemma UnmatchedIs400(req: Request, t: map<string, Item>, freshId: string, now: string)
    requires || (req.httpMethod == "DELETE" && !Truthy(req.pathParameters, "id"))
             || (req.httpMethod == "GET" && !Truthy(req.queryStringParameters, "parentId"))
             || req.httpMethod !in {"GET", "POST", "PUT", "DELETE"}
    ensures Handle(req, t, freshId, now) == Outcome(Returned(Response(400, None, Text("Invalid request"))), t)
  {
  }

  /** Creating from a create payload stores a complete ChildTaskItem, which its parent's listing then contains. */
  lemma PostPayloadStoresChildTaskItem(p: PostChildTaskItem, t: map<string, Item>, freshId: string, now: string)
    requires freshId != "" && p.parent != "" && now != ""
    ensures var req := Request("POST", map[], map[], Some(p.ToItem()));
            var x := ChildTaskItem(freshId, p.parent, p.title, p.detail, now, now);
            var o := Handle(req, t, freshId, now);
            && o == Outcome(Returned(Response(200, None, JsonBody(Obj(x.ToItem())))), t[freshId := x.ToItem()])
            && x.ToItem() in IndexMatching(o.table, "parent", "createdAt", p.parent)
  {
    var x := ChildTaskItem(freshId, p.parent, p.title, p.detail, now, now);
    assert CreatedItem(p.ToItem(), freshId, now) == x.ToItem();
  }

  /**
   * Updating with an update payload replaces the child task by a record without `parent` or
   * `createdAt`: it is no longer a ChildTaskItem and no parent's listing contains it any more.
   */
  lemma PutPayloadDropsParent(u: PutChildTaskItem, pathId: string, t: map<string, Item>, freshId: string, now: string)
    requires u.id != "" && pathId != ""
    ensures var req := Request("PUT", map["id" := pathId], map[], Some(u.ToItem()));
            var o := Handle(req, t, freshId, now);
            && o.result.Succeeded() && u.id in o.table
            && o.table[u.id] == UpdatedItem(u.ToItem(), now)
            && "parent" !in o.table[u.id] && "createdAt" !in o.table[u.id]
            && AsChildTaskItem(o.table[u.id]).None?
            && forall parentId :: o.table[u.id] !in IndexMatching(o.table, "parent", "createdAt", parentId)
  {
  }
}
