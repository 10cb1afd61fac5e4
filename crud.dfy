/**
 * What the five read-write handlers share: the inner `put`, `post` and `del` helpers, which
 * build an item by object spread and issue one store call, and the step that runs a routing
 * decision against a table. The routing itself is per resource (see the handler modules).
 */
module Crud {
  import opened Json
  import opened Store
  import opened Http

  /** `put`'s item: `{ ...data, updatedAt }`. Nothing of a previously stored record is read. */
  function UpdatedItem(data: Item, now: string): (it: Item)
    ensures it.Keys == data.Keys + {"updatedAt"}
    ensures HasStr(it, "updatedAt", now)
    ensures forall f :: f in data && f != "updatedAt" ==> it[f] == data[f]
  {
    data["updatedAt" := Str(now)]
  }

  /**
   * `post`'s item: `{ id, ...data, createdAt, updatedAt }` with `id` the fresh id. By spread
   * order a body `id` overrides the fresh one, and the timestamps override any in the body.
   */
  function CreatedItem(data: Item, freshId: string, now: string): (it: Item)
    ensures it.Keys == data.Keys + {"id", "createdAt", "updatedAt"}
    ensures HasStr(it, "createdAt", now) && HasStr(it, "updatedAt", now)
    ensures it["id"] == if "id" in data then data["id"] else Str(freshId)
    ensures forall f :: f in data && f != "createdAt" && f != "updatedAt" ==> it[f] == data[f]
  {
    (map["id" := Str(freshId)] + data)["createdAt" := Str(now)]["updatedAt" := Str(now)]
  }

  /**
   * The store accepts a created item when the fresh id (or a body id) is a usable key, the
   * timestamp is non-empty and the body's own index key attributes are non-empty strings.
   */
  lemma CreatedItemAccepted(s: Schema, data: Item, freshId: string, now: string)
    requires s.key == "id" && freshId != "" && now != ""
    requires "id" in data ==> data["id"].Str? && data["id"].s != ""
    requires forall a :: a in s.indexKeys && a in data && a != "createdAt" && a != "updatedAt" ==> data[a].Str? && data[a].s != ""
    ensures Accepts(s, CreatedItem(data, freshId, now))
    ensures KeyOf(s, CreatedItem(data, freshId, now)) == Some(if "id" in data then data["id"].s else freshId)
  {
    var it := CreatedItem(data, freshId, now);
    forall a | a in s.indexKeys && a in it
      ensures it[a].Str? && it[a].s != ""
    {
      if a != "createdAt" && a != "updatedAt" && a != "id" {
        assert a in data;
      }
    }
  }

  /** A create whose item is keyed by the fresh id adds exactly that one record and answers with it. */
  lemma RunCreate(s: Schema, t: map<string, Item>, data: Item, freshId: string, now: string, status: int, h: Option<Headers>)
    requires s.key == "id" && "id" !in data && freshId != "" && freshId !in t && now != ""
    requires forall a :: a in s.indexKeys && a in data && a != "createdAt" && a != "updatedAt" ==> data[a].Str? && data[a].s != ""
    ensures var o := Run(s, Write(CreatedItem(data, freshId, now), status, h), t);
            && o.result == Returned(Response(status, h, JsonBody(Obj(o.table[freshId]))))
            && o.table.Keys == t.Keys + {freshId}
            && (forall k :: k in t ==> o.table[k] == t[k])
            && o.table[freshId] == CreatedItem(data, freshId, now)
  {
    var item := CreatedItem(data, freshId, now);
    assert Accepts(s, item) && KeyOf(s, item) == Some(freshId) by {
      CreatedItemAccepted(s, data, freshId, now);
    }
    assert Run(s, Write(item, status, h), t) == Outcome(Returned(Response(status, h, JsonBody(Obj(item)))), PutInto(s, t, item));
  }

  /** `del`'s result: `{ id }`. */
  function Echo(id: string): (r: Item)
    ensures r.Keys == {"id"} && HasStr(r, "id", id)
  {
    map["id" := Str(id)]
  }

  /**
   * How a listing reads the table: a Scan, a Query on the table key for `attr = value`, or a
   * Query on the secondary index with partition key `attr` and sort key `sortKey`.
   */
  datatype Listing = ScanAll | QueryBy(attr: string, value: string) | QueryIndex(attr: string, sortKey: string, value: string)

  /**
   * A routing decision. `Reply` answers without touching the store; `List` reads and answers
   * 200 with the items (`wholeOutput`: the whole query output rather than its `Items`);
   * `Write` puts an item and answers `status` with it; `Remove` deletes a key and answers 200
   * with `{ id }`.
   */
  datatype Action =
    | Reply(response: Response)
    | List(listing: Listing, wholeOutput: bool, headers: Option<Headers>)
    | Write(item: Item, status: int, headers: Option<Headers>)
    | Remove(id: string, headers: Option<Headers>)

  /** An invocation's result and the table it leaves behind. */
  datatype Outcome = Outcome(result: Result, table: map<string, Item>)

  function Listed(t: map<string, Item>, l: Listing): (r: set<Item>)
    ensures r <= t.Values
  {
    match l
    case ScanAll => t.Values
    case QueryBy(attr, v) => Matching(t, attr, v)
    case QueryIndex(attr, sortKey, v) => IndexMatching(t, attr, sortKey, v)
  }

  /** Runs a routing decision against table `t` of schema `s`. */
  function Run(s: Schema, a: Action, t: map<string, Item>): (o: Outcome)
    ensures o.result.Thrown? ==> o.table == t
    ensures a.Reply? ==> o == Outcome(Returned(a.response), t)
    ensures a.List? ==>
              var found := Listed(t, a.listing);
              o == Outcome(Returned(Response(200, a.headers, if a.wholeOutput then QueryOutput(found) else Items(found))), t)
    ensures a.Write? ==> (o.result.Returned? <==> Accepts(s, a.item))
    ensures a.Remove? ==> (o.result.Returned? <==> a.id != "")
    ensures a.Write? && o.result.Returned? ==>
              Accepts(s, a.item) && o.table == PutInto(s, t, a.item)
              && o.result.response == Response(a.status, a.headers, JsonBody(Obj(a.item)))
    ensures a.Remove? && o.result.Returned? ==>
              o.table == t - {a.id} && o.result.response == Response(200, a.headers, JsonBody(Obj(Echo(a.id))))
  {
    match a
    case Reply(resp) => Outcome(Returned(resp), t)
    case List(l, whole, h) =>
      var found := Listed(t, l);
      Outcome(Returned(Response(200, h, if whole then QueryOutput(found) else Items(found))), t)
    case Write(item, status, h) =>
      if Accepts(s, item) then Outcome(Returned(Response(status, h, JsonBody(Obj(item)))), PutInto(s, t, item))
      else Outcome(Thrown, t)
    case Remove(id, h) =>
      if id != "" then Outcome(Returned(Response(200, h, JsonBody(Obj(Echo(id))))), t - {id})
      else Outcome(Thrown, t)
  }

  /** Awaits the one store call a decision needs and builds the response from its result. */
  method Execute(table: Table, a: Action) returns (result: Result)
    modifies table
    ensures Outcome(result, table.items) == Run(table.schema, a, old(table.items))
  {
    match a
    case Reply(resp) =>
      result := Returned(resp);
    case List(l, whole, h) =>
      var found: set<Item>;
      match l {
        case ScanAll =>
          found := table.Scan();
        case QueryBy(attr, v) =>
          found := table.Query(attr, v);
          assert found == Matching(table.items, attr, v);
        case QueryIndex(attr, sortKey, v) =>
          found := table.QueryIndex(attr, sortKey, v);
          assert found == IndexMatching(table.items, attr, sortKey, v);
      }
      result := Returned(Response(200, h, if whole then QueryOutput(found) else Items(found)));
    case Write(item, status, h) =>
      var ok := table.Put(item);
      result := if ok then Returned(Response(status, h, JsonBody(Obj(item)))) else Thrown;
    case Remove(id, h) =>
      var ok := table.Delete(id);
      result := if ok then Returned(Response(200, h, JsonBody(Obj(Echo(id))))) else Thrown;
  }
}
