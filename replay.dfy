/**
 * Sequences of invocations of one handler against its table. Each invocation sees the table the
 * previous one left; a thrown invocation leaves it as it was. Properties that hold for every
 * resource are stated once here, over the dispatch to the six handlers.
 */
module Replay {
  import opened Json
  import opened Store
  import opened Http
  import opened Crud
  import PreMemo
  import Task
  import ChildTask
  import Tag
  import Color
  import OrderList

  datatype Resource = PreMemoApi | TaskApi | ChildTaskApi | TagApi | ColorApi | OrderListApi

  /** One invocation: the event, and the values randomUUID() and the clock yield during it. */
  datatype Call = Call(req: Request, freshId: string, now: string)

  /** The stack's table for each handler. */
  function SchemaOf(r: Resource): (s: Schema)
    ensures s.key == (if r == OrderListApi then "listKey" else "id")
  {
    match r
    case PreMemoApi => PreMemoSchema
    case TaskApi => TaskSchema
    case ChildTaskApi => ChildTaskSchema
    case TagApi => TagSchema
    case ColorApi => ColorSchema
    case OrderListApi => OrderListSchema
  }

  function Invoke(r: Resource, c: Call, t: map<string, Item>): Outcome
  {
    match r
    case PreMemoApi => PreMemo.Handle(c.req, t, c.freshId, c.now)
    case TaskApi => Task.Handle(c.req, t, c.freshId, c.now)
    case ChildTaskApi => ChildTask.Handle(c.req, t, c.freshId, c.now)
    case TagApi => Tag.Handle(c.req, t, c.freshId, c.now)
    case ColorApi => Color.Handle(c.req, t, c.freshId, c.now)
    case OrderListApi => OrderList.Handle(c.req, t)
  }

  /** The routing decision behind an invocation. */
  function RouteOf(r: Resource, c: Call): Action
  {
    match r
    case PreMemoApi => PreMemo.Route(c.req, c.freshId, c.now)
    case TaskApi => Task.Route(c.req, c.freshId, c.now)
    case ChildTaskApi => ChildTask.Route(c.req, c.freshId, c.now)
    case TagApi => Tag.Route(c.req, c.freshId, c.now)
    case ColorApi => Color.Route(c.req, c.freshId, c.now)
    case OrderListApi => OrderList.Route(c.req)
  }

  lemma InvokeRuns(r: Resource, c: Call, t: map<string, Item>)
    ensures Invoke(r, c, t) == Run(SchemaOf(r), RouteOf(r, c), t)
  {
  }

  /** The table after the calls, in order. */
  function Replay(r: Resource, calls: seq<Call>, t: map<string, Item>): map<string, Item>
  {
    if calls == [] then t else Replay(r, calls[1..], Invoke(r, calls[0], t).table)
  }

  /** Every record a handler writes carries `updatedAt` as a string. */
  predicate Stamped(t: map<string, Item>)
  {
    forall k :: k in t ==> "updatedAt" in t[k] && t[k]["updatedAt"].Str?
  }

  /** What every table of the stack satisfies between invocations. */
  predicate Consistent(r: Resource, t: map<string, Item>)
  {
    WellStored(SchemaOf(r), t) && Stamped(t)
  }

  /** Every item a handler asks the store to put is stamped with `updatedAt`. */
  lemma WritesAreStamped(r: Resource, c: Call)
    ensures RouteOf(r, c).Write? ==> HasStr(RouteOf(r, c).item, "updatedAt", c.now)
  {
  }

  lemma {:induction false} InvokeKeepsConsistent(r: Resource, c: Call, t: map<string, Item>)
    requires Consistent(r, t)
    ensures Consistent(r, Invoke(r, c, t).table)
  {
    InvokeRuns(r, c, t);
    var s, a := SchemaOf(r), RouteOf(r, c);
    var o := Run(s, a, t);
    if a.Write? && o.result.Returned? {
      WritesAreStamped(r, c);
      PutKeepsWellStored(s, t, a.item);
    } else if a.Remove? && o.result.Returned? {
      DeletedKeyGone(s, t, a.id);
    }
  }

  /** However many invocations run, in whatever order, the table stays consistent. */
  lemma {:induction false} ReplayKeepsConsistent(r: Resource, calls: seq<Call>, t: map<string, Item>)
    requires Consistent(r, t)
    ensures Consistent(r, Replay(r, calls, t))
    decreases |calls|
  {
    if calls != [] {
      InvokeKeepsConsistent(r, calls[0], t);
      ReplayKeepsConsistent(r, calls[1..], Invoke(r, calls[0], t).table);
    }
  }

  /** The order-list handler never writes, so no sequence of calls changes its table. */
  lemma {:induction false} OrderListReadOnly(calls: seq<Call>, t: map<string, Item>)
    ensures Replay(OrderListApi, calls, t) == t
    decreases |calls|
  {
    if calls != [] {
      OrderListReadOnly(calls[1..], t);
    }
  }

  /** A table that moves is the effect of some PUT, POST or DELETE that succeeded. */
  lemma {:induction false} ReplayChangesOnlyBySuccess(r: Resource, calls: seq<Call>, t: map<string, Item>)
    requires forall i :: 0 <= i < |calls| ==> !Invoke(r, calls[i], Replay(r, calls[..i], t)).result.Succeeded()
    ensures Replay(r, calls, t) == t
    decreases |calls|
  {
    if calls != [] {
      assert calls[..0] == [];
      var t1 := Invoke(r, calls[0], t).table;
      assert t1 == t;
      forall i | 0 <= i < |calls[1..]|
        ensures !Invoke(r, calls[1..][i], Replay(r, calls[1..][..i], t)).result.Succeeded()
      {
        assert calls[..i + 1] == [calls[0]] + calls[1..][..i];
        assert ([calls[0]] + calls[1..][..i])[1..] == calls[1..][..i];
        assert Replay(r, calls[..i + 1], t) == Replay(r, calls[1..][..i], t1);
      }
      ReplayChangesOnlyBySuccess(r, calls[1..], t1);
    }
  }

  /** DELETE is idempotent: repeating it, with any id and clock, answers the same and changes nothing more. */
  lemma DeleteIdempotent(r: Resource, c1: Call, c2: Call, t: map<string, Item>)
    requires c1.req == c2.req && c1.req.httpMethod == "DELETE"
    ensures var o1 := Invoke(r, c1, t);
            Invoke(r, c2, o1.table) == o1
  {
    InvokeRuns(r, c1, t);
    InvokeRuns(r, c2, Invoke(r, c1, t).table);
    assert RouteOf(r, c1) == RouteOf(r, c2);
  }

  /**
   * PUT reads nothing and replaces the whole record: of two PUTs of the same body only the later
   * one's record remains, as if the earlier had not run.
   */
  lemma PutLastWriterWins(r: Resource, c1: Call, c2: Call, t: map<string, Item>)
    requires c1.req == c2.req && c1.req.httpMethod == "PUT"
    ensures Invoke(r, c2, Invoke(r, c1, t).table).table == Invoke(r, c2, t).table
  {
    InvokeRuns(r, c1, t);
    InvokeRuns(r, c2, t);
    InvokeRuns(r, c2, Invoke(r, c1, t).table);
    var a1, a2 := RouteOf(r, c1), RouteOf(r, c2);
    var s := SchemaOf(r);
    if a1.Write? && Accepts(s, a1.item) {
      assert a2.Write? && KeyOf(s, a2.item) == KeyOf(s, a1.item) && Accepts(s, a2.item);
    }
  }

  /**
   * On the three tables that GET scans, a created record is listed, unchanged, by the next GET.
   */
  lemma PostThenGet(r: Resource, post: Call, get: Call, t: map<string, Item>)
    requires r in {PreMemoApi, TagApi, ColorApi}
    requires post.req.httpMethod == "POST" && get.req.httpMethod == "GET"
    requires Invoke(r, post, t).result.Succeeded()
    ensures var o := Invoke(r, post, t);
            && o.result.response.body.JsonBody? && o.result.response.body.value.Obj?
            && Invoke(r, get, o.table).result.response.body == Items(o.table.Values)
            && o.result.response.body.value.fields in o.table.Values
  {
    InvokeRuns(r, post, t);
    InvokeRuns(r, get, Invoke(r, post, t).table);
    var a := RouteOf(r, post);
    assert a.Write?;
    var k := KeyOf(SchemaOf(r), a.item).value;
    assert Invoke(r, post, t).table[k] == a.item;
  }

  /** A created task with a memo is listed by the next GET for that memo. */
  lemma PostTaskThenGetByMemo(post: Call, get: Call, t: map<string, Item>, memoId: string)
    requires post.req.httpMethod == "POST" && Invoke(TaskApi, post, t).result.Succeeded()
    requires HasStr(post.req.body.value, "memo", memoId)
    requires get.req.httpMethod == "GET" && get.req.queryStringParameters == map["memoId" := memoId]
    ensures var o := Invoke(TaskApi, post, t);
            && o.result.response.body.JsonBody? && o.result.response.body.value.Obj?
            && Invoke(TaskApi, get, o.table).result.response.body.QueryOutput?
            && o.result.response.body.value.fields in Invoke(TaskApi, get, o.table).result.response.body.items
  {
    InvokeRuns(TaskApi, post, t);
    var a := RouteOf(TaskApi, post);
    var k := KeyOf(TaskSchema, a.item).value;
    var o := Invoke(TaskApi, post, t);
    assert o.table[k] == a.item;
    assert HasStr(a.item, "memo", memoId);
    assert a.item in IndexMatching(o.table, "memo", "createdAt", memoId);
  }

  /** A created child task with a parent is listed by the next GET for that parent. */
  lemma PostChildTaskThenGetByParent(post: Call, get: Call, t: map<string, Item>, parentId: string)
    requires post.req.httpMethod == "POST" && Invoke(ChildTaskApi, post, t).result.Succeeded()
    requires HasStr(post.req.body.value, "parent", parentId)
    requires get.req.httpMethod == "GET" && get.req.queryStringParameters == map["parentId" := parentId]
    ensures var o := Invoke(ChildTaskApi, post, t);
            && o.result.response.body.JsonBody? && o.result.response.body.value.Obj?
            && Invoke(ChildTaskApi, get, o.table).result.response.body.Items?
            && o.result.response.body.value.fields in Invoke(ChildTaskApi, get, o.table).result.response.body.items
  {
    InvokeRuns(ChildTaskApi, post, t);
    var a := RouteOf(ChildTaskApi, post);
    var k := KeyOf(ChildTaskSchema, a.item).value;
    var o := Invoke(ChildTaskApi, post, t);
    assert o.table[k] == a.item;
    assert HasStr(a.item, "parent", parentId);
    assert a.item in IndexMatching(o.table, "parent", "createdAt", parentId);
  }

  /** After a successful DELETE of `id`, no record in a consistent table still has that id. */
  lemma DeleteThenGone(r: Resource, del: Call, t: map<string, Item>)
    requires r != OrderListApi && Consistent(r, t)
    requires del.req.httpMethod == "DELETE" && Invoke(r, del, t).result.Succeeded()
    ensures var id := del.req.pathParameters["id"];
            var t' := Invoke(r, del, t).table;
            && t' == t - {id}
            && forall it :: it in t'.Values ==> !HasStr(it, "id", id)
  {
    InvokeRuns(r, del, t);
    var a := RouteOf(r, del);
    assert a.Remove? && a.id == del.req.pathParameters["id"];
    DeletedKeyGone(SchemaOf(r), t, a.id);
    assert Matching(t - {a.id}, "id", a.id) == {};
  }
}
