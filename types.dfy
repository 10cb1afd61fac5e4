/**
 * The record shapes shared by the frontend and the handlers: the stored item of each table,
 * the payload a client sends to create one (POST) and the payload it sends to update one (PUT),
 * and the key of an ordering list. Each record is encoded as the JSON object the handlers see
 * and store; the decoders read a stored item back as a record when it has that record's shape.
 */
module Types {
  import opened Json

  /** Server-set fields that a create payload never carries. */
  predicate NoServerFields(it: Item)
  {
    "id" !in it && "createdAt" !in it && "updatedAt" !in it
  }

  /** Every name in `names` holds a string in `it` (extra fields are allowed, as in TypeScript). */
  predicate HasStrFields(it: Item, names: set<string>)
  {
    forall f :: f in names ==> f in it && it[f].Str?
  }

  /** Adds `name` to `it` when the optional field is given. */
  function WithOptional(it: Item, name: string, o: Option<string>): (r: Item)
    ensures name in r <==> name in it || o.Some?
    ensures o.Some? ==> HasStr(r, name, o.value)
    ensures forall f :: f != name ==> (f in r <==> f in it)
    ensures forall f :: f != name && f in it ==> r[f] == it[f]
  {
    if o.Some? then it[name := Str(o.value)] else it
  }

  // ---------------------------------------------------------------------------------------
  // Ordering-list keys: `task#{preMemoId}` or `child#{taskId}`

  datatype OrderListKey = TaskOrder(memoId: string) | ChildOrder(taskId: string)

  const TaskPrefix: string := "task#"
  const ChildPrefix: string := "child#"

  predicate StartsWith(s: string, p: string)
  {
    |p| <= |s| && s[..|p|] == p
  }

  /** The rendered key: `task#{memoId}` or `child#{taskId}`; the prefix tells the two kinds apart. */
  function KeyString(k: OrderListKey): (s: string)
    ensures StartsWith(s, TaskPrefix) <==> k.TaskOrder?
    ensures k.TaskOrder? ==> s[|TaskPrefix|..] == k.memoId
    ensures k.ChildOrder? ==> StartsWith(s, ChildPrefix) && s[|ChildPrefix|..] == k.taskId
  {
    match k
    case TaskOrder(m) => TaskPrefix + m
    case ChildOrder(t) =>
      assert (ChildPrefix + t)[0] != TaskPrefix[0];
      ChildPrefix + t
  }

  /** Reads a string as an ordering-list key; only the two prefixed forms are keys. */
  function ParseOrderListKey(s: string): (r: Option<OrderListKey>)
    ensures r.Some? ==> KeyString(r.value) == s
    ensures r.None? <==> !StartsWith(s, TaskPrefix) && !StartsWith(s, ChildPrefix)
  {
    if StartsWith(s, TaskPrefix) then
      assert s == TaskPrefix + s[|TaskPrefix|..];
      Some(TaskOrder(s[|TaskPrefix|..]))
    else if StartsWith(s, ChildPrefix) then
      assert s == ChildPrefix + s[|ChildPrefix|..];
      Some(ChildOrder(s[|ChildPrefix|..]))
    else
      None
  }

  lemma {:induction false} OrderListKeyRoundTrip(k: OrderListKey)
    ensures ParseOrderListKey(KeyString(k)) == Some(k)
  {
    var s := KeyString(k);
    match k
    case TaskOrder(m) =>
      assert s[..|TaskPrefix|] == TaskPrefix;
    case ChildOrder(t) =>
      assert s[0] == 'c';
      assert !StartsWith(s, TaskPrefix);
      assert s[..|ChildPrefix|] == ChildPrefix;
  }

  /** The string form of a key determines the key. */
  lemma {:induction false} KeyStringInjective(k1: OrderListKey, k2: OrderListKey)
    requires KeyString(k1) == KeyString(k2)
    ensures k1 == k2
  {
    OrderListKeyRoundTrip(k1);
    OrderListKeyRoundTrip(k2);
  }

  // ---------------------------------------------------------------------------------------
  // preMemo

  datatype PreMemoItem = PreMemoItem(id: string, content: string, tag: string, createdAt: string, updatedAt: string)
  {
    function ToItem(): (it: Item)
      ensures HasStr(it, "id", id)
      ensures HasStr(it, "createdAt", createdAt) && HasStr(it, "updatedAt", updatedAt)
    {
      map["id" := Str(id), "content" := Str(content), "tag" := Str(tag),
          "createdAt" := Str(createdAt), "updatedAt" := Str(updatedAt)]
    }
  }

  datatype PostPreMemoItem = PostPreMemoItem(content: string, tag: string)
  {
    function ToItem(): (it: Item)
      ensures NoServerFields(it)
      ensures HasStr(it, "content", content) && HasStr(it, "tag", tag)
    {
      map["content" := Str(content), "tag" := Str(tag)]
    }
  }

  datatype PutPreMemoItem = PutPreMemoItem(id: string, content: Option<string>, tag: Option<string>)
  {
    function ToItem(): (it: Item)
      ensures HasStr(it, "id", id)
      ensures it.Keys <= {"id", "content", "tag"}
      ensures "content" in it <==> content.Some?
      ensures "tag" in it <==> tag.Some?
    {
      WithOptional(WithOptional(map["id" := Str(id)], "content", content), "tag", tag)
    }
  }

  const PreMemoFields: set<string> := {"id", "content", "tag", "createdAt", "updatedAt"}

  function AsPreMemoItem(it: Item): (r: Option<PreMemoItem>)
    ensures r.Some? <==> HasStrFields(it, PreMemoFields)
    ensures r.Some? ==> SubItem(r.value.ToItem(), it)
  {
    if HasStrFields(it, PreMemoFields) then
      Some(PreMemoItem(it["id"].s, it["content"].s, it["tag"].s, it["createdAt"].s, it["updatedAt"].s))
    else None
  }

  // ---------------------------------------------------------------------------------------
  // task

  datatype TaskItem = TaskItem(id: string, memo: string, title: string, detail: string, createdAt: string, updatedAt: string)
  {
    function ToItem(): (it: Item)
      ensures HasStr(it, "id", id) && HasStr(it, "memo", memo)
      ensures HasStr(it, "createdAt", createdAt) && HasStr(it, "updatedAt", updatedAt)
    {
      map["id" := Str(id), "memo" := Str(memo), "title" := Str(title), "detail" := Str(detail),
          "createdAt" := Str(createdAt), "updatedAt" := Str(updatedAt)]
    }
  }

  datatype PostTaskItem = PostTaskItem(memo: string, title: string, detail: string)
  {
    function ToItem(): (it: Item)
      ensures NoServerFields(it)
      ensures HasStr(it, "memo", memo)
    {
      map["memo" := Str(memo), "title" := Str(title), "detail" := Str(detail)]
    }
  }

  /** A task update can set only its title and detail, never the memo it belongs to. */
  datatype PutTaskItem = PutTaskItem(id: string, title: Option<string>, detail: Option<string>)
  {
    function ToItem(): (it: Item)
      ensures HasStr(it, "id", id)
      ensures it.Keys <= {"id", "title", "detail"}
      ensures "title" in it <==> title.Some?
      ensures "detail" in it <==> detail.Some?
    {
      WithOptional(WithOptional(map["id" := Str(id)], "title", title), "detail", detail)
    }
  }

  const TaskFields: set<string> := {"id", "memo", "title", "detail", "createdAt", "updatedAt"}

  function AsTaskItem(it: Item): (r: Option<TaskItem>)
    ensures r.Some? <==> HasStrFields(it, TaskFields)
    ensures r.Some? ==> SubItem(r.value.ToItem(), it)
  {
    if HasStrFields(it, TaskFields) then
      Some(TaskItem(it["id"].s, it["memo"].s, it["title"].s, it["detail"].s, it["createdAt"].s, it["updatedAt"].s))
    else None
  }

  // ---------------------------------------------------------------------------------------
  // childTask

  datatype ChildTaskItem = ChildTaskItem(id: string, parent: string, title: string, detail: string, createdAt: string, updatedAt: string)
  {
    function ToItem(): (it: Item)
      ensures HasStr(it, "id", id) && HasStr(it, "parent", parent)
      ensures HasStr(it, "createdAt", createdAt) && HasStr(it, "updatedAt", updatedAt)
    {
      map["id" := Str(id), "parent" := Str(parent), "title" := Str(title), "detail" := Str(detail),
          "createdAt" := Str(createdAt), "updatedAt" := Str(updatedAt)]
    }
  }

  datatype PostChildTaskItem = PostChildTaskItem(parent: string, title: string, detail: string)
  {
    function ToItem(): (it: Item)
      ensures NoServerFields(it)
      ensures HasStr(it, "parent", parent)
    {
      map["parent" := Str(parent), "title" := Str(title), "detail" := Str(detail)]
    }
  }

  /** A child-task update can set only its title and detail, never its parent task. */
  datatype PutChildTaskItem = PutChildTaskItem(id: string, title: Option<string>, detail: Option<string>)
  {
    function ToItem(): (it: Item)
      ensures HasStr(it, "id", id)
      ensures it.Keys <= {"id", "title", "detail"}
      ensures "title" in it <==> title.Some?
      ensures "detail" in it <==> detail.Some?
    {
      WithOptional(WithOptional(map["id" := Str(id)], "title", title), "detail", detail)
    }
  }

  const ChildTaskFields: set<string> := {"id", "parent", "title", "detail", "createdAt", "updatedAt"}

  function AsChildTaskItem(it: Item): (r: Option<ChildTaskItem>)
    ensures r.Some? <==> HasStrFields(it, ChildTaskFields)
    ensures r.Some? ==> SubItem(r.value.ToItem(), it)
  {
    if HasStrFields(it, ChildTaskFields) then
      Some(ChildTaskItem(it["id"].s, it["parent"].s, it["title"].s, it["detail"].s, it["createdAt"].s, it["updatedAt"].s))
    else None
  }

  // ---------------------------------------------------------------------------------------
  // tag

  datatype TagItem = TagItem(id: string, title: string, color: string, createdAt: string, updatedAt: string)
  {
    function ToItem(): (it: Item)
      ensures HasStr(it, "id", id)
      ensures HasStr(it, "createdAt", createdAt) && HasStr(it, "updatedAt", updatedAt)
    {
      map["id" := Str(id), "title" := Str(title), "color" := Str(color),
          "createdAt" := Str(createdAt), "updatedAt" := Str(updatedAt)]
    }
  }

  datatype PostTagItem = PostTagItem(title: string, color: string)
  {
    function ToItem(): (it: Item)
      ensures NoServerFields(it)
      ensures HasStr(it, "title", title) && HasStr(it, "color", color)
    {
      map["title" := Str(title), "color" := Str(color)]
    }
  }

  datatype PutTagItem = PutTagItem(id: string, title: Option<string>, color: Option<string>)
  {
    function ToItem(): (it: Item)
      ensures HasStr(it, "id", id)
      ensures it.Keys <= {"id", "title", "color"}
      ensures "title" in it <==> title.Some?
      ensures "color" in it <==> color.Some?
    {
      WithOptional(WithOptional(map["id" := Str(id)], "title", title), "color", color)
    }
  }

  const TagFields: set<string> := {"id", "title", "color", "createdAt", "updatedAt"}

  function AsTagItem(it: Item): (r: Option<TagItem>)
    ensures r.Some? <==> HasStrFields(it, TagFields)
    ensures r.Some? ==> SubItem(r.value.ToItem(), it)
  {
    if HasStrFields(it, TagFields) then
      Some(TagItem(it["id"].s, it["title"].s, it["color"].s, it["createdAt"].s, it["updatedAt"].s))
    else None
  }

  // ---------------------------------------------------------------------------------------
  // color

  datatype ColorItem = ColorItem(id: string, title: string, code: string, createdAt: string, updatedAt: string)
  {
    function ToItem(): (it: Item)
      ensures HasStr(it, "id", id)
      ensures HasStr(it, "createdAt", createdAt) && HasStr(it, "updatedAt", updatedAt)
    {
      map["id" := Str(id), "title" := Str(title), "code" := Str(code),
          "createdAt" := Str(createdAt), "updatedAt" := Str(updatedAt)]
    }
  }

  datatype PostColorItem = PostColorItem(title: string, code: string)
  {
    function ToItem(): (it: Item)
      ensures NoServerFields(it)
      ensures HasStr(it, "title", title) && HasStr(it, "code", code)
    {
      map["title" := Str(title), "code" := Str(code)]
    }
  }

  datatype PutColorItem = PutColorItem(id: string, title: Option<string>, code: Option<string>)
  {
    function ToItem(): (it: Item)
      ensures HasStr(it, "id", id)
      ensures it.Keys <= {"id", "title", "code"}
      ensures "title" in it <==> title.Some?
      ensures "code" in it <==> code.Some?
    {
      WithOptional(WithOptional(map["id" := Str(id)], "title", title), "code", code)
    }
  }

  const ColorFields: set<string> := {"id", "title", "code", "createdAt", "updatedAt"}

  function AsColorItem(it: Item): (r: Option<ColorItem>)
    ensures r.Some? <==> HasStrFields(it, ColorFields)
    ensures r.Some? ==> SubItem(r.value.ToItem(), it)
  {
    if HasStrFields(it, ColorFields) then
      Some(ColorItem(it["id"].s, it["title"].s, it["code"].s, it["createdAt"].s, it["updatedAt"].s))
    else None
  }

  // ---------------------------------------------------------------------------------------
  // orderList: a user-chosen order of member ids with a numeric version

  datatype OrderListItem = OrderListItem(listKey: OrderListKey, list: seq<string>, version: int, createdAt: string, updatedAt: string)
  {
    function ToItem(): (it: Item)
      ensures HasStr(it, "listKey", KeyString(listKey))
      ensures "list" in it && it["list"] == Arr(Strs(list))
      ensures "version" in it && it["version"] == Num(version)
      ensures HasStr(it, "createdAt", createdAt) && HasStr(it, "updatedAt", updatedAt)
    {
      map["listKey" := Str(KeyString(listKey)), "list" := Arr(Strs(list)), "version" := Num(version),
          "createdAt" := Str(createdAt), "updatedAt" := Str(updatedAt)]
    }
  }

  /** A list of ids as a JSON array of strings. */
  function Strs(ids: seq<string>): (r: seq<Value>)
    ensures |r| == |ids|
    ensures forall i :: 0 <= i < |ids| ==> r[i] == Str(ids[i])
  {
    if ids == [] then [] else [Str(ids[0])] + Strs(ids[1..])
  }

  /** The ids of a JSON array whose every element is a string. */
  function Ids(vs: seq<Value>): (r: Option<seq<string>>)
    ensures r.Some? <==> forall i :: 0 <= i < |vs| ==> vs[i].Str?
    ensures r.Some? ==> Strs(r.value) == vs
  {
    if vs == [] then Some([])
    else if !vs[0].Str? then None
    else match Ids(vs[1..])
      case None => None
      case Some(rest) =>
        assert ([vs[0].s] + rest)[1..] == rest;
        assert vs == [vs[0]] + vs[1..];
        Some([vs[0].s] + rest)
  }

  function AsOrderListItem(it: Item): (r: Option<OrderListItem>)
    ensures r.Some? <==>
              && HasStrFields(it, {"listKey", "createdAt", "updatedAt"})
              && "list" in it && it["list"].Arr? && "version" in it && it["version"].Num?
              && (StartsWith(it["listKey"].s, TaskPrefix) || StartsWith(it["listKey"].s, ChildPrefix))
              && (forall i :: 0 <= i < |it["list"].elems| ==> it["list"].elems[i].Str?)
    ensures r.Some? ==> SubItem(r.value.ToItem(), it)
  {
    if HasStrFields(it, {"listKey", "createdAt", "updatedAt"})
       && "list" in it && it["list"].Arr? && "version" in it && it["version"].Num?
    then
      match (ParseOrderListKey(it["listKey"].s), Ids(it["list"].elems))
      case (Some(k), Some(ids)) =>
        Some(OrderListItem(k, ids, it["version"].n, it["createdAt"].s, it["updatedAt"].s))
      case _ => None
    else None
  }

  // ---------------------------------------------------------------------------------------
  // Round trips: every record reads back from the object it is encoded as.

  lemma RecordsRoundTrip(p: PreMemoItem, t: TaskItem, c: ChildTaskItem, g: TagItem, k: ColorItem)
    ensures AsPreMemoItem(p.ToItem()) == Some(p)
    ensures AsTaskItem(t.ToItem()) == Some(t)
    ensures AsChildTaskItem(c.ToItem()) == Some(c)
    ensures AsTagItem(g.ToItem()) == Some(g)
    ensures AsColorItem(k.ToItem()) == Some(k)
  {
  }

  lemma {:induction false} IdsOfStrs(ids: seq<string>)
    ensures Ids(Strs(ids)) == Some(ids)
  {
    if ids != [] {
      IdsOfStrs(ids[1..]);
      assert Strs(ids)[1..] == Strs(ids[1..]);
      assert [ids[0]] + ids[1..] == ids;
    }
  }

  lemma {:induction false} OrderListItemRoundTrip(o: OrderListItem)
    ensures AsOrderListItem(o.ToItem()) == Some(o)
  {
    OrderListKeyRoundTrip(o.listKey);
    IdsOfStrs(o.list);
  }
}
