/**
 * The DynamoDB tables as the handlers use them: one table per resource, keyed by a string
 * attribute, written by whole-item Put and key Delete, read by Scan and by equality Query on
 * the table key or a global secondary index.
 */
module Store {
  import opened Json

  /** A table's partition-key attribute and the key attributes of its secondary indexes. */
  datatype Schema = Schema(key: string, indexKeys: set<string>)

  const PreMemoSchema: Schema := Schema("id", {})
  /** GSI_ByMemo: partition key `memo`, sort key `createdAt`. */
  const TaskSchema: Schema := Schema("id", {"memo", "createdAt"})
  /** GSI_ByParent: partition key `parent`, sort key `createdAt`. */
  const ChildTaskSchema: Schema := Schema("id", {"parent", "createdAt"})
  const OrderListSchema: Schema := Schema("listKey", {})
  const TagSchema: Schema := Schema("id", {})
  const ColorSchema: Schema := Schema("id", {})

  /** The item's key: its key attribute, present as a non-empty string. */
  function KeyOf(s: Schema, item: Item): (k: Option<string>)
    ensures k.Some? <==> s.key in item && item[s.key].Str? && item[s.key].s != ""
    ensures k.Some? ==> HasStr(item, s.key, k.value) && k.value != ""
  {
    if s.key in item && item[s.key].Str? && item[s.key].s != "" then Some(item[s.key].s) else None
  }

  /**
   * DynamoDB accepts a Put only when the table key is a non-empty string and every index key
   * attribute the item carries is a non-empty string; otherwise the call throws.
   */
  predicate Accepts(s: Schema, item: Item)
  {
    KeyOf(s, item).Some? && IndexKeysValid(s, item)
  }

  /** Every index key attribute the item carries is a non-empty string. */
  predicate IndexKeysValid(s: Schema, item: Item)
  {
    forall a :: a in s.indexKeys && a in item ==> item[a].Str? && item[a].s != ""
  }

  /** The table after an accepted Put: the item replaces whatever was stored under its key. */
  function PutInto(s: Schema, t: map<string, Item>, item: Item): (t': map<string, Item>)
    requires Accepts(s, item)
    ensures t'.Keys == t.Keys + {KeyOf(s, item).value}
    ensures t'[KeyOf(s, item).value] == item
    ensures forall k :: k in t && k != KeyOf(s, item).value ==> t'[k] == t[k]
  {
    t[KeyOf(s, item).value := item]
  }

  /** Items whose attribute `attr` is the string `v`: a Query on the table key. */
  function Matching(t: map<string, Item>, attr: string, v: string): (r: set<Item>)
    ensures r <= t.Values
    ensures forall it :: it in r <==> it in t.Values && HasStr(it, attr, v)
  {
    set it | it in t.Values && HasStr(it, attr, v)
  }

  /** The item carries the index sort key `sortKey` as a string, so the index holds it. */
  predicate Indexed(it: Item, sortKey: string)
  {
    sortKey in it && it[sortKey].Str?
  }

  /**
   * A Query on a global secondary index with partition key `attr` and sort key `sortKey`:
   * DynamoDB copies an item into the index only when it carries both key attributes, so an item
   * without the sort key is never found, whatever its `attr`.
   */
  function IndexMatching(t: map<string, Item>, attr: string, sortKey: string, v: string): (r: set<Item>)
    ensures r <= Matching(t, attr, v)
    ensures forall it :: it in r <==> it in t.Values && HasStr(it, attr, v) && Indexed(it, sortKey)
  {
    set it | it in t.Values && HasStr(it, attr, v) && Indexed(it, sortKey)
  }

  /**
   * The table is as the store keeps it: every item sits under its own key attribute and every
   * index key attribute it carries is a non-empty string.
   */
  predicate WellStored(s: Schema, t: map<string, Item>)
  {
    forall k :: k in t ==> KeyOf(s, t[k]) == Some(k) && IndexKeysValid(s, t[k])
  }

  lemma PutKeepsWellStored(s: Schema, t: map<string, Item>, item: Item)
    requires WellStored(s, t) && Accepts(s, item)
    ensures WellStored(s, PutInto(s, t, item))
  {
  }

  /** A Query on the table key finds the one item stored under that key, or nothing. */
  lemma QueryOnKey(s: Schema, t: map<string, Item>, k: string)
    requires WellStored(s, t)
    ensures Matching(t, s.key, k) == if k in t then {t[k]} else {}
  {
    forall it | it in Matching(t, s.key, k)
      ensures k in t && it == t[k]
    {
      var k' :| k' in t && t[k'] == it;
      assert KeyOf(s, it) == Some(k');
    }
    if k in t {
      assert KeyOf(s, t[k]) == Some(k);
      assert t[k] in Matching(t, s.key, k);
    }
  }

  /** Once a key is deleted, no stored item carries it as its key attribute. */
  lemma DeletedKeyGone(s: Schema, t: map<string, Item>, k: string)
    requires WellStored(s, t)
    ensures WellStored(s, t - {k})
    ensures Matching(t - {k}, s.key, k) == {}
  {
    QueryOnKey(s, t - {k}, k);
  }

  class Table {
    const schema: Schema
    var items: map<string, Item>

    constructor (schema: Schema, items: map<string, Item>)
      ensures this.schema == schema && this.items == items
    {
      this.schema := schema;
      this.items := items;
    }

    /** PutCommand: insert or replace the whole item under its key; throws (ok false) on invalid keys. */
    method Put(item: Item) returns (ok: bool)
      modifies this
      ensures ok == Accepts(schema, item)
      ensures items == if ok then PutInto(schema, old(items), item) else old(items)
    {
      ok := Accepts(schema, item);
      if ok {
        items := items[KeyOf(schema, item).value := item];
      }
    }

    /** DeleteCommand: remove the key, a no-op when it is absent; an empty key throws. */
    method Delete(key: string) returns (ok: bool)
      modifies this
      ensures ok == (key != "")
      ensures items == if ok then old(items) - {key} else old(items)
      ensures ok ==> key !in items
    {
      ok := key != "";
      if ok {
        items := items - {key};
      }
    }

    /** ScanCommand: every stored item (order and paging are not modelled). */
    method Scan() returns (r: set<Item>)
      ensures r == items.Values
    {
      r := items.Values;
    }

    /** QueryCommand on the table key, `attr = :v`: the stored items whose `attr` is the string `v`. */
    method Query(attr: string, v: string) returns (r: set<Item>)
      ensures r <= items.Values
      ensures forall k :: k in items && HasStr(items[k], attr, v) ==> items[k] in r
      ensures forall it :: it in r ==> HasStr(it, attr, v)
    {
      r := Matching(items, attr, v);
    }

    /**
     * QueryCommand on a secondary index, `attr = :v`: the stored items whose `attr` is the
     * string `v` and that carry the index's sort key.
     */
    method QueryIndex(attr: string, sortKey: string, v: string) returns (r: set<Item>)
      ensures r <= items.Values
      ensures forall k :: k in items ==> (items[k] in r <==> HasStr(items[k], attr, v) && Indexed(items[k], sortKey))
      ensures forall it :: it in r ==> HasStr(it, attr, v) && Indexed(it, sortKey)
    {
      r := IndexMatching(items, attr, sortKey, v);
    }
  }
}
