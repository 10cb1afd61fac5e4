/** Parsed JSON values: the shape of request bodies, DynamoDB items and response bodies. */
module Json {

  datatype Option<+T> = None | Some(value: T)

  /** A parsed JSON value. Numbers are integers in this model. */
  datatype Value =
    | Null
    | Bool(b: bool)
    | Num(n: int)
    | Str(s: string)
    | Arr(elems: seq<Value>)
    | Obj(fields: map<string, Value>)

  /** A JSON object: a parsed request body, a stored DynamoDB item, a record. */
  type Item = map<string, Value>

  /** `it[name]` is the string `s`. */
  predicate HasStr(it: Item, name: string, s: string)
  {
    name in it && it[name] == Str(s)
  }

  /** Every field of `small` is present in `big` with the same value. */
  predicate SubItem(small: Item, big: Item)
  {
    forall f :: f in small ==> f in big && big[f] == small[f]
  }
}
