# taskseed API handlers in Dafny

This project models the six AWS Lambda handlers behind the taskseed REST API: preMemo, task,
childTask, tag, color and orderList. It also models the record shapes they share.

Each handler receives an API Gateway proxy event. It answers with a status code, optional
headers and a body, and makes at most one change to its own DynamoDB table.

- A table is a `map<string, Item>` from key to item. An item is a JSON object.
- `PutCommand` replaces the whole record stored under the item's key.
- `DeleteCommand` removes a key. Deleting an absent key does nothing.
- `ScanCommand` returns every stored item.
- `QueryCommand` on a table key returns the items whose key attribute equals the given string.
- `QueryCommand` on a secondary index returns the items whose partition attribute equals the
  given string and that carry the index's sort key (`createdAt`). DynamoDB leaves an item
  without the sort key out of the index.
- `randomUUID()` and `new Date().toISOString()` are the parameters `freshId` and `now`.

## Modules

- `Json` (json.dfy): parsed JSON values. `Item` is a JSON object.
- `Types` (types.dfy): the record types of `frontend/src/types/types.ts`, for each resource:
  - the stored record;
  - the create payload (POST);
  - the update payload (PUT).

  It also defines the `OrderListKey` (`task#…` / `child#…`) and its parser. Decoders read a stored
  item back as a record, and round-trip lemmas prove they invert the encoding.
- `Store` (store.dfy): the tables.
  - Table and index keys come from the CDK stack.
  - `Accepts` says when DynamoDB takes an item. The table key must be a non-empty string. Any index
    key attribute present must be a non-empty string. Otherwise the SDK call throws.
  - Class `Table` holds `Put`, `Delete`, `Scan`, `Query` (on the table key) and `QueryIndex` (on a
    secondary index).
  - `WellStored` is the invariant that every item sits under its own key.
- `Http` (http.dfy): the proxy request, the response, and the JSON/CORS header set. A `Result` is
  either a response or a thrown exception.
- `Crud` (crud.dfy): what the handlers share.
  - The item `put` builds (`{ ...data, updatedAt }`) and the item `post` builds
    (`{ id, ...data, createdAt, updatedAt }`).
  - The routing decision (`Action`).
  - Its specification `Run`, and the method `Execute` that carries the decision out on a `Table`
    and is proved equal to `Run`.
- One module per handler (`PreMemo`, `Task`, `ChildTask`, `Tag`, `Color`, `OrderList`). Each holds:
  - a pure `Route`, which is the handler's if/else chain;
  - `Handle`, which is `Run` of that route, with the handler-wide guarantees as its contract;
  - the imperative `Handler` method on the table;
  - one lemma per branch.
- `Replay` (replay.dfy): sequences of invocations of one handler. It proves:
  - the store invariant holds after every invocation;
  - the orderList table never changes;
  - DELETE is idempotent;
  - of two identical PUTs, the later one wins;
  - a created record is listed by the next GET, once the write is visible to reads;
  - a deleted record is gone.

### Behaviour worth knowing

- **PUT replaces; it does not merge.** `put` stores only the request body plus `updatedAt`, and
  never reads the old record. The unused `get` helper in `preMemo.ts` changes nothing. An update
  payload therefore removes `createdAt` and every omitted field. A task also loses `memo`, and a
  child task loses `parent`. The record then no longer has its stored type, and no GSI listing
  finds it. See `*.PutPayloadDrops*`.

  A record stored without `createdAt` also drops out of GSI_ByMemo and GSI_ByParent, even when
  it keeps its `memo` or `parent` (`Task.PutWithoutCreatedAtUnlisted`).

  Because PUT can store a record without `createdAt`, the table-wide invariant proved in `Replay`
  keeps only `updatedAt`.
- **Fallback status.** task and preMemo fall back to 405 "Method Not Allowed". color, tag,
  childTask and orderList fall back to 400.
- **childTask POST** answers 200, not 201.
- **A body `id` on POST wins** over the fresh id, because of spread order. The record is then
  stored under the client's id (`Color.PostBodyIdOverrides`).
- **tag and childTask PUT do not check ids.** The record is written under the body's `id`,
  whatever the path says. A body without a usable `id` makes the store call throw.
- **The task GET body** is the whole query output. Every other listing answers just its `Items`.
- The frontend client's `preMemo.put` sends no `id` in its body. So the preMemo handler always
  answers it 400 "Invalid request: id mismatch" (`PreMemo.PutBodyWithoutIdRejected`).

## Model

| member | source | states |
|---|---|---|
| Types.ParseOrderListKey | frontend/src/types/types.ts:1-2 | a string is an ordering-list key exactly when it starts with `task#` or `child#`, and a parsed key renders back to the same string |
| Types.OrderListKeyRoundTrip | frontend/src/types/types.ts:1-2 | parsing the rendered `task#…` / `child#…` string of a key gives that key back |
| Types.KeyString | frontend/src/types/types.ts:1-2 | a task key renders as `task#` followed by its memo id, a child key as `child#` followed by its task id, and only task keys start with `task#` |
| Types.KeyStringInjective | frontend/src/types/types.ts:1-2 | two keys with the same string form are the same key |
| Types.WithOptional | frontend/src/types/types.ts:27-31 | an optional field is present in the object exactly when it is given, and nothing else changes |
| Types.PreMemoItem.ToItem | frontend/src/types/types.ts:14-20 | a stored memo carries its id and both timestamps as strings |
| Types.PostPreMemoItem.ToItem | frontend/src/types/types.ts:22-25 | a create payload carries no `id`, `createdAt` or `updatedAt` |
| Types.PutPreMemoItem.ToItem | frontend/src/types/types.ts:27-31 | an update payload always has `id`; `content` and `tag` are present exactly when given, and there is nothing else |
| Types.AsPreMemoItem | frontend/src/types/types.ts:14-20 | an item reads as a memo exactly when all five fields are strings, and the memo is contained in the item |
| Types.TaskItem.ToItem | frontend/src/types/types.ts:34-41 | a stored task carries its id, memo and both timestamps |
| Types.PostTaskItem.ToItem | frontend/src/types/types.ts:43-47 | a task create payload carries its memo and no server-set field |
| Types.PutTaskItem.ToItem | frontend/src/types/types.ts:49-53 | a task update can set only `title` and `detail`, never `memo` |
| Types.AsTaskItem | frontend/src/types/types.ts:34-41 | an item reads as a task exactly when all six fields are strings |
| Types.ChildTaskItem.ToItem | frontend/src/types/types.ts:56-63 | a stored child task carries its id, parent and both timestamps |
| Types.PostChildTaskItem.ToItem | frontend/src/types/types.ts:65-69 | a child-task create payload carries its parent and no server-set field |
| Types.PutChildTaskItem.ToItem | frontend/src/types/types.ts:71-75 | a child-task update can set only `title` and `detail`, never `parent` |
| Types.AsChildTaskItem | frontend/src/types/types.ts:56-63 | an item reads as a child task exactly when all six fields are strings |
| Types.TagItem.ToItem | frontend/src/types/types.ts:91-97 | a stored tag carries its id and both timestamps |
| Types.PostTagItem.ToItem | frontend/src/types/types.ts:99-102 | a tag create payload carries no server-set field |
| Types.PutTagItem.ToItem | frontend/src/types/types.ts:104-108 | a tag update always has `id`; `title` and `color` are optional |
| Types.AsTagItem | frontend/src/types/types.ts:91-97 | an item reads as a tag exactly when all five fields are strings |
| Types.ColorItem.ToItem | frontend/src/types/types.ts:111-117 | a stored color carries its id and both timestamps |
| Types.PostColorItem.ToItem | frontend/src/types/types.ts:119-122 | a color create payload carries no server-set field |
| Types.PutColorItem.ToItem | frontend/src/types/types.ts:124-128 | a color update always has `id`; `title` and `code` are optional |
| Types.AsColorItem | frontend/src/types/types.ts:111-117 | an item reads as a color exactly when all five fields are strings |
| Types.OrderListItem.ToItem | frontend/src/types/types.ts:78-84 | an order list is stored under its rendered key, with its ids as a JSON array of strings and a numeric version |
| Types.Strs | frontend/src/types/types.ts:80 | the JSON array has one string element per id, in order |
| Types.Ids | frontend/src/types/types.ts:80 | a JSON array reads as ids exactly when every element is a string, and the ids encode back to the array |
| Types.AsOrderListItem | frontend/src/types/types.ts:78-84 | an item reads as an order list exactly when its timestamps are strings, its `listKey` starts with `task#` or `child#`, `list` is an array of strings and `version` is a number; the decoded list is contained in the item |
| Types.RecordsRoundTrip | frontend/src/types/types.ts:14-117 | every stored record type reads back from its own encoding |
| Types.IdsOfStrs | frontend/src/types/types.ts:80 | a list of ids reads back from its JSON array |
| Types.OrderListItemRoundTrip | frontend/src/types/types.ts:78-84 | an order list reads back from its stored item |
| Store.KeyOf | cdk/lib/taskseed-stack.ts:12-20 | an item has a key exactly when its key attribute is a non-empty string |
| Store.PutInto | cdk/lib/taskseed-stack.ts:12-92 | a Put stores the item under its key, replacing what was there, and leaves every other key alone |
| Store.Matching | cdk/lambda/orderList/orderList.ts:21-30 | a Query on the table key returns exactly the stored items whose key attribute is the given string |
| Store.IndexMatching | cdk/lib/taskseed-stack.ts:31-41 | a Query on a secondary index returns exactly the stored items whose partition attribute is the given string and that carry the sort key `createdAt`; it finds a subset of what a key match would |
| Store.PutKeepsWellStored | cdk/lib/taskseed-stack.ts:12-92 | an accepted Put keeps every item under its own key with valid index keys |
| Store.QueryOnKey | cdk/lambda/orderList/orderList.ts:21-30 | a Query on the table key finds the one item stored under that key, or nothing |
| Store.DeletedKeyGone | cdk/lambda/color/color.ts:60-65 | after a Delete the invariant holds and no item carries the deleted key |
| Store.Table.Put | cdk/lambda/color/color.ts:38-43 | the store call succeeds exactly when the item is acceptable, and the table becomes the Put's result; otherwise it is unchanged |
| Store.Table.Delete | cdk/lambda/color/color.ts:60-65 | the key is removed, absent or not; an empty key throws |
| Store.Table.Scan | cdk/lambda/color/color.ts:28-33 | every stored item is returned |
| Store.Table.Query | cdk/lambda/orderList/orderList.ts:21-30 | exactly the stored items whose key attribute equals the value are returned |
| Store.Table.QueryIndex | cdk/lambda/task/task.ts:19-29 | a stored item is returned exactly when its partition attribute equals the value and it carries the sort key |
| Store.Table.constructor | cdk/lib/taskseed-stack.ts:12-20 | a table of the given schema holding the given items |
| Http.Message | cdk/lambda/tag/tag.ts:78-83 | `{ message }` is a JSON object whose only field is `message`, holding the given text |
| Http.Truthy | cdk/lambda/color/color.ts:78-80 | `params?.[name]` is truthy exactly when the parameter is present and non-empty |
| Http.IdMatches | cdk/lambda/color/color.ts:84-90 | the ids match only when the body's `id` is the path id as a string; a missing or non-string `id` never matches, as `!==` decides |
| Crud.UpdatedItem | cdk/lambda/color/color.ts:35-45 | `put` stores exactly the body's fields plus `updatedAt = now` |
| Crud.CreatedItem | cdk/lambda/color/color.ts:46-58 | `post` stores the body's fields plus `createdAt = updatedAt = now`, with `id` the body's id if it has one and the fresh id otherwise |
| Crud.CreatedItemAccepted | cdk/lambda/color/color.ts:46-58 | the store accepts a created item whose body has valid index attributes, and keys it by the body id or the fresh id |
| Crud.Echo | cdk/lambda/color/color.ts:60-65 | `del` answers an object whose only field is `id`, holding the deleted id |
| Crud.RunCreate | cdk/lambda/task/task.ts:41-53 | a create with a fresh id adds exactly that one key, leaves every other record alone and answers with the stored item |
| Crud.Listed | cdk/lambda/color/color.ts:28-33 | a listing returns only stored items |
| Crud.Run | cdk/lambda/color/color.ts:67-124 | a thrown store call changes nothing; a reply answers as decided and changes nothing; a listing answers 200 with exactly the scanned or queried items (the whole output or its `Items`) and changes nothing; a write succeeds exactly when the store accepts the item, then stores it and answers with it; a delete succeeds exactly for a non-empty key, then removes it and echoes `{ id }` |
| Crud.Execute | cdk/lambda/color/color.ts:67-124 | carrying the decision out on the table yields exactly the result and table `Run` specifies |
| Color.Handle | cdk/lambda/color/color.ts:67-124 | every error leaves the table unchanged; only PUT, POST and DELETE can change it; the status is 200, 201 or 400; successes carry the JSON/CORS headers and errors none |
| Color.Route | cdk/lambda/color/color.ts:67-124 | GET lists; DELETE with an id removes it; POST with a body, and PUT passing the path-id, body and id-equality checks, write an item stamped `updatedAt = now` whose id is the path id on PUT; every other request is a 400 reply without headers, and every other action carries the JSON/CORS headers |
| Color.Handler | cdk/lambda/color/color.ts:21-125 | the invocation's result and new table are those of `Handle` |
| Color.GetListsAll | cdk/lambda/color/color.ts:68-75 | any GET answers 200 with every stored color and the headers |
| Color.PutWithoutPathId | cdk/lambda/color/color.ts:78-80 | PUT without a path id answers 400 before the body is examined, with the table unchanged |
| Color.PutWithoutBody | cdk/lambda/color/color.ts:81-83 | PUT without a body answers 400, with the table unchanged |
| Color.PutIdMismatch | cdk/lambda/color/color.ts:84-91 | PUT whose body id is not the path id answers 400, with the table unchanged |
| Color.PutReplaces | cdk/lambda/color/color.ts:92-97 | an accepted PUT stores exactly body + `updatedAt` under the id, replacing the record, and answers it |
| Color.PostWithoutBody | cdk/lambda/color/color.ts:100-102 | POST without a body answers 400, with the table unchanged |
| Color.PostCreates | cdk/lambda/color/color.ts:98-109 | POST adds exactly one record under the fresh id, with `createdAt == updatedAt == now`, and answers 201 with it |
| Color.PostBodyIdOverrides | cdk/lambda/color/color.ts:46-50 | a body id overrides the fresh id: the record is stored under the body's id |
| Color.DeleteRemoves | cdk/lambda/color/color.ts:110-121 | DELETE removes the key, whether stored or not, and echoes `{ id }` with 200 |
| Color.DeleteWithoutPathId | cdk/lambda/color/color.ts:112-114 | DELETE without a path id answers 400, with the table unchanged |
| Color.OtherMethodRejected | cdk/lambda/color/color.ts:122-124 | any other method answers 400 "Invalid request" without headers |
| Color.PostPayloadStoresColorItem | cdk/lambda/color/color.ts:46-58 | creating from a create payload stores and answers a complete color record |
| Color.PutPayloadDropsCreatedAt | cdk/lambda/color/color.ts:35-45 | updating with an update payload leaves a record without `createdAt`, which no longer reads as a color |
| Task.Handle | cdk/lambda/task/task.ts:61-112 | every error leaves the table unchanged; only PUT, POST and DELETE can change it; the status is 200, 201, 400 or 405; no response carries headers |
| Task.Route | cdk/lambda/task/task.ts:61-112 | GET with a memo id queries the memo index for the whole output; DELETE with an id removes it; POST with a body, and PUT passing its three checks, write an item stamped `updatedAt = now`; a failed POST or PUT check replies 400 and every other request 405, without headers |
| Task.Handler | cdk/lambda/task/task.ts:12-113 | the invocation's result and new table are those of `Handle` |
| Task.GetByMemo | cdk/lambda/task/task.ts:62-69 | GET with a memo id answers the whole query output, holding exactly the tasks of that memo that carry `createdAt` |
| Task.PutWithoutCreatedAtUnlisted | cdk/lambda/task/task.ts:19-40 | a task a PUT stored without `createdAt` keeps its memo but is no longer found by that memo's GET |
| Task.GetWithoutMemoId | cdk/lambda/task/task.ts:110-112 | GET without a memo id falls through to 405 |
| Task.PostWithoutBody | cdk/lambda/task/task.ts:72-74 | POST without a body answers 400, with the table unchanged |
| Task.PostCreates | cdk/lambda/task/task.ts:70-80 | POST adds exactly one task under the fresh id, with `createdAt == updatedAt == now`, and answers 201 with it |
| Task.PostEmptyMemoThrows | cdk/lambda/task/task.ts:41-53 | a POST whose `memo` is empty or not a string is refused by the index, so the invocation throws and the table is unchanged |
| Task.PutRejected | cdk/lambda/task/task.ts:83-96 | PUT checks the path id, then the body, then id equality, and answers the first failure's 400 with the table unchanged |
| Task.PutReplaces | cdk/lambda/task/task.ts:97-101 | an accepted PUT whose `memo` and `createdAt`, where present, are non-empty strings stores exactly body + `updatedAt` under the id |
| Task.PutInvalidIndexKeyThrows | cdk/lambda/task/task.ts:30-40 | a PUT whose `memo` or `createdAt` is present but not a non-empty string makes the store call throw, with the table unchanged |
| Task.PutPayloadDropsMemo | cdk/lambda/task/task.ts:30-40 | updating with an update payload leaves a record without `memo` and `createdAt`, which no memo's listing finds |
| Task.DeleteRemoves | cdk/lambda/task/task.ts:102-109 | DELETE with an id removes the key and echoes `{ id }` |
| Task.UnmatchedIs405 | cdk/lambda/task/task.ts:110-112 | DELETE without an id and every unmatched method answer 405 |
| Task.PostPayloadStoresTaskItem | cdk/lambda/task/task.ts:41-53 | creating from a create payload stores a complete task that its memo's listing contains |
| Tag.Handle | cdk/lambda/tag/tag.ts:67-120 | every error leaves the table unchanged; only PUT, POST and DELETE can change it; the status is 200, 201 or 400; successes carry the headers and errors none |
| Tag.Route | cdk/lambda/tag/tag.ts:67-120 | GET lists; DELETE with an id removes it; POST with a body, and PUT with a path id and a body, write an item stamped `updatedAt = now`, PUT storing exactly body + `updatedAt` with no id check; every other request is a 400 reply without headers |
| Tag.Handler | cdk/lambda/tag/tag.ts:21-121 | the invocation's result and new table are those of `Handle` |
| Tag.GetListsAll | cdk/lambda/tag/tag.ts:68-75 | any GET answers 200 with every stored tag and the headers |
| Tag.PostWithoutBody | cdk/lambda/tag/tag.ts:78-83 | POST without a body answers 400 with the JSON body `{"message":"Bad Request: Missing body"}` |
| Tag.PostCreates | cdk/lambda/tag/tag.ts:84-90 | POST adds exactly one tag under the fresh id, with `createdAt == updatedAt == now`, and answers 201 |
| Tag.PutRejected | cdk/lambda/tag/tag.ts:93-98 | PUT without a path id, or then without a body, answers 400 with the table unchanged |
| Tag.PutIgnoresPathId | cdk/lambda/tag/tag.ts:99-105 | PUT writes under the body's id whatever the path says, and leaves the path id's record alone |
| Tag.PutWithoutBodyIdThrows | cdk/lambda/tag/tag.ts:34-44 | a PUT body without a usable id makes the store call throw, with the table unchanged |
| Tag.DeleteRemoves | cdk/lambda/tag/tag.ts:106-117 | DELETE with an id removes the key and echoes `{ id }` with the headers |
| Tag.DeleteWithoutPathId | cdk/lambda/tag/tag.ts:108-110 | DELETE without a path id answers 400 |
| Tag.OtherMethodRejected | cdk/lambda/tag/tag.ts:118-120 | any other method answers 400 "Invalid request" |
| Tag.PostPayloadStoresTagItem | cdk/lambda/tag/tag.ts:46-58 | creating from a create payload stores and answers a complete tag record |
| Tag.PutPayloadDropsCreatedAt | cdk/lambda/tag/tag.ts:34-44 | updating with an update payload leaves a record without `createdAt`, which no longer reads as a tag |
| ChildTask.Handle | cdk/lambda/childTask/childTask.ts:63-107 | every error leaves the table unchanged; only PUT, POST and DELETE can change it; the status is 200 or 400; no response carries headers |
| ChildTask.Route | cdk/lambda/childTask/childTask.ts:63-107 | GET with a parent id queries the parent index for its `Items`; DELETE with an id removes it; POST with a body, and PUT with a path id and a body, write an item stamped `updatedAt = now` answered with 200; every other request is a 400 reply; nothing carries headers |
| ChildTask.Handler | cdk/lambda/childTask/childTask.ts:12-108 | the invocation's result and new table are those of `Handle` |
| ChildTask.GetByParent | cdk/lambda/childTask/childTask.ts:64-71 | GET with a parent id answers the `Items` of the query: exactly the child tasks of that parent that carry `createdAt` |
| ChildTask.PutRejected | cdk/lambda/childTask/childTask.ts:72-79 | PUT without a path id, or then without a body, answers 400 with the table unchanged |
| ChildTask.PutIgnoresPathId | cdk/lambda/childTask/childTask.ts:80-85 | PUT does no id check and, when `parent` and `createdAt` are absent or non-empty strings, stores exactly body + `updatedAt` under the body's id |
| ChildTask.PutInvalidIndexKeyThrows | cdk/lambda/childTask/childTask.ts:31-41 | a PUT whose `parent` or `createdAt` is present but not a non-empty string makes the store call throw, with the table unchanged |
| ChildTask.PostCreates | cdk/lambda/childTask/childTask.ts:86-96 | POST adds exactly one child task under the fresh id, with `createdAt == updatedAt == now`, and answers 200, not 201 |
| ChildTask.PostWithoutBody | cdk/lambda/childTask/childTask.ts:88-90 | POST without a body answers 400 |
| ChildTask.DeleteRemoves | cdk/lambda/childTask/childTask.ts:97-104 | DELETE with an id removes the key and echoes `{ id }` |
| ChildTask.UnmatchedIs400 | cdk/lambda/childTask/childTask.ts:105-107 | DELETE without an id, GET without a parent id and any other method answer 400 |
| ChildTask.PostPayloadStoresChildTaskItem | cdk/lambda/childTask/childTask.ts:43-55 | creating from a create payload stores a complete child task that its parent's listing contains |
| ChildTask.PutPayloadDropsParent | cdk/lambda/childTask/childTask.ts:31-41 | updating with an update payload leaves a record without `parent` and `createdAt`, which no parent's listing finds |
| PreMemo.Handle | cdk/lambda/preMemo/preMemo.ts:67-114 | every error leaves the table unchanged; only PUT, POST and DELETE can change it; the status is 200, 201, 400 or 405; no response carries headers |
| PreMemo.Route | cdk/lambda/preMemo/preMemo.ts:67-114 | GET lists; DELETE with an id removes it; POST with a body, and PUT passing its three checks, write an item stamped `updatedAt = now`; a failed POST or PUT check replies 400 and every other request 405, without headers |
| PreMemo.Handler | cdk/lambda/preMemo/preMemo.ts:12-115 | the invocation's result and new table are those of `Handle` |
| PreMemo.GetListsAll | cdk/lambda/preMemo/preMemo.ts:68-74 | any GET answers 200 with every stored memo and no headers |
| PreMemo.PostWithoutBody | cdk/lambda/preMemo/preMemo.ts:77-79 | POST without a body answers 400 |
| PreMemo.PostCreates | cdk/lambda/preMemo/preMemo.ts:75-85 | POST adds exactly one memo under the fresh id, with `createdAt == updatedAt == now`, and answers 201 |
| PreMemo.PutRejected | cdk/lambda/preMemo/preMemo.ts:86-98 | PUT checks the path id, then the body, then id equality ("id mismatch"), and answers the first failure's 400 with the table unchanged |
| PreMemo.PutReplaces | cdk/lambda/preMemo/preMemo.ts:27-44 | an accepted PUT stores exactly body + `updatedAt`, and its answer does not depend on the table: nothing is read before the write |
| PreMemo.DeleteRemoves | cdk/lambda/preMemo/preMemo.ts:104-111 | DELETE removes the key with no existence check: the answer is the same whatever the table holds |
| PreMemo.UnmatchedIs405 | cdk/lambda/preMemo/preMemo.ts:104-114 | DELETE without an id and every other method answer 405 |
| PreMemo.PostPayloadStoresPreMemoItem | cdk/lambda/preMemo/preMemo.ts:46-58 | creating from a create payload stores and answers a complete memo record |
| PreMemo.PutPayloadDropsCreatedAt | cdk/lambda/preMemo/preMemo.ts:34-44 | updating with an update payload leaves a record without `createdAt`, which no longer reads as a memo |
| PreMemo.PutBodyWithoutIdRejected | cdk/lambda/preMemo/preMemo.ts:94-98 | a PUT body without `id`, like the frontend client's, is always refused as an id mismatch |
| OrderList.Handle | cdk/lambda/orderList/orderList.ts:31-46 | the table never changes and nothing throws; the status is 200 exactly for GET with a list key, else 400; only the 200 carries headers |
| OrderList.Route | cdk/lambda/orderList/orderList.ts:31-46 | no request writes or deletes; GET with a list key queries the table on that key with the JSON/CORS headers, and anything else is a 400 reply without headers |
| OrderList.Handler | cdk/lambda/orderList/orderList.ts:14-47 | the table is unchanged and the result is that of `Handle` |
| OrderList.GetByKey | cdk/lambda/orderList/orderList.ts:32-40 | GET answers the list stored under the key, or an empty array with 200 when there is none |
| OrderList.BadRequest | cdk/lambda/orderList/orderList.ts:41-46 | any other request answers 400 `{"message":"Bad Request"}` |
| OrderList.GetStoredOrder | cdk/lambda/orderList/orderList.ts:21-40 | a stored order list reads back through its rendered key as exactly that list |
| Replay.SchemaOf | cdk/lib/taskseed-stack.ts:12-92 | orderList is keyed by `listKey` and every other table by `id` |
| Replay.WritesAreStamped | cdk/lambda/color/color.ts:35-58 | every item a handler asks the store to put carries `updatedAt = now` |
| Replay.InvokeKeepsConsistent | cdk/lambda/color/color.ts:35-65 | one invocation keeps every record under its own key, with valid index keys and an `updatedAt` |
| Replay.ReplayKeepsConsistent | cdk/lambda/color/color.ts:35-65 | any sequence of invocations keeps the table consistent |
| Replay.OrderListReadOnly | cdk/lambda/orderList/orderList.ts:14-47 | no sequence of calls changes the orderList table |
| Replay.ReplayChangesOnlyBySuccess | cdk/lambda/color/color.ts:76-124 | a table changes only through an invocation that succeeds |
| Replay.DeleteIdempotent | cdk/lambda/color/color.ts:60-65 | repeating a DELETE answers the same and changes nothing more |
| Replay.PutLastWriterWins | cdk/lambda/color/color.ts:35-45 | of two PUTs of the same body, only the later one's record remains |
| Replay.PostThenGet | cdk/lambda/color/color.ts:46-75 | on the scanned tables, a created record is listed, unchanged, by the next GET |
| Replay.PostTaskThenGetByMemo | cdk/lambda/task/task.ts:19-80 | a created task is listed by the next GET for its memo |
| Replay.PostChildTaskThenGetByParent | cdk/lambda/childTask/childTask.ts:19-96 | a created child task is listed by the next GET for its parent |
| Replay.DeleteThenGone | cdk/lambda/color/color.ts:60-65 | after a successful DELETE, no record in a consistent table has that id |

## Left out

- Request bodies that `JSON.parse` rejects: the handler throws before any store call.
- Request bodies that parse to something other than an object. A body is either absent (a null
  or empty raw body) or a parsed object. In the handlers such bodies behave as follows:
  - POST spreads them. `null`, numbers and booleans add no field, so the record is just
    `{ id, createdAt, updatedAt }` and the answer is 201 (200 in childTask). Strings and arrays
    add one field per index.
  - PUT in color, task and preMemo reads `data.id`. That throws for `null`, and is undefined for
    other non-objects, which answer 400 for the id mismatch.
  - PUT in tag and childTask stores the spread without an `id`, so the store call throws.
- Number precision: JSON numbers are unbounded integers here. `JSON.parse` yields doubles, so
  fractions and the rounding of integers beyond 2^53 are not modelled.
- Order of results: scans and queries return sets. The `createdAt` sort key of the two secondary
  indexes orders query results, and that order is not modelled.
- Scan and Query pagination (1 MB pages): a listing returns every matching item.
- The other members of the task query output (`Count`, `ScannedCount`, `$metadata`): the body
  carries only its `Items`.
- Concurrency between invocations: they run one after another.
- Read consistency: no Scan or Query sets `ConsistentRead`, and queries on GSI_ByMemo and
  GSI_ByParent can only be eventually consistent. The model's store answers every read with
  the latest write. So `Replay.PostThenGet`, `Replay.PostTaskThenGetByMemo`,
  `Replay.PostChildTaskThenGetByParent` and `Task.PutWithoutCreatedAtUnlisted` describe reads
  made after the write has propagated. A read right after a write may still show the older state.
- The DynamoDB client, the table names taken from the environment, and store failures other than
  invalid keys (throttling, the item size limit, network errors).
- The CDK stack itself: only its key schema and index definitions are used.
- The frontend client, the React UI and the Next.js configuration.
- The `GETOrderListItem` type: the handler reads its list key from the path, never from a body.
- A write path for order lists, or any version bump: no handler has one.
- Uniqueness of `randomUUID()`: the lemmas that add a record require the fresh id to be absent
  from the table.
- ISO-8601 timestamps: `now` is any string. The branded `ISODateTime` type is not checked.
- Replay.Consistent: keeps only `updatedAt`, not the `createdAt` that the record types promise,
  because an accepted PUT of an update payload drops `createdAt`.
