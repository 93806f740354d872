/**
  The shopping-list document shared by the standalone server and the Fresh
  routes: items, their comment history, the JSON request bodies and the
  responses, and the in-memory document that `loadData` produces.
 */
module ShoppingItems {
  import opened JsText
  import opened SeqUtil

  datatype Status = Todo | Done

  /** One archived comment: its text, who wrote it and when it was written. */
  datatype HistoryEntry = HistoryEntry(kommentar: string, username: string, timestamp: string)

  /** A list entry. `preis` is absent on items of the standalone server, which
      has no price field; `kommentarHistory` is absent on documents written
      before the history existed. Timestamps are opaque strings. */
  datatype Item = Item(
    id: string,
    artikel: string,
    anzahl: int,
    preis: Option<real>,
    status: Status,
    kommentar: string,
    kommentarHistory: Option<seq<HistoryEntry>>,
    letzterUser: string,
    updatedAt: string)

  /** The JSON body of a POST: every field a client may send. */
  datatype Body = Body(
    artikel: string,
    anzahl: int,
    preis: Option<real>,
    kommentar: Option<string>,
    username: Option<string>)

  /** A request as the server sees it: its method (`verb`), URL path, the `upgrade`
      header, and the body, which is `None` when `request.json()` rejects. */
  datatype Request = Request(verb: string, path: string, upgrade: Option<string>, body: Option<Body>)

  datatype Response =
    | SwitchingProtocols         // the WebSocket upgrade response
    | BadRequest(message: string) // 400
    | ListJson(items: seq<Item>) // 200, the whole document
    | ItemJson(item: Item)       // 200, the created item
    | SuccessJson                // 200, {success: true}
    | HtmlPage                   // 200, the embedded single-page client
    | NotFound                   // 404
    | ServerError                // 500, a rejected promise inside the handler

  /** `item.kommentarHistory || []` */
  function HistoryOf(it: Item): seq<HistoryEntry> {
    if it.kommentarHistory.Some? then it.kommentarHistory.value else []
  }

  /** `loadData()`: the stored items, or the empty list when the file is
      missing or does not parse (`stored == None`). */
  function LoadedItems(stored: Option<seq<Item>>): (r: seq<Item>)
    ensures stored.None? ==> r == []
    ensures stored.Some? ==> r == stored.value
  {
    match stored
    case None => []
    case Some(items) => items
  }

  predicate HasId(items: seq<Item>, id: string) {
    exists k :: 0 <= k < |items| && items[k].id == id
  }

  /** Item ids are pairwise distinct. */
  predicate DistinctIds(items: seq<Item>) {
    forall i, j :: 0 <= i < |items| && 0 <= j < |items| && i != j ==> items[i].id != items[j].id
  }

  /** Every item of `after` that shares an id with an item of `before` kept
      that item's history as a prefix: histories are append-only. */
  ghost predicate HistoriesExtend(before: seq<Item>, after: seq<Item>) {
    forall i, j :: 0 <= i < |before| && 0 <= j < |after| && before[i].id == after[j].id ==>
      HistoryOf(before[i]) <= HistoryOf(after[j])
  }

  function HasStatus(st: Status): Item -> bool {
    (it: Item) => it.status == st
  }

  /** `items.filter((i) => i.status === st)` */
  function WithStatus(items: seq<Item>, st: Status): seq<Item> {
    Filter(items, HasStatus(st))
  }

  function IdIsNot(id: string): Item -> bool {
    (it: Item) => it.id != id
  }

  /** `items.filter((i) => i.id !== id)` */
  function WithoutId(items: seq<Item>, id: string): seq<Item> {
    Filter(items, IdIsNot(id))
  }

  /** Appending an item whose id is new keeps the ids distinct. */
  lemma AppendKeepsDistinctIds(items: seq<Item>, it: Item)
    requires DistinctIds(items) && !HasId(items, it.id)
    ensures DistinctIds(items + [it])
  {
    var r := items + [it];
    forall i, j | 0 <= i < |r| && 0 <= j < |r| && i != j ensures r[i].id != r[j].id {
      if i == |items| { assert r[j] == items[j]; }
      else if j == |items| { assert r[i] == items[i]; }
    }
  }

  /** Replacing one item by another with the same id keeps the ids distinct,
      and keeps histories append-only when the new history extends the old. */
  lemma ReplaceKeepsInvariants(items: seq<Item>, k: nat, it: Item)
    requires k < |items| && it.id == items[k].id
    requires DistinctIds(items) && HistoryOf(items[k]) <= HistoryOf(it)
    ensures DistinctIds(items[k := it])
    ensures HistoriesExtend(items, items[k := it])
  {
    var r := items[k := it];
    forall i, j | 0 <= i < |items| && 0 <= j < |r| && items[i].id == r[j].id
      ensures HistoryOf(items[i]) <= HistoryOf(r[j])
    {
      if j == k { assert i == k; } else { assert r[j] == items[j]; assert i == j; }
    }
  }

  class ShoppingList {
    /** `data.items` */
    var items: seq<Item>

    /** `loadData()`, given what the file read and JSON parse produced. */
    constructor Load(stored: Option<seq<Item>>)
      ensures items == LoadedItems(stored)
    {
      items := LoadedItems(stored);
    }

    /** `data.items.push(item)` */
    method Push(item: Item)
      modifies this
      ensures items == old(items) + [item]
    {
      items := items + [item];
    }
  }
}
