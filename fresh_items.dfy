/**
  The Fresh API route `routes/api/items.ts`: GET returns the loaded
  document, POST builds an item (with a price) and pushes it onto
  `data.items` before saving.
 */
module FreshItems {
  import opened JsText
  import opened ShoppingItems

  /** The item `handler.POST` builds. */
  function NewFreshItem(body: Body, freshId: string, now: string): Item {
    Item(freshId, body.artikel, body.anzahl, Some(OrZero(body.preis)), Todo,
         OrString(body.kommentar, ""), Some([]), OrString(body.username, "Anonym"), now)
  }

  /** The new item is open, has no history, copies `artikel` and `anzahl`
      unchecked, takes the price when one is sent and 0 otherwise, and
      falls back to `""` and `"Anonym"` for comment and author. */
  lemma NewFreshItemFields(body: Body, freshId: string, now: string)
    ensures var it := NewFreshItem(body, freshId, now);
      && it.id == freshId && it.status == Todo && HistoryOf(it) == []
      && it.artikel == body.artikel && it.anzahl == body.anzahl
      && it.preis == Some(if body.preis.Some? then body.preis.value else 0.0)
      && it.kommentar == (if Truthy(body.kommentar) then body.kommentar.value else "")
      && it.letzterUser == (if Truthy(body.username) then body.username.value else "Anonym")
      && it.updatedAt == now
  {
    OrZeroIsValueOrZero(body.preis);
  }

  /** `handler.POST` on the loaded document `data`. */
  method Post(data: ShoppingList, body: Body, freshId: string, now: string) returns (newItem: Item)
    modifies data
    ensures newItem == NewFreshItem(body, freshId, now)
    ensures data.items == old(data.items) + [newItem]
  {
    newItem := NewFreshItem(body, freshId, now);
    data.Push(newItem);
  }

  /** `handler.GET`: the loaded document, the empty list when loading fails. */
  method HandleGet(stored: Option<seq<Item>>) returns (resp: Response)
    ensures resp == ListJson(LoadedItems(stored))
    ensures stored.None? ==> resp == ListJson([])
  {
    var data := new ShoppingList.Load(stored);
    resp := ListJson(data.items);
  }

  /** A whole POST request: the body is `None` when `req.json()` rejects, in
      which case nothing is written. Otherwise exactly one item is appended
      at the end, every earlier item is kept, and the ids stay distinct when
      `freshId` is new. */
  method HandlePost(stored: Option<seq<Item>>, body: Option<Body>, freshId: string, now: string)
    returns (resp: Response, written: Option<seq<Item>>)
    ensures body.None? ==> resp == ServerError && written == None
    ensures body.Some? ==>
      && resp == ItemJson(NewFreshItem(body.value, freshId, now))
      && written == Some(LoadedItems(stored) + [resp.item])
    ensures var items := LoadedItems(stored);
      written.Some? ==> |written.value| == |items| + 1 && written.value[..|items|] == items
    ensures var items := LoadedItems(stored);
      written.Some? && DistinctIds(items) && !HasId(items, freshId) ==> DistinctIds(written.value)
  {
    if body.None? {
      resp, written := ServerError, None;
      return;
    }
    var data := new ShoppingList.Load(stored);
    var items := data.items;
    var newItem := Post(data, body.value, freshId, now);
    written := Some(data.items);
    resp := ItemJson(newItem);
    if DistinctIds(items) && !HasId(items, freshId) {
      AppendKeepsDistinctIds(items, newItem);
    }
    assert data.items[..|items|] == items;
  }
}
