/**
  The standalone Deno server (`server.ts`): the route classifier of
  `handleRequest` and its four mutation handlers, each a load, a change to
  the in-memory document, and a save followed by a broadcast of the saved
  document. A handler's save is reported as the document it writes.
 */
module ServerApi {
  import opened JsText
  import opened SeqUtil
  import opened ShoppingItems

  const ItemsPath := "/api/items"
  const ItemPrefix := "/api/items/"
  const CommentSuffix := "/comment"
  const ToggleSuffix := "/toggle"

  // ---------------------------------------------------------------- routing

  /** What the group `(.+)` can capture: one or more characters, none a line
      terminator (the regular-expression dot). */
  predicate Capturable(id: string) {
    |id| > 0 && forall i :: 0 <= i < |id| ==> !IsLineTerminator(id[i])
  }

  /** `path.match(/^\/api\/items\/(.+)<suffix>$/)`: the captured group, or
      `None` when the expression does not match. Both ends are anchored, so
      the greedy group is everything between the prefix and the suffix. */
  function MatchItemPath(path: string, suffix: string): (r: Option<string>)
    ensures r.Some? ==> path == ItemPrefix + r.value + suffix && Capturable(r.value)
  {
    if |path| >= |ItemPrefix| + |suffix|
       && path[..|ItemPrefix|] == ItemPrefix
       && path[|path| - |suffix|..] == suffix
       && Capturable(path[|ItemPrefix|..|path| - |suffix|])
    then
      var id := path[|ItemPrefix|..|path| - |suffix|];
      assert path == path[..|ItemPrefix|] + id + path[|path| - |suffix|..];
      Some(id)
    else None
  }

  /** The expression matches the path `/api/items/<id><suffix>`, capturing
      `id`, for every capturable `id`, and for no other path. */
  lemma MatchItemPathIff(path: string, suffix: string, id: string)
    ensures MatchItemPath(path, suffix) == Some(id) <==> (path == ItemPrefix + id + suffix && Capturable(id))
  {
    if path == ItemPrefix + id + suffix {
      assert path[..|ItemPrefix|] == ItemPrefix;
      assert path[|path| - |suffix|..] == suffix;
      assert path[|ItemPrefix|..|path| - |suffix|] == id;
    }
  }

  /** The handler `handleRequest` picks. */
  datatype Route =
    | WebSocket
    | ListItems
    | CreateItem
    | CommentOn(id: string)
    | ToggleOn(id: string)
    | DeleteOn(id: string)
    | Page
    | NoRoute

  /** The order of the `if`s in `handleRequest`; the first that applies wins. */
  function Dispatch(path: string, verb: string): Route {
    if path == "/ws" then WebSocket
    else if path == ItemsPath && verb == "GET" then ListItems
    else if path == ItemsPath && verb == "POST" then CreateItem
    else if MatchItemPath(path, CommentSuffix).Some? && verb == "POST" then CommentOn(MatchItemPath(path, CommentSuffix).value)
    else if MatchItemPath(path, ToggleSuffix).Some? && verb == "POST" then ToggleOn(MatchItemPath(path, ToggleSuffix).value)
    else if MatchItemPath(path, "").Some? && verb == "DELETE" then DeleteOn(MatchItemPath(path, "").value)
    else if path == "/" || path == "/index.html" then Page
    else NoRoute
  }

  /** A path below `/api/items/` is none of the fixed paths. */
  lemma ItemPathIsNotFixed(id: string, suffix: string)
    requires Capturable(id)
    ensures var path := ItemPrefix + id + suffix;
      path != "/ws" && path != ItemsPath && path != "/" && path != "/index.html"
  {
    var path := ItemPrefix + id + suffix;
    assert path[..|ItemPrefix|] == ItemPrefix;
    assert |path| > |ItemPrefix|;
    assert path[1] == 'a';
  }

  /** `/ws` is taken first, whatever the method. */
  lemma DispatchWebSocketIff(path: string, verb: string)
    ensures Dispatch(path, verb) == WebSocket <==> path == "/ws"
  {
  }

  /** Any method other than GET or POST on `/api/items` is not found. */
  lemma DispatchItemsPath(verb: string)
    ensures Dispatch(ItemsPath, verb) ==
      if verb == "GET" then ListItems else if verb == "POST" then CreateItem else NoRoute
  {
    assert MatchItemPath(ItemsPath, CommentSuffix).None?;
    assert MatchItemPath(ItemsPath, ToggleSuffix).None?;
    assert MatchItemPath(ItemsPath, "").None?;
  }

  /** The comment handler runs exactly for POST `/api/items/<id>/comment`,
      and receives all of `<id>`. */
  lemma DispatchCommentIff(path: string, verb: string, id: string)
    ensures Dispatch(path, verb) == CommentOn(id) <==>
      (verb == "POST" && path == ItemPrefix + id + CommentSuffix && Capturable(id))
  {
    MatchItemPathIff(path, CommentSuffix, id);
    if path == ItemPrefix + id + CommentSuffix && Capturable(id) {
      ItemPathIsNotFixed(id, CommentSuffix);
    }
  }

  /** The toggle handler runs exactly for POST `/api/items/<id>/toggle`: no
      such path also ends in `/comment`. */
  lemma DispatchToggleIff(path: string, verb: string, id: string)
    ensures Dispatch(path, verb) == ToggleOn(id) <==>
      (verb == "POST" && path == ItemPrefix + id + ToggleSuffix && Capturable(id))
  {
    MatchItemPathIff(path, ToggleSuffix, id);
    if path == ItemPrefix + id + ToggleSuffix && Capturable(id) {
      ItemPathIsNotFixed(id, ToggleSuffix);
      assert path[|path| - 1] == 'e';
      assert MatchItemPath(path, CommentSuffix).None?;
    }
  }

  /** The delete handler runs for DELETE on every path `/api/items/<id>`,
      a `/comment` or `/toggle` ending included. */
  lemma DispatchDeleteIff(path: string, verb: string, id: string)
    ensures Dispatch(path, verb) == DeleteOn(id) <==>
      (verb == "DELETE" && path == ItemPrefix + id && Capturable(id))
  {
    MatchItemPathIff(path, "", id);
    assert ItemPrefix + id + "" == ItemPrefix + id;
    if path == ItemPrefix + id && Capturable(id) {
      ItemPathIsNotFixed(id, "");
    }
  }

  /** The page is served for `/` and `/index.html` under any method. */
  lemma DispatchPage(path: string, verb: string)
    requires path == "/" || path == "/index.html"
    ensures Dispatch(path, verb) == Page
  {
    assert MatchItemPath(path, CommentSuffix).None?;
    assert MatchItemPath(path, ToggleSuffix).None?;
    assert MatchItemPath(path, "").None?;
  }

  /** Every request that none of the branches takes falls through to the
      404 at the end. */
  lemma DispatchNoRouteIff(path: string, verb: string)
    ensures Dispatch(path, verb) == NoRoute <==>
      && path != "/ws"
      && !(path == ItemsPath && (verb == "GET" || verb == "POST"))
      && !(verb == "POST" && MatchItemPath(path, CommentSuffix).Some?)
      && !(verb == "POST" && MatchItemPath(path, ToggleSuffix).Some?)
      && !(verb == "DELETE" && MatchItemPath(path, "").Some?)
      && path != "/" && path != "/index.html"
  {
  }

  /** The list is served exactly for GET on `/api/items`. */
  lemma DispatchListIff(path: string, verb: string)
    ensures Dispatch(path, verb) == ListItems <==> (path == ItemsPath && verb == "GET")
  {
  }

  /** An item is created exactly for POST on `/api/items`. */
  lemma DispatchCreateIff(path: string, verb: string)
    ensures Dispatch(path, verb) == CreateItem <==> (path == ItemsPath && verb == "POST")
  {
  }

  /** The page is served exactly for `/` and `/index.html`, under any method. */
  lemma DispatchPageIff(path: string, verb: string)
    ensures Dispatch(path, verb) == Page <==> (path == "/" || path == "/index.html")
  {
    if path == "/" || path == "/index.html" {
      DispatchPage(path, verb);
    }
  }

  /** Worked case: POST `/api/items/a/comment` reaches the comment handler
      with id `a`. */
  lemma DispatchCommentExample()
    ensures Dispatch("/api/items/a/comment", "POST") == CommentOn("a")
  {
    assert "/api/items/a/comment" == ItemPrefix + "a" + CommentSuffix;
    DispatchCommentIff("/api/items/a/comment", "POST", "a");
  }

  /** Appending line-terminator-free text keeps an id capturable. */
  lemma CapturableAppend(id: string, more: string)
    requires Capturable(id)
    requires forall i :: 0 <= i < |more| ==> !IsLineTerminator(more[i])
    ensures Capturable(id + more)
  {
    var r := id + more;
    forall i | 0 <= i < |r| ensures !IsLineTerminator(r[i]) {
      if i < |id| { assert r[i] == id[i]; } else { assert r[i] == more[i - |id|]; }
    }
  }

  /** The greedy group takes a `/` inside the id: POST
      `/api/items/<id>/toggle/comment` is a comment on the item
      `<id>/toggle`, not a toggle of `<id>`. */
  lemma DispatchGreedy(id: string)
    requires Capturable(id)
    ensures Dispatch(ItemPrefix + id + ToggleSuffix + CommentSuffix, "POST") == CommentOn(id + ToggleSuffix)
  {
    var whole := id + ToggleSuffix;
    CapturableAppend(id, ToggleSuffix);
    assert ItemPrefix + id + ToggleSuffix + CommentSuffix == ItemPrefix + whole + CommentSuffix;
    DispatchCommentIff(ItemPrefix + whole + CommentSuffix, "POST", whole);
  }

  /** DELETE on a comment path deletes the item whose id ends in
      `/comment`. */
  lemma DispatchDeleteSuffix(id: string)
    requires Capturable(id)
    ensures Dispatch(ItemPrefix + id + CommentSuffix, "DELETE") == DeleteOn(id + CommentSuffix)
  {
    var whole := id + CommentSuffix;
    CapturableAppend(id, CommentSuffix);
    assert ItemPrefix + id + CommentSuffix == ItemPrefix + whole;
    DispatchDeleteIff(ItemPrefix + whole, "DELETE", whole);
  }

  /** An empty id matches none of the patterns, and GET on an item path is
      not found. */
  lemma DispatchUnrouted()
    ensures Dispatch("/api/items//comment", "POST") == NoRoute
    ensures Dispatch("/api/items/a/comment", "GET") == NoRoute
  {
    var p := "/api/items//comment";
    assert MatchItemPath(p, CommentSuffix).None?;
    assert MatchItemPath(p, ToggleSuffix).None?;
  }

  // --------------------------------------------------------------- handlers

  /** `data.items.find((i) => i.id === id)`, as the index of the item found. */
  function FindFirst(items: seq<Item>, id: string): (r: Option<nat>)
    ensures r.Some? ==> r.value < |items| && items[r.value].id == id
    ensures r.Some? ==> forall j :: 0 <= j < r.value ==> items[j].id != id
    ensures r.None? <==> !HasId(items, id)
  {
    if |items| == 0 then None
    else if items[0].id == id then Some(0)
    else match FindFirst(items[1..], id)
      case None => None
      case Some(k) => Some(k + 1)
  }

  /** The item the POST `/api/items` branch builds. It has no `preis`. */
  function NewServerItem(body: Body, freshId: string, now: string): Item {
    Item(freshId, body.artikel, body.anzahl, None, Todo,
         OrString(body.kommentar, ""), Some([]), OrString(body.username, "Anonym"), now)
  }

  lemma NewServerItemFields(body: Body, freshId: string, now: string)
    ensures var it := NewServerItem(body, freshId, now);
      && it.id == freshId && it.status == Todo && HistoryOf(it) == []
      && it.artikel == body.artikel && it.anzahl == body.anzahl
      && it.kommentar == (if Truthy(body.kommentar) then body.kommentar.value else "")
      && it.letzterUser == (if Truthy(body.username) then body.username.value else "Anonym")
      && it.letzterUser != "" && it.updatedAt == now
  {
  }

  /** The archiving condition of the comment branch: the comment changes and
      the old one is not blank after trimming. */
  predicate Archives(it: Item, newKommentar: string) {
    it.kommentar != newKommentar && Trim(it.kommentar) != ""
  }

  /** The snapshot archived when a comment is overwritten. */
  function Snapshot(it: Item): HistoryEntry {
    HistoryEntry(it.kommentar, it.letzterUser, it.updatedAt)
  }

  /** The found item after the comment branch. */
  function Commented(it: Item, body: Body, now: string): Item {
    var newKommentar := OrString(body.kommentar, "");
    var history :=
      if Archives(it, newKommentar) then Some(HistoryOf(it) + [Snapshot(it)])
      else it.kommentarHistory;
    it.(kommentarHistory := history,
        kommentar := newKommentar,
        letzterUser := OrString(body.username, "Anonym"),
        updatedAt := now)
  }

  /** Exactly one snapshot of the previous comment, author and time is
      archived when the text changes and the old text is not blank, and the
      history is untouched otherwise. */
  lemma CommentedHistory(it: Item, body: Body, now: string)
    ensures var newKommentar := OrString(body.kommentar, "");
      HistoryOf(Commented(it, body, now)) ==
        if it.kommentar != newKommentar && !IsBlank(it.kommentar)
        then HistoryOf(it) + [HistoryEntry(it.kommentar, it.letzterUser, it.updatedAt)]
        else HistoryOf(it)
    ensures HistoryOf(it) <= HistoryOf(Commented(it, body, now))
  {
    TrimEmptyIffBlank(it.kommentar);
  }

  /** A comment always sets text, author and time, archiving or not, and
      changes nothing else. */
  lemma CommentedFields(it: Item, body: Body, now: string)
    ensures var r := Commented(it, body, now);
      && r.kommentar == OrString(body.kommentar, "")
      && r.letzterUser == OrString(body.username, "Anonym") && r.updatedAt == now
      && r.id == it.id && r.artikel == it.artikel && r.anzahl == it.anzahl
      && r.preis == it.preis && r.status == it.status
  {
  }

  /** Submitting the comment the item already has archives nothing and
      still records the new author and time. */
  lemma SameCommentArchivesNothing(it: Item, body: Body, now: string)
    requires OrString(body.kommentar, "") == it.kommentar
    ensures Commented(it, body, now).kommentarHistory == it.kommentarHistory
    ensures Commented(it, body, now).letzterUser == OrString(body.username, "Anonym")
  {
  }

  function Flipped(st: Status): Status {
    match st
    case Todo => Done
    case Done => Todo
  }

  /** The found item after the toggle branch. */
  function Toggled(it: Item, username: Option<string>, now: string): Item {
    it.(status := Flipped(it.status), letzterUser := OrString(username, "Anonym"), updatedAt := now)
  }

  /** A toggle flips the status, sets author and time, and changes nothing else. */
  lemma ToggledFields(it: Item, username: Option<string>, now: string)
    ensures var r := Toggled(it, username, now);
      && r.status != it.status
      && r.letzterUser == OrString(username, "Anonym") && r.updatedAt == now
      && r.id == it.id && r.artikel == it.artikel && r.anzahl == it.anzahl && r.preis == it.preis
      && r.kommentar == it.kommentar && r.kommentarHistory == it.kommentarHistory
  {
  }

  /** Toggling twice restores the status; author and time are the second's. */
  lemma ToggleTwice(it: Item, u1: Option<string>, t1: string, u2: Option<string>, t2: string)
    ensures Toggled(Toggled(it, u1, t1), u2, t2) == it.(letzterUser := OrString(u2, "Anonym"), updatedAt := t2)
  {
  }

  /** The list after the comment or toggle branch: the first item with `id`
      replaced by `update` of it, or the list unchanged when there is none. */
  function UpdateFirst(items: seq<Item>, id: string, update: Item -> Item): seq<Item> {
    match FindFirst(items, id)
    case None => items
    case Some(k) => items[k := update(items[k])]
  }

  /** Only the first item with `id` can change; every other position keeps
      its item, the length is kept, and an absent id changes nothing. */
  lemma UpdateFirstTouchesOne(items: seq<Item>, id: string, update: Item -> Item)
    ensures var r := UpdateFirst(items, id, update);
      && |r| == |items|
      && (!HasId(items, id) ==> r == items)
      && forall j :: 0 <= j < |items| && Some(j) != FindFirst(items, id) ==> r[j] == items[j]
  {
  }

  /** Deleting removes every item with `id`, keeps every other item as often
      as it occurred and in its order, and deleting an absent id returns the
      list itself. */
  lemma DeleteProperties(items: seq<Item>, id: string)
    ensures var r := WithoutId(items, id);
      && !HasId(r, id)
      && IsSubsequence(r, items)
      && (forall x: Item :: x.id != id ==> multiset(r)[x] == multiset(items)[x])
      && (!HasId(items, id) ==> r == items)
      && WithoutId(r, id) == r
  {
    FilterCounts(items, IdIsNot(id));
    FilterIsSubsequence(items, IdIsNot(id));
    if !HasId(items, id) {
      FilterKeepsAll(items, IdIsNot(id));
    }
    FilterIdempotent(items, IdIsNot(id));
  }

  /** Deleting keeps ids distinct and keeps every surviving history. */
  lemma DeleteKeepsInvariants(items: seq<Item>, id: string)
    requires DistinctIds(items)
    ensures DistinctIds(WithoutId(items, id))
    ensures HistoriesExtend(items, WithoutId(items, id))
    ensures var r := WithoutId(items, id);
      forall i, j :: 0 <= i < |items| && 0 <= j < |r| && items[i].id == r[j].id ==> items[i] == r[j]
  {
    var r := WithoutId(items, id);
    FilterCounts(items, IdIsNot(id));
    forall j | 0 <= j < |r| ensures r[j] in items {
      assert multiset(r)[r[j]] > 0;
    }
    forall i, j | 0 <= i < |r| && 0 <= j < |r| && i != j ensures r[i].id != r[j].id {
      if r[i].id == r[j].id {
        assert r[i] in items && r[j] in items;
        var a :| 0 <= a < |items| && items[a] == r[i];
        var b :| 0 <= b < |items| && items[b] == r[j];
        assert a == b;
        assert r[i] == r[j];
        assert multiset(r)[r[i]] >= 2 by {
          DuplicateCount(r, i, j);
        }
        CountInDistinct(items, a);
      }
    }
    forall i, j | 0 <= i < |items| && 0 <= j < |r| && items[i].id == r[j].id
      ensures items[i] == r[j]
    {
      var b :| 0 <= b < |items| && items[b] == r[j];
      assert i == b;
    }
  }

  /** An element at two positions is counted at least twice. */
  lemma DuplicateCount(s: seq<Item>, i: nat, j: nat)
    requires i < |s| && j < |s| && i != j && s[i] == s[j]
    ensures multiset(s)[s[i]] >= 2
  {
    var lo, hi := if i < j then i else j, if i < j then j else i;
    assert s == s[..hi] + s[hi..];
    assert s[..hi] == s[..lo] + s[lo..hi];
    assert s[lo..hi][0] == s[lo];
    assert s[hi..][0] == s[hi];
    assert multiset(s[lo..hi])[s[i]] >= 1;
    assert multiset(s[hi..])[s[i]] >= 1;
  }

  /** In a list with distinct ids every item occurs once. */
  lemma CountInDistinct(s: seq<Item>, a: nat)
    requires a < |s| && DistinctIds(s)
    ensures multiset(s)[s[a]] == 1
  {
    assert s == s[..a] + [s[a]] + s[a + 1..];
    assert s[a] !in s[..a] by {
      forall k | 0 <= k < a ensures s[..a][k] != s[a] {
        assert s[..a][k] == s[k];
      }
    }
    assert s[a] !in s[a + 1..] by {
      var t := s[a + 1..];
      forall k | 0 <= k < |t| ensures t[k] != s[a] {
        assert t[k] == s[a + 1 + k];
      }
    }
    assert multiset(s[..a])[s[a]] == 0;
    assert multiset(s[a + 1..])[s[a]] == 0;
  }

  /** The create branch: `data.items.push(newItem)`. */
  method CreateHandler(data: ShoppingList, body: Body, freshId: string, now: string) returns (newItem: Item)
    modifies data
    ensures newItem == NewServerItem(body, freshId, now)
    ensures data.items == old(data.items) + [newItem]
  {
    newItem := NewServerItem(body, freshId, now);
    data.Push(newItem);
  }

  /** The comment branch; `saved` tells whether it saved and broadcast. */
  method CommentHandler(data: ShoppingList, id: string, body: Body, now: string) returns (saved: bool)
    modifies data
    ensures saved <==> HasId(old(data.items), id)
    ensures data.items == UpdateFirst(old(data.items), id, (it: Item) => Commented(it, body, now))
  {
    var found := FindFirst(data.items, id);
    saved := found.Some?;
    if found.Some? {
      var k := found.value;
      data.items := data.items[k := Commented(data.items[k], body, now)];
    }
  }

  /** The toggle branch; `saved` tells whether it saved and broadcast. */
  method ToggleHandler(data: ShoppingList, id: string, body: Body, now: string) returns (saved: bool)
    modifies data
    ensures saved <==> HasId(old(data.items), id)
    ensures data.items == UpdateFirst(old(data.items), id, (it: Item) => Toggled(it, body.username, now))
  {
    var found := FindFirst(data.items, id);
    saved := found.Some?;
    if found.Some? {
      var k := found.value;
      data.items := data.items[k := Toggled(data.items[k], body.username, now)];
    }
  }

  /** The delete branch: `data.items = data.items.filter((i) => i.id !== id)`. */
  method DeleteHandler(data: ShoppingList, id: string)
    modifies data
    ensures data.items == WithoutId(old(data.items), id)
  {
    data.items := WithoutId(data.items, id);
  }

  /** The document each request writes (and broadcasts), if any. */
  function Written(route: Route, body: Option<Body>, items: seq<Item>, freshId: string, now: string): Option<seq<Item>> {
    match route
    case CreateItem =>
      if body.None? then None else Some(items + [NewServerItem(body.value, freshId, now)])
    case CommentOn(id) =>
      if body.None? || !HasId(items, id) then None
      else Some(UpdateFirst(items, id, (it: Item) => Commented(it, body.value, now)))
    case ToggleOn(id) =>
      if body.None? || !HasId(items, id) then None
      else Some(UpdateFirst(items, id, (it: Item) => Toggled(it, body.value.username, now)))
    case DeleteOn(id) => Some(WithoutId(items, id))
    case _ => None
  }

  /** Every write keeps the ids distinct, provided the fresh id is new, and
      keeps every surviving item's history as a prefix. */
  lemma WrittenKeepsInvariants(route: Route, body: Option<Body>, items: seq<Item>, freshId: string, now: string)
    requires DistinctIds(items) && (route.CreateItem? ==> !HasId(items, freshId))
    requires Written(route, body, items, freshId, now).Some?
    ensures var w := Written(route, body, items, freshId, now).value;
      DistinctIds(w) && HistoriesExtend(items, w)
  {
    var w := Written(route, body, items, freshId, now).value;
    match route
    case CreateItem =>
      var it := NewServerItem(body.value, freshId, now);
      AppendKeepsDistinctIds(items, it);
      forall i, j | 0 <= i < |items| && 0 <= j < |w| && items[i].id == w[j].id
        ensures HistoryOf(items[i]) <= HistoryOf(w[j])
      {
        assert j < |items|;
        assert w[j] == items[j];
        assert i == j;
      }
    case CommentOn(id) =>
      var k := FindFirst(items, id).value;
      CommentedHistory(items[k], body.value, now);
      ReplaceKeepsInvariants(items, k, Commented(items[k], body.value, now));
    case ToggleOn(id) =>
      var k := FindFirst(items, id).value;
      ReplaceKeepsInvariants(items, k, Toggled(items[k], body.value.username, now));
    case DeleteOn(id) =>
      DeleteKeepsInvariants(items, id);
  }

  /** `handleRequest`: classify, then run the branch on the loaded document.
      `stored` is what `loadData` read, `freshId` stands for
      `crypto.randomUUID()` and `now` for `new Date().toISOString()`.
      `written` is the document saved and broadcast, `None` when nothing is. */
  method HandleRequest(req: Request, stored: Option<seq<Item>>, freshId: string, now: string)
    returns (resp: Response, written: Option<seq<Item>>)
    ensures written == Written(Dispatch(req.path, req.verb), req.body, LoadedItems(stored), freshId, now)
    ensures match Dispatch(req.path, req.verb)
      case WebSocket =>
        resp == if req.upgrade == Some("websocket") then SwitchingProtocols else BadRequest("Expected WebSocket")
      case ListItems => resp == ListJson(LoadedItems(stored))
      case CreateItem =>
        resp == if req.body.None? then ServerError else ItemJson(NewServerItem(req.body.value, freshId, now))
      case CommentOn(_) => resp == if req.body.None? then ServerError else SuccessJson
      case ToggleOn(_) => resp == if req.body.None? then ServerError else SuccessJson
      case DeleteOn(_) => resp == SuccessJson
      case Page => resp == HtmlPage
      case NoRoute => resp == NotFound
    ensures var items := LoadedItems(stored);
      DistinctIds(items) && (Dispatch(req.path, req.verb).CreateItem? ==> !HasId(items, freshId)) && written.Some? ==>
        DistinctIds(written.value) && HistoriesExtend(items, written.value)
  {
    var route := Dispatch(req.path, req.verb);
    written := None;
    if route.WebSocket? {
      if req.upgrade != Some("websocket") {
        resp := BadRequest("Expected WebSocket");
      } else {
        resp := SwitchingProtocols;
      }
    } else if route.ListItems? {
      var data := new ShoppingList.Load(stored);
      resp := ListJson(data.items);
    } else if route.CreateItem? {
      if req.body.None? {
        resp := ServerError;
      } else {
        var data := new ShoppingList.Load(stored);
        var newItem := CreateHandler(data, req.body.value, freshId, now);
        written := Some(data.items);
        resp := ItemJson(newItem);
      }
    } else if route.CommentOn? {
      if req.body.None? {
        resp := ServerError;
      } else {
        var data := new ShoppingList.Load(stored);
        var saved := CommentHandler(data, route.id, req.body.value, now);
        if saved {
          written := Some(data.items);
        }
        resp := SuccessJson;
      }
    } else if route.ToggleOn? {
      if req.body.None? {
        resp := ServerError;
      } else {
        var data := new ShoppingList.Load(stored);
        var saved := ToggleHandler(data, route.id, req.body.value, now);
        if saved {
          written := Some(data.items);
        }
        resp := SuccessJson;
      }
    } else if route.DeleteOn? {
      var data := new ShoppingList.Load(stored);
      DeleteHandler(data, route.id);
      written := Some(data.items);
      resp := SuccessJson;
    } else if route.Page? {
      resp := HtmlPage;
    } else {
      resp := NotFound;
    }
    var items := LoadedItems(stored);
    if DistinctIds(items) && (route.CreateItem? ==> !HasId(items, freshId)) && written.Some? {
      WrittenKeepsInvariants(route, req.body, items, freshId, now);
    }
  }
}
