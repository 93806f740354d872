# Party-Einkaufsliste: the shopping-list mutation layer in Dafny

The party-einkaufsliste is a shared shopping list. Every item has an
article name (`artikel`), a quantity (`anzahl`), an optional price
(`preis`), a status `todo` or `done`, a current comment (`kommentar`), a
history of earlier comments (`kommentarHistory`), the last user who
touched it (`letzterUser`) and a timestamp (`updatedAt`). The list is
served in two ways:

- the stand-alone Deno server `server.ts`, with a JSON API and an HTML page;
- the Fresh application, with the API route `routes/api/items.ts` and the
  Preact island `islands/ShoppingList.tsx`.

This project models what these components do to the list, as Dafny
values and small classes:

- `JsText`: the JavaScript string behaviour the code relies on. This
  covers `trim()` over the ECMAScript whitespace set, the truthiness
  behind `x || fallback`, and the line terminators that a regex `.` does
  not match.
- `SeqUtil`: `Array.prototype.filter` and `slice().reverse()` on sequences.
- `ShoppingItems`: the item, history entry, request body, request and
  response types that both servers share, plus the list document. The
  document is loaded from storage and falls back to an empty list when
  loading fails; `push` appends to it.
- `ServerApi`: `handleRequest` in `server.ts`. It matches routes in the
  order the source tests them, with the greedy `(.+)` id capture. It has
  the create, comment, toggle and delete branches, and it shows which
  document each request writes.
- `ServerRender`: the order in which the page served by `server.ts` lists
  items. A stable sort with the `todo`-before-`done` comparator creates
  that order.
- `FreshItems`: GET and POST of `routes/api/items.ts`, including the price
  default.
- `Island`: the island's statistics footer, the per-item subtotal, the
  display order of items and archived comments, and the component state
  that its event handlers update.
- `Scenarios`: a worked sequence of operations (create, toggle, comment
  twice), and a toggle that moves an item on the server page but not in
  the island.

Several things become parameters:

- the item id from `crypto.randomUUID()` is `freshId`;
- the time from `new Date().toISOString()` is `now`;
- the stored document is `stored`, which is `None` when reading or
  parsing the file fails;
- the parsed request body is `Option<Body>`, which is `None` when
  `request.json()` rejects.

The object the source gets from `items.find` is changed in place. The
model writes that change as replacing the element at the first index
with the id.

## Model

| member | source | states |
|---|---|---|
| JsText.TrimStart | server.ts:915 | the result is a suffix of the input; every character dropped is JavaScript whitespace; the result is empty or starts with a non-whitespace character |
| JsText.TrimEnd | server.ts:915 | the result is a prefix of the input; every character dropped is whitespace; the result is empty or ends with a non-whitespace character |
| JsText.Trim | server.ts:915 | definition, no contract: `s.trim()` as `TrimEnd(TrimStart(s))`; TrimStart, TrimEnd, TrimEmptyIffBlank and TrimIsEmpty establish what it returns |
| JsText.TrimEmptyIffBlank | islands/ShoppingList.tsx:51 | `s.trim()` is empty exactly when every character of `s` is whitespace, so `!s.trim()` is the blank-input test |
| JsText.TrimIsEmpty | islands/ShoppingList.tsx:51 | the blank-input guard `!s.trim()` holds exactly when every character of `s` is whitespace |
| JsText.OrString | server.ts:889-891 | definition, no contract: `s \|\| fallback` on a string: the value when it is present and non-empty, the fallback otherwise |
| JsText.OrStringNeverEmpty | server.ts:889-891 | with a non-empty fallback such as `"Anonym"`, `s \|\| fallback` is never empty |
| JsText.OrZero | routes/api/items.ts:56 | definition, no contract: `x \|\| 0` on a number; OrZeroIsValueOrZero shows it is the sent value or 0 |
| JsText.OrZeroIsValueOrZero | routes/api/items.ts:56 | `preis \|\| 0` is the sent price when one is present, and 0 otherwise |
| SeqUtil.Filter | server.ts:965 | every kept element satisfies the predicate, and the result is no longer than the input |
| SeqUtil.FilterCounts | server.ts:965 | each kept value occurs as often as in the input; each rejected value does not occur |
| SeqUtil.FilterIsSubsequence | server.ts:965 | filtering keeps the relative order of the kept elements |
| SeqUtil.FilterAppend | islands/ShoppingList.tsx:377-379 | filtering a concatenation gives the concatenation of the filtered parts |
| SeqUtil.FilterKeepsAll | server.ts:965 | when every element satisfies the predicate, filtering returns the input |
| SeqUtil.FilterIdempotent | server.ts:965 | filtering twice with the same predicate is filtering once |
| SeqUtil.FilterDropsAll | server.ts:965 | when no element satisfies the predicate, filtering returns the empty list |
| SeqUtil.Reversed | islands/ShoppingList.tsx:320-322 | `slice().reverse()` has the same length, with element k taken from position n-1-k |
| SeqUtil.ReversedTwice | islands/ShoppingList.tsx:320-322 | reversing twice gives back the original |
| ShoppingItems.HistoryOf | islands/ShoppingList.tsx:202 | definition, no contract: `item.kommentarHistory \|\| []`, the history or the empty list when the field is missing |
| ShoppingItems.WithStatus | islands/ShoppingList.tsx:367-369 | definition, no contract: `items.filter((i) => i.status === st)`; the SeqUtil.Filter lemmas and ServerRender.SortProperties use it |
| ShoppingItems.WithoutId | server.ts:965 | definition, no contract: `items.filter((i) => i.id !== id)`; ServerApi.DeleteProperties and ServerApi.DeleteKeepsInvariants establish what it keeps |
| ShoppingItems.LoadedItems | server.ts:31-38 | a failed load gives the empty list; a successful load gives the stored items |
| ShoppingItems.AppendKeepsDistinctIds | server.ts:895 | pushing an item whose id is new keeps all ids distinct |
| ShoppingItems.ReplaceKeepsInvariants | server.ts:911-928 | replacing an item by one with the same id and an extended history keeps ids distinct, and every history only grows |
| ShoppingItems.ShoppingList.Load | server.ts:31-38 | the loaded document holds the stored items, or none when loading fails |
| ShoppingItems.ShoppingList.Push | server.ts:895 | `data.items.push(x)` appends x at the end and changes nothing else |
| ServerApi.MatchItemPath | server.ts:905 | a match means the path is `/api/items/` + id + suffix, with the id non-empty and free of line terminators |
| ServerApi.MatchItemPathIff | server.ts:905 | the regex matches with capture `id` exactly when the path is `/api/items/` + id + suffix and `id` is non-empty and free of line terminators |
| ServerApi.CapturableAppend | server.ts:905 | appending text without line terminators to a capturable id leaves it capturable |
| ServerApi.Dispatch | server.ts:854-981 | definition, no contract: the branch `handleRequest` takes, tested in source order; the Dispatch lemmas below state each branch's condition in both directions |
| ServerApi.ItemPathIsNotFixed | server.ts:873-880 | no item path with a capturable id is `/api/items`, `/ws`, `/` or `/index.html` |
| ServerApi.DispatchWebSocketIff | server.ts:854-857 | `/ws` is routed to the WebSocket branch whatever the method, and only `/ws` is |
| ServerApi.DispatchItemsPath | server.ts:873-902 | `/api/items` goes to the list with GET and to create with POST; with any other method it reaches no handler |
| ServerApi.DispatchCommentIff | server.ts:905-906 | a request reaches the comment branch with `id` exactly when it is a POST to `/api/items/` + id + `/comment` and `id` is non-empty and free of line terminators; the handler gets all of `id` |
| ServerApi.DispatchToggleIff | server.ts:939-940 | a request reaches the toggle branch with `id` exactly when it is a POST to `/api/items/` + id + `/toggle` and `id` is capturable: no such path is caught by the earlier comment test |
| ServerApi.DispatchDeleteIff | server.ts:960-961 | a request reaches delete with `id` exactly when it is a DELETE to `/api/items/` + id and `id` is capturable, so ids ending in `/comment` or `/toggle` are deleted too |
| ServerApi.DispatchPage | server.ts:975-979 | `/` and `/index.html` serve the page with any method |
| ServerApi.DispatchListIff | server.ts:873-878 | the list is served if and only if the path is `/api/items` and the method is GET |
| ServerApi.DispatchCreateIff | server.ts:880 | an item is created if and only if the path is `/api/items` and the method is POST |
| ServerApi.DispatchPageIff | server.ts:975-979 | the page is served if and only if the path is `/` or `/index.html`, under any method |
| ServerApi.DispatchNoRouteIff | server.ts:981 | a request gets the final 404 exactly when it is not `/ws`, not GET or POST on `/api/items`, not POST on a comment or toggle path, not DELETE on an item path, and not `/` or `/index.html` |
| ServerApi.DispatchCommentExample | server.ts:905-907 | POST `/api/items/a/comment` comments on item `a` |
| ServerApi.DispatchGreedy | server.ts:905-907 | for every capturable id, the greedy capture makes POST `/api/items/<id>/toggle/comment` a comment on the item `<id>/toggle`, not a toggle |
| ServerApi.DispatchDeleteSuffix | server.ts:960-962 | for every capturable id, DELETE `/api/items/<id>/comment` deletes the item with the id `<id>/comment` |
| ServerApi.DispatchUnrouted | server.ts:981 | an empty id and a GET on a comment path reach no handler (404) |
| ServerApi.FindFirst | server.ts:911 | `find` returns the first index holding the id, and nothing exactly when no item has it |
| ServerApi.NewServerItem | server.ts:884-893 | definition, no contract: the literal `newItem` of the create branch; NewServerItemFields states its fields |
| ServerApi.NewServerItemFields | server.ts:884-893 | the created item has the fresh id, is `todo`, has no price and an empty history, copies `artikel` and `anzahl`, and falls back to `""` and `"Anonym"` |
| ServerApi.Archives | server.ts:915 | definition, no contract: the archiving condition `item.kommentar !== newKommentar && item.kommentar.trim() !== ""` |
| ServerApi.Snapshot | server.ts:920-924 | definition, no contract: the history entry pushed: old comment, `letzterUser` and `updatedAt` |
| ServerApi.Commented | server.ts:914-928 | definition, no contract: the found item after the comment branch; CommentedHistory, CommentedFields and SameCommentArchivesNothing establish what it changes |
| ServerApi.CommentedHistory | server.ts:914-925 | one snapshot of the old comment, author and time is appended exactly when the text changes and the old text is not blank; the old history is always a prefix of the new one |
| ServerApi.CommentedFields | server.ts:926-928 | a comment sets text, author and time and keeps id, article, quantity, price and status |
| ServerApi.SameCommentArchivesNothing | server.ts:915 | re-sending the current comment leaves the history as it was |
| ServerApi.Flipped | server.ts:947 | definition, no contract: `item.status === "todo" ? "done" : "todo"` |
| ServerApi.Toggled | server.ts:947-949 | definition, no contract: the found item after the toggle branch; ToggledFields and ToggleTwice establish what it changes |
| ServerApi.ToggledFields | server.ts:947-949 | a toggle flips `todo` and `done`, sets author and time, and keeps every other field |
| ServerApi.ToggleTwice | server.ts:947 | two toggles restore the status and everything else, except the author and time of the second |
| ServerApi.UpdateFirst | server.ts:911-928 | definition, no contract: `find` followed by the in-place change of the found item, as a replacement at the found index; UpdateFirstTouchesOne establishes what it changes |
| ServerApi.UpdateFirstTouchesOne | server.ts:911-928 | updating the found item changes only the first item with the id, keeps the length, and changes nothing when the id is absent |
| ServerApi.DeleteProperties | server.ts:965 | after a delete no item has the id; the rest keeps its order and multiplicities; an absent id changes nothing; deleting twice is deleting once |
| ServerApi.DeleteKeepsInvariants | server.ts:965 | with distinct ids a delete keeps the ids distinct, and every remaining item is exactly the stored item with its id, history included |
| ServerApi.CreateHandler | server.ts:880-902 | the POST branch appends the new item to the loaded document and returns it |
| ServerApi.CommentHandler | server.ts:904-936 | the comment branch saves exactly when an item has the id, and the document becomes the list with the first such item commented |
| ServerApi.ToggleHandler | server.ts:938-957 | the toggle branch saves exactly when an item has the id, and the document becomes the list with the first such item toggled |
| ServerApi.DeleteHandler | server.ts:959-972 | the delete branch always saves, and saves the items whose id differs |
| ServerApi.Written | server.ts:880-972 | definition, no contract: the document each branch saves and broadcasts, or none; HandleRequest and WrittenKeepsInvariants use it |
| ServerApi.WrittenKeepsInvariants | server.ts:880-972 | every write keeps the ids distinct and never shortens a history; the fresh id must be new only on the create route |
| ServerApi.HandleRequest | server.ts:849-982 | the response for each route: 101 or the 400 "Expected WebSocket", the list, the new item, success, the page or 404; an unreadable body is a server error that writes nothing; the document written is the one the matching branch computes, and it keeps the ids distinct and the histories extended when the stored ids are distinct (and, on the create route only, the fresh id is new) |
| ServerRender.Compare | server.ts:667-671 | definition, no contract: the comparator: -1 for todo before done, 1 for done before todo, 0 otherwise |
| ServerRender.Insert | server.ts:667-671 | definition, no contract: one step of a stable insertion sort driven by Compare; InsertTodo and InsertDone establish its result |
| ServerRender.SortedForDisplay | server.ts:667-671 | definition, no contract: `[...items].sort(Compare)` as a stable insertion sort; SortIsPartition, SortProperties and SortIsUnique establish its result |
| ServerRender.InsertTodo | server.ts:667-671 | a stable insertion of a `todo` item into todos followed by dones puts it after the last todo |
| ServerRender.InsertDone | server.ts:667-671 | a stable insertion of a `done` item appends it |
| ServerRender.SortIsPartition | server.ts:667-671 | the sorted copy is all todo items in list order followed by all done items in list order |
| ServerRender.PartitionIsPermutation | server.ts:667 | the todo group and the done group together hold each item exactly as often as the list |
| ServerRender.PartitionIsOrdered | server.ts:668-669 | in the partition no done item comes before a todo item |
| ServerRender.PartitionIsStable | server.ts:670 | each status group of the partition is that status's items in list order |
| ServerRender.SortProperties | server.ts:667-671 | the displayed order is a permutation of the items, puts every todo before every done, and is stable within each status |
| ServerRender.OrderedIsPartition | server.ts:667-671 | a list with no done before a todo is its todos followed by its dones |
| ServerRender.SortIsUnique | server.ts:667-671 | any ordering with todos first that keeps each status group's order is this display order |
| FreshItems.NewFreshItem | routes/api/items.ts:52-62 | definition, no contract: the literal `newItem` of POST; NewFreshItemFields states its fields |
| FreshItems.NewFreshItemFields | routes/api/items.ts:52-62 | the created item has the fresh id, is `todo`, has an empty history, copies `artikel` and `anzahl`, and takes the sent price or 0, the comment or `""`, and the name or `"Anonym"` |
| FreshItems.Post | routes/api/items.ts:48-64 | POST builds the new item and appends it to the loaded document |
| FreshItems.HandleGet | routes/api/items.ts:41-46 | GET answers with the loaded items, and the empty list when loading fails |
| FreshItems.HandlePost | routes/api/items.ts:48-70 | an unreadable body is a server error and writes nothing; otherwise the answer is the new item, and the written list is the old list with that item appended, so ids stay distinct when the fresh id is new |
| Island.Term | islands/ShoppingList.tsx:379 | definition, no contract: the summand `(item.preis \|\| 0) * item.anzahl` |
| Island.Subtotal | islands/ShoppingList.tsx:248 | definition, no contract: the badge `(item.anzahl \|\| 1) * (item.preis \|\| 0)`; SubtotalAgreesWithTerm relates it to Term |
| Island.Total | islands/ShoppingList.tsx:389-390 | definition, no contract: the left-to-right `reduce` of Term from 0; TotalAppend and TotalSplits establish how it splits |
| Island.TodoTotal | islands/ShoppingList.tsx:377-379 | definition, no contract: the total over the open items |
| Island.DoneTotal | islands/ShoppingList.tsx:395-397 | definition, no contract: the total over the done items |
| Island.DoneCount | islands/ShoppingList.tsx:367 | definition, no contract: the number of done items; CountsAddUp relates it to TodoCount |
| Island.TodoCount | islands/ShoppingList.tsx:369 | definition, no contract: the number of open items |
| Island.CountsAddUp | islands/ShoppingList.tsx:365-369 | the done count and the open count add up to the item count |
| Island.TotalAppend | islands/ShoppingList.tsx:389-390 | the reduce total of a concatenation is the sum of the parts' totals |
| Island.TotalSplits | islands/ShoppingList.tsx:377-398 | the overall total is the "noch zu kaufen" total plus the "erledigt" total |
| Island.SubtotalAgreesWithTerm | islands/ShoppingList.tsx:245-248 | the item badge agrees with the item's share of the total exactly when the quantity is not 0 or the price is 0 |
| Island.Listed | islands/ShoppingList.tsx:106-107 | definition, no contract: `sortedItems = items`, the stored order; ToggleMovesOnlyOnServerPage contrasts it with the server page |
| Island.DisplayedHistory | islands/ShoppingList.tsx:320-323 | definition, no contract: `history.slice().reverse()`; DisplayedHistoryNewestFirst establishes its contents |
| Island.DisplayedHistoryNewestFirst | islands/ShoppingList.tsx:320-323 | the history panel shows every archived comment once, newest first |
| Island.ReversedIsPermutation | islands/ShoppingList.tsx:320-322 | the reversed history holds the same entries |
| Island.ShowsHistory | islands/ShoppingList.tsx:315 | definition, no contract: `hasHistory && isHistoryOpen`, the condition for the panel |
| Island.AtMostOneHistoryShown | islands/ShoppingList.tsx:204 | with distinct ids at most one item shows its history panel |
| Island.ShoppingListIsland.constructor | islands/ShoppingList.tsx:22-31 | the initial state of the hooks |
| Island.ShoppingListIsland.LoadItems | islands/ShoppingList.tsx:39-43 | the fetched items replace the list, or the list becomes empty when none came back |
| Island.ShoppingListIsland.SaveUsername | islands/ShoppingList.tsx:45-48 | the name field takes the typed name |
| Island.ShoppingListIsland.Sender | islands/ShoppingList.tsx:60 | the name sent with a request is never empty |
| Island.ShoppingListIsland.InputArtikel | islands/ShoppingList.tsx:136-137 | the article field takes the typed text |
| Island.ShoppingListIsland.InputAnzahl | islands/ShoppingList.tsx:151-154 | the quantity field takes the parsed number, or 1 for NaN or 0, so it is never 0 |
| Island.ShoppingListIsland.InputPreis | islands/ShoppingList.tsx:167-170 | the price field takes the parsed number, or 0 for NaN |
| Island.ShoppingListIsland.AddItem | islands/ShoppingList.tsx:50-68 | a blank article sends nothing and changes nothing; otherwise the form is posted as typed and reset to empty, 1, 0, empty |
| Island.ShoppingListIsland.ClickHistory | islands/ShoppingList.tsx:269-274 | the history button toggles this item's panel and leaves every other item's panel closed |
| Island.ShoppingListIsland.CommentInput | islands/ShoppingList.tsx:294 | definition, no contract: the field's value `commentInputs[item.id] \|\| ""`; InputComment and SubmitComment state it after each change |
| Island.ShoppingListIsland.InputComment | islands/ShoppingList.tsx:295-300 | typing sets exactly this item's comment input, and the field then shows the typed text |
| Island.ShoppingListIsland.SubmitComment | islands/ShoppingList.tsx:85-95 | nothing is sent exactly when the input is absent or blank, which is exactly when the shown field value is blank; otherwise the typed comment is sent under this item's id, only this item's input is cleared, and its field then shows `""` |
| Scenarios.ChipsCreatedAndToggled | routes/api/items.ts:52-62 | 2 Chips at 1.50 show a subtotal of 3.00, and a toggle by Mia marks them done under her name |
| Scenarios.ChipsFirstComment | server.ts:914-928 | the first comment on an item without a comment archives nothing |
| Scenarios.CommentTwice | server.ts:914-928 | on an item without comment or history, a first comment archives nothing; a different second comment archives the first one with its author and time, and the island shows that entry first |
| Scenarios.ChipsSecondComment | server.ts:914-928 | overwriting Max's comment archives it with his name and time, and that entry is shown first |
| Scenarios.ToggleMovesOnlyOnServerPage | server.ts:667-671 | toggling the first of two open items puts it second on the server page, while the island list keeps it first |

## Left out

- File access (`Deno.readTextFile`, `writeTextFile`) and JSON: the stored document is a parameter, and the written one is a result.
- A stored document that parses but has no `items` array: the two GET branches return such a document unchanged, while the create, comment, toggle and delete branches throw at `data.items` and answer 500. The model's document always has an item list, so neither case is modelled.
- Request bodies whose fields are not strings or numbers: JSON values of other types are not modelled. Neither is a fractional `anzahl`: `Body.anzahl` and `Item.anzahl` are integers, while both create branches copy any JSON number.
- Request bodies that parse but are not objects, such as JSON `null`: the model's `None` body covers only a body that fails to parse, and answers 500 whatever the id. In the source, the comment and toggle branches read body fields only inside `if (item)` (server.ts:912-914, 927, 946-948). So a `null` body with a stored id throws (500, nothing saved), and with an unknown id it still answers `{ success: true }`. Both create branches throw on it (server.ts:886, routes/api/items.ts:54).
- An absent `artikel` or `anzahl`: the source copies it into the new item as `undefined` (server.ts:886-887, routes/api/items.ts:54-55). In the model `Body.artikel` is a string and `Body.anzahl` an integer, so both are always present.
- The WebSocket `clients` set, `Deno.upgradeWebSocket` and `broadcastUpdate`: this is network I/O. The WebSocket route is modelled only as its 101/400 answer.
- Concurrent requests: two interleaved read-modify-write handlers can lose an update. The model handles one request at a time.
- `crypto.randomUUID()` and `new Date()`: these are the parameters `freshId` and `now`. Uniqueness of the fresh id is a premise of the invariant lemmas.
- URL parsing: `path` is `url.pathname` as the URL parser returns it, percent-encoded, so `/api/items/a%20b/comment` captures the id `a%20b`. The routing lemmas hold for every string, so this needs no separate model.
- HTML rendering, `escapeHtml` and `formatDate`, plus the page's own client script except its sort comparator: this is presentation.
- `fetch`, `localStorage` and `confirm` in the island: these are browser I/O. The island's handlers return the request they would send. `deleteItem` and `toggleStatus` only call fetch and then reload, so they are not modelled.
- The island's `?action=toggle` and `?action=comment` requests are served by `routes/api/items/[id].ts`, which is not part of this model.
- `routes/index.tsx` is not part of this model.
- The island's `newKommentar` state has no input handler in the source. It is modelled only through `AddItem`, which sends and resets it.
- Island.Total: prices are exact reals, so floating-point rounding of the sum and the `toFixed(2)` display are not modelled.
- JsText.TrimStart: strings are sequences of code points, not UTF-16 units. This is the same for the whitespace set used here, which lies in the Basic Multilingual Plane.
- Island.ShoppingListIsland.SubmitComment: the model reads the current `commentInputs`. The source's handler closes over the value from the last render, so it may see an older state.
- Item objects shared by reference: an item that `find` returns is changed in place in the source. The model replaces it by index, so aliasing is not modelled.
