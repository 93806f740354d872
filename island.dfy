/**
  The Preact island `islands/ShoppingList.tsx`: the totals in its footer,
  the per-item subtotal, the order in which items and archived comments
  are shown, and the component state that its event handlers update.
  Prices are exact reals; the display rounding `toFixed(2)` is not modelled.
 */
module Island {
  import opened JsText
  import opened SeqUtil
  import opened ShoppingItems

  // ------------------------------------------------------------- statistics

  /** The summand of the footer totals: `(item.preis || 0) * item.anzahl`. */
  function Term(it: Item): real {
    OrZero(it.preis) * (it.anzahl as real)
  }

  /** The per-item badge: `(item.anzahl || 1) * (item.preis || 0)`. */
  function Subtotal(it: Item): real {
    (if it.anzahl == 0 then 1 else it.anzahl) as real * OrZero(it.preis)
  }

  /** `items.reduce((sum, item) => sum + Term(item), 0)`, summed left to right. */
  function Total(items: seq<Item>): real {
    if |items| == 0 then 0.0 else Total(items[..|items| - 1]) + Term(items[|items| - 1])
  }

  /** "noch zu kaufen": the total over the open items. */
  function TodoTotal(items: seq<Item>): real {
    Total(WithStatus(items, Todo))
  }

  /** "erledigt": the total over the done items. */
  function DoneTotal(items: seq<Item>): real {
    Total(WithStatus(items, Done))
  }

  function DoneCount(items: seq<Item>): nat {
    |WithStatus(items, Done)|
  }

  function TodoCount(items: seq<Item>): nat {
    |WithStatus(items, Todo)|
  }

  /** Every item is counted as done or as open, never both. */
  lemma {:induction false} CountsAddUp(items: seq<Item>)
    ensures DoneCount(items) + TodoCount(items) == |items|
  {
    if |items| > 0 {
      CountsAddUp(items[1..]);
    }
  }

  /** The total of a concatenation is the sum of the totals. */
  lemma {:induction false} TotalAppend(a: seq<Item>, b: seq<Item>)
    ensures Total(a + b) == Total(a) + Total(b)
    decreases |b|
  {
    if |b| == 0 {
      assert a + b == a;
    } else {
      var init := b[..|b| - 1];
      assert (a + b)[..|a + b| - 1] == a + init;
      TotalAppend(a, init);
    }
  }

  /** The overall total is the open total plus the done total. */
  lemma {:induction false} TotalSplits(items: seq<Item>)
    ensures Total(items) == TodoTotal(items) + DoneTotal(items)
  {
    if |items| > 0 {
      var init, x := items[..|items| - 1], items[|items| - 1];
      assert items == init + [x];
      TotalSplits(init);
      FilterAppend(init, [x], HasStatus(Todo));
      FilterAppend(init, [x], HasStatus(Done));
      TotalAppend(WithStatus(init, Todo), WithStatus([x], Todo));
      TotalAppend(WithStatus(init, Done), WithStatus([x], Done));
      assert Total([x]) == Term(x) by {
        assert [x][..0] == [];
      }
    }
  }

  /** The badge agrees with the footer's summand exactly when the quantity
      is not 0 or the price is 0: a quantity of 0 shows as 1 on the badge. */
  lemma SubtotalAgreesWithTerm(it: Item)
    ensures Subtotal(it) == Term(it) <==> (it.anzahl != 0 || OrZero(it.preis) == 0.0)
  {
    var p := OrZero(it.preis);
    if it.anzahl == 0 {
      assert Subtotal(it) == p;
      assert Term(it) == 0.0;
    } else {
      assert Subtotal(it) == (it.anzahl as real) * p;
    }
  }

  // --------------------------------------------------------------- display

  /** `const sortedItems = items`: the island lists items in stored order. */
  function Listed(items: seq<Item>): seq<Item> {
    items
  }

  /** `history.slice().reverse()`: the archived comments, newest first. */
  function DisplayedHistory(it: Item): seq<HistoryEntry> {
    Reversed(HistoryOf(it))
  }

  /** The panel shows every archived comment once, the most recent first. */
  lemma DisplayedHistoryNewestFirst(it: Item)
    ensures var h, d := HistoryOf(it), DisplayedHistory(it);
      && |d| == |h|
      && (forall k :: 0 <= k < |h| ==> d[k] == h[|h| - 1 - k])
      && multiset(d) == multiset(h)
      && Reversed(d) == h
  {
    var h, d := HistoryOf(it), DisplayedHistory(it);
    ReversedTwice(h);
    ReversedIsPermutation(h);
  }

  lemma {:induction false} ReversedIsPermutation<T>(s: seq<T>)
    ensures multiset(Reversed(s)) == multiset(s)
  {
    if |s| > 0 {
      ReversedIsPermutation(s[..|s| - 1]);
      assert s == s[..|s| - 1] + [s[|s| - 1]];
    }
  }

  /** `openHistory === item.id`, and the panel is rendered only when the item
      also has history. */
  predicate ShowsHistory(openHistory: Option<string>, it: Item) {
    |HistoryOf(it)| > 0 && openHistory == Some(it.id)
  }

  /** With distinct ids at most one item of the list shows its history panel. */
  lemma AtMostOneHistoryShown(openHistory: Option<string>, items: seq<Item>)
    requires DistinctIds(items)
    ensures forall i, j ::
      (0 <= i < |items| && 0 <= j < |items| && ShowsHistory(openHistory, items[i]) && ShowsHistory(openHistory, items[j]))
      ==> i == j
  {
  }

  // ----------------------------------------------------------------- state

  /** A comment as `submitComment` posts it for the item `id`. */
  datatype CommentRequest = CommentRequest(id: string, kommentar: string, username: string)

  /** The component's `useState` hooks. */
  class ShoppingListIsland {
    var items: seq<Item>
    var username: string
    var newArtikel: string
    var newAnzahl: int
    var newPreis: real
    var newKommentar: string
    var openHistory: Option<string>
    var commentInputs: map<string, string>

    /** The initial values of the hooks. */
    constructor ()
      ensures items == [] && username == "" && newArtikel == "" && newAnzahl == 1 && newPreis == 0.0
      ensures newKommentar == "" && openHistory == None && commentInputs == map[]
    {
      items, username, newArtikel, newAnzahl, newPreis := [], "", "", 1, 0.0;
      newKommentar, openHistory, commentInputs := "", None, map[];
    }

    /** `loadItems`: `setItems(data.items || [])` with the fetched items. */
    method LoadItems(fetched: Option<seq<Item>>)
      modifies this`items
      ensures items == LoadedItems(fetched)
    {
      items := LoadedItems(fetched);
    }

    /** `saveUsername`, without the `localStorage` copy. */
    method SaveUsername(name: string)
      modifies this`username
      ensures username == name
    {
      username := name;
    }

    /** The name the island sends: `username || "Anonym"`. */
    function Sender(): (r: string)
      reads this
      ensures r != ""
    {
      OrString(Some(username), "Anonym")
    }

    method InputArtikel(value: string)
      modifies this`newArtikel
      ensures newArtikel == value
    {
      newArtikel := value;
    }

    /** `setNewAnzahl(parseInt(value) || 1)`; `parsed` is `None` for NaN. */
    method InputAnzahl(parsed: Option<int>)
      modifies this`newAnzahl
      ensures newAnzahl == if parsed.Some? && parsed.value != 0 then parsed.value else 1
      ensures newAnzahl != 0
    {
      if parsed.Some? && parsed.value != 0 {
        newAnzahl := parsed.value;
      } else {
        newAnzahl := 1;
      }
    }

    /** `setNewPreis(parseFloat(value) || 0)`; `parsed` is `None` for NaN. */
    method InputPreis(parsed: Option<real>)
      modifies this`newPreis
      ensures newPreis == if parsed.Some? then parsed.value else 0.0
    {
      newPreis := OrZero(parsed);
      OrZeroIsValueOrZero(parsed);
    }

    /** `addItem`: a blank article sends nothing and changes nothing;
        otherwise the form is posted and reset to `("", 1, 0, "")`. */
    method AddItem() returns (sent: Option<Body>)
      modifies this`newArtikel, this`newAnzahl, this`newPreis, this`newKommentar
      ensures IsBlank(old(newArtikel)) ==> sent == None
      ensures IsBlank(old(newArtikel)) ==>
        newArtikel == old(newArtikel) && newAnzahl == old(newAnzahl)
        && newPreis == old(newPreis) && newKommentar == old(newKommentar)
      ensures !IsBlank(old(newArtikel)) ==>
        sent == Some(Body(old(newArtikel), old(newAnzahl), Some(old(newPreis)),
                          Some(old(newKommentar)), Some(Sender())))
      ensures !IsBlank(old(newArtikel)) ==>
        newArtikel == "" && newAnzahl == 1 && newPreis == 0.0 && newKommentar == ""
    {
      var blank := TrimIsEmpty(newArtikel);
      if blank {
        return None;
      }
      sent := Some(Body(newArtikel, newAnzahl, Some(newPreis), Some(newKommentar), Some(Sender())));
      newArtikel, newAnzahl, newPreis, newKommentar := "", 1, 0.0, "";
    }

    /** The history button: `setOpenHistory(isHistoryOpen ? null : item.id)`.
        It is rendered only for items with history. */
    method ClickHistory(it: Item)
      requires |HistoryOf(it)| > 0
      modifies this`openHistory
      ensures ShowsHistory(openHistory, it) <==> !ShowsHistory(old(openHistory), it)
      ensures forall other: Item :: other.id != it.id ==> !ShowsHistory(openHistory, other)
    {
      if openHistory == Some(it.id) {
        openHistory := None;
      } else {
        openHistory := Some(it.id);
      }
    }

    /** The comment field's value: `commentInputs[item.id] || ""`. */
    function CommentInput(id: string): string
      reads this
    {
      if id in commentInputs then commentInputs[id] else ""
    }

    /** Typing into an item's comment field. */
    method InputComment(id: string, value: string)
      modifies this`commentInputs
      ensures commentInputs == old(commentInputs)[id := value]
      ensures CommentInput(id) == value
    {
      commentInputs := commentInputs[id := value];
    }

    /** `submitComment`: an absent or blank input sends nothing; otherwise the
        comment is posted and only this item's input is cleared. */
    method SubmitComment(id: string) returns (sent: Option<CommentRequest>)
      modifies this`commentInputs
      ensures sent.None? <==> (id !in old(commentInputs) || IsBlank(old(commentInputs)[id]))
      ensures sent.None? <==> IsBlank(old(CommentInput(id)))
      ensures sent.Some? ==> CommentInput(id) == ""
      ensures sent.None? ==> commentInputs == old(commentInputs)
      ensures sent.Some? ==> sent.value == CommentRequest(id, old(commentInputs)[id], Sender())
      ensures sent.Some? ==> commentInputs.Keys == old(commentInputs).Keys
      ensures sent.Some? ==> commentInputs[id] == ""
      ensures forall other :: other != id && other in old(commentInputs) ==>
        other in commentInputs && commentInputs[other] == old(commentInputs)[other]
    {
      if id !in commentInputs {
        return None;
      }
      var kommentar := commentInputs[id];
      var blank := TrimIsEmpty(kommentar);
      if blank {
        return None;
      }
      sent := Some(CommentRequest(id, kommentar, Sender()));
      commentInputs := commentInputs[id := ""];
    }
  }
}
