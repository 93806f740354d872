/**
  Worked sequences of operations across the components: one item's life
  from creation through a toggle and two comments, and how a toggle moves
  an item on the server page but not in the island.
 */
module Scenarios {
  import opened JsText
  import opened SeqUtil
  import opened ShoppingItems
  import opened ServerApi
  import opened ServerRender
  import opened FreshItems
  import opened Island

  /** A comment submission body: only `kommentar` and `username` matter. */
  function CommentBody(kommentar: string, username: string): Body {
    Body("", 0, None, Some(kommentar), Some(username))
  }

  // Max adds 2 Chips at 1.50; Mia ticks them off; Max comments on the
  // empty comment; Mia overwrites Max's comment.

  function Chips(): Item {
    NewFreshItem(Body("Chips", 2, Some(1.5), None, Some("Max")), "c1", "t0")
  }

  function ChipsToggled(): Item {
    Toggled(Chips(), Some("Mia"), "t1")
  }

  function ChipsCommented(): Item {
    Commented(ChipsToggled(), CommentBody("bring extra", "Max"), "t2")
  }

  function ChipsRecommented(): Item {
    Commented(ChipsCommented(), CommentBody("never mind", "Mia"), "t3")
  }

  /** The new item's subtotal is 3.00, and Mia's toggle marks it done. */
  lemma ChipsCreatedAndToggled()
    ensures Subtotal(Chips()) == 3.0 && Chips().status == Todo
    ensures ChipsToggled().status == Done && ChipsToggled().letzterUser == "Mia"
  {
    assert Chips().preis == Some(1.5) && Chips().anzahl == 2;
  }

  /** Commenting on the empty comment archives nothing. */
  lemma ChipsFirstComment()
    ensures HistoryOf(ChipsCommented()) == [] && ChipsCommented().kommentar == "bring extra"
    ensures ChipsCommented().letzterUser == "Max"
  {
    assert ChipsToggled().kommentar == "";
    assert ChipsToggled().kommentarHistory == Some([]);
  }

  /** Two comments on an item without comment or history: the first
      archives nothing, the second archives the first with its author and
      time, and the island shows that entry first. */
  lemma CommentTwice(it: Item, c1: string, u1: string, t1: string, c2: string, u2: string, t2: string)
    requires it.kommentar == "" && HistoryOf(it) == []
    requires c1 != c2 && !IsBlank(c1) && u1 != ""
    ensures var first := Commented(it, CommentBody(c1, u1), t1);
      var second := Commented(first, CommentBody(c2, u2), t2);
      && HistoryOf(first) == []
      && HistoryOf(second) == [HistoryEntry(c1, u1, t1)]
      && DisplayedHistory(second) == [HistoryEntry(c1, u1, t1)]
  {
    assert Trim(c1) != "" by { TrimEmptyIffBlank(c1); }
    var e := HistoryEntry(c1, u1, t1);
    assert Reversed([e]) == [e];
  }

  /** Mia overwriting Max's comment archives it under his name and time. */
  lemma ChipsSecondComment()
    ensures HistoryOf(ChipsRecommented()) == [HistoryEntry("bring extra", "Max", "t2")]
    ensures ChipsRecommented().kommentar == "never mind" && ChipsRecommented().letzterUser == "Mia"
    ensures DisplayedHistory(ChipsRecommented()) == [HistoryEntry("bring extra", "Max", "t2")]
  {
    var c1 := "bring extra";
    assert !IsBlank(c1) by { assert !IsJsWhitespace(c1[0]); }
    CommentTwice(ChipsToggled(), c1, "Max", "t2", "never mind", "Mia", "t3");
  }

  /** Toggling the first of two open items moves it behind the other on the
      server page, while the island keeps it first. */
  lemma ToggleMovesOnlyOnServerPage(a: Item, b: Item, user: Option<string>, now: string)
    requires a.id != b.id && a.status == Todo && b.status == Todo
    ensures var after := UpdateFirst([a, b], a.id, (it: Item) => Toggled(it, user, now));
      && Listed(after) == [Toggled(a, user, now), b]
      && SortedForDisplay(after) == [b, Toggled(a, user, now)]
  {
    var after := UpdateFirst([a, b], a.id, (it: Item) => Toggled(it, user, now));
    assert after == [Toggled(a, user, now), b];
    SortIsPartition(after);
    assert after[1..] == [b];
    assert WithStatus([b], Todo) == [b];
    assert WithStatus([b], Done) == [];
    assert WithStatus(after, Todo) == [b];
    assert WithStatus(after, Done) == [Toggled(a, user, now)];
  }
}
