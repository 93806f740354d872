/**
  The display order of the page that `server.ts` serves: `renderItems`
  sorts a copy of the items with a comparator that puts `todo` before
  `done`. `Array.prototype.sort` is stable, so the sort is modelled by a
  stable insertion sort driven by the same comparator; `SortIsUnique`
  shows that every stable sort for this comparator gives the same order.
 */
module ServerRender {
  import opened SeqUtil
  import opened ShoppingItems

  /** The comparator passed to `sort`. */
  function Compare(a: Item, b: Item): int {
    if a.status == Todo && b.status == Done then -1
    else if a.status == Done && b.status == Todo then 1
    else 0
  }

  /** Inserts `x` after every element of `sorted` that does not compare
      greater than it: stable insertion. */
  function Insert(sorted: seq<Item>, x: Item): seq<Item>
    decreases |sorted|
  {
    if |sorted| == 0 then [x]
    else if Compare(sorted[|sorted| - 1], x) > 0 then Insert(sorted[..|sorted| - 1], x) + [sorted[|sorted| - 1]]
    else sorted + [x]
  }

  /** `[...items].sort(Compare)` */
  function SortedForDisplay(items: seq<Item>): seq<Item> {
    if |items| == 0 then [] else Insert(SortedForDisplay(items[..|items| - 1]), items[|items| - 1])
  }

  /** All todo items, in list order, followed by all done items, in list order. */
  function TodosThenDones(items: seq<Item>): seq<Item> {
    WithStatus(items, Todo) + WithStatus(items, Done)
  }

  /** No done item comes before a todo item. */
  predicate TodoBeforeDone(s: seq<Item>) {
    forall i, j :: 0 <= i < j < |s| ==> !(s[i].status == Done && s[j].status == Todo)
  }

  /** Inserting a todo item into `todos + dones` puts it between the two. */
  lemma {:induction false} InsertTodo(todos: seq<Item>, dones: seq<Item>, x: Item)
    requires x.status == Todo
    requires forall k :: 0 <= k < |todos| ==> todos[k].status == Todo
    requires forall k :: 0 <= k < |dones| ==> dones[k].status == Done
    ensures Insert(todos + dones, x) == todos + [x] + dones
  {
    var s := todos + dones;
    if |dones| == 0 {
      assert s == todos;
    } else {
      var init := dones[..|dones| - 1];
      assert s[..|s| - 1] == todos + init;
      assert s[|s| - 1] == dones[|dones| - 1];
      InsertTodo(todos, init, x);
      assert dones == init + [dones[|dones| - 1]];
    }
  }

  /** Inserting a done item into `todos + dones` appends it. */
  lemma InsertDone(todos: seq<Item>, dones: seq<Item>, x: Item)
    requires x.status == Done
    ensures Insert(todos + dones, x) == todos + dones + [x]
  {
  }

  /** Selecting a status from a list splits off its last item. */
  lemma WithStatusLast(items: seq<Item>, st: Status)
    requires |items| > 0
    ensures var init, x := items[..|items| - 1], items[|items| - 1];
      WithStatus(items, st) == WithStatus(init, st) + (if x.status == st then [x] else [])
  {
    var init, x := items[..|items| - 1], items[|items| - 1];
    assert items == init + [x];
    FilterAppend(init, [x], HasStatus(st));
  }

  /** Every item selected for a status has that status. */
  lemma WithStatusHasStatus(items: seq<Item>, st: Status)
    ensures var r := WithStatus(items, st);
      forall k :: 0 <= k < |r| ==> r[k].status == st
  {
    var r := WithStatus(items, st);
    forall k | 0 <= k < |r| ensures r[k].status == st {
      assert HasStatus(st)(r[k]);
    }
  }

  /** The sort yields all todo items and then all done items, each group in
      the order of the list. */
  lemma {:induction false} SortIsPartition(items: seq<Item>)
    ensures SortedForDisplay(items) == TodosThenDones(items)
  {
    if |items| > 0 {
      var init, x := items[..|items| - 1], items[|items| - 1];
      SortIsPartition(init);
      WithStatusLast(items, Todo);
      WithStatusLast(items, Done);
      var todos, dones := WithStatus(init, Todo), WithStatus(init, Done);
      if x.status == Todo {
        WithStatusHasStatus(init, Todo);
        WithStatusHasStatus(init, Done);
        InsertTodo(todos, dones, x);
      } else {
        InsertDone(todos, dones, x);
      }
    }
  }

  /** The two status groups together hold every item exactly as often as the list. */
  lemma PartitionIsPermutation(items: seq<Item>)
    ensures multiset(TodosThenDones(items)) == multiset(items)
  {
    var todos, dones := WithStatus(items, Todo), WithStatus(items, Done);
    FilterCounts(items, HasStatus(Todo));
    FilterCounts(items, HasStatus(Done));
    forall x ensures multiset(todos + dones)[x] == multiset(items)[x] {
      if x.status == Todo { assert multiset(dones)[x] == 0; } else { assert multiset(todos)[x] == 0; }
    }
    assert multiset(todos + dones) == multiset(items);
  }

  /** In the two status groups every todo precedes every done. */
  lemma PartitionIsOrdered(items: seq<Item>)
    ensures TodoBeforeDone(TodosThenDones(items))
  {
    var todos, dones := WithStatus(items, Todo), WithStatus(items, Done);
    var r := todos + dones;
    forall i, j | 0 <= i < j < |r| ensures !(r[i].status == Done && r[j].status == Todo) {
      if i < |todos| { assert HasStatus(Todo)(todos[i]); }
      else { assert HasStatus(Done)(dones[i - |todos|]); assert HasStatus(Done)(dones[j - |todos|]); }
    }
  }

  /** Selecting one status from the two groups gives back that group. */
  lemma PartitionIsStable(items: seq<Item>)
    ensures WithStatus(TodosThenDones(items), Todo) == WithStatus(items, Todo)
    ensures WithStatus(TodosThenDones(items), Done) == WithStatus(items, Done)
  {
    var todos, dones := WithStatus(items, Todo), WithStatus(items, Done);
    FilterAppend(todos, dones, HasStatus(Todo));
    FilterAppend(todos, dones, HasStatus(Done));
    FilterKeepsAll(todos, HasStatus(Todo));
    FilterDropsAll(dones, HasStatus(Todo));
    FilterKeepsAll(dones, HasStatus(Done));
    FilterDropsAll(todos, HasStatus(Done));
    assert todos + [] == todos;
    assert [] + dones == dones;
  }

  /** The displayed order is a permutation of the items with every todo
      before every done, and stable: each status group keeps its order. */
  lemma SortProperties(items: seq<Item>)
    ensures var r := SortedForDisplay(items);
      && multiset(r) == multiset(items)
      && TodoBeforeDone(r)
      && WithStatus(r, Todo) == WithStatus(items, Todo)
      && WithStatus(r, Done) == WithStatus(items, Done)
  {
    SortIsPartition(items);
    PartitionIsPermutation(items);
    PartitionIsOrdered(items);
    PartitionIsStable(items);
  }

  /** The tail of an ordered list is ordered. */
  lemma OrderedTail(s: seq<Item>)
    requires |s| > 0 && TodoBeforeDone(s)
    ensures TodoBeforeDone(s[1..])
  {
    var rest := s[1..];
    forall i, j | 0 <= i < j < |rest| ensures !(rest[i].status == Done && rest[j].status == Todo) {
      assert rest[i] == s[i + 1] && rest[j] == s[j + 1];
    }
  }

  /** In an ordered list that starts with a done item, every item is done. */
  lemma AllDoneAfterDone(s: seq<Item>)
    requires |s| > 0 && TodoBeforeDone(s) && s[0].status == Done
    ensures WithStatus(s[1..], Todo) == [] && WithStatus(s[1..], Done) == s[1..]
  {
    var rest := s[1..];
    forall k | 0 <= k < |rest| ensures HasStatus(Done)(rest[k]) {
      assert rest[k] == s[k + 1];
    }
    FilterDropsAll(rest, HasStatus(Todo));
    FilterKeepsAll(rest, HasStatus(Done));
  }

  /** A sequence with every todo before every done is its todo items
      followed by its done items. */
  lemma {:induction false} OrderedIsPartition(s: seq<Item>)
    requires TodoBeforeDone(s)
    ensures s == TodosThenDones(s)
  {
    if |s| > 0 {
      var rest := s[1..];
      assert s == [s[0]] + rest;
      OrderedTail(s);
      OrderedIsPartition(rest);
      if s[0].status == Done {
        AllDoneAfterDone(s);
      }
    }
  }

  /** Any result with every todo before every done that keeps the order
      within each status, as a stable sort does, is this display order. */
  lemma SortIsUnique(items: seq<Item>, r: seq<Item>)
    requires TodoBeforeDone(r)
    requires WithStatus(r, Todo) == WithStatus(items, Todo)
    requires WithStatus(r, Done) == WithStatus(items, Done)
    ensures r == SortedForDisplay(items)
  {
    OrderedIsPartition(r);
    SortIsPartition(items);
  }
}
