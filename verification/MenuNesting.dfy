/** The forest that the preview shows, for any text: every item once, in order, under the
    nearest item above it that is indented less. */
module MenuNesting {
  import opened Common
  import opened Trees
  import opened MenuGrammar
  import opened Menus
  import opened MenuPreview
  import opened MenuWarnings

  datatype Item = Item(indent: nat, line: MenuLine)

  /** The items of the text, in order. */
  function ItemsIn(lines: seq<Line>): seq<Item>
  {
    if lines == [] then []
    else
      ItemsIn(lines[..|lines| - 1])
      + if Last(lines).item.Some? then [Item(Last(lines).indent, Last(lines).item.value)] else []
  }

  /** Item j is the nearest one above item k that is indented less. */
  ghost predicate Encloses(items: seq<Item>, j: nat, k: nat)
  {
    j < k < |items| && items[j].indent < items[k].indent
    && forall i: nat :: j < i < k ==> items[i].indent >= items[k].indent
  }

  ghost predicate Outermost(items: seq<Item>, k: nat)
  {
    k < |items| && forall i: nat :: i < k ==> items[i].indent >= items[k].indent
  }

  /** Entry k shows item k, one level below the item that encloses it. */
  ghost predicate ShownAt(items: seq<Item>, entries: seq<Entry>, k: nat)
    requires k < |items| == |entries|
  {
    var m := items[k].line;
    && entries[k].id == m.id && entries[k].caption == m.caption
    && entries[k].contentId == (if m.page && m.content.Some? then m.content.value else "")
    && (Outermost(items, k) ==> entries[k].depth == 0)
    && forall j: nat :: Encloses(items, j, k) ==> entries[k].depth == entries[j].depth + 1
  }

  ghost predicate Nested(items: seq<Item>, entries: seq<Entry>)
  {
    |items| == |entries|
    && forall k {:trigger ShownAt(items, entries, k)} :: 0 <= k < |items| ==> ShownAt(items, entries, k)
  }

  // --------------------------------------------------------------- the open items

  /** No item below is indented as little. */
  ghost predicate Open(items: seq<Item>, i: nat)
  {
    i < |items| && forall k: nat :: i < k < |items| ==> items[k].indent > items[i].indent
  }

  ghost predicate OpenAt(items: seq<Item>, entries: seq<Entry>, d: nat)
    requires |items| == |entries|
  {
    exists i: nat :: Open(items, i) && entries[i].depth == d
  }

  /** The stack holds the indentations of the open items, by depth. */
  ghost predicate Stacked(items: seq<Item>, entries: seq<Entry>, stack: seq<nat>)
    requires |items| == |entries|
  {
    && (forall d, e :: 0 <= d < e < |stack| ==> stack[d] < stack[e])
    && (forall i: nat {:trigger Open(items, i)} :: Open(items, i) ==>
          entries[i].depth < |stack| && stack[entries[i].depth] == items[i].indent)
    && (forall d: nat {:trigger OpenAt(items, entries, d)} :: d < |stack| ==> OpenAt(items, entries, d))
  }

  lemma {:induction false} EnclosingIsOpen(items: seq<Item>, x: Item, j: nat)
    requires Encloses(items + [x], j, |items|)
    ensures Open(items, j) && items[j].indent < x.indent
    ensures forall i: nat :: j < i < |items| ==> items[i].indent >= x.indent
  {
    var all := items + [x];
    assert all[|items|] == x && all[j] == items[j];
    forall i: nat | j < i < |items| ensures items[i].indent >= x.indent { assert all[i] == items[i]; }
  }

  lemma {:induction false} StaysOpen(items: seq<Item>, x: Item, i: nat)
    ensures Open(items + [x], i) <==> i == |items| || (Open(items, i) && items[i].indent < x.indent)
  {
    var all := items + [x];
    if Open(all, i) && i < |items| {
      assert all[|items|] == x;
      forall k: nat | i < k < |items| ensures items[k].indent > items[i].indent { assert all[k] == items[k]; }
    }
  }

  /** Of the stack, c entries are indented less than the new item. */
  ghost predicate Cut(stack: seq<nat>, indent: nat, c: nat)
  {
    c <= |stack| && (c > 0 ==> stack[c - 1] < indent) && forall d: nat :: c <= d < |stack| ==> stack[d] >= indent
  }

  lemma {:induction false} LastOpen(items: seq<Item>, entries: seq<Entry>, stack: seq<nat>, x: Item, c: nat)
    returns (i: nat)
    requires |items| == |entries| && Stacked(items, entries, stack) && Cut(stack, x.indent, c) && c > 0
    ensures Open(items, i) && entries[i].depth == c - 1 && items[i].indent == stack[c - 1] < x.indent
  {
    assert OpenAt(items, entries, c - 1);
    i :| Open(items, i) && entries[i].depth == c - 1;
  }

  lemma {:induction false} OutermostHasNone(items: seq<Item>, entries: seq<Entry>, stack: seq<nat>, x: Item, c: nat)
    requires |items| == |entries| && Stacked(items, entries, stack) && Cut(stack, x.indent, c)
    requires Outermost(items + [x], |items|)
    ensures c == 0
  {
    var all := items + [x];
    forall i: nat | i < |items| ensures items[i].indent >= x.indent {
      assert all[i] == items[i] && all[|items|] == x;
    }
    if c > 0 { var _ := LastOpen(items, entries, stack, x, c); }
  }

  lemma {:induction false} EnclosedIsNext(items: seq<Item>, entries: seq<Entry>, stack: seq<nat>, x: Item, c: nat,
                                          j: nat)
    requires |items| == |entries| && Stacked(items, entries, stack) && Cut(stack, x.indent, c)
    requires Encloses(items + [x], j, |items|)
    ensures j < |items| && c == entries[j].depth + 1
  {
    EnclosingIsOpen(items, x, j);
    var d := entries[j].depth;
    if d + 1 < c { var _ := LastOpen(items, entries, stack, x, c); }
  }

  lemma {:induction false} EntriesNest(items: seq<Item>, entries: seq<Entry>, x: Item, e: Entry)
    requires Nested(items, entries) && ShownAt(items + [x], entries + [e], |items|)
    ensures Nested(items + [x], entries + [e])
  {
    var all, shown := items + [x], entries + [e];
    forall k | 0 <= k < |all| ensures ShownAt(all, shown, k) {
      if k < |items| {
        assert ShownAt(items, entries, k);
        assert all[..|items|] == items;
        ShownStays(items, entries, x, e, k);
      }
    }
  }

  lemma {:induction false} ShownStays(items: seq<Item>, entries: seq<Entry>, x: Item, e: Entry, k: nat)
    requires |items| == |entries| && k < |items| && ShownAt(items, entries, k)
    ensures ShownAt(items + [x], entries + [e], k)
  {
    var all, shown := items + [x], entries + [e];
    if Outermost(all, k) {
      forall i: nat | i < k ensures items[i].indent >= items[k].indent { assert all[i] == items[i]; }
    }
    forall j: nat | Encloses(all, j, k) ensures shown[k].depth == shown[j].depth + 1 {
      forall i: nat | j < i < k ensures items[i].indent >= items[k].indent { assert all[i] == items[i]; }
      assert Encloses(items, j, k);
    }
  }

  lemma {:induction false} StackCuts(items: seq<Item>, entries: seq<Entry>, stack: seq<nat>, x: Item, e: Entry, c: nat)
    requires |items| == |entries| && Stacked(items, entries, stack) && Cut(stack, x.indent, c) && e.depth == c
    ensures Stacked(items + [x], entries + [e], stack[..c] + [x.indent])
  {
    var all, shown, cut := items + [x], entries + [e], stack[..c] + [x.indent];
    forall i: nat | Open(all, i) ensures shown[i].depth < |cut| && cut[shown[i].depth] == all[i].indent {
      StaysOpen(items, x, i);
    }
    forall d: nat | d < |cut| ensures OpenAt(all, shown, d) {
      if d < c {
        assert OpenAt(items, entries, d);
        var i: nat :| Open(items, i) && entries[i].depth == d;
        StaysOpen(items, x, i);
        assert Open(all, i) && shown[i].depth == d;
      } else {
        StaysOpen(items, x, |items|);
        assert Open(all, |items|) && shown[|items|].depth == d;
      }
    }
  }

  /** What the entry of a new item must say. */
  ghost predicate EntryIs(e: Entry, x: Item, depth: nat)
  {
    e == Entry(depth, x.line.id, x.line.caption,
               if x.line.page && x.line.content.Some? then x.line.content.value else "")
  }

  lemma {:induction false} ItemNests(items: seq<Item>, entries: seq<Entry>, stack: seq<nat>, x: Item, e: Entry, c: nat)
    requires Nested(items, entries) && Stacked(items, entries, stack) && Cut(stack, x.indent, c) && EntryIs(e, x, c)
    ensures Nested(items + [x], entries + [e])
    ensures Stacked(items + [x], entries + [e], stack[..c] + [x.indent])
  {
    var all, shown, n := items + [x], entries + [e], |items|;
    if Outermost(all, n) { OutermostHasNone(items, entries, stack, x, c); }
    forall j: nat | Encloses(all, j, n) ensures shown[n].depth == shown[j].depth + 1 {
      EnclosedIsNext(items, entries, stack, x, c, j);
    }
    EntriesNest(items, entries, x, e);
    StackCuts(items, entries, stack, x, e, c);
  }

  // ----------------------------------------------------------------- the preview's steps

  function Indents(stack: seq<Frame>): seq<nat>
  {
    seq(|stack|, d requires 0 <= d < |stack| => stack[d].indent)
  }

  lemma {:induction false} ClosingCuts(p: Preview, indent: nat)
    ensures var c := CloseFrom(p, indent);
            && Shown(c) == Shown(p) && |c.stack| <= |p.stack|
            && Indents(c.stack) == Indents(p.stack)[..|c.stack|]
            && (c.stack != [] ==> Last(c.stack).indent < indent)
            && forall d: nat :: |c.stack| <= d < |p.stack| ==> p.stack[d].indent >= indent
    decreases |p.stack|
  {
    if p.stack != [] && Last(p.stack).indent >= indent {
      var q := Close(p);
      CloseKeepsShown(p);
      ClosingCuts(q, indent);
      CloseKeepsIndents(p);
      assert Indents(q.stack)[..|CloseFrom(q, indent).stack|] == Indents(p.stack)[..|CloseFrom(q, indent).stack|];
    } else {
      assert Indents(p.stack)[..|p.stack|] == Indents(p.stack);
    }
  }

  lemma {:induction false} CloseKeepsIndents(p: Preview)
    requires p.stack != []
    ensures |Close(p).stack| == |p.stack| - 1
    ensures forall d :: 0 <= d < |p.stack| - 1 ==> Close(p).stack[d].indent == p.stack[d].indent
  {}

  lemma {:induction false} PushLists(stack: seq<Frame>, indent: nat, n: Node)
    requires n.children == []
    ensures OpenListing(stack + [Frame(indent, n)], 0) ==
            OpenListing(stack, 0) + [Entry(|stack|, n.id, n.caption, n.contentId)]
  {
    var top := Frame(indent, n);
    OpenAppend(stack, [top], 0);
    OpenAlone(top, |stack|);
    assert Listing(n.children, |stack| + 1) == [];
    assert [Entry(|stack|, n.id, n.caption, n.contentId)] + [] == [Entry(|stack|, n.id, n.caption, n.contentId)];
  }

  lemma {:induction false} ItemShows(p: Preview, n: nat, indent: nat, m: MenuLine)
    ensures var q, c := ShowItem(p, n, indent, m), |CloseFrom(p, indent).stack|;
            && c <= |p.stack| && Indents(q.stack) == Indents(p.stack)[..c] + [indent]
            && Cut(Indents(p.stack), indent, c)
            && Shown(q) == Shown(p) + [Entry(c, m.id, m.caption, ItemNode(m).contentId)]
  {
    var closed := CloseFrom(p, indent);
    ClosingCuts(p, indent);
    PushLists(closed.stack, indent, ItemNode(m));
    Associates(Listing(closed.roots, 0), OpenListing(closed.stack, 0),
               [Entry(|closed.stack|, m.id, m.caption, ItemNode(m).contentId)]);
    assert Indents(closed.stack + [Frame(indent, ItemNode(m))]) == Indents(closed.stack) + [indent];
  }

  lemma {:induction false} NothingNests()
    ensures Nested([], []) && Stacked([], [], [])
  {}

  lemma {:induction false} PreviewNests(lines: seq<Line>)
    requires forall k :: 0 <= k < |lines| ==> Plausible(lines[k])
    ensures var p := ShowReadings(lines);
            Nested(ItemsIn(lines), Shown(p)) && Stacked(ItemsIn(lines), Shown(p), Indents(p.stack))
  {
    if lines == [] {
      assert Shown(NOTHING_SHOWN) == [] && Indents([]) == [];
      NothingNests();
    } else {
      var init, x := lines[..|lines| - 1], Last(lines);
      var p, items := ShowReadings(init), ItemsIn(init);
      PreviewNests(init);
      if x.item.None? {
        assert items + [] == items;
      } else {
        var m := x.item.value;
        var c := |CloseFrom(p, x.indent).stack|;
        ItemShows(p, |lines|, x.indent, m);
        ItemNests(items, Shown(p), Indents(p.stack), Item(x.indent, m),
                  Entry(c, m.id, m.caption, ItemNode(m).contentId), c);
      }
    }
  }

  /** Whatever the text, the preview shows each of its items once, in order, and each under
      the nearest item above it that is indented less. */
  lemma {:induction false} ItemsAreNested(text: string)
    ensures Nested(ItemsIn(Readings(BrowserLines(text))), Listing(PreviewOf(BrowserLines(text)).0, 0))
  {
    var lines := BrowserLines(text);
    ReadingsShow(lines);
    PreviewNests(Readings(lines));
    ClosingCuts(ShowLines(lines), 0);
    var closed := CloseFrom(ShowLines(lines), 0);
    assert closed.stack == [];
    assert Listing(closed.roots, 0) + [] == Listing(closed.roots, 0);
  }
}
