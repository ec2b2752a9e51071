/** The printer of the menu language, and that the parser undoes it. */
module MenuRender {
  import opened Common
  import opened Trees
  import opened MenuGrammar
  import opened Menus
  import opened MenuPreview

  /** A documentation page or group with its place in the navigation. */
  datatype Doc = Doc(caption: string, contentId: Id, hidden: bool, children: seq<Doc>)

  datatype Item = Item(occurrence: Id, depth: nat, selectable: bool)

  function Size(docs: seq<Doc>): nat
    decreases docs
  {
    if docs == [] then 0 else 1 + Size(docs[0].children) + Size(docs[1..])
  }

  /** The children that are printed. */
  function Below(docs: seq<Doc>): (shown: seq<Doc>)
    ensures Size(shown) <= Size(docs)
    ensures (forall i :: 0 <= i < |docs| ==> !docs[i].hidden) ==> shown == docs
  {
    if docs == [] then [] else if docs[0].hidden then Below(docs[1..]) else [docs[0]] + Below(docs[1..])
  }

  // ------------------------------------------------------------ occurrence numbers

  /** Decimal digits, padded with zeros to a width. */
  function Padded(n: nat, width: nat): string
  {
    if n < 10 && width <= 1 then [Digit(n)] else Padded(n / 10, if width == 0 then 0 else width - 1) + [Digit(n % 10)]
  }

  function Digit(d: nat): char
    requires d < 10
  {
    ('0' as int + d) as char
  }

  function Value(s: string): int
  {
    if s == "" then 0 else 10 * Value(s[..|s| - 1]) + (Last(s) as int - '0' as int)
  }

  function Occurrence(variant: string, n: nat): Id
  {
    variant + "-" + Padded(n, 3)
  }

  lemma {:induction false} PaddedReads(n: nat, width: nat)
    ensures Value(Padded(n, width)) == n
    ensures forall i :: 0 <= i < |Padded(n, width)| ==> '0' <= Padded(n, width)[i] <= '9'
    ensures |Padded(n, width)| >= 1
    decreases n, width
  {
    if n < 10 && width <= 1 {
      assert Padded(n, width)[..0] == "";
    } else {
      PaddedReads(n / 10, if width == 0 then 0 else width - 1);
    }
  }

  lemma {:induction false} PaddedIsShort(n: nat)
    requires n < 10000
    ensures |Padded(n, 3)| <= 4
  {
    var a, b, c := n / 10, n / 10 / 10, n / 10 / 10 / 10;
    assert c < 10 && |Padded(c, 0)| == 1;
    assert |Padded(b, 1)| <= |Padded(c, 0)| + 1;
    assert |Padded(a, 2)| == |Padded(b, 1)| + 1;
    assert |Padded(n, 3)| == |Padded(a, 2)| + 1;
  }

  /** Occurrence IDs never repeat. */
  lemma {:induction false} OccurrencesDiffer(variant: string, n: nat, m: nat)
    requires Occurrence(variant, n) == Occurrence(variant, m)
    ensures n == m
  {
    var k := |variant| + 1;
    assert Occurrence(variant, n)[k..] == Padded(n, 3) && Occurrence(variant, m)[k..] == Padded(m, 3);
    PaddedReads(n, 3);
    PaddedReads(m, 3);
  }

  lemma {:induction false} OccurrenceIsIdentifier(variant: string, n: nat)
    requires Identifier(variant) && |variant| + 5 <= MAX_IDENTIFIER && n < 10000
    ensures Identifier(Occurrence(variant, n))
  {
    PaddedReads(n, 3);
    PaddedIsShort(n);
    var id := Occurrence(variant, n);
    forall i | 0 <= i < |id| ensures Word(id[i]) {
      if i > |variant| { assert id[i] == Padded(n, 3)[i - |variant| - 1]; }
    }
  }

  // ------------------------------------------------------------ what is printed

  /** Number of nodes printed. */
  function PrintedNodes(docs: seq<Doc>): nat
    decreases Size(docs)
  {
    if docs == [] then 0 else 1 + PrintedNodes(Below(docs[0].children)) + PrintedNodes(docs[1..])
  }

  /** The forest that the printed text denotes: a node with children, hidden or not, is
      a group; occurrences are numbered in preorder after the first n. */
  function Printed(variant: string, docs: seq<Doc>, n: nat): seq<Node>
    decreases Size(docs)
  {
    if docs == [] then []
    else
      var d := docs[0];
      var below := Below(d.children);
      [Node(Occurrence(variant, n + 1), d.caption, if d.children == [] then d.contentId
            else "", Printed(variant, below, n + 1))]
      + Printed(variant, docs[1..], n + 1 + PrintedNodes(below))
  }

  ghost function PrintedNode(variant: string, d: Doc, n: nat): Node
  {
    Node(Occurrence(variant, n + 1), d.caption, if d.children == [] then d.contentId
         else "", Printed(variant, Below(d.children), n + 1))
  }

  ghost function PrintedRest(variant: string, docs: seq<Doc>, n: nat): seq<Node>
    requires docs != []
  {
    Printed(variant, docs[1..], n + 1 + PrintedNodes(Below(docs[0].children)))
  }

  lemma {:induction false} PrintedSplits(variant: string, docs: seq<Doc>, n: nat)
    requires docs != []
    ensures Printed(variant, docs, n) == [PrintedNode(variant, docs[0], n)] + PrintedRest(variant, docs, n)
  {}

  function LineOf(e: Entry): MenuLine
  {
    MenuLine(e.caption, e.contentId != "", e.id, if e.contentId != "" then Some(e.contentId) else None)
  }

  function RowText(e: Entry): string
  {
    Indented(2 * e.depth) + Spell(LineOf(e))
  }

  function RowsOf(entries: seq<Entry>): seq<string>
  {
    seq(|entries|, i requires 0 <= i < |entries| => RowText(entries[i]))
  }

  function ItemsOf(entries: seq<Entry>): seq<Item>
  {
    seq(|entries|, i requires 0 <= i < |entries| => Item(entries[i].id, entries[i].depth, entries[i].contentId != ""))
  }

  /** Pages without children have content to show. */
  predicate PagesHaveContent(docs: seq<Doc>)
    decreases docs
  {
    docs != [] ==>
        (docs[0].children == [] ==> docs[0].contentId != "") && PagesHaveContent(docs[0].children)
        && PagesHaveContent(docs[1..])
  }

  lemma {:induction false} BelowHasContent(docs: seq<Doc>)
    requires PagesHaveContent(docs)
    ensures PagesHaveContent(Below(docs))
  {
    if docs != [] {
      BelowHasContent(docs[1..]);
      assert !docs[0].hidden ==> Below(docs)[1..] == Below(docs[1..]);
    }
  }

  lemma {:induction false} ListedCount(variant: string, docs: seq<Doc>, n: nat, depth: nat)
    ensures |Listed(variant, docs, n, depth)| == PrintedNodes(docs)
    decreases Size(docs)
  {
    if docs != [] {
      var below := Below(docs[0].children);
      var m := n + 1 + PrintedNodes(below);
      ListedCount(variant, below, n + 1, depth + 1);
      ListedCount(variant, docs[1..], m, depth);
      ThreeLengths(EntryOfDoc(variant, docs[0], n, depth), Listed(variant, below, n + 1, depth + 1),
                   Listed(variant, docs[1..], m, depth));
      ListedSplits(variant, docs, n, depth);
    }
  }

  lemma {:induction false} ThreeLengths(e: Entry, a: seq<Entry>, b: seq<Entry>)
    ensures |[e] + a + b| == 1 + |a| + |b|
  {}

  /** Rows and inventory, in step. */
  datatype Output = Output(rows: seq<string>, inventory: seq<Item>)

  ghost function Wrote(o: Output, entries: seq<Entry>): Output
  {
    Output(o.rows + RowsOf(entries), o.inventory + ItemsOf(entries))
  }

  lemma {:induction false} WroteTwice(o: Output, a: seq<Entry>, b: seq<Entry>)
    ensures Wrote(Wrote(o, a), b) == Wrote(o, a + b)
    ensures |Wrote(o, a).inventory| == |o.inventory| + |a|
  {
    RowsConcat(a, b);
    Associates(o.rows, RowsOf(a), RowsOf(b));
    Associates(o.inventory, ItemsOf(a), ItemsOf(b));
  }

  lemma {:induction false} WroteNothing(o: Output)
    ensures Wrote(o, []) == o
  {}

  lemma {:induction false} WroteAll(all: seq<Entry>)
    ensures Wrote(Output([], []), all) == Output(RowsOf(all), ItemsOf(all))
  {}

  class Renderer {
    const variant: string
    var rows: seq<string>
    var inventory: seq<Item>

    constructor (variant: string)
      ensures this.variant == variant && rows == [] && inventory == []
    {
      this.variant, rows, inventory := variant, [], [];
    }

    ghost function Now(): Output
      reads this
    {
      Output(rows, inventory)
    }

    /** One node's own row and inventory entry. */
    method Put(d: Doc, depth: nat)
      requires d.children == [] ==> d.contentId != ""
      modifies this
      ensures Now() == Wrote(old(Now()), [EntryOfDoc(variant, d, |old(inventory)|, depth)])
    {
      var occurrence := Occurrence(variant, |inventory| + 1);
      var group := d.children != [];
      var target := if group then "](group:" + occurrence + ")" else "](page:" + occurrence + "/" + d.contentId + ")";
      var row := Indented(2 * depth) + ("- [" + d.caption + target);
      RowIsSpelled(EntryOfDoc(variant, d, |inventory|, depth), group, target, row);
      rows := rows + [row];
      inventory := inventory + [Item(occurrence, depth, !group)];
    }

    method Walk(docs: seq<Doc>, depth: nat)
      requires PagesHaveContent(docs)
      modifies this
      ensures Now() == Wrote(old(Now()), Listed(variant, docs, |old(inventory)|, depth))
      decreases Size(docs)
    {
      ghost var end := Wrote(Now(), Listed(variant, docs, |inventory|, depth));
      assert docs[0..] == docs;
      for i := 0 to |docs|
        invariant Wrote(Now(), Listed(variant, docs[i..], |inventory|, depth)) == end
      {
        ghost var before := Now();
        DocsAt(docs, i);
        Put(docs[i], depth);
        ghost var between := Now();
        Walk(Below(docs[i].children), depth + 1);
        OneMore(variant, docs, i, depth, before, between, Now());
      }
      WroteNothing(Now());
    }
  }

  /** A node, then those below it, then the rest. */
  lemma {:induction false} OneMore(variant: string, docs: seq<Doc>, i: nat, depth: nat, o: Output, o': Output,
                                   o'': Output)
    requires i < |docs| && o' == Wrote(o, [EntryOfDoc(variant, docs[i], |o.inventory|, depth)])
    requires o'' == Wrote(o', Listed(variant, Below(docs[i].children), |o'.inventory|, depth + 1))
    ensures Wrote(o'', Listed(variant, docs[i + 1..], |o''.inventory|, depth)) ==
            Wrote(o, Listed(variant, docs[i..], |o.inventory|, depth))
  {
    var e := EntryOfDoc(variant, docs[i], |o.inventory|, depth);
    var below := Listed(variant, Below(docs[i].children), |o'.inventory|, depth + 1);
    var rest := Listed(variant, docs[i + 1..], |o''.inventory|, depth);
    var all := Listed(variant, docs[i..], |o.inventory|, depth);
    OutputsGrow(o, e, o', below, o'');
    ListedCount(variant, Below(docs[i].children), |o'.inventory|, depth + 1);
    ListedCons(variant, docs[i..], docs[i], docs[i + 1..], |o.inventory|, |o''.inventory|, depth);
    OutputsJoin(o, e, o', below, o'', rest, all);
  }

  lemma {:induction false} OutputsGrow(o: Output, e: Entry, o': Output, a: seq<Entry>, o'': Output)
    requires o' == Wrote(o, [e]) && o'' == Wrote(o', a)
    ensures |o'.inventory| == |o.inventory| + 1 && |o''.inventory| == |o.inventory| + 1 + |a|
  {}

  lemma {:induction false} OutputsJoin(o: Output, e: Entry, o': Output, a: seq<Entry>, o'': Output, b: seq<Entry>,
                                       all: seq<Entry>)
    requires o' == Wrote(o, [e]) && o'' == Wrote(o', a) && all == [e] + a + b
    ensures Wrote(o'', b) == Wrote(o, all)
  {
    WroteTwice(o, [e], a);
    WroteTwice(o, [e] + a, b);
  }

  /** The entries printed, in order. */
  function Listed(variant: string, docs: seq<Doc>, n: nat, depth: nat): seq<Entry>
    decreases Size(docs)
  {
    if docs == [] then []
    else
      var below := Below(docs[0].children);
      [EntryOfDoc(variant, docs[0], n, depth)] + Listed(variant, below, n + 1, depth + 1)
          + Listed(variant, docs[1..], n + 1 + PrintedNodes(below), depth)
  }

  function EntryOfDoc(variant: string, d: Doc, n: nat, depth: nat): Entry
  {
    Entry(depth, Occurrence(variant, n + 1), d.caption, if d.children == [] then d.contentId else "")
  }

  lemma {:induction false} DocsAt(docs: seq<Doc>, i: nat)
    requires i < |docs| && PagesHaveContent(docs)
    ensures Size(Below(docs[i].children)) < Size(docs)
    ensures PagesHaveContent(Below(docs[i].children))
    ensures docs[i].children == [] ==> docs[i].contentId != ""
  {
    if i == 0 {
      BelowHasContent(docs[0].children);
    } else {
      DocsAt(docs[1..], i - 1);
    }
  }

  lemma {:induction false} ListedCons(variant: string, docs: seq<Doc>, d: Doc, rest: seq<Doc>, n: nat, m: nat,
                                      depth: nat)
    requires docs != [] && docs[0] == d && docs[1..] == rest && m == n + 1 + PrintedNodes(Below(d.children))
    ensures Listed(variant, docs, n, depth) ==
            [EntryOfDoc(variant, d, n, depth)] + Listed(variant, Below(d.children), n + 1, depth + 1)
            + Listed(variant, rest, m, depth)
  {
    ListedSplits(variant, docs, n, depth);
  }

  lemma {:induction false} RowIsSpelled(e: Entry, group: bool, target: string, row: string)
    requires group <==> e.contentId == ""
    requires target == if group then "](group:" + e.id + ")" else "](page:" + e.id + "/" + e.contentId + ")"
    requires row == Indented(2 * e.depth) + ("- [" + e.caption + target)
    ensures row == RowText(e)
  {
    assert "- [" + e.caption + target == Spell(LineOf(e));
  }

  lemma {:induction false} RowsConcat(a: seq<Entry>, b: seq<Entry>)
    ensures RowsOf(a + b) == RowsOf(a) + RowsOf(b) && ItemsOf(a + b) == ItemsOf(a) + ItemsOf(b)
  {}

  lemma {:induction false} ListingOf(n: Node, rest: seq<Node>, depth: nat)
    ensures Listing([n] + rest, depth) ==
            [Entry(depth, n.id, n.caption, n.contentId)] + Listing(n.children, depth + 1) + Listing(rest, depth)
  {
    assert ([n] + rest)[1..] == rest;
  }

  lemma {:induction false} ListedIsListing(variant: string, docs: seq<Doc>, n: nat, depth: nat)
    ensures Listed(variant, docs, n, depth) == Listing(Printed(variant, docs, n), depth)
    decreases Size(docs)
  {
    if docs != [] {
      var below := Below(docs[0].children);
      ListedIsListing(variant, below, n + 1, depth + 1);
      ListedIsListing(variant, docs[1..], n + 1 + PrintedNodes(below), depth);
      PrintedSplits(variant, docs, n);
      ListingOf(PrintedNode(variant, docs[0], n), PrintedRest(variant, docs, n), depth);
      ListedSplits(variant, docs, n, depth);
    }
  }

  lemma {:induction false} ListedSplits(variant: string, docs: seq<Doc>, n: nat, depth: nat)
    requires docs != []
    ensures var below := Below(docs[0].children);
            Listed(variant, docs, n, depth) ==
            [EntryOfDoc(variant, docs[0], n, depth)] + Listed(variant, below, n + 1, depth + 1)
                + Listed(variant, docs[1..], n + 1 + PrintedNodes(below), depth)
  {}

  function Join(rows: seq<string>): string
  {
    if rows == [] then "" else if |rows| == 1 then rows[0] else Join(rows[..|rows| - 1]) + "\n" + Last(rows)
  }

  const HEADING := "# Documentation"

  function Text(rows: seq<string>): string
  {
    HEADING + "\n\n" + Join(rows) + "\n"
  }

  /** What is printed for a forest. */
  function Rendered(variant: string, docs: seq<Doc>): string
  {
    Text(RowsOf(Listed(variant, docs, 0, 0)))
  }

  method Render(variant: string, docs: seq<Doc>) returns (text: string, inventory: seq<Item>)
    requires PagesHaveContent(docs)
    ensures text == Rendered(variant, docs) && inventory == ItemsOf(Listed(variant, docs, 0, 0))
  {
    var renderer := new Renderer(variant);
    renderer.Walk(docs, 0);
    WroteAll(Listed(variant, docs, 0, 0));
    text, inventory := Text(renderer.rows), renderer.inventory;
  }

  // --------------------------------------------------------- lines of the text

  lemma {:induction false} LinesOfLine(line: string, rest: string)
    requires '\n' !in line
    ensures Lines(line + "\n" + rest) == [line] + Lines(rest)
    ensures Lines(line) == [line]
  {
    var t := line + "\n" + rest;
    assert forall i :: 0 <= i < |line| ==> t[i] == line[i];
    FindIs(t, '\n', |line|);
    FindIs(line, '\n', |line|);
    assert t[..|line|] == line && t[|line| + 1..] == rest;
  }

  lemma {:induction false} LinesOfJoin(rows: seq<string>)
    requires rows != [] && forall i :: 0 <= i < |rows| ==> '\n' !in rows[i]
    ensures Lines(Join(rows) + "\n") == rows + [""]
  {
    LinesOfJoinFirst(rows);
    if |rows| == 1 {
      LinesOfLine(rows[0], "");
      assert rows[0] + "\n" + "" == Join(rows) + "\n";
      assert Lines("") == [""];
    } else {
      LinesOfJoin(rows[1..]);
      LinesOfLine(rows[0], Join(rows[1..]) + "\n");
      assert rows[0] + "\n" + (Join(rows[1..]) + "\n") == Join(rows) + "\n";
    }
  }

  lemma {:induction false} LinesOfJoinFirst(rows: seq<string>)
    requires rows != []
    ensures |rows| > 1 ==> Join(rows) == rows[0] + "\n" + Join(rows[1..])
  {
    if |rows| > 2 {
      LinesOfJoinFirst(rows[..|rows| - 1]);
      assert rows[..|rows| - 1][1..] == rows[1..][..|rows| - 2];
    }
  }

  lemma {:induction false} Spread(heading: string, body: string)
    ensures heading + "\n\n" + body + "\n" == heading + "\n" + ("" + "\n" + (body + "\n"))
    ensures '\n' in heading + "\n\n" + body + "\n"
  {
    assert "\n\n" == "\n" + "\n";
    assert (heading + "\n\n" + body + "\n")[|heading|] == '\n';
  }

  lemma {:induction false} LinesUnder(heading: string, rows: seq<string>)
    requires '\n' !in heading && rows != [] && forall i :: 0 <= i < |rows| ==> '\n' !in rows[i]
    ensures Lines(heading + "\n\n" + Join(rows) + "\n") == [heading, ""] + rows + [""]
  {
    var rest := Join(rows) + "\n";
    LinesOfJoin(rows);
    LinesOfLine("", rest);
    LinesOfLine(heading, "" + "\n" + rest);
    Spread(heading, Join(rows));
    TopFirst(heading, rows);
  }

  lemma {:induction false} TopFirst(heading: string, rows: seq<string>)
    ensures [heading] + ([""] + (rows + [""])) == [heading, ""] + rows + [""]
  {}
}
