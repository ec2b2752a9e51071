/** Parsing what was printed gives back what was shown. */
module MenuRoundTrip {
  import opened Common
  import opened Trees
  import opened MenuGrammar
  import opened Menus
  import opened MenuPreview
  import opened MenuRender

  // ------------------------------------------------------------------ documents

  /** What is shown can be written down: labels and content IDs in the grammar, and
      nothing nested too deep. */
  ghost predicate Printable(docs: seq<Doc>, depth: nat)
    decreases Size(docs)
  {
    docs != [] ==>
      && depth <= MAX_DEPTH && LabelText(docs[0].caption) && ServerTakes(docs[0].caption)
      && (docs[0].children == [] ==> Identifier(docs[0].contentId))
      && Printable(Below(docs[0].children), depth + 1)
      && Printable(docs[1..], depth)
  }

  /** Some group that is shown has only hidden children. */
  ghost predicate HidesAll(docs: seq<Doc>)
    decreases Size(docs)
  {
    && docs != []
    && ((docs[0].children != [] && Below(docs[0].children) == []) || HidesAll(Below(docs[0].children))
        || HidesAll(docs[1..]))
  }

  /** What a reader of the printed menu can know of the documents: hidden ones are
      gone, and groups have no content of their own. */
  function Visible(docs: seq<Doc>): seq<Doc>
    decreases Size(docs)
  {
    if docs == [] then []
    else
      var d := docs[0];
      [Doc(d.caption, if d.children == [] then d.contentId else "", false, Visible(Below(d.children)))]
          + Visible(docs[1..])
  }

  /** The same, read off a parsed forest. */
  function Documents(forest: seq<Node>): seq<Doc>
    decreases forest
  {
    if forest == [] then []
    else [Doc(forest[0].caption, forest[0].contentId, false, Documents(forest[0].children))] + Documents(forest[1..])
  }

  lemma {:induction false} PrintedIsVisible(variant: string, docs: seq<Doc>, n: nat)
    ensures Documents(Printed(variant, docs, n)) == Visible(docs)
    decreases Size(docs)
  {
    if docs != [] {
      var below := Below(docs[0].children);
      PrintedIsVisible(variant, below, n + 1);
      PrintedIsVisible(variant, docs[1..], n + 1 + PrintedNodes(below));
      PrintedSplits(variant, docs, n);
    }
  }

  lemma {:induction false} EmptyGroupOf(n: Node, rest: seq<Node>)
    ensures HasEmptyGroup([n] + rest) <==>
              (n.contentId == "" && n.children == []) || HasEmptyGroup(n.children) || HasEmptyGroup(rest)
  {
    assert ([n] + rest)[1..] == rest;
  }

  lemma {:induction false} PrintedIsEmpty(variant: string, docs: seq<Doc>, n: nat)
    ensures Printed(variant, docs, n) == [] <==> docs == []
  {
    if docs != [] { PrintedSplits(variant, docs, n); }
  }

  lemma {:induction false} EmptyGroupsAreHiding(variant: string, docs: seq<Doc>, n: nat, depth: nat)
    requires Printable(docs, depth)
    ensures HasEmptyGroup(Printed(variant, docs, n)) <==> HidesAll(docs)
    decreases Size(docs)
  {
    if docs == [] {
      assert Printed(variant, docs, n) == [];
    } else {
      var below := Below(docs[0].children);
      EmptyGroupsAreHiding(variant, below, n + 1, depth + 1);
      EmptyGroupsAreHiding(variant, docs[1..], n + 1 + PrintedNodes(below), depth);
      PrintedSplits(variant, docs, n);
      EmptyGroupOf(PrintedNode(variant, docs[0], n), PrintedRest(variant, docs, n));
      PrintedIsEmpty(variant, below, n + 1);
    }
  }

  // ------------------------------------------------------------------- entries

  ghost predicate EntryPrints(e: Entry)
  {
    && e.depth <= MAX_DEPTH && LabelText(e.caption) && ServerTakes(e.caption) && Identifier(e.id)
    && (e.contentId == "" || Identifier(e.contentId))
  }

  /** Entries follow each other from a depth on, numbered after n. */
  ghost predicate Numbered(variant: string, entries: seq<Entry>, n: nat)
  {
    forall i {:trigger entries[i].id} :: 0 <= i < |entries| ==> entries[i].id == Occurrence(variant, n + 1 + i)
  }

  ghost predicate DistinctEntries(entries: seq<Entry>)
  {
    forall i, j :: 0 <= i < j < |entries| ==> entries[i].id != entries[j].id
  }

  ghost predicate AllPrint(entries: seq<Entry>)
  {
    forall i {:trigger EntryPrints(entries[i])} :: 0 <= i < |entries| ==> EntryPrints(entries[i])
  }

  ghost predicate StepsFrom(entries: seq<Entry>, depth: nat)
  {
    && (entries != [] ==> entries[0].depth == depth)
    && (forall i :: 0 <= i < |entries| ==> entries[i].depth >= depth)
    && (forall i :: 0 < i < |entries| ==> entries[i].depth <= entries[i - 1].depth + 1)
  }

  lemma {:induction false} StepsJoin(e: Entry, a: seq<Entry>, b: seq<Entry>)
    requires StepsFrom(a, e.depth + 1) && StepsFrom(b, e.depth)
    ensures StepsFrom([e] + a + b, e.depth)
  {
    var all := [e] + a + b;
    forall i | 0 < i < |all| ensures all[i].depth <= all[i - 1].depth + 1 {
      if i > |a| + 1 { assert all[i] == b[i - 1 - |a|] && all[i - 1] == b[i - 2 - |a|]; }
    }
  }

  lemma {:induction false} NumberedJoin(variant: string, e: Entry, a: seq<Entry>, b: seq<Entry>, n: nat)
    requires e.id == Occurrence(variant, n + 1) && Numbered(variant, a, n + 1) && Numbered(variant, b, n + 1 + |a|)
    ensures Numbered(variant, [e] + a + b, n)
  {
    var all := [e] + a + b;
    forall i | 0 <= i < |all| ensures all[i].id == Occurrence(variant, n + 1 + i) {
      if 0 < i <= |a| {
        assert a[i - 1].id == Occurrence(variant, n + 1 + 1 + (i - 1));
      } else if i > |a| {
        assert b[i - 1 - |a|].id == Occurrence(variant, n + 1 + |a| + 1 + (i - 1 - |a|));
      }
    }
  }

  ghost predicate Written(variant: string, entries: seq<Entry>, n: nat, depth: nat)
  {
    AllPrint(entries) && Numbered(variant, entries, n) && StepsFrom(entries, depth)
  }

  lemma {:induction false} WrittenJoin(variant: string, all: seq<Entry>, e: Entry, a: seq<Entry>, b: seq<Entry>,
                                       n: nat, m: nat, depth: nat)
    requires all == [e] + a + b && m == n + 1 + |a| && e.depth == depth
    requires EntryPrints(e) && e.id == Occurrence(variant, n + 1)
    requires Written(variant, a, n + 1, depth + 1) && Written(variant, b, m, depth)
    ensures Written(variant, all, n, depth)
  {
    StepsJoin(e, a, b);
    NumberedJoin(variant, e, a, b, n);
    AllPrintJoin(e, a, b);
  }

  lemma {:induction false} DocPrints(variant: string, docs: seq<Doc>, n: nat, depth: nat)
    requires
      && Identifier(variant)
      && |variant| + 5 <= MAX_IDENTIFIER
      && docs != []
      && Printable(docs, depth)
      && n + 1 < 10000
    ensures EntryPrints(EntryOfDoc(variant, docs[0], n, depth))
  {
    OccurrenceIsIdentifier(variant, n + 1);
  }

  lemma {:induction false} PrintableParts(docs: seq<Doc>, n: nat, depth: nat)
    requires docs != [] && Printable(docs, depth) && n + PrintedNodes(docs) < 10000
    ensures Printable(Below(docs[0].children), depth + 1) && Printable(docs[1..], depth)
    ensures n + 1 + PrintedNodes(Below(docs[0].children)) + PrintedNodes(docs[1..]) < 10000
  {}

  lemma {:induction false} ListedPrintsStep(variant: string, docs: seq<Doc>, n: nat, m: nat, depth: nat)
    requires
      && docs != []
      && EntryPrints(EntryOfDoc(variant, docs[0], n, depth))
      && m == n + 1 + PrintedNodes(Below(docs[0].children))
    requires Written(variant, Listed(variant, Below(docs[0].children), n + 1, depth + 1), n + 1, depth + 1)
    requires Written(variant, Listed(variant, docs[1..], m, depth), m, depth)
    ensures Written(variant, Listed(variant, docs, n, depth), n, depth)
  {
    var e, a, b :=
        EntryOfDoc(variant, docs[0], n, depth), Listed(variant, Below(docs[0].children), n + 1, depth + 1),
        Listed(variant, docs[1..], m, depth);
    ListedCount(variant, Below(docs[0].children), n + 1, depth + 1);
    ListedSplits(variant, docs, n, depth);
    WrittenJoin(variant, Listed(variant, docs, n, depth), e, a, b, n, m, depth);
  }

  lemma {:induction false} ListedPrints(variant: string, docs: seq<Doc>, n: nat, depth: nat)
    requires
      && Identifier(variant)
      && |variant| + 5 <= MAX_IDENTIFIER
      && Printable(docs, depth)
      && n + PrintedNodes(docs) < 10000
    ensures Written(variant, Listed(variant, docs, n, depth), n, depth)
    decreases Size(docs)
  {
    if docs == [] {
      assert Listed(variant, docs, n, depth) == [];
    } else {
      var below, m := Below(docs[0].children), n + 1 + PrintedNodes(Below(docs[0].children));
      PrintableParts(docs, n, depth);
      ListedPrints(variant, below, n + 1, depth + 1);
      ListedPrints(variant, docs[1..], m, depth);
      DocPrints(variant, docs, n, depth);
      ListedPrintsStep(variant, docs, n, m, depth);
    }
  }

  lemma {:induction false} AllPrintJoin(e: Entry, a: seq<Entry>, b: seq<Entry>)
    requires EntryPrints(e) && AllPrint(a) && AllPrint(b)
    ensures AllPrint([e] + a + b)
  {
    var all := [e] + a + b;
    forall i | 0 <= i < |all| ensures EntryPrints(all[i]) {
      if 0 < i <= |a| {
        assert EntryPrints(a[i - 1]) && all[i] == a[i - 1];
      } else if i > |a| {
        assert EntryPrints(b[i - 1 - |a|]) && all[i] == b[i - 1 - |a|];
      }
    }
  }

  // ------------------------------------------------------------ scanning the rows

  ghost function IdsOf(entries: seq<Entry>): set<Id>
  {
    set i | 0 <= i < |entries| :: entries[i].id
  }

  lemma {:induction false} RowIsItem(e: Entry)
    requires EntryPrints(e)
    ensures
      && ItemLine(RowText(e), 2 * e.depth, LineOf(e))
      && EntryOf(e.depth, LineOf(e)) == e
      && RowText(e) != ""
      && '\n' !in RowText(e)
  {
    var m := LineOf(e);
    ItemEdges(RowText(e), 2 * e.depth, m);
    IndentedIsSpaces(2 * e.depth);
    assert forall c :: c in m.id ==> Word(c);
    assert m.content.Some? ==> forall c :: c in m.content.value ==> Word(c);
    assert forall c :: c in Opening(m.page) ==> c in "](page:group:";
    assert '\n' !in Spell(m);
  }

  /** Scanning one more row adds its entry. */
  lemma {:induction false} RowScans(s: Scan, e: Entry)
    requires EntryPrints(e) && e.id !in s.ids && |s.entries| < MAX_NODES && !TooSteep(s.entries, e.depth)
    ensures ScanLine(s, RowText(e)) == Parsed(s.(entries := s.entries + [e], ids := s.ids + {e.id}))
  {
    RowIsItem(e);
    ScanReads(s, RowText(e), 2 * e.depth, LineOf(e));
    EntryScans(s, e);
  }

  lemma {:induction false} EntryScans(s: Scan, e: Entry)
    requires EntryPrints(e) && e.id !in s.ids && |s.entries| < MAX_NODES && !TooSteep(s.entries, e.depth)
    ensures ItemScanned(s, 2 * e.depth, LineOf(e)) == Parsed(s.(entries := s.entries + [e], ids := s.ids + {e.id}))
  {
    assert 2 * e.depth / 2 == e.depth && 2 * e.depth % 2 == 0;
  }

  ghost function ScannedRows(entries: seq<Entry>): Scan
  {
    Scan(entries, IdsOf(entries), true)
  }

  lemma {:induction false} ScanMore(lines: seq<string>, line: string, s: Scan)
    requires ScanLines(lines) == Parsed(s)
    ensures ScanLines(lines + [line]) == ScanLine(s, line)
  {
    assert (lines + [line])[..|lines|] == lines && Last(lines + [line]) == line;
  }

  lemma {:induction false} RowScansNext(entries: seq<Entry>, k: nat)
    requires 0 < k <= |entries| <= MAX_NODES && EntryPrints(entries[k - 1]) && StepsFrom(entries, 0)
    requires DistinctEntries(entries)
    ensures ScanLine(ScannedRows(entries[..k - 1]), RowText(entries[k - 1])) == Parsed(ScannedRows(entries[..k]))
  {
    IdIsNew(entries, k);
    RowScans(ScannedRows(entries[..k - 1]), entries[k - 1]);
    assert entries[..k - 1] + [entries[k - 1]] == entries[..k];
    IdsGrow(entries, k);
  }

  lemma {:induction false} RowsScanOn(top: seq<string>, rows: seq<string>, k: nat, s: Scan, t: Scan)
    requires 0 < k <= |rows| && ScanLines(top + rows[..k - 1]) == Parsed(s) && ScanLine(s, rows[k - 1]) == Parsed(t)
    ensures ScanLines(top + rows[..k]) == Parsed(t)
  {
    TakeMore(top, rows, k);
    ScanMore(top + rows[..k - 1], rows[k - 1], s);
  }

  lemma {:induction false} RowsScan(top: seq<string>, entries: seq<Entry>, k: nat)
    requires ScanLines(top) == Parsed(ScannedRows([])) && k <= |entries| <= MAX_NODES
    requires AllPrint(entries) && StepsFrom(entries, 0) && DistinctEntries(entries)
    ensures ScanLines(top + RowsOf(entries)[..k]) == Parsed(ScannedRows(entries[..k]))
  {
    if k == 0 {
      TakeMore(top, RowsOf(entries), 0);
      assert entries[..0] == [];
    } else {
      var s, t := ScannedRows(entries[..k - 1]), ScannedRows(entries[..k]);
      RowsScan(top, entries, k - 1);
      assert ScanLine(s, RowsOf(entries)[k - 1]) == Parsed(t) by {
        assert EntryPrints(entries[k - 1]);
        RowScansNext(entries, k);
      }
      RowsScanOn(top, RowsOf(entries), k, s, t);
    }
  }

  lemma {:induction false} TakeMore(top: seq<string>, rows: seq<string>, k: nat)
    requires k <= |rows|
    ensures k == 0 ==> top + rows[..k] == top
    ensures k > 0 ==> top + rows[..k] == top + rows[..k - 1] + [rows[k - 1]]
  {}

  lemma {:induction false} IdsGrow(entries: seq<Entry>, k: nat)
    requires 0 < k <= |entries|
    ensures IdsOf(entries[..k - 1]) + {entries[k - 1].id} == IdsOf(entries[..k])
  {
    forall id | id in IdsOf(entries[..k]) ensures id in IdsOf(entries[..k - 1]) + {entries[k - 1].id} {
      var i :| 0 <= i < k && entries[..k][i].id == id;
      assert i < k - 1 ==> entries[..k - 1][i].id == id;
    }
    forall id | id in IdsOf(entries[..k - 1]) ensures id in IdsOf(entries[..k]) {
      var i :| 0 <= i < k - 1 && entries[..k - 1][i].id == id;
      assert entries[..k][i].id == id;
    }
    assert entries[..k][k - 1].id == entries[k - 1].id;
  }

  lemma {:induction false} IdIsNew(entries: seq<Entry>, k: nat)
    requires 0 < k <= |entries| && DistinctEntries(entries)
    ensures entries[k - 1].id !in IdsOf(entries[..k - 1])
  {}

  lemma {:induction false} TopScans(heading: string)
    requires HeadingLine(heading) && heading != ""
    ensures ScanLines([heading, ""]) == Parsed(ScannedRows([]))
  {
    var s := ScanLines([heading]);
    OneLine(heading);
    assert TrimRight(heading) == heading;
    assert [heading, ""][..1] == [heading];
    assert IdsOf([]) == {};
  }

  lemma {:induction false} LastBlank(lines: seq<string>)
    ensures ScanLines(lines + [""]) == ScanLines(lines)
  {
    assert (lines + [""])[..|lines|] == lines;
  }

  lemma {:induction false} NumbersDiffer(variant: string, all: seq<Entry>)
    requires Numbered(variant, all, 0)
    ensures DistinctEntries(all)
  {
    forall i, j | 0 <= i < j < |all| ensures all[i].id != all[j].id {
      if all[i].id == all[j].id { OccurrencesDiffer(variant, 1 + i, 1 + j); }
    }
  }

  lemma {:induction false} ListedFacts(variant: string, docs: seq<Doc>)
    requires
      && Identifier(variant)
      && |variant| + 5 <= MAX_IDENTIFIER
      && Printable(docs, 0)
      && PrintedNodes(docs) <= MAX_NODES
    ensures var all := Listed(variant, docs, 0, 0);
            && |all| == PrintedNodes(docs) && AllPrint(all) && StepsFrom(all, 0)
            && DistinctEntries(all)
  {
    var all := Listed(variant, docs, 0, 0);
    ListedPrints(variant, docs, 0, 0);
    ListedCount(variant, docs, 0, 0);
    NumbersDiffer(variant, all);
  }

  lemma {:induction false} TextScans(heading: string, all: seq<Entry>)
    requires 0 < |all| <= MAX_NODES && AllPrint(all) && StepsFrom(all, 0) && DistinctEntries(all)
    requires HeadingLine(heading) && '\n' !in heading
    ensures ScanLines(Lines(heading + "\n\n" + Join(RowsOf(all)) + "\n")) == Parsed(ScannedRows(all))
  {
    var rows := RowsOf(all);
    forall i | 0 <= i < |rows| ensures '\n' !in rows[i] {
      assert EntryPrints(all[i]);
      RowIsItem(all[i]);
    }
    LinesUnder(heading, rows);
    TopScans(heading);
    RowsScan([heading, ""], all, |all|);
    assert rows[..|all|] == rows && all[..|all|] == all;
    LastBlank([heading, ""] + rows);
  }

  /** The printed text scans into the listing of the printed forest. */
  lemma {:induction false} RenderedScans(variant: string, docs: seq<Doc>)
    requires
      && Identifier(variant)
      && |variant| + 5 <= MAX_IDENTIFIER
      && docs != []
      && Printable(docs, 0)
      && PrintedNodes(docs) <= MAX_NODES
    ensures var all := Listing(Printed(variant, docs, 0), 0);
            ScanLines(Lines(Rendered(variant, docs))) == Parsed(ScannedRows(all)) && all != [] && DistinctEntries(all)
    ensures '\n' in Rendered(variant, docs)
  {
    HeadingHolds();
    ListedFacts(variant, docs);
    TextScans(HEADING, Listed(variant, docs, 0, 0));
    Spread(HEADING, Join(RowsOf(Listed(variant, docs, 0, 0))));
    ListedIsListing(variant, docs, 0, 0);
  }

  /** Printing and parsing. The server takes the printed menu exactly when no shown
      group has only hidden children; the parser can only return the printed forest,
      with every shown page and group in its place, and occurrence IDs never repeat. */
  lemma {:induction false} ParseUndoesRender(variant: string, docs: seq<Doc>, parsed: seq<Node>)
    requires
      && Identifier(variant)
      && |variant| + 5 <= MAX_IDENTIFIER
      && docs != []
      && Printable(docs, 0)
      && PrintedNodes(docs) <= MAX_NODES
    requires Utf8Length(Rendered(variant, docs)) <= MAX_TREE_BYTES
    ensures AcceptedText(Rendered(variant, docs)) <==> !HidesAll(docs)
    ensures var s := ScanLines(Lines(Rendered(variant, docs)));
            && s.Parsed?
            && (Listing(parsed, 0) == s.value.entries ==>
                parsed == Printed(variant, docs, 0) && Documents(parsed) == Visible(docs))
    ensures DistinctEntries(Listing(Printed(variant, docs, 0), 0))
  {
    RenderedScans(variant, docs);
    EmptyGroupsAreHiding(variant, docs, 0, 0);
    var printed := Printed(variant, docs, 0);
    EmptyGroupShows(printed, 0);
    PrintedIsVisible(variant, docs, 0);
    if Listing(parsed, 0) == Listing(printed, 0) {
      ListingDetermines(parsed, printed, 0);
    }
  }

  /** The inventory lists what the server reads from the text: the same occurrences at the
      same depths, and as selectable those with content. */
  lemma {:induction false} InventoryIsOfTheText(variant: string, docs: seq<Doc>)
    requires
      && Identifier(variant)
      && |variant| + 5 <= MAX_IDENTIFIER
      && docs != []
      && Printable(docs, 0)
      && PrintedNodes(docs) <= MAX_NODES
    requires Utf8Length(Rendered(variant, docs)) <= MAX_TREE_BYTES
    ensures ScanLines(Lines(Rendered(variant, docs))).Parsed?
    ensures var inventory, entries :=
              ItemsOf(Listed(variant, docs, 0, 0)), ScanLines(Lines(Rendered(variant, docs))).value.entries;
            && |inventory| == |entries|
            && forall k :: 0 <= k < |entries| ==>
                 && inventory[k].occurrence == entries[k].id && inventory[k].depth == entries[k].depth
                 && (inventory[k].selectable <==> entries[k].contentId != "")
  {
    RenderedScans(variant, docs);
    ListedIsListing(variant, docs, 0, 0);
  }

  lemma {:induction false} HeadingHolds()
    ensures HeadingLine(HEADING) && '\n' !in HEADING
  {}

  // --------------------------------------------------------- without hidden nodes

  ghost predicate NoneHidden(docs: seq<Doc>)
    decreases docs
  {
    docs != [] ==> !docs[0].hidden && NoneHidden(docs[0].children) && NoneHidden(docs[1..])
  }

  /** Groups are written without content. */
  ghost predicate GroupsAreBare(docs: seq<Doc>)
    decreases docs
  {
    docs != [] ==>
        (docs[0].children != [] ==> docs[0].contentId == "") && GroupsAreBare(docs[0].children)
        && GroupsAreBare(docs[1..])
  }

  lemma {:induction false} NoneHiddenBelow(docs: seq<Doc>)
    requires NoneHidden(docs)
    ensures Below(docs) == docs
  {
    if docs != [] { NoneHiddenBelow(docs[1..]); }
  }

  lemma {:induction false} AllVisible(docs: seq<Doc>)
    requires NoneHidden(docs)
    ensures !HidesAll(docs)
    ensures GroupsAreBare(docs) ==> Visible(docs) == docs
    decreases docs
  {
    if docs != [] {
      NoneHiddenBelow(docs[0].children);
      AllVisible(docs[0].children);
      AllVisible(docs[1..]);
      assert docs == [docs[0]] + docs[1..];
    }
  }

  /** A forest without hidden nodes always comes back: same shape, order, labels and
      content of its pages. */
  lemma {:induction false} RoundTrip(variant: string, docs: seq<Doc>, parsed: seq<Node>)
    requires
      && Identifier(variant)
      && |variant| + 5 <= MAX_IDENTIFIER
      && docs != []
      && Printable(docs, 0)
      && PrintedNodes(docs) <= MAX_NODES
    requires Utf8Length(Rendered(variant, docs)) <= MAX_TREE_BYTES && NoneHidden(docs) && GroupsAreBare(docs)
    ensures AcceptedText(Rendered(variant, docs))
    ensures Listing(parsed, 0) == ScanLines(Lines(Rendered(variant, docs))).value.entries ==> Documents(parsed) == docs
  {
    ParseUndoesRender(variant, docs, parsed);
    AllVisible(docs);
  }
}
