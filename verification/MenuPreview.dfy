/** The browser's preview of a menu: a single pass with a stack of open items, which
    only warns. On well-formed lines it is silent exactly when the server accepts,
    and then shows the same forest. */
module MenuPreview {
  import opened Common
  import opened Trees
  import opened MenuGrammar
  import opened Menus

  datatype Warning =
    | UnlistedLine(line: nat)
    | Indentation(line: nat)
    | Caption(line: nat)
    | Identifiers(line: nat)
    | Repeated(line: nat)
    | EmptyGroups
    | NoItems

  /** An item still open for children, with the children closed so far. */
  datatype Frame = Frame(indent: nat, node: Node)

  datatype Preview = Preview(roots: seq<Node>, stack: seq<Frame>, ids: set<Id>, heading: bool, warnings: seq<Warning>)

  const NOTHING_SHOWN := Preview([], [], {}, false, [])

  function TrimBrowser(s: string): string
  {
    if s != "" && BrowserSpace(Last(s)) then TrimBrowser(s[..|s| - 1]) else s
  }

  predicate BrowserLabel(s: string)
  {
    s != "" && !BrowserSpace(s[0]) && !BrowserSpace(Last(s)) && |s| <= MAX_CAPTION
  }

  function WithChild(n: Node, child: Node): Node
  {
    n.(children := n.children + [child])
  }

  /** The top item is closed: it joins its parent or the roots. */
  function Close(p: Preview): Preview
    requires p.stack != []
  {
    var n, top := |p.stack| - 1, Last(p.stack).node;
    if n == 0 then p.(roots := p.roots + [top], stack := [])
    else p.(stack := p.stack[..n - 1] + [p.stack[n - 1].(node := WithChild(p.stack[n - 1].node, top))])
  }

  function CloseFrom(p: Preview, indent: nat): Preview
    decreases |p.stack|
  {
    if p.stack != [] && Last(p.stack).indent >= indent then CloseFrom(Close(p), indent) else p
  }

  function WarnIf(wrong: bool, w: Warning): seq<Warning>
  {
    if wrong then [w] else []
  }

  predicate WrongIndent(stack: seq<Frame>, indent: nat)
  {
    indent % 2 != 0 || indent > 2 * MAX_DEPTH || (if stack == [] then indent != 0 else indent > Last(stack).indent + 2)
  }

  function ItemWarnings(p: Preview, n: nat, indent: nat, m: MenuLine): seq<Warning>
  {
    WarnIf(WrongIndent(p.stack, indent), Indentation(n))
    + WarnIf(!BrowserLabel(m.caption), Caption(n))
    + WarnIf((!m.page && m.content.Some?) || (m.page && m.content.None?), Identifiers(n))
    + WarnIf(m.id in p.ids, Repeated(n))
  }

  function ItemNode(m: MenuLine): Node
  {
    Node(m.id, m.caption, if m.page && m.content.Some? then m.content.value else "", [])
  }

  function ShowItem(p: Preview, n: nat, indent: nat, m: MenuLine): Preview
  {
    var closed := CloseFrom(p, indent);
    closed.(stack := closed.stack + [Frame(indent, ItemNode(m))], ids := p.ids + {m.id},
            warnings := p.warnings + ItemWarnings(p, n, indent, m))
  }

  /** Line n of the text, without its line break. */
  function ShowLine(p: Preview, n: nat, raw: string): Preview
  {
    var line := TrimBrowser(raw);
    if line == "" then p
    else if "# " <= raw && !p.heading && p.roots == [] && p.stack == [] then p.(heading := true)
    else
      var m := Match(line[Spaces(line)..]);
      if m.None? then p.(warnings := p.warnings + [UnlistedLine(n)]) else ShowItem(p, n, Spaces(line), m.value)
  }

  function ShowLines(lines: seq<string>): Preview
  {
    if lines == [] then NOTHING_SHOWN else ShowLine(ShowLines(lines[..|lines| - 1]), |lines|, Last(lines))
  }

  /** The carriage return that belongs to a line break. */
  function BrowserLines(text: string): seq<string>
  {
    var lines := Lines(text);
    seq(|lines|, i requires 0 <= i < |lines| =>
      if i < |lines| - 1 && lines[i] != "" && Last(lines[i]) == '\r' then lines[i][..|lines[i]| - 1] else lines[i])
  }

  /** What previewTree returns: the forest and the warnings. */
  function PreviewOf(lines: seq<string>): (seq<Node>, seq<Warning>)
  {
    var p := ShowLines(lines);
    var nodes := CloseFrom(p, 0).roots;
    (nodes, p.warnings + WarnIf(HasEmptyGroup(nodes), EmptyGroups) + WarnIf(nodes == [], NoItems))
  }

  method PreviewTree(text: string) returns (nodes: seq<Node>, warnings: seq<Warning>)
    ensures (nodes, warnings) == PreviewOf(BrowserLines(text))
  {
    var lines := BrowserLines(text);
    var roots: seq<Node>, stack: seq<Frame>, ids: set<Id>, heading := [], [], {}, false;
    warnings := [];
    for i := 0 to |lines|
      invariant Preview(roots, stack, ids, heading, warnings) == ShowLines(lines[..i])
    {
      assert lines[..i + 1][..i] == lines[..i] && Last(lines[..i + 1]) == lines[i];
      var line := TrimBrowser(lines[i]);
      if line == "" { continue; }
      if "# " <= lines[i] && !heading && roots == [] && stack == [] {
        heading := true;
        continue;
      }
      var indent := Spaces(line);
      var matched := Match(line[indent..]);
      if matched.None? {
        warnings := warnings + [UnlistedLine(i + 1)];
        continue;
      }
      var m := matched.value;
      warnings := warnings + ItemWarnings(Preview(roots, stack, ids, heading, warnings), i + 1, indent, m);
      ids := ids + {m.id};
      roots, stack := CloseItems(roots, stack, ids, heading, warnings, indent);
      stack := stack + [Frame(indent, ItemNode(m))];
      CloseKeepsRest(ShowLines(lines[..i]), indent, ids, warnings);
    }
    assert lines[..|lines|] == lines;
    CloseKeepsRest(ShowLines(lines), 0, ids, warnings);
    nodes, stack := CloseItems(roots, stack, ids, heading, warnings, 0);
    warnings := warnings + WarnIf(HasEmptyGroup(nodes), EmptyGroups) + WarnIf(nodes == [], NoItems);
  }

  /** The inner loop: items at this indentation or deeper are closed. */
  method CloseItems(roots: seq<Node>, stack: seq<Frame>, ghost ids: set<Id>, ghost heading: bool,
                    ghost warnings: seq<Warning>, indent: nat) returns (roots': seq<Node>, stack': seq<Frame>)
    ensures Preview(roots', stack', ids, heading, warnings) ==
            CloseFrom(Preview(roots, stack, ids, heading, warnings), indent)
  {
    roots', stack' := roots, stack;
    while stack' != [] && Last(stack').indent >= indent
      invariant CloseFrom(Preview(roots', stack', ids, heading, warnings), indent) ==
                CloseFrom(Preview(roots, stack, ids, heading, warnings), indent)
      decreases |stack'|
    {
      var n, top := |stack'| - 1, Last(stack').node;
      if n == 0 {
        roots', stack' := roots' + [top], [];
      } else {
        stack' := stack'[..n - 1] + [stack'[n - 1].(node := WithChild(stack'[n - 1].node, top))];
      }
    }
  }

  lemma {:induction false} CloseKeepsRest(p: Preview, indent: nat, ids: set<Id>, warnings: seq<Warning>)
    ensures
      && CloseFrom(p, indent).ids == p.ids
      && CloseFrom(p, indent).heading == p.heading
      && CloseFrom(p, indent).warnings == p.warnings
    ensures CloseFrom(p.(ids := ids, warnings := warnings), indent) ==
            CloseFrom(p, indent).(ids := ids, warnings := warnings)
    decreases |p.stack|
  {
    if p.stack != [] && Last(p.stack).indent >= indent {
      CloseKeepsRest(Close(p), indent, ids, warnings);
    }
  }

  // ---------------------------------------------------- the stack is a right edge

  /** The open items, each below the one before it. */
  function OpenListing(stack: seq<Frame>, depth: nat): seq<Entry>
  {
    if stack == [] then []
    else
      var n := stack[0].node;
      [Entry(depth, n.id, n.caption, n.contentId)] + Listing(n.children, depth + 1) + OpenListing(stack[1..], depth + 1)
  }

  ghost predicate Regular(stack: seq<Frame>)
  {
    forall k :: 0 <= k < |stack| ==> stack[k].indent == 2 * k
  }

  /** Everything shown so far, in order. */
  ghost function Shown(p: Preview): seq<Entry>
  {
    Listing(p.roots, 0) + OpenListing(p.stack, 0)
  }

  lemma {:induction false} OpenAppend(a: seq<Frame>, b: seq<Frame>, depth: nat)
    ensures OpenListing(a + b, depth) == OpenListing(a, depth) + OpenListing(b, depth + |a|)
  {
    if a == [] {
      assert a + b == b;
    } else {
      assert (a + b)[1..] == a[1..] + b;
      OpenAppend(a[1..], b, depth + 1);
    }
  }

  /** An open item with one open item below it lists as the item with that child. */
  lemma {:induction false} CloseLists(f: Frame, top: Node, indent: nat, depth: nat)
    ensures OpenListing([f, Frame(indent, top)], depth) == OpenListing([f.(node := WithChild(f.node, top))], depth)
  {
    var n := f.node;
    ListingAppend(n.children, [top], depth + 1);
    assert [f, Frame(indent, top)][1..] == [Frame(indent, top)];
    assert Listing([top], depth + 1) == OpenListing([Frame(indent, top)], depth + 1);
  }

  lemma {:induction false} CloseKeepsShown(p: Preview)
    requires p.stack != []
    ensures Shown(Close(p)) == Shown(p) && |Close(p).stack| == |p.stack| - 1
    ensures Regular(p.stack) ==> Regular(Close(p).stack) && Last(p.stack).indent == 2 * (|p.stack| - 1)
  {
    var n, top := |p.stack| - 1, Last(p.stack);
    if n == 0 {
      ListingAppend(p.roots, [top.node], 0);
      assert p.stack == [top];
      assert Listing([top.node], 0) == OpenListing([top], 0);
    } else {
      TopJoins(p.stack);
    }
  }

  /** Closing the top item under another leaves the open items' listing as it is. */
  lemma {:induction false} TopJoins(stack: seq<Frame>)
    requires |stack| > 1
    ensures var n := |stack| - 1; var f := stack[n - 1];
            OpenListing(stack[..n - 1] + [f.(node := WithChild(f.node, stack[n].node))], 0) == OpenListing(stack, 0)
  {
    var n := |stack| - 1;
    var below, f, top := stack[..n - 1], stack[n - 1], stack[n];
    assert stack == below + [f, top];
    OpenAppend(below, [f, top], 0);
    OpenAppend(below, [f.(node := WithChild(f.node, top.node))], 0);
    CloseLists(f, top.node, top.indent, n - 1);
  }

  lemma {:induction false} ClosingKeepsShown(p: Preview, depth: nat)
    requires Regular(p.stack)
    ensures var c := CloseFrom(p, 2 * depth);
            Shown(c) == Shown(p) && Regular(c.stack) && |c.stack| == if depth < |p.stack| then depth else |p.stack|
    decreases |p.stack|
  {
    if p.stack != [] {
      CloseKeepsShown(p);
      if Last(p.stack).indent >= 2 * depth {
        ClosingKeepsShown(Close(p), depth);
      }
    }
  }

  lemma {:induction false} OpenAlone(top: Frame, depth: nat)
    ensures var n := top.node;
            OpenListing([top], depth) == [Entry(depth, n.id, n.caption, n.contentId)] + Listing(n.children, depth + 1)
  {
    assert [top][1..] == [] && OpenListing([], depth + 1) == [];
  }

  lemma {:induction false} RegularGrows(stack: seq<Frame>, n: Node)
    requires Regular(stack)
    ensures Regular(stack + [Frame(2 * |stack|, n)])
    ensures OpenListing(stack + [Frame(2 * |stack|, n)], 0) ==
            OpenListing(stack, 0) + [Entry(|stack|, n.id, n.caption, n.contentId)] + Listing(n.children, |stack| + 1)
  {
    var top := Frame(2 * |stack|, n);
    OpenAppend(stack, [top], 0);
    OpenAlone(top, |stack|);
  }

  lemma {:induction false} PushShows(p: Preview, n: nat, depth: nat, m: MenuLine)
    requires Regular(p.stack) && depth <= |p.stack| && (m.content.Some? ==> m.page)
    ensures var q := ShowItem(p, n, 2 * depth, m);
            && Regular(q.stack) && |q.stack| == depth + 1 && Shown(q) == Shown(p) + [EntryOf(depth, m)]
  {
    ClosingKeepsShown(p, depth);
    RegularGrows(CloseFrom(p, 2 * depth).stack, ItemNode(m));
  }

  // ------------------------------------------------- agreement with the server

  /** What the server makes of a label inside a line: a tab refuses the line. */
  predicate ServerTakes(s: string)
  {
    ServerLabel(s) && '\t' !in s
  }

  predicate EdgeIs(s: string, c: char)
  {
    s != "" && (s[0] == c || Last(s) == c)
  }

  /** Refused by the server alone. */
  predicate ServerOnly(s: string)
  {
    EdgeIs(s, '\U{0085}') || exists i :: 0 <= i < |s| && s[i] in "\0\t\r\n"
  }

  /** Labels the two implementations judge alike: refused by both, or with neither a
      peculiarity of the server nor one of the browser, or with both. */
  predicate PlainLabel(s: string)
  {
    && s != ""
    && (|s| > MAX_CAPTION || AnySpace(s[0]) || AnySpace(Last(s)) || (ServerOnly(s) <==> EdgeIs(s, '\U{FEFF}')))
  }

  lemma {:induction false} LabelsAgree(s: string)
    requires s != ""
    ensures (BrowserLabel(s) <==> ServerTakes(s)) <==> PlainLabel(s)
  {}

  // ------------------------------------------------------------- lines in common

  function Indented(spaces: nat): string
  {
    if spaces == 0 then "" else " " + Indented(spaces - 1)
  }

  /** A well-formed item behind some indentation. */
  ghost predicate ItemLine(line: string, spaces: nat, m: MenuLine)
  {
    WellFormed(m) && line == Indented(spaces) + Spell(m)
  }

  predicate HeadingLine(line: string)
  {
    "# " <= line && '\t' !in line && Last(line) !in " \r"
  }

  /** Nothing but spaces. */
  predicate BlankLine(line: string)
  {
    forall i :: 0 <= i < |line| ==> line[i] == ' '
  }

  /** A line both sides can read: blank, a heading, or an item with any label. */
  ghost predicate Readable(line: string)
  {
    BlankLine(line) || HeadingLine(line) || exists spaces: nat, m :: ItemLine(line, spaces, m)
  }

  ghost predicate AllReadable(lines: seq<string>)
  {
    forall i {:trigger Readable(lines[i])} :: 0 <= i < |lines| ==> Readable(lines[i])
  }

  /** A readable line whose label, if it has one, both sides judge alike. */
  ghost predicate CleanLine(line: string)
  {
    BlankLine(line) || HeadingLine(line) || exists spaces: nat, m :: ItemLine(line, spaces, m) && PlainLabel(m.caption)
  }

  ghost predicate Clean(lines: seq<string>)
  {
    forall i {:trigger CleanLine(lines[i])} :: 0 <= i < |lines| ==> CleanLine(lines[i])
  }

  lemma {:induction false} BlankTrims(line: string)
    requires BlankLine(line)
    ensures TrimRight(line) == "" && TrimBrowser(line) == "" && '\t' !in line && !("# " <= line)
  {
    if line != "" { BlankTrims(line[..|line| - 1]); }
  }

  lemma {:induction false} ItemIsNotBlank(line: string, spaces: nat, m: MenuLine)
    requires ItemLine(line, spaces, m)
    ensures !BlankLine(line)
  {
    ItemEdges(line, spaces, m);
    assert line[|line| - 1] == ')';
  }

  function Items(lines: seq<string>): nat
  {
    if lines == [] then 0
    else Items(lines[..|lines| - 1]) + if BlankLine(Last(lines)) || "# " <= Last(lines) then 0 else 1
  }

  lemma {:induction false} SpacesOfIndented(spaces: nat, t: string)
    requires t != "" && t[0] != ' '
    ensures Spaces(Indented(spaces) + t) == spaces == |Indented(spaces)|
    ensures (Indented(spaces) + t)[spaces..] == t
  {
    if spaces == 0 {
      assert Indented(0) + t == t;
    } else {
      SpacesOfIndented(spaces - 1, t);
      assert (Indented(spaces) + t)[1..] == Indented(spaces - 1) + t;
    }
  }

  lemma {:induction false} IndentedIsSpaces(spaces: nat)
    ensures |Indented(spaces)| == spaces && forall i :: 0 <= i < spaces ==> Indented(spaces)[i] == ' '
  {
    if spaces > 0 {
      IndentedIsSpaces(spaces - 1);
    }
  }

  lemma {:induction false} EndsProperly(line: string)
    requires line != "" && Last(line) == ')'
    ensures TrimRight(line) == line && TrimBrowser(line) == line
  {}

  lemma {:induction false} ItemEdges(line: string, spaces: nat, m: MenuLine)
    requires ItemLine(line, spaces, m)
    ensures line != "" && !("# " <= line) && Last(line) == ')'
    ensures Spaces(line) == spaces && line[spaces..] == Spell(m)
  {
    var t := Spell(m);
    SpellingParts(m);
    SpacesOfIndented(spaces, t);
    IndentedIsSpaces(spaces);
    assert t[0] == '-' && Last(t) == ')';
    assert line[0] == if spaces == 0 then t[0] else Indented(spaces)[0];
    assert Last(line) == Last(t);
  }

  /** Both sides read the same item from a line. */
  lemma {:induction false} ItemIsRead(line: string, spaces: nat, m: MenuLine)
    requires ItemLine(line, spaces, m)
    ensures line != "" && !("# " <= line) && TrimRight(line) == line && TrimBrowser(line) == line
    ensures Spaces(line) == spaces && Match(line[spaces..]) == Some(m)
  {
    ItemEdges(line, spaces, m);
    EndsProperly(line);
    MatchReadsSpelling(Spell(m), m);
  }

  /** What the server does with an item line. */
  function ItemScanned(s: Scan, spaces: nat, m: MenuLine): Parsed<Scan>
  {
    if '\t' in m.caption then Malformed(TabNotAllowed)
    else if spaces % 2 != 0 then Malformed(OddIndentation)
    else if spaces / 2 > MAX_DEPTH then Malformed(TooDeep)
    else if TooSteep(s.entries, spaces / 2) then Malformed(SkipsLevel)
    else ScanItem(s, spaces / 2, m)
  }

  /** So each side does with the line what it does with the item. */
  lemma {:induction false} ItemShown(p: Preview, s: Scan, n: nat, line: string, spaces: nat, m: MenuLine)
    requires ItemLine(line, spaces, m)
    ensures ShowLine(p, n, line) == ShowItem(p, n, spaces, m)
    ensures ScanLine(s, line) == ItemScanned(s, spaces, m)
  {
    ItemIsRead(line, spaces, m);
    ScanReads(s, line, spaces, m);
  }

  lemma {:induction false} ScanReads(s: Scan, line: string, spaces: nat, m: MenuLine)
    requires ItemLine(line, spaces, m)
    ensures ScanLine(s, line) == ItemScanned(s, spaces, m)
  {
    ItemIsRead(line, spaces, m);
    ItemTabs(line, spaces, m);
    ReadIsScanned(s, line, spaces, m);
  }

  lemma {:induction false} ReadIsScanned(s: Scan, line: string, spaces: nat, m: MenuLine)
    requires line != "" && !("# " <= line) && TrimRight(line) == line
    requires Spaces(line) == spaces && Match(line[spaces..]) == Some(m)
    requires '\t' in line <==> '\t' in m.caption
    ensures ScanLine(s, line) == ItemScanned(s, spaces, m)
  {}

  lemma {:induction false} SpellingTabs(m: MenuLine)
    requires WellFormed(m)
    ensures '\t' in Spell(m) <==> '\t' in m.caption
  {
    var before, after := "- [", Opening(m.page) + (m.id + Tail(m.content)) + ")";
    assert Spell(m) == before + m.caption + after;
    assert forall i :: 0 <= i < |m.id| ==> Word(m.id[i]);
    assert m.content.Some? ==> forall i :: 0 <= i < |m.content.value| ==> Word(m.content.value[i]);
    assert forall c :: c in m.id + Tail(m.content) ==> Word(c) || c == '/';
    assert forall c :: c in Opening(m.page) ==> c in "](page:group:";
    assert '\t' !in after;
  }

  lemma {:induction false} ItemTabs(line: string, spaces: nat, m: MenuLine)
    requires ItemLine(line, spaces, m)
    ensures '\t' in line <==> '\t' in m.caption
  {
    SpellingTabs(m);
    IndentedIsSpaces(spaces);
  }

  // --------------------------------------------------------------- step by step

  /** The preview is silent so far and shows what the server has scanned. */
  ghost predicate InStep(p: Preview, s: Scan)
  {
    && p.warnings == [] && p.ids == s.ids && p.heading == s.heading && Regular(p.stack) && Shown(p) == s.entries
    && (s.entries == [] <==> p.stack == []) && (p.stack == [] ==> p.roots == [])
    && (p.stack != [] ==> Last(s.entries).depth == |p.stack| - 1)
  }

  /** Silent exactly when accepted, and then still in step. */
  ghost predicate Agrees(p: Preview, r: Parsed<Scan>)
  {
    (p.warnings == [] <==> r.Parsed?) && (r.Parsed? ==> InStep(p, r.value))
  }

  lemma {:induction false} ItemSilent(p: Preview, s: Scan, n: nat, spaces: nat, m: MenuLine)
    requires InStep(p, s) && WellFormed(m) && PlainLabel(m.caption) && |s.entries| < MAX_NODES
    ensures ShowItem(p, n, spaces, m).warnings == [] <==> ItemScanned(s, spaces, m).Parsed?
  {
    LabelsAgree(m.caption);
    CloseKeepsRest(p, spaces, p.ids, p.warnings);
    if spaces % 2 == 0 {
      assert spaces == 2 * (spaces / 2);
      IndentsAgree(p.stack, s.entries, spaces / 2);
    }
  }

  lemma {:induction false} ItemInStep(p: Preview, s: Scan, n: nat, spaces: nat, m: MenuLine)
    requires InStep(p, s) && ItemScanned(s, spaces, m).Parsed? && ShowItem(p, n, spaces, m).warnings == []
    ensures InStep(ShowItem(p, n, spaces, m), ItemScanned(s, spaces, m).value)
  {
    var depth := spaces / 2;
    assert spaces == 2 * depth;
    PushShows(p, n, depth, m);
    CloseKeepsRest(p, spaces, p.ids, p.warnings);
  }

  /** One item: no warning exactly when the server takes it. */
  lemma {:induction false} ItemStep(p: Preview, s: Scan, n: nat, spaces: nat, m: MenuLine)
    requires InStep(p, s) && WellFormed(m) && PlainLabel(m.caption) && |s.entries| < MAX_NODES
    ensures Agrees(ShowItem(p, n, spaces, m), ItemScanned(s, spaces, m))
  {
    ItemSilent(p, s, n, spaces, m);
    if ItemScanned(s, spaces, m).Parsed? {
      ItemInStep(p, s, n, spaces, m);
    }
  }

  lemma {:induction false} IndentsAgree(stack: seq<Frame>, entries: seq<Entry>, depth: nat)
    requires Regular(stack) && (entries == [] <==> stack == []) && (stack != [] ==> Last(entries).depth == |stack| - 1)
    ensures WrongIndent(stack, 2 * depth) <==> depth > MAX_DEPTH || TooSteep(entries, depth)
    ensures !TooSteep(entries, depth) ==> depth <= |stack|
  {}

  lemma {:induction false} HeadingStep(p: Preview, s: Scan, n: nat, line: string)
    requires InStep(p, s) && HeadingLine(line)
    ensures Agrees(ShowLine(p, n, line), ScanLine(s, line))
  {
    TrimsToHash(line);
    assert line[0] == '#';
    assert Spaces(line) == 0 && TrimRight(line) == line;
    assert line[0..] == line;
  }

  lemma {:induction false} TrimsToHash(line: string)
    requires line != "" && line[0] == '#'
    ensures var t := TrimBrowser(line); t != "" && t[0] == '#' && Spaces(t) == 0 && Match(t[0..]) == None
  {
    if BrowserSpace(Last(line)) {
      TrimsToHash(line[..|line| - 1]);
    }
  }

  lemma {:induction false} LineStep(p: Preview, s: Scan, n: nat, line: string)
    requires InStep(p, s) && CleanLine(line)
    requires BlankLine(line) || "# " <= line || |s.entries| < MAX_NODES
    ensures Agrees(ShowLine(p, n, line), ScanLine(s, line))
  {
    if BlankLine(line) {
      BlankTrims(line);
    } else if HeadingLine(line) {
      HeadingStep(p, s, n, line);
    } else {
      var spaces: nat, m :| ItemLine(line, spaces, m) && PlainLabel(m.caption);
      ItemIsRead(line, spaces, m);
      ItemStep(p, s, n, spaces, m);
      ItemShown(p, s, n, line, spaces, m);
    }
  }

  lemma {:induction false} WarningsStay(p: Preview, n: nat, line: string)
    ensures p.warnings <= ShowLine(p, n, line).warnings
  {}

  lemma {:induction false} ItemNotHeading(line: string)
    requires Readable(line) && "# " <= line
    ensures HeadingLine(line)
  {
    if BlankLine(line) {
      BlankTrims(line);
    } else if !HeadingLine(line) {
      var spaces: nat, m :| ItemLine(line, spaces, m);
      ItemEdges(line, spaces, m);
    }
  }

  lemma {:induction false} HeadingAddsNothing(s: Scan, line: string)
    requires HeadingLine(line) && ScanLine(s, line).Parsed?
    ensures ScanLine(s, line).value.entries == s.entries
  {
    TrimsToHash(line);
    assert line[0] == '#' && TrimRight(line) == line && Spaces(line) == 0 && line[0..] == line;
    assert Match(line) == None;
  }

  lemma {:induction false} ItemGrows(s: Scan, line: string, spaces: nat, m: MenuLine)
    requires ItemLine(line, spaces, m) && ScanLine(s, line).Parsed?
    ensures |ScanLine(s, line).value.entries| == |s.entries| + 1
  {
    ScanReads(s, line, spaces, m);
    ItemAdds(s, spaces, m);
  }

  lemma {:induction false} ItemAdds(s: Scan, spaces: nat, m: MenuLine)
    requires ItemScanned(s, spaces, m).Parsed?
    ensures |ItemScanned(s, spaces, m).value.entries| == |s.entries| + 1
  {}

  lemma {:induction false} ScanLineGrows(s: Scan, line: string)
    requires Readable(line) && ScanLine(s, line).Parsed?
    ensures |ScanLine(s, line).value.entries| <= |s.entries| + if BlankLine(line) || "# " <= line then 0 else 1
  {
    if BlankLine(line) {
      BlankTrims(line);
    } else if "# " <= line {
      ItemNotHeading(line);
      HeadingAddsNothing(s, line);
    } else {
      var spaces: nat, m :| ItemLine(line, spaces, m);
      ItemGrows(s, line, spaces, m);
    }
  }

  lemma {:induction false} LinesInStep(lines: seq<string>)
    requires Clean(lines) && Items(lines) <= MAX_NODES
    ensures ShowLines(lines).warnings == [] <==> ScanLines(lines).Parsed?
    ensures ScanLines(lines).Parsed? ==>
              InStep(ShowLines(lines), ScanLines(lines).value) && |ScanLines(lines).value.entries| <= Items(lines)
  {
    if lines != [] {
      var init := lines[..|lines| - 1];
      assert CleanLine(lines[|lines| - 1]);
      forall i | 0 <= i < |init| ensures CleanLine(init[i]) { assert CleanLine(lines[i]); }
      LinesInStep(init);
      WarningsStay(ShowLines(init), |lines|, Last(lines));
      if ScanLines(init).Parsed? {
        LineStep(ShowLines(init), ScanLines(init).value, |lines|, Last(lines));
        if ScanLines(lines).Parsed? { ScanLineGrows(ScanLines(init).value, Last(lines)); }
      }
    }
  }

  /** On clean lines within the node limit the preview is silent exactly when the
      server scans them into a menu without empty groups, and then its forest lists
      as exactly what was written. */
  lemma {:induction false} PreviewAgrees(lines: seq<string>)
    requires Clean(lines) && Items(lines) <= MAX_NODES
    ensures PreviewOf(lines).1 == [] <==> AcceptedLines(lines)
    ensures PreviewOf(lines).1 == [] ==> Listing(PreviewOf(lines).0, 0) == ScanLines(lines).value.entries
  {
    LinesInStep(lines);
    var p := ShowLines(lines);
    if ScanLines(lines).Parsed? {
      ClosingKeepsShown(p, 0);
      var nodes := CloseFrom(p, 0).roots;
      assert Listing(nodes, 0) == ScanLines(lines).value.entries;
      EmptyGroupShows(nodes, 0);
      ListingDepths(nodes, 0);
    }
  }

  lemma {:induction false} CleanIsReadable(lines: seq<string>)
    requires Clean(lines)
    ensures AllReadable(lines)
  {
    forall i | 0 <= i < |lines| ensures Readable(lines[i]) { assert CleanLine(lines[i]); }
  }

  // ------------------------------------------------------------ whole texts

  /** The lines without the spaces and carriage returns at their ends. */
  function Trims(lines: seq<string>): seq<string>
  {
    seq(|lines|, i requires 0 <= i < |lines| => TrimRight(lines[i]))
  }

  lemma {:induction false} TrimmedOnce(s: string)
    ensures TrimRight(s) <= s
    ensures TrimRight(TrimRight(s)) == TrimRight(s)
    ensures TrimBrowser(s) == TrimBrowser(TrimRight(s))
  {
    if s != "" && Last(s) in " \r" { TrimmedOnce(s[..|s| - 1]); }
  }

  lemma {:induction false} HashIsHeading(raw: string)
    requires Readable(TrimRight(raw)) && "# " <= raw && TrimRight(raw) != ""
    ensures "# " <= TrimRight(raw)
  {
    TrimmedOnce(raw);
    var line := TrimRight(raw);
    if !HeadingLine(line) && !BlankLine(line) {
      var spaces: nat, m :| ItemLine(line, spaces, m);
      ItemEdges(line, spaces, m);
    }
  }

  /** The ends of a readable line do not matter to either side. */
  lemma {:induction false} EndsDoNotMatter(p: Preview, s: Scan, n: nat, raw: string)
    requires Readable(TrimRight(raw))
    ensures ShowLine(p, n, raw) == ShowLine(p, n, TrimRight(raw))
    ensures ScanLine(s, raw) == ScanLine(s, TrimRight(raw))
  {
    TrimmedOnce(raw);
    if "# " <= raw && TrimRight(raw) != "" { HashIsHeading(raw); }
  }

  lemma {:induction false} TrimsOfInit(lines: seq<string>)
    requires lines != []
    ensures Trims(lines)[..|lines| - 1] == Trims(lines[..|lines| - 1])
    ensures Last(Trims(lines)) == TrimRight(Last(lines))
  {}

  lemma {:induction false} ReadableInit(lines: seq<string>)
    requires lines != [] && AllReadable(lines)
    ensures AllReadable(lines[..|lines| - 1]) && Readable(Last(lines))
  {
    var init := lines[..|lines| - 1];
    forall i | 0 <= i < |init| ensures Readable(init[i]) { assert Readable(lines[i]); }
    assert Readable(lines[|lines| - 1]);
  }

  lemma {:induction false} TrimmedLinesWillDo(lines: seq<string>)
    requires AllReadable(Trims(lines))
    ensures ShowLines(lines) == ShowLines(Trims(lines))
    ensures ScanLines(lines) == ScanLines(Trims(lines))
  {
    if lines != [] {
      var init := lines[..|lines| - 1];
      TrimsOfInit(lines);
      ReadableInit(Trims(lines));
      TrimmedLinesWillDo(init);
      var s := if ScanLines(init).Parsed? then ScanLines(init).value else NOTHING_SCANNED;
      EndsDoNotMatter(ShowLines(init), s, |lines|, Last(lines));
    }
  }

  /** A line break's carriage return is at the end of a line. */
  lemma {:induction false} BreaksDoNotMatter(text: string)
    ensures Trims(BrowserLines(text)) == Trims(Lines(text))
  {}

  /** So each side sees the trimmed lines of the text. */
  lemma {:induction false} BothSeeTheLines(text: string)
    requires AllReadable(Trims(Lines(text)))
    ensures PreviewOf(BrowserLines(text)) == PreviewOf(Trims(Lines(text)))
    ensures ScanLines(Lines(text)) == ScanLines(Trims(Lines(text)))
  {
    BreaksDoNotMatter(text);
    TrimmedLinesWillDo(Lines(text));
    TrimmedLinesWillDo(BrowserLines(text));
  }

  /** The server's limits on the size of a text, which the preview does not know. */
  predicate WithinLimits(text: string)
  {
    Utf8Length(text) <= MAX_TREE_BYTES && !FillsBuffer(text) && Items(Trims(Lines(text))) <= MAX_NODES
  }

  /** For any text of well-formed lines within the size limits: the preview warns
      about nothing exactly when the server accepts, and any forest that the parser
      returns is the one shown. */
  lemma {:induction false} PreviewMatchesParser(text: string, parsed: seq<Node>)
    requires WithinLimits(text) && Clean(Trims(Lines(text)))
    ensures PreviewOf(BrowserLines(text)).1 == [] <==> AcceptedText(text)
    ensures AcceptedText(text) && Listing(parsed, 0) == ScanLines(Lines(text)).value.entries ==>
              parsed == PreviewOf(BrowserLines(text)).0
  {
    var lines := Trims(Lines(text));
    CleanIsReadable(lines);
    BothSeeTheLines(text);
    PreviewAgrees(lines);
    if AcceptedText(text) && Listing(parsed, 0) == ScanLines(Lines(text)).value.entries {
      ListingDetermines(parsed, PreviewOf(BrowserLines(text)).0, 0);
    }
  }

  lemma {:induction false} OneLine(line: string)
    ensures ScanLines([line]) == ScanLine(NOTHING_SCANNED, line)
    ensures ShowLines([line]) == ShowLine(NOTHING_SHOWN, 1, line)
  {
    assert [line][..0] == [] && Last([line]) == line;
  }
}
