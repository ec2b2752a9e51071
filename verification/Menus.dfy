/** The menu language as a whole: the server's parser, the forest it builds, and that
    a forest and its indented listing determine each other. */
module Menus {
  import opened Common
  import opened Trees
  import opened MenuGrammar

  const MAX_TREE_BYTES: nat := 0x10_0000
  const MAX_DEPTH: nat := 12
  const MAX_NODES: nat := 2000
  const MAX_CAPTION: nat := 180

  datatype MenuProblem =
    | TreeTooLarge
    | LineTooLong
    | TabNotAllowed
    | OddIndentation
    | TooDeep
    | SkipsLevel
    | NotAMenuItem
    | BadLabel
    | GroupWithContent
    | PageWithoutContent
    | DuplicateLocation
    | TooManyNodes
    | NoMenuItems
    | EmptyGroup

  datatype Parsed<+T> = Parsed(value: T) | Malformed(problem: MenuProblem)

  datatype Entry = Entry(depth: nat, id: Id, caption: string, contentId: Id)

  // ------------------------------------------------------------------- forests

  /** The nodes in preorder with their depths. */
  function Listing(forest: seq<Node>, depth: nat): seq<Entry>
    decreases forest
  {
    if forest == [] then []
    else
      var n := forest[0];
      [Entry(depth, n.id, n.caption, n.contentId)] + Listing(n.children, depth + 1) + Listing(forest[1..], depth)
  }

  lemma {:induction false} ListingAppend(a: seq<Node>, b: seq<Node>, depth: nat)
    ensures Listing(a + b, depth) == Listing(a, depth) + Listing(b, depth)
    decreases a
  {
    if a == [] {
      assert a + b == b;
    } else {
      assert (a + b)[1..] == a[1..] + b;
      ListingAppend(a[1..], b, depth);
    }
  }

  lemma {:induction false} ListingDepths(forest: seq<Node>, depth: nat)
    ensures forest != [] ==> Listing(forest, depth) != [] && Listing(forest, depth)[0].depth == depth
    ensures forall i :: 0 <= i < |Listing(forest, depth)| ==> Listing(forest, depth)[i].depth >= depth
    decreases forest
  {
    if forest != [] {
      ListingDepths(forest[0].children, depth + 1);
      ListingDepths(forest[1..], depth);
    }
  }

  /** Two lists cut where the depth first falls back are cut at the same place. */
  lemma {:induction false} SameCut(a: seq<Entry>, b: seq<Entry>, a': seq<Entry>, b': seq<Entry>, depth: nat)
    requires a + b == a' + b'
    requires (forall i :: 0 <= i < |a| ==> a[i].depth > depth) && (b != [] ==> b[0].depth == depth)
    requires (forall i :: 0 <= i < |a'| ==> a'[i].depth > depth) && (b' != [] ==> b'[0].depth == depth)
    ensures a == a' && b == b'
  {
    var all := a + b;
    assert (forall i :: 0 <= i < |a| ==> all[i] == a[i]) && (b != [] ==> all[|a|] == b[0]);
    assert (forall i :: 0 <= i < |a'| ==> all[i] == a'[i]) && (b' != [] ==> all[|a'|] == b'[0]);
    assert |a| == |a'|;
    assert a == all[..|a|] && b == all[|a|..] && a' == all[..|a'|] && b' == all[|a'|..];
  }

  /** At most one forest has a given listing. */
  lemma {:induction false} ListingDetermines(f: seq<Node>, g: seq<Node>, depth: nat)
    requires Listing(f, depth) == Listing(g, depth)
    ensures f == g
    decreases f
  {
    if f == [] || g == [] {
      ListingDepths(f, depth);
      ListingDepths(g, depth);
    } else {
      ListingSplits(f, depth);
      ListingSplits(g, depth);
      SameCut(Listing(f[0].children, depth + 1), Listing(f[1..], depth), Listing(g[0].children, depth + 1),
              Listing(g[1..], depth), depth);
      ListingDetermines(f[0].children, g[0].children, depth + 1);
      ListingDetermines(f[1..], g[1..], depth);
      assert f == [f[0]] + f[1..] && g == [g[0]] + g[1..];
    }
  }

  lemma {:induction false} ListingSplits(forest: seq<Node>, depth: nat)
    requires forest != []
    ensures var n, all, a, b :=
            forest[0], Listing(forest, depth), Listing(forest[0].children, depth + 1), Listing(forest[1..], depth);
            && all != [] && all[0] == Entry(depth, n.id, n.caption, n.contentId) && all[1..] == a + b
            && (forall i :: 0 <= i < |a| ==> a[i].depth > depth) && (b != [] ==> b[0].depth == depth)
  {
    var a, b := Listing(forest[0].children, depth + 1), Listing(forest[1..], depth);
    ListingDepths(forest[0].children, depth + 1);
    ListingDepths(forest[1..], depth);
    BehindHead(Entry(depth, forest[0].id, forest[0].caption, forest[0].contentId), a, b);
  }

  lemma {:induction false} BehindHead(e: Entry, a: seq<Entry>, b: seq<Entry>)
    ensures ([e] + a + b)[0] == e && ([e] + a + b)[1..] == a + b
  {}

  /** An entry that is no page and has nothing below it. */
  predicate Childless(entries: seq<Entry>, i: nat)
    requires i < |entries|
  {
    entries[i].contentId == "" && (i + 1 == |entries| || entries[i + 1].depth <= entries[i].depth)
  }

  ghost predicate NoneChildless(entries: seq<Entry>)
  {
    forall i :: 0 <= i < |entries| ==> !Childless(entries, i)
  }

  predicate HasEmptyGroup(forest: seq<Node>)
    decreases forest
  {
    && forest != []
    && ((forest[0].contentId == "" && forest[0].children == []) || HasEmptyGroup(forest[0].children)
        || HasEmptyGroup(forest[1..]))
  }

  /** Where two listings meet, whether an entry is childless can be told on its side. */
  lemma {:induction false} ChildlessParts(head: Entry, below: seq<Entry>, rest: seq<Entry>)
    requires
      && (forall i :: 0 <= i < |below| ==> below[i].depth > head.depth)
      && (rest != [] ==> rest[0].depth == head.depth)
    ensures NoneChildless([head] + below + rest) <==>
            !(head.contentId == "" && below == []) && NoneChildless(below) && NoneChildless(rest)
  {
    var all := [head] + below + rest;
    assert forall i :: 0 <= i < |below| ==> all[1 + i] == below[i];
    assert forall i :: 0 <= i < |rest| ==> all[1 + |below| + i] == rest[i];
    assert Childless(all, 0) <==> head.contentId == "" && below == [];
    forall i | 0 <= i < |below| ensures Childless(all, 1 + i) <==> Childless(below, i) {
      if i + 1 == |below| && rest != [] { assert all[2 + i] == rest[0]; }
    }
    forall i | 0 <= i < |rest| ensures Childless(all, 1 + |below| + i) <==> Childless(rest, i) {}
    forall i | 0 <= i < |all|
        ensures i == 0 || (i <= |below| && all[i] == below[i - 1])
        || (i > |below| && all[i] == rest[i - 1 - |below|]) {}
    if NoneChildless(all) {
      forall i | 0 <= i < |below| ensures !Childless(below, i) { assert !Childless(all, 1 + i); }
      forall i | 0 <= i < |rest| ensures !Childless(rest, i) { assert !Childless(all, 1 + |below| + i); }
    }
    if !(head.contentId == "" && below == []) && NoneChildless(below) && NoneChildless(rest) {
      forall i | 0 <= i < |all| ensures !Childless(all, i) {
        if 0 < i <= |below| {
          assert Childless(all, 1 + (i - 1)) <==> Childless(below, i - 1);
        } else if i > |below| {
          assert Childless(all, 1 + |below| + (i - 1 - |below|)) <==> Childless(rest, i - 1 - |below|);
        }
      }
    }
  }

  /** Groups without children can be seen in the listing. */
  lemma {:induction false} EmptyGroupShows(forest: seq<Node>, depth: nat)
    ensures HasEmptyGroup(forest) <==> !NoneChildless(Listing(forest, depth))
    decreases forest
  {
    if forest != [] {
      var n := forest[0];
      EmptyGroupShows(n.children, depth + 1);
      EmptyGroupShows(forest[1..], depth);
      ListingDepths(n.children, depth + 1);
      ListingDepths(forest[1..], depth);
      ChildlessParts(Entry(depth, n.id, n.caption, n.contentId), Listing(n.children, depth + 1),
                     Listing(forest[1..], depth));
    }
  }

  // ------------------------------------------------------------- reading a text

  function Utf8Width(c: char): nat
  {
    if c as int < 0x80 then 1 else if c as int < 0x800 then 2 else if c as int < 0x1_0000 then 3 else 4
  }

  function Utf8Length(text: string): nat
  {
    if text == "" then 0 else Utf8Length(text[..|text| - 1]) + Utf8Width(Last(text))
  }

  function Lines(text: string): (lines: seq<string>)
    ensures lines != []
  {
    var k := Find(text, '\n');
    if k == |text| then [text] else [text[..k]] + Lines(text[k + 1..])
  }

  function TrimRight(s: string): string
  {
    if s != "" && Last(s) in " \r" then TrimRight(s[..|s| - 1]) else s
  }

  function Spaces(s: string): (n: nat)
    ensures n <= |s|
  {
    if s == "" || s[0] != ' ' then 0 else 1 + Spaces(s[1..])
  }

  /** unicode.IsSpace */
  predicate ServerSpace(c: char)
  {
    c == '\U{0085}' || AnySpace(c)
  }

  /** White space and line terminators of ECMAScript. */
  predicate BrowserSpace(c: char)
  {
    c == '\U{FEFF}' || AnySpace(c)
  }

  /** What both count as white space. */
  predicate AnySpace(c: char)
  {
    || '\t' <= c <= '\r' || c == ' ' || c == '\U{00A0}' || c == '\U{1680}' || '\U{2000}' <= c <= '\U{200A}'
    || c == '\U{2028}' || c == '\U{2029}' || c == '\U{202F}' || c == '\U{205F}' || c == '\U{3000}'
  }

  /** Labels as the server takes them. */
  predicate ServerLabel(s: string)
  {
    && s != "" && !ServerSpace(s[0]) && !ServerSpace(Last(s)) && |s| <= MAX_CAPTION
    && forall i :: 0 <= i < |s| ==> s[i] !in "\0\r\n"
  }

  /** What the scanner loop carries: the entries, the location IDs met, and whether
      the heading has been passed. */
  datatype Scan = Scan(entries: seq<Entry>, ids: set<Id>, heading: bool)

  const NOTHING_SCANNED := Scan([], {}, false)

  function TooSteep(entries: seq<Entry>, depth: nat): bool
  {
    if entries == [] then depth != 0 else depth > Last(entries).depth + 1
  }

  function ScanItem(s: Scan, depth: nat, m: MenuLine): Parsed<Scan>
  {
    if !ServerLabel(m.caption) then Malformed(BadLabel)
    else if !m.page && m.content.Some? then Malformed(GroupWithContent)
    else if m.page && m.content.None? then Malformed(PageWithoutContent)
    else if m.id in s.ids then Malformed(DuplicateLocation)
    else if |s.entries| + 1 > MAX_NODES then Malformed(TooManyNodes)
    else Parsed(s.(entries := s.entries + [EntryOf(depth, m)], ids := s.ids + {m.id}))
  }

  function EntryOf(depth: nat, m: MenuLine): Entry
  {
    Entry(depth, m.id, m.caption, if m.content.Some? then m.content.value else "")
  }

  function ScanLine(s: Scan, raw: string): Parsed<Scan>
  {
    var line := TrimRight(raw);
    if '\t' in line then Malformed(TabNotAllowed)
    else if line == "" then Parsed(s)
    else if "# " <= line && !s.heading && s.entries == [] then Parsed(s.(heading := true))
    else
      var spaces := Spaces(line);
      if spaces % 2 != 0 then Malformed(OddIndentation)
      else if spaces / 2 > MAX_DEPTH then Malformed(TooDeep)
      else if TooSteep(s.entries, spaces / 2) then Malformed(SkipsLevel)
      else
        var m := Match(line[spaces..]);
        if m.None? then Malformed(NotAMenuItem) else ScanItem(s, spaces / 2, m.value)
  }

  function ScanLines(lines: seq<string>): Parsed<Scan>
  {
    if lines == [] then Parsed(NOTHING_SCANNED)
    else
      var s := ScanLines(lines[..|lines| - 1]);
      if s.Malformed? then s else ScanLine(s.value, Last(lines))
  }

  /** The scanner's buffer holds a whole text only if some line ends in it. */
  predicate FillsBuffer(text: string)
  {
    Utf8Length(text) >= MAX_TREE_BYTES && '\n' !in text
  }

  ghost predicate AcceptedLines(lines: seq<string>)
  {
    && ScanLines(lines).Parsed?
    && ScanLines(lines).value.entries != []
    && NoneChildless(ScanLines(lines).value.entries)
  }

  /** The server takes the text: it scans, and no group is left without children. */
  ghost predicate AcceptedText(text: string)
  {
    Utf8Length(text) <= MAX_TREE_BYTES && !FillsBuffer(text) && AcceptedLines(Lines(text))
  }

  // -------------------------------------------------------------- what a scan is

  /** Depths start at zero and go down one level at a time. */
  ghost predicate Stepwise(entries: seq<Entry>)
  {
    && (entries != [] ==> entries[0].depth == 0)
    && forall i :: 0 < i < |entries| ==> entries[i].depth <= entries[i - 1].depth + 1
  }

  ghost predicate EntryOk(e: Entry)
  {
    && e.depth <= MAX_DEPTH && Identifier(e.id) && LabelText(e.caption) && ServerLabel(e.caption)
    && (e.contentId == "" || Identifier(e.contentId))
  }

  ghost predicate ScanOk(s: Scan)
  {
    && Stepwise(s.entries) && |s.entries| <= MAX_NODES
    && (forall i {:trigger EntryOk(s.entries[i])} :: 0 <= i < |s.entries| ==> EntryOk(s.entries[i]))
    && (forall i, j :: 0 <= i < j < |s.entries| ==> s.entries[i].id != s.entries[j].id)
    && (forall id :: id in s.ids <==> exists i :: 0 <= i < |s.entries| && s.entries[i].id == id)
  }

  lemma {:induction false} ScanItemKeeps(s: Scan, depth: nat, m: MenuLine)
    requires
      && ScanOk(s)
      && WellFormed(m)
      && depth <= MAX_DEPTH
      && !TooSteep(s.entries, depth)
      && ScanItem(s, depth, m).Parsed?
    ensures ScanOk(ScanItem(s, depth, m).value)
  {
    var t := ScanItem(s, depth, m).value;
    var n := |s.entries|;
    forall i | 0 <= i <= n ensures EntryOk(t.entries[i]) {
      if i < n { assert EntryOk(s.entries[i]); }
    }
    forall id ensures id in t.ids <==> exists i :: 0 <= i < |t.entries| && t.entries[i].id == id {
      if id == m.id { assert t.entries[n].id == id; }
      if id in s.ids {
        var i :| 0 <= i < n && s.entries[i].id == id;
        assert t.entries[i].id == id;
      }
    }
  }

  /** Everything a scan lets through has the shape of a menu. */
  lemma {:induction false} ScanKeeps(lines: seq<string>)
    requires ScanLines(lines).Parsed?
    ensures ScanOk(ScanLines(lines).value)
  {
    if lines != [] {
      ScanKeeps(lines[..|lines| - 1]);
      var s, line := ScanLines(lines[..|lines| - 1]).value, TrimRight(Last(lines));
      if line != "" && !("# " <= line && !s.heading && s.entries == []) {
        var m := Match(line[Spaces(line)..]).value;
        MatchReadsSpelling(line[Spaces(line)..], m);
        ScanItemKeeps(s, Spaces(line) / 2, m);
      }
    }
  }

  // ------------------------------------------------------------------ the parser

  /** The recursive build over a shared position in the entries. */
  class Builder {
    const entries: seq<Entry>
    var index: nat

    constructor (entries: seq<Entry>)
      ensures this.entries == entries && index == 0
    {
      this.entries, index := entries, 0;
    }

    /** Consumes all entries from the position on that lie at `depth` or below it. */
    method Build(depth: nat) returns (nodes: seq<Node>, ok: bool)
      requires index <= |entries| && Stepwise(entries)
      requires index < |entries| ==> entries[index].depth <= depth
      modifies this`index
      ensures ok ==> Built(entries, old(index), index, depth, nodes)
      ensures ok ==> index == |entries| || entries[index].depth < depth
      ensures !ok ==> !NoneChildless(entries)
      ensures old(index) <= index <= |entries|
      decreases |entries| - index
    {
      nodes, ok := [], true;
      while index < |entries| && entries[index].depth == depth
        invariant Built(entries, old(index), index, depth, nodes)
        invariant index < |entries| ==> entries[index].depth <= depth
        decreases |entries| - index
      {
        ghost var at := index;
        var e := entries[index];
        var children: seq<Node> := [];
        index := index + 1;
        if index < |entries| && entries[index].depth > depth {
          children, ok := Build(depth + 1);
          if !ok { return [], false; }
          ListingDepths(children, depth + 1);
        }
        if e.contentId == "" && children == [] {
          assert Childless(entries, at);
          return [], false;
        }
        var node := Node(e.id, e.caption, e.contentId, children);
        NodeAdded(nodes, node, entries, old(index), at, index, depth);
        nodes := nodes + [node];
      }
    }
  }

  /** The nodes list a stretch of the entries in which no group is without children. */
  ghost predicate Built(entries: seq<Entry>, from: nat, to: nat, depth: nat, nodes: seq<Node>)
  {
    && from <= to <= |entries| && Listing(nodes, depth) == entries[from..to]
    && forall i :: from <= i < to ==> !Childless(entries, i)
  }

  /** One more node lists one more stretch of the entries. */
  lemma {:induction false} NodeAdded(nodes: seq<Node>, node: Node, entries: seq<Entry>, from: nat, at: nat, to: nat,
                                     depth: nat)
    requires at < to && Built(entries, from, at, depth, nodes) && Built(entries, at + 1, to, depth + 1, node.children)
    requires entries[at] == Entry(depth, node.id, node.caption, node.contentId) && !Childless(entries, at)
    ensures Built(entries, from, to, depth, nodes + [node])
  {
    ListingAppend(nodes, [node], depth);
    assert Listing([node], depth) == [entries[at]] + entries[at + 1..to];
    StretchesJoin(entries, from, at, to);
  }

  lemma {:induction false} StretchesJoin(entries: seq<Entry>, from: nat, at: nat, to: nat)
    requires from <= at < to <= |entries|
    ensures entries[from..at] + ([entries[at]] + entries[at + 1..to]) == entries[from..to]
  {}

  /** Why a text is turned away. */
  ghost function Refusal(text: string): MenuProblem
    requires !AcceptedText(text)
  {
    if Utf8Length(text) > MAX_TREE_BYTES then TreeTooLarge
    else if FillsBuffer(text) then LineTooLong
    else
      var s := ScanLines(Lines(text));
      if s.Malformed? then s.problem else if s.value.entries == [] then NoMenuItems else EmptyGroup
  }

  method ParseTree(text: string) returns (r: Parsed<seq<Node>>)
    ensures r.Parsed? <==> AcceptedText(text)
    ensures r.Parsed? ==> Listing(r.value, 0) == ScanLines(Lines(text)).value.entries
    ensures r.Malformed? ==> r.problem == Refusal(text)
  {
    if Utf8Length(text) > MAX_TREE_BYTES { return Malformed(TreeTooLarge); }
    if FillsBuffer(text) { return Malformed(LineTooLong); }
    var lines, scan := Lines(text), NOTHING_SCANNED;
    for i := 0 to |lines|
      invariant ScanLines(lines[..i]) == Parsed(scan)
    {
      assert lines[..i + 1][..i] == lines[..i] && Last(lines[..i + 1]) == lines[i];
      var s := ScanLine(scan, lines[i]);
      if s.Malformed? {
        RefusedStays(lines, i + 1);
        return Malformed(s.problem);
      }
      scan := s.value;
    }
    assert lines[..|lines|] == lines;
    if scan.entries == [] { return Malformed(NoMenuItems); }
    ScanKeeps(lines);
    var builder := new Builder(scan.entries);
    var nodes, ok := builder.Build(0);
    if !ok { return Malformed(EmptyGroup); }
    assert scan.entries[..|scan.entries|] == scan.entries;
    return Parsed(nodes);
  }

  lemma {:induction false} RefusedStays(lines: seq<string>, k: nat)
    requires k <= |lines| && ScanLines(lines[..k]).Malformed?
    ensures ScanLines(lines) == ScanLines(lines[..k])
  {
    if k < |lines| {
      assert lines[..|lines| - 1][..k] == lines[..k];
      RefusedStays(lines[..|lines| - 1], k);
    } else {
      assert lines[..k] == lines;
    }
  }
}
