/** What each warning of the preview is about, without its stack. */
module MenuWarnings {
  import opened Common
  import opened Trees
  import opened MenuGrammar
  import opened Menus
  import opened MenuPreview

  // -------------------------------------------------------------------- the lines

  /** A line as the preview reads it: blank, or begun like a heading, and the item behind
      its indentation if there is one. */
  datatype Line = Line(blank: bool, hash: bool, indent: nat, item: Option<MenuLine>)

  function Reading(raw: string): Line
  {
    var line := TrimBrowser(raw);
    Line(line == "", "# " <= raw, Spaces(line), Match(line[Spaces(line)..]))
  }

  function Readings(lines: seq<string>): seq<Line>
  {
    seq(|lines|, i requires 0 <= i < |lines| => Reading(lines[i]))
  }

  predicate Plausible(x: Line)
  {
    (x.hash ==> !x.blank && x.item.None?) && (x.blank ==> x.item.None?)
  }

  lemma {:induction false} ReadingIsPlausible(raw: string)
    ensures Plausible(Reading(raw))
  {
    if "# " <= raw {
      assert raw[0] == '#';
      TrimsToHash(raw);
    }
  }

  /** The preview's step, on the line as read. */
  function ShowReading(p: Preview, n: nat, x: Line): Preview
  {
    if x.blank then p
    else if x.hash && !p.heading && p.roots == [] && p.stack == [] then p.(heading := true)
    else if x.item.None? then p.(warnings := p.warnings + [UnlistedLine(n)])
    else ShowItem(p, n, x.indent, x.item.value)
  }

  function ShowReadings(lines: seq<Line>): Preview
  {
    if lines == [] then NOTHING_SHOWN
    else ShowReading(ShowReadings(lines[..|lines| - 1]), |lines|, Last(lines))
  }

  lemma {:induction false} ReadingShows(p: Preview, n: nat, raw: string)
    ensures ShowLine(p, n, raw) == ShowReading(p, n, Reading(raw))
  {}

  lemma {:induction false} ReadingsShow(lines: seq<string>)
    ensures ShowLines(lines) == ShowReadings(Readings(lines))
    ensures forall k :: 0 <= k < |lines| ==> Plausible(Readings(lines)[k])
  {
    forall k | 0 <= k < |lines| ensures Plausible(Readings(lines)[k]) { ReadingIsPlausible(lines[k]); }
    if lines != [] {
      var init := lines[..|lines| - 1];
      ReadingsShow(init);
      ReadingShows(ShowLines(init), |lines|, Last(lines));
      assert Readings(lines)[..|lines| - 1] == Readings(init);
    }
  }

  predicate IsItem(lines: seq<Line>, k: nat)
  {
    k < |lines| && lines[k].item.Some?
  }

  ghost predicate NoItemBefore(lines: seq<Line>, k: nat)
  {
    forall j: nat :: j < k ==> !IsItem(lines, j)
  }

  /** The last item above line k. */
  ghost predicate ItemAbove(lines: seq<Line>, j: nat, k: nat)
  {
    j < k && IsItem(lines, j) && forall i: nat :: j < i < k ==> !IsItem(lines, i)
  }

  /** Some line above k begins like a heading. */
  predicate Hashed(lines: seq<Line>, k: nat)
  {
    exists j: nat :: j < k <= |lines| && lines[j].hash
  }

  /** The first line that begins like a heading, if no item is above it. */
  ghost predicate HeadingAt(lines: seq<Line>, k: nat)
    requires k < |lines|
  {
    lines[k].hash && NoItemBefore(lines, k) && !Hashed(lines, k)
  }

  // ------------------------------------------------------------------ what is wrong

  /** Indented by an odd number of spaces, by more than 24, or by more than one level
      beyond the item above. */
  ghost predicate Misplaced(lines: seq<Line>, k: nat)
    requires k < |lines|
  {
    var indent := lines[k].indent;
    || indent % 2 == 1 || indent > 24 || (indent > 0 && NoItemBefore(lines, k))
    || exists j: nat :: ItemAbove(lines, j, k) && indent > lines[j].indent + 2
  }

  predicate BadCaption(s: string)
    requires s != ""
  {
    BrowserSpace(s[0]) || BrowserSpace(s[|s| - 1]) || |s| > 180
  }

  ghost predicate Twice(lines: seq<Line>, k: nat)
    requires IsItem(lines, k)
  {
    exists j: nat :: j < k && IsItem(lines, j) && lines[j].item.value.id == lines[k].item.value.id
  }

  /** The line deserves the warning. */
  ghost predicate Deserves(lines: seq<Line>, k: nat, w: Warning)
    requires k < |lines|
  {
    match w
    case UnlistedLine(n) => n == k + 1 && !lines[k].blank && !IsItem(lines, k) && !HeadingAt(lines, k)
    case Indentation(n) => n == k + 1 && IsItem(lines, k) && Misplaced(lines, k)
    case Caption(n) =>
      n == k + 1 && IsItem(lines, k)
      && var caption := lines[k].item.value.caption; caption == "" || BadCaption(caption)
    case Identifiers(n) =>
      n == k + 1 && IsItem(lines, k) && var m := lines[k].item.value; m.page != m.content.Some?
    case Repeated(n) => n == k + 1 && IsItem(lines, k) && Twice(lines, k)
    case _ => false
  }

  // --------------------------------------------------------- what the preview remembers

  ghost predicate TopIsAbove(lines: seq<Line>, stack: seq<Frame>)
  {
    if stack == [] then NoItemBefore(lines, |lines|)
    else exists j: nat :: ItemAbove(lines, j, |lines|) && Last(stack).indent == lines[j].indent
  }

  ghost predicate HasId(lines: seq<Line>, id: Id)
  {
    exists j: nat :: IsItem(lines, j) && lines[j].item.value.id == id
  }

  ghost predicate Warned(lines: seq<Line>, w: Warning)
  {
    exists k: nat :: k < |lines| && Deserves(lines, k, w)
  }

  ghost predicate IdsAre(lines: seq<Line>, ids: set<Id>)
  {
    forall id :: id in ids <==> HasId(lines, id)
  }

  ghost predicate WarningsAre(lines: seq<Line>, warnings: seq<Warning>)
  {
    forall w :: w in warnings <==> Warned(lines, w)
  }

  ghost predicate Remembers(lines: seq<Line>, p: Preview)
  {
    && TopIsAbove(lines, p.stack)
    && (p.stack == [] ==> p.roots == [])
    && (p.heading ==> Hashed(lines, |lines|))
    && (p.stack == [] && Hashed(lines, |lines|) ==> p.heading)
    && IdsAre(lines, p.ids)
    && WarningsAre(lines, p.warnings)
  }

  // -------------------------------------------------------------------- one more line

  lemma {:induction false} ItemsStay(lines: seq<Line>, x: Line)
    ensures forall j: nat :: j < |lines| ==> IsItem(lines + [x], j) == IsItem(lines, j)
    ensures IsItem(lines + [x], |lines|) <==> x.item.Some?
  {}

  lemma {:induction false} AboveStays(lines: seq<Line>, x: Line, j: nat, k: nat)
    requires k <= |lines|
    ensures ItemAbove(lines + [x], j, k) == ItemAbove(lines, j, k)
  {
    var all := lines + [x];
    ItemsStay(lines, x);
    if ItemAbove(all, j, k) {
      forall i: nat | j < i < k ensures !IsItem(lines, i) { assert !IsItem(all, i); }
    }
    if ItemAbove(lines, j, k) {
      forall i: nat | j < i < k ensures !IsItem(all, i) { assert !IsItem(lines, i); }
    }
  }

  lemma {:induction false} BeforeStays(lines: seq<Line>, x: Line, k: nat)
    requires k <= |lines|
    ensures NoItemBefore(lines + [x], k) == NoItemBefore(lines, k) && Hashed(lines + [x], k) == Hashed(lines, k)
  {
    var all := lines + [x];
    ItemsStay(lines, x);
    if NoItemBefore(all, k) { forall i: nat | i < k ensures !IsItem(lines, i) { assert !IsItem(all, i); } }
    if Hashed(all, k) {
      var j: nat :| j < k && all[j].hash;
      assert lines[j] == all[j];
    }
    if Hashed(lines, k) {
      var j: nat :| j < k && lines[j].hash;
      assert lines[j] == all[j];
    }
  }

  lemma {:induction false} MisplacedStays(lines: seq<Line>, x: Line, k: nat)
    requires k < |lines|
    ensures Misplaced(lines + [x], k) == Misplaced(lines, k)
  {
    var all := lines + [x];
    BeforeStays(lines, x, k);
    assert all[k] == lines[k];
    forall j: nat | j < k
      ensures ItemAbove(all, j, k) == ItemAbove(lines, j, k) && all[j].indent == lines[j].indent {
      AboveStays(lines, x, j, k);
    }
    if exists j: nat :: ItemAbove(all, j, k) && all[k].indent > all[j].indent + 2 {
      var j: nat :| ItemAbove(all, j, k) && all[k].indent > all[j].indent + 2;
      assert ItemAbove(lines, j, k);
    }
    if exists j: nat :: ItemAbove(lines, j, k) && lines[k].indent > lines[j].indent + 2 {
      var j: nat :| ItemAbove(lines, j, k) && lines[k].indent > lines[j].indent + 2;
      assert ItemAbove(all, j, k);
    }
  }

  lemma {:induction false} TwiceStays(lines: seq<Line>, x: Line, k: nat)
    requires IsItem(lines, k)
    ensures IsItem(lines + [x], k) && Twice(lines + [x], k) == Twice(lines, k)
  {
    var all := lines + [x];
    ItemsStay(lines, x);
    if Twice(all, k) {
      var j: nat :| j < k && IsItem(all, j) && all[j].item.value.id == all[k].item.value.id;
      assert IsItem(lines, j) && all[j] == lines[j];
    }
    if Twice(lines, k) {
      var j: nat :| j < k && IsItem(lines, j) && lines[j].item.value.id == lines[k].item.value.id;
      assert IsItem(all, j) && all[j] == lines[j];
    }
  }

  /** Only the lines above matter. */
  lemma {:induction false} DesertStays(lines: seq<Line>, x: Line, k: nat, w: Warning)
    requires k < |lines|
    ensures Deserves(lines + [x], k, w) == Deserves(lines, k, w)
  {
    ItemsStay(lines, x);
    BeforeStays(lines, x, k);
    MisplacedStays(lines, x, k);
    if IsItem(lines, k) { TwiceStays(lines, x, k); }
  }

  lemma {:induction false} WarnedNext(lines: seq<Line>, x: Line, w: Warning)
    ensures Warned(lines + [x], w) <==> Warned(lines, w) || Deserves(lines + [x], |lines|, w)
  {
    var all := lines + [x];
    forall k: nat | k < |lines| ensures Deserves(all, k, w) == Deserves(lines, k, w) { DesertStays(lines, x, k, w); }
    if Warned(lines, w) {
      var k: nat :| k < |lines| && Deserves(lines, k, w);
      assert Deserves(all, k, w);
    }
    if Deserves(all, |lines|, w) { assert |lines| < |all|; }
  }

  // --------------------------------------------------------------------- lines without item

  lemma {:induction false} AboveGrows(lines: seq<Line>, j: nat, k: nat)
    requires ItemAbove(lines, j, k) && !IsItem(lines, k)
    ensures ItemAbove(lines, j, k + 1)
  {}

  lemma {:induction false} BeforeGrows(lines: seq<Line>, k: nat)
    requires NoItemBefore(lines, k) && !IsItem(lines, k)
    ensures NoItemBefore(lines, k + 1)
  {}

  lemma {:induction false} NextIsNoItem(lines: seq<Line>, x: Line)
    requires x.item.None?
    ensures !IsItem(lines + [x], |lines|)
  {}

  lemma {:induction false} TopStays(lines: seq<Line>, x: Line, stack: seq<Frame>)
    requires TopIsAbove(lines, stack) && x.item.None?
    ensures TopIsAbove(lines + [x], stack)
  {
    var all, n := lines + [x], |lines|;
    NextIsNoItem(lines, x);
    if stack == [] {
      BeforeStays(lines, x, n);
      BeforeGrows(all, n);
    } else {
      var j: nat :| ItemAbove(lines, j, n) && Last(stack).indent == lines[j].indent;
      AboveStays(lines, x, j, n);
      AboveGrows(all, j, n);
      assert all[j] == lines[j];
    }
  }

  lemma {:induction false} IdsStay(lines: seq<Line>, x: Line, id: Id)
    ensures HasId(lines + [x], id) <==>
              HasId(lines, id) || (x.item.Some? && x.item.value.id == id)
  {
    var all := lines + [x];
    ItemsStay(lines, x);
    if HasId(lines, id) {
      var j: nat :| IsItem(lines, j) && lines[j].item.value.id == id;
      assert IsItem(all, j) && all[j] == lines[j];
    }
    if HasId(all, id) {
      var j: nat :| IsItem(all, j) && all[j].item.value.id == id;
      assert j < |lines| ==> IsItem(lines, j) && all[j] == lines[j];
    }
    assert all[|lines|] == x;
  }

  lemma {:induction false} IdsGo(lines: seq<Line>, x: Line, ids: set<Id>)
    requires IdsAre(lines, ids)
    ensures IdsAre(lines + [x], if x.item.Some? then ids + {x.item.value.id} else ids)
  {
    var after := if x.item.Some? then ids + {x.item.value.id} else ids;
    forall id ensures id in after <==> HasId(lines + [x], id) { IdsStay(lines, x, id); }
  }

  lemma {:induction false} HashedNext(lines: seq<Line>, x: Line)
    ensures Hashed(lines + [x], |lines| + 1) <==> Hashed(lines, |lines|) || x.hash
  {
    var all, n := lines + [x], |lines|;
    BeforeStays(lines, x, n);
    assert all[n] == x;
    if Hashed(all, n) {
      var j: nat :| j < n && all[j].hash;
      assert Hashed(all, n + 1);
    }
    if Hashed(all, n + 1) && !x.hash {
      var j: nat :| j < n + 1 && all[j].hash;
      assert j < n;
    }
  }

  /** The branch for the heading is taken for the heading only. */
  lemma {:induction false} HeadingIsSeen(lines: seq<Line>, p: Preview, x: Line)
    requires Remembers(lines, p)
    ensures x.hash && !p.heading && p.roots == [] && p.stack == [] <==> HeadingAt(lines + [x], |lines|)
  {
    BeforeStays(lines, x, |lines|);
    assert (lines + [x])[|lines|] == x;
    if p.stack != [] {
      var j: nat :| ItemAbove(lines, j, |lines|) && Last(p.stack).indent == lines[j].indent;
      assert IsItem(lines, j);
    }
  }

  lemma {:induction false} PlainLine(lines: seq<Line>, p: Preview, x: Line)
    requires Remembers(lines, p) && Plausible(x) && x.item.None?
    ensures Remembers(lines + [x], ShowReading(p, |lines| + 1, x))
  {
    var all, n := lines + [x], |lines|;
    var q := ShowReading(p, n + 1, x);
    TopStays(lines, x, p.stack);
    HashedNext(lines, x);
    HeadingIsSeen(lines, p, x);
    IdsGo(lines, x, p.ids);
    assert WarningsAre(all, q.warnings) by {
      forall w ensures w in q.warnings <==> Warned(all, w) { PlainWarned(lines, p, x, w); }
    }
  }

  lemma {:induction false} PlainWarned(lines: seq<Line>, p: Preview, x: Line, w: Warning)
    requires Remembers(lines, p) && Plausible(x) && x.item.None?
    ensures w in ShowReading(p, |lines| + 1, x).warnings <==> Warned(lines + [x], w)
  {
    ItemsStay(lines, x);
    HeadingIsSeen(lines, p, x);
    WarnedNext(lines, x, w);
    assert (lines + [x])[|lines|] == x;
    assert WarningsAre(lines, p.warnings);
  }

  // -------------------------------------------------------------------------- items

  lemma {:induction false} ItemBelow(lines: seq<Line>, x: Line)
    requires x.item.Some?
    ensures ItemAbove(lines + [x], |lines|, |lines| + 1)
  {
    ItemsStay(lines, x);
  }

  /** The top of the stack tells whether the indentation is wrong. */
  lemma {:induction false} IndentIsJudged(lines: seq<Line>, p: Preview, x: Line)
    requires Remembers(lines, p) && x.item.Some?
    ensures WrongIndent(p.stack, x.indent) <==> Misplaced(lines + [x], |lines|)
  {
    var all, n := lines + [x], |lines|;
    BeforeStays(lines, x, n);
    assert all[n] == x;
    forall j: nat | ItemAbove(all, j, n) ensures ItemAbove(lines, j, n) && all[j] == lines[j] {
      AboveStays(lines, x, j, n);
    }
    if p.stack != [] {
      var j: nat :| ItemAbove(lines, j, n) && Last(p.stack).indent == lines[j].indent;
      AboveStays(lines, x, j, n);
      assert ItemAbove(all, j, n) && all[j] == lines[j] && IsItem(lines, j);
      forall i: nat | ItemAbove(all, i, n) ensures i == j { OneAbove(lines, i, j, n); }
    } else {
      NoneAbove(all, n);
    }
  }

  lemma {:induction false} NoneAbove(lines: seq<Line>, k: nat)
    requires NoItemBefore(lines, k)
    ensures forall j: nat :: !ItemAbove(lines, j, k)
  {}

  lemma {:induction false} OneAbove(lines: seq<Line>, i: nat, j: nat, k: nat)
    requires ItemAbove(lines, i, k) && ItemAbove(lines, j, k)
    ensures i == j
  {
    assert i < j ==> !IsItem(lines, j);
    assert j < i ==> !IsItem(lines, i);
  }

  lemma {:induction false} RepetitionIsSeen(lines: seq<Line>, p: Preview, x: Line)
    requires Remembers(lines, p) && x.item.Some?
    ensures IsItem(lines + [x], |lines|)
    ensures x.item.value.id in p.ids <==> Twice(lines + [x], |lines|)
  {
    var all, n, id := lines + [x], |lines|, x.item.value.id;
    ItemsStay(lines, x);
    assert all[n] == x;
    if HasId(lines, id) {
      var j: nat :| IsItem(lines, j) && lines[j].item.value.id == id;
      assert IsItem(all, j) && all[j] == lines[j];
    }
    if Twice(all, n) {
      var j: nat :| j < n && IsItem(all, j) && all[j].item.value.id == id;
      assert IsItem(lines, j) && all[j] == lines[j];
    }
  }

  lemma {:induction false} OneOfFour(n: nat, a: bool, b: bool, c: bool, d: bool, w: Warning)
    ensures
      w in WarnIf(a, Indentation(n)) + WarnIf(b, Caption(n)) + WarnIf(c, Identifiers(n)) + WarnIf(d, Repeated(n)) <==>
        (a && w == Indentation(n)) || (b && w == Caption(n)) || (c && w == Identifiers(n)) || (d && w == Repeated(n))
  {}

  lemma {:induction false} ItemDeserves(lines: seq<Line>, p: Preview, x: Line, w: Warning)
    requires Remembers(lines, p) && x.item.Some?
    ensures w in ItemWarnings(p, |lines| + 1, x.indent, x.item.value) <==>
              Deserves(lines + [x], |lines|, w)
  {
    var n, m := |lines| + 1, x.item.value;
    var a, b := WrongIndent(p.stack, x.indent), !BrowserLabel(m.caption);
    var c, d := (!m.page && m.content.Some?) || (m.page && m.content.None?), m.id in p.ids;
    OneOfFour(n, a, b, c, d, w);
    IndentIsJudged(lines, p, x);
    RepetitionIsSeen(lines, p, x);
    assert (lines + [x])[|lines|] == x;
    FourDeserve(lines + [x], |lines|, a, b, c, d, w);
  }

  lemma {:induction false} FourDeserve(lines: seq<Line>, k: nat, a: bool, b: bool, c: bool, d: bool, w: Warning)
    requires IsItem(lines, k)
    requires var m := lines[k].item.value;
             && (a <==> Misplaced(lines, k)) && (b <==> !BrowserLabel(m.caption)) && (c <==> m.page != m.content.Some?)
             && (d <==> Twice(lines, k))
    ensures Deserves(lines, k, w) <==>
              (a && w == Indentation(k + 1)) || (b && w == Caption(k + 1)) || (c && w == Identifiers(k + 1))
              || (d && w == Repeated(k + 1))
  {}

  lemma {:induction false} ItemIsShown(p: Preview, n: nat, x: Line)
    requires Plausible(x) && x.item.Some?
    ensures var q, m := ShowReading(p, n, x), x.item.value;
            && q.stack != [] && Last(q.stack).indent == x.indent && q.heading == p.heading
            && q.ids == p.ids + {m.id} && q.warnings == p.warnings + ItemWarnings(p, n, x.indent, m)
  {
    CloseKeepsRest(p, x.indent, p.ids, p.warnings);
  }

  lemma {:induction false} ItemWarned(lines: seq<Line>, p: Preview, x: Line, w: Warning)
    requires Remembers(lines, p) && x.item.Some?
    ensures w in p.warnings + ItemWarnings(p, |lines| + 1, x.indent, x.item.value) <==>
              Warned(lines + [x], w)
  {
    WarnedNext(lines, x, w);
    ItemDeserves(lines, p, x, w);
    assert WarningsAre(lines, p.warnings);
  }

  lemma {:induction false} ItemRemembers(lines: seq<Line>, p: Preview, x: Line)
    requires Remembers(lines, p) && Plausible(x) && x.item.Some?
    ensures Remembers(lines + [x], ShowReading(p, |lines| + 1, x))
  {
    var all, n := lines + [x], |lines|;
    var q := ShowReading(p, n + 1, x);
    ItemIsShown(p, n + 1, x);
    ItemBelow(lines, x);
    HashedNext(lines, x);
    assert TopIsAbove(all, q.stack) by { assert all[n] == x; }
    IdsGo(lines, x, p.ids);
    assert WarningsAre(all, q.warnings) by {
      forall w ensures w in q.warnings <==> Warned(all, w) { ItemWarned(lines, p, x, w); }
    }
  }

  lemma {:induction false} LineRemembers(lines: seq<Line>, p: Preview, x: Line)
    requires Remembers(lines, p) && Plausible(x)
    ensures Remembers(lines + [x], ShowReading(p, |lines| + 1, x))
  {
    if x.item.None? { PlainLine(lines, p, x); } else { ItemRemembers(lines, p, x); }
  }

  lemma {:induction false} PreviewRemembers(lines: seq<Line>)
    requires forall k :: 0 <= k < |lines| ==> Plausible(lines[k])
    ensures Remembers(lines, ShowReadings(lines))
  {
    if lines != [] {
      var init, x := lines[..|lines| - 1], Last(lines);
      PreviewRemembers(init);
      LineRemembers(init, ShowReadings(init), x);
      assert init + [x] == lines;
    }
  }

  /** An entry without content, and with nothing below it. */
  ghost predicate ChildlessAt(entries: seq<Entry>, i: nat)
  {
    i < |entries| && entries[i].contentId == ""
    && (i + 1 < |entries| ==> entries[i + 1].depth <= entries[i].depth)
  }

  lemma {:induction false} SomeChildless(entries: seq<Entry>)
    ensures !NoneChildless(entries) <==> exists i: nat :: ChildlessAt(entries, i)
  {
    if !NoneChildless(entries) {
      var i: nat :| i < |entries| && Childless(entries, i);
      assert ChildlessAt(entries, i);
    }
    if i: nat :| ChildlessAt(entries, i) { assert Childless(entries, i); }
  }

  lemma {:induction false} ClosingLeavesRoots(p: Preview)
    ensures CloseFrom(p, 0).roots == [] <==> p.stack == [] && p.roots == []
    decreases |p.stack|
  {
    if p.stack != [] { ClosingLeavesRoots(Close(p)); }
  }

  lemma {:induction false} LinesWarn(lines: seq<Line>, p: Preview, w: Warning)
    requires Remembers(lines, p)
    ensures w in p.warnings <==> exists k: nat :: k < |lines| && Deserves(lines, k, w)
    ensures w.EmptyGroups? || w.NoItems? ==> w !in p.warnings
    ensures p.stack == [] <==> NoItemBefore(lines, |lines|)
    ensures p.stack == [] ==> p.roots == []
  {
    assert w in p.warnings <==> Warned(lines, w);
    if p.stack != [] {
      var j: nat :| ItemAbove(lines, j, |lines|) && Last(p.stack).indent == lines[j].indent;
      assert IsItem(lines, j);
    }
  }

  lemma {:induction false} ClosingWarns(warnings: seq<Warning>, a: bool, b: bool, w: Warning)
    ensures w in warnings + WarnIf(a, EmptyGroups) + WarnIf(b, NoItems) <==>
              w in warnings || (a && w == EmptyGroups) || (b && w == NoItems)
  {}

  /** Every warning is deserved and every desert is warned of: a line warning names a line
      and what is wrong with it, and the last two tell of childless groups and of a text
      without items. */
  lemma {:induction false} WarnsExactlyWhen(text: string, w: Warning)
    ensures var lines, (nodes, warnings) := Readings(BrowserLines(text)), PreviewOf(BrowserLines(text));
            w in warnings <==>
              match w
              case EmptyGroups => exists i: nat :: ChildlessAt(Listing(nodes, 0), i)
              case NoItems => NoItemBefore(lines, |lines|)
              case _ => exists k: nat :: k < |lines| && Deserves(lines, k, w)
  {
    var lines := Readings(BrowserLines(text));
    var p := ShowLines(BrowserLines(text));
    ReadingsShow(BrowserLines(text));
    PreviewRemembers(lines);
    LinesWarn(lines, p, w);
    CloseKeepsRest(p, 0, p.ids, p.warnings);
    ClosingLeavesRoots(p);
    var nodes := CloseFrom(p, 0).roots;
    EmptyGroupShows(nodes, 0);
    SomeChildless(Listing(nodes, 0));
    ClosingWarns(p.warnings, HasEmptyGroup(nodes), nodes == [], w);
  }
}
