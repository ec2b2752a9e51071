/** Labels that only one side refuses, and exactly what they do to a menu. */
module MenuLabels {
  import opened Common
  import opened Trees
  import opened MenuGrammar
  import opened Menus
  import opened MenuPreview

  // ---------------------------------------------------- the same menu, relabelled

  const PLAIN: string := "x"

  /** The same item under a label nobody objects to. */
  function Relabel(m: MenuLine): MenuLine
  {
    m.(caption := PLAIN)
  }

  function ItemOn(line: string): Option<MenuLine>
  {
    Match(line[Spaces(line)..])
  }

  function RelabelLine(line: string): string
  {
    if ItemOn(line).Some? then Indented(Spaces(line)) + Spell(Relabel(ItemOn(line).value)) else line
  }

  function Relabelled(lines: seq<string>): seq<string>
  {
    if lines == [] then [] else Relabelled(lines[..|lines| - 1]) + [RelabelLine(Last(lines))]
  }

  lemma {:induction false} RelabelledInit(lines: seq<string>)
    requires lines != []
    ensures |Relabelled(lines)| == |lines|
    ensures Relabelled(lines)[..|lines| - 1] == Relabelled(lines[..|lines| - 1])
    ensures Last(Relabelled(lines)) == RelabelLine(Last(lines))
  {
    if |lines| > 1 { RelabelledInit(lines[..|lines| - 1]); }
  }

  /** Every label is one the server takes. */
  ghost predicate AllTaken(lines: seq<string>)
  {
    forall i {:trigger ItemOn(lines[i])} :: 0 <= i < |lines| && ItemOn(lines[i]).Some? ==>
        ServerTakes(ItemOn(lines[i]).value.caption)
  }

  /** Every label is one the preview does not object to. */
  ghost predicate AllUnobjected(lines: seq<string>)
  {
    forall i {:trigger ItemOn(lines[i])} :: 0 <= i < |lines| && ItemOn(lines[i]).Some? ==>
        BrowserLabel(ItemOn(lines[i]).value.caption)
  }

  lemma {:induction false} PlainIsPlain()
    ensures LabelText(PLAIN) && ServerTakes(PLAIN) && BrowserLabel(PLAIN) && PlainLabel(PLAIN)
  {}

  /** The item on an item line, and on its relabelled form. */
  lemma {:induction false} ItemRelabelled(line: string, spaces: nat, m: MenuLine)
    requires ItemLine(line, spaces, m)
    ensures ItemOn(line) == Some(m) && ItemLine(RelabelLine(line), spaces, Relabel(m))
    ensures !BlankLine(line) && !HeadingLine(line)
  {
    ItemIsRead(line, spaces, m);
    ItemIsNotBlank(line, spaces, m);
    PlainIsPlain();
  }

  lemma {:induction false} NoItemOn(line: string)
    requires BlankLine(line) || HeadingLine(line)
    ensures ItemOn(line) == None && RelabelLine(line) == line
  {
    if line != "" && line[0] == '#' {
      assert Spaces(line) == 0 && line[0..] == line;
    } else {
      assert BlankLine(line);
      AllSpaces(line);
      assert line[|line|..] == "";
    }
  }

  lemma {:induction false} AllSpaces(line: string)
    requires BlankLine(line)
    ensures Spaces(line) == |line|
  {
    if line != "" { AllSpaces(line[1..]); }
  }

  // ------------------------------------------------------------ side by side

  /** An entry but for its label. */
  function Unlabelled(entries: seq<Entry>): seq<Entry>
  {
    seq(|entries|, i requires 0 <= i < |entries| => entries[i].(caption := ""))
  }

  lemma {:induction false} UnlabelledGrows(a: seq<Entry>, e: Entry, b: seq<Entry>, f: Entry)
    requires Unlabelled(a) == Unlabelled(b) && e.(caption := "") == f.(caption := "")
    ensures Unlabelled(a + [e]) == Unlabelled(b + [f])
  {
    forall i | 0 <= i < |a| + 1 ensures Unlabelled(a + [e])[i] == Unlabelled(b + [f])[i] {
      assert i < |a| ==> Unlabelled(a)[i] == Unlabelled(b)[i];
    }
    assert |a| == |Unlabelled(a)| == |b|;
  }

  /** What the labels do not decide. */
  lemma {:induction false} UnlabelledKeeps(a: seq<Entry>, b: seq<Entry>)
    requires Unlabelled(a) == Unlabelled(b)
    ensures |a| == |b| && (forall i :: 0 <= i < |a| ==> a[i].(caption := "") == b[i].(caption := ""))
    ensures NoneChildless(a) <==> NoneChildless(b)
    ensures forall depth: nat :: TooSteep(a, depth) == TooSteep(b, depth)
  {
    assert |a| == |Unlabelled(a)| == |b|;
    forall i | 0 <= i < |a| ensures a[i].(caption := "") == b[i].(caption := "") {
      assert Unlabelled(a)[i] == Unlabelled(b)[i];
    }
    forall i | 0 <= i < |a| ensures Childless(a, i) == Childless(b, i) {
      assert a[i].(caption := "").contentId == b[i].(caption := "").contentId
          && a[i].(caption := "").depth == b[i].(caption := "").depth;
      if i + 1 < |a| { assert a[i + 1].(caption := "").depth == b[i + 1].(caption := "").depth; }
    }
    if a != [] { assert Last(a).(caption := "").depth == Last(b).(caption := "").depth; }
  }

  /** Two scans that differ in labels at most. */
  ghost predicate ScanAlike(s: Scan, t: Scan)
  {
    Unlabelled(s.entries) == Unlabelled(t.entries) && s.ids == t.ids && s.heading == t.heading
  }

  /** Two silent previews that differ in labels at most. */
  ghost predicate ShownAlike(p: Preview, q: Preview)
  {
    && Regular(p.stack) && Regular(q.stack) && |p.stack| == |q.stack| && Unlabelled(Shown(p)) == Unlabelled(Shown(q))
    && p.ids == q.ids
    && p.heading == q.heading
    && (p.stack == [] ==> p.roots == [])
    && (q.stack == [] ==> q.roots == [])
  }

  lemma {:induction false} ItemScansAlike(s: Scan, t: Scan, spaces: nat, m: MenuLine)
    requires ScanAlike(s, t) && WellFormed(m)
    ensures ItemScanned(s, spaces, m).Parsed? <==> ItemScanned(t, spaces, Relabel(m)).Parsed? && ServerTakes(m.caption)
    ensures ItemScanned(s, spaces, m).Parsed? ==>
              ScanAlike(ItemScanned(s, spaces, m).value, ItemScanned(t, spaces, Relabel(m)).value)
  {
    PlainIsPlain();
    UnlabelledKeeps(s.entries, t.entries);
    UnlabelledGrows(s.entries, EntryOf(spaces / 2, m), t.entries, EntryOf(spaces / 2, Relabel(m)));
  }

  lemma {:induction false} LineScansAlike(s: Scan, t: Scan, line: string)
    requires ScanAlike(s, t) && Readable(line)
    ensures ScanLine(s, line).Parsed? <==>
            ScanLine(t, RelabelLine(line)).Parsed? && (ItemOn(line).Some? ==> ServerTakes(ItemOn(line).value.caption))
    ensures ScanLine(s, line).Parsed? ==> ScanAlike(ScanLine(s, line).value, ScanLine(t, RelabelLine(line)).value)
  {
    if BlankLine(line) || HeadingLine(line) {
      NoItemOn(line);
      UnlabelledKeeps(s.entries, t.entries);
      OtherLineScans(s, t, line);
    } else {
      var spaces: nat, m :| ItemLine(line, spaces, m);
      ItemRelabelled(line, spaces, m);
      ScanReads(s, line, spaces, m);
      ScanReads(t, RelabelLine(line), spaces, Relabel(m));
      ItemScansAlike(s, t, spaces, m);
    }
  }

  lemma {:induction false} OtherLineScans(s: Scan, t: Scan, line: string)
    requires ScanAlike(s, t) && (BlankLine(line) || HeadingLine(line)) && (s.entries == [] <==> t.entries == [])
    ensures ScanLine(s, line).Parsed? <==> ScanLine(t, line).Parsed?
    ensures ScanLine(s, line).Parsed? ==> ScanAlike(ScanLine(s, line).value, ScanLine(t, line).value)
  {
    if BlankLine(line) {
      BlankTrims(line);
    } else {
      TrimsToHash(line);
      assert line[0] == '#' && TrimRight(line) == line && Spaces(line) == 0 && line[0..] == line;
      assert Match(line) == None;
    }
  }

  lemma {:induction false} AllTakenGrows(lines: seq<string>)
    requires lines != []
    ensures AllTaken(lines) <==>
            AllTaken(lines[..|lines| - 1])
                && (ItemOn(Last(lines)).Some? ==> ServerTakes(ItemOn(Last(lines)).value.caption))
  {
    var init, last := lines[..|lines| - 1], Last(lines);
    assert lines == init + [last];
    if AllTaken(lines) {
      forall i | 0 <= i < |init| && ItemOn(init[i]).Some? ensures ServerTakes(ItemOn(init[i]).value.caption) {
        assert ItemOn(lines[i]).Some?;
      }
      assert ItemOn(lines[|init|]) == ItemOn(last);
    }
  }

  lemma {:induction false} AllUnobjectedGrows(lines: seq<string>)
    requires lines != []
    ensures AllUnobjected(lines) <==>
            AllUnobjected(lines[..|lines| - 1])
                && (ItemOn(Last(lines)).Some? ==> BrowserLabel(ItemOn(Last(lines)).value.caption))
  {
    var init, last := lines[..|lines| - 1], Last(lines);
    assert lines == init + [last];
    if AllUnobjected(lines) {
      forall i | 0 <= i < |init| && ItemOn(init[i]).Some? ensures BrowserLabel(ItemOn(init[i]).value.caption) {
        assert ItemOn(lines[i]).Some?;
      }
      assert ItemOn(lines[|init|]) == ItemOn(last);
    }
  }

  /** Without the labels' checks both menus scan alike. */
  lemma {:induction false} LinesScanAlike(lines: seq<string>)
    requires AllReadable(lines)
    ensures ScanLines(lines).Parsed? <==> ScanLines(Relabelled(lines)).Parsed? && AllTaken(lines)
    ensures ScanLines(lines).Parsed? ==> ScanAlike(ScanLines(lines).value, ScanLines(Relabelled(lines)).value)
  {
    if lines != [] {
      var init := lines[..|lines| - 1];
      ReadableInit(lines);
      LinesScanAlike(init);
      AllTakenGrows(lines);
      RelabelledInit(lines);
      if ScanLines(init).Parsed? {
        LineScansAlike(ScanLines(init).value, ScanLines(Relabelled(init)).value, Last(lines));
      }
    }
  }

  // --------------------------------------------------------- the preview's side

  lemma {:induction false} ItemWarns(p: Preview, n: nat, spaces: nat, m: MenuLine)
    requires p.warnings == []
    ensures ShowItem(p, n, spaces, m).warnings == [] <==>
            && !WrongIndent(p.stack, spaces)
            && BrowserLabel(m.caption)
            && (m.page <==> m.content.Some?)
            && m.id !in p.ids
    ensures ShowItem(p, n, spaces, m).ids == p.ids + {m.id} && ShowItem(p, n, spaces, m).heading == p.heading
  {
    CloseKeepsRest(p, spaces, p.ids, p.warnings);
  }

  lemma {:induction false} ItemShowsAlike(p: Preview, q: Preview, n: nat, spaces: nat, m: MenuLine)
    requires ShownAlike(p, q) && p.warnings == q.warnings == []
    ensures ShowItem(p, n, spaces, m).warnings == [] <==>
            ShowItem(q, n, spaces, Relabel(m)).warnings == [] && BrowserLabel(m.caption)
    ensures ShowItem(p, n, spaces, m).warnings == [] ==>
            ShownAlike(ShowItem(p, n, spaces, m), ShowItem(q, n, spaces, Relabel(m)))
  {
    PlainIsPlain();
    ItemWarns(p, n, spaces, m);
    ItemWarns(q, n, spaces, Relabel(m));
    if ShowItem(p, n, spaces, m).warnings == [] {
      var depth := spaces / 2;
      assert spaces == 2 * depth;
      PushShows(p, n, depth, m);
      PushShows(q, n, depth, Relabel(m));
      UnlabelledGrows(Shown(p), EntryOf(depth, m), Shown(q), EntryOf(depth, Relabel(m)));
    }
  }

  lemma {:induction false} OtherLineShows(p: Preview, q: Preview, n: nat, line: string)
    requires ShownAlike(p, q) && p.warnings == q.warnings == [] && (BlankLine(line) || HeadingLine(line))
    ensures ShowLine(p, n, line).warnings == [] <==> ShowLine(q, n, line).warnings == []
    ensures ShowLine(p, n, line).warnings == [] ==> ShownAlike(ShowLine(p, n, line), ShowLine(q, n, line))
  {
    if BlankLine(line) {
      BlankTrims(line);
    } else {
      TrimsToHash(line);
    }
  }

  lemma {:induction false} LineShowsAlike(p: Preview, q: Preview, n: nat, line: string)
    requires ShownAlike(p, q) && p.warnings == q.warnings == [] && Readable(line)
    ensures ShowLine(p, n, line).warnings == [] <==>
            ShowLine(q, n, RelabelLine(line)).warnings == []
                && (ItemOn(line).Some? ==> BrowserLabel(ItemOn(line).value.caption))
    ensures ShowLine(p, n, line).warnings == [] ==> ShownAlike(ShowLine(p, n, line), ShowLine(q, n, RelabelLine(line)))
  {
    if BlankLine(line) || HeadingLine(line) {
      NoItemOn(line);
      OtherLineShows(p, q, n, line);
    } else {
      var spaces: nat, m :| ItemLine(line, spaces, m);
      ItemRelabelled(line, spaces, m);
      ItemShown(p, NOTHING_SCANNED, n, line, spaces, m);
      ItemShown(q, NOTHING_SCANNED, n, RelabelLine(line), spaces, Relabel(m));
      ItemShowsAlike(p, q, n, spaces, m);
    }
  }

  /** Without the labels' checks both menus look alike. */
  lemma {:induction false} LinesShowAlike(lines: seq<string>)
    requires AllReadable(lines)
    ensures ShowLines(lines).warnings == [] <==> ShowLines(Relabelled(lines)).warnings == [] && AllUnobjected(lines)
    ensures ShowLines(lines).warnings == [] ==> ShownAlike(ShowLines(lines), ShowLines(Relabelled(lines)))
  {
    if lines != [] {
      var init := lines[..|lines| - 1];
      ReadableInit(lines);
      LinesShowAlike(init);
      AllUnobjectedGrows(lines);
      RelabelledInit(lines);
      WarningsStay(ShowLines(init), |lines|, Last(lines));
      WarningsStay(ShowLines(Relabelled(init)), |lines|, RelabelLine(Last(lines)));
      if ShowLines(init).warnings == [] {
        LineShowsAlike(ShowLines(init), ShowLines(Relabelled(init)), |lines|, Last(lines));
      }
    }
  }

  // ------------------------------------------------------------- the verdicts

  lemma {:induction false} AcceptedButForLabels(lines: seq<string>)
    requires AllReadable(lines)
    ensures AcceptedLines(lines) <==> AcceptedLines(Relabelled(lines)) && AllTaken(lines)
  {
    LinesScanAlike(lines);
    if ScanLines(lines).Parsed? {
      UnlabelledKeeps(ScanLines(lines).value.entries, ScanLines(Relabelled(lines)).value.entries);
    }
  }

  /** What the closing checks of the preview see. */
  lemma {:induction false} PreviewEnds(p: Preview)
    requires Regular(p.stack)
    ensures var nodes := CloseFrom(p, 0).roots;
            (HasEmptyGroup(nodes) <==> !NoneChildless(Shown(p))) && (nodes == [] <==> Shown(p) == [])
  {
    ClosingKeepsShown(p, 0);
    var nodes := CloseFrom(p, 0).roots;
    assert Listing(nodes, 0) == Shown(p);
    EmptyGroupShows(nodes, 0);
    ListingDepths(nodes, 0);
  }

  lemma {:induction false} SilentButForLabels(lines: seq<string>)
    requires AllReadable(lines)
    ensures PreviewOf(lines).1 == [] <==> PreviewOf(Relabelled(lines)).1 == [] && AllUnobjected(lines)
  {
    LinesShowAlike(lines);
    var p, q := ShowLines(lines), ShowLines(Relabelled(lines));
    if p.warnings == [] {
      PreviewEnds(p);
      PreviewEnds(q);
      UnlabelledKeeps(Shown(p), Shown(q));
    }
  }

  lemma {:induction false} RelabelledIsClean(lines: seq<string>)
    requires AllReadable(lines)
    ensures Clean(Relabelled(lines)) && Items(Relabelled(lines)) == Items(lines)
  {
    if lines != [] {
      var init, line := lines[..|lines| - 1], Last(lines);
      ReadableInit(lines);
      RelabelledIsClean(init);
      RelabelledInit(lines);
      RelabelledLineIsClean(line);
      forall i | 0 <= i < |lines| ensures CleanLine(Relabelled(lines)[i]) {
        if i < |init| { assert CleanLine(Relabelled(init)[i]); }
      }
    }
  }

  lemma {:induction false} RelabelledLineIsClean(line: string)
    requires Readable(line)
    ensures CleanLine(RelabelLine(line))
    ensures BlankLine(RelabelLine(line)) || "# " <= RelabelLine(line) <==> BlankLine(line) || "# " <= line
  {
    if BlankLine(line) || HeadingLine(line) {
      NoItemOn(line);
    } else {
      var spaces: nat, m :| ItemLine(line, spaces, m);
      ItemRelabelled(line, spaces, m);
      PlainIsPlain();
      ItemEdges(line, spaces, m);
      ItemEdges(RelabelLine(line), spaces, Relabel(m));
      ItemIsNotBlank(RelabelLine(line), spaces, Relabel(m));
    }
  }

  /** For any text of readable lines within the size limits: each side accepts exactly
      when the same menu under plain labels is fine and it takes every label; so the two
      agree exactly when, for a menu that is fine otherwise, the one takes all the
      labels exactly when the other does. */
  lemma {:induction false} LabelsDecide(text: string)
    requires WithinLimits(text) && AllReadable(Trims(Lines(text)))
    ensures var lines := Trims(Lines(text));
            var fine, accepted, silent :=
                AcceptedLines(Relabelled(lines)), AcceptedText(text), PreviewOf(BrowserLines(text)).1 == [];
            && (accepted <==> fine && AllTaken(lines))
            && (silent <==> fine && AllUnobjected(lines))
            && ((silent <==> accepted) <==> (fine ==> (AllTaken(lines) <==> AllUnobjected(lines))))
  {
    var lines := Trims(Lines(text));
    BothSeeTheLines(text);
    AcceptedButForLabels(lines);
    SilentButForLabels(lines);
    RelabelledIsClean(lines);
    PreviewAgrees(Relabelled(lines));
  }

  // ---------------------------------------------------------- a menu of one page

  lemma {:induction false} OneLineText(m: MenuLine)
    requires WellFormed(m) && '\n' !in m.caption
    ensures Lines(Spell(m)) == [Spell(m)]
  {
    assert forall c :: c in m.id ==> Word(c);
    assert m.content.Some? ==> forall c :: c in m.content.value ==> Word(c);
    var t := Spell(m);
    assert t == "- [" + m.caption + Opening(m.page) + m.id + Tail(m.content) + ")";
    assert forall c :: c in Opening(m.page) ==> c in "](page:group:";
    assert '\n' !in t;
    FindIs(t, '\n', |t|);
  }

  lemma {:induction false} ShortText(text: string)
    ensures Utf8Length(text) <= 4 * |text|
  {
    if text != "" { ShortText(text[..|text| - 1]); }
  }

  ghost predicate OnePage(m: MenuLine)
  {
    WellFormed(m) && m.page && m.content.Some?
  }

  lemma {:induction false} ItemAlone(m: MenuLine)
    requires WellFormed(m)
    ensures
      && ScanLines([Spell(m)]) == ItemScanned(NOTHING_SCANNED, 0, m)
      && ShowLines([Spell(m)]) == ShowItem(NOTHING_SHOWN, 1, 0, m)
  {
    var line := Spell(m);
    assert Indented(0) + line == line;
    ItemShown(NOTHING_SHOWN, NOTHING_SCANNED, 1, line, 0, m);
    OneLine(line);
  }

  lemma {:induction false} PageAlone(m: MenuLine)
    requires OnePage(m)
    ensures CloseFrom(ShowItem(NOTHING_SHOWN, 1, 0, m), 0).roots == [ItemNode(m)] && !HasEmptyGroup([ItemNode(m)])
    ensures ShowItem(NOTHING_SHOWN, 1, 0, m).warnings == [] <==> BrowserLabel(m.caption)
    ensures ItemScanned(NOTHING_SCANNED, 0, m).Parsed? <==> ServerTakes(m.caption)
    ensures ItemScanned(NOTHING_SCANNED, 0, m).Parsed? ==>
              ItemScanned(NOTHING_SCANNED, 0, m).value.entries == [EntryOf(0, m)]
  {
    var p := ShowItem(NOTHING_SHOWN, 1, 0, m);
    assert p.stack == [Frame(0, ItemNode(m))];
    assert Close(p).roots == [ItemNode(m)];
    assert m.content.value != "";
  }

  lemma {:induction false} OnePageTaken(m: MenuLine)
    requires OnePage(m)
    ensures AcceptedLines([Spell(m)]) <==> ServerTakes(m.caption)
  {
    ItemAlone(m);
    PageAlone(m);
    assert m.content.value != "";
  }

  lemma {:induction false} OnePageShown(m: MenuLine)
    requires OnePage(m)
    ensures PreviewOf([Spell(m)]).1 == [] <==> BrowserLabel(m.caption)
  {
    ItemAlone(m);
    PageAlone(m);
  }

  lemma {:induction false} OnePageJudged(m: MenuLine)
    requires OnePage(m) && '\n' !in m.caption && |m.caption| <= MAX_CAPTION
    ensures AcceptedText(Spell(m)) <==> ServerTakes(m.caption)
    ensures PreviewOf(BrowserLines(Spell(m))).1 == [] <==> BrowserLabel(m.caption)
  {
    OneLineText(m);
    ShortSpelling(m);
    OnePageTaken(m);
    OnePageShown(m);
    assert BrowserLines(Spell(m)) == [Spell(m)];
  }

  lemma {:induction false} ShortSpelling(m: MenuLine)
    requires OnePage(m) && |m.caption| <= MAX_CAPTION
    ensures Utf8Length(Spell(m)) < MAX_TREE_BYTES
  {
    ShortText(Spell(m));
    SpellingParts(m);
    assert |Spell(m)| <= MAX_CAPTION + 2 * MAX_IDENTIFIER + 20;
  }

  /** On a menu of one page the two sides agree exactly when its label is plain. */
  lemma {:induction false} OnePageAgrees(m: MenuLine)
    requires OnePage(m) && '\n' !in m.caption && |m.caption| <= MAX_CAPTION
    ensures (AcceptedText(Spell(m)) <==> PreviewOf(BrowserLines(Spell(m))).1 == []) <==> PlainLabel(m.caption)
  {
    OnePageJudged(m);
    LabelsAgree(m.caption);
  }

  /** A label with a byte order mark before it: the server takes the menu, and the
      preview warns. */
  lemma {:induction false} ByteOrderMarkIsTaken(m: MenuLine)
    requires OnePage(m) && m.caption == "\U{FEFF}a"
    ensures AcceptedText(Spell(m)) && PreviewOf(BrowserLines(Spell(m))).1 != []
  {
    OnePageJudged(m);
  }

  /** A label with a tab inside it: the preview is silent, and the server refuses. */
  lemma {:induction false} TabIsShown(m: MenuLine)
    requires OnePage(m) && m.caption == "a\tb"
    ensures !AcceptedText(Spell(m)) && PreviewOf(BrowserLines(Spell(m))).1 == []
  {
    assert m.caption[1] == '\t';
    OnePageJudged(m);
  }
}
