/** The menu language, without the parser: a text is accepted exactly when its lines are
    the spelling of a menu, under a heading or not. */
module MenuLanguage {
  import opened Common
  import opened Trees
  import opened MenuGrammar
  import opened Menus
  import opened MenuPreview
  import opened MenuRender

  // ------------------------------------------------------------------ what is written

  /** The lines that hold more than spaces, without what trails them. */
  function Kept(lines: seq<string>): seq<string>
  {
    if lines == [] then []
    else
      var line := TrimRight(Last(lines));
      Kept(lines[..|lines| - 1]) + if line == "" then [] else [line]
  }

  predicate Heading(line: string)
  {
    "# " <= line && '\t' !in line
  }

  /** A heading perhaps, and then one row for each entry. */
  ghost predicate Written(kept: seq<string>, heading: bool, entries: seq<Entry>)
  {
    if heading then kept != [] && Heading(kept[0]) && kept[1..] == RowsOf(entries) else kept == RowsOf(entries)
  }

  ghost predicate IsWritten(lines: seq<string>, entries: seq<Entry>)
  {
    Written(Kept(lines), true, entries) || Written(Kept(lines), false, entries)
  }

  /** An entry that can be written: identifiers as they must be, and a label without
      brackets, control characters and white space at its ends. */
  ghost predicate Writable(e: Entry)
  {
    && e.depth <= 12 && Identifier(e.id) && (e.contentId == "" || Identifier(e.contentId))
    && 1 <= |e.caption| <= 180 && !ServerSpace(e.caption[0]) && !ServerSpace(e.caption[|e.caption| - 1])
    && forall i :: 0 <= i < |e.caption| ==> e.caption[i] !in "[]<>\0\t\r\n"
  }

  /** Entries that make up a menu: one level down at a time, no identifier twice. */
  ghost predicate MenuOf(entries: seq<Entry>)
  {
    && |entries| <= 2000
    && (forall i {:trigger Writable(entries[i])} :: 0 <= i < |entries| ==> Writable(entries[i]))
    && (entries != [] ==> entries[0].depth == 0)
    && (forall i :: 0 < i < |entries| ==> entries[i].depth <= entries[i - 1].depth + 1)
    && (forall i, j :: 0 <= i < j < |entries| ==> entries[i].id != entries[j].id)
  }

  // ------------------------------------------------------------ what scans is written

  lemma {:induction false} LeadingSpaces(line: string)
    ensures line == Indented(Spaces(line)) + line[Spaces(line)..]
  {
    if line != "" && line[0] == ' ' {
      LeadingSpaces(line[1..]);
      assert line == [' '] + line[1..];
    }
  }

  /** An item that scans is the row of its entry. */
  lemma {:induction false} ItemIsRow(line: string, m: MenuLine, depth: nat)
    requires Match(line[Spaces(line)..]) == Some(m) && Spaces(line) == 2 * depth && (m.page <==> m.content.Some?)
    ensures line == RowText(EntryOf(depth, m)) && WellFormed(m)
  {
    LeadingSpaces(line);
    MatchReadsSpelling(line[Spaces(line)..], m);
    assert LineOf(EntryOf(depth, m)) == m;
  }

  lemma {:induction false} RowsGrow(entries: seq<Entry>, e: Entry)
    ensures RowsOf(entries + [e]) == RowsOf(entries) + [RowText(e)]
  {}

  lemma {:induction false} WrittenGrows(kept: seq<string>, heading: bool, entries: seq<Entry>, e: Entry)
    ensures Written(kept, heading, entries) ==> Written(kept + [RowText(e)], heading, entries + [e])
  {
    RowsGrow(entries, e);
    if heading && kept != [] { assert (kept + [RowText(e)])[1..] == kept[1..] + [RowText(e)]; }
  }

  lemma {:induction false} LineIsWritten(kept: seq<string>, s: Scan, raw: string)
    requires Written(kept, s.heading, s.entries) && ScanLine(s, raw).Parsed?
    ensures var t, line := ScanLine(s, raw).value, TrimRight(raw);
            Written(kept + if line == "" then [] else [line], t.heading, t.entries)
  {
    var line := TrimRight(raw);
    if line == "" {
      assert kept + [] == kept;
    } else if "# " <= line && !s.heading && s.entries == [] {
      assert kept == RowsOf([]);
      assert (kept + [line])[1..] == RowsOf([]);
    } else {
      var m := Match(line[Spaces(line)..]).value;
      ItemIsRow(line, m, Spaces(line) / 2);
      WrittenGrows(kept, s.heading, s.entries, EntryOf(Spaces(line) / 2, m));
    }
  }

  lemma {:induction false} ScannedIsWritten(lines: seq<string>)
    requires ScanLines(lines).Parsed?
    ensures var s := ScanLines(lines).value; Written(Kept(lines), s.heading, s.entries)
  {
    if lines == [] {
      assert RowsOf([]) == [];
    } else {
      ScannedIsWritten(lines[..|lines| - 1]);
      LineIsWritten(Kept(lines[..|lines| - 1]), ScanLines(lines[..|lines| - 1]).value, Last(lines));
    }
  }

  /** A line that scans and is neither blank nor the heading adds its item. */
  lemma {:induction false} ItemLineAdds(s: Scan, raw: string, line: string)
    requires line == TrimRight(raw) && ScanLine(s, raw).Parsed? && line != ""
    requires !("# " <= line && !s.heading && s.entries == [])
    ensures '\t' !in line && Match(line[Spaces(line)..]).Some?
    ensures ScanLine(s, raw).value.entries == s.entries + [EntryOf(Spaces(line) / 2, Match(line[Spaces(line)..]).value)]
  {
    var k, m := Spaces(line), Match(line[Spaces(line)..]);
    assert '\t' !in line && m.Some?;
    assert ScanLine(s, raw) == ScanItem(s, k / 2, m.value);
    ItemIsAdded(s, k / 2, m.value);
  }

  lemma {:induction false} ItemIsAdded(s: Scan, depth: nat, m: MenuLine)
    requires ScanItem(s, depth, m).Parsed?
    ensures ScanItem(s, depth, m).value.entries == s.entries + [EntryOf(depth, m)]
  {}

  lemma {:induction false} OtherLineAdds(s: Scan, raw: string, line: string)
    requires line == TrimRight(raw) && ScanLine(s, raw).Parsed?
    requires line == "" || ("# " <= line && !s.heading && s.entries == [])
    ensures ScanLine(s, raw).value.entries == s.entries
  {}

  lemma {:induction false} LabelHasNoTab(line: string, m: MenuLine)
    requires '\t' !in line && Match(line[Spaces(line)..]) == Some(m)
    ensures '\t' !in m.caption
  {
    MatchReadsSpelling(line[Spaces(line)..], m);
    SpellingTabs(m);
  }

  lemma {:induction false} LineAddsNoTabs(s: Scan, raw: string)
    requires ScanLine(s, raw).Parsed?
    ensures var entries := ScanLine(s, raw).value.entries;
            entries == s.entries || (entries == s.entries + [Last(entries)] && '\t' !in Last(entries).caption)
  {
    var line := TrimRight(raw);
    if line != "" && !("# " <= line && !s.heading && s.entries == []) {
      ItemLineAdds(s, raw, line);
      LabelHasNoTab(line, Match(line[Spaces(line)..]).value);
    } else {
      OtherLineAdds(s, raw, line);
    }
  }

  lemma {:induction false} NoTabs(lines: seq<string>)
    requires ScanLines(lines).Parsed?
    ensures forall i {:trigger ScanLines(lines).value.entries[i]} :: 0 <= i < |ScanLines(lines).value.entries| ==>
              '\t' !in ScanLines(lines).value.entries[i].caption
  {
    if lines != [] {
      NoTabs(lines[..|lines| - 1]);
      LineAddsNoTabs(ScanLines(lines[..|lines| - 1]).value, Last(lines));
    }
  }

  lemma {:induction false} ScannedIsMenu(lines: seq<string>)
    requires ScanLines(lines).Parsed?
    ensures MenuOf(ScanLines(lines).value.entries)
  {
    ScanKeeps(lines);
    NoTabs(lines);
    var entries := ScanLines(lines).value.entries;
    forall i | 0 <= i < |entries| ensures Writable(entries[i]) { assert EntryOk(entries[i]); }
  }

  // ------------------------------------------------------------ what is written scans

  lemma {:induction false} LineIsWellFormed(e: Entry)
    requires Writable(e)
    ensures WellFormed(LineOf(e)) && ServerTakes(e.caption) && EntryOf(e.depth, LineOf(e)) == e
  {}

  lemma {:induction false} ItemScansTo(s: Scan, e: Entry)
    requires Writable(e) && !TooSteep(s.entries, e.depth) && e.id !in s.ids && |s.entries| < 2000
    ensures ItemScanned(s, 2 * e.depth, LineOf(e)) ==
            Parsed(s.(entries := s.entries + [e], ids := s.ids + {e.id}))
  {
    LineIsWellFormed(e);
  }

  lemma {:induction false} RowScansTo(s: Scan, raw: string, e: Entry)
    requires TrimRight(raw) == RowText(e) && Writable(e) && !TooSteep(s.entries, e.depth) && e.id !in s.ids
    requires |s.entries| < 2000
    ensures ScanLine(s, raw) == Parsed(s.(entries := s.entries + [e], ids := s.ids + {e.id}))
  {
    ItemScansTo(s, e);
    LineIsWellFormed(e);
    TrimmedScans(s, raw);
    ScanReads(s, TrimRight(raw), 2 * e.depth, LineOf(e));
  }

  lemma {:induction false} TrimmedScans(s: Scan, raw: string)
    ensures ScanLine(s, raw) == ScanLine(s, TrimRight(raw))
  {
    TrimmedOnce(raw);
  }

  lemma {:induction false} MenuInit(entries: seq<Entry>)
    requires entries != [] && MenuOf(entries)
    ensures MenuOf(entries[..|entries| - 1]) && Writable(Last(entries))
    ensures !TooSteep(entries[..|entries| - 1], Last(entries).depth)
  {
    var init := entries[..|entries| - 1];
    forall i | 0 <= i < |init| ensures Writable(init[i]) { assert Writable(entries[i]); }
    assert Writable(entries[|entries| - 1]);
  }

  lemma {:induction false} SameLast(a: seq<string>, x: string, b: seq<string>, y: string)
    requires a + [x] == b + [y]
    ensures a == b && x == y
  {
    assert |a + [x]| == |a| + 1 && |b + [y]| == |b| + 1;
    assert (a + [x])[..|a|] == a && (b + [y])[..|b|] == b;
    assert (a + [x])[|a|] == x && (b + [y])[|b|] == y;
  }

  lemma {:induction false} WrittenInit(kept: seq<string>, line: string, heading: bool, entries: seq<Entry>)
    requires entries != [] && Written(kept + [line], heading, entries)
    ensures line == RowText(Last(entries)) && Written(kept, heading, entries[..|entries| - 1])
  {
    var init, row := entries[..|entries| - 1], RowText(Last(entries));
    assert entries == init + [Last(entries)];
    RowsGrow(init, Last(entries));
    if heading {
      assert kept != [] by { assert |(kept + [line])[1..]| == |kept| == |RowsOf(entries)|; }
      assert (kept + [line])[1..] == kept[1..] + [line] && (kept + [line])[0] == kept[0];
      SameLast(kept[1..], line, RowsOf(init), row);
    } else {
      SameLast(kept, line, RowsOf(init), row);
    }
  }

  lemma {:induction false} NextIsNew(s: Scan, entries: seq<Entry>)
    requires ScanOk(s) && entries != [] && MenuOf(entries) && s.entries == entries[..|entries| - 1]
    ensures Last(entries).id !in s.ids
  {
    forall i | 0 <= i < |s.entries| ensures s.entries[i].id != Last(entries).id {
      assert s.entries[i] == entries[i] && i < |entries| - 1;
    }
  }

  /** The next row of the menu scans. */
  lemma {:induction false} NextRowScans(s: Scan, raw: string, entries: seq<Entry>)
    requires ScanOk(s) && entries != [] && MenuOf(entries) && s.entries == entries[..|entries| - 1]
    requires TrimRight(raw) == RowText(Last(entries))
    ensures ScanLine(s, raw).Parsed? && ScanLine(s, raw).value.entries == entries
    ensures ScanLine(s, raw).value.heading == s.heading
  {
    NextIsNew(s, entries);
    MenuInit(entries);
    assert entries == s.entries + [Last(entries)];
    RowScansTo(s, raw, Last(entries));
  }

  lemma {:induction false} HeadingScans(s: Scan, raw: string)
    requires s.entries == [] && !s.heading && Heading(TrimRight(raw))
    ensures ScanLine(s, raw) == Parsed(s.(heading := true))
  {}

  /** Only the heading is left to write. */
  lemma {:induction false} HeadingAlone(kept: seq<string>, line: string, heading: bool)
    requires Written(kept + [line], heading, [])
    ensures heading && kept == [] && Heading(line)
  {
    assert RowsOf([]) == [];
    assert |kept + [line]| == |kept| + 1;
    if heading { assert |(kept + [line])[1..]| == |kept|; }
  }

  lemma {:induction false} LastLineScans(lines: seq<string>)
    requires lines != [] && ScanLines(lines[..|lines| - 1]).Parsed?
    ensures ScanLines(lines) == ScanLine(ScanLines(lines[..|lines| - 1]).value, Last(lines))
    ensures TrimRight(Last(lines)) == "" ==> ScanLines(lines) == ScanLines(lines[..|lines| - 1])
    ensures TrimRight(Last(lines)) == "" ==> Kept(lines) == Kept(lines[..|lines| - 1])
  {
    assert '\t' !in "";
  }

  lemma {:induction false} WrittenScans(lines: seq<string>, heading: bool, entries: seq<Entry>)
    requires Written(Kept(lines), heading, entries) && MenuOf(entries)
    ensures ScanLines(lines).Parsed?
    ensures ScanLines(lines).value.entries == entries && ScanLines(lines).value.heading == heading
    decreases lines, 1
  {
    if lines == [] {
      assert |RowsOf(entries)| == |entries|;
    } else if TrimRight(Last(lines)) == "" {
      assert Kept(lines) == Kept(lines[..|lines| - 1]);
      WrittenScans(lines[..|lines| - 1], heading, entries);
      LastLineScans(lines);
    } else {
      WrittenLineScans(lines, heading, entries);
    }
  }

  lemma {:induction false} WrittenLineScans(lines: seq<string>, heading: bool, entries: seq<Entry>)
    requires lines != [] && Written(Kept(lines), heading, entries) && MenuOf(entries) && TrimRight(Last(lines)) != ""
    ensures ScanLines(lines).Parsed?
    ensures ScanLines(lines).value.entries == entries && ScanLines(lines).value.heading == heading
    decreases lines, 0
  {
    var init, line := lines[..|lines| - 1], TrimRight(Last(lines));
    assert Kept(lines) == Kept(init) + [line];
    if entries == [] {
      HeadingAlone(Kept(init), line, heading);
      assert Written(Kept(init), false, []);
      WrittenScans(init, false, []);
      LastLineScans(lines);
      HeadingScans(ScanLines(init).value, Last(lines));
    } else {
      WrittenInit(Kept(init), line, heading, entries);
      MenuInit(entries);
      WrittenScans(init, heading, entries[..|entries| - 1]);
      LastLineScans(lines);
      ScanKeeps(init);
      NextRowScans(ScanLines(init).value, Last(lines), entries);
    }
  }

  /** The lines scan to these entries exactly when they are their spelling. */
  lemma {:induction false} ScansExactlyWhen(lines: seq<string>, entries: seq<Entry>)
    ensures ScanLines(lines).Parsed? && ScanLines(lines).value.entries == entries <==>
            MenuOf(entries) && IsWritten(lines, entries)
  {
    if ScanLines(lines).Parsed? && ScanLines(lines).value.entries == entries {
      ScannedIsWritten(lines);
      ScannedIsMenu(lines);
    }
    if MenuOf(entries) && IsWritten(lines, entries) {
      WrittenScans(lines, Written(Kept(lines), true, entries), entries);
    }
  }

  /** The text spells these entries, and every group has something below it. */
  ghost predicate Spells(text: string, entries: seq<Entry>)
  {
    && entries != [] && MenuOf(entries) && IsWritten(Lines(text), entries)
    && forall i :: 0 <= i < |entries| && entries[i].contentId == "" ==>
         i + 1 < |entries| && entries[i + 1].depth > entries[i].depth
  }

  /** The parser accepts exactly the texts of at most one MiB, not all on one line of that
      length, that spell a menu; and it can return only the forest that lists as it. */
  lemma {:induction false} AcceptsExactlyWhen(text: string, forest: seq<Node>)
    ensures AcceptedText(text) <==>
              && Utf8Length(text) <= 1_048_576 && !(Utf8Length(text) == 1_048_576 && '\n' !in text)
              && exists entries :: Spells(text, entries)
    ensures AcceptedText(text) && Listing(forest, 0) == ScanLines(Lines(text)).value.entries ==>
              Spells(text, Listing(forest, 0))
  {
    var lines := Lines(text);
    if AcceptedText(text) {
      var entries := ScanLines(lines).value.entries;
      ScansExactlyWhen(lines, entries);
      forall i | 0 <= i < |entries| && entries[i].contentId == ""
        ensures i + 1 < |entries| && entries[i + 1].depth > entries[i].depth {
        assert !Childless(entries, i);
      }
      assert Spells(text, entries);
    }
    forall entries | Spells(text, entries) ensures AcceptedLines(lines) {
      ScansExactlyWhen(lines, entries);
    }
  }
}
