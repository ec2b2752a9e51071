/** One line of the menu language: `- [Label](group:id)` or
    `- [Label](page:location-id/content-id)`. Texts are sequences of code points. */
module MenuGrammar {
  import opened Common

  const MAX_IDENTIFIER: nat := 96

  predicate Lower(c: char)
  {
    'a' <= c <= 'z'
  }

  predicate Word(c: char)
  {
    Lower(c) || '0' <= c <= '9' || c == '-'
  }

  predicate Identifier(s: string)
  {
    1 <= |s| <= MAX_IDENTIFIER && Lower(s[0]) && forall i :: 0 <= i < |s| ==> Word(s[i])
  }

  predicate LabelText(s: string)
  {
    s != "" && forall i :: 0 <= i < |s| ==> s[i] !in "[]<>"
  }

  datatype MenuLine = MenuLine(caption: string, page: bool, id: Id, content: Option<Id>)

  predicate WellFormed(m: MenuLine)
  {
    LabelText(m.caption) && Identifier(m.id) && (m.content.Some? ==> Identifier(m.content.value))
  }

  function Tail(content: Option<Id>): string
  {
    if content.None? then "" else "/" + content.value
  }

  function Opening(page: bool): string
  {
    if page then "](page:" else "](group:"
  }

  function Spell(m: MenuLine): string
  {
    "- [" + m.caption + Opening(m.page) + (m.id + Tail(m.content)) + ")"
  }

  /** The first position of a character; the length when there is none. */
  function Find(s: string, c: char): (k: nat)
    ensures k <= |s| && (k < |s| ==> s[k] == c)
    ensures forall i :: 0 <= i < k ==> s[i] != c
  {
    if s == "" || s[0] == c then 0 else 1 + Find(s[1..], c)
  }

  /** What stands between the opening and the closing parenthesis. */
  function MatchTarget(caption: string, page: bool, body: string): Option<MenuLine>
  {
    var k := Find(body, '/');
    var m := MenuLine(caption, page, body[..k], if k == |body| then None else Some(body[k + 1..]));
    if WellFormed(m) then Some(m) else None
  }

  function MatchRest(caption: string, page: bool, rest: string): Option<MenuLine>
  {
    if rest == "" || Last(rest) != ')' then None else MatchTarget(caption, page, rest[..|rest| - 1])
  }

  function MatchAfter(caption: string, rest: string): Option<MenuLine>
  {
    if Opening(true) <= rest then MatchRest(caption, true, rest[|Opening(true)|..])
    else if Opening(false) <= rest then MatchRest(caption, false, rest[|Opening(false)|..])
    else None
  }

  /** The regular expression that both implementations share, after the indentation. */
  function Match(t: string): Option<MenuLine>
  {
    if !("- [" <= t) then None
    else
      var k := Find(t[3..], ']');
      MatchAfter(t[3..3 + k], t[3 + k..])
  }

  lemma {:induction false} FindIs(s: string, c: char, k: nat)
    requires k <= |s| && (k < |s| ==> s[k] == c) && forall i :: 0 <= i < k ==> s[i] != c
    ensures Find(s, c) == k
  {}

  lemma {:induction false} TargetIsSpelled(caption: string, page: bool, body: string, m: MenuLine)
    requires LabelText(caption)
    ensures MatchTarget(caption, page, body) == Some(m) <==>
            WellFormed(m) && m.caption == caption && m.page == page && body == m.id + Tail(m.content)
  {
    var k := Find(body, '/');
    if MatchTarget(caption, page, body) == Some(m) {
      assert body == body[..k] + body[k..];
      assert k < |body| ==> body[k..] == "/" + body[k + 1..];
    }
    if WellFormed(m) && m.caption == caption && m.page == page && body == m.id + Tail(m.content) {
      assert forall i :: 0 <= i < |m.id| ==> body[i] == m.id[i] && Word(m.id[i]);
      FindIs(body, '/', |m.id|);
      assert body[..|m.id|] == m.id;
      assert m.content.Some? ==> body[|m.id| + 1..] == m.content.value;
    }
  }

  lemma {:induction false} RestIsSpelled(caption: string, page: bool, rest: string, m: MenuLine)
    requires LabelText(caption)
    ensures MatchRest(caption, page, rest) == Some(m) <==>
            WellFormed(m) && m.caption == caption && m.page == page && rest == m.id + Tail(m.content) + ")"
  {
    if rest != "" {
      TargetIsSpelled(caption, page, rest[..|rest| - 1], m);
      assert rest == rest[..|rest| - 1] + [Last(rest)];
    }
    var body := m.id + Tail(m.content);
    assert (body + ")")[..|body|] == body;
  }

  lemma {:induction false} OpeningsDiffer(rest: string)
    ensures !(Opening(true) <= rest && Opening(false) <= rest)
  {
    assert Opening(true)[2] == 'p' && Opening(false)[2] == 'g';
  }

  lemma {:induction false} AfterIsSpelled(caption: string, rest: string, m: MenuLine)
    requires LabelText(caption)
    ensures MatchAfter(caption, rest) == Some(m) <==>
            WellFormed(m) && m.caption == caption && rest == Opening(m.page) + (m.id + Tail(m.content) + ")")
  {
    OpeningsDiffer(rest);
    var body := m.id + Tail(m.content) + ")";
    assert (Opening(m.page) + body)[|Opening(m.page)|..] == body;
    if Opening(true) <= rest {
      RestIsSpelled(caption, true, rest[|Opening(true)|..], m);
      assert rest == Opening(true) + rest[|Opening(true)|..];
    } else if Opening(false) <= rest {
      RestIsSpelled(caption, false, rest[|Opening(false)|..], m);
      assert rest == Opening(false) + rest[|Opening(false)|..];
    }
  }

  lemma {:induction false} NeedsLabel(caption: string, rest: string)
    requires !LabelText(caption)
    ensures MatchAfter(caption, rest) == None
  {}

  ghost function Ending(m: MenuLine): string
  {
    Opening(m.page) + (m.id + Tail(m.content) + ")")
  }

  lemma {:induction false} SpellingParts(m: MenuLine)
    ensures Spell(m) == "- [" + (m.caption + Ending(m)) && Spell(m)[3..] == m.caption + Ending(m)
  {
    assert Spell(m) == "- [" + (m.caption + Ending(m));
  }

  /** The caption ends at the first closing bracket. */
  lemma {:induction false} CaptionEnds(caption: string, after: string)
    requires LabelText(caption) && after != "" && after[0] == ']'
    ensures Find(caption + after, ']') == |caption|
  {
    var rest := caption + after;
    assert forall i :: 0 <= i < |caption| ==> rest[i] == caption[i] && caption[i] !in "[]<>";
    FindIs(rest, ']', |caption|);
  }

  lemma {:induction false} SpellingMatches(m: MenuLine)
    requires WellFormed(m)
    ensures Match(Spell(m)) == Some(m)
  {
    var t := Spell(m);
    SpellingParts(m);
    CaptionEnds(m.caption, Ending(m));
    assert t[3..3 + |m.caption|] == t[3..][..|m.caption|] == m.caption;
    assert t[3 + |m.caption|..] == t[3..][|m.caption|..] == Ending(m);
    AfterIsSpelled(m.caption, Ending(m), m);
  }

  lemma {:induction false} SplitAt(t: string, k: nat)
    requires "- [" <= t && 3 + k <= |t|
    ensures t == "- [" + (t[3..3 + k] + t[3 + k..])
  {
    assert t == t[..3] + t[3..];
    assert t[3..] == t[3..3 + k] + t[3 + k..];
  }

  lemma {:induction false} MatchIsSpelling(t: string, m: MenuLine)
    requires Match(t) == Some(m)
    ensures WellFormed(m) && t == Spell(m)
  {
    var k := Find(t[3..], ']');
    var caption, after := t[3..3 + k], t[3 + k..];
    assert LabelText(caption) by {
      if !LabelText(caption) { NeedsLabel(caption, after); }
    }
    AfterIsSpelled(caption, after, m);
    SplitAt(t, k);
    SpellingParts(m);
  }

  /** The matcher accepts exactly the well-formed lines, and reads off what was written. */
  lemma {:induction false} MatchReadsSpelling(t: string, m: MenuLine)
    ensures Match(t) == Some(m) <==> WellFormed(m) && t == Spell(m)
  {
    if WellFormed(m) && t == Spell(m) { SpellingMatches(m); }
    if Match(t) == Some(m) { MatchIsSpelling(t, m); }
  }
}
