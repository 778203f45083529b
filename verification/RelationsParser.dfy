/** `relations_parser.py`: the reader of the `relations:` block that the other tools are meant to
    use, as a loop over the stripped frontmatter text. */
module RelationsParser {
  import opened Options
  import opened Text
  import opened FrontmatterText
  import opened RelationDocument

  /** `in_relations`, `current_entry` and `relations`. */
  datatype State = State(inside: bool, entry: Option<map<string, string>>, relations: seq<Item>)

  const START := State(false, None, [])
  const INSIDE := State(true, None, [])

  /** Append the pending entry. An entry holds a key from the start, so it is never falsy. */
  function Flush(st: State): State
  {
    if st.entry.Some? then st.(entry := None, relations := st.relations + [Dict(st.entry.value)]) else st
  }

  function KeyOf(s: string): string
    requires ':' in s
  {
    Strip(Cut(s, ':').0)
  }

  function ValueOf(s: string): string
    requires ':' in s
  {
    Unquote(Strip(Cut(s, ':').1))
  }

  /** A top-level key opens or closes the block. */
  function TopLevel(st: State, stripped: string): State
    requires ':' in stripped
  {
    Flush(st).(inside := KeyOf(stripped) == "relations" && Strip(Cut(stripped, ':').1) != "[]")
  }

  function ListItem(st: State, item: string): State
  {
    if ':' in item then Flush(st).(entry := Some(map[KeyOf(item) := ValueOf(item)]))
    else Flush(st).(relations := Flush(st).relations + [Bare(item)])
  }

  function Step(st: State, line: string): State
  {
    var stripped := Strip(line);
    if Skipped(line) then st
    else if !Indented(line) && ':' in stripped then TopLevel(st, stripped)
    else if !st.inside then st
    else if StartsWith(stripped, "- ") then ListItem(st, stripped[2..])
    else if ':' in stripped && st.entry.Some? then
      st.(entry := Some(st.entry.value[KeyOf(stripped) := ValueOf(stripped)]))
    else st
  }

  /** The lines between the first two delimiters, or nothing. */
  function FrontmatterLines(content: string): Option<seq<string>>
  {
    if !StartsWith(content, "---") then None
    else
      var end := FindRule(content, 3);
      if end == |content| then None else Some(Split(Strip(content[3..end]), '\n'))
  }

  function Extract(content: string): seq<Item>
  {
    var lines := FrontmatterLines(content);
    if lines.None? then [] else Flush(Fold(Step, START, lines.value)).relations
  }

  method ExtractRelations(content: string) returns (relations: seq<Item>)
    ensures relations == Extract(content)
  {
    relations := [];
    if !StartsWith(content, "---") {
      return;
    }
    var end := FindRule(content, 3);
    if end == |content| {
      return;
    }
    var lines := Split(Strip(content[3..end]), '\n');
    var inside := false;
    var entry: Option<map<string, string>> := None;
    for n := 0 to |lines|
      invariant State(inside, entry, relations) == Fold(Step, START, lines[..n])
    {
      ghost var st := State(inside, entry, relations);
      FoldSnoc(Step, START, lines[..n], lines[n]);
      assert lines[..n + 1] == lines[..n] + [lines[n]];
      var line := lines[n];
      var stripped := Strip(line);
      if stripped == "" || stripped[0] == '#' {
        continue;
      }
      if !Indented(line) && ':' in stripped {
        var cut := Cut(stripped, ':');
        inside := Strip(cut.0) == "relations" && Strip(cut.1) != "[]";
        if entry.Some? {
          relations, entry := relations + [Dict(entry.value)], None;
        }
        assert State(inside, entry, relations) == TopLevel(st, stripped);
        continue;
      }
      if inside {
        if StartsWith(stripped, "- ") {
          if entry.Some? {
            relations, entry := relations + [Dict(entry.value)], None;
          }
          var item := stripped[2..];
          if ':' in item {
            var cut := Cut(item, ':');
            entry := Some(map[Strip(cut.0) := Unquote(Strip(cut.1))]);
          } else {
            relations := relations + [Bare(item)];
          }
          assert State(inside, entry, relations) == ListItem(st, item);
        } else if ':' in stripped && entry.Some? {
          var cut := Cut(stripped, ':');
          entry := Some(entry.value[Strip(cut.0) := Unquote(Strip(cut.1))]);
        }
      }
    }
    assert lines[..|lines|] == lines;
    if entry.Some? {
      relations := relations + [Dict(entry.value)];
    }
  }

  // ---------------------------------------------------------------- one printed line

  lemma StepFiller(st: State, l: Line)
    requires LineOk(l) && Filler(l)
    ensures Step(st, Render(l)) == st
  {
    FillerShape(l);
  }

  lemma StepField(st: State, l: Line)
    requires LineOk(l) && l.Field?
    ensures Step(st, Render(l)) == Flush(st).(inside := false)
  {
    FieldShape(l.key, l.value);
  }

  /** The state after the opening line of an entry. */
  function Opening(st: State, m: map<string, string>): State
  {
    Flush(st).(entry := Some(m))
  }

  lemma OpeningFlushes(st: State, m: map<string, string>)
    ensures Flush(Opening(st, m)) == Flush(st).(relations := Flush(st).relations + [Dict(m)])
  {
  }

  lemma StepDash(st: State, e: Entry)
    requires EntryOk(e) && st.inside
    ensures Step(st, Render(EntryLines(e)[0])) == Opening(st, UnquoteAll(map[e.key := e.value]))
  {
    assert LineOk(EntryLines(e)[0]);
    DashShape(e.pad, e.key, e.value);
    PairShape(e.key, e.value);
    UnquoteOne(e.key, e.value);
  }

  lemma StepMore(st: State, l: Line, m: map<string, string>)
    requires LineOk(l) && l.More? && st.inside && st.entry == Some(UnquoteAll(m))
    ensures Step(st, Render(l)) == st.(entry := Some(UnquoteAll(m[l.key := l.value])))
  {
    MoreShape(l.pad, l.key, l.value);
    PairShape(l.key, l.value);
    UnquoteUpdate(m, l.key, l.value);
  }

  // ---------------------------------------------------------------- printed documents

  /** The entries as this reader reports them: every key kept, quotes taken off the values. */
  function Reported(es: seq<Entry>): (r: seq<Item>)
    ensures |r| == |es| && forall i :: 0 <= i < |es| ==> r[i] == Dict(UnquoteAll(Meaning(es[i])))
  {
    seq(|es|, i requires 0 <= i < |es| => Dict(UnquoteAll(Meaning(es[i]))))
  }

  lemma ReportedLast(es: seq<Entry>)
    requires |es| > 0
    ensures Reported(es) == Reported(es[..|es| - 1]) + [Dict(UnquoteAll(Meaning(es[|es| - 1])))]
  {
  }

  lemma {:induction false} FoldOutside(st: State, ls: seq<Line>)
    requires AllOk(ls) && forall i :: 0 <= i < |ls| ==> Outside(ls[i])
    ensures Flush(Fold(Step, st, Rendered(ls))).relations == Flush(st).relations
    ensures st == START ==> Fold(Step, st, Rendered(ls)) == START
    ensures (forall i :: 0 <= i < |ls| ==> Filler(ls[i])) ==> Fold(Step, st, Rendered(ls)) == st
  {
    if |ls| > 0 {
      var init, l := ls[..|ls| - 1], ls[|ls| - 1];
      FoldOutside(st, init);
      StepOutside(Fold(Step, st, Rendered(init)), l);
      FoldLast(Step, st, ls);
    }
  }

  lemma StepOutside(st: State, l: Line)
    requires LineOk(l) && Outside(l)
    ensures var st' := Step(st, Render(l));
            && Flush(st').relations == Flush(st).relations && (st == START ==> st' == START)
            && (Filler(l) ==> st' == st)
  {
    if Filler(l) {
      StepFiller(st, l);
    } else {
      StepField(st, l);
    }
  }

  lemma {:induction false} FoldMore(rel: seq<Item>, m: map<string, string>, more: seq<Line>)
    requires AllOk(more) && forall i :: 0 <= i < |more| ==> Filler(more[i]) || more[i].More?
    ensures Fold(Step, State(true, Some(UnquoteAll(m)), rel), Rendered(more)) ==
            State(true, Some(UnquoteAll(Extended(m, more))), rel)
  {
    if |more| > 0 {
      var init, l := more[..|more| - 1], more[|more| - 1];
      FoldMore(rel, m, init);
      var before := State(true, Some(UnquoteAll(Extended(m, init))), rel);
      FoldLast(Step, State(true, Some(UnquoteAll(m)), rel), more);
      if Filler(l) {
        StepFiller(before, l);
      } else {
        StepMore(before, l, Extended(m, init));
      }
    }
  }

  lemma FoldEntry(st: State, e: Entry)
    requires EntryOk(e) && st.inside
    ensures Fold(Step, st, Rendered(EntryLines(e))) == Opening(st, UnquoteAll(Meaning(e)))
  {
    var m := map[e.key := e.value];
    EntryRendered(e);
    StepDash(st, e);
    FoldMore(Flush(st).relations, m, e.more);
    FoldEntryLines(Step, st, e, Opening(st, UnquoteAll(m)), Opening(st, UnquoteAll(Meaning(e))));
  }

  lemma {:induction false} FoldEntries(es: seq<Entry>)
    requires EntriesOk(es)
    ensures var st := Fold(Step, INSIDE, Rendered(BlockLines(es)));
            Flush(st) == State(true, None, Reported(es))
  {
    if |es| > 0 {
      var init, e := es[..|es| - 1], es[|es| - 1];
      var before := Fold(Step, INSIDE, Rendered(BlockLines(init)));
      FoldEntries(init);
      FoldEntry(before, e);
      FoldBlockLines(Step, INSIDE, es, before, Opening(before, UnquoteAll(Meaning(e))));
      OpeningFlushes(before, UnquoteAll(Meaning(e)));
      ReportedLast(es);
    }
  }

  lemma FoldBlock(d: Document)
    requires DocumentOk(d)
    ensures Flush(Fold(Step, INSIDE, Rendered(d.gap + BlockLines(d.entries)))) == State(true, None, Reported(d.entries))
  {
    RenderedConcat(d.gap, BlockLines(d.entries));
    FoldConcat(Step, INSIDE, Rendered(d.gap), Rendered(BlockLines(d.entries)));
    FoldOutside(INSIDE, d.gap);
    FoldEntries(d.entries);
  }

  lemma FoldDocument(d: Document)
    requires DocumentOk(d)
    ensures Flush(Fold(Step, START, FrontLines(d))).relations == Reported(d.entries)
  {
    var block := d.gap + BlockLines(d.entries);
    FoldConcat(Step, START, Rendered(d.head), Below(d));
    FoldOutside(START, d.head);
    RenderedConcat(block, d.tail);
    FoldConcat(Step, START, [HEADER], Rendered(block + d.tail));
    FoldOne(Step, START, HEADER);
    HeaderShape();
    assert Step(START, HEADER) == INSIDE;
    FoldConcat(Step, INSIDE, Rendered(block), Rendered(d.tail));
    FoldBlock(d);
    FoldOutside(Fold(Step, INSIDE, Rendered(block)), d.tail);
  }

  // ---------------------------------------------------------------- stripping the whole text

  /** A printed line is all whitespace or ends in text. */
  predicate Tidy(line: string)
  {
    AllSpace(line) || !IsSpace(line[|line| - 1])
  }

  lemma RenderTidy(l: Line)
    requires ShapeOk(l)
    ensures Tidy(Render(l))
  {
    match l
    case Blank(pad) => PadIsSpace(pad);
    case Comment(pad, text) =>
    case Field(key, value) => PairShape(key, value);
    case Dash(pad, key, value) => PairShape(key, value);
    case More(pad, key, value) => PairShape(key, value);
  }

  /** Blank lines at the start and the indentation of the first line do not matter. */
  lemma {:induction false} LeadingSpace(head: seq<Line>, below: seq<string>) returns (ks: seq<string>)
    requires AllOk(head) && forall i :: 0 <= i < |head| ==> Outside(head[i])
    requires |below| > 0 && below[0] == HEADER
    requires forall i :: 0 <= i < |below| ==> Tidy(below[i]) && OneLine(below[i])
    ensures StripLeft(Closed(Rendered(head) + below)) == Closed(ks)
    ensures Fold(Step, START, ks) == Fold(Step, START, Rendered(head) + below)
    ensures |ks| > 0 && !AllSpace(ks[0])
    ensures forall i :: 0 <= i < |ks| ==> Tidy(ks[i]) && OneLine(ks[i])
  {
    var all := Rendered(head) + below;
    if |head| == 0 {
      assert all == below;
      ks := below;
      assert Closed(below)[0] == 'r' && HEADER[0] == 'r';
    } else {
      var l, rest := head[0], Rendered(head[1..]) + below;
      assert all == [Render(l)] + rest;
      assert all[1..] == rest;
      FoldConcat(Step, START, [Render(l)], rest);
      FoldOne(Step, START, Render(l));
      RenderTidy(l);
      assert LineOk(l);
      if l.Blank? {
        ks := LeadingSpace(head[1..], below);
        StepFiller(START, l);
        PadIsSpace(l.pad);
        assert AllSpace(l.pad + "\n");
        StripLeftPad(l.pad + "\n", Closed(rest));
      } else {
        ks := FirstLine(l, head[1..], below, rest);
      }
    }
  }

  lemma {:induction false} RestTidy(head: seq<Line>, below: seq<string>)
    requires AllOk(head)
    requires forall i :: 0 <= i < |below| ==> Tidy(below[i]) && OneLine(below[i])
    ensures var all := Rendered(head) + below; forall i :: 0 <= i < |all| ==> Tidy(all[i]) && OneLine(all[i])
  {
    var all := Rendered(head) + below;
    forall i | 0 <= i < |all| ensures Tidy(all[i]) && OneLine(all[i]) {
      if i < |head| {
        assert LineOk(head[i]);
        RenderTidy(head[i]);
      }
    }
  }

  lemma FirstLine(l: Line, head: seq<Line>, below: seq<string>, rest: seq<string>) returns (ks: seq<string>)
    requires LineOk(l) && (l.Comment? || l.Field?) && AllOk(head) && rest == Rendered(head) + below
    requires forall i :: 0 <= i < |below| ==> Tidy(below[i]) && OneLine(below[i])
    ensures StripLeft(Closed([Render(l)] + rest)) == Closed(ks)
    ensures Fold(Step, START, ks) == Fold(Step, START, [Render(l)] + rest)
    ensures |ks| > 0 && !AllSpace(ks[0])
    ensures forall i :: 0 <= i < |ks| ==> Tidy(ks[i]) && OneLine(ks[i])
  {
    var first := if l.Comment? then "#" + l.text else Render(l);
    var pad := if l.Comment? then l.pad else "";
    ks := [first] + rest;
    FirstShape(l, pad, first);
    assert forall i :: 0 <= i < |ks| ==> Tidy(ks[i]) && OneLine(ks[i]) by {
      RestTidy(head, below);
    }
    assert StripLeft(Closed([Render(l)] + rest)) == Closed(ks) by {
      ClosedHead(pad, first, rest);
      StripLeftPad(pad, Closed(ks));
    }
    FoldCons(Step, START, Render(l), rest);
    FoldCons(Step, START, first, rest);
  }

  /** A comment may lose its indentation; a field has none. */
  lemma FirstShape(l: Line, pad: string, first: string)
    requires LineOk(l) && (l.Comment? || l.Field?)
    requires first == if l.Comment? then "#" + l.text else Render(l)
    requires pad == if l.Comment? then l.pad else ""
    ensures Render(l) == pad + first && AllSpace(pad) && first != "" && !IsSpace(first[0])
    ensures Tidy(first) && OneLine(first) && Step(START, first) == START == Step(START, Render(l))
  {
    if l.Field? {
      RenderTidy(l);
      PairShape(l.key, l.value);
      StepField(START, l);
    } else {
      CommentShape(l.pad, l.text);
    }
  }

  lemma CommentShape(pad: string, text: string)
    requires LineOk(Comment(pad, text))
    ensures AllSpace(pad) && Tidy("#" + text) && OneLine("#" + text) && !IsSpace(("#" + text)[0])
    ensures Step(START, "#" + text) == START == Step(START, pad + ("#" + text))
  {
    var first := "#" + text;
    PadIsSpace(pad);
    StepFiller(START, Comment(pad, text));
    StripOfTrimmed(first);
    assert Skipped(first);
    assert forall i :: 0 <= i < |first| ==> first[i] == (pad + first)[|pad| + i];
  }

  lemma ClosedHead(pad: string, first: string, rest: seq<string>)
    requires first != "" && !IsSpace(first[0])
    ensures Closed([pad + first] + rest) == pad + Closed([first] + rest)
    ensures StripLeft(Closed([first] + rest)) == Closed([first] + rest)
  {
    assert ([pad + first] + rest)[1..] == rest && ([first] + rest)[1..] == rest;
  }

  /** Blank lines at the end do not matter. */
  lemma {:induction false} TrailingSpace(ks: seq<string>) returns (n: nat)
    requires |ks| > 0 && !AllSpace(ks[0]) && forall i :: 0 <= i < |ks| ==> Tidy(ks[i])
    ensures 0 < n <= |ks| && StripRight(Closed(ks)) == Join(ks[..n], "\n")
    ensures Fold(Step, START, ks) == Fold(Step, START, ks[..n])
  {
    var init, last := ks[..|ks| - 1], ks[|ks| - 1];
    assert ks == init + [last];
    if AllSpace(last) {
      n := TrailingSpace(init);
      assert init[..n] == ks[..n];
      BlankLast(init, last);
    } else {
      n := |ks|;
      assert ks[..n] == ks;
      LastOfJoin(init, last);
      ClosedIsJoin(ks);
      StripRightPad(Join(ks, "\n"), "\n");
    }
  }

  lemma BlankLast(init: seq<string>, last: string)
    requires |init| > 0 && AllSpace(last)
    ensures StripRight(Closed(init + [last])) == StripRight(Closed(init))
    ensures Fold(Step, START, init + [last]) == Fold(Step, START, init)
  {
    StripSpaces(last);
    FoldSnoc(Step, START, init, last);
    ClosedSnoc(init, last);
    StripRightPad(Closed(init), last + "\n");
  }

  lemma {:induction false} ClosedSnoc(init: seq<string>, last: string)
    ensures Closed(init + [last]) == Closed(init) + (last + "\n")
  {
    if |init| > 0 {
      ClosedSnoc(init[1..], last);
      assert (init + [last])[1..] == init[1..] + [last];
    }
  }

  lemma LastOfJoin(init: seq<string>, last: string)
    requires last != ""
    ensures var s := Join(init + [last], "\n"); s != "" && s[|s| - 1] == last[|last| - 1]
  {
    if |init| == 0 {
      assert init + [last] == [last];
    } else {
      JoinConcat(init, [last], "\n");
    }
  }

  lemma SplitNewlines(ks: seq<string>)
    requires |ks| > 0 && Lines(ks)
    ensures Split(Join(ks, "\n"), '\n') == ks
  {
    forall p | p in ks ensures '\n' !in p {
      var i :| 0 <= i < |ks| && ks[i] == p;
      assert OneLine(ks[i]);
    }
    SplitJoin(ks, '\n');
  }

  /** The loop over the stripped text ends as the loop over the printed lines. */
  lemma StrippedText(d: Document)
    requires DocumentOk(d)
    ensures Fold(Step, START, Split(Strip("\n" + Closed(FrontLines(d))), '\n')) == Fold(Step, START, FrontLines(d))
  {
    BelowTidy(d);
    var ks := LeadingSpace(d.head, Below(d));
    StripLeftPad("\n", Closed(FrontLines(d)));
    var n := TrailingSpace(ks);
    SplitNewlines(ks[..n]);
  }

  lemma BelowTidy(d: Document)
    requires DocumentOk(d)
    ensures forall i :: 0 <= i < |Below(d)| ==> Tidy(Below(d)[i]) && OneLine(Below(d)[i])
  {
    BlockLinesOk(d.entries);
    var all := d.gap + BlockLines(d.entries) + d.tail;
    RestTidy(all, []);
    assert Rendered(all) + [] == Rendered(all);
    HeaderOk();
    assert Tidy(HEADER);
  }

  lemma DelimitersFound(d: Document)
    requires DocumentOk(d)
    ensures FrontmatterLines(Print(d)) == Some(Split(Strip("\n" + Closed(FrontLines(d))), '\n'))
  {
    var ls := FrontLines(d);
    assert NoRule("\n" + Closed(ls)) by {
      FrontLinesOk(d);
      NoRuleInLines(ls);
      ClosedIsJoin(ls);
      assert "\n" + Closed(ls) == "\n" + Join(ls, "\n") + "\n";
    }
    PrintedRules(ls, d.after);
    FoundBetween("\n" + Closed(ls), d.after);
  }

  lemma PrintedRules(ls: seq<string>, after: string)
    requires |ls| > 0
    ensures "---\n" + Closed(ls) + "---" + after == "---" + ("\n" + Closed(ls)) + "---" + after
    ensures var inner := "\n" + Closed(ls); inner[|inner| - 1] == '\n'
  {
    ClosedIsJoin(ls);
  }

  /** The text before the next delimiter is what `split("---", 2)` returns as its second part. */
  lemma FoundBetween(inner: string, after: string)
    requires NoRule(inner) && inner != "" && inner[|inner| - 1] == '\n'
    ensures FrontmatterLines("---" + inner + "---" + after) == Some(Split(Strip(inner), '\n'))
  {
    var s := "---" + inner + "---" + after;
    assert RuleAt(s, 3 + |inner|) && s[2 + |inner|] == '\n';
    assert !RuleAt(inner, FindRule(s, 3) - 3);
    assert s[3..3 + |inner|] == inner;
  }

  /** Every printed document is read back: one entry per printed entry, in order, with all its
      keys, whatever the indentation, the order of keys and the lines around. */
  lemma ExtractInvertsPrint(d: Document)
    requires DocumentOk(d)
    ensures Extract(Print(d)) == Reported(d.entries)
  {
    DelimitersFound(d);
    StrippedText(d);
    FoldDocument(d);
  }
}
