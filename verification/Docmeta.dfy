/** `docmeta.parse_frontmatter`: the second reader of the `relations:` block, a state machine over
    the frontmatter lines that the regular expression at its head cuts out. */
module Docmeta {
  import opened Options
  import opened Text
  import opened FrontmatterText
  import opened RelationDocument

  /** A frontmatter value: text, or a list of items. */
  datatype Value = Scalar(text: string) | Items(items: seq<Item>)

  type Data = map<string, Value>

  /** `data`, `current_key` and `current_dict_entry`. */
  datatype State = State(data: Data, key: Option<string>, entry: Option<map<string, string>>)

  const START := State(map[], None, None)

  const RELATIONS := "relations"

  /** The fields whose values may be block lists of strings. */
  const LIST_FIELDS := ["verifies_with", "audit_gaps", "depends_on", "attention_source_facts",
    "attention_projection", "attention_transition_tests", "attention_missing_facts"]

  // ---------------------------------------------------------------- the frontmatter expression

  /** `\r?\n---` followed by a line end or the end of the text stands at position k. */
  predicate ClosesAt(s: string, k: nat)
  {
    var p := if k < |s| && s[k] == '\r' then k + 1 else k;
    && p < |s| && s[p] == '\n' && RuleAt(s, p + 1)
    && var q := p + 4; (q == |s| || s[q] == '\n' || (s[q] == '\r' && q + 1 < |s| && s[q + 1] == '\n'))
  }

  function FindClose(s: string, k: nat): (r: nat)
    requires k <= |s|
    ensures k <= r <= |s| && (r < |s| ==> ClosesAt(s, r))
    ensures forall j :: k <= j < r ==> !ClosesAt(s, j)
    decreases |s| - k
  {
    if k == |s| || ClosesAt(s, k) then k else FindClose(s, k + 1)
  }

  /** The first group of the match: the shortest text that a closing delimiter follows. */
  function Enclosed(s: string): Option<string>
  {
    var k := if StartsWith(s, "---\n") then 4 else if StartsWith(s, "---\r\n") then 5 else 0;
    if k == 0 then None
    else
      var r := FindClose(s, k);
      if r == |s| then None else Some(s[k..r])
  }

  // ---------------------------------------------------------------- one line

  /** `(v.startswith('"') and v.endswith('"'))` or the same with single quotes: a lone quote counts. */
  predicate Wrapped(v: string)
  {
    v != "" && v[0] == v[|v| - 1] && IsQuote(v[0])
  }

  /** `v[1:-1]` when wrapped */
  function Unwrap(v: string): string
  {
    if !Wrapped(v) then v else if |v| < 2 then "" else v[1..|v| - 1]
  }

  /** Append to the list stored under the key. */
  function AddItem(data: Data, key: string, item: Item): Data
  {
    if key in data && data[key].Items? then data[key := Items(data[key].items + [item])] else data
  }

  function Flush(st: State): State
  {
    if st.entry.Some? && st.key == Some(RELATIONS)
    then st.(data := AddItem(st.data, RELATIONS, Dict(st.entry.value)), entry := None)
    else st
  }

  function KeyOf(s: string): string
    requires ':' in s
  {
    Strip(Cut(s, ':').0)
  }

  function ValueOf(s: string): string
    requires ':' in s
  {
    Strip(Cut(s, ':').1)
  }

  /** The non-empty items of an inline list. */
  function InlineItems(parts: seq<string>): seq<Item>
  {
    if |parts| == 0 then []
    else
      var item := Strip(parts[0]);
      (if item == "" then [] else [Bare(Unwrap(item))]) + InlineItems(parts[1..])
  }

  predicate InlineList(v: string)
  {
    v != "" && v[0] == '[' && v[|v| - 1] == ']'
  }

  /** The value of a field with text after the colon. */
  function FieldValue(val: string): Value
  {
    if InlineList(val) then Items(InlineItems(Split(val[1..|val| - 1], ','))) else Scalar(Unwrap(val))
  }

  /** A line of the shape `key: value` that belongs to no list. */
  function TopLevel(st: State, line: string): State
    requires ':' in line
  {
    var key, val := KeyOf(line), ValueOf(line);
    if val == "" && (key == RELATIONS || key in LIST_FIELDS)
    then State(Flush(st).data[key := Items([])], Some(key), Flush(st).entry)
    else State(Flush(st).data[key := FieldValue(val)], None, Flush(st).entry)
  }

  function RelationItem(st: State, val: string): State
  {
    if ':' in val then Flush(st).(entry := Some(map[KeyOf(val) := ValueOf(val)]))
    else Flush(st).(data := AddItem(Flush(st).data, RELATIONS, Bare(val)))
  }

  function Step(st: State, line: string): State
  {
    var stripped := Strip(line);
    var indented := StartsWith(line, " ");
    var item := StartsWith(stripped, "- ");
    if Skipped(line) then st
    else if indented && item && st.key == Some(RELATIONS) then RelationItem(st, Strip(stripped[2..]))
    else if indented && item && st.key.Some? && st.key.value in LIST_FIELDS then
      st.(data := AddItem(st.data, st.key.value, Bare(Unwrap(Strip(stripped[2..])))))
    else if indented && st.key == Some(RELATIONS) && st.entry.Some? && ':' in stripped && !item then
      st.(entry := Some(st.entry.value[KeyOf(stripped) := ValueOf(stripped)]))
    else if ':' in line then TopLevel(st, line)
    else st
  }

  function Parse(content: string): Option<Data>
  {
    var text := Enclosed(content);
    if text.None? then None else Some(Flush(Fold(Step, START, SplitLines(text.value))).data)
  }

  /** A key that collects items holds a list, and only `relations` has a pending entry: the
      look-ups `data[current_key]` never fail and the conversion of a text to a list is dead code. */
  ghost predicate Tracking(st: State)
  {
    && (st.key.Some? ==> st.key.value in st.data && st.data[st.key.value].Items?)
    && (st.key.Some? ==> st.key.value == RELATIONS || st.key.value in LIST_FIELDS)
    && (st.entry.Some? ==> st.key == Some(RELATIONS))
  }

  lemma {:induction false} TrackedKeyHoldsList(lines: seq<string>)
    ensures Tracking(Fold(Step, START, lines))
  {
    if |lines| > 0 {
      TrackedKeyHoldsList(lines[..|lines| - 1]);
      StepTracks(Fold(Step, START, lines[..|lines| - 1]), lines[|lines| - 1]);
    }
  }

  lemma StepTracks(st: State, line: string)
    requires Tracking(st)
    ensures Tracking(Step(st, line))
  {
    assert Tracking(Flush(st));
  }

  method ParseFrontmatter(content: string) returns (r: Option<Data>)
    ensures r == Parse(content)
  {
    var text := Enclosed(content);
    if text.None? {
      return None;
    }
    var lines := SplitLines(text.value);
    var data: Data := map[];
    var key: Option<string> := None;
    var entry: Option<map<string, string>> := None;
    ghost var done: seq<string> := [];
    for n := 0 to |lines|
      invariant done == lines[..n] && State(data, key, entry) == Fold(Step, START, done)
    {
      TrackedKeyHoldsList(done);
      FoldSnoc(Step, START, done, lines[n]);
      data, key, entry := TakeLine(data, key, entry, lines[n]);
      done := done + [lines[n]];
    }
    assert done == lines;
    TrackedKeyHoldsList(lines);
    if entry.Some? {
      data := data[RELATIONS := Items(data[RELATIONS].items + [Dict(entry.value)])];
    }
    r := Some(data);
  }

  /** The loop body. */
  method TakeLine(data: Data, key: Option<string>, entry: Option<map<string, string>>, line: string)
    returns (data': Data, key': Option<string>, entry': Option<map<string, string>>)
    requires Tracking(State(data, key, entry))
    ensures State(data', key', entry') == Step(State(data, key, entry), line)
  {
    data', key', entry' := data, key, entry;
    var stripped := Strip(line);
    if stripped == "" || stripped[0] == '#' {
      return;
    }
    if StartsWith(line, " ") && StartsWith(stripped, "- ") && key.Some? {
      var val := Strip(stripped[2..]);
      if key.value == RELATIONS {
        data', entry' := TakeItem(data, entry, val);
      } else {
        data' := data[key.value := Items(data[key.value].items + [Bare(Unwrap(val))])];
      }
      return;
    }
    if StartsWith(line, " ") && key == Some(RELATIONS) && entry.Some? && ':' in stripped && !StartsWith(stripped, "- ") {
      var cut := Cut(stripped, ':');
      entry' := Some(entry.value[Strip(cut.0) := Strip(cut.1)]);
      return;
    }
    if ':' in line {
      data', key', entry' := TopLevelLine(data, key, entry, line);
    }
  }

  /** A list item of the block. */
  method TakeItem(data: Data, entry: Option<map<string, string>>, val: string)
    returns (data': Data, entry': Option<map<string, string>>)
    requires Tracking(State(data, Some(RELATIONS), entry))
    ensures State(data', Some(RELATIONS), entry') == RelationItem(State(data, Some(RELATIONS), entry), val)
  {
    data', entry' := data, entry;
    if entry.Some? {
      data', entry' := data[RELATIONS := Items(data[RELATIONS].items + [Dict(entry.value)])], None;
    }
    if ':' in val {
      var cut := Cut(val, ':');
      entry' := Some(map[Strip(cut.0) := Strip(cut.1)]);
    } else {
      data' := data'[RELATIONS := Items(data'[RELATIONS].items + [Bare(val)])];
    }
  }

  /** The last part of the loop body. */
  method TopLevelLine(data: Data, key: Option<string>, entry: Option<map<string, string>>, line: string)
    returns (data': Data, key': Option<string>, entry': Option<map<string, string>>)
    requires ':' in line && Tracking(State(data, key, entry))
    ensures State(data', key', entry') == TopLevel(State(data, key, entry), line)
  {
    data', entry' := data, entry;
    if entry.Some? {
      data', entry' := data[RELATIONS := Items(data[RELATIONS].items + [Dict(entry.value)])], None;
    }
    var cut := Cut(line, ':');
    var name, val := Strip(cut.0), Strip(cut.1);
    key' := None;
    var value := Scalar(val);
    if InlineList(val) {
      value := Items(InlineItems(Split(val[1..|val| - 1], ',')));
    } else if val == "" {
      if name == RELATIONS || name in LIST_FIELDS {
        value, key' := Items([]), Some(name);
      }
    } else if Wrapped(val) {
      value := Scalar(Unwrap(val));
    }
    data' := data'[name := value];
  }

  // ---------------------------------------------------------------- one printed line

  lemma StepFiller(st: State, l: Line)
    requires LineOk(l) && Filler(l)
    ensures Step(st, Render(l)) == st
  {
    FillerShape(l);
  }

  lemma StepField(st: State, l: Line)
    requires LineOk(l) && l.Field?
    ensures Step(st, Render(l)) == State(Flush(st).data[l.key := FieldValue(l.value)], None, Flush(st).entry)
  {
    FieldShape(l.key, l.value);
    assert Step(st, Render(l)) == TopLevel(st, Render(l));
  }

  /** A line with a colon that does not start with a space is a field. */
  lemma StepUnspaced(st: State, line: string)
    requires !Skipped(line) && !StartsWith(line, " ") && ':' in line
    ensures Step(st, line) == TopLevel(st, line)
  {
  }

  lemma StepHeader(st: State)
    ensures Step(st, HEADER) == State(Flush(st).data[RELATIONS := Items([])], Some(RELATIONS), Flush(st).entry)
  {
    HeaderShape();
    assert Step(st, HEADER) == TopLevel(st, HEADER);
  }

  /** Indented the way this reader expects: with a space first. */
  predicate SpaceIndented(l: Line)
  {
    (l.Dash? || l.More?) ==> l.pad != "" && l.pad[0] == ' '
  }

  predicate EntrySpaced(e: Entry)
  {
    forall i :: 0 <= i < |EntryLines(e)| ==> SpaceIndented(EntryLines(e)[i])
  }

  /** The state after the opening line of an entry. */
  function Opening(st: State, m: map<string, string>): State
  {
    Flush(st).(entry := Some(m))
  }

  lemma StepDash(st: State, e: Entry)
    requires EntryOk(e) && EntrySpaced(e) && st.key == Some(RELATIONS)
    ensures Step(st, Render(EntryLines(e)[0])) == Opening(st, map[e.key := e.value])
  {
    var l := EntryLines(e)[0];
    assert LineOk(l) && SpaceIndented(l);
    DashShape(e.pad, e.key, e.value);
    PairShape(e.key, e.value);
    assert Step(st, Render(l)) == RelationItem(st, Strip(Strip(Render(l))[2..]));
  }

  lemma StepMore(st: State, l: Line, m: map<string, string>)
    requires LineOk(l) && l.More? && SpaceIndented(l) && st.key == Some(RELATIONS) && st.entry == Some(m)
    ensures Step(st, Render(l)) == st.(entry := Some(m[l.key := l.value]))
  {
    MoreShape(l.pad, l.key, l.value);
    PairShape(l.key, l.value);
  }

  // ---------------------------------------------------------------- printed documents

  /** The entries as this reader reports them: every key kept, the values verbatim. */
  function Reported(es: seq<Entry>): (r: seq<Item>)
    ensures |r| == |es| && forall i :: 0 <= i < |es| ==> r[i] == Dict(Meaning(es[i]))
  {
    seq(|es|, i requires 0 <= i < |es| => Dict(Meaning(es[i])))
  }

  lemma ReportedLast(es: seq<Entry>)
    requires |es| > 0
    ensures Reported(es) == Reported(es[..|es| - 1]) + [Dict(Meaning(es[|es| - 1]))]
  {
  }

  /** The entry count so far, with the pending one: what the final flush leaves. */
  ghost predicate Holds(st: State, items: seq<Item>)
  {
    RELATIONS in Flush(st).data && Flush(st).data[RELATIONS] == Items(items)
  }

  /** Before the block no list is open. */
  predicate Idle(st: State)
  {
    st.key.None? && st.entry.None?
  }

  lemma StepOutside(st: State, l: Line)
    requires LineOk(l) && Outside(l)
    ensures Idle(st) ==> Idle(Step(st, Render(l)))
    ensures Filler(l) ==> Step(st, Render(l)) == st
    ensures forall items :: Holds(st, items) ==> Holds(Step(st, Render(l)), items)
  {
    if Filler(l) {
      StepFiller(st, l);
    } else {
      StepField(st, l);
    }
  }

  lemma {:induction false} FoldOutside(st: State, ls: seq<Line>)
    requires AllOk(ls) && forall i :: 0 <= i < |ls| ==> Outside(ls[i])
    ensures Idle(st) ==> Idle(Fold(Step, st, Rendered(ls)))
    ensures (forall i :: 0 <= i < |ls| ==> Filler(ls[i])) ==> Fold(Step, st, Rendered(ls)) == st
    ensures forall items :: Holds(st, items) ==> Holds(Fold(Step, st, Rendered(ls)), items)
  {
    if |ls| > 0 {
      FoldOutside(st, ls[..|ls| - 1]);
      FoldLast(Step, st, ls);
      StepOutside(Fold(Step, st, Rendered(ls[..|ls| - 1])), ls[|ls| - 1]);
    }
  }

  lemma {:induction false} FoldMore(st: State, m: map<string, string>, more: seq<Line>)
    requires AllOk(more) && forall i :: 0 <= i < |more| ==> (Filler(more[i]) || more[i].More?) && SpaceIndented(more[i])
    requires st.key == Some(RELATIONS) && st.entry == Some(m)
    ensures Fold(Step, st, Rendered(more)) == st.(entry := Some(Extended(m, more)))
  {
    if |more| > 0 {
      var init, l := more[..|more| - 1], more[|more| - 1];
      FoldMore(st, m, init);
      FoldLast(Step, st, more);
      var before := st.(entry := Some(Extended(m, init)));
      if Filler(l) {
        StepFiller(before, l);
      } else {
        StepMore(before, l, Extended(m, init));
      }
    }
  }

  lemma FoldEntry(st: State, e: Entry)
    requires EntryOk(e) && EntrySpaced(e) && st.key == Some(RELATIONS)
    ensures Fold(Step, st, Rendered(EntryLines(e))) == Opening(st, Meaning(e))
  {
    var m := map[e.key := e.value];
    EntryRendered(e);
    StepDash(st, e);
    FoldMore(Opening(st, m), m, e.more);
    FoldEntryLines(Step, st, e, Opening(st, m), Opening(st, Meaning(e)));
  }

  lemma {:induction false} FoldEntries(st: State, es: seq<Entry>)
    requires EntriesOk(es) && forall i :: 0 <= i < |es| ==> EntrySpaced(es[i])
    requires st.key == Some(RELATIONS) && Holds(st, []) && st.entry.None?
    ensures Fold(Step, st, Rendered(BlockLines(es))).key == Some(RELATIONS)
    ensures Holds(Fold(Step, st, Rendered(BlockLines(es))), Reported(es))
  {
    if |es| > 0 {
      var init, e := es[..|es| - 1], es[|es| - 1];
      var before := Fold(Step, st, Rendered(BlockLines(init)));
      FoldEntries(st, init);
      FoldEntry(before, e);
      FoldBlockLines(Step, st, es, before, Opening(before, Meaning(e)));
      OpeningHolds(before, Reported(init), Meaning(e));
      ReportedLast(es);
    }
  }

  lemma OpeningHolds(st: State, items: seq<Item>, m: map<string, string>)
    requires Holds(st, items) && st.key == Some(RELATIONS)
    ensures Holds(Opening(st, m), items + [Dict(m)]) && Opening(st, m).key == Some(RELATIONS)
  {
  }

  lemma FoldDocument(d: Document)
    requires DocumentOk(d) && forall i :: 0 <= i < |d.entries| ==> EntrySpaced(d.entries[i])
    ensures Holds(Fold(Step, START, FrontLines(d)), Reported(d.entries))
  {
    var before := Fold(Step, START, Rendered(d.head));
    FoldOutside(START, d.head);
    FoldConcat(Step, START, Rendered(d.head), Below(d));
    FoldCons(Step, before, HEADER, Rendered(d.gap + BlockLines(d.entries) + d.tail));
    HeaderOpens(before);
    FoldBelow(Step(before, HEADER), d);
  }

  lemma HeaderOpens(st: State)
    requires Idle(st)
    ensures var st' := Step(st, HEADER); st'.key == Some(RELATIONS) && Holds(st', []) && st'.entry.None?
  {
    StepHeader(st);
  }

  lemma FoldBelow(st: State, d: Document)
    requires DocumentOk(d) && forall i :: 0 <= i < |d.entries| ==> EntrySpaced(d.entries[i])
    requires st.key == Some(RELATIONS) && Holds(st, []) && st.entry.None?
    ensures Holds(Fold(Step, st, Rendered(d.gap + BlockLines(d.entries) + d.tail)), Reported(d.entries))
  {
    var block := Rendered(BlockLines(d.entries));
    calc {
      Fold(Step, st, Rendered(d.gap + BlockLines(d.entries) + d.tail));
      { RenderedConcat(d.gap + BlockLines(d.entries), d.tail); RenderedConcat(d.gap, BlockLines(d.entries)); }
      Fold(Step, st, Rendered(d.gap) + block + Rendered(d.tail));
      { FoldConcat(Step, st, Rendered(d.gap) + block, Rendered(d.tail)); }
      Fold(Step, Fold(Step, st, Rendered(d.gap) + block), Rendered(d.tail));
      { FoldConcat(Step, st, Rendered(d.gap), block); FoldOutside(st, d.gap); }
      Fold(Step, Fold(Step, st, block), Rendered(d.tail));
    }
    FoldEntries(st, d.entries);
    FoldOutside(Fold(Step, st, block), d.tail);
  }

  lemma {:induction false} NoReturns(ls: seq<string>)
    requires Lines(ls)
    ensures '\r' !in Join(ls, "\n")
  {
    if |ls| > 0 {
      assert OneLine(ls[0]);
      NoReturns(ls[1..]);
    }
  }

  /** The expression cuts out exactly the printed lines. */
  lemma EnclosedText(text: string, after: string)
    requires NoRule("\n" + text + "\n") && '\r' !in text && (after != "" ==> after[0] == '\n')
    ensures Enclosed("---\n" + text + "\n---" + after) == Some(text)
  {
    var s := "---\n" + text + "\n---" + after;
    var k := 4 + |text|;
    assert ClosesAt(s, k) by {
      assert RuleAt(s, k + 1);
      assert s[k] == '\n' && (after != "" ==> s[k + 4] == after[0]);
    }
    assert StartsWith(s, "---\n");
    var r := FindClose(s, 4);
    if r < k {
      NoEarlierClose(text, after, r);
    }
    assert s[4..k] == text;
  }

  lemma EnclosedDocument(ls: seq<string>, after: string)
    requires |ls| > 0 && Lines(ls) && (after != "" ==> after[0] == '\n')
    requires forall i :: 0 <= i < |ls| ==> NoRule(ls[i])
    ensures Enclosed("---\n" + Closed(ls) + "---" + after) == Some(Join(ls, "\n"))
  {
    NoRuleInLines(ls);
    NoReturns(ls);
    EnclosedText(Join(ls, "\n"), after);
    ClosedIsJoin(ls);
    PrintedText(Join(ls, "\n"), after);
  }

  lemma PrintedText(text: string, after: string)
    ensures "---\n" + (text + "\n") + "---" + after == "---\n" + text + "\n---" + after
  {
  }

  lemma NoEarlierClose(text: string, after: string, j: nat)
    requires NoRule("\n" + text + "\n") && '\r' !in text && 4 <= j < 4 + |text|
    ensures !ClosesAt("---\n" + text + "\n---" + after, j)
  {
    var s := "---\n" + text + "\n---" + after;
    var t := "\n" + text + "\n";
    assert s[j] == text[j - 4];
    assert !RuleAt(t, j - 2);
    assert forall i :: 0 <= i < |t| ==> s[i + 3] == t[i];
  }

  lemma LastLineUnseen(ls: seq<string>)
    requires |ls| > 0 && Lines(ls)
    ensures Fold(Step, START, SplitLines(Join(ls, "\n"))) == Fold(Step, START, ls)
  {
    SplitLinesOfJoin(ls);
    if ls[|ls| - 1] == "" {
      StepEmpty(Fold(Step, START, ls[..|ls| - 1]));
    }
  }

  lemma StepEmpty(st: State)
    ensures Step(st, "") == st
  {
    StripSpaces("");
  }

  /** Parsing a printed document is the line loop over the printed lines. */
  lemma ParseIsFold(d: Document)
    requires DocumentOk(d)
    ensures Parse(Print(d)) == Some(Flush(Fold(Step, START, FrontLines(d))).data)
  {
    FrontLinesOk(d);
    EnclosedDocument(FrontLines(d), d.after);
    LastLineUnseen(FrontLines(d));
  }

  /** Every printed document that indents with spaces is read back: one entry per printed entry, in
      order, with all its keys and the values verbatim. */
  lemma ParseInvertsPrint(d: Document)
    requires DocumentOk(d) && forall i :: 0 <= i < |d.entries| ==> EntrySpaced(d.entries[i])
    ensures var r := Parse(Print(d));
            r.Some? && RELATIONS in r.value && r.value[RELATIONS] == Items(Reported(d.entries))
  {
    ParseIsFold(d);
    FoldDocument(d);
  }
}
