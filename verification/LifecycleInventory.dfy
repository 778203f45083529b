/** `generate_report_lifecycle_inventory.py`: the third reader of the `relations:` block, index
    loops over the frontmatter lines with a nested loop for each kind of block. */
module LifecycleInventory {
  import opened Options
  import opened Text
  import opened FrontmatterText
  import opened RelationDocument

  datatype RelationEntry = RelationEntry(kind: string, target: string)

  datatype Value = Scalar(text: string) | Block(items: seq<string>) | Relations(entries: seq<RelationEntry>)

  type Data = map<string, Value>

  /** What goes into the warning text, part by part. */
  datatype Warning =
    | Missing | Unclosed | UnexpectedIndent(line: string) | Unparseable(line: string) | NotABlockList
    | BadItem(item: string) | NoListItem(line: string) | BadLine(line: string)

  datatype Parsed = Parsed(found: bool, data: Data, warnings: seq<Warning>)

  const RELATIONS := "relations"

  // ---------------------------------------------------------------- _split_frontmatter

  function ClosingIndex(lines: seq<string>, i: nat): (r: nat)
    requires i <= |lines|
    ensures i <= r <= |lines| && (r < |lines| ==> Strip(lines[r]) == "---")
    ensures forall j :: i <= j < r ==> Strip(lines[j]) != "---"
    decreases |lines| - i
  {
    if i == |lines| || Strip(lines[i]) == "---" then i else ClosingIndex(lines, i + 1)
  }

  /** The frontmatter lines and whether the closing delimiter is there. */
  function FrontmatterLines(content: string): Option<(seq<string>, bool)>
  {
    var lines := SplitLines(content);
    if !StartsWith(content, "---") || lines == [] || Strip(lines[0]) != "---" then None
    else
      var end := ClosingIndex(lines, 1);
      Some((lines[1..end], end < |lines|))
  }

  // ---------------------------------------------------------------- _parse_relations_block

  datatype BlockState = BlockState(
    current: Option<map<string, string>>, relations: seq<RelationEntry>, warnings: seq<Warning>)

  const EMPTY := BlockState(None, [], [])

  function Get(m: map<string, string>, k: string): string
  {
    if k in m then m[k] else ""
  }

  function EntryOf(m: map<string, string>): RelationEntry
  {
    RelationEntry(Get(m, "type"), Get(m, "target"))
  }

  function Close(st: BlockState): BlockState
  {
    if st.current.Some? then st.(current := None, relations := st.relations + [EntryOf(st.current.value)]) else st
  }

  function KeyOf(s: string): string
    requires ':' in s
  {
    Strip(Cut(s, ':').0)
  }

  function ValueOf(s: string): string
    requires ':' in s
  {
    Unquote(Strip(Cut(s, ':').1))
  }

  function ListItem(st: BlockState, item: string): BlockState
  {
    if item == "" then Close(st).(current := Some(map[]))
    else if ':' !in item then Close(st).(current := Some(map[]), warnings := st.warnings + [BadItem(item)])
    else Close(st).(current := Some(map[KeyOf(item) := ValueOf(item)]))
  }

  function Step(st: BlockState, line: string): BlockState
  {
    var stripped := Strip(line);
    if Skipped(line) then st
    else if StartsWith(stripped, "- ") then ListItem(st, Strip(stripped[2..]))
    else if st.current.None? then st.(warnings := st.warnings + [NoListItem(stripped)])
    else if ':' !in stripped then st.(warnings := st.warnings + [BadLine(stripped)])
    else st.(current := Some(st.current.value[KeyOf(stripped) := ValueOf(stripped)]))
  }

  /** The line is skipped or indented, so it does not end the block. */
  predicate StaysInside(line: string)
  {
    Skipped(line) || Indented(line)
  }

  /** What the block that starts here holds, and where it ends. */
  function BlockOf(lines: seq<string>, start: nat): (r: (BlockState, nat))
    requires start <= |lines|
    ensures start <= r.1 <= |lines|
  {
    var r := Scan(StaysInside, Step, lines, start, EMPTY);
    (Close(r.0), r.1)
  }

  /** The branch of the block loop for a line that opens an entry. */
  method NewItem(
      relations: seq<RelationEntry>, current: Option<map<string, string>>, warnings: seq<Warning>, item: string)
    returns (relations': seq<RelationEntry>, current': Option<map<string, string>>, warnings': seq<Warning>)
    ensures BlockState(current', relations', warnings') == ListItem(BlockState(current, relations, warnings), item)
  {
    relations', current', warnings' := relations, Some(map[]), warnings;
    if current.Some? {
      relations' := relations + [RelationEntry(Get(current.value, "type"), Get(current.value, "target"))];
    }
    if item != "" {
      if ':' !in item {
        warnings' := warnings + [BadItem(item)];
      } else {
        var cut := Cut(item, ':');
        current' := Some(map[Strip(cut.0) := Unquote(Strip(cut.1))]);
      }
    }
  }

  method ParseRelationsBlock(lines: seq<string>, start: nat)
    returns (warnings: seq<Warning>, relations: seq<RelationEntry>, next: nat)
    requires start <= |lines|
    ensures (BlockState(None, relations, warnings), next) == BlockOf(lines, start)
  {
    warnings, relations, next := [], [], start;
    var current: Option<map<string, string>> := None;
    while next < |lines|
      invariant start <= next <= |lines|
      invariant Scan(StaysInside, Step, lines, next, BlockState(current, relations, warnings)) ==
                Scan(StaysInside, Step, lines, start, EMPTY)
    {
      var line := lines[next];
      var stripped := Strip(line);
      if stripped != "" && stripped[0] != '#' && !Indented(line) {
        break;
      }
      next := next + 1;
      if stripped == "" || stripped[0] == '#' {
        continue;
      }
      if StartsWith(stripped, "- ") {
        relations, current, warnings := NewItem(relations, current, warnings, Strip(stripped[2..]));
        continue;
      }
      if current.None? {
        warnings := warnings + [NoListItem(stripped)];
        continue;
      }
      if ':' !in stripped {
        warnings := warnings + [BadLine(stripped)];
        continue;
      }
      var cut := Cut(stripped, ':');
      current := Some(current.value[Strip(cut.0) := Unquote(Strip(cut.1))]);
    }
    if current.Some? {
      relations := relations + [RelationEntry(Get(current.value, "type"), Get(current.value, "target"))];
    }
  }

  // ---------------------------------------------------------------- the other blocks

  /** The line is blank or indented. */
  predicate Continues(line: string)
  {
    Strip(line) == "" || Indented(line)
  }

  function BlockItem(items: seq<string>, line: string): seq<string>
  {
    var stripped := Strip(line);
    if stripped == "" then items
    else if StartsWith(stripped, "- ") then items + [Unquote(Strip(stripped[2..]))]
    else items + [stripped]
  }

  /** `_parse_generic_block_value`: the items of a list block, or the empty text. */
  function GenericBlock(lines: seq<string>, start: nat): (r: (Value, nat))
    requires start <= |lines|
    ensures start <= r.1 <= |lines|
  {
    var r := Scan(Continues, BlockItem, lines, start, []);
    (if r.0 == [] then Scalar("") else Block(r.0), r.1)
  }

  method ParseGenericBlock(lines: seq<string>, start: nat) returns (value: Value, next: nat)
    requires start <= |lines|
    ensures (value, next) == GenericBlock(lines, start)
  {
    var items: seq<string> := [];
    next := start;
    while next < |lines|
      invariant start <= next <= |lines|
      invariant Scan(Continues, BlockItem, lines, next, items) == Scan(Continues, BlockItem, lines, start, [])
    {
      var stripped := Strip(lines[next]);
      if stripped != "" && !Indented(lines[next]) {
        break;
      }
      next := next + 1;
      if stripped == "" {
        continue;
      }
      if StartsWith(stripped, "- ") {
        items := items + [Unquote(Strip(stripped[2..]))];
      } else {
        items := items + [stripped];
      }
    }
    value := if items == [] then Scalar("") else Block(items);
  }

  /** The non-empty stripped texts of the indented lines. */
  function FoldedPart(parts: seq<string>, line: string): seq<string>
  {
    if Indented(line) && Strip(line) != "" then parts + [Strip(line)] else parts
  }

  /** `_parse_multiline_scalar_block`: the texts of the block on one line. */
  function MultilineBlock(lines: seq<string>, start: nat): (r: (Value, nat))
    requires start <= |lines|
    ensures start <= r.1 <= |lines|
  {
    var r := Scan(Continues, FoldedPart, lines, start, []);
    (Scalar(Strip(Join(r.0, " "))), r.1)
  }

  method ParseMultilineBlock(lines: seq<string>, start: nat) returns (value: Value, next: nat)
    requires start <= |lines|
    ensures (value, next) == MultilineBlock(lines, start)
  {
    var parts: seq<string> := [];
    next := start;
    while next < |lines|
      invariant start <= next <= |lines|
      invariant Scan(Continues, FoldedPart, lines, next, parts) == Scan(Continues, FoldedPart, lines, start, [])
    {
      var line := lines[next];
      if Strip(line) != "" && !Indented(line) {
        break;
      }
      if Indented(line) && Strip(line) != "" {
        parts := parts + [Strip(line)];
      }
      next := next + 1;
    }
    value := Scalar(Strip(Join(parts, " ")));
  }

  // ---------------------------------------------------------------- _parse_frontmatter

  /** `data`, `relations` and `warning_parts`. */
  datatype State = State(data: Data, relations: seq<RelationEntry>, warnings: seq<Warning>)

  /** A `key: value` line other than `relations`, with the index to go on from. */
  function FieldStep(lines: seq<string>, i: nat, value: string): (r: (Value, nat))
    requires i < |lines|
    ensures i < r.1 <= |lines|
  {
    if value == ">" || value == "|" then MultilineBlock(lines, i + 1)
    else if value == "" then GenericBlock(lines, i + 1)
    else (Scalar(Unquote(value)), i + 1)
  }

  function RelationsStep(lines: seq<string>, i: nat, st: State, value: string): (r: (State, nat))
    requires i < |lines|
    ensures i < r.1 <= |lines|
  {
    if value == "[]" then (st.(data := st.data[RELATIONS := Relations([])]), i + 1)
    else if value != "" then
      (st.(data := st.data[RELATIONS := Relations([])], warnings := st.warnings + [NotABlockList]), i + 1)
    else
      var block := BlockOf(lines, i + 1);
      (State(st.data[RELATIONS := Relations(block.0.relations)], block.0.relations, st.warnings + block.0.warnings),
       block.1)
  }

  /** One turn of the main loop. */
  function Turn(lines: seq<string>, i: nat, st: State): (r: (State, nat))
    requires i < |lines|
    ensures i < r.1 <= |lines|
  {
    var line := lines[i];
    var stripped := Strip(line);
    if Skipped(line) then (st, i + 1)
    else if Indented(line) then (st.(warnings := st.warnings + [UnexpectedIndent(stripped)]), i + 1)
    else if ':' !in line then (st.(warnings := st.warnings + [Unparseable(stripped)]), i + 1)
    else
      var key, value := KeyOf(line), Strip(Cut(line, ':').1);
      if key == RELATIONS then RelationsStep(lines, i, st, value)
      else
        var field := FieldStep(lines, i, value);
        (st.(data := st.data[key := field.0]), field.1)
  }

  /** The turns of the main loop over these lines. */
  function TurnOf(lines: seq<string>): (nat, State) -> (State, nat)
  {
    (i: nat, st: State) => if i < |lines| then Turn(lines, i, st) else (st, i)
  }

  function Finish(st: State): Parsed
  {
    Parsed(true, if st.relations == [] then st.data else st.data[RELATIONS := Relations(st.relations)], st.warnings)
  }

  function Parse(content: string): Parsed
  {
    var front := FrontmatterLines(content);
    if front.None? then Parsed(false, map[], [Missing])
    else
      var lines := front.value.0;
      Finish(Loop(TurnOf(lines), |lines|, 0, State(map[], [], if front.value.1 then [] else [Unclosed])))
  }

  method SplitFrontmatter(content: string) returns (found: bool, front: seq<string>, closed: bool)
    ensures FrontmatterLines(content) == if found then Some((front, closed)) else None
  {
    found, front, closed := false, [], false;
    if !StartsWith(content, "---") {
      return;
    }
    var lines := SplitLines(content);
    if lines == [] || Strip(lines[0]) != "---" {
      return;
    }
    var index := 1;
    while index < |lines|
      invariant 1 <= index <= ClosingIndex(lines, 1)
    {
      if Strip(lines[index]) == "---" {
        break;
      }
      index := index + 1;
    }
    found, front, closed := true, lines[1..index], index < |lines|;
  }

  lemma TurnLeads(lines: seq<string>, i: nat, start: State, j: nat, st: State)
    requires j < |lines| && Leads(TurnOf(lines), |lines|, i, start, j, st)
    ensures Leads(TurnOf(lines), |lines|, i, start, Turn(lines, j, st).1, Turn(lines, j, st).0)
  {
    var next := Turn(lines, j, st);
    LeadsTurn(TurnOf(lines), |lines|, j, st, next.0, next.1);
    LeadsOn(TurnOf(lines), |lines|, i, start, j, st, next.1, next.0);
  }

  /** The branches of the main loop for any other key. */
  method FieldLine(lines: seq<string>, i: nat, value: string) returns (field: Value, next: nat)
    requires i < |lines|
    ensures (field, next) == FieldStep(lines, i, value)
  {
    field, next := Scalar(Unquote(value)), i + 1;
    if value == ">" || value == "|" {
      field, next := ParseMultilineBlock(lines, i + 1);
    } else if value == "" {
      field, next := ParseGenericBlock(lines, i + 1);
    }
  }

  /** The branch of the main loop for the key `relations`. */
  method RelationsLine(
      lines: seq<string>, i: nat, data: Data, relations: seq<RelationEntry>, warnings: seq<Warning>, value: string)
    returns (data': Data, relations': seq<RelationEntry>, warnings': seq<Warning>, next: nat)
    requires i < |lines|
    ensures (State(data', relations', warnings'), next) == RelationsStep(lines, i, State(data, relations, warnings), value)
  {
    relations', warnings', next := relations, warnings, i + 1;
    data' := data[RELATIONS := Relations([])];
    if value == "[]" {
      return;
    }
    if value != "" {
      warnings' := warnings + [NotABlockList];
      return;
    }
    var more, parsed, end := ParseRelationsBlock(lines, i + 1);
    warnings', relations', next := warnings + more, parsed, end;
    data' := data[RELATIONS := Relations(parsed)];
  }

  /** The body of the main loop. */
  method TakeTurn(lines: seq<string>, i: nat, data: Data, relations: seq<RelationEntry>, warnings: seq<Warning>)
    returns (data': Data, relations': seq<RelationEntry>, warnings': seq<Warning>, next: nat)
    requires i < |lines|
    ensures (State(data', relations', warnings'), next) == Turn(lines, i, State(data, relations, warnings))
  {
    data', relations', warnings', next := data, relations, warnings, i + 1;
    var line := lines[i];
    var stripped := Strip(line);
    if stripped == "" || stripped[0] == '#' {
      return;
    }
    if Indented(line) {
      warnings' := warnings + [UnexpectedIndent(stripped)];
      return;
    }
    if ':' !in line {
      warnings' := warnings + [Unparseable(stripped)];
      return;
    }
    var cut := Cut(line, ':');
    var key, value := Strip(cut.0), Strip(cut.1);
    if key == RELATIONS {
      data', relations', warnings', next := RelationsLine(lines, i, data, relations, warnings, value);
    } else {
      var field;
      field, next := FieldLine(lines, i, value);
      data' := data[key := field];
    }
  }

  method ParseFrontmatter(content: string) returns (r: Parsed)
    ensures r == Parse(content)
  {
    var found, lines, closed := SplitFrontmatter(content);
    if !found {
      return Parsed(false, map[], [Missing]);
    }
    var data: Data := map[];
    var relations: seq<RelationEntry> := [];
    var warnings := if closed then [] else [Unclosed];
    ghost var start := State(data, relations, warnings);
    var index := 0;
    while index < |lines|
      invariant index <= |lines|
      invariant Leads(TurnOf(lines), |lines|, 0, start, index, State(data, relations, warnings))
    {
      TurnLeads(lines, 0, start, index, State(data, relations, warnings));
      data, relations, warnings, index := TakeTurn(lines, index, data, relations, warnings);
    }
    if relations != [] {
      data := data[RELATIONS := Relations(relations)];
    }
    r := Parsed(true, data, warnings);
  }

  // ---------------------------------------------------------------- one printed line

  lemma StepFiller(st: BlockState, l: Line)
    requires LineOk(l) && Filler(l)
    ensures Step(st, Render(l)) == st
  {
    FillerShape(l);
  }

  /** The state after the opening line of an entry. */
  function Opening(st: BlockState, m: map<string, string>): BlockState
  {
    Close(st).(current := Some(m))
  }

  lemma OpeningCloses(st: BlockState, m: map<string, string>)
    ensures Close(Opening(st, m)) == Close(st).(relations := Close(st).relations + [EntryOf(m)])
  {
  }

  lemma StepDash(st: BlockState, e: Entry)
    requires EntryOk(e)
    ensures Step(st, Render(EntryLines(e)[0])) == Opening(st, UnquoteAll(map[e.key := e.value]))
  {
    var l := EntryLines(e)[0];
    assert LineOk(l);
    DashShape(e.pad, e.key, e.value);
    PairShape(e.key, e.value);
    ItemShape(st, Pair(e.key, e.value), e.key, e.value);
  }

  lemma ItemShape(st: BlockState, p: string, key: string, value: string)
    requires p != "" && Trimmed(p) && ReadsAs(p, key, value)
    ensures ListItem(st, Strip(p)) == Opening(st, UnquoteAll(map[key := value]))
  {
    StripOfTrimmed(p);
    UnquoteOne(key, value);
  }

  lemma StepMore(st: BlockState, l: Line, m: map<string, string>)
    requires LineOk(l) && l.More? && st.current == Some(UnquoteAll(m))
    ensures Step(st, Render(l)) == st.(current := Some(UnquoteAll(m[l.key := l.value])))
  {
    MoreShape(l.pad, l.key, l.value);
    PairShape(l.key, l.value);
    UnquoteUpdate(m, l.key, l.value);
  }

  lemma TurnFiller(lines: seq<string>, i: nat, st: State, l: Line)
    requires i < |lines| && lines[i] == Render(l) && LineOk(l) && Filler(l)
    ensures Turn(lines, i, st) == (st, i + 1)
  {
    FillerShape(l);
  }

  lemma TurnField(lines: seq<string>, i: nat, st: State, l: Line)
    requires i < |lines| && lines[i] == Render(l) && LineOk(l) && l.Field?
    ensures Turn(lines, i, st) == (st.(data := st.data[l.key := Scalar(Unquote(l.value))]), i + 1)
  {
    FieldShape(l.key, l.value);
  }

  lemma TurnHeader(lines: seq<string>, i: nat, st: State)
    requires i < |lines| && lines[i] == HEADER
    ensures Turn(lines, i, st) == RelationsStep(lines, i, st, "")
  {
    HeaderShape();
  }

  // ---------------------------------------------------------------- printed documents

  /** The entries as this reader reports them: the unquoted `type` and `target`. */
  function Reported(es: seq<Entry>): (r: seq<RelationEntry>)
    ensures |r| == |es| && forall i :: 0 <= i < |es| ==> r[i] == EntryOf(UnquoteAll(Meaning(es[i])))
  {
    seq(|es|, i requires 0 <= i < |es| => EntryOf(UnquoteAll(Meaning(es[i]))))
  }

  lemma ReportedLast(es: seq<Entry>)
    requires |es| > 0
    ensures Reported(es) == Reported(es[..|es| - 1]) + [EntryOf(UnquoteAll(Meaning(es[|es| - 1])))]
  {
  }

  lemma {:induction false} FoldFillers(st: BlockState, ls: seq<Line>)
    requires AllOk(ls) && forall i :: 0 <= i < |ls| ==> Filler(ls[i])
    ensures Fold(Step, st, Rendered(ls)) == st
  {
    if |ls| > 0 {
      FoldFillers(st, ls[..|ls| - 1]);
      FoldLast(Step, st, ls);
      StepFiller(st, ls[|ls| - 1]);
    }
  }

  lemma {:induction false} FoldMore(st: BlockState, m: map<string, string>, more: seq<Line>)
    requires AllOk(more) && forall i :: 0 <= i < |more| ==> Filler(more[i]) || more[i].More?
    requires st.current == Some(UnquoteAll(m))
    ensures Fold(Step, st, Rendered(more)) == st.(current := Some(UnquoteAll(Extended(m, more))))
  {
    if |more| > 0 {
      var init, l := more[..|more| - 1], more[|more| - 1];
      FoldMore(st, m, init);
      FoldLast(Step, st, more);
      var before := st.(current := Some(UnquoteAll(Extended(m, init))));
      if Filler(l) {
        StepFiller(before, l);
      } else {
        StepMore(before, l, Extended(m, init));
      }
    }
  }

  lemma FoldEntry(st: BlockState, e: Entry)
    requires EntryOk(e)
    ensures Fold(Step, st, Rendered(EntryLines(e))) == Opening(st, UnquoteAll(Meaning(e)))
  {
    var m := map[e.key := e.value];
    EntryRendered(e);
    StepDash(st, e);
    FoldMore(Opening(st, UnquoteAll(m)), m, e.more);
    FoldEntryLines(Step, st, e, Opening(st, UnquoteAll(m)), Opening(st, UnquoteAll(Meaning(e))));
  }

  lemma {:induction false} FoldEntries(es: seq<Entry>)
    requires EntriesOk(es)
    ensures Close(Fold(Step, EMPTY, Rendered(BlockLines(es)))) == BlockState(None, Reported(es), [])
  {
    if |es| > 0 {
      var init, e := es[..|es| - 1], es[|es| - 1];
      var before := Fold(Step, EMPTY, Rendered(BlockLines(init)));
      FoldEntries(init);
      FoldEntry(before, e);
      FoldBlockLines(Step, EMPTY, es, before, Opening(before, UnquoteAll(Meaning(e))));
      OpeningCloses(before, UnquoteAll(Meaning(e)));
      ReportedLast(es);
    }
  }

  /** The lines of the block itself, with the skipped lines around it. */
  lemma FoldBlock(gap: seq<Line>, es: seq<Entry>, trail: seq<Line>)
    requires AllOk(gap) && forall i :: 0 <= i < |gap| ==> Filler(gap[i])
    requires EntriesOk(es)
    requires AllOk(trail) && forall i :: 0 <= i < |trail| ==> Filler(trail[i])
    ensures Close(Fold(Step, EMPTY, Rendered(gap + BlockLines(es) + trail))) == BlockState(None, Reported(es), [])
  {
    var block := Rendered(BlockLines(es));
    calc {
      Fold(Step, EMPTY, Rendered(gap + BlockLines(es) + trail));
      { RenderedConcat(gap + BlockLines(es), trail); RenderedConcat(gap, BlockLines(es)); }
      Fold(Step, EMPTY, Rendered(gap) + block + Rendered(trail));
      { FoldConcat(Step, EMPTY, Rendered(gap) + block, Rendered(trail)); }
      Fold(Step, Fold(Step, EMPTY, Rendered(gap) + block), Rendered(trail));
      { FoldFillers(Fold(Step, EMPTY, Rendered(gap) + block), trail); }
      Fold(Step, EMPTY, Rendered(gap) + block);
      { FoldConcat(Step, EMPTY, Rendered(gap), block); FoldFillers(EMPTY, gap); }
      Fold(Step, EMPTY, block);
    }
    FoldEntries(es);
  }

  /** The number of skipped lines at the start. */
  function Leading(ls: seq<Line>): (n: nat)
    ensures n <= |ls| && (n < |ls| ==> !Filler(ls[n])) && forall i :: 0 <= i < n ==> Filler(ls[i])
  {
    if |ls| == 0 || !Filler(ls[0]) then 0 else 1 + Leading(ls[1..])
  }

  predicate InBlock(l: Line)
  {
    Filler(l) || l.Dash? || l.More?
  }

  lemma InBlockShape(l: Line)
    requires LineOk(l)
    ensures InBlock(l) <==> StaysInside(Render(l))
  {
    match l
    case Blank(_) => FillerShape(l);
    case Comment(_, _) => FillerShape(l);
    case Field(key, value) => FieldShape(key, value);
    case Dash(pad, key, value) => DashShape(pad, key, value);
    case More(pad, key, value) => MoreShape(pad, key, value);
  }

  lemma {:induction false} BlockLinesInBlock(es: seq<Entry>)
    requires EntriesOk(es)
    ensures forall i :: 0 <= i < |BlockLines(es)| ==> InBlock(BlockLines(es)[i])
  {
    if |es| > 0 {
      BlockLinesInBlock(es[..|es| - 1]);
      assert EntryOk(es[|es| - 1]);
    }
  }

  /** The printed lines stand at index i. */
  ghost predicate StandAt(lines: seq<string>, i: nat, ls: seq<Line>)
  {
    i + |ls| <= |lines| && forall j :: 0 <= j < |ls| ==> lines[i + j] == Render(ls[j])
  }

  /** A field or a skipped line sets no more than its own key. */
  ghost predicate Untouched(before: State, after: State)
  {
    && after.relations == before.relations && after.warnings == before.warnings
    && (RELATIONS in before.data ==> RELATIONS in after.data && after.data[RELATIONS] == before.data[RELATIONS])
  }

  ghost predicate AllOutside(ls: seq<Line>)
  {
    AllOk(ls) && forall i :: 0 <= i < |ls| ==> Outside(ls[i])
  }

  ghost predicate AllInBlock(ls: seq<Line>)
  {
    AllOk(ls) && forall i :: 0 <= i < |ls| ==> InBlock(ls[i])
  }

  predicate StartsWithField(ls: seq<Line>)
  {
    ls != [] ==> ls[0].Field?
  }

  type Turns = (nat, State) -> (State, nat)

  /** The loop runs over these lines. */
  ghost predicate Runs(turn: Turns, lines: seq<string>)
  {
    forall i: nat, st {:trigger Turn(lines, i, st)} :: i < |lines| ==> Turn(lines, i, st) == turn(i, st)
  }

  lemma TurnOutside(turn: Turns, lines: seq<string>, i: nat, st: State, l: Line) returns (st': State)
    requires Runs(turn, lines) && i < |lines| && lines[i] == Render(l) && LineOk(l) && Outside(l)
    ensures turn(i, st) == (st', i + 1) && Untouched(st, st')
  {
    st' := Turn(lines, i, st).0;
    if Filler(l) {
      TurnFiller(lines, i, st, l);
    } else {
      TurnField(lines, i, st, l);
    }
  }

  lemma {:induction false} LeadsOutside(turn: Turns, lines: seq<string>, i: nat, ls: seq<Line>, j: nat, st: State)
    returns (st': State)
    requires Runs(turn, lines) && StandAt(lines, i, ls) && AllOutside(ls) && j <= |ls|
    ensures Leads(turn, |lines|, i + j, st, i + |ls|, st') && Untouched(st, st')
    decreases |ls| - j
  {
    if j == |ls| {
      st' := st;
    } else {
      var st1 := TurnOutside(turn, lines, i + j, st, ls[j]);
      LeadsTurn(turn, |lines|, i + j, st, st1, i + j + 1);
      st' := LeadsOutside(turn, lines, i, ls, j + 1, st1);
      LeadsOn(turn, |lines|, i + j, st, i + j + 1, st1, i + |ls|, st');
    }
  }

  /** The block loop that starts here runs over these lines and stops after them. */
  ghost predicate Spans(lines: seq<string>, start: nat, ls: seq<Line>)
  {
    && start <= |lines|
    && Scan(StaysInside, Step, lines, start, EMPTY) == (Fold(Step, EMPTY, Rendered(ls)), start + |ls|)
  }

  /** The block that starts here ends before `end` and holds these relations, without a warning. */
  ghost predicate BlockIs(lines: seq<string>, start: nat, end: nat, relations: seq<RelationEntry>)
  {
    start <= |lines| && BlockOf(lines, start) == (BlockState(None, relations, []), end)
  }

  /** Read as a block, the lines hold these relations. */
  ghost predicate Amounts(ls: seq<Line>, relations: seq<RelationEntry>)
  {
    Close(Fold(Step, EMPTY, Rendered(ls))) == BlockState(None, relations, [])
  }

  lemma SpansBlock(lines: seq<string>, start: nat, ls: seq<Line>, relations: seq<RelationEntry>)
    requires Spans(lines, start, ls) && Amounts(ls, relations)
    ensures BlockIs(lines, start, start + |ls|, relations)
  {
  }

  /** The block with the skipped lines around it, and the lines from the next field on. */
  function Inside(d: Document): seq<Line>
  {
    d.gap + BlockLines(d.entries) + d.tail[..Leading(d.tail)]
  }

  function Rest(d: Document): seq<Line>
  {
    d.tail[Leading(d.tail)..]
  }

  ghost predicate StandsIn(lines: seq<string>, head: seq<Line>, inside: seq<Line>, rest: seq<Line>)
  {
    && |lines| == |head| + 1 + |inside| + |rest|
    && StandAt(lines, 0, head) && lines[|head|] == HEADER
    && StandAt(lines, |head| + 1, inside)
    && StandAt(lines, |head| + 1 + |inside|, rest)
  }

  /** The block ends at the first field after it. */
  lemma BlockEndsAt(lines: seq<string>, head: seq<Line>, inside: seq<Line>, rest: seq<Line>)
    requires StandsIn(lines, head, inside, rest)
    requires AllInBlock(inside) && AllOutside(rest) && StartsWithField(rest)
    ensures Spans(lines, |head| + 1, inside)
  {
    assert Run(StaysInside, lines, |head| + 1, Rendered(inside)) by {
      InsideStays(inside);
      RestStops(lines, |head| + 1 + |inside|, rest);
      InsideRuns(lines, head, inside, rest);
    }
    ScanOver(StaysInside, Step, lines, |head| + 1, EMPTY, inside);
  }

  lemma ScanOver<S>(
      stays: string -> bool, step: (S, string) -> S, lines: seq<string>, i: nat, st: S, ls: seq<Line>)
    requires Run(stays, lines, i, Rendered(ls))
    ensures i <= |lines| && Scan(stays, step, lines, i, st) == (Fold(step, st, Rendered(ls)), i + |ls|)
  {
    ScanFolds(stays, step, lines, i, st, Rendered(ls));
  }

  lemma InsideStays(inside: seq<Line>)
    requires AllInBlock(inside)
    ensures forall j :: 0 <= j < |inside| ==> StaysInside(Rendered(inside)[j])
  {
    forall j | 0 <= j < |inside| ensures StaysInside(Rendered(inside)[j]) {
      InBlockShape(inside[j]);
    }
  }

  lemma RestStops(lines: seq<string>, i: nat, rest: seq<Line>)
    requires StandAt(lines, i, rest) && AllOutside(rest) && StartsWithField(rest)
    ensures rest != [] ==> !StaysInside(lines[i])
  {
    if rest != [] {
      assert lines[i + 0] == Render(rest[0]);
      InBlockShape(rest[0]);
    }
  }

  lemma InsideRuns(lines: seq<string>, head: seq<Line>, inside: seq<Line>, rest: seq<Line>)
    requires StandsIn(lines, head, inside, rest)
    requires forall j :: 0 <= j < |inside| ==> StaysInside(Rendered(inside)[j])
    requires rest != [] ==> !StaysInside(lines[|head| + 1 + |inside|])
    ensures Run(StaysInside, lines, |head| + 1, Rendered(inside))
  {
  }

  lemma PartsStand(head: seq<Line>, below: seq<Line>, inside: seq<Line>, rest: seq<Line>)
    requires below == inside + rest
    ensures StandsIn(Rendered(head) + ([HEADER] + Rendered(below)), head, inside, rest)
  {
    var lines := Rendered(head) + ([HEADER] + Rendered(below));
    forall j | 0 <= j < |inside| ensures lines[|head| + 1 + j] == Render(inside[j]) {
      assert below[j] == inside[j];
    }
    forall j | 0 <= j < |rest| ensures lines[|head| + 1 + |inside| + j] == Render(rest[j]) {
      assert below[|inside| + j] == rest[j];
    }
  }

  lemma InsideOk(d: Document)
    requires DocumentOk(d)
    ensures AllInBlock(Inside(d)) && StartsWithField(Rest(d))
    ensures AllOutside(d.head) && AllOutside(Rest(d))
  {
    BlockLinesOk(d.entries);
    BlockLinesInBlock(d.entries);
  }

  lemma InsideAmounts(d: Document)
    requires DocumentOk(d)
    ensures Amounts(Inside(d), Reported(d.entries))
  {
    FoldBlock(d.gap, d.entries, d.tail[..Leading(d.tail)]);
  }

  lemma InsideSpans(d: Document)
    requires DocumentOk(d)
    ensures Spans(FrontLines(d), |d.head| + 1, Inside(d))
  {
    DocumentStands(d);
    InsideOk(d);
    BlockEndsAt(FrontLines(d), d.head, Inside(d), Rest(d));
  }

  /** The state when the loop has passed a block without warnings. */
  function PastBlock(st: State, relations: seq<RelationEntry>): State
  {
    State(st.data[RELATIONS := Relations(relations)], relations, st.warnings)
  }

  lemma LeadsPastBlock(turn: Turns, lines: seq<string>, i: nat, st: State, end: nat, relations: seq<RelationEntry>)
    requires Runs(turn, lines) && i < |lines| && lines[i] == HEADER && BlockIs(lines, i + 1, end, relations)
    ensures Leads(turn, |lines|, i, st, end, PastBlock(st, relations))
  {
    TurnHeader(lines, i, st);
    assert st.warnings + [] == st.warnings;
    LeadsTurn(turn, |lines|, i, st, PastBlock(st, relations), end);
  }

  /** Fields, the block, fields: the whole loop. */
  lemma LeadsThrough(
      turn: Turns, lines: seq<string>, head: seq<Line>, inside: seq<Line>, rest: seq<Line>,
      relations: seq<RelationEntry>, start: State)
    returns (st: State)
    requires Runs(turn, lines) && StandsIn(lines, head, inside, rest) && AllOutside(head) && AllOutside(rest)
    requires BlockIs(lines, |head| + 1, |head| + 1 + |inside|, relations)
    ensures Leads(turn, |lines|, 0, start, |lines|, st)
    ensures st.warnings == start.warnings && st.relations == relations
    ensures RELATIONS in st.data && st.data[RELATIONS] == Relations(relations)
  {
    var n, h, next := |lines|, |head|, |head| + 1 + |inside|;
    var st1 := LeadsOutside(turn, lines, 0, head, 0, start);
    var st2 := PastBlock(st1, relations);
    LeadsPastBlock(turn, lines, h, st1, next, relations);
    st := LeadsOutside(turn, lines, next, rest, 0, st2);
    LeadsOn(turn, n, 0, start, h, st1, next, st2);
    LeadsOn(turn, n, 0, start, next, st2, n, st);
  }

  /** Where the parts of a printed document stand, and what its block holds. */
  ghost predicate Facts(d: Document)
  {
    && StandsIn(FrontLines(d), d.head, Inside(d), Rest(d))
    && AllOutside(d.head) && AllOutside(Rest(d))
    && BlockIs(FrontLines(d), |d.head| + 1, |d.head| + 1 + |Inside(d)|, Reported(d.entries))
  }

  lemma DocumentFacts(d: Document)
    requires DocumentOk(d)
    ensures Facts(d)
  {
    DocumentStands(d);
    InsideOk(d);
    BlockInside(d);
  }

  lemma BlockInside(d: Document)
    requires DocumentOk(d)
    ensures BlockIs(FrontLines(d), |d.head| + 1, |d.head| + 1 + |Inside(d)|, Reported(d.entries))
  {
    InsideSpans(d);
    InsideAmounts(d);
    SpansBlock(FrontLines(d), |d.head| + 1, Inside(d), Reported(d.entries));
  }

  lemma DocumentStands(d: Document)
    ensures StandsIn(FrontLines(d), d.head, Inside(d), Rest(d))
  {
    var below := d.gap + BlockLines(d.entries) + d.tail;
    assert below == Inside(d) + Rest(d);
    PartsStand(d.head, below, Inside(d), Rest(d));
  }

  /** The whole frontmatter of a printed document. */
  lemma LeadsThroughDocument(turn: Turns, d: Document, start: State) returns (st: State)
    requires Facts(d) && Runs(turn, FrontLines(d))
    ensures Leads(turn, |FrontLines(d)|, 0, start, |FrontLines(d)|, st)
    ensures st.warnings == start.warnings && st.relations == Reported(d.entries)
    ensures RELATIONS in st.data && st.data[RELATIONS] == Relations(Reported(d.entries))
  {
    st := LeadsThrough(turn, FrontLines(d), d.head, Inside(d), Rest(d), Reported(d.entries), start);
  }

  lemma TurnOfRuns(lines: seq<string>)
    ensures Runs(TurnOf(lines), lines)
  {
  }

  lemma LoopEnds(lines: seq<string>, start: State, st: State)
    requires Leads(TurnOf(lines), |lines|, 0, start, |lines|, st)
    ensures Loop(TurnOf(lines), |lines|, 0, start) == st
  {
  }

  // ---------------------------------------------------------------- the delimiters

  lemma StripPart(s: string) returns (k: nat)
    ensures k + |Strip(s)| <= |s| && Strip(s) == s[k..k + |Strip(s)|]
  {
    k := StripLeftPart(s);
    StripRightEnds(StripLeft(s));
  }

  lemma {:induction false} StripLeftPart(s: string) returns (k: nat)
    ensures k <= |s| && StripLeft(s) == s[k..]
  {
    if s != "" && IsSpace(s[0]) {
      k := StripLeftPart(s[1..]);
      k := k + 1;
    } else {
      k := 0;
    }
  }

  lemma NotADelimiter(s: string)
    requires NoRule(s)
    ensures Strip(s) != "---"
  {
    var k := StripPart(s);
    PartIsRule(s, k, |Strip(s)|);
  }

  lemma PartIsRule(s: string, k: nat, n: nat)
    requires k + n <= |s|
    ensures s[k..k + n] == "---" ==> RuleAt(s, k)
  {
    var t := s[k..k + n];
    assert forall i :: 0 <= i < n ==> t[i] == s[k + i];
    assert t == "---" ==> t[0] == '-' && t[1] == '-' && t[2] == '-';
  }

  /** The closing delimiter and what follows it. */
  lemma LinesAfter(after: string) returns (rest: seq<string>)
    requires after != "" ==> after[0] == '\n'
    ensures SplitLines("---" + after) == ["---"] + rest
  {
    assert OneLine("---");
    if after == "" {
      assert "---" + after == "---";
      SplitLinesLast("---");
      rest := [];
    } else {
      assert "---" + after == "---" + "\n" + after[1..];
      SplitLinesHead("---", after[1..]);
      rest := SplitLines(after[1..]);
    }
  }

  /** `splitlines` gives the delimiter lines around the printed ones. */
  lemma LinesOfPrint(ls: seq<string>, after: string) returns (rest: seq<string>)
    requires Lines(ls) && (after != "" ==> after[0] == '\n')
    ensures SplitLines("---\n" + Closed(ls) + "---" + after) == ["---"] + (ls + (["---"] + rest))
  {
    rest := LinesAfter(after);
    calc {
      SplitLines("---\n" + Closed(ls) + "---" + after);
      { OpeningLine(Closed(ls), after); }
      SplitLines("---" + "\n" + (Closed(ls) + ("---" + after)));
      { assert OneLine("---"); SplitLinesHead("---", Closed(ls) + ("---" + after)); }
      ["---"] + SplitLines(Closed(ls) + ("---" + after));
      { SplitLinesClosed(ls, "---" + after); }
      ["---"] + (ls + SplitLines("---" + after));
    }
  }

  lemma OpeningLine(text: string, after: string)
    ensures "---\n" + text + "---" + after == "---" + "\n" + (text + ("---" + after))
    ensures StartsWith("---\n" + text + "---" + after, "---")
  {
  }

  lemma FrontmatterOfPrint(ls: seq<string>, after: string)
    requires Lines(ls) && (after != "" ==> after[0] == '\n')
    requires forall i :: 0 <= i < |ls| ==> NoRule(ls[i])
    ensures FrontmatterLines("---\n" + Closed(ls) + "---" + after) == Some((ls, true))
  {
    var rest := LinesOfPrint(ls, after);
    OpeningLine(Closed(ls), after);
    ClosesAfter(ls, rest);
  }

  lemma ClosesAfter(ls: seq<string>, rest: seq<string>)
    requires forall i :: 0 <= i < |ls| ==> NoRule(ls[i])
    ensures var lines := ["---"] + (ls + (["---"] + rest));
            Strip(lines[0]) == "---" && ClosingIndex(lines, 1) == 1 + |ls| && lines[1..1 + |ls|] == ls
  {
    var lines := ["---"] + (ls + (["---"] + rest));
    StripOfTrimmed("---");
    forall j | 1 <= j < 1 + |ls| ensures Strip(lines[j]) != "---" {
      assert lines[j] == ls[j - 1];
      NotADelimiter(ls[j - 1]);
    }
    assert lines[1 + |ls|] == "---";
  }

  /** Every printed document is read back without a warning: one entry per printed entry, in order,
      with its unquoted type and target. */
  lemma ParseInvertsPrint(d: Document)
    requires DocumentOk(d)
    ensures var r := Parse(Print(d));
            && r.found && r.warnings == []
            && RELATIONS in r.data && r.data[RELATIONS] == Relations(Reported(d.entries))
  {
    FrontLinesOk(d);
    FrontmatterOfPrint(FrontLines(d), d.after);
    DocumentFacts(d);
    TurnOfRuns(FrontLines(d));
    var st := LeadsThroughDocument(TurnOf(FrontLines(d)), d, State(map[], [], []));
    LoopEnds(FrontLines(d), State(map[], [], []), st);
  }
}
