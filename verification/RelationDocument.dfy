/** Documents with a `relations:` block in the strict subset that the readers share, as data and
    as text, and what their entries mean. */
module RelationDocument {
  import opened Text
  import opened FrontmatterText

  /** A frontmatter line: `Field` is unindented, `Dash` opens an entry, `More` continues it. */
  datatype Line =
    | Blank(pad: string)
    | Comment(pad: string, text: string)
    | Field(key: string, value: string)
    | Dash(pad: string, key: string, value: string)
    | More(pad: string, key: string, value: string)

  /** One entry: its opening line, then further keys with blank and comment lines between them. */
  datatype Entry = Entry(pad: string, key: string, value: string, more: seq<Line>)

  /** The frontmatter fields before and after the block, the lines of the block, and what follows
      the closing delimiter. */
  datatype Document = Document(head: seq<Line>, gap: seq<Line>, entries: seq<Entry>, tail: seq<Line>, after: string)

  const HEADER := "relations:"

  function Pair(key: string, value: string): string
  {
    if value == "" then key + ":" else key + ": " + value
  }

  function Render(l: Line): string
  {
    match l
    case Blank(pad) => pad
    case Comment(pad, text) => pad + ("#" + text)
    case Field(key, value) => Pair(key, value)
    case Dash(pad, key, value) => pad + ("- " + Pair(key, value))
    case More(pad, key, value) => pad + Pair(key, value)
  }

  function Rendered(ls: seq<Line>): (r: seq<string>)
    ensures |r| == |ls| && forall i :: 0 <= i < |ls| ==> r[i] == Render(ls[i])
  {
    seq(|ls|, i requires 0 <= i < |ls| => Render(ls[i]))
  }

  function EntryLines(e: Entry): seq<Line>
  {
    [Dash(e.pad, e.key, e.value)] + e.more
  }

  function BlockLines(es: seq<Entry>): seq<Line>
  {
    if |es| == 0 then [] else BlockLines(es[..|es| - 1]) + EntryLines(es[|es| - 1])
  }

  /** The block and everything after it. */
  function Below(d: Document): seq<string>
  {
    [HEADER] + Rendered(d.gap + BlockLines(d.entries) + d.tail)
  }

  function FrontLines(d: Document): seq<string>
  {
    Rendered(d.head) + Below(d)
  }

  function Print(d: Document): string
  {
    "---\n" + Closed(FrontLines(d)) + "---" + d.after
  }

  // ---------------------------------------------------------------- the strict subset

  predicate Pad(s: string)
  {
    forall i :: 0 <= i < |s| ==> s[i] == ' ' || s[i] == '\t'
  }

  predicate Indent(s: string)
  {
    s != "" && Pad(s)
  }

  predicate KeyOk(k: string)
  {
    k != "" && Trimmed(k) && ':' !in k && k[0] != '#' && !StartsWith(k, "- ")
  }

  predicate FieldOk(key: string, value: string)
  {
    KeyOk(key) && key != "relations" && Trimmed(value) && value !in ["", ">", "|"]
  }

  predicate ShapeOk(l: Line)
  {
    match l
    case Blank(pad) => Pad(pad)
    case Comment(pad, text) => Pad(pad) && Trimmed("#" + text)
    case Field(key, value) => FieldOk(key, value)
    case Dash(pad, key, value) => Indent(pad) && KeyOk(key) && Trimmed(value)
    case More(pad, key, value) => Indent(pad) && KeyOk(key) && Trimmed(value)
  }

  /** The line keeps to the subset: one line of text, without the delimiter. */
  ghost predicate LineOk(l: Line)
  {
    ShapeOk(l) && OneLine(Render(l)) && NoRule(Render(l))
  }

  predicate Outside(l: Line)
  {
    l.Blank? || l.Comment? || l.Field?
  }

  predicate Filler(l: Line)
  {
    l.Blank? || l.Comment?
  }

  ghost predicate AllOk(ls: seq<Line>)
  {
    forall i :: 0 <= i < |ls| ==> LineOk(ls[i])
  }

  ghost predicate EntryOk(e: Entry)
  {
    AllOk(EntryLines(e)) && forall i :: 0 <= i < |e.more| ==> Filler(e.more[i]) || e.more[i].More?
  }

  ghost predicate EntriesOk(es: seq<Entry>)
  {
    forall i :: 0 <= i < |es| ==> EntryOk(es[i])
  }

  ghost predicate DocumentOk(d: Document)
  {
    && AllOk(d.head) && (forall i :: 0 <= i < |d.head| ==> Outside(d.head[i]))
    && AllOk(d.gap) && (forall i :: 0 <= i < |d.gap| ==> Filler(d.gap[i]))
    && EntriesOk(d.entries)
    && AllOk(d.tail) && (forall i :: 0 <= i < |d.tail| ==> Outside(d.tail[i]))
    && (d.after != "" ==> d.after[0] == '\n')
  }

  // ---------------------------------------------------------------- meaning

  /** The keys of an entry after further lines; a repeated key keeps its last value. */
  function Extended(m: map<string, string>, more: seq<Line>): map<string, string>
  {
    if |more| == 0 then m
    else
      var m' := Extended(m, more[..|more| - 1]);
      match more[|more| - 1]
      case More(_, key, value) => m'[key := value]
      case _ => m'
  }

  function Meaning(e: Entry): map<string, string>
  {
    Extended(map[e.key := e.value], e.more)
  }

  function UnquoteAll(m: map<string, string>): map<string, string>
  {
    map k | k in m :: Unquote(m[k])
  }

  lemma UnquoteUpdate(m: map<string, string>, k: string, v: string)
    ensures UnquoteAll(m[k := v]) == UnquoteAll(m)[k := Unquote(v)]
  {
  }

  lemma UnquoteOne(k: string, v: string)
    ensures UnquoteAll(map[k := v]) == map[k := Unquote(v)]
  {
  }

  // ---------------------------------------------------------------- what the readers see of a line

  /** `line[:1] in {" ", "\t"}` */
  predicate Indented(line: string)
  {
    line != "" && (line[0] == ' ' || line[0] == '\t')
  }

  /** Every reader skips the line. */
  predicate Skipped(line: string)
  {
    Strip(line) == "" || Strip(line)[0] == '#'
  }

  /** The text reads as a key and a value. */
  predicate ReadsAs(s: string, key: string, value: string)
  {
    ':' in s && Strip(Cut(s, ':').0) == key && Strip(Cut(s, ':').1) == value
  }

  lemma PairShape(key: string, value: string)
    requires KeyOk(key) && Trimmed(value)
    ensures var p := Pair(key, value);
            && p != "" && Trimmed(p) && p[0] == key[0] && !StartsWith(p, "- ")
            && ReadsAs(p, key, value) && Cut(p, ':').0 == key
  {
    var p := Pair(key, value);
    if value == "" {
      CutAt(key, "", ':');
      assert key + [':'] + "" == p;
    } else {
      CutAt(key, " " + value, ':');
      assert key + [':'] + (" " + value) == p;
      StripPadded(" ", value);
      assert p[|p| - 1] == value[|value| - 1];
    }
    if |key| >= 2 {
      assert p[..2] == key[..2];
      assert StartsWith(p, "- ") ==> StartsWith(key, "- ");
    } else {
      assert p[1] == ':';
    }
  }

  lemma PadIsSpace(pad: string)
    requires Pad(pad)
    ensures AllSpace(pad)
  {
  }

  lemma FillerShape(l: Line)
    requires ShapeOk(l) && Filler(l)
    ensures Skipped(Render(l))
  {
    PadIsSpace(l.pad);
    match l
    case Blank(pad) => StripSpaces(pad);
    case Comment(pad, text) => StripPadded(pad, "#" + text);
  }

  lemma FieldShape(key: string, value: string)
    requires FieldOk(key, value)
    ensures var r := Render(Field(key, value));
            && Strip(r) == r && !Skipped(r) && !Indented(r) && ReadsAs(r, key, value)
  {
    PairShape(key, value);
    assert !IsSpace(key[0]);
  }

  lemma HeaderShape()
    ensures Strip(HEADER) == HEADER && !Skipped(HEADER) && !Indented(HEADER)
    ensures ReadsAs(HEADER, "relations", "")
  {
    PairShape("relations", "");
    assert Pair("relations", "") == HEADER;
    StripOfTrimmed(HEADER);
  }

  lemma DashShape(pad: string, key: string, value: string)
    requires ShapeOk(Dash(pad, key, value))
    ensures var r := Render(Dash(pad, key, value)); var s := Strip(r);
            && Indented(r) && r[0] == pad[0] && !Skipped(r)
            && s == "- " + Pair(key, value) && s[2..] == Pair(key, value) && StartsWith(s, "- ")
  {
    var p := Pair(key, value);
    PadIsSpace(pad);
    PairShape(key, value);
    DashCore(p);
    StripPadded(pad, "- " + p);
  }

  lemma DashCore(p: string)
    requires p != "" && Trimmed(p)
    ensures Trimmed("- " + p) && ("- " + p)[2..] == p && StartsWith("- " + p, "- ") && ("- " + p)[0] == '-'
  {
  }

  lemma MoreShape(pad: string, key: string, value: string)
    requires ShapeOk(More(pad, key, value))
    ensures var r := Render(More(pad, key, value)); var s := Strip(r);
            && Indented(r) && r[0] == pad[0] && !Skipped(r) && s == Pair(key, value)
  {
    PadIsSpace(pad);
    PairShape(key, value);
    StripPadded(pad, Pair(key, value));
  }

  lemma RenderedConcat(a: seq<Line>, b: seq<Line>)
    ensures Rendered(a + b) == Rendered(a) + Rendered(b)
  {
  }

  lemma FoldLast<S>(step: (S, string) -> S, start: S, ls: seq<Line>)
    requires |ls| > 0
    ensures Fold(step, start, Rendered(ls)) == step(Fold(step, start, Rendered(ls[..|ls| - 1])), Render(ls[|ls| - 1]))
  {
    assert Rendered(ls)[..|ls| - 1] == Rendered(ls[..|ls| - 1]);
  }

  lemma EntryRendered(e: Entry)
    ensures Rendered(EntryLines(e)) == [Render(EntryLines(e)[0])] + Rendered(e.more)
    ensures forall i :: 0 <= i < |e.more| ==> e.more[i] == EntryLines(e)[i + 1]
  {
  }

  /** A line loop over an entry takes its opening line first. */
  lemma FoldEntryLines<S>(step: (S, string) -> S, start: S, e: Entry, opened': S, end: S)
    requires step(start, Render(EntryLines(e)[0])) == opened'
    requires Fold(step, opened', Rendered(e.more)) == end
    ensures Fold(step, start, Rendered(EntryLines(e))) == end
  {
    EntryRendered(e);
    FoldCons(step, start, Render(EntryLines(e)[0]), Rendered(e.more));
  }

  /** A line loop over a block takes its last entry last. */
  lemma FoldBlockLines<S>(step: (S, string) -> S, start: S, es: seq<Entry>, before: S, end: S)
    requires |es| > 0
    requires Fold(step, start, Rendered(BlockLines(es[..|es| - 1]))) == before
    requires Fold(step, before, Rendered(EntryLines(es[|es| - 1]))) == end
    ensures Fold(step, start, Rendered(BlockLines(es))) == end
  {
    var init, e := es[..|es| - 1], es[|es| - 1];
    RenderedConcat(BlockLines(init), EntryLines(e));
    FoldConcat(step, start, Rendered(BlockLines(init)), Rendered(EntryLines(e)));
  }

  lemma {:induction false} BlockLinesOk(es: seq<Entry>)
    requires EntriesOk(es)
    ensures AllOk(BlockLines(es))
  {
    if |es| > 0 {
      BlockLinesOk(es[..|es| - 1]);
      assert EntryOk(es[|es| - 1]);
    }
  }

  /** The printed lines are what the delimiters enclose. */
  lemma FrontLinesOk(d: Document)
    requires DocumentOk(d)
    ensures forall i :: 0 <= i < |FrontLines(d)| ==> OneLine(FrontLines(d)[i]) && NoRule(FrontLines(d)[i])
  {
    BlockLinesOk(d.entries);
    var all := d.gap + BlockLines(d.entries) + d.tail;
    assert AllOk(all);
    HeaderOk();
    forall i | 0 <= i < |FrontLines(d)| ensures OneLine(FrontLines(d)[i]) && NoRule(FrontLines(d)[i]) {
      if i < |d.head| {
        assert LineOk(d.head[i]);
      } else if i > |d.head| {
        assert LineOk(all[i - |d.head| - 1]);
      }
    }
  }

  lemma HeaderOk()
    ensures OneLine(HEADER) && NoRule(HEADER)
  {
  }
}
