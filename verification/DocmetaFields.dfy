/** The fields that `docmeta.parse_frontmatter` reads besides the `relations:` block: texts, inline
    lists and block lists, printed in every way and read back. */
module DocmetaFields {
  import opened Options
  import opened Text
  import opened FrontmatterText
  import opened RelationDocument
  import opened Docmeta

  /** A text as it is written: plain, or between two quotes. */
  datatype Word = Plain(text: string) | InQuotes(quote: char, text: string)

  /** A field with its key and value. */
  datatype Field =
    | One(key: string, word: Word)
    | Inline(key: string, words: seq<Word>)
    | Block(key: string, pad: string, words: seq<Word>)

  function Spelled(w: Word): string
  {
    match w
    case Plain(text) => text
    case InQuotes(quote, text) => [quote] + text + [quote]
  }

  function SpelledAll(ws: seq<Word>): (r: seq<string>)
    ensures |r| == |ws| && forall i :: 0 <= i < |ws| ==> r[i] == Spelled(ws[i])
  {
    seq(|ws|, i requires 0 <= i < |ws| => Spelled(ws[i]))
  }

  function Brackets(ws: seq<Word>): string
  {
    "[" + Join(SpelledAll(ws), ", ") + "]"
  }

  function BlockItems(pad: string, ws: seq<Word>): (r: seq<string>)
    ensures |r| == |ws| && forall i :: 0 <= i < |ws| ==> r[i] == pad + ("- " + Spelled(ws[i]))
  {
    seq(|ws|, i requires 0 <= i < |ws| => pad + ("- " + Spelled(ws[i])))
  }

  /** The lines of a field. */
  function FieldLines(f: Field): seq<string>
  {
    match f
    case One(key, word) => [Pair(key, Spelled(word))]
    case Inline(key, words) => [Pair(key, Brackets(words))]
    case Block(key, pad, words) => [Pair(key, "")] + BlockItems(pad, words)
  }

  /** The lines of all fields, one after the other. */
  function Flat<T>(lines: T -> seq<string>, fs: seq<T>): seq<string>
  {
    if |fs| == 0 then [] else Flat(lines, fs[..|fs| - 1]) + lines(fs[|fs| - 1])
  }

  function AllLines(fs: seq<Field>): seq<string>
  {
    Flat(FieldLines, fs)
  }

  /** The text can be told apart from quoted text, and loses nothing when trimmed. */
  predicate WordOk(w: Word)
  {
    match w
    case Plain(text) => text != "" && Trimmed(text) && !Wrapped(text)
    case InQuotes(quote, text) => IsQuote(quote)
  }

  /** Only the known list fields may be block lists; block items are indented with a space first. */
  predicate FieldShapeOk(f: Field)
  {
    && KeyOk(f.key)
    && match f
       case One(_, word) => WordOk(word) && !InlineList(Spelled(word))
       case Inline(_, words) => forall w :: w in words ==> WordOk(w) && ',' !in Spelled(w)
       case Block(key, pad, words) =>
         key in LIST_FIELDS && Indent(pad) && pad[0] == ' ' && forall w :: w in words ==> WordOk(w)
  }

  /** Every line stays a line between the delimiters. */
  ghost predicate LinesOk(ls: seq<string>)
  {
    forall i :: 0 <= i < |ls| ==> OneLine(ls[i]) && NoRule(ls[i])
  }

  // ---------------------------------------------------------------- what a field means

  function Texts(ws: seq<Word>): (r: seq<Item>)
    ensures |r| == |ws| && forall i :: 0 <= i < |ws| ==> r[i] == Bare(ws[i].text)
  {
    seq(|ws|, i requires 0 <= i < |ws| => Bare(ws[i].text))
  }

  function ValueOfField(f: Field): Value
  {
    match f
    case One(_, word) => Scalar(word.text)
    case Inline(_, words) => Items(Texts(words))
    case Block(_, _, words) => Items(Texts(words))
  }

  /** No later field has the same key. */
  ghost predicate LastOfItsKey(fs: seq<Field>, i: nat)
  {
    i < |fs| && forall j :: i < j < |fs| ==> fs[j].key != fs[i].key
  }

  /** Exactly the printed keys, each with the value of its last field. */
  ghost predicate Holds(data: Data, fs: seq<Field>)
  {
    && (forall k :: k in data <==> exists i :: 0 <= i < |fs| && fs[i].key == k)
    && (forall i: nat :: LastOfItsKey(fs, i) ==> fs[i].key in data && data[fs[i].key] == ValueOfField(fs[i]))
  }

  lemma HoldsSnoc(data: Data, fs: seq<Field>, f: Field)
    requires Holds(data, fs)
    ensures Holds(data[f.key := ValueOfField(f)], fs + [f])
  {
    var all, data' := fs + [f], data[f.key := ValueOfField(f)];
    assert all[|fs|] == f && forall i :: 0 <= i < |fs| ==> all[i] == fs[i];
    forall k ensures k in data' <==> exists i :: 0 <= i < |all| && all[i].key == k {
      if k in data {
        var i :| 0 <= i < |fs| && fs[i].key == k;
        assert all[i].key == k;
      }
      if k == f.key {
        assert all[|fs|].key == k;
      }
    }
    forall i: nat | LastOfItsKey(all, i) ensures data'[all[i].key] == ValueOfField(all[i]) {
      if i < |fs| {
        assert all[|fs|].key != all[i].key;
        assert LastOfItsKey(fs, i);
      }
    }
  }

  // ---------------------------------------------------------------- one line

  lemma SpelledShape(w: Word)
    requires WordOk(w)
    ensures Spelled(w) != "" && Trimmed(Spelled(w)) && Unwrap(Spelled(w)) == w.text
  {
    match w
    case Plain(text) =>
    case InQuotes(quote, text) =>
      assert Spelled(w)[1..|Spelled(w)| - 1] == text;
  }

  /** A line that pairs a key with a value becomes a field; nothing is pending. */
  lemma StepPair(st: State, key: string, val: string)
    requires KeyOk(key) && Trimmed(val) && st.entry.None?
    ensures Step(st, Pair(key, val)) ==
            if val == "" && (key == RELATIONS || key in LIST_FIELDS) then State(st.data[key := Items([])], Some(key), None)
            else State(st.data[key := FieldValue(val)], None, None)
  {
    var line := Pair(key, val);
    PairShape(key, val);
    StripOfTrimmed(line);
    assert !IsSpace(key[0]);
    StepUnspaced(st, line);
  }

  lemma StepItem(st: State, key: string, pad: string, w: Word)
    requires key in LIST_FIELDS && key != RELATIONS && Indent(pad) && pad[0] == ' ' && WordOk(w)
    requires st.key == Some(key) && key in st.data && st.data[key].Items?
    ensures Step(st, pad + ("- " + Spelled(w))) == st.(data := st.data[key := Items(st.data[key].items + [Bare(w.text)])])
  {
    var line := pad + ("- " + Spelled(w));
    SpelledShape(w);
    PadIsSpace(pad);
    DashCore(Spelled(w));
    StripPadded(pad, "- " + Spelled(w));
    StripOfTrimmed(Spelled(w));
    assert line[0] == ' ';
  }

  // ---------------------------------------------------------------- one field

  lemma OnFirstStripped(parts: seq<string>)
    requires |parts| > 0
    ensures InlineItems(OnFirst(' ', parts)) == InlineItems(parts)
  {
    assert OnFirst(' ', parts)[1..] == parts[1..];
    StripLeftPad(" ", parts[0]);
    assert " " + parts[0] == [' '] + parts[0];
  }

  /** The items of an inline list are read back. */
  lemma {:induction false} InlineRead(ws: seq<Word>)
    requires forall w :: w in ws ==> WordOk(w) && ',' !in Spelled(w)
    ensures InlineItems(Split(Join(SpelledAll(ws), ", "), ',')) == Texts(ws)
  {
    if |ws| == 0 {
      StripSpaces("");
    } else if |ws| == 1 {
      OneRead(ws[0], []);
      SplitAtom(Spelled(ws[0]), ',');
    } else {
      InlineRead(ws[1..]);
      MoreRead(ws[0], ws[1..]);
      assert [ws[0]] + ws[1..] == ws;
    }
  }

  lemma OneRead(w: Word, parts: seq<string>)
    requires WordOk(w)
    ensures InlineItems([Spelled(w)] + parts) == [Bare(w.text)] + InlineItems(parts)
    ensures [Spelled(w)] + [] == [Spelled(w)]
  {
    SpelledShape(w);
    StripOfTrimmed(Spelled(w));
    HeadItem(Spelled(w), parts);
  }

  lemma MoreRead(w: Word, ws: seq<Word>)
    requires WordOk(w) && ',' !in Spelled(w) && |ws| > 0
    requires InlineItems(Split(Join(SpelledAll(ws), ", "), ',')) == Texts(ws)
    ensures InlineItems(Split(Join(SpelledAll([w] + ws), ", "), ',')) == Texts([w] + ws)
  {
    var rest := Join(SpelledAll(ws), ", ");
    JoinedPair(w, ws);
    PairSplit(Spelled(w), rest);
    OnFirstStripped(Split(rest, ','));
    OneRead(w, OnFirst(' ', Split(rest, ',')));
    TextsCons(w, ws);
  }

  lemma PairSplit(p: string, rest: string)
    requires ',' !in p
    ensures Split(p + [','] + ([' '] + rest), ',') == [p] + OnFirst(' ', Split(rest, ','))
  {
    SplitHead(p, [' '] + rest, ',');
    SplitCons(' ', rest, ',');
  }

  lemma TextsCons(w: Word, ws: seq<Word>)
    ensures Texts([w] + ws) == [Bare(w.text)] + Texts(ws)
  {
  }

  lemma JoinedPair(w: Word, ws: seq<Word>)
    requires |ws| > 0
    ensures Join(SpelledAll([w] + ws), ", ") == Spelled(w) + [','] + ([' '] + Join(SpelledAll(ws), ", "))
  {
    assert SpelledAll([w] + ws) == [Spelled(w)] + SpelledAll(ws);
    JoinCons(Spelled(w), SpelledAll(ws), ", ");
  }

  lemma HeadItem(p: string, parts: seq<string>)
    requires Strip(p) == p && p != ""
    ensures InlineItems([p] + parts) == [Bare(Unwrap(p))] + InlineItems(parts)
  {
    assert ([p] + parts)[1..] == parts;
  }

  lemma BracketsRead(ws: seq<Word>)
    requires forall w :: w in ws ==> WordOk(w) && ',' !in Spelled(w)
    ensures Trimmed(Brackets(ws)) && Brackets(ws) != "" && FieldValue(Brackets(ws)) == Items(Texts(ws))
  {
    var v := Brackets(ws);
    assert v[1..|v| - 1] == Join(SpelledAll(ws), ", ");
    InlineRead(ws);
  }

  lemma {:induction false} BlockRead(st: State, key: string, pad: string, ws: seq<Word>)
    requires key in LIST_FIELDS && Indent(pad) && pad[0] == ' ' && forall w :: w in ws ==> WordOk(w)
    requires st == State(st.data, Some(key), None) && key in st.data && st.data[key] == Items([])
    ensures Fold(Step, st, BlockItems(pad, ws)) == st.(data := st.data[key := Items(Texts(ws))])
  {
    if |ws| == 0 {
      assert Texts(ws) == [] && st.data[key := Items([])] == st.data;
    } else {
      var init, last := ws[..|ws| - 1], ws[|ws| - 1];
      BlockRead(st, key, pad, init);
      var line := pad + ("- " + Spelled(last));
      ItemRead(st, key, pad, init, last);
      BlockLast(pad, ws);
      SnocTo(Step, st, BlockItems(pad, init), line, st.(data := st.data[key := Items(Texts(init))]),
             st.(data := st.data[key := Items(Texts(ws))]));
    }
  }

  lemma SnocTo<S>(step: (S, string) -> S, start: S, ls: seq<string>, l: string, before: S, end: S)
    requires Fold(step, start, ls) == before && step(before, l) == end
    ensures Fold(step, start, ls + [l]) == end
  {
    FoldSnoc(step, start, ls, l);
  }

  lemma ConsTo<S>(step: (S, string) -> S, start: S, l: string, rest: seq<string>, next: S, end: S)
    requires step(start, l) == next && Fold(step, next, rest) == end
    ensures Fold(step, start, [l] + rest) == end
  {
    FoldCons(step, start, l, rest);
  }

  lemma BlockLast(pad: string, ws: seq<Word>)
    requires |ws| > 0
    ensures BlockItems(pad, ws) == BlockItems(pad, ws[..|ws| - 1]) + [pad + ("- " + Spelled(ws[|ws| - 1]))]
    ensures ws == ws[..|ws| - 1] + [ws[|ws| - 1]]
  {
  }

  lemma ItemRead(st: State, key: string, pad: string, init: seq<Word>, last: Word)
    requires key in LIST_FIELDS && Indent(pad) && pad[0] == ' ' && WordOk(last) && st.key == Some(key)
    ensures Step(st.(data := st.data[key := Items(Texts(init))]), pad + ("- " + Spelled(last))) ==
            st.(data := st.data[key := Items(Texts(init + [last]))])
  {
    var data := st.data[key := Items(Texts(init))];
    StepItem(st.(data := data), key, pad, last);
    assert Texts(init + [last]) == Texts(init) + [Bare(last.text)];
    Overwritten(st.data, key, Items(Texts(init)), Items(Texts(init + [last])));
  }

  lemma Overwritten(data: Data, key: string, a: Value, b: Value)
    ensures data[key := a][key := b] == data[key := b]
  {
  }

  /** A printed field is read back, whatever was read before. */
  lemma FieldRead(st: State, f: Field)
    requires FieldShapeOk(f) && st.entry.None?
    ensures var st' := Fold(Step, st, FieldLines(f)); st'.data == st.data[f.key := ValueOfField(f)] && st'.entry.None?
  {
    match f
    case One(key, word) =>
      SpelledShape(word);
      PairRead(st, key, Spelled(word));
    case Inline(key, words) =>
      BracketsRead(words);
      PairRead(st, key, Brackets(words));
    case Block(key, pad, words) =>
      ListRead(st, key, pad, words);
  }

  lemma PairRead(st: State, key: string, val: string)
    requires KeyOk(key) && Trimmed(val) && val != "" && st.entry.None?
    ensures Fold(Step, st, [Pair(key, val)]) == State(st.data[key := FieldValue(val)], None, None)
  {
    StepPair(st, key, val);
    FoldOne(Step, st, Pair(key, val));
  }

  lemma ListRead(st: State, key: string, pad: string, words: seq<Word>)
    requires KeyOk(key) && key in LIST_FIELDS && Indent(pad) && pad[0] == ' ' && st.entry.None?
    requires forall w :: w in words ==> WordOk(w)
    ensures Fold(Step, st, [Pair(key, "")] + BlockItems(pad, words)) ==
            State(st.data[key := Items(Texts(words))], Some(key), None)
  {
    var next := State(st.data[key := Items([])], Some(key), None);
    var end := State(st.data[key := Items(Texts(words))], Some(key), None);
    StepPair(st, key, "");
    BlockRead(next, key, pad, words);
    Overwritten(st.data, key, Items([]), Items(Texts(words)));
    ConsTo(Step, st, Pair(key, ""), BlockItems(pad, words), next, end);
  }

  /** Nothing is pending, and the data are those of the fields so far. */
  ghost predicate Gathered(st: State, fs: seq<Field>)
  {
    Holds(st.data, fs) && st.entry.None?
  }

  lemma FieldJoins(st: State, fs: seq<Field>, f: Field)
    requires Gathered(st, fs) && FieldShapeOk(f)
    ensures Gathered(Fold(Step, st, FieldLines(f)), fs + [f])
  {
    FieldRead(st, f);
    HoldsSnoc(st.data, fs, f);
  }

  lemma FlatFold<S, T>(step: (S, string) -> S, start: S, lines: T -> seq<string>, fs: seq<T>)
    requires |fs| > 0
    ensures Fold(step, start, Flat(lines, fs)) ==
            Fold(step, Fold(step, start, Flat(lines, fs[..|fs| - 1])), lines(fs[|fs| - 1]))
  {
    FoldConcat(step, start, Flat(lines, fs[..|fs| - 1]), lines(fs[|fs| - 1]));
  }

  lemma NothingGathered()
    ensures Gathered(START, [])
  {
  }

  /** Reading the lines of one more field keeps up with the fields. */
  ghost predicate Keeps<S(!new), T(!new)>(
      step: (S, string) -> S, lines: T -> seq<string>, ok: T -> bool, kept: (S, seq<T>) -> bool)
  {
    forall st, fs, f :: kept(st, fs) && ok(f) ==> kept(Fold(step, st, lines(f)), fs + [f])
  }

  lemma {:induction false} FlatKeeps<S(!new), T(!new)>(
      step: (S, string) -> S, start: S, lines: T -> seq<string>, ok: T -> bool, kept: (S, seq<T>) -> bool, fs: seq<T>)
    requires Keeps(step, lines, ok, kept) && kept(start, []) && forall i :: 0 <= i < |fs| ==> ok(fs[i])
    ensures kept(Fold(step, start, Flat(lines, fs)), fs)
  {
    if |fs| == 0 {
      assert fs == [];
    } else {
      var init, last := fs[..|fs| - 1], fs[|fs| - 1];
      FlatKeeps(step, start, lines, ok, kept, init);
      FlatFold(step, start, lines, fs);
      assert fs == init + [last];
    }
  }

  lemma FieldsRead(fs: seq<Field>)
    requires forall i :: 0 <= i < |fs| ==> FieldShapeOk(fs[i])
    ensures Gathered(Fold(Step, START, AllLines(fs)), fs)
  {
    NothingGathered();
    forall st, some, f | Gathered(st, some) && FieldShapeOk(f)
      ensures Gathered(Fold(Step, st, FieldLines(f)), some + [f])
    {
      FieldJoins(st, some, f);
    }
    FlatKeeps(Step, START, FieldLines, FieldShapeOk, Gathered, fs);
  }

  /** Every frontmatter of printed fields is read back: each key with the value of its last field,
      quotes taken off, and no other key. */
  lemma ParseReadsFields(fs: seq<Field>, after: string)
    requires |fs| > 0 && forall i :: 0 <= i < |fs| ==> FieldShapeOk(fs[i])
    requires LinesOk(AllLines(fs)) && (after != "" ==> after[0] == '\n')
    ensures var r := Parse("---\n" + Closed(AllLines(fs)) + "---" + after); r.Some? && Holds(r.value, fs)
  {
    LinesOfSome(fs);
    FieldsRead(fs);
    ParseOfLines(AllLines(fs), after);
  }

  lemma LinesOfSome(fs: seq<Field>)
    requires |fs| > 0
    ensures |AllLines(fs)| > 0
  {
    assert |FieldLines(fs[|fs| - 1])| > 0;
  }

  lemma LinesAreLines(ls: seq<string>)
    requires LinesOk(ls)
    ensures Lines(ls) && forall i :: 0 <= i < |ls| ==> NoRule(ls[i])
  {
  }

  lemma ParseOfText(content: string, ls: seq<string>)
    requires |ls| > 0 && Lines(ls) && Enclosed(content) == Some(Join(ls, "\n"))
    requires Fold(Step, START, ls).entry.None?
    ensures Parse(content) == Some(Fold(Step, START, ls).data)
  {
    LastLineUnseen(ls);
  }

  lemma ParseOfLines(ls: seq<string>, after: string)
    requires |ls| > 0 && LinesOk(ls) && (after != "" ==> after[0] == '\n')
    requires Fold(Step, START, ls).entry.None?
    ensures Parse("---\n" + Closed(ls) + "---" + after) == Some(Fold(Step, START, ls).data)
  {
    LinesAreLines(ls);
    EnclosedDocument(ls, after);
    ParseOfText("---\n" + Closed(ls) + "---" + after, ls);
  }
}
