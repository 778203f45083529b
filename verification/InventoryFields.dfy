/** The fields that the lifecycle inventory reads besides the `relations:` block: texts, list blocks
    and folded blocks, printed and read back without a warning. */
module InventoryFields {
  import opened Options
  import opened Text
  import opened FrontmatterText
  import opened RelationDocument
  import opened LifecycleInventory

  import F = DocmetaFields

  /** A field with its key and value; a folded block gives the texts of its lines. */
  datatype Field =
    | One(key: string, word: F.Word)
    | Listed(key: string, pad: string, words: seq<F.Word>)
    | Folded(key: string, mark: char, pad: string, texts: seq<string>)

  function Padded(pad: string, texts: seq<string>): (r: seq<string>)
    ensures |r| == |texts| && forall i :: 0 <= i < |texts| ==> r[i] == pad + texts[i]
  {
    seq(|texts|, i requires 0 <= i < |texts| => pad + texts[i])
  }

  /** What stands after the colon. */
  function HeadText(f: Field): string
  {
    match f
    case One(_, word) => F.Spelled(word)
    case Listed(_, _, _) => ""
    case Folded(_, mark, _, _) => [mark]
  }

  /** The line of the key. */
  function Head(f: Field): string
  {
    Pair(f.key, HeadText(f))
  }

  /** The indented lines below it. */
  function Below(f: Field): seq<string>
  {
    match f
    case One(_, _) => []
    case Listed(_, pad, words) => F.BlockItems(pad, words)
    case Folded(_, _, pad, texts) => Padded(pad, texts)
  }

  function FieldLines(f: Field): seq<string>
  {
    [Head(f)] + Below(f)
  }

  function AllLines(fs: seq<Field>): seq<string>
  {
    F.Flat(FieldLines, fs)
  }

  predicate TextsOk(texts: seq<string>)
  {
    forall i :: 0 <= i < |texts| ==> texts[i] != "" && Trimmed(texts[i])
  }

  predicate FieldShapeOk(f: Field)
  {
    && KeyOk(f.key) && f.key != RELATIONS
    && match f
       case One(_, word) => F.WordOk(word) && F.Spelled(word) !in [">", "|"]
       case Listed(_, pad, words) => Indent(pad) && forall w :: w in words ==> F.WordOk(w)
       case Folded(_, mark, pad, texts) =>
         (mark == '>' || mark == '|') && Indent(pad) && TextsOk(texts)
  }

  function Texts(ws: seq<F.Word>): (r: seq<string>)
    ensures |r| == |ws| && forall i :: 0 <= i < |ws| ==> r[i] == ws[i].text
  {
    seq(|ws|, i requires 0 <= i < |ws| => ws[i].text)
  }

  /** An empty block reads as the empty text; folded lines are joined by spaces. */
  function ValueOfField(f: Field): Value
  {
    match f
    case One(_, word) => Scalar(word.text)
    case Listed(_, _, words) => if words == [] then Scalar("") else Block(Texts(words))
    case Folded(_, _, _, texts) => Scalar(Join(texts, " "))
  }

  /** No later field has the same key. */
  ghost predicate LastOfItsKey(fs: seq<Field>, i: nat)
  {
    i < |fs| && forall j :: i < j < |fs| ==> fs[j].key != fs[i].key
  }

  /** Exactly the printed keys, each with the value of its last field. */
  ghost predicate Holds(data: Data, fs: seq<Field>)
  {
    && (forall k :: k in data <==> exists i :: 0 <= i < |fs| && fs[i].key == k)
    && (forall i: nat :: LastOfItsKey(fs, i) ==> fs[i].key in data && data[fs[i].key] == ValueOfField(fs[i]))
  }

  lemma HoldsSnoc(data: Data, fs: seq<Field>, f: Field, all: seq<Field>)
    requires Holds(data, fs) && all == fs + [f]
    ensures Holds(data[f.key := ValueOfField(f)], all)
  {
    var data' := data[f.key := ValueOfField(f)];
    forall k ensures k in data' <==> exists i :: 0 <= i < |all| && all[i].key == k {
      KeySnoc(fs, f, all, k);
    }
    forall i: nat | LastOfItsKey(all, i) ensures all[i].key in data' && data'[all[i].key] == ValueOfField(all[i]) {
      LastSnoc(fs, f, all, i);
    }
  }

  lemma KeySnoc(fs: seq<Field>, f: Field, all: seq<Field>, k: string)
    requires all == fs + [f]
    ensures (exists i :: 0 <= i < |all| && all[i].key == k) <==> (exists i :: 0 <= i < |fs| && fs[i].key == k) || k == f.key
  {
    if i :| 0 <= i < |fs| && fs[i].key == k {
      assert all[i].key == k;
    }
    assert all[|fs|] == f;
  }

  lemma LastSnoc(fs: seq<Field>, f: Field, all: seq<Field>, i: nat)
    requires all == fs + [f] && LastOfItsKey(all, i)
    ensures if i < |fs| then LastOfItsKey(fs, i) && all[i] == fs[i] && fs[i].key != f.key else all[i] == f
  {
    if i < |fs| {
      assert all[|fs|] == f;
      forall j | i < j < |fs| ensures fs[j].key != fs[i].key {
        assert all[j].key != all[i].key;
      }
    }
  }

  // ---------------------------------------------------------------- the lines of a field

  /** A key line: it ends every block. */
  lemma HeadShape(key: string, value: string)
    requires KeyOk(key) && Trimmed(value)
    ensures var line := Pair(key, value);
            && !Skipped(line) && !Indented(line) && ReadsAs(line, key, value) && !Continues(line)
  {
    var line := Pair(key, value);
    PairShape(key, value);
    StripOfTrimmed(line);
    assert !IsSpace(key[0]);
  }

  lemma WordShape(w: F.Word)
    requires F.WordOk(w)
    ensures F.Spelled(w) != "" && Trimmed(F.Spelled(w)) && Unquote(F.Spelled(w)) == w.text
  {
    match w
    case Plain(text) =>
    case InQuotes(quote, text) =>
      assert F.Spelled(w)[1..|F.Spelled(w)| - 1] == text;
  }

  lemma ItemShape(pad: string, w: F.Word, items: seq<string>)
    requires Indent(pad) && F.WordOk(w)
    ensures var line := pad + ("- " + F.Spelled(w)); Continues(line) && BlockItem(items, line) == items + [w.text]
  {
    WordShape(w);
    PadIsSpace(pad);
    DashCore(F.Spelled(w));
    StripPadded(pad, "- " + F.Spelled(w));
    StripOfTrimmed(F.Spelled(w));
    assert (pad + ("- " + F.Spelled(w)))[0] == pad[0];
  }

  lemma TextShape(pad: string, text: string, parts: seq<string>)
    requires Indent(pad) && text != "" && Trimmed(text)
    ensures Continues(pad + text) && FoldedPart(parts, pad + text) == parts + [text]
  {
    PadIsSpace(pad);
    StripPadded(pad, text);
    assert (pad + text)[0] == pad[0];
  }

  lemma {:induction false} ItemsFold(pad: string, ws: seq<F.Word>)
    requires Indent(pad) && forall w :: w in ws ==> F.WordOk(w)
    ensures Fold(BlockItem, [], F.BlockItems(pad, ws)) == Texts(ws)
  {
    if |ws| > 0 {
      var init, last := ws[..|ws| - 1], ws[|ws| - 1];
      ItemsFold(pad, init);
      F.BlockLast(pad, ws);
      ItemShape(pad, last, Texts(init));
      F.SnocTo(BlockItem, [], F.BlockItems(pad, init), pad + ("- " + F.Spelled(last)), Texts(init), Texts(init) + [last.text]);
      assert Texts(ws) == Texts(init) + [last.text];
    }
  }

  lemma ItemsContinue(pad: string, ws: seq<F.Word>)
    requires Indent(pad) && forall w :: w in ws ==> F.WordOk(w)
    ensures forall j :: 0 <= j < |ws| ==> Continues(F.BlockItems(pad, ws)[j])
  {
    forall j | 0 <= j < |ws| ensures Continues(F.BlockItems(pad, ws)[j]) {
      ItemShape(pad, ws[j], []);
    }
  }

  lemma {:induction false} TextsFold(pad: string, texts: seq<string>)
    requires Indent(pad) && TextsOk(texts)
    ensures Fold(FoldedPart, [], Padded(pad, texts)) == texts
  {
    if |texts| > 0 {
      var init, last := texts[..|texts| - 1], texts[|texts| - 1];
      TextsFold(pad, init);
      TextShape(pad, last, init);
      assert Padded(pad, texts) == Padded(pad, init) + [pad + last];
      F.SnocTo(FoldedPart, [], Padded(pad, init), pad + last, init, init + [last]);
      assert texts == init + [last];
    }
  }

  lemma TextsContinue(pad: string, texts: seq<string>)
    requires Indent(pad) && TextsOk(texts)
    ensures forall j :: 0 <= j < |texts| ==> Continues(Padded(pad, texts)[j])
  {
    forall j | 0 <= j < |texts| ensures Continues(Padded(pad, texts)[j]) {
      TextShape(pad, texts[j], []);
    }
  }

  /** Joined trimmed texts lose nothing when the whole is trimmed. */
  lemma {:induction false} JoinedIsTrimmed(texts: seq<string>)
    requires TextsOk(texts)
    ensures Trimmed(Join(texts, " ")) && (texts != [] ==> Join(texts, " ") != "")
  {
    if |texts| > 1 {
      var rest := Join(texts[1..], " ");
      JoinedIsTrimmed(texts[1..]);
      assert Join(texts, " ") == texts[0] + " " + rest;
      EndsTrimmed(texts[0], rest);
    }
  }

  lemma EndsTrimmed(a: string, b: string)
    requires a != "" && Trimmed(a) && b != "" && Trimmed(b)
    ensures a + " " + b != "" && Trimmed(a + " " + b)
  {
    var s := a + " " + b;
    assert s[0] == a[0] && s[|s| - 1] == b[|b| - 1];
  }

  // ---------------------------------------------------------------- where a field stands

  /** The loops below a key line: what keeps them going, and what one line adds. */
  datatype Loops = Loops(stays: string -> bool, item: (seq<string>, string) -> seq<string>,
                         part: (seq<string>, string) -> seq<string>)

  ghost function TheLoops(): Loops
  {
    Loops(Continues, BlockItem, FoldedPart)
  }

  /** The lines below a key line keep the loops going, and a key line ends them. */
  ghost predicate Apart(stays: string -> bool, f: Field)
  {
    (forall j :: 0 <= j < |Below(f)| ==> stays(Below(f)[j])) && !stays(Head(f))
  }

  /** The loops take the field's lines for what they are. */
  ghost predicate Fits(p: Loops, f: Field)
  {
    match f
    case One(_, _) => true
    case Listed(_, pad, words) => Fold(p.item, [], F.BlockItems(pad, words)) == Texts(words)
    case Folded(_, _, pad, texts) => Fold(p.part, [], Padded(pad, texts)) == texts
  }

  /** Below line i the loops read what the field holds, and stop at j. */
  ghost predicate Amounts(p: Loops, lines: seq<string>, i: nat, f: Field, j: nat)
  {
    && i < |lines| && i < j && lines[i] == Head(f)
    && match f
       case One(_, _) => j == i + 1
       case Listed(_, _, words) => Scan(p.stays, p.item, lines, i + 1, []) == (Texts(words), j)
       case Folded(_, _, _, texts) => Scan(p.stays, p.part, lines, i + 1, []) == (texts, j)
  }

  lemma FieldFits(f: Field)
    requires FieldShapeOk(f)
    ensures Apart(Continues, f) && Fits(TheLoops(), f)
  {
    HeadTextOk(f);
    HeadShape(f.key, HeadText(f));
    match f
    case One(_, _) =>
    case Listed(_, pad, words) =>
      ItemsContinue(pad, words);
      ItemsFold(pad, words);
    case Folded(_, _, pad, texts) =>
      TextsContinue(pad, texts);
      TextsFold(pad, texts);
  }

  lemma HeadTextOk(f: Field)
    requires FieldShapeOk(f)
    ensures Trimmed(HeadText(f)) && KeyOk(f.key) && f.key != RELATIONS
  {
    if f.One? {
      WordShape(f.word);
    }
  }

  lemma LinesRun(stays: string -> bool, before: seq<string>, head: string, own: seq<string>, after: seq<string>, lines: seq<string>)
    requires (forall j :: 0 <= j < |own| ==> stays(own[j])) && (after != [] ==> !stays(after[0]))
    requires lines == before + ([head] + own) + after
    ensures lines[|before|] == head && Run(stays, lines, |before| + 1, own)
  {
    var i := |before|;
    forall j | 0 <= j < |own| ensures lines[i + 1 + j] == own[j] {
      assert ([head] + own)[1 + j] == own[j];
    }
    if i + 1 + |own| < |lines| {
      assert lines[i + 1 + |own|] == after[0];
    }
  }

  /** A loop that runs over these lines collects what they fold to. */
  lemma ScanIs(stays: string -> bool, step: (seq<string>, string) -> seq<string>, lines: seq<string>, i: nat,
               ls: seq<string>, result: seq<string>)
    requires Run(stays, lines, i, ls) && Fold(step, [], ls) == result
    ensures i <= |lines| && Scan(stays, step, lines, i, []) == (result, i + |ls|)
  {
    ScanFolds(stays, step, lines, i, [], ls);
  }

  lemma RunAmounts(p: Loops, lines: seq<string>, i: nat, f: Field, j: nat)
    requires i < |lines| && lines[i] == Head(f) && Run(p.stays, lines, i + 1, Below(f)) && j == i + 1 + |Below(f)|
    requires Fits(p, f)
    ensures Amounts(p, lines, i, f, j)
  {
    match f
    case One(_, _) =>
    case Listed(_, pad, words) => ScanIs(p.stays, p.item, lines, i + 1, F.BlockItems(pad, words), Texts(words));
    case Folded(_, _, pad, texts) => ScanIs(p.stays, p.part, lines, i + 1, Padded(pad, texts), texts);
  }

  lemma {:induction false} FlatConcat<T>(lines: T -> seq<string>, a: seq<T>, b: seq<T>)
    ensures F.Flat(lines, a + b) == F.Flat(lines, a) + F.Flat(lines, b)
  {
    if |b| == 0 {
      assert a + b == a;
    } else {
      FlatConcat(lines, a, b[..|b| - 1]);
      assert (a + b)[..|a + b| - 1] == a + b[..|b| - 1];
    }
  }

  lemma FlatOne<T>(lines: T -> seq<string>, x: T)
    ensures F.Flat(lines, [x]) == lines(x)
  {
    assert [x][..0] == [];
    assert F.Flat(lines, [x]) == F.Flat(lines, []) + lines(x);
  }

  /** The lines before field k, its own, and those after it. */
  lemma FlatNext<T>(lines: T -> seq<string>, fs: seq<T>, k: nat)
    requires k < |fs|
    ensures F.Flat(lines, fs[..k + 1]) == F.Flat(lines, fs[..k]) + lines(fs[k])
  {
    FlatOne(lines, fs[k]);
    assert fs[..k + 1] == fs[..k] + [fs[k]];
    FlatConcat(lines, fs[..k], [fs[k]]);
  }

  lemma FlatParts<T>(lines: T -> seq<string>, fs: seq<T>, k: nat)
    requires k < |fs|
    ensures F.Flat(lines, fs) == F.Flat(lines, fs[..k]) + lines(fs[k]) + F.Flat(lines, fs[k + 1..])
  {
    FlatNext(lines, fs, k);
    FlatConcat(lines, fs[..k + 1], fs[k + 1..]);
    Halves(fs, k + 1);
  }

  lemma Halves<T>(fs: seq<T>, k: nat)
    requires k <= |fs|
    ensures fs[..k] + fs[k..] == fs
  {
  }

  lemma FlatFirst<T>(lines: T -> seq<string>, fs: seq<T>)
    requires |fs| > 0
    ensures F.Flat(lines, fs) == lines(fs[0]) + F.Flat(lines, fs[1..])
  {
    FlatOne(lines, fs[0]);
    FlatConcat(lines, [fs[0]], fs[1..]);
    assert [fs[0]] + fs[1..] == fs;
  }

  /** What stands after a field is empty or begins with a key line. */
  lemma RestStops(stays: string -> bool, fs: seq<Field>)
    requires forall i :: 0 <= i < |fs| ==> Apart(stays, fs[i])
    ensures AllLines(fs) != [] ==> !stays(AllLines(fs)[0])
  {
    if |fs| > 0 {
      FlatFirst(FieldLines, fs);
      assert Apart(stays, fs[0]) && FieldLines(fs[0])[0] == Head(fs[0]);
    }
  }

  lemma NextEnd<T>(lines: T -> seq<string>, fs: seq<T>, k: nat)
    requires k < |fs|
    ensures |F.Flat(lines, fs[..k + 1])| == |F.Flat(lines, fs[..k])| + |lines(fs[k])|
    ensures fs[..k + 1] == fs[..k] + [fs[k]]
  {
    FlatNext(lines, fs, k);
  }

  /** Field k stands where the fields before it end, and the next one where it ends. */
  lemma AmountsAt(p: Loops, fs: seq<Field>, k: nat)
    requires k < |fs| && Fits(p, fs[k]) && forall i :: 0 <= i < |fs| ==> Apart(p.stays, fs[i])
    ensures Amounts(p, AllLines(fs), |AllLines(fs[..k])|, fs[k], |AllLines(fs[..k + 1])|)
  {
    NextEnd(FieldLines, fs, k);
    RunAt(p.stays, fs, k);
    RunAmounts(p, AllLines(fs), |AllLines(fs[..k])|, fs[k], |AllLines(fs[..k + 1])|);
  }

  lemma RunAt(stays: string -> bool, fs: seq<Field>, k: nat)
    requires k < |fs| && forall i :: 0 <= i < |fs| ==> Apart(stays, fs[i])
    ensures var lines, i := AllLines(fs), |AllLines(fs[..k])|;
            i < |lines| && lines[i] == Head(fs[k]) && Run(stays, lines, i + 1, Below(fs[k]))
  {
    FlatParts(FieldLines, fs, k);
    RestStops(stays, fs[k + 1..]);
    assert Apart(stays, fs[k]);
    LinesRun(stays, AllLines(fs[..k]), Head(fs[k]), Below(fs[k]), AllLines(fs[k + 1..]), AllLines(fs));
  }

  // ---------------------------------------------------------------- one turn of the main loop

  /** From i the loop reads this key and value, whatever came before, and goes on at j. */
  ghost predicate ReadsValue(turn: Turns, n: nat, i: nat, key: string, value: Value, j: nat)
  {
    i < n && i < j && forall st {:trigger turn(i, st)} :: turn(i, st) == (st.(data := st.data[key := value]), j)
  }

  lemma KeyReads(turn: Turns, lines: seq<string>, i: nat, key: string, text: string, value: Value, j: nat)
    requires Runs(turn, lines) && i < |lines| && lines[i] == Pair(key, text)
    requires KeyOk(key) && Trimmed(text) && key != RELATIONS && FieldStep(lines, i, text) == (value, j)
    ensures ReadsValue(turn, |lines|, i, key, value, j)
  {
    HeadShape(key, text);
    forall st ensures turn(i, st) == (st.(data := st.data[key := value]), j) {
      TurnField(lines, i, st, key, text);
    }
  }

  lemma TurnField(lines: seq<string>, i: nat, st: State, key: string, value: string)
    requires i < |lines| && !Skipped(lines[i]) && !Indented(lines[i]) && ReadsAs(lines[i], key, value) && key != RELATIONS
    ensures var field := FieldStep(lines, i, value);
            Turn(lines, i, st) == (st.(data := st.data[key := field.0]), field.1)
  {
  }

  lemma TextsEmpty(words: seq<F.Word>)
    ensures Texts(words) == [] <==> words == []
  {
  }

  lemma JoinedIsStripped(texts: seq<string>)
    requires TextsOk(texts)
    ensures Strip(Join(texts, " ")) == Join(texts, " ")
  {
    JoinedIsTrimmed(texts);
    StripOfTrimmed(Join(texts, " "));
  }

  lemma ListedStep(lines: seq<string>, i: nat, items: seq<string>, j: nat)
    requires i < |lines| && Scan(Continues, BlockItem, lines, i + 1, []) == (items, j)
    ensures FieldStep(lines, i, "") == (if items == [] then Scalar("") else Block(items), j)
  {
  }

  lemma FoldedStep(lines: seq<string>, i: nat, mark: char, texts: seq<string>, j: nat)
    requires i < |lines| && (mark == '>' || mark == '|') && Scan(Continues, FoldedPart, lines, i + 1, []) == (texts, j)
    ensures FieldStep(lines, i, [mark]) == (Scalar(Strip(Join(texts, " "))), j)
  {
  }

  lemma OneStep(lines: seq<string>, i: nat, word: F.Word)
    requires i < |lines| && F.WordOk(word) && F.Spelled(word) !in [">", "|"]
    ensures FieldStep(lines, i, F.Spelled(word)) == (Scalar(word.text), i + 1)
  {
    WordShape(word);
  }

  /** A field is read in one step. */
  lemma StepOf(lines: seq<string>, i: nat, f: Field, j: nat)
    requires FieldShapeOk(f) && Amounts(TheLoops(), lines, i, f, j)
    ensures FieldStep(lines, i, HeadText(f)) == (ValueOfField(f), j)
  {
    match f
    case One(key, word) => OneStep(lines, i, word);
    case Listed(key, pad, words) =>
      TextsEmpty(words);
      ListedStep(lines, i, Texts(words), j);
    case Folded(key, mark, pad, texts) =>
      JoinedIsStripped(texts);
      FoldedStep(lines, i, mark, texts, j);
  }

  lemma FieldReadIn(turn: Turns, lines: seq<string>, i: nat, f: Field, j: nat)
    requires Runs(turn, lines) && FieldShapeOk(f) && Amounts(TheLoops(), lines, i, f, j)
    ensures ReadsValue(turn, |lines|, i, f.key, ValueOfField(f), j)
  {
    StepOf(lines, i, f, j);
    HeadTextOk(f);
    KeyReads(turn, lines, i, f.key, HeadText(f), ValueOfField(f), j);
  }

  // ---------------------------------------------------------------- the whole front matter

  /** The loop has read these fields and has no warning. */
  ghost predicate Gathered(st: State, fs: seq<Field>)
  {
    Holds(st.data, fs) && st.relations == [] && st.warnings == []
  }

  /** How the lines of fields are laid out. */
  type Layout = seq<Field> -> seq<string>

  /** Field k is read from where the fields before it end to where it ends. */
  ghost predicate Laid(turn: Turns, all: Layout, fs: seq<Field>, k: nat)
  {
    k < |fs| ==> ReadsValue(turn, |all(fs)|, |all(fs[..k])|, fs[k].key, ValueOfField(fs[k]), |all(fs[..k + 1])|)
  }

  lemma LaidOut(turn: Turns, fs: seq<Field>, k: nat)
    requires forall i :: 0 <= i < |fs| ==> FieldShapeOk(fs[i])
    requires Runs(turn, AllLines(fs))
    ensures Laid(turn, AllLines, fs, k)
  {
    if k < |fs| {
      AllFit(fs);
      AmountsAt(TheLoops(), fs, k);
      FieldReadIn(turn, AllLines(fs), |AllLines(fs[..k])|, fs[k], |AllLines(fs[..k + 1])|);
    }
  }

  lemma AllFit(fs: seq<Field>)
    requires forall i :: 0 <= i < |fs| ==> FieldShapeOk(fs[i])
    ensures forall i :: 0 <= i < |fs| ==> Apart(Continues, fs[i])
    ensures forall i :: 0 <= i < |fs| ==> Fits(TheLoops(), fs[i])
  {
    forall i | 0 <= i < |fs| ensures Apart(Continues, fs[i]) && Fits(TheLoops(), fs[i]) {
      FieldFits(fs[i]);
    }
  }

  /** The loop reads one more field. */
  lemma FieldReads(turn: Turns, n: nat, start: State, i: nat, before: State, fs: seq<Field>, f: Field, value: Value,
                   j: nat, more: seq<Field>)
    returns (st: State)
    requires i < n && i < j && turn(i, before) == (before.(data := before.data[f.key := value]), j)
    requires Leads(turn, n, 0, start, i, before) && Gathered(before, fs)
    requires value == ValueOfField(f) && more == fs + [f]
    ensures Leads(turn, n, 0, start, j, st) && Gathered(st, more)
  {
    st := before.(data := before.data[f.key := value]);
    HoldsSnoc(before.data, fs, f, more);
    LeadsTurn(turn, n, i, before, st, j);
    LeadsOn(turn, n, 0, start, i, before, j, st);
  }

  ghost predicate ReadUpTo(turn: Turns, all: Layout, fs: seq<Field>, k: nat, start: State, st: State)
    requires k <= |fs|
  {
    Leads(turn, |all(fs)|, 0, start, |all(fs[..k])|, st) && Gathered(st, fs[..k])
  }

  lemma OneMore(turn: Turns, all: Layout, fs: seq<Field>, k: nat, start: State, before: State) returns (st: State)
    requires k < |fs| && Laid(turn, all, fs, k)
    requires ReadUpTo(turn, all, fs, k, start, before)
    ensures ReadUpTo(turn, all, fs, k + 1, start, st)
  {
    Longer(fs, k);
    st := FieldReads(turn, |all(fs)|, start, |all(fs[..k])|, before, fs[..k], fs[k], ValueOfField(fs[k]),
                     |all(fs[..k + 1])|, fs[..k + 1]);
  }

  lemma Longer<T>(fs: seq<T>, k: nat)
    requires k < |fs|
    ensures fs[..k + 1] == fs[..k] + [fs[k]]
  {
  }

  lemma {:induction false} FieldsRead(turn: Turns, all: Layout, fs: seq<Field>, k: nat) returns (st: State)
    requires k <= |fs| && all([]) == [] && forall i: nat :: Laid(turn, all, fs, i)
    ensures ReadUpTo(turn, all, fs, k, State(map[], [], []), st)
    decreases k
  {
    if k == 0 {
      st := State(map[], [], []);
      assert fs[..0] == [];
    } else {
      var before := FieldsRead(turn, all, fs, k - 1);
      st := OneMore(turn, all, fs, k - 1, State(map[], [], []), before);
    }
  }

  lemma AllRead(turn: Turns, all: Layout, fs: seq<Field>) returns (st: State)
    requires all([]) == [] && forall i: nat :: Laid(turn, all, fs, i)
    ensures Leads(turn, |all(fs)|, 0, State(map[], [], []), |all(fs)|, st) && Gathered(st, fs)
  {
    st := FieldsRead(turn, all, fs, |fs|);
    assert fs[..|fs|] == fs;
  }

  /** Every front matter of printed fields is read back without a warning: each key with the value
      of its last field, quotes taken off, and no other key. */
  lemma ParseReadsFields(fs: seq<Field>, after: string)
    requires forall i :: 0 <= i < |fs| ==> FieldShapeOk(fs[i])
    requires F.LinesOk(AllLines(fs)) && (after != "" ==> after[0] == '\n')
    ensures var r := Parse("---\n" + Closed(AllLines(fs)) + "---" + after);
            r.found && r.warnings == [] && Holds(r.data, fs)
  {
    F.LinesAreLines(AllLines(fs));
    FrontmatterOfPrint(AllLines(fs), after);
    TurnOfRuns(AllLines(fs));
    forall i: nat ensures Laid(TurnOf(AllLines(fs)), AllLines, fs, i) {
      LaidOut(TurnOf(AllLines(fs)), fs, i);
    }
    var st := AllRead(TurnOf(AllLines(fs)), AllLines, fs);
    LoopEnds(AllLines(fs), State(map[], [], []), st);
  }
}
