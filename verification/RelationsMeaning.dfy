/** What `extract_relations_from_content` reads from any frontmatter, stated by line positions:
    which lines count, and what each list item of the `relations:` block becomes. */
module RelationsMeaning {
  import opened Options
  import opened Text
  import opened FrontmatterText
  import opened RelationDocument
  import opened RelationsParser

  // ---------------------------------------------------------------- kinds of lines

  /** An unindented line with a colon: a top-level key, whatever else it looks like. */
  predicate KeyLine(line: string)
  {
    !Skipped(line) && !Indented(line) && ':' in Strip(line)
  }

  /** The key line that opens the block. */
  predicate Opens(line: string)
  {
    KeyLine(line) && KeyOf(Strip(line)) == "relations" && Strip(Cut(Strip(line), ':').1) != "[]"
  }

  predicate ItemLine(line: string)
  {
    !Skipped(line) && !KeyLine(line) && StartsWith(Strip(line), "- ")
  }

  /** A further key of an item. */
  predicate PairLine(line: string)
  {
    !Skipped(line) && !KeyLine(line) && !ItemLine(line) && ':' in Strip(line)
  }

  /** The last key line up to i opens the block. */
  ghost predicate InBlock(lines: seq<string>, i: nat)
  {
    exists k: nat :: OpenedAt(lines, k, i)
  }

  ghost predicate OpenedAt(lines: seq<string>, k: nat, i: nat)
  {
    k <= i < |lines| && Opens(lines[k]) && NoKeyLine(lines, k, i)
  }

  /** No key line after i, up to and including j. */
  ghost predicate NoKeyLine(lines: seq<string>, i: nat, j: nat)
  {
    forall x :: i < x <= j && x < |lines| ==> !KeyLine(lines[x])
  }

  ghost predicate IsItem(lines: seq<string>, i: nat)
  {
    i < |lines| && ItemLine(lines[i]) && InBlock(lines, i)
  }

  // ---------------------------------------------------------------- items

  /** The line at j belongs to the item at i. */
  ghost predicate Continues(lines: seq<string>, i: nat, j: nat)
  {
    && i < j < |lines| && PairLine(lines[j]) && NoKeyLine(lines, i, j)
    && forall x :: i < x <= j ==> !ItemLine(lines[x])
  }

  /** The keys that the item at i has collected before line n; a repeated key keeps its last value. */
  ghost function Fields(lines: seq<string>, i: nat, n: nat): map<string, string>
    requires i < n <= |lines| && StartsWith(Strip(lines[i]), "- ") && ':' in Strip(lines[i])[2..]
  {
    if n == i + 1 then map[KeyOf(Strip(lines[i])[2..]) := ValueOf(Strip(lines[i])[2..])]
    else if Continues(lines, i, n - 1) then
      Fields(lines, i, n - 1)[KeyOf(Strip(lines[n - 1])) := ValueOf(Strip(lines[n - 1]))]
    else Fields(lines, i, n - 1)
  }

  /** What the item at i becomes: the text itself, or a dictionary if it holds a colon. */
  ghost function ItemAt(lines: seq<string>, i: nat): Item
    requires i < |lines| && ItemLine(lines[i])
  {
    var text := Strip(lines[i])[2..];
    if ':' in text then Dict(Fields(lines, i, |lines|)) else Bare(text)
  }

  /** The items of the block among the first n lines, in order. */
  ghost function Items(lines: seq<string>, n: nat): seq<Item>
    requires n <= |lines|
  {
    if n == 0 then [] else Items(lines, n - 1) + if IsItem(lines, n - 1) then [ItemAt(lines, n - 1)] else []
  }

  // ---------------------------------------------------------------- one more line

  lemma BlockSnoc(lines: seq<string>, l: string, i: nat)
    requires i < |lines|
    ensures InBlock(lines + [l], i) <==> InBlock(lines, i)
    ensures IsItem(lines + [l], i) <==> IsItem(lines, i)
  {
    var all := lines + [l];
    forall k: nat ensures OpenedAt(all, k, i) <==> OpenedAt(lines, k, i) {
      assert forall x :: 0 <= x < |lines| ==> all[x] == lines[x];
    }
  }

  lemma BlockOfLast(lines: seq<string>, l: string)
    ensures var all := lines + [l];
            InBlock(all, |lines|) <==>
            if KeyLine(l) then Opens(l) else |lines| > 0 && InBlock(lines, |lines| - 1)
  {
    var all := lines + [l];
    var n := |lines|;
    assert all[n] == l && forall x :: 0 <= x < n ==> all[x] == lines[x];
    if KeyLine(l) {
      assert Opens(l) ==> OpenedAt(all, n, n);
    } else {
      if InBlock(all, n) {
        var k: nat :| OpenedAt(all, k, n);
        assert OpenedAt(lines, k, n - 1);
      }
      if n > 0 && InBlock(lines, n - 1) {
        var k: nat :| OpenedAt(lines, k, n - 1);
        assert OpenedAt(all, k, n);
      }
    }
  }

  lemma ContinuesSnoc(lines: seq<string>, l: string, i: nat, j: nat)
    requires j < |lines|
    ensures Continues(lines + [l], i, j) <==> Continues(lines, i, j)
  {
    assert forall x :: 0 <= x < |lines| ==> (lines + [l])[x] == lines[x];
  }

  lemma {:induction false} FieldsSnoc(lines: seq<string>, l: string, i: nat, n: nat)
    requires i < n <= |lines| && StartsWith(Strip(lines[i]), "- ") && ':' in Strip(lines[i])[2..]
    ensures Fields(lines + [l], i, n) == Fields(lines, i, n)
    decreases n
  {
    if n > i + 1 {
      FieldsSnoc(lines, l, i, n - 1);
      ContinuesSnoc(lines, l, i, n - 1);
    }
  }

  /** An item changes only by a line that adds a key to it. */
  lemma ItemSnoc(lines: seq<string>, l: string, i: nat)
    requires i < |lines| && ItemLine(lines[i])
    requires ':' in Strip(lines[i])[2..] ==> !Continues(lines + [l], i, |lines|)
    ensures ItemAt(lines + [l], i) == ItemAt(lines, i)
  {
    if ':' in Strip(lines[i])[2..] {
      FieldsSnoc(lines, l, i, |lines|);
    }
  }

  lemma {:induction false} ItemsSnoc(lines: seq<string>, l: string, n: nat)
    requires n <= |lines|
    requires forall i: nat :: i < n && IsItem(lines, i) ==> ItemAt(lines + [l], i) == ItemAt(lines, i)
    ensures Items(lines + [l], n) == Items(lines, n)
  {
    if n > 0 {
      ItemsSnoc(lines, l, n - 1);
      BlockSnoc(lines, l, n - 1);
    }
  }

  /** The items before n stay when none of them is the one that collects. */
  lemma ItemsStay(lines: seq<string>, l: string, n: nat)
    requires n <= |lines|
    requires forall i: nat :: i < n && Collects(lines, i) ==> !PairLine(l)
    ensures Items(lines + [l], n) == Items(lines, n)
  {
    forall i: nat | i < n && IsItem(lines, i) ensures ItemAt(lines + [l], i) == ItemAt(lines, i) {
      if ':' in Strip(lines[i])[2..] {
        OnlyCollectorContinues(lines, l, i);
      }
      ItemSnoc(lines, l, i);
    }
    ItemsSnoc(lines, l, n);
  }

  lemma {:induction false} NoItemsAfter(lines: seq<string>, i: nat, n: nat)
    requires i <= n <= |lines| && forall x :: i <= x < n ==> !ItemLine(lines[x])
    ensures Items(lines, n) == Items(lines, i)
    decreases n - i
  {
    if i < n {
      NoItemsAfter(lines, i, n - 1);
      assert !ItemLine(lines[n - 1]);
    }
  }

  // ---------------------------------------------------------------- the loop

  /** The item at i still collects keys. */
  ghost predicate Collects(lines: seq<string>, i: nat)
  {
    && IsItem(lines, i) && ':' in Strip(lines[i])[2..] && NoKeyLine(lines, i, |lines|)
    && forall x :: i < x < |lines| ==> !ItemLine(lines[x])
  }

  /** The loop state after these lines. */
  ghost predicate Reads(st: State, lines: seq<string>)
  {
    && (st.inside <==> |lines| > 0 && InBlock(lines, |lines| - 1))
    && match st.entry
       case None => (forall i: nat :: !Collects(lines, i)) && st.relations == Items(lines, |lines|)
       case Some(m) => exists i: nat :: Pending(lines, i, m, st.relations)
  }

  ghost predicate Pending(lines: seq<string>, i: nat, m: map<string, string>, before: seq<Item>)
  {
    Collects(lines, i) && m == Fields(lines, i, |lines|) && before == Items(lines, i)
  }

  lemma FlushReads(st: State, lines: seq<string>)
    requires Reads(st, lines)
    ensures Flush(st).relations == Items(lines, |lines|)
  {
    if st.entry.Some? {
      var i: nat :| Pending(lines, i, st.entry.value, st.relations);
      PendingItems(lines, i, st.entry.value, st.relations);
    }
  }

  lemma PendingItems(lines: seq<string>, i: nat, m: map<string, string>, before: seq<Item>)
    requires Pending(lines, i, m, before)
    ensures before + [Dict(m)] == Items(lines, |lines|)
  {
    NoItemsAfter(lines, i + 1, |lines|);
    assert Items(lines, i + 1) == Items(lines, i) + [ItemAt(lines, i)];
  }

  /** An item that collects lies in the block, and so does everything after it. */
  lemma CollectsInside(lines: seq<string>, i: nat, j: nat)
    requires IsItem(lines, i) && i <= j < |lines| && NoKeyLine(lines, i, j)
    ensures InBlock(lines, j)
  {
    var k: nat :| OpenedAt(lines, k, i);
    assert OpenedAt(lines, k, j);
  }

  /** Only the item that collects can be continued, and only by a pair line. */
  lemma OnlyCollectorContinues(lines: seq<string>, l: string, i: nat)
    requires IsItem(lines, i) && ':' in Strip(lines[i])[2..]
    ensures Continues(lines + [l], i, |lines|) <==> PairLine(l) && Collects(lines, i)
  {
    var all := lines + [l];
    assert all[|lines|] == l && forall x :: 0 <= x < |lines| ==> all[x] == lines[x];
  }

  lemma CollectsSnoc(lines: seq<string>, l: string, i: nat)
    ensures Collects(lines + [l], i) <==>
            if i < |lines| then Collects(lines, i) && !KeyLine(l) && !ItemLine(l)
            else i == |lines| && IsItem(lines + [l], i) && ':' in Strip(l)[2..]
  {
    var all := lines + [l];
    assert all[|lines|] == l && forall x :: 0 <= x < |lines| ==> all[x] == lines[x];
    if i < |lines| {
      BlockSnoc(lines, l, i);
    }
  }

  /** A line that opens, closes, starts or continues nothing. */
  lemma StepIdle(st: State, lines: seq<string>, l: string)
    requires Reads(st, lines) && !KeyLine(l)
    requires ItemLine(l) ==> !st.inside
    requires PairLine(l) ==> st.entry.None?
    ensures Reads(st, lines + [l])
  {
    BlockOfLast(lines, l);
    if st.entry.Some? {
      var i: nat :| Pending(lines, i, st.entry.value, st.relations);
      IdleWhileCollecting(lines, l, i, st.entry.value, st.relations);
    } else {
      IdleOtherwise(st, lines, l);
    }
  }

  lemma CollectorInside(lines: seq<string>, i: nat)
    requires Collects(lines, i)
    ensures |lines| > 0 && InBlock(lines, |lines| - 1)
  {
    CollectsInside(lines, i, |lines| - 1);
  }

  /** Whatever follows, the items before another item stay. */
  lemma EarlierItemsStay(lines: seq<string>, l: string, i: nat)
    requires i < |lines| && ItemLine(lines[i])
    ensures Items(lines + [l], i) == Items(lines, i)
  {
    forall x: nat | x < i ensures !Collects(lines, x) {
      assert ItemLine(lines[i]);
    }
    ItemsStay(lines, l, i);
  }

  lemma IdleWhileCollecting(lines: seq<string>, l: string, i: nat, m: map<string, string>, before: seq<Item>)
    requires Pending(lines, i, m, before) && !KeyLine(l) && !PairLine(l)
    requires ItemLine(l) ==> |lines| == 0 || !InBlock(lines, |lines| - 1)
    ensures Pending(lines + [l], i, m, before)
  {
    CollectorInside(lines, i);
    EarlierItemsStay(lines, l, i);
    StillPending(lines, l, i, m, before);
  }

  lemma IdleOtherwise(st: State, lines: seq<string>, l: string)
    requires (forall i: nat :: !Collects(lines, i)) && st.relations == Items(lines, |lines|)
    requires !KeyLine(l) && (ItemLine(l) ==> |lines| == 0 || !InBlock(lines, |lines| - 1))
    ensures (forall i: nat :: !Collects(lines + [l], i)) && st.relations == Items(lines + [l], |lines + [l]|)
  {
    BlockOfLast(lines, l);
    NoItemAdded(lines, l);
    forall i: nat ensures !Collects(lines + [l], i) {
      CollectsSnoc(lines, l, i);
    }
  }

  lemma NoItemAdded(lines: seq<string>, l: string)
    requires (forall i: nat :: !Collects(lines, i)) && !IsItem(lines + [l], |lines|)
    ensures Items(lines + [l], |lines + [l]|) == Items(lines, |lines|)
  {
    ItemsStay(lines, l, |lines|);
  }

  lemma StillPending(lines: seq<string>, l: string, i: nat, m: map<string, string>, before: seq<Item>)
    requires Pending(lines, i, m, before) && Items(lines + [l], i) == before
    requires !KeyLine(l) && !ItemLine(l)
    ensures Pending(lines + [l], i, if PairLine(l) then m[KeyOf(Strip(l)) := ValueOf(Strip(l))] else m, before)
  {
    CollectsSnoc(lines, l, i);
    OnlyCollectorContinues(lines, l, i);
    FieldsSnoc(lines, l, i, |lines|);
  }

  /** A key line closes the last item. */
  lemma StepKey(st: State, lines: seq<string>, l: string)
    requires Reads(st, lines) && KeyLine(l)
    ensures Reads(TopLevel(st, Strip(l)), lines + [l])
  {
    var all := lines + [l];
    BlockOfLast(lines, l);
    FlushReads(st, lines);
    ItemsStay(lines, l, |lines|);
    forall i: nat ensures !Collects(all, i) {
      CollectsSnoc(lines, l, i);
    }
  }

  lemma ListItemShape(st: State, text: string)
    ensures ':' in text ==> ListItem(st, text) == State(st.inside, Some(map[KeyOf(text) := ValueOf(text)]), Flush(st).relations)
    ensures ':' !in text ==> ListItem(st, text) == State(st.inside, None, Flush(st).relations + [Bare(text)])
  {
  }

  lemma CompleteReads(st: State, lines: seq<string>)
    requires st.inside <==> |lines| > 0 && InBlock(lines, |lines| - 1)
    requires st.entry.None? && (forall i: nat :: !Collects(lines, i)) && st.relations == Items(lines, |lines|)
    ensures Reads(st, lines)
  {
  }

  /** A new item completes the one before. */
  lemma StepItem(st: State, lines: seq<string>, l: string)
    requires Reads(st, lines) && ItemLine(l) && st.inside
    ensures Reads(ListItem(st, Strip(l)[2..]), lines + [l])
  {
    FlushReads(st, lines);
    ItemReads(st, lines, l);
  }

  lemma ItemReads(st: State, lines: seq<string>, l: string)
    requires Flush(st).relations == Items(lines, |lines|) && st.inside
    requires ItemLine(l) && |lines| > 0 && InBlock(lines, |lines| - 1)
    ensures Reads(ListItem(st, Strip(l)[2..]), lines + [l])
  {
    var all := lines + [l];
    ItemAdded(lines, l, all);
    if ':' in Strip(l)[2..] {
      DictItemReads(st, all, Strip(l)[2..], |lines|);
    } else {
      BareItemReads(st, all, Strip(l)[2..]);
    }
  }

  lemma DictItemReads(st: State, all: seq<string>, text: string, i: nat)
    requires i == |all| - 1 && ItemLine(all[i]) && text == Strip(all[i])[2..] && ':' in text
    requires Flush(st).relations == Items(all, i) && st.inside && InBlock(all, i) && Collects(all, i)
    ensures Reads(ListItem(st, text), all)
  {
    ListItemShape(st, text);
    PendingReads(ListItem(st, text), all, i);
  }

  lemma BareItemReads(st: State, all: seq<string>, text: string)
    requires |all| > 0 && IsItem(all, |all| - 1) && text == Strip(all[|all| - 1])[2..] && ':' !in text
    requires Flush(st).relations == Items(all, |all| - 1) && st.inside && InBlock(all, |all| - 1)
    requires forall i: nat :: !Collects(all, i)
    ensures Reads(ListItem(st, text), all)
  {
    ListItemShape(st, text);
    CompleteReads(ListItem(st, text), all);
  }

  lemma ItemAdded(lines: seq<string>, l: string, all: seq<string>)
    requires all == lines + [l] && ItemLine(l) && |lines| > 0 && InBlock(lines, |lines| - 1)
    ensures InBlock(all, |all| - 1) && IsItem(all, |lines|)
    ensures Items(all, |lines|) == Items(lines, |lines|)
    ensures forall i: nat :: Collects(all, i) <==> i == |lines| && ':' in Strip(l)[2..]
  {
    assert all[|lines|] == l;
    BlockOfLast(lines, l);
    ItemsStay(lines, l, |lines|);
    forall i: nat ensures Collects(all, i) <==> i == |lines| && ':' in Strip(l)[2..] {
      CollectsSnoc(lines, l, i);
    }
  }

  /** A pair line extends the item that collects. */
  lemma StepPair(lines: seq<string>, l: string, i: nat, m: map<string, string>, before: seq<Item>)
    requires Pending(lines, i, m, before) && PairLine(l)
    ensures |lines| > 0 && InBlock(lines, |lines| - 1)
    ensures Pending(lines + [l], i, m[KeyOf(Strip(l)) := ValueOf(Strip(l))], before)
  {
    CollectorInside(lines, i);
    EarlierItemsStay(lines, l, i);
    StillPending(lines, l, i, m, before);
  }

  lemma PendingReads(st: State, lines: seq<string>, i: nat)
    requires st.inside <==> |lines| > 0 && InBlock(lines, |lines| - 1)
    requires st.entry.Some? && Pending(lines, i, st.entry.value, st.relations)
    ensures Reads(st, lines)
  {
  }

  lemma PairReads(st: State, lines: seq<string>, l: string)
    requires Reads(st, lines) && PairLine(l) && st.entry.Some?
    ensures st.inside
    ensures Reads(st.(entry := Some(st.entry.value[KeyOf(Strip(l)) := ValueOf(Strip(l))])), lines + [l])
  {
    var i: nat :| Pending(lines, i, st.entry.value, st.relations);
    StepPair(lines, l, i, st.entry.value, st.relations);
    PairStaysInside(lines, l);
    PendingReads(st.(entry := Some(st.entry.value[KeyOf(Strip(l)) := ValueOf(Strip(l))])), lines + [l], i);
  }

  lemma PairStaysInside(lines: seq<string>, l: string)
    requires PairLine(l)
    ensures InBlock(lines + [l], |lines|) <==> |lines| > 0 && InBlock(lines, |lines| - 1)
  {
    BlockOfLast(lines, l);
  }

  /** One turn of the loop, by the kind of line. */
  lemma StepByKind(st: State, l: string)
    ensures KeyLine(l) ==> Step(st, l) == TopLevel(st, Strip(l))
    ensures ItemLine(l) && st.inside ==> Step(st, l) == ListItem(st, Strip(l)[2..])
    ensures PairLine(l) && st.inside && st.entry.Some? ==>
              Step(st, l) == st.(entry := Some(st.entry.value[KeyOf(Strip(l)) := ValueOf(Strip(l))]))
    ensures !KeyLine(l) && !(ItemLine(l) && st.inside) && !(PairLine(l) && st.inside && st.entry.Some?) ==> Step(st, l) == st
  {
  }

  lemma StepReads(st: State, lines: seq<string>, l: string)
    requires Reads(st, lines)
    ensures Reads(Step(st, l), lines + [l])
  {
    StepByKind(st, l);
    if KeyLine(l) {
      StepKey(st, lines, l);
    } else if ItemLine(l) && st.inside {
      StepItem(st, lines, l);
    } else if PairLine(l) && st.entry.Some? {
      PairReads(st, lines, l);
    } else {
      StepIdle(st, lines, l);
    }
  }

  lemma {:induction false} LoopReads(lines: seq<string>)
    ensures Reads(Fold(Step, START, lines), lines)
  {
    if |lines| > 0 {
      var init, l := lines[..|lines| - 1], lines[|lines| - 1];
      LoopReads(init);
      StepReads(Fold(Step, START, init), init, l);
      assert init + [l] == lines;
    }
  }

  /** For every text: the result lists the items of the `relations:` block, in order, and nothing
      else. */
  lemma ExtractReadsTheBlock(content: string)
    ensures Extract(content) == match FrontmatterLines(content)
                                case None => []
                                case Some(lines) => Items(lines, |lines|)
  {
    var lines := FrontmatterLines(content);
    if lines.Some? {
      LoopReads(lines.value);
      FlushReads(Fold(Step, START, lines.value), lines.value);
    }
  }

  // ---------------------------------------------------------------- lines outside the block

  /** Removing a line that is neither a key line nor in the block, a list item of another key
      say, never changes the result. */
  lemma OutsideLinesAreIgnored(content: string, shorter: string, i: nat)
    requires FrontmatterLines(content).Some? && FrontmatterLines(shorter).Some?
    requires Without(FrontmatterLines(content).value, i, FrontmatterLines(shorter).value)
    ensures Extract(shorter) == Extract(content)
  {
    var lines := FrontmatterLines(content).value;
    Parted(lines, i);
    RemovalKeepsState(lines[..i], lines[i], lines[i + 1..]);
  }

  /** The second list lacks line i of the first, which is neither a key line nor in the block. */
  ghost predicate Without(lines: seq<string>, i: nat, shorter: seq<string>)
  {
    i < |lines| && !KeyLine(lines[i]) && !InBlock(lines, i) && shorter == lines[..i] + lines[i + 1..]
  }

  lemma RemovalKeepsState(before: seq<string>, l: string, after: seq<string>)
    requires !KeyLine(l) && !InBlock(before + [l] + after, |before|)
    ensures Fold(Step, START, before + after) == Fold(Step, START, before + [l] + after)
  {
    BlockSnocAll(before, l, after);
    IdleOutside(before, l);
    FoldConcat(Step, START, before + [l], after);
    FoldConcat(Step, START, before, after);
  }

  lemma Parted(lines: seq<string>, i: nat)
    requires i < |lines|
    ensures lines[..i] + [lines[i]] + lines[i + 1..] == lines
  {
  }

  lemma IdleOutside(before: seq<string>, l: string)
    requires !KeyLine(l) && !InBlock(before + [l], |before|)
    ensures Fold(Step, START, before + [l]) == Fold(Step, START, before)
  {
    LoopReads(before);
    BlockOfLast(before, l);
    StepByKind(Fold(Step, START, before), l);
    FoldSnoc(Step, START, before, l);
  }

  lemma {:induction false} BlockSnocAll(before: seq<string>, l: string, after: seq<string>)
    ensures InBlock(before + [l] + after, |before|) <==> InBlock(before + [l], |before|)
    decreases |after|
  {
    if |after| > 0 {
      var init, last := after[..|after| - 1], after[|after| - 1];
      BlockSnocAll(before, l, init);
      BlockSnoc(before + [l] + init, last, |before|);
      assert before + [l] + init + [last] == before + [l] + after;
    } else {
      assert before + [l] + after == before + [l];
    }
  }
}
