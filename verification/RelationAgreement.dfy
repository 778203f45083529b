/** The three readers of the `relations:` block, side by side on printed documents. */
module RelationAgreement {
  import opened Options
  import opened Text
  import opened FrontmatterText
  import opened RelationDocument
  import RelationsParser
  import Docmeta
  import LifecycleInventory

  /** No value of any entry is quoted. */
  ghost predicate NothingQuoted(es: seq<Entry>)
  {
    forall i, k :: 0 <= i < |es| && k in Meaning(es[i]) ==> !Quoted(Meaning(es[i])[k])
  }

  ghost predicate SpaceIndented(d: Document)
  {
    forall i :: 0 <= i < |d.entries| ==> Docmeta.EntrySpaced(d.entries[i])
  }

  lemma UnquotePlain(m: map<string, string>)
    ensures UnquoteAll(m) == m <==> forall k :: k in m ==> !Quoted(m[k])
  {
    forall k | k in m ensures UnquoteAll(m)[k] == m[k] <==> !Quoted(m[k]) {
    }
    if UnquoteAll(m) == m {
      forall k | k in m ensures !Quoted(m[k]) {
        assert UnquoteAll(m)[k] == m[k];
      }
    }
  }

  /** On documents indented with spaces the first two readers report the same list if and only if no
      value is quoted: the second one keeps the quotes of a relation. */
  lemma FirstTwoAgree(d: Document)
    requires DocumentOk(d) && SpaceIndented(d)
    ensures var r := Docmeta.Parse(Print(d));
            && r.Some? && Docmeta.RELATIONS in r.value
            && (r.value[Docmeta.RELATIONS] == Docmeta.Items(RelationsParser.Extract(Print(d))) <==>
                NothingQuoted(d.entries))
  {
    RelationsParser.ExtractInvertsPrint(d);
    Docmeta.ParseInvertsPrint(d);
    SameReports(d.entries);
  }

  lemma SameReports(es: seq<Entry>)
    ensures RelationsParser.Reported(es) == Docmeta.Reported(es) <==> NothingQuoted(es)
  {
    var a, b := RelationsParser.Reported(es), Docmeta.Reported(es);
    forall i | 0 <= i < |es| ensures a[i] == b[i] <==> forall k :: k in Meaning(es[i]) ==> !Quoted(Meaning(es[i])[k]) {
      UnquotePlain(Meaning(es[i]));
    }
    if a == b {
      forall i, k | 0 <= i < |es| && k in Meaning(es[i]) ensures !Quoted(Meaning(es[i])[k]) {
        assert a[i] == b[i];
      }
    }
  }

  /** The type and target that an entry of the first reader carries. */
  function TypedEntry(item: Item): LifecycleInventory.RelationEntry
  {
    match item
    case Bare(_) => LifecycleInventory.RelationEntry("", "")
    case Dict(fields) => LifecycleInventory.EntryOf(fields)
  }

  /** The third reader reports the types and targets of the first one, whatever the indentation. */
  lemma FirstAndThirdAgree(d: Document)
    requires DocumentOk(d)
    ensures var r, s := LifecycleInventory.Parse(Print(d)), RelationsParser.Extract(Print(d));
            && r.found && r.warnings == [] && LifecycleInventory.RELATIONS in r.data
            && r.data[LifecycleInventory.RELATIONS] ==
               LifecycleInventory.Relations(seq(|s|, i requires 0 <= i < |s| => TypedEntry(s[i])))
  {
    RelationsParser.ExtractInvertsPrint(d);
    LifecycleInventory.ParseInvertsPrint(d);
    var s := RelationsParser.Reported(d.entries);
    assert LifecycleInventory.Reported(d.entries) == seq(|s|, i requires 0 <= i < |s| => TypedEntry(s[i]));
  }

  // ---------------------------------------------------------------- typed relations

  datatype Relation = Relation(kind: string, target: string)

  /** A value as the strict subset writes it. */
  ghost predicate ValueOk(v: string)
  {
    Trimmed(v) && OneLine(v) && NoRule(v) && !Quoted(v)
  }

  /** The entry for one relation, indented by the given text. */
  function TypedLines(pad: string, r: Relation): Entry
  {
    Entry(pad, "type", r.kind, [More(pad + "  ", "target", r.target)])
  }

  /** The document that lists the relations and nothing else. */
  function Listing(pad: string, rs: seq<Relation>): Document
  {
    Document([], [], seq(|rs|, i requires 0 <= i < |rs| => TypedLines(pad, rs[i])), [], "\n")
  }

  /** The relation as a dictionary. */
  function AsItem(r: Relation): Item
  {
    Dict(map["type" := r.kind, "target" := r.target])
  }

  lemma NoRuleJoin(a: string, b: string)
    requires NoRule(a) && NoRule(b) && (a != "" ==> a[|a| - 1] != '-')
    ensures NoRule(a + b)
  {
    forall i: nat ensures !RuleAt(a + b, i) {
      assert !RuleAt(a, i);
      if i >= |a| {
        assert !RuleAt(b, i - |a|);
      }
    }
  }

  lemma OneLineJoin(a: string, b: string)
    requires OneLine(a) && OneLine(b)
    ensures OneLine(a + b)
  {
  }

  lemma PairOk(key: string, value: string)
    requires (key == "type" || key == "target") && ValueOk(value)
    ensures KeyOk(key) && OneLine(Pair(key, value)) && NoRule(Pair(key, value))
  {
    assert NoRule(key) && NoRule(key + ":") && NoRule(key + ": ");
    OneLineJoin(key + ": ", value);
    NoRuleJoin(key + ": ", value);
  }

  lemma TypedLinesOk(pad: string, r: Relation)
    requires Indent(pad) && ValueOk(r.kind) && ValueOk(r.target)
    ensures EntryOk(TypedLines(pad, r))
    ensures Meaning(TypedLines(pad, r)) == map["type" := r.kind, "target" := r.target]
  {
    var dash, more := Dash(pad, "type", r.kind), More(pad + "  ", "target", r.target);
    PairOk("type", r.kind);
    PairOk("target", r.target);
    DashOk(pad, Pair("type", r.kind));
    PadOk(pad + "  ", Pair("target", r.target));
    assert EntryLines(TypedLines(pad, r)) == [dash, more];
    assert Extended(map["type" := r.kind], [more]) == map["type" := r.kind]["target" := r.target] by {
      assert [more][..0] == [];
    }
  }

  lemma PadOk(pad: string, core: string)
    requires Pad(pad) && OneLine(core) && NoRule(core)
    ensures OneLine(pad + core) && NoRule(pad + core)
  {
    assert forall i: nat :: !RuleAt(pad, i);
    NoRuleJoin(pad, core);
    OneLineJoin(pad, core);
  }

  lemma DashOk(pad: string, core: string)
    requires Pad(pad) && OneLine(core) && NoRule(core)
    ensures OneLine(pad + ("- " + core)) && NoRule(pad + ("- " + core))
  {
    assert NoRule("- ");
    NoRuleJoin("- ", core);
    OneLineJoin("- ", core);
    PadOk(pad, "- " + core);
  }

  /** Every list of relations that is printed in the strict subset, indented with spaces, comes back
      from all three readers unchanged. */
  lemma AllReadersReturnTheList(pad: string, rs: seq<Relation>)
    requires Indent(pad) && pad[0] == ' '
    requires forall i :: 0 <= i < |rs| ==> ValueOk(rs[i].kind) && ValueOk(rs[i].target)
    ensures var text, items := Print(Listing(pad, rs)), seq(|rs|, i requires 0 <= i < |rs| => AsItem(rs[i]));
            && RelationsParser.Extract(text) == items
            && (var r := Docmeta.Parse(text);
                r.Some? && Docmeta.RELATIONS in r.value && r.value[Docmeta.RELATIONS] == Docmeta.Items(items))
            && (var r := LifecycleInventory.Parse(text);
                && r.found && r.warnings == [] && LifecycleInventory.RELATIONS in r.data
                && r.data[LifecycleInventory.RELATIONS] == LifecycleInventory.Relations(
                     seq(|rs|, i requires 0 <= i < |rs| => LifecycleInventory.RelationEntry(rs[i].kind, rs[i].target))))
  {
    ListingOk(pad, rs);
    FirstTwoAgree(Listing(pad, rs));
    RelationsParser.ExtractInvertsPrint(Listing(pad, rs));
    LifecycleInventory.ParseInvertsPrint(Listing(pad, rs));
    ListingReports(pad, rs);
  }

  lemma ListingOk(pad: string, rs: seq<Relation>)
    requires Indent(pad)
    requires forall i :: 0 <= i < |rs| ==> ValueOk(rs[i].kind) && ValueOk(rs[i].target)
    ensures var d := Listing(pad, rs);
            && DocumentOk(d) && (pad[0] == ' ' ==> SpaceIndented(d)) && NothingQuoted(d.entries)
            && forall i :: 0 <= i < |rs| ==> Meaning(d.entries[i]) == map["type" := rs[i].kind, "target" := rs[i].target]
  {
    var d := Listing(pad, rs);
    forall i | 0 <= i < |rs|
      ensures EntryOk(d.entries[i])
      ensures Meaning(d.entries[i]) == map["type" := rs[i].kind, "target" := rs[i].target]
      ensures pad[0] == ' ' ==> Docmeta.EntrySpaced(d.entries[i])
    {
      TypedLinesOk(pad, rs[i]);
    }
  }

  lemma ListingReports(pad: string, rs: seq<Relation>)
    requires Indent(pad)
    requires forall i :: 0 <= i < |rs| ==> ValueOk(rs[i].kind) && ValueOk(rs[i].target)
    ensures var es := Listing(pad, rs).entries;
            && RelationsParser.Reported(es) == seq(|rs|, i requires 0 <= i < |rs| => AsItem(rs[i]))
            && LifecycleInventory.Reported(es) ==
               seq(|rs|, i requires 0 <= i < |rs| => LifecycleInventory.RelationEntry(rs[i].kind, rs[i].target))
  {
    var es := Listing(pad, rs).entries;
    forall i | 0 <= i < |rs|
      ensures Dict(UnquoteAll(Meaning(es[i]))) == AsItem(rs[i])
      ensures LifecycleInventory.EntryOf(UnquoteAll(Meaning(es[i]))) ==
              LifecycleInventory.RelationEntry(rs[i].kind, rs[i].target)
    {
      TypedLinesOk(pad, rs[i]);
      UnquotePlain(Meaning(es[i]));
    }
  }

  // ---------------------------------------------------------------- where they differ

  /** On a printed list the second reader agrees with the first one exactly when the entries are
      indented with a space first: behind a tab it reports an empty list. */
  lemma AgreementNeedsSpaces(pad: string, rs: seq<Relation>)
    requires Indent(pad)
    requires forall i :: 0 <= i < |rs| ==> ValueOk(rs[i].kind) && ValueOk(rs[i].target)
    ensures var text := Print(Listing(pad, rs)); var r := Docmeta.Parse(text);
            && r.Some? && Docmeta.RELATIONS in r.value
            && (r.value[Docmeta.RELATIONS] == Docmeta.Items(RelationsParser.Extract(text)) <==> rs == [] || pad[0] == ' ')
            && (pad[0] == '\t' ==> r.value[Docmeta.RELATIONS] == Docmeta.Items([]))
  {
    ListingOk(pad, rs);
    ListingReports(pad, rs);
    RelationsParser.ExtractInvertsPrint(Listing(pad, rs));
    if pad[0] == ' ' {
      FirstTwoAgree(Listing(pad, rs));
    } else {
      TabbedListIsLost(pad, rs);
    }
  }

  /** Nothing has been reported and no entry is open. */
  predicate Barren(st: Docmeta.State)
  {
    st.entry.None? && Docmeta.RELATIONS in st.data && st.data[Docmeta.RELATIONS] == Docmeta.Items([])
  }

  lemma TabbedListIsLost(pad: string, rs: seq<Relation>)
    requires Indent(pad) && pad[0] == '\t'
    requires forall i :: 0 <= i < |rs| ==> ValueOk(rs[i].kind) && ValueOk(rs[i].target)
    ensures var r := Docmeta.Parse(Print(Listing(pad, rs)));
            r.Some? && Docmeta.RELATIONS in r.value && r.value[Docmeta.RELATIONS] == Docmeta.Items([])
  {
    ListingOk(pad, rs);
    Docmeta.ParseIsFold(Listing(pad, rs));
    TabbedFold(pad, rs);
  }

  lemma TabbedFold(pad: string, rs: seq<Relation>)
    requires Indent(pad) && pad[0] == '\t'
    requires forall i :: 0 <= i < |rs| ==> ValueOk(rs[i].kind) && ValueOk(rs[i].target)
    ensures Barren(Fold(Docmeta.Step, Docmeta.START, FrontLines(Listing(pad, rs))))
  {
    var block := Rendered(BlockLines(Listing(pad, rs).entries));
    HeaderBarren();
    TabbedEntries(pad, rs, Docmeta.Step(Docmeta.START, HEADER));
    TabbedLines(pad, rs);
    FoldCons(Docmeta.Step, Docmeta.START, HEADER, block);
  }

  lemma HeaderBarren()
    ensures Barren(Docmeta.Step(Docmeta.START, HEADER))
  {
    Docmeta.StepHeader(Docmeta.START);
  }

  lemma TabbedLines(pad: string, rs: seq<Relation>)
    ensures FrontLines(Listing(pad, rs)) == [HEADER] + Rendered(BlockLines(Listing(pad, rs).entries))
  {
    var block := BlockLines(Listing(pad, rs).entries);
    assert [] + block + [] == block;
    assert Rendered([]) == [];
  }

  lemma {:induction false} TabbedEntries(pad: string, rs: seq<Relation>, st: Docmeta.State)
    requires Indent(pad) && pad[0] == '\t' && Barren(st)
    requires forall i :: 0 <= i < |rs| ==> ValueOk(rs[i].kind) && ValueOk(rs[i].target)
    ensures Barren(Fold(Docmeta.Step, st, Rendered(BlockLines(Listing(pad, rs).entries))))
  {
    var es := Listing(pad, rs).entries;
    if |rs| > 0 {
      var init, last := rs[..|rs| - 1], rs[|rs| - 1];
      TabbedEntries(pad, init, st);
      assert es[..|es| - 1] == Listing(pad, init).entries && es[|es| - 1] == TypedLines(pad, last);
      var before := Fold(Docmeta.Step, st, Rendered(BlockLines(es[..|es| - 1])));
      TabbedEntry(pad, last, before);
      FoldBlockLines(Docmeta.Step, st, es, before,
                     Fold(Docmeta.Step, before, Rendered(EntryLines(TypedLines(pad, last)))));
    }
  }

  /** The tabbed lines become fields named `- type` and `target`. */
  lemma TabbedEntry(pad: string, r: Relation, st: Docmeta.State)
    requires Indent(pad) && pad[0] == '\t' && Barren(st) && ValueOk(r.kind) && ValueOk(r.target)
    ensures Barren(Fold(Docmeta.Step, st, Rendered(EntryLines(TypedLines(pad, r)))))
  {
    var a, b := pad + Pair("- type", r.kind), (pad + "  ") + Pair("target", r.target);
    var st1 := Docmeta.Step(st, a);
    TabbedNames();
    TabbedStep(st, pad, "- type", r.kind);
    TabbedStep(st1, pad + "  ", "target", r.target);
    EntryText(pad, r);
    FoldCons(Docmeta.Step, st, a, [b]);
    FoldOne(Docmeta.Step, st1, b);
  }

  lemma EntryText(pad: string, r: Relation)
    ensures Rendered(EntryLines(TypedLines(pad, r))) ==
            [pad + Pair("- type", r.kind)] + [(pad + "  ") + Pair("target", r.target)]
  {
    assert "- " + Pair("type", r.kind) == Pair("- type", r.kind);
  }

  /** A name that the second reader stores as a plain field. */
  predicate FieldName(name: string)
  {
    && name != "" && Trimmed(name) && ':' !in name && name[0] != '#'
    && name != Docmeta.RELATIONS && name !in Docmeta.LIST_FIELDS
  }

  lemma TabbedNames()
    ensures FieldName("- type") && FieldName("target")
  {
    assert forall x :: x in Docmeta.LIST_FIELDS ==> |x| != 6;
  }

  /** To the second reader a tabbed line is a field. */
  lemma TabbedStep(st: Docmeta.State, pad: string, name: string, value: string)
    requires Pad(pad) && pad != "" && pad[0] == '\t' && Trimmed(value)
    requires FieldName(name)
    ensures Docmeta.Step(st, pad + Pair(name, value)) ==
            Docmeta.State(Docmeta.Flush(st).data[name := Docmeta.FieldValue(value)], None, Docmeta.Flush(st).entry)
  {
    var line := pad + Pair(name, value);
    TabbedText(pad, name, value);
    TabbedCut(pad, name, value);
    Docmeta.StepUnspaced(st, line);
  }

  lemma TabbedText(pad: string, name: string, value: string)
    requires Pad(pad) && pad != "" && pad[0] == '\t' && name != "" && Trimmed(name) && name[0] != '#' && Trimmed(value)
    ensures var line := pad + Pair(name, value); !Skipped(line) && !StartsWith(line, " ")
  {
    PadIsSpace(pad);
    NameTrimmed(name, value);
    StripPadded(pad, Pair(name, value));
    assert (pad + Pair(name, value))[0] == '\t';
  }

  lemma TabbedCut(pad: string, name: string, value: string)
    requires Pad(pad) && name != "" && Trimmed(name) && ':' !in name && Trimmed(value)
    ensures ReadsAs(pad + Pair(name, value), name, value)
  {
    var rest := if value == "" then "" else " " + value;
    PadIsSpace(pad);
    assert pad + Pair(name, value) == (pad + name) + [':'] + rest;
    CutAt(pad + name, rest, ':');
    StripPadded(pad, name);
    if value != "" {
      StripPadded(" ", value);
    }
  }

  lemma NameTrimmed(name: string, value: string)
    requires name != "" && Trimmed(name) && Trimmed(value)
    ensures Trimmed(Pair(name, value)) && Pair(name, value)[0] == name[0]
  {
  }
}
