/** The streaming audit of edge references: `load_jsonl_nodes`, `iter_jsonl_edges`,
    `classify_edge_side`, `append_finding` and `evaluate_audit_data`. */
module ReferenceAudit {
  import opened Options
  import opened Ordering

  /** What `dict.get` yields: None (also for an absent key), a string, or another JSON value. */
  datatype Value = Nothing | Text(s: string) | Other(typeName: string)

  /** Where a record was read. */
  datatype Position = Line(n: nat) | Row(n: nat) | Unknown

  datatype Edge = Edge(id: Value, sourceId: Value, targetId: Value, sourceType: Value, targetType: Value,
                       position: Position)

  /** Uninterpreted parts: whitespace, the SHA-256 references, the plain-hint regex and decimal printing. */
  datatype Config = Config(
    isSpace: char -> bool,
    hashRef: (string, string) -> string,
    plainHint: string -> bool,
    decimal: nat -> string,
    showIds: bool)

  /** `s.strip() == ""` */
  predicate Blank(cfg: Config, s: string)
  {
    forall ch :: ch in s ==> cfg.isSpace(ch)
  }

  /** `is_non_empty_string` */
  predicate NonEmptyString(cfg: Config, v: Value)
  {
    v.Text? && !Blank(cfg, v.s)
  }

  // ---------------------------------------------------------------- classification

  datatype Class =
    | TypedNode | TypedNodeMissing | TypedNonNode | TypedUnknown | UntypedExisting | UntypedMissing | Malformed

  function ClassName(c: Class): string
  {
    match c
    case TypedNode => "typed_node_reference"
    case TypedNodeMissing => "typed_node_missing_reference"
    case TypedNonNode => "typed_non_node_reference"
    case TypedUnknown => "typed_unknown_reference"
    case UntypedExisting => "untyped_existing_node_reference"
    case UntypedMissing => "untyped_missing_reference"
    case Malformed => "malformed_edge"
  }

  datatype Finding = Finding(edgeRef: string, side: string, targetRef: Option<string>,
                             typeHint: Option<string>, typeHintType: Option<string>, kind: Class)

  function HashRef(cfg: Config, ref: string, prefix: string): string
  {
    if ref == "" then "" else cfg.hashRef(prefix, ref)
  }

  /** `safe_type_hint_for_finding` on a hint that is neither blank nor absent. */
  function SafeHint(cfg: Config, hint: Value): (Option<string>, Option<string>)
  {
    match hint
    case Nothing => (None, None)
    case Text(s) =>
      if s in {"node", "account", "role"} || (|s| <= 64 && cfg.plainHint(s)) then (Some(s), Some("str"))
      else (Some(HashRef(cfg, s, "type_hint")), Some("str"))
    case Other(t) => (Some("<" + t + ">"), Some(t))
  }

  /** The class of one side: its hint, blank hints ignored, and whether the id is known. */
  function SideClass(cfg: Config, nodeIds: set<string>, target: string, hint: Value): Class
  {
    if hint.Nothing? || (hint.Text? && Blank(cfg, hint.s)) then
      if target in nodeIds then UntypedExisting else UntypedMissing
    else if hint == Text("node") then
      if target in nodeIds then TypedNode else TypedNodeMissing
    else if hint == Text("account") || hint == Text("role") then TypedNonNode
    else TypedUnknown
  }

  function SideFinding(cfg: Config, nodeIds: set<string>, edgeRef: string, side: string, target: string, hint: Value): Option<Finding>
  {
    var kind := SideClass(cfg, nodeIds, target, hint);
    var targetRef := Some(if cfg.showIds then target else HashRef(cfg, target, "ref"));
    match kind
    case TypedNode => None
    case UntypedExisting => None
    case TypedNodeMissing => Some(Finding(edgeRef, side, targetRef, Some("node"), None, kind))
    case TypedNonNode => Some(Finding(edgeRef, side, targetRef, if hint.Text? then Some(hint.s) else None, None, kind))
    case TypedUnknown =>
      Some(Finding(edgeRef, side, targetRef, SafeHint(cfg, hint).0, SafeHint(cfg, hint).1, kind))
    case _ => Some(Finding(edgeRef, side, targetRef, None, None, kind))
  }

  predicate IsMissing(c: Class)
  {
    c == TypedNodeMissing || c == UntypedMissing
  }

  /** All three ids are usable strings. */
  predicate Auditable(cfg: Config, e: Edge)
  {
    NonEmptyString(cfg, e.id) && NonEmptyString(cfg, e.sourceId) && NonEmptyString(cfg, e.targetId)
  }

  /** The two classes of an auditable edge. */
  function EdgeClasses(cfg: Config, nodeIds: set<string>, e: Edge): seq<Class>
  {
    if Auditable(cfg, e)
    then [SideClass(cfg, nodeIds, e.sourceId.s, e.sourceType), SideClass(cfg, nodeIds, e.targetId.s, e.targetType)]
    else []
  }

  function MalformedRef(cfg: Config, p: Position): string
  {
    match p
    case Line(n) => HashRef(cfg, "line:" + cfg.decimal(n), "edge")
    case Row(n) => HashRef(cfg, "row:" + cfg.decimal(n), "edge")
    case Unknown => HashRef(cfg, "unknown", "edge")
  }

  function OptionSeq<T>(o: Option<T>): seq<T>
  {
    match o case Some(x) => [x] case None => []
  }

  /** The findings an edge produces, in order. */
  function EdgeFindings(cfg: Config, nodeIds: set<string>, e: Edge): seq<Finding>
  {
    if Auditable(cfg, e) then
      var edgeRef := EdgeRef(cfg, e.id.s);
      OptionSeq(SideFinding(cfg, nodeIds, edgeRef, "source", e.sourceId.s, e.sourceType)) +
      OptionSeq(SideFinding(cfg, nodeIds, edgeRef, "target", e.targetId.s, e.targetType))
    else [Finding(MalformedRef(cfg, e.position), "unknown", None, None, None, Malformed)]
  }

  function AllClasses(cfg: Config, nodeIds: set<string>, es: seq<Edge>): seq<Class>
  {
    if |es| == 0 then []
    else AllClasses(cfg, nodeIds, es[..|es| - 1]) + EdgeClasses(cfg, nodeIds, es[|es| - 1])
  }

  function AllFindings(cfg: Config, nodeIds: set<string>, es: seq<Edge>): seq<Finding>
  {
    if |es| == 0 then []
    else AllFindings(cfg, nodeIds, es[..|es| - 1]) + EdgeFindings(cfg, nodeIds, es[|es| - 1])
  }

  // ---------------------------------------------------------------- the bounded list

  /** `str(finding.get("target_ref", ""))` */
  function TargetText(f: Finding): string
  {
    match f.targetRef case Some(s) => s case None => "None"
  }

  /** `finding_sort_key`, compared as a tuple. */
  predicate KeyLe(a: Finding, b: Finding)
  {
    if ClassName(a.kind) != ClassName(b.kind) then LexLe(ClassName(a.kind), ClassName(b.kind))
    else if a.side != b.side then LexLe(a.side, b.side)
    else if a.edgeRef != b.edgeRef then LexLe(a.edgeRef, b.edgeRef)
    else LexLe(TargetText(a), TargetText(b))
  }

  predicate Tuple4Le(a: (string, string, string, string), b: (string, string, string, string))
  {
    if a.0 != b.0 then LexLe(a.0, b.0)
    else if a.1 != b.1 then LexLe(a.1, b.1)
    else if a.2 != b.2 then LexLe(a.2, b.2)
    else LexLe(a.3, b.3)
  }

  lemma LexStep(a: string, b: string, c: string)
    requires LexLe(a, b) && LexLe(b, c)
    ensures LexLe(a, c) && (a == c ==> a == b && b == c)
  {
    LexTransitive(a, b, c);
    if a == c { LexAntisymmetric(a, b); }
  }

  lemma Tuple4Transitive(a: (string, string, string, string), b: (string, string, string, string), c: (string, string, string, string))
    requires Tuple4Le(a, b) && Tuple4Le(b, c)
    ensures Tuple4Le(a, c)
  {
    LexTotal(a.0, a.0); LexTotal(b.0, b.0); LexTotal(c.0, c.0);
    LexTotal(a.1, a.1); LexTotal(b.1, b.1); LexTotal(c.1, c.1);
    LexTotal(a.2, a.2); LexTotal(b.2, b.2); LexTotal(c.2, c.2);
    LexStep(a.0, b.0, c.0);
    if a.0 == c.0 {
      LexStep(a.1, b.1, c.1);
      if a.1 == c.1 {
        LexStep(a.2, b.2, c.2);
        if a.2 == c.2 {
          LexStep(a.3, b.3, c.3);
        }
      }
    }
  }

  function Key(f: Finding): (string, string, string, string)
  {
    (ClassName(f.kind), f.side, f.edgeRef, TargetText(f))
  }

  lemma KeyLeIsTotalPreorder()
    ensures TotalPreorder(KeyLe)
  {
    forall a: Finding, b: Finding ensures KeyLe(a, b) || KeyLe(b, a) {
      LexTotal(Key(a).0, Key(b).0);
      LexTotal(Key(a).1, Key(b).1);
      LexTotal(Key(a).2, Key(b).2);
      LexTotal(Key(a).3, Key(b).3);
    }
    forall a: Finding, b: Finding, c: Finding | KeyLe(a, b) && KeyLe(b, c) ensures KeyLe(a, c) {
      assert Tuple4Le(Key(a), Key(b)) && Tuple4Le(Key(b), Key(c));
      Tuple4Transitive(Key(a), Key(b), Key(c));
    }
  }

  /** The first k elements, or all of them. */
  function First(fs: seq<Finding>, k: nat): seq<Finding>
  {
    if |fs| <= k then fs else fs[..k]
  }

  /** The state the stream must be in after the findings fs: everything when unlimited, else the
      first k of the stable sort. */
  function Kept(fs: seq<Finding>, limit: int): seq<Finding>
    requires limit >= -1
  {
    if limit == -1 then fs else First(StableSort(KeyLe, fs), limit)
  }

  lemma KeptIsSorted(fs: seq<Finding>, k: nat)
    ensures TotalPreorder(KeyLe) && Sorted(KeyLe, StableSort(KeyLe, fs))
    ensures StableSort(KeyLe, Kept(fs, k)) == Kept(fs, k)
  {
    KeyLeIsTotalPreorder();
    StableSortSorted(KeyLe, fs);
    SortOfSorted(KeyLe, Kept(fs, k));
  }

  lemma SortedPrefixAppend(fs: seq<Finding>, x: Finding, k: nat)
    ensures First(StableSort(KeyLe, Kept(fs, k) + [x]), k) == Kept(fs + [x], k)
    ensures |StableSort(KeyLe, Kept(fs, k) + [x])| == |Kept(fs, k)| + 1
  {
    var kept := Kept(fs, k);
    KeptIsSorted(fs, k);
    assert StableSort(KeyLe, kept + [x]) == Insert(KeyLe, kept, x) by {
      SortSnoc(kept, x);
    }
    assert Kept(fs + [x], k) == First(Insert(KeyLe, StableSort(KeyLe, fs), x), k) by {
      SortSnoc(fs, x);
    }
    InsertKeepsFirst(StableSort(KeyLe, fs), x, k);
  }

  lemma InsertKeepsFirst(sorted: seq<Finding>, x: Finding, k: nat)
    requires TotalPreorder(KeyLe) && Sorted(KeyLe, sorted)
    ensures First(Insert(KeyLe, First(sorted, k), x), k) == First(Insert(KeyLe, sorted, x), k)
    ensures |Insert(KeyLe, First(sorted, k), x)| == |First(sorted, k)| + 1
  {
    InsertPermutes(KeyLe, sorted, x);
    InsertPermutes(KeyLe, First(sorted, k), x);
    if |sorted| > k {
      InsertPrefix(KeyLe, sorted, k, x);
    }
  }

  lemma SortSnoc(fs: seq<Finding>, x: Finding)
    ensures StableSort(KeyLe, fs + [x]) == Insert(KeyLe, StableSort(KeyLe, fs), x)
  {
    assert (fs + [x])[..|fs|] == fs;
  }

  /** `append_finding` */
  method AppendFinding(findings: seq<Finding>, x: Finding, limit: int, ghost produced: seq<Finding>)
    returns (findings': seq<Finding>, truncated: bool)
    requires limit >= -1 && findings == Kept(produced, limit)
    ensures findings' == Kept(produced + [x], limit)
    ensures truncated == (limit >= 0 && |produced| + 1 > limit)
  {
    if limit == -1 {
      return findings + [x], false;
    }
    StableSortPermutes(KeyLe, produced);
    StableSortPermutes(KeyLe, produced + [x]);
    if limit == 0 {
      return findings, true;
    }
    SortedPrefixAppend(produced, x, limit);
    findings' := StableSort(KeyLe, findings + [x]);
    if |findings'| > limit {
      findings' := findings'[..|findings'| - 1];
      return findings', true;
    }
    return findings', false;
  }

  // ---------------------------------------------------------------- counters

  function CountAuditable(cfg: Config, es: seq<Edge>): nat
  {
    if |es| == 0 then 0
    else CountAuditable(cfg, es[..|es| - 1]) + if Auditable(cfg, es[|es| - 1]) then 1 else 0
  }

  /** How many sides of the edge lack their node. */
  function MissingSides(cfg: Config, nodeIds: set<string>, e: Edge): nat
  {
    if !Auditable(cfg, e) then 0
    else
      (if IsMissing(SideClass(cfg, nodeIds, e.sourceId.s, e.sourceType)) then 1 else 0) +
      (if IsMissing(SideClass(cfg, nodeIds, e.targetId.s, e.targetType)) then 1 else 0)
  }

  /** Edges with at least `least` sides that lack their node. */
  function CountMissing(cfg: Config, nodeIds: set<string>, es: seq<Edge>, least: nat): nat
  {
    if |es| == 0 then 0
    else
      CountMissing(cfg, nodeIds, es[..|es| - 1], least) +
      if MissingSides(cfg, nodeIds, es[|es| - 1]) >= least then 1 else 0
  }

  datatype NodeSummary = NodeSummary(records: nat, ids: nat, duplicates: nat, invalidJson: nat, nonObject: nat,
                                     missingId: nat, nonStringId: nat, emptyId: nat)

  datatype EdgeSummary = EdgeSummary(records: nat, invalidJson: nat, nonObject: nat)

  /** The counters of `evaluate_audit_data`; `sides` holds the six classification counters. */
  datatype Summary = Summary(auditable: nat, malformed: nat, sides: multiset<Class>, anyMissing: nat, bothMissing: nat)

  datatype Signals = Signals(strictNodeFkReady: bool, looseReferenceSemantics: bool, requiresPolicyDecision: bool,
                             requiresCleanup: bool, requiresRuntimeDataRun: bool, runtimeObserved: bool,
                             backfillRecommended: bool, fkCompatibleSides: nat)

  /** The counters say what they are named after. */
  ghost predicate Counts(cfg: Config, nodeIds: set<string>, es: seq<Edge>, s: Summary)
  {
    && s.auditable == CountAuditable(cfg, es)
    && s.malformed == |es| - CountAuditable(cfg, es)
    && s.sides == multiset(AllClasses(cfg, nodeIds, es))
    && s.anyMissing == CountMissing(cfg, nodeIds, es, 1)
    && s.bothMissing == CountMissing(cfg, nodeIds, es, 2)
  }

  /** Conservation: the six side counters sum to twice the auditable edges, every edge is
      auditable or malformed, and missing sides split into first and second ones. */
  lemma {:induction false} CountersConserve(cfg: Config, nodeIds: set<string>, es: seq<Edge>)
    ensures CountAuditable(cfg, es) <= |es|
    ensures var m := multiset(AllClasses(cfg, nodeIds, es));
            && m[Malformed] == 0
            && SumOfSix(m) == 2 * CountAuditable(cfg, es)
            && Missing(m) == CountMissing(cfg, nodeIds, es, 1) + CountMissing(cfg, nodeIds, es, 2)
  {
    if |es| > 0 {
      CountersConserve(cfg, nodeIds, es[..|es| - 1]);
      OneEdgeConserves(cfg, nodeIds, es[|es| - 1]);
    }
  }

  /** The side carries no hint, or only a blank one. */
  predicate Unhinted(cfg: Config, hint: Value)
  {
    hint.Nothing? || (hint.Text? && Blank(cfg, hint.s))
  }

  /** Which sides belong to a class, in terms of their hint and of the known ids. */
  predicate Belongs(cfg: Config, nodeIds: set<string>, target: string, hint: Value, c: Class)
  {
    match c
    case UntypedExisting => Unhinted(cfg, hint) && target in nodeIds
    case UntypedMissing => Unhinted(cfg, hint) && target !in nodeIds
    case TypedNode => !Unhinted(cfg, hint) && hint == Text("node") && target in nodeIds
    case TypedNodeMissing => !Unhinted(cfg, hint) && hint == Text("node") && target !in nodeIds
    case TypedNonNode => !Unhinted(cfg, hint) && hint in {Text("account"), Text("role")}
    case TypedUnknown => !Unhinted(cfg, hint) && hint !in {Text("node"), Text("account"), Text("role")}
    case Malformed => false
  }

  /** How many sides of the auditable edges belong to a class. */
  function SidesIn(cfg: Config, nodeIds: set<string>, es: seq<Edge>, c: Class): nat
  {
    if |es| == 0 then 0
    else
      var e := es[|es| - 1];
      SidesIn(cfg, nodeIds, es[..|es| - 1], c) +
      (if Auditable(cfg, e) && Belongs(cfg, nodeIds, e.sourceId.s, e.sourceType, c) then 1 else 0) +
      (if Auditable(cfg, e) && Belongs(cfg, nodeIds, e.targetId.s, e.targetType, c) then 1 else 0)
  }

  /** Each of the six counters counts exactly the sides of its class. */
  lemma {:induction false} CountersMeaning(cfg: Config, nodeIds: set<string>, es: seq<Edge>, c: Class)
    ensures multiset(AllClasses(cfg, nodeIds, es))[c] == SidesIn(cfg, nodeIds, es, c)
  {
    if |es| > 0 {
      var init, e := es[..|es| - 1], es[|es| - 1];
      CountersMeaning(cfg, nodeIds, init, c);
      if Auditable(cfg, e) {
        EdgeClassesSplit(cfg, nodeIds, e);
        SideBelongs(cfg, nodeIds, e.sourceId.s, e.sourceType, c);
        SideBelongs(cfg, nodeIds, e.targetId.s, e.targetType, c);
      }
    }
  }

  lemma SideBelongs(cfg: Config, nodeIds: set<string>, target: string, hint: Value, c: Class)
    ensures SideClass(cfg, nodeIds, target, hint) == c <==> Belongs(cfg, nodeIds, target, hint, c)
  {
  }

  function SumOfSix(m: multiset<Class>): nat
  {
    m[TypedNode] + m[TypedNodeMissing] + m[TypedNonNode] + m[TypedUnknown] + m[UntypedExisting] + m[UntypedMissing]
  }

  function Missing(m: multiset<Class>): nat
  {
    m[TypedNodeMissing] + m[UntypedMissing]
  }

  lemma OneSide(c: Class)
    requires c != Malformed
    ensures SumOfSix(multiset{c}) == 1 && Missing(multiset{c}) == (if IsMissing(c) then 1 else 0)
  {
  }

  lemma OneEdgeConserves(cfg: Config, nodeIds: set<string>, e: Edge)
    ensures var m := multiset(EdgeClasses(cfg, nodeIds, e));
            && m[Malformed] == 0
            && SumOfSix(m) == (if Auditable(cfg, e) then 2 else 0)
            && Missing(m) == MissingSides(cfg, nodeIds, e)
  {
    if Auditable(cfg, e) {
      EdgeClassesSplit(cfg, nodeIds, e);
      OneSide(SideClass(cfg, nodeIds, e.sourceId.s, e.sourceType));
      OneSide(SideClass(cfg, nodeIds, e.targetId.s, e.targetType));
    }
  }

  /** Whether a side may back a strict foreign key: a known node, hinted as node or not at all. */
  predicate NodeSide(cfg: Config, nodeIds: set<string>, target: string, hint: Value)
  {
    && target in nodeIds
    && (hint.Nothing? || (hint.Text? && (Blank(cfg, hint.s) || hint.s == "node")))
  }

  predicate CleanEdge(cfg: Config, nodeIds: set<string>, e: Edge)
  {
    && Auditable(cfg, e)
    && NodeSide(cfg, nodeIds, e.sourceId.s, e.sourceType)
    && NodeSide(cfg, nodeIds, e.targetId.s, e.targetType)
  }

  /** No counter of a class that rules out a strict foreign key is above zero. */
  predicate NoBadSides(m: multiset<Class>)
  {
    m[TypedNodeMissing] == 0 && m[TypedNonNode] == 0 && m[TypedUnknown] == 0 && m[UntypedMissing] == 0
  }

  lemma NoBadSidesAdd(m: multiset<Class>, n: multiset<Class>)
    ensures NoBadSides(m + n) <==> NoBadSides(m) && NoBadSides(n)
  {
  }

  lemma OneSideDetect(cfg: Config, nodeIds: set<string>, target: string, hint: Value)
    ensures NoBadSides(multiset{SideClass(cfg, nodeIds, target, hint)}) <==> NodeSide(cfg, nodeIds, target, hint)
  {
  }

  lemma OneEdgeDetect(cfg: Config, nodeIds: set<string>, e: Edge)
    ensures Auditable(cfg, e) && NoBadSides(multiset(EdgeClasses(cfg, nodeIds, e))) <==> CleanEdge(cfg, nodeIds, e)
  {
    if Auditable(cfg, e) {
      EdgeClassesSplit(cfg, nodeIds, e);
      var a := multiset{SideClass(cfg, nodeIds, e.sourceId.s, e.sourceType)};
      var b := multiset{SideClass(cfg, nodeIds, e.targetId.s, e.targetType)};
      NoBadSidesAdd(a, b);
      OneSideDetect(cfg, nodeIds, e.sourceId.s, e.sourceType);
      OneSideDetect(cfg, nodeIds, e.targetId.s, e.targetType);
    }
  }

  /** The counters see a bad edge exactly if there is one. */
  lemma {:induction false} CountersDetect(cfg: Config, nodeIds: set<string>, es: seq<Edge>)
    ensures CountAuditable(cfg, es) <= |es|
    ensures CountAuditable(cfg, es) == |es| && NoBadSides(multiset(AllClasses(cfg, nodeIds, es))) <==>
            forall e :: e in es ==> CleanEdge(cfg, nodeIds, e)
  {
    if |es| > 0 {
      var init, last := es[..|es| - 1], es[|es| - 1];
      CountersDetect(cfg, nodeIds, init);
      OneEdgeDetect(cfg, nodeIds, last);
      NoBadSidesAdd(multiset(AllClasses(cfg, nodeIds, init)), multiset(EdgeClasses(cfg, nodeIds, last)));
      AllCleanSplit(cfg, nodeIds, es);
    }
  }

  lemma AllCleanSplit(cfg: Config, nodeIds: set<string>, es: seq<Edge>)
    requires |es| > 0
    ensures (forall e :: e in es ==> CleanEdge(cfg, nodeIds, e)) <==>
            (forall e :: e in es[..|es| - 1] ==> CleanEdge(cfg, nodeIds, e)) && CleanEdge(cfg, nodeIds, es[|es| - 1])
  {
    var init, last := es[..|es| - 1], es[|es| - 1];
    assert es == init + [last];
    assert forall e :: e in es <==> e in init || e == last;
  }

  /** The counters after one more edge. */
  lemma CountsStep(cfg: Config, nodeIds: set<string>, es: seq<Edge>, e: Edge, s: Summary, s': Summary)
    requires Counts(cfg, nodeIds, es, s)
    requires s'.auditable == s.auditable + if Auditable(cfg, e) then 1 else 0
    requires s'.malformed == s.malformed + if Auditable(cfg, e) then 0 else 1
    requires s'.sides == s.sides + multiset(EdgeClasses(cfg, nodeIds, e))
    requires s'.anyMissing == s.anyMissing + if MissingSides(cfg, nodeIds, e) > 0 then 1 else 0
    requires s'.bothMissing == s.bothMissing + if MissingSides(cfg, nodeIds, e) == 2 then 1 else 0
    ensures Counts(cfg, nodeIds, es + [e], s')
  {
    assert (es + [e])[..|es|] == es;
  }

  /** The findings kept so far, and whether any was dropped. */
  ghost predicate Streamed(produced: seq<Finding>, limit: int, findings: seq<Finding>, truncated: bool)
    requires limit >= -1
  {
    findings == Kept(produced, limit) && truncated == (limit >= 0 && |produced| > limit)
  }

  /** `if finding: if append_finding(...): findings_truncated = True` */
  method Stream(findings: seq<Finding>, truncated: bool, finding: Option<Finding>, limit: int, ghost produced: seq<Finding>)
    returns (findings': seq<Finding>, truncated': bool)
    requires limit >= -1 && Streamed(produced, limit, findings, truncated)
    ensures Streamed(produced + OptionSeq(finding), limit, findings', truncated')
  {
    findings', truncated' := findings, truncated;
    match finding
    case None => assert produced + OptionSeq(finding) == produced;
    case Some(f) =>
      var cut;
      findings', cut := AppendFinding(findings, f, limit, produced);
      truncated' := truncated || cut;
  }

  /** One side of an auditable edge: classify, count, report. */
  method EvaluateSide(cfg: Config, nodeIds: set<string>, edgeRef: string, side: string, target: string, hint: Value,
                      s: Summary, missing: nat, findings: seq<Finding>, truncated: bool, limit: int,
                      ghost produced: seq<Finding>)
    returns (s': Summary, missing': nat, findings': seq<Finding>, truncated': bool)
    requires limit >= -1 && Streamed(produced, limit, findings, truncated)
    ensures s' == s.(sides := s.sides + multiset{SideClass(cfg, nodeIds, target, hint)})
    ensures missing' == missing + if IsMissing(SideClass(cfg, nodeIds, target, hint)) then 1 else 0
    ensures Streamed(produced + OptionSeq(SideFinding(cfg, nodeIds, edgeRef, side, target, hint)), limit,
                     findings', truncated')
  {
    var kind := SideClass(cfg, nodeIds, target, hint);
    var finding := SideFinding(cfg, nodeIds, edgeRef, side, target, hint);
    missing' := missing;
    if IsMissing(kind) {
      missing' := missing + 1;
    }
    s' := s.(sides := s.sides + multiset{kind});
    findings', truncated' := Stream(findings, truncated, finding, limit, produced);
  }

  function EdgeRef(cfg: Config, id: string): string
  {
    if cfg.showIds then id else HashRef(cfg, id, "edge")
  }

  lemma EdgeFindingsSplit(cfg: Config, nodeIds: set<string>, seen: seq<Edge>, e: Edge)
    requires Auditable(cfg, e)
    ensures AllFindings(cfg, nodeIds, seen + [e]) ==
            AllFindings(cfg, nodeIds, seen)
            + OptionSeq(SideFinding(cfg, nodeIds, EdgeRef(cfg, e.id.s), "source", e.sourceId.s, e.sourceType))
            + OptionSeq(SideFinding(cfg, nodeIds, EdgeRef(cfg, e.id.s), "target", e.targetId.s, e.targetType))
  {
    assert (seen + [e])[..|seen|] == seen;
  }

  lemma EdgeClassesSplit(cfg: Config, nodeIds: set<string>, e: Edge)
    requires Auditable(cfg, e)
    ensures multiset(EdgeClasses(cfg, nodeIds, e)) ==
            multiset{SideClass(cfg, nodeIds, e.sourceId.s, e.sourceType)} +
            multiset{SideClass(cfg, nodeIds, e.targetId.s, e.targetType)}
  {
  }

  /** A malformed edge. */
  method EvaluateMalformed(cfg: Config, ghost nodeIds: set<string>, e: Edge, s: Summary, findings: seq<Finding>,
                           truncated: bool, limit: int, ghost seen: seq<Edge>)
    returns (s': Summary, findings': seq<Finding>, truncated': bool)
    requires limit >= -1 && Counts(cfg, nodeIds, seen, s) && !Auditable(cfg, e)
    requires Streamed(AllFindings(cfg, nodeIds, seen), limit, findings, truncated)
    ensures Counts(cfg, nodeIds, seen + [e], s')
    ensures Streamed(AllFindings(cfg, nodeIds, seen + [e]), limit, findings', truncated')
  {
    s' := s.(malformed := s.malformed + 1);
    var finding := Finding(MalformedRef(cfg, e.position), "unknown", None, None, None, Malformed);
    findings', truncated' := Stream(findings, truncated, Some(finding), limit, AllFindings(cfg, nodeIds, seen));
    assert (seen + [e])[..|seen|] == seen;
    CountsStep(cfg, nodeIds, seen, e, s, s');
  }

  /** One edge of the `for edge in edges` loop. */
  method EvaluateEdge(cfg: Config, nodeIds: set<string>, e: Edge, s: Summary, findings: seq<Finding>, truncated: bool,
                      limit: int, ghost seen: seq<Edge>)
    returns (s': Summary, findings': seq<Finding>, truncated': bool)
    requires limit >= -1 && Counts(cfg, nodeIds, seen, s)
    requires Streamed(AllFindings(cfg, nodeIds, seen), limit, findings, truncated)
    ensures Counts(cfg, nodeIds, seen + [e], s')
    ensures Streamed(AllFindings(cfg, nodeIds, seen + [e]), limit, findings', truncated')
  {
    if !Auditable(cfg, e) {
      s', findings', truncated' := EvaluateMalformed(cfg, nodeIds, e, s, findings, truncated, limit, seen);
      return;
    }
    ghost var fs := AllFindings(cfg, nodeIds, seen);
    var edgeRef, missing := EdgeRef(cfg, e.id.s), 0;
    s' := s.(auditable := s.auditable + 1);
    s', missing, findings', truncated' := EvaluateSide(cfg, nodeIds, edgeRef, "source", e.sourceId.s, e.sourceType,
                                                       s', missing, findings, truncated, limit, fs);
    ghost var first := SideFinding(cfg, nodeIds, edgeRef, "source", e.sourceId.s, e.sourceType);
    s', missing, findings', truncated' := EvaluateSide(cfg, nodeIds, edgeRef, "target", e.targetId.s, e.targetType,
                                                       s', missing, findings', truncated', limit, fs + OptionSeq(first));
    EdgeFindingsSplit(cfg, nodeIds, seen, e);
    if missing > 0 {
      s' := s'.(anyMissing := s'.anyMissing + 1);
    }
    if missing == 2 {
      s' := s'.(bothMissing := s'.bothMissing + 1);
    }
    EdgeClassesSplit(cfg, nodeIds, e);
    CountsStep(cfg, nodeIds, seen, e, s, s');
  }

  predicate NodesClean(n: NodeSummary)
  {
    CleanSummary(n) && n.duplicates == 0
  }

  /** The policy signals derived from the finished counters. */
  method DeriveSignals(s: Summary, nodes: NodeSummary, records: EdgeSummary, runtime: bool) returns (signals: Signals)
    ensures signals.strictNodeFkReady <==>
            && runtime && s.auditable > 0 && s.malformed == 0 && NoBadSides(s.sides)
            && records.invalidJson == 0 && records.nonObject == 0 && NodesClean(nodes)
    ensures signals.strictNodeFkReady ==> !signals.requiresCleanup && !signals.requiresPolicyDecision
    ensures signals.runtimeObserved == (runtime && s.auditable > 0) == !signals.requiresRuntimeDataRun
    ensures signals.requiresCleanup ==
            !(NodesClean(nodes) && s.malformed == 0 && records.invalidJson == 0 && records.nonObject == 0 &&
              s.sides[TypedNodeMissing] + s.sides[UntypedMissing] == 0)
    ensures signals.requiresPolicyDecision == !NoBadSides(s.sides)
    ensures signals.looseReferenceSemantics == (s.sides[TypedNonNode] > 0)
    ensures signals.backfillRecommended == (s.sides[UntypedExisting] > 0)
    ensures signals.fkCompatibleSides <= SumOfSix(s.sides) &&
            (signals.requiresPolicyDecision <==> signals.fkCompatibleSides < SumOfSix(s.sides))
  {
    var runtimeObserved := runtime && s.auditable > 0;
    var nodesDirty := nodes.invalidJson > 0 || nodes.nonObject > 0 || nodes.missingId > 0 || nodes.nonStringId > 0 ||
                      nodes.emptyId > 0 || nodes.duplicates > 0;
    var recordsDirty := s.malformed > 0 || records.invalidJson > 0 || records.nonObject > 0;
    signals := Signals(
      runtimeObserved && !nodesDirty && !recordsDirty && s.sides[TypedNodeMissing] == 0 &&
        s.sides[TypedNonNode] == 0 && s.sides[TypedUnknown] == 0 && s.sides[UntypedMissing] == 0,
      s.sides[TypedNonNode] > 0,
      s.sides[TypedNonNode] > 0 || s.sides[TypedUnknown] > 0 || s.sides[UntypedMissing] > 0 ||
        s.sides[TypedNodeMissing] > 0,
      nodesDirty || recordsDirty || s.sides[TypedNodeMissing] > 0 || s.sides[UntypedMissing] > 0,
      !runtimeObserved,
      runtimeObserved,
      s.sides[UntypedExisting] > 0,
      s.sides[TypedNode] + s.sides[UntypedExisting]);
  }

  /** The loop over the edges. */
  method StreamEdges(cfg: Config, nodeIds: set<string>, edges: seq<Edge>, limit: int)
    returns (s: Summary, findings: seq<Finding>, truncated: bool)
    requires limit >= -1
    ensures Counts(cfg, nodeIds, edges, s)
    ensures Streamed(AllFindings(cfg, nodeIds, edges), limit, findings, truncated)
  {
    s := Summary(0, 0, multiset{}, 0, 0);
    findings, truncated := [], false;
    ghost var done: seq<Edge> := [];
    for i := 0 to |edges|
      invariant done == edges[..i] && Counts(cfg, nodeIds, done, s)
      invariant Streamed(AllFindings(cfg, nodeIds, done), limit, findings, truncated)
    {
      s, findings, truncated := EvaluateEdge(cfg, nodeIds, edges[i], s, findings, truncated, limit, done);
      done := done + [edges[i]];
    }
    assert done == edges;
  }

  /** `evaluate_audit_data`: counters, bounded findings and policy signals. */
  method EvaluateAudit(cfg: Config, nodeIds: set<string>, edges: seq<Edge>, runtime: bool, nodes: NodeSummary,
                       records: EdgeSummary, limit: int)
    returns (s: Summary, findings: seq<Finding>, truncated: bool, signals: Signals)
    requires limit >= -1
    ensures Counts(cfg, nodeIds, edges, s)
    ensures var all := StableSort(KeyLe, AllFindings(cfg, nodeIds, edges));
            findings == if limit == -1 || |all| <= limit then all else all[..limit]
    ensures truncated == (limit >= 0 && |AllFindings(cfg, nodeIds, edges)| > limit)
    ensures signals.strictNodeFkReady <==>
            && runtime && edges != [] && (forall e :: e in edges ==> CleanEdge(cfg, nodeIds, e))
            && records.invalidJson == 0 && records.nonObject == 0 && NodesClean(nodes)
    ensures signals.strictNodeFkReady ==> !signals.requiresCleanup && !signals.requiresPolicyDecision
    ensures signals.runtimeObserved <==> runtime && exists e :: e in edges && Auditable(cfg, e)
    ensures signals.fkCompatibleSides <= 2 * s.auditable &&
            (signals.requiresPolicyDecision <==> signals.fkCompatibleSides < 2 * s.auditable)
  {
    s, findings, truncated := StreamEdges(cfg, nodeIds, edges, limit);
    signals := DeriveSignals(s, nodes, records, runtime);
    CountersConserve(cfg, nodeIds, edges);
    CountsMean(cfg, nodeIds, edges, s);
    KeptSorted(AllFindings(cfg, nodeIds, edges), limit);
    findings := StableSort(KeyLe, findings);
  }

  /** What the counters say about the edges. */
  lemma CountsMean(cfg: Config, nodeIds: set<string>, edges: seq<Edge>, s: Summary)
    requires Counts(cfg, nodeIds, edges, s)
    ensures s.auditable > 0 <==> exists e :: e in edges && Auditable(cfg, e)
    ensures s.auditable > 0 && s.malformed == 0 && NoBadSides(s.sides) <==>
            edges != [] && forall e :: e in edges ==> CleanEdge(cfg, nodeIds, e)
  {
    CountersDetect(cfg, nodeIds, edges);
    SomeAuditable(cfg, edges);
  }

  lemma {:induction false} SomeAuditable(cfg: Config, es: seq<Edge>)
    ensures CountAuditable(cfg, es) > 0 <==> exists e :: e in es && Auditable(cfg, e)
  {
    if |es| > 0 {
      var init, last := es[..|es| - 1], es[|es| - 1];
      SomeAuditable(cfg, init);
      assert es == init + [last];
      assert forall e :: e in es <==> e in init || e == last;
    }
  }

  /** The final sort turns the kept findings into the first ones of the full stable sort. */
  lemma KeptSorted(fs: seq<Finding>, limit: int)
    requires limit >= -1
    ensures var all := StableSort(KeyLe, fs);
            StableSort(KeyLe, Kept(fs, limit)) == (if limit == -1 || |all| <= limit then all else all[..limit]) &&
            |all| == |fs|
  {
    KeyLeIsTotalPreorder();
    StableSortSorted(KeyLe, fs);
    StableSortPermutes(KeyLe, fs);
    if limit >= 0 {
      SortOfSorted(KeyLe, Kept(fs, limit));
    }
  }

  // ---------------------------------------------------------------- loaders

  /** A line of the edges file. */
  datatype EdgeLine = BlankEdgeLine | BadEdgeJson | NonObjectEdge | EdgeRecord(edge: Edge)

  /** The edges the loader yields, numbered by line. */
  function EdgesOf(lines: seq<EdgeLine>): seq<Edge>
  {
    if |lines| == 0 then []
    else
      var last := lines[|lines| - 1];
      EdgesOf(lines[..|lines| - 1]) + if last.EdgeRecord? then [last.edge.(position := Line(|lines|))] else []
  }

  function CountLines<T>(lines: seq<T>, P: T -> bool): (n: nat)
    ensures n == 0 <==> forall l :: l in lines ==> !P(l)
  {
    if |lines| == 0 then 0
    else
      assert lines == lines[..|lines| - 1] + [lines[|lines| - 1]];
      CountLines(lines[..|lines| - 1], P) + if P(lines[|lines| - 1]) then 1 else 0
  }

  /** `iter_jsonl_edges`, run to the end. */
  method LoadEdges(lines: seq<EdgeLine>) returns (edges: seq<Edge>, s: EdgeSummary)
    ensures edges == EdgesOf(lines)
    ensures s.invalidJson == CountLines(lines, (l: EdgeLine) => l.BadEdgeJson?)
    ensures s.nonObject == CountLines(lines, (l: EdgeLine) => l.NonObjectEdge?)
    ensures s.records == |edges| + s.invalidJson + s.nonObject
  {
    edges, s := [], EdgeSummary(0, 0, 0);
    ghost var bad, scalar := (l: EdgeLine) => l.BadEdgeJson?, (l: EdgeLine) => l.NonObjectEdge?;
    for i := 0 to |lines|
      invariant edges == EdgesOf(lines[..i])
      invariant s.invalidJson == CountLines(lines[..i], bad) && s.nonObject == CountLines(lines[..i], scalar)
      invariant s.records == |edges| + s.invalidJson + s.nonObject
    {
      assert lines[..i + 1][..i] == lines[..i];
      if !lines[i].BlankEdgeLine? {
        s := s.(records := s.records + 1);
        match lines[i]
        case BadEdgeJson => s := s.(invalidJson := s.invalidJson + 1);
        case NonObjectEdge => s := s.(nonObject := s.nonObject + 1);
        case EdgeRecord(e) => edges := edges + [e.(position := Line(i + 1))];
      }
    }
    assert lines[..|lines|] == lines;
  }

  /** A line of the nodes file. */
  datatype NodeLine = BlankNodeLine | BadNodeJson | NonObjectNode | NoNodeId | NonStringNodeId | NodeId(id: string)

  predicate Usable(cfg: Config, l: NodeLine)
  {
    l.NodeId? && !Blank(cfg, l.id)
  }

  datatype NodeKind = BlankLine | BadJson | NonObject | MissingId | NonStringId | EmptyId | UsableId

  function KindOf(cfg: Config, l: NodeLine): NodeKind
  {
    match l
    case BlankNodeLine => BlankLine
    case BadNodeJson => BadJson
    case NonObjectNode => NonObject
    case NoNodeId => MissingId
    case NonStringNodeId => NonStringId
    case NodeId(id) => if Blank(cfg, id) then EmptyId else UsableId
  }

  /** How many lines there are of each kind. */
  function Tally(cfg: Config, lines: seq<NodeLine>): multiset<NodeKind>
  {
    if |lines| == 0 then multiset{}
    else Tally(cfg, lines[..|lines| - 1]) + multiset{KindOf(cfg, lines[|lines| - 1])}
  }

  /** The usable ids, in file order, with repetitions. */
  function IdsOf(cfg: Config, lines: seq<NodeLine>): seq<string>
  {
    if |lines| == 0 then []
    else
      var last := lines[|lines| - 1];
      IdsOf(cfg, lines[..|lines| - 1]) + if Usable(cfg, last) then [last.id] else []
  }

  function NodeIds(cfg: Config, lines: seq<NodeLine>): set<string>
  {
    set x | x in IdsOf(cfg, lines)
  }

  /** Every record is a usable id. */
  predicate NodeRecordsClean(cfg: Config, lines: seq<NodeLine>)
  {
    forall l :: l in lines ==> l.BlankNodeLine? || Usable(cfg, l)
  }

  predicate CleanSummary(s: NodeSummary)
  {
    s.invalidJson == 0 && s.nonObject == 0 && s.missingId == 0 && s.nonStringId == 0 && s.emptyId == 0
  }

  /** Each counter of bad records counts the lines of its kind. */
  predicate TallyMatches(s: NodeSummary, tally: multiset<NodeKind>)
  {
    && s.invalidJson == tally[BadJson] && s.nonObject == tally[NonObject] && s.missingId == tally[MissingId]
    && s.nonStringId == tally[NonStringId] && s.emptyId == tally[EmptyId] && s.ids + s.duplicates == tally[UsableId]
  }

  /** The ids and counters after the lines read so far. */
  ghost predicate NodesLoaded(cfg: Config, lines: seq<NodeLine>, nodeIds: set<string>, s: NodeSummary)
  {
    && nodeIds == NodeIds(cfg, lines)
    && s.ids == |nodeIds| && s.ids + s.duplicates == |IdsOf(cfg, lines)|
    && (s.duplicates == 0 <==> Distinct(IdsOf(cfg, lines)))
    && (CleanSummary(s) <==> NodeRecordsClean(cfg, lines))
    && TallyMatches(s, Tally(cfg, lines))
    && s.records == s.ids + s.duplicates + s.invalidJson + s.nonObject + s.missingId + s.nonStringId + s.emptyId
  }

  lemma OneMoreLine(cfg: Config, lines: seq<NodeLine>, line: NodeLine)
    ensures IdsOf(cfg, lines + [line]) == IdsOf(cfg, lines) + if Usable(cfg, line) then [line.id] else []
    ensures !Usable(cfg, line) ==> IdsOf(cfg, lines + [line]) == IdsOf(cfg, lines)
    ensures Tally(cfg, lines + [line]) == Tally(cfg, lines) + multiset{KindOf(cfg, line)}
    ensures NodeRecordsClean(cfg, lines + [line]) <==>
            NodeRecordsClean(cfg, lines) && (line.BlankNodeLine? || Usable(cfg, line))
  {
    assert (lines + [line])[..|lines|] == lines;
    assert forall l :: l in lines + [line] <==> l in lines || l == line;
  }

  /** A record without a usable id. */
  method CountUnusable(cfg: Config, line: NodeLine, s: NodeSummary, ghost nodeIds: set<string>, ghost lines: seq<NodeLine>)
    returns (s': NodeSummary)
    requires NodesLoaded(cfg, lines, nodeIds, s) && !line.BlankNodeLine? && !Usable(cfg, line)
    ensures NodesLoaded(cfg, lines + [line], nodeIds, s'.(records := s.records + 1)) && s'.records == s.records
  {
    OneMoreLine(cfg, lines, line);
    match line
    case BadNodeJson => s' := s.(invalidJson := s.invalidJson + 1);
    case NonObjectNode => s' := s.(nonObject := s.nonObject + 1);
    case NoNodeId => s' := s.(missingId := s.missingId + 1);
    case NonStringNodeId => s' := s.(nonStringId := s.nonStringId + 1);
    case NodeId(id) => s' := s.(emptyId := s.emptyId + 1);
  }

  /** A record with a usable id: a new one or a repeated one. */
  method CountUsable(cfg: Config, id: string, nodeIds: set<string>, s: NodeSummary, ghost lines: seq<NodeLine>)
    returns (nodeIds': set<string>, s': NodeSummary)
    requires NodesLoaded(cfg, lines, nodeIds, s) && Usable(cfg, NodeId(id))
    ensures NodesLoaded(cfg, lines + [NodeId(id)], nodeIds', s'.(records := s.records + 1)) && s'.records == s.records
  {
    OneMoreLine(cfg, lines, NodeId(id));
    AppendDistinct(IdsOf(cfg, lines), id);
    assert NodeIds(cfg, lines + [NodeId(id)]) == NodeIds(cfg, lines) + {id};
    if id in nodeIds {
      return nodeIds, s.(duplicates := s.duplicates + 1);
    }
    return nodeIds + {id}, s.(ids := s.ids + 1);
  }

  /** The body of the loop of `load_jsonl_nodes`. */
  method LoadNode(cfg: Config, line: NodeLine, nodeIds: set<string>, s: NodeSummary, ghost lines: seq<NodeLine>)
    returns (nodeIds': set<string>, s': NodeSummary)
    requires NodesLoaded(cfg, lines, nodeIds, s)
    ensures NodesLoaded(cfg, lines + [line], nodeIds', s')
  {
    nodeIds', s' := nodeIds, s;
    if line.BlankNodeLine? {
      OneMoreLine(cfg, lines, line);
      return;
    }
    if line.NodeId? && !Blank(cfg, line.id) {
      nodeIds', s' := CountUsable(cfg, line.id, nodeIds, s, lines);
    } else {
      s' := CountUnusable(cfg, line, s, nodeIds, lines);
    }
    s' := s'.(records := s'.records + 1);
  }

  /** `load_jsonl_nodes` */
  method LoadNodes(cfg: Config, lines: seq<NodeLine>) returns (nodeIds: set<string>, s: NodeSummary)
    ensures NodesLoaded(cfg, lines, nodeIds, s)
  {
    nodeIds, s := {}, NodeSummary(0, 0, 0, 0, 0, 0, 0, 0);
    for i := 0 to |lines|
      invariant NodesLoaded(cfg, lines[..i], nodeIds, s)
    {
      assert lines[..i + 1] == lines[..i] + [lines[i]];
      nodeIds, s := LoadNode(cfg, lines[i], nodeIds, s, lines[..i]);
    }
    assert lines[..|lines|] == lines;
  }

  lemma AppendDistinct(ids: seq<string>, id: string)
    ensures Distinct(ids + [id]) <==> Distinct(ids) && id !in ids
  {
    var all := ids + [id];
    if Distinct(all) {
      forall i | 0 <= i < |ids| ensures ids[i] != id {
        assert all[i] == ids[i] && all[|ids|] == id;
      }
      forall i, j | 0 <= i < j < |ids| ensures ids[i] != ids[j] {
        assert all[i] == ids[i] && all[j] == ids[j];
      }
    }
  }

  // ---------------------------------------------------------------- the JSONL audit

  /** What strict readiness means for the two input files: runtime data, at least one edge, every
      node record a fresh usable id, every edge record well formed with both ends known nodes. */
  ghost predicate StrictlyReady(cfg: Config, runtime: bool, nodeLines: seq<NodeLine>, edgeLines: seq<EdgeLine>)
  {
    && runtime
    && NodeRecordsClean(cfg, nodeLines) && Distinct(IdsOf(cfg, nodeLines))
    && (exists l :: l in edgeLines && l.EdgeRecord?)
    && (forall l :: l in edgeLines && !l.BlankEdgeLine? ==>
          l.EdgeRecord? && CleanEdge(cfg, NodeIds(cfg, nodeLines), l.edge))
  }

  lemma {:induction false} EdgesOfMembers(cfg: Config, nodeIds: set<string>, lines: seq<EdgeLine>)
    ensures (forall e :: e in EdgesOf(lines) ==> CleanEdge(cfg, nodeIds, e)) <==>
            (forall l :: l in lines && l.EdgeRecord? ==> CleanEdge(cfg, nodeIds, l.edge))
    ensures EdgesOf(lines) != [] <==> exists l :: l in lines && l.EdgeRecord?
  {
    if |lines| > 0 {
      var init, last := lines[..|lines| - 1], lines[|lines| - 1];
      EdgesOfMembers(cfg, nodeIds, init);
      assert lines == init + [last];
      assert forall l :: l in lines <==> l in init || l == last;
      assert forall e :: e in EdgesOf(lines) <==>
               e in EdgesOf(init) || (last.EdgeRecord? && e == last.edge.(position := Line(|lines|)));
      if last.EdgeRecord? {
        assert CleanEdge(cfg, nodeIds, last.edge.(position := Line(|lines|))) <==> CleanEdge(cfg, nodeIds, last.edge);
      }
    }
  }

  lemma ReadyMeaning(cfg: Config, runtime: bool, nodeLines: seq<NodeLine>, edgeLines: seq<EdgeLine>)
    ensures StrictlyReady(cfg, runtime, nodeLines, edgeLines) <==>
            && runtime && EdgesOf(edgeLines) != []
            && (forall e :: e in EdgesOf(edgeLines) ==> CleanEdge(cfg, NodeIds(cfg, nodeLines), e))
            && (forall l :: l in edgeLines ==> !l.BadEdgeJson?) && (forall l :: l in edgeLines ==> !l.NonObjectEdge?)
            && NodeRecordsClean(cfg, nodeLines) && Distinct(IdsOf(cfg, nodeLines))
  {
    EdgesOfMembers(cfg, NodeIds(cfg, nodeLines), edgeLines);
  }

  /** The JSONL branch of `main`: load both files and evaluate them. */
  method AuditFiles(cfg: Config, nodeLines: seq<NodeLine>, edgeLines: seq<EdgeLine>, runtime: bool, limit: int)
    returns (nodes: NodeSummary, records: EdgeSummary, s: Summary, findings: seq<Finding>, truncated: bool, signals: Signals)
    requires limit >= -1
    ensures s.auditable + s.malformed + records.invalidJson + records.nonObject == records.records
    ensures SumOfSix(s.sides) == 2 * s.auditable
    ensures Missing(s.sides) == s.anyMissing + s.bothMissing
    ensures signals.strictNodeFkReady <==> StrictlyReady(cfg, runtime, nodeLines, edgeLines)
    ensures signals.requiresPolicyDecision <==> signals.fkCompatibleSides < 2 * s.auditable
  {
    var nodeIds;
    nodeIds, nodes := LoadNodes(cfg, nodeLines);
    var edges;
    edges, records := LoadEdges(edgeLines);
    s, findings, truncated, signals := EvaluateAudit(cfg, nodeIds, edges, runtime, nodes, records, limit);
    CountersConserve(cfg, nodeIds, edges);
    ReadyMeaning(cfg, runtime, nodeLines, edgeLines);
  }
}
