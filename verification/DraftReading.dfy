/** Where `validate_instance` and JSON Schema Draft-07 read a schema differently, and exactly when
    they agree: siblings of `$ref`, the equality behind `enum`, the equality behind `uniqueItems`. */
module DraftReading {
  import opened Options
  import opened Text
  import opened Reachability
  import opened JsonSchema
  import opened Validation
  import opened Meaning
  import opened Totality

  // ---------------------------------------------------------------- siblings of $ref

  /** The node without its reference: the keywords that Draft-07 ignores beside `$ref`. */
  function Siblings(s: Json): Json
    requires s.Obj?
  {
    Obj(s.fields - {"$ref"})
  }

  /** The target of a reference that resolves. */
  function Target(root: Json, s: Json): Option<Json>
    requires s.Obj?
  {
    if Get(s.fields, "$ref").Str? then Pointer(root, s.fields["$ref"].s) else None
  }

  lemma KeywordKept(s: Json, k: string)
    requires s.Obj? && k != "$ref"
    ensures Get(Siblings(s).fields, k) == Get(s.fields, k) && (k in Siblings(s).fields <==> k in s.fields)
  {
  }

  lemma HeadKept(s: Json, v: Json)
    requires s.Obj?
    ensures HeadHolds(Siblings(s).fields, v) <==> HeadHolds(s.fields, v)
  {
    KeywordKept(s, "type");
    KeywordKept(s, "enum");
  }

  lemma ObjectKept(E: Engine, root: Json, s: Json, m: map<string, Json>)
    requires s.Obj?
    ensures NodeHolds(E, root, Siblings(s), Obj(m)) <==> NodeHolds(E, root, s, Obj(m))
  {
    ObjectNode(E, root, s, m);
    ObjectNode(E, root, Siblings(s), m);
    HeadKept(s, Obj(m));
    KeywordKept(s, "required");
    forall k | k in m ensures KeyHolds(E, root, Siblings(s).fields, m, k) <==> KeyHolds(E, root, s.fields, m, k) {
      KeywordKept(s, "properties");
      KeywordKept(s, "additionalProperties");
    }
  }

  lemma ItemsKept(E: Engine, root: Json, s: Json, xs: seq<Json>)
    requires s.Obj?
    ensures ItemsHold(E, root, Siblings(s).fields, xs) <==> ItemsHold(E, root, s.fields, xs)
  {
    KeywordKept(s, "items");
    KeywordKept(s, "additionalItems");
  }

  lemma ArrayKept(E: Engine, root: Json, s: Json, xs: seq<Json>)
    requires s.Obj?
    ensures NodeHolds(E, root, Siblings(s), Arr(xs)) <==> NodeHolds(E, root, s, Arr(xs))
  {
    ArrayNode(E, root, s, xs);
    ArrayNode(E, root, Siblings(s), xs);
    HeadKept(s, Arr(xs));
    ItemsKept(E, root, s, xs);
    KeywordKept(s, "minItems");
    KeywordKept(s, "maxItems");
    KeywordKept(s, "uniqueItems");
  }

  lemma StringKept(E: Engine, root: Json, s: Json, t: string)
    requires s.Obj?
    ensures NodeHolds(E, root, Siblings(s), Str(t)) <==> NodeHolds(E, root, s, Str(t))
  {
    StringNode(E, root, s, t);
    StringNode(E, root, Siblings(s), t);
    HeadKept(s, Str(t));
    KeywordKept(s, "minLength");
    KeywordKept(s, "maxLength");
    KeywordKept(s, "pattern");
  }

  lemma NodeKept(E: Engine, root: Json, s: Json, v: Json)
    requires s.Obj?
    ensures NodeHolds(E, root, Siblings(s), v) <==> NodeHolds(E, root, s, v)
  {
    match v
    case Obj(m) => ObjectKept(E, root, s, m);
    case Arr(xs) => ArrayKept(E, root, s, xs);
    case Str(t) => StringKept(E, root, s, t);
    case _ => HeadKept(s, v);
  }

  /** The in-place steps of a node with a resolved reference: to the target, and those of its siblings. */
  lemma StepsSplit(root: Json, s: Json, u: Json)
    requires s.Obj?
    ensures InPlaceStep(root, s, u) <==> Target(root, s) == Some(u) || InPlaceStep(root, Siblings(s), u)
  {
    KeywordKept(s, "allOf");
    assert "$ref" !in Siblings(s).fields;
  }

  /** At a resolved reference the code asks for the target and for the siblings. */
  lemma SiblingsAreConjoined(E: Engine, root: Json, s: Json, v: Json)
    requires s.Obj? && Target(root, s).Some?
    ensures Satisfies(E, root, s, v) <==>
            Satisfies(E, root, Target(root, s).value, v) && Satisfies(E, root, Siblings(s), v)
  {
    SatisfiesUnfold(E, root, s, v);
    SatisfiesUnfold(E, root, Siblings(s), v);
    NodeKept(E, root, s, v);
    forall u ensures InPlaceStep(root, s, u) <==> Target(root, s) == Some(u) || InPlaceStep(root, Siblings(s), u) {
      StepsSplit(root, s, u);
    }
  }

  /** So the siblings change the verdict exactly on the values that the target accepts and they do not. */
  lemma SiblingsDecide(E: Engine, root: Json, s: Json, v: Json)
    requires s.Obj? && Target(root, s).Some?
    ensures var target := Satisfies(E, root, Target(root, s).value, v);
            (Satisfies(E, root, s, v) <==> target) <==> (target ==> Satisfies(E, root, Siblings(s), v))
  {
    SiblingsAreConjoined(E, root, s, v);
  }

  // ---------------------------------------------------------------- the Draft-07 reading

  /** A reference stands for its target alone; otherwise the members of `allOf` apply. */
  ghost predicate DraftStep(root: Json, s: Json, t: Json)
  {
    && s.Obj?
    && match Target(root, s)
       case Some(u) => t == u
       case None => "allOf" in s.fields && s.fields["allOf"].Arr? && t in s.fields["allOf"].items
  }

  ghost function DraftSteps(root: Json): (Json, Json) -> bool
  {
    (s, t) => DraftStep(root, s, t)
  }

  /** The value meets the schema when siblings of `$ref` are ignored, at every depth. */
  ghost predicate DraftSatisfies(E: Engine, root: Json, s: Json, v: Json)
    decreases v, 1
  {
    forall t :: Reach(DraftSteps(root), s, t) ==> DraftHolds(E, root, t, v)
  }

  /** The assertions of one node; a node with a reference has none of its own. */
  ghost predicate DraftHolds(E: Engine, root: Json, t: Json, v: Json)
    decreases v, 0
  {
    && t.Obj?
    && (Target(root, t).Some? ||
        var f := t.fields;
        && HeadHolds(f, v)
        && match v
           case Obj(m) =>
             && RequiredHolds(f, m)
             && forall k :: k in m ==> if k in Properties(f) then DraftSatisfies(E, root, Properties(f)[k], m[k])
                                       else !ForbidsAdditional(f)
           case Arr(xs) =>
             && ArrayHolds(f, xs)
             && forall i :: 0 <= i < ItemCount(f, xs) ==> DraftSatisfies(E, root, ItemSchema(f, xs, i), xs[i])
           case Str(t) => StringHolds(E, f, t)
           case _ => true)
  }

  ghost predicate RequiredHolds(f: map<string, Json>, m: map<string, Json>)
  {
    Get(f, "required").Arr? ==> forall x :: x in Get(f, "required").items && x.Str? ==> x.s in m
  }

  /** The array keywords apart from the items themselves. */
  ghost predicate ArrayHolds(f: map<string, Json>, xs: seq<Json>)
  {
    && AtLeast(f, "minItems", |xs|) && AtMost(f, "maxItems", |xs|)
    && (Get(f, "uniqueItems") == Bool(true) ==> forall i, j :: 0 <= i < j < |xs| ==> xs[i] != xs[j])
    && (Get(f, "items").Arr? && Get(f, "additionalItems") == Bool(false) ==> |xs| <= |Get(f, "items").items|)
  }

  /** The schema for the i-th item. */
  function ItemSchema(f: map<string, Json>, xs: seq<Json>, i: nat): Json
    requires i < ItemCount(f, xs)
  {
    if Get(f, "items").Obj? then Get(f, "items") else Get(f, "items").items[i]
  }

  lemma ArrayNodeByItem(E: Engine, root: Json, s: Json, xs: seq<Json>)
    requires s.Obj?
    ensures NodeHolds(E, root, s, Arr(xs)) <==>
            && HeadHolds(s.fields, Arr(xs)) && ArrayHolds(s.fields, xs)
            && forall i :: 0 <= i < ItemCount(s.fields, xs) ==> Satisfies(E, root, ItemSchema(s.fields, xs, i), xs[i])
  {
    ArrayNode(E, root, s, xs);
    ItemsByItem(E, root, s.fields, xs);
  }

  lemma ItemsByItem(E: Engine, root: Json, f: map<string, Json>, xs: seq<Json>)
    ensures ItemsHold(E, root, f, xs) <==>
            && (Get(f, "items").Arr? && Get(f, "additionalItems") == Bool(false) ==> |xs| <= |Get(f, "items").items|)
            && forall i :: 0 <= i < ItemCount(f, xs) ==> Satisfies(E, root, ItemSchema(f, xs, i), xs[i])
  {
  }

  // ---------------------------------------------------------------- the code is never more lenient

  /** What the code accepts, the reading that ignores siblings accepts. */
  lemma {:induction false} CodeIsStricter(E: Engine, root: Json, s: Json, v: Json)
    requires Satisfies(E, root, s, v)
    ensures DraftSatisfies(E, root, s, v)
    decreases v, 1
  {
    forall t | Reach(DraftSteps(root), s, t) ensures DraftHolds(E, root, t, v) {
      ReachMore(DraftSteps(root), InPlace(root), s, t);
      assert Reaches(root, s, t);
      StricterNode(E, root, t, v);
    }
  }

  lemma {:induction false} StricterNode(E: Engine, root: Json, t: Json, v: Json)
    requires NodeHolds(E, root, t, v)
    ensures DraftHolds(E, root, t, v)
    decreases v, 0
  {
    match v
    case Obj(m) => StricterObject(E, root, t, m);
    case Arr(xs) => StricterArray(E, root, t, xs);
    case Str(x) => StringNode(E, root, t, x);
    case _ => OtherNode(E, root, t, v);
  }

  lemma OtherNode(E: Engine, root: Json, t: Json, v: Json)
    requires !v.Obj? && !v.Arr? && !v.Str?
    ensures NodeHolds(E, root, t, v) <==> t.Obj? && HeadHolds(t.fields, v)
  {
  }

  lemma {:induction false} StricterObject(E: Engine, root: Json, t: Json, m: map<string, Json>)
    requires NodeHolds(E, root, t, Obj(m))
    ensures DraftHolds(E, root, t, Obj(m))
    decreases Obj(m), 0, 0
  {
    var f := t.fields;
    ObjectNode(E, root, t, m);
    forall k | k in m && k in Properties(f) ensures DraftSatisfies(E, root, Properties(f)[k], m[k]) {
      assert KeyHolds(E, root, f, m, k);
      CodeIsStricter(E, root, Properties(f)[k], m[k]);
    }
    forall k | k in m && k !in Properties(f) ensures !ForbidsAdditional(f) {
      assert KeyHolds(E, root, f, m, k);
    }
  }

  lemma {:induction false} StricterArray(E: Engine, root: Json, t: Json, xs: seq<Json>)
    requires NodeHolds(E, root, t, Arr(xs))
    ensures DraftHolds(E, root, t, Arr(xs))
    decreases Arr(xs), 0, 0
  {
    var f := t.fields;
    ArrayNodeByItem(E, root, t, xs);
    forall i | 0 <= i < ItemCount(f, xs) ensures DraftSatisfies(E, root, ItemSchema(f, xs, i), xs[i]) {
      CodeIsStricter(E, root, ItemSchema(f, xs, i), xs[i]);
    }
  }

  // ---------------------------------------------------------------- bare references

  const ASSERTING: set<string> := {
    "allOf", "type", "required", "additionalProperties", "properties", "enum", "minLength", "maxLength", "pattern",
    "minItems", "maxItems", "uniqueItems", "items", "additionalItems"}

  /** A reference without asserting siblings; definitions and annotations may stand beside it. */
  ghost predicate Bare(root: Json, t: Json)
  {
    t.Obj? && Target(root, t).Some? ==> t.fields.Keys !! ASSERTING
  }

  ghost predicate AllBare(root: Json, s: Json)
  {
    forall t :: Live(root, s, t) ==> Bare(root, t)
  }

  lemma BareBelow(root: Json, s: Json, u: Json)
    requires AllBare(root, s) && LiveStep(root, s, u)
    ensures AllBare(root, u)
  {
    forall t | Live(root, u, t) ensures Bare(root, t) {
      LiveVia(root, s, u, t);
    }
  }

  lemma {:induction false} BareIsEnough(E: Engine, root: Json, s: Json, v: Json)
    requires AllBare(root, s) && DraftSatisfies(E, root, s, v)
    ensures Satisfies(E, root, s, v)
    decreases v, 1
  {
    forall t | Reaches(root, s, t) ensures NodeHolds(E, root, t, v) {
      BareReach(root, s, t);
      BareNode(E, root, t, v);
    }
  }

  /** The keywords beside a bare reference lead nowhere, so both readings reach the same nodes. */
  lemma BareReach(root: Json, s: Json, t: Json)
    requires AllBare(root, s) && Reaches(root, s, t)
    ensures Reach(DraftSteps(root), s, t) && AllBare(root, t)
  {
    var keep := (u: Json) => AllBare(root, u) && Reach(DraftSteps(root), s, u);
    ReachSelf(DraftSteps(root), s);
    forall x, y | keep(x) && InPlace(root)(x, y) ensures keep(y) {
      assert InPlaceStep(root, x, y);
      BareBelow(root, x, y);
      BareStep(root, x, y);
      ReachOne(DraftSteps(root), x, y);
      ReachJoin(DraftSteps(root), s, x, y);
    }
    ReachKeeps(InPlace(root), keep, s, t);
  }

  lemma BareStep(root: Json, x: Json, y: Json)
    requires AllBare(root, x) && InPlaceStep(root, x, y)
    ensures DraftStep(root, x, y)
  {
    LiveSelf(root, x);
    assert Bare(root, x);
    assert "allOf" in ASSERTING;
  }

  lemma {:induction false} BareNode(E: Engine, root: Json, t: Json, v: Json)
    requires AllBare(root, t) && DraftHolds(E, root, t, v)
    ensures NodeHolds(E, root, t, v)
    decreases v, 0
  {
    LiveSelf(root, t);
    assert Bare(root, t);
    if Target(root, t).Some? {
      NothingAsserted(E, root, t, v);
    } else {
      match v
      case Obj(m) => BareObject(E, root, t, m);
      case Arr(xs) => BareArray(E, root, t, xs);
      case Str(x) => StringNode(E, root, t, x);
      case _ => OtherNode(E, root, t, v);
    }
  }

  lemma NothingAsserted(E: Engine, root: Json, t: Json, v: Json)
    requires t.Obj? && t.fields.Keys !! ASSERTING
    ensures NodeHolds(E, root, t, v)
  {
    var f := t.fields;
    assert forall k :: k in ASSERTING ==> k !in f.Keys;
    assert HeadHolds(f, v);
    match v
    case Obj(m) =>
      ObjectNode(E, root, t, m);
      assert forall k :: k in m ==> KeyHolds(E, root, f, m, k);
    case Arr(xs) =>
      ArrayNode(E, root, t, xs);
      assert ItemsHold(E, root, f, xs);
    case Str(x) => StringNode(E, root, t, x);
    case _ => OtherNode(E, root, t, v);
  }

  lemma {:induction false} BareObject(E: Engine, root: Json, t: Json, m: map<string, Json>)
    requires AllBare(root, t) && DraftHolds(E, root, t, Obj(m)) && Target(root, t).None?
    ensures NodeHolds(E, root, t, Obj(m))
    decreases Obj(m), 0, 0
  {
    var f := t.fields;
    ObjectNode(E, root, t, m);
    forall k | k in m ensures KeyHolds(E, root, f, m, k) {
      if k in Properties(f) {
        BareBelow(root, t, Properties(f)[k]);
        BareIsEnough(E, root, Properties(f)[k], m[k]);
      }
    }
  }

  lemma {:induction false} BareArray(E: Engine, root: Json, t: Json, xs: seq<Json>)
    requires AllBare(root, t) && DraftHolds(E, root, t, Arr(xs)) && Target(root, t).None?
    ensures NodeHolds(E, root, t, Arr(xs))
    decreases Arr(xs), 0, 0
  {
    var f := t.fields;
    ArrayNodeByItem(E, root, t, xs);
    forall i | 0 <= i < ItemCount(f, xs) ensures Satisfies(E, root, ItemSchema(f, xs, i), xs[i]) {
      var u := ItemSchema(f, xs, i);
      DraftIsNode(E, root, u, xs[i]);
      BareBelow(root, t, u);
      BareIsEnough(E, root, u, xs[i]);
    }
  }

  lemma DraftIsNode(E: Engine, root: Json, s: Json, v: Json)
    requires DraftSatisfies(E, root, s, v)
    ensures s.Obj?
  {
    ReachSelf(DraftSteps(root), s);
    assert DraftHolds(E, root, s, v);
  }

  /** Without asserting siblings on any node that validation can get to, the two readings agree on
      every value. */
  lemma BareReferencesAgree(E: Engine, root: Json, s: Json, v: Json)
    requires AllBare(root, s)
    ensures Satisfies(E, root, s, v) <==> DraftSatisfies(E, root, s, v)
  {
    if Satisfies(E, root, s, v) {
      CodeIsStricter(E, root, s, v);
    }
    if DraftSatisfies(E, root, s, v) {
      BareIsEnough(E, root, s, v);
    }
  }

  lemma WalkTwo(v: Json, a: string, b: string)
    requires v.Obj? && a in v.fields && v.fields[a].Obj? && b in v.fields[a].fields
    ensures Walk(v, [a, b]) == Some(v.fields[a].fields[b])
  {
    assert [b][1..] == [] && Walk(v.fields[a], [b]) == Some(v.fields[a].fields[b]);
    assert [a, b][1..] == [b];
  }

  /** A reference to a definition. */
  lemma DefinitionResolves(root: Json, name: string) returns (ref: string)
    requires root.Obj? && "definitions" in root.fields && root.fields["definitions"].Obj?
    requires name in root.fields["definitions"].fields && root.fields["definitions"].fields[name].Obj?
    ensures Pointer(root, ref) == Some(root.fields["definitions"].fields[name])
  {
    ref := "#/" + Join(EscapeAll(["definitions", name]), "/");
    PointerFollowsTokens(root, ["definitions", name]);
    WalkTwo(root, "definitions", name);
  }

  /** A schema on which they differ: null meets the referenced empty schema, but not the sibling. */
  lemma SiblingsCanDiffer(E: Engine) returns (root: Json, s: Json)
    ensures Supported(E, root) && Supported(E, s)
    ensures DraftSatisfies(E, root, s, Null) && !Satisfies(E, root, s, Null)
  {
    root := Obj(map["definitions" := Obj(map["a" := Obj(map[])])]);
    var ref := DefinitionResolves(root, "a");
    s := Obj(map["$ref" := Str(ref), "type" := Str("string")]);
    OtherNode(E, root, s, Null);
    SatisfiesUnfold(E, root, s, Null);
    OnlyTarget(E, root, s, Obj(map[]));
    assert Supported(E, Obj(map[]));
    DefinitionsSupported(E, Obj(map["a" := Obj(map[])]));
    TypedReferenceSupported(E, ref);
  }

  lemma DefinitionsSupported(E: Engine, definitions: Json)
    requires definitions.Obj? && forall k :: k in definitions.fields ==> Supported(E, definitions.fields[k])
    ensures Supported(E, Obj(map["definitions" := definitions]))
  {
    var f := map["definitions" := definitions];
    assert f.Keys <= SUPPORTED_KEYS;
    assert SupportedNode(E, f);
  }

  lemma TypedReferenceSupported(E: Engine, ref: string)
    ensures Supported(E, Obj(map["$ref" := Str(ref), "type" := Str("string")]))
  {
    var f := map["$ref" := Str(ref), "type" := Str("string")];
    assert f.Keys <= SUPPORTED_KEYS;
    assert SupportedNode(E, f);
  }

  /** A reference to the empty schema accepts null. */
  lemma OnlyTarget(E: Engine, root: Json, s: Json, empty: Json)
    requires s.Obj? && Target(root, s) == Some(empty) && empty == Obj(map[])
    ensures DraftSatisfies(E, root, s, Null)
  {
    var keep := (u: Json) => u == s || u == empty;
    forall t | Reach(DraftSteps(root), s, t) ensures DraftHolds(E, root, t, Null) {
      ReachKeeps(DraftSteps(root), keep, s, t);
    }
  }

  /** What a returned list says about the reading without siblings. */
  lemma ReturnedVerdict(E: Engine, root: Json, fuel: nat, v: Json, s: Json, path: string)
    requires Separates(E, v) && Validate(E, root, fuel, v, s, path).Ok?
    ensures Validate(E, root, fuel, v, s, path).findings == [] ==> DraftSatisfies(E, root, s, v)
    ensures AllBare(root, s) ==>
              (Validate(E, root, fuel, v, s, path).findings == [] <==> DraftSatisfies(E, root, s, v))
  {
    ValidateIsSatisfaction(E, root, fuel, v, s, path);
    if Satisfies(E, root, s, v) {
      CodeIsStricter(E, root, s, v);
    }
    if AllBare(root, s) {
      BareReferencesAgree(E, root, s, v);
    }
  }

  // ---------------------------------------------------------------- equality

  predicate IsNumber(v: Json)
  {
    v.Int? || v.Float?
  }

  /** JSON equality: numbers by value, booleans only with booleans. */
  predicate DraftEq(a: Json, b: Json)
  {
    if IsNumber(a) && IsNumber(b) then Numeric(a) == Numeric(b)
    else match a
      case Null => b.Null?
      case Bool(x) => b == Bool(x)
      case Str(x) => b == Str(x)
      case Arr(xs) => b.Arr? && |xs| == |b.items| && forall i :: 0 <= i < |xs| ==> DraftEq(xs[i], b.items[i])
      case Obj(m) => b.Obj? && m.Keys == b.fields.Keys && forall k :: k in m ==> DraftEq(m[k], b.fields[k])
      case _ => false
  }

  /** Booleans stand against booleans at every common position. */
  predicate SameBools(a: Json, b: Json)
  {
    && (a.Bool? <==> b.Bool?)
    && (a.Arr? && b.Arr? ==> forall i :: 0 <= i < |a.items| && i < |b.items| ==> SameBools(a.items[i], b.items[i]))
    && (a.Obj? && b.Obj? ==> forall k :: k in a.fields && k in b.fields ==> SameBools(a.fields[k], b.fields[k]))
  }

  /** Integers stand against integers at every common position. */
  predicate SameInts(a: Json, b: Json)
  {
    && (a.Int? <==> b.Int?)
    && (a.Arr? && b.Arr? ==> forall i :: 0 <= i < |a.items| && i < |b.items| ==> SameInts(a.items[i], b.items[i]))
    && (a.Obj? && b.Obj? ==> forall k :: k in a.fields && k in b.fields ==> SameInts(a.fields[k], b.fields[k]))
  }

  /** Python equality is JSON equality but for booleans, which it takes for 0 and 1. */
  lemma {:induction false} PyEqDiffersOnBooleans(a: Json, b: Json)
    ensures DraftEq(a, b) <==> PyEq(a, b) && SameBools(a, b)
  {
    match a
    case Arr(xs) =>
      if b.Arr? && |xs| == |b.items| {
        forall i | 0 <= i < |xs| ensures DraftEq(xs[i], b.items[i]) <==> PyEq(xs[i], b.items[i]) && SameBools(xs[i], b.items[i]) {
          PyEqDiffersOnBooleans(xs[i], b.items[i]);
        }
      }
    case Obj(m) =>
      if b.Obj? && m.Keys == b.fields.Keys {
        forall k | k in m ensures DraftEq(m[k], b.fields[k]) <==> PyEq(m[k], b.fields[k]) && SameBools(m[k], b.fields[k]) {
          PyEqDiffersOnBooleans(m[k], b.fields[k]);
        }
      }
    case _ =>
  }

  /** JSON equality is equality of the parsed values but for floats that equal integers. */
  lemma {:induction false} EqDiffersOnNumbers(a: Json, b: Json)
    ensures a == b <==> DraftEq(a, b) && SameInts(a, b)
  {
    match a
    case Arr(xs) =>
      if b.Arr? && |xs| == |b.items| {
        forall i | 0 <= i < |xs| ensures xs[i] == b.items[i] <==> DraftEq(xs[i], b.items[i]) && SameInts(xs[i], b.items[i]) {
          EqDiffersOnNumbers(xs[i], b.items[i]);
        }
        assert (forall i :: 0 <= i < |xs| ==> xs[i] == b.items[i]) ==> xs == b.items;
      }
    case Obj(m) =>
      if b.Obj? && m.Keys == b.fields.Keys {
        forall k | k in m ensures m[k] == b.fields[k] <==> DraftEq(m[k], b.fields[k]) && SameInts(m[k], b.fields[k]) {
          EqDiffersOnNumbers(m[k], b.fields[k]);
        }
        assert (forall k :: k in m ==> m[k] == b.fields[k]) ==> m == b.fields;
      }
    case _ =>
  }

  predicate DraftInEnum(v: Json, options: seq<Json>)
  {
    exists i :: 0 <= i < |options| && DraftEq(v, options[i])
  }

  /** `enum` accepts what it should, and besides exactly the values that equal an option only by
      taking a boolean for a number. */
  lemma EnumAgreesExactly(v: Json, options: seq<Json>)
    ensures DraftInEnum(v, options) ==> InEnum(v, options)
    ensures (InEnum(v, options) <==> DraftInEnum(v, options)) <==>
            (InEnum(v, options) ==> exists i :: 0 <= i < |options| && PyEq(v, options[i]) && SameBools(v, options[i]))
  {
    forall i | 0 <= i < |options|
      ensures DraftEq(v, options[i]) <==> PyEq(v, options[i]) && SameBools(v, options[i])
    {
      PyEqDiffersOnBooleans(v, options[i]);
    }
  }

  /** The failing input: `true` passes for 1. */
  lemma EnumTakesTrueForOne()
    ensures InEnum(Bool(true), [Int(1)]) && !DraftInEnum(Bool(true), [Int(1)])
  {
    assert PyEq(Bool(true), [Int(1)][0]);
  }

  predicate DraftUnique(xs: seq<Json>)
  {
    forall i, j :: 0 <= i < j < |xs| ==> !DraftEq(xs[i], xs[j])
  }

  predicate HasRepeat(xs: seq<Json>)
  {
    exists i, j :: 0 <= i < j < |xs| && xs[i] == xs[j]
  }

  /** What `uniqueItems` reports depends on the canonical form alone: it is right about repeated
      items exactly if the form confuses no different ones, or some item is repeated anyway. */
  lemma UniqueNeedsSeparation(E: Engine, f: map<string, Json>, xs: seq<Json>, path: string)
    requires Get(f, "uniqueItems") == Bool(true)
    ensures (UniqueJobs(E, f, xs, |xs|, path) == [] <==> !HasRepeat(xs)) <==> ItemsApart(E, xs) || HasRepeat(xs)
  {
    UniqueForms(E, f, xs, |xs|, path);
  }

  lemma {:induction false} UniqueForms(E: Engine, f: map<string, Json>, xs: seq<Json>, n: nat, path: string)
    requires n <= |xs| && Get(f, "uniqueItems") == Bool(true)
    ensures UniqueJobs(E, f, xs, n, path) == [] <==>
            forall i, j :: 0 <= i < j < n ==> E.canonical(xs[i]) != E.canonical(xs[j])
  {
    if n > 0 {
      UniqueForms(E, f, xs, n - 1, path);
    }
  }

  /** With a separating form it is what Draft-07 asks for exactly if no two items are equal as
      numbers but spelled differently, or some item is repeated anyway. */
  lemma UniqueAgreesExactly(E: Engine, f: map<string, Json>, xs: seq<Json>, path: string)
    requires Get(f, "uniqueItems") == Bool(true) && ItemsApart(E, xs)
    ensures (UniqueJobs(E, f, xs, |xs|, path) == [] <==> DraftUnique(xs)) <==>
            HasRepeat(xs) || forall i, j :: 0 <= i < j < |xs| && DraftEq(xs[i], xs[j]) ==> SameInts(xs[i], xs[j])
  {
    UniqueNeedsSeparation(E, f, xs, path);
    forall i, j | 0 <= i < j < |xs| ensures xs[i] == xs[j] <==> DraftEq(xs[i], xs[j]) && SameInts(xs[i], xs[j]) {
      EqDiffersOnNumbers(xs[i], xs[j]);
    }
  }

  /** The failing input: 1 and 1.0 pass for different. */
  lemma UniqueTakesOneTwice(E: Engine, f: map<string, Json>, path: string)
    requires Get(f, "uniqueItems") == Bool(true) && ItemsApart(E, [Int(1), Float(1.0)])
    ensures var xs := [Int(1), Float(1.0)]; UniqueJobs(E, f, xs, |xs|, path) == [] && !DraftUnique(xs)
  {
    var xs := [Int(1), Float(1.0)];
    UniqueNeedsSeparation(E, f, xs, path);
    assert !HasRepeat(xs);
    assert DraftEq(xs[0], xs[1]);
  }
}
