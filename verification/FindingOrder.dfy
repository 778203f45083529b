/** The returned list is canonical: strictly increasing in (path, message) and independent of
    the order in which `allOf` and `required` are written. */
module FindingOrder {
  import opened Options
  import opened Ordering
  import opened JsonSchema
  import Text
  import opened Validation
  import opened Meaning

  lemma FindingTransitive(a: Finding, b: Finding, c: Finding)
    requires FindingLe(a, b) && FindingLe(b, c)
    ensures FindingLe(a, c)
  {
    if a.path == b.path == c.path {
      LexTransitive(a.message, b.message, c.message);
    } else if a.path == c.path {
      LexAntisymmetric(a.path, b.path);
    } else if a.path != b.path && b.path != c.path {
      LexTransitive(a.path, b.path, c.path);
    }
  }

  lemma FindingLeIsTotalPreorder()
    ensures TotalPreorder(FindingLe)
  {
    forall a: Finding, b: Finding ensures FindingLe(a, b) || FindingLe(b, a) {
      LexTotal(a.path, b.path);
      LexTotal(a.message, b.message);
    }
    forall a: Finding, b: Finding, c: Finding | FindingLe(a, b) && FindingLe(b, c) ensures FindingLe(a, c) {
      FindingTransitive(a, b, c);
    }
  }

  lemma FindingLtAsymmetric()
    ensures Asymmetric(FindingLt)
  {
    forall a: Finding, b: Finding ensures !(FindingLt(a, b) && FindingLt(b, a)) {
      if FindingLe(a, b) && FindingLe(b, a) {
        if a.path != b.path {
          LexAntisymmetric(a.path, b.path);
        } else {
          LexAntisymmetric(a.message, b.message);
        }
      }
    }
  }

  lemma {:induction false} DeduplicateMembers(fs: seq<Finding>)
    ensures forall x :: x in Deduplicate(fs) <==> x in fs
    ensures forall i, j :: 0 <= i < j < |Deduplicate(fs)| ==> Deduplicate(fs)[i] != Deduplicate(fs)[j]
  {
    if |fs| > 0 {
      DeduplicateMembers(fs[..|fs| - 1]);
      assert fs == fs[..|fs| - 1] + [fs[|fs| - 1]];
    }
  }

  /** The result lists every finding once, strictly increasing. */
  lemma NormalizeIsStrict(fs: seq<Finding>)
    ensures StrictlySorted(FindingLt, Normalize(fs))
    ensures forall x :: x in Normalize(fs) <==> x in fs
  {
    var d := Deduplicate(fs);
    DeduplicateMembers(fs);
    FindingLeIsTotalPreorder();
    StableSortSorted(FindingLe, d);
    StableSortPermutes(FindingLe, d);
    DistinctByMultiset(d, Normalize(fs));
    forall x ensures x in Normalize(fs) <==> x in fs {
      SortMember(FindingLe, d, x);
    }
  }

  lemma NormalizeOfMembers(a: seq<Finding>, b: seq<Finding>)
    requires forall x :: x in a <==> x in b
    ensures Normalize(a) == Normalize(b)
  {
    NormalizeIsStrict(a);
    NormalizeIsStrict(b);
    FindingLtAsymmetric();
    StrictlySortedUnique(FindingLt, Normalize(a), Normalize(b));
  }

  /** Every list that `validate_instance` returns is strictly increasing in (path, message). */
  lemma ValidateIsStrict(E: Engine, root: Json, fuel: nat, v: Json, s: Json, path: string)
    requires Validate(E, root, fuel, v, s, path).Ok?
    ensures StrictlySorted(FindingLt, Validate(E, root, fuel, v, s, path).findings)
  {
    var N := Calls(E, root, fuel - 1);
    AssembleIsStrict(s.fields, v, path, Run(N, InPlaceJobs(root, s.fields, v, path)),
                     Run(N, LocalJobs(E, s.fields, v, path)));
  }

  lemma AssembleIsStrict(f: map<string, Json>, v: Json, path: string, inPlace: Outcome, local: Outcome)
    requires Assemble(f, v, path, inPlace, local).Ok?
    ensures StrictlySorted(FindingLt, Assemble(f, v, path, inPlace, local).findings)
  {
    if !TypeMismatch(f, v) {
      NormalizeIsStrict(inPlace.findings + local.findings);
    }
  }

  // ---------------------------------------------------------------- order of evaluation

  ghost predicate Contributes(outs: seq<Outcome>, x: Finding)
  {
    exists i :: 0 <= i < |outs| && outs[i].Ok? && x in outs[i].findings
  }

  lemma {:induction false} SequenceMembers(outs: seq<Outcome>, x: Finding)
    requires Sequence(outs).Ok?
    ensures x in Sequence(outs).findings <==> Contributes(outs, x)
  {
    SequenceOk(outs);
    if |outs| > 0 {
      var init := outs[..|outs| - 1];
      SequenceMembers(init, x);
      if Contributes(init, x) {
        var i :| 0 <= i < |init| && init[i].Ok? && x in init[i].findings;
        assert outs[i] == init[i];
      }
      if Contributes(outs, x) && x !in outs[|outs| - 1].findings {
        var i :| 0 <= i < |outs| && outs[i].Ok? && x in outs[i].findings;
        assert init[i] == outs[i];
      }
    }
  }

  // ---------------------------------------------------------------- reordered schemas

  /** b is a with its `allOf` and `required` lists written in another order, at any depth. */
  ghost predicate Reordered(a: Json, b: Json)
    decreases a, 0
  {
    match a
    case Obj(m) => b.Obj? && m.Keys == b.fields.Keys && forall k :: k in m ==> ReorderedMember(k, m[k], b.fields[k])
    case Arr(xs) => b.Arr? && |xs| == |b.items| && forall i :: 0 <= i < |xs| ==> Reordered(xs[i], b.items[i])
    case _ => a == b
  }

  /** The members of an `allOf` list have counterparts in the other one, in any order; a `required`
      list has the same elements; an `enum` list is the same; everything else is reordered inside. */
  ghost predicate ReorderedMember(k: string, a: Json, b: Json)
    decreases a, 1
  {
    if k == "allOf" && a.Arr? then
      && b.Arr?
      && (forall i :: 0 <= i < |a.items| ==> Becomes(a.items[i], b.items))
      && (forall j :: 0 <= j < |b.items| ==> ComesFrom(a.items, b.items[j]))
    else if k == "required" && a.Arr? then b.Arr? && forall x :: x in a.items <==> x in b.items
    else if k == "enum" && a.Arr? then a == b
    else Reordered(a, b)
  }

  ghost predicate Becomes(x: Json, ys: seq<Json>)
    decreases x, 2
  {
    exists j :: 0 <= j < |ys| && Reordered(x, ys[j])
  }

  ghost predicate ComesFrom(xs: seq<Json>, y: Json)
    decreases xs
  {
    exists i :: 0 <= i < |xs| && Reordered(xs[i], y)
  }

  lemma {:induction false} ReorderedSelf(a: Json)
    ensures Reordered(a, a)
    decreases a
  {
    match a
    case Obj(m) =>
      forall k | k in m ensures ReorderedMember(k, m[k], m[k]) {
        ReorderedSelf(m[k]);
        if m[k].Arr? {
          forall i | 0 <= i < |m[k].items| ensures Reordered(m[k].items[i], m[k].items[i]) {
            ReorderedSelf(m[k].items[i]);
          }
          ListsItself(m[k].items);
        }
      }
    case Arr(xs) =>
      forall i | 0 <= i < |xs| ensures Reordered(xs[i], xs[i]) {
        ReorderedSelf(xs[i]);
      }
    case _ =>
  }

  lemma ListsItself(xs: seq<Json>)
    requires forall i :: 0 <= i < |xs| ==> Reordered(xs[i], xs[i])
    ensures forall i :: 0 <= i < |xs| ==> Becomes(xs[i], xs) && ComesFrom(xs, xs[i])
  {
  }

  lemma SameMembers(xs: seq<Json>, ys: seq<Json>)
    requires multiset(xs) == multiset(ys)
    ensures forall x :: x in xs <==> x in ys
  {
    forall x ensures x in xs <==> x in ys {
      assert x in xs <==> x in multiset(xs);
      assert x in ys <==> x in multiset(ys);
    }
  }

  /** In particular every permutation of `required`. */
  lemma PermutedRequired(xs: seq<Json>, ys: seq<Json>)
    requires multiset(xs) == multiset(ys)
    ensures ReorderedMember("required", Arr(xs), Arr(ys))
  {
    SameMembers(xs, ys);
  }

  /** And every permutation of `allOf`, with members that may be reordered themselves. */
  lemma PermutedAllOf(xs: seq<Json>, zs: seq<Json>, ys: seq<Json>)
    requires multiset(xs) == multiset(zs) && |zs| == |ys| && forall i :: 0 <= i < |ys| ==> Reordered(zs[i], ys[i])
    ensures ReorderedMember("allOf", Arr(xs), Arr(ys))
  {
    SameMembers(xs, zs);
    forall i | 0 <= i < |xs| ensures Becomes(xs[i], ys) {
      assert xs[i] in zs;
      var j :| 0 <= j < |zs| && zs[j] == xs[i];
      assert Reordered(xs[i], ys[j]);
    }
    forall j | 0 <= j < |ys| ensures ComesFrom(xs, ys[j]) {
      assert zs[j] in xs;
      var i :| 0 <= i < |xs| && xs[i] == zs[j];
      assert Reordered(xs[i], ys[j]);
    }
  }

  /** What a keyword may become. */
  lemma MemberShape(k: string, a: Json, b: Json)
    requires ReorderedMember(k, a, b)
    ensures a.Obj? == b.Obj? && a.Arr? == b.Arr?
    ensures a.Obj? ==> Reordered(a, b)
    ensures !a.Obj? && !a.Arr? ==> a == b
  {
  }

  lemma KeywordShape(s: Json, t: Json, k: string)
    requires s.Obj? && Reordered(s, t)
    ensures var a, b := Get(s.fields, k), Get(t.fields, k);
            && a.Obj? == b.Obj? && a.Arr? == b.Arr? && (a.Obj? ==> Reordered(a, b))
            && (!a.Obj? && !a.Arr? ==> a == b)
            && (k in s.fields ==> ReorderedMember(k, a, b)) && (k in s.fields <==> k in t.fields)
  {
    if k in s.fields {
      MemberShape(k, s.fields[k], t.fields[k]);
    }
  }

  lemma ScalarKeywords(E: Engine, s: Json, t: Json)
    requires s.Obj? && Reordered(s, t) && SupportedNode(E, s.fields)
    ensures SupportedNode(E, t.fields)
  {
    KeywordShape(s, t, "$ref");
    KeywordShape(s, t, "type");
    KeywordShape(s, t, "required");
    KeywordShape(s, t, "additionalProperties");
    KeywordShape(s, t, "enum");
    KeywordShape(s, t, "pattern");
    KeywordShape(s, t, "uniqueItems");
    KeywordShape(s, t, "additionalItems");
    CountKeywords(s, t);
    NestedKeywords(s, t);
  }

  lemma CountKeywords(s: Json, t: Json)
    requires s.Obj? && Reordered(s, t)
    ensures forall k :: k in ["minLength", "maxLength", "minItems", "maxItems"] ==>
              IsCount(Get(s.fields, k)) == IsCount(Get(t.fields, k))
  {
    KeywordShape(s, t, "minLength");
    KeywordShape(s, t, "maxLength");
    KeywordShape(s, t, "minItems");
    KeywordShape(s, t, "maxItems");
  }

  lemma NestedKeywords(s: Json, t: Json)
    requires s.Obj? && Reordered(s, t)
    ensures forall k :: k in ["properties", "definitions", "items", "allOf"] ==>
              var a, b := Get(s.fields, k), Get(t.fields, k);
              a.Null? == b.Null? && a.Obj? == b.Obj? && a.Arr? == b.Arr?
  {
    forall k | k in ["properties", "definitions", "items", "allOf"]
      ensures Get(s.fields, k).Null? == Get(t.fields, k).Null? && Get(s.fields, k).Obj? == Get(t.fields, k).Obj? &&
              Get(s.fields, k).Arr? == Get(t.fields, k).Arr?
    {
      KeywordShape(s, t, k);
    }
  }

  lemma {:induction false} SupportedReordered(E: Engine, s: Json, t: Json)
    requires Reordered(s, t) && Supported(E, s)
    ensures Supported(E, t)
    decreases s
  {
    ScalarKeywords(E, s, t);
    MapSupported(E, s, t, "properties");
    MapSupported(E, s, t, "definitions");
    ItemsSupported(E, s, t);
    AllOfSupported(E, s, t);
  }

  lemma {:induction false} MapSupported(E: Engine, s: Json, t: Json, k: string)
    requires Reordered(s, t) && Supported(E, s) && (k == "properties" || k == "definitions")
    ensures k in t.fields && t.fields[k].Obj? ==> forall j :: j in t.fields[k].fields ==> Supported(E, t.fields[k].fields[j])
    decreases s, 0
  {
    KeywordShape(s, t, k);
    if k in t.fields && t.fields[k].Obj? {
      var p, q := s.fields[k], t.fields[k];
      forall j | j in q.fields ensures Supported(E, q.fields[j]) {
        MemberShape(j, p.fields[j], q.fields[j]);
        assert Supported(E, p.fields[j]);
        SupportedReordered(E, p.fields[j], q.fields[j]);
      }
    }
  }

  lemma {:induction false} ItemsSupported(E: Engine, s: Json, t: Json)
    requires Reordered(s, t) && Supported(E, s)
    ensures "items" in t.fields && t.fields["items"].Obj? ==> Supported(E, t.fields["items"])
    ensures "items" in t.fields && t.fields["items"].Arr? ==> forall x :: x in t.fields["items"].items ==> Supported(E, x)
    decreases s, 0
  {
    KeywordShape(s, t, "items");
    if "items" in t.fields && t.fields["items"].Obj? {
      SupportedReordered(E, s.fields["items"], t.fields["items"]);
    } else if "items" in t.fields && t.fields["items"].Arr? {
      var p, q := s.fields["items"], t.fields["items"];
      forall x | x in q.items ensures Supported(E, x) {
        var i :| 0 <= i < |q.items| && q.items[i] == x;
        assert Supported(E, p.items[i]) by { assert p.items[i] in p.items; }
        SupportedReordered(E, p.items[i], q.items[i]);
      }
    }
  }

  lemma {:induction false} AllOfSupported(E: Engine, s: Json, t: Json)
    requires Reordered(s, t) && Supported(E, s)
    ensures "allOf" in t.fields && t.fields["allOf"].Arr? ==> forall x :: x in t.fields["allOf"].items ==> Supported(E, x)
    decreases s, 0
  {
    KeywordShape(s, t, "allOf");
    if "allOf" in t.fields && t.fields["allOf"].Arr? {
      AllOfItems(E, s);
      assert ReorderedMember("allOf", s.fields["allOf"], t.fields["allOf"]);
      OriginsSupported(E, s.fields["allOf"].items, t.fields["allOf"].items);
    }
  }

  lemma AllOfItems(E: Engine, s: Json)
    requires Supported(E, s) && "allOf" in s.fields && s.fields["allOf"].Arr?
    ensures forall i :: 0 <= i < |s.fields["allOf"].items| ==> Supported(E, s.fields["allOf"].items[i])
  {
    var xs := s.fields["allOf"].items;
    forall i | 0 <= i < |xs| ensures Supported(E, xs[i]) {
      assert xs[i] in xs;
    }
  }

  lemma {:induction false} OriginsSupported(E: Engine, xs: seq<Json>, ys: seq<Json>)
    requires forall i :: 0 <= i < |xs| ==> Supported(E, xs[i])
    requires forall j :: 0 <= j < |ys| ==> ComesFrom(xs, ys[j])
    ensures forall y :: y in ys ==> Supported(E, y)
    decreases xs
  {
    forall y | y in ys ensures Supported(E, y) {
      var j :| 0 <= j < |ys| && ys[j] == y;
      assert ComesFrom(xs, ys[j]);
      var i :| 0 <= i < |xs| && Reordered(xs[i], ys[j]);
      SupportedReordered(E, xs[i], y);
    }
  }

  lemma AcceptedProperties(E: Engine, s: Json)
    requires Supported(E, s)
    ensures PropertiesAreSchemas(s.fields)
  {
    forall k | k in Properties(s.fields) ensures Properties(s.fields)[k].Obj? {
      assert Supported(E, s.fields["properties"].fields[k]);
    }
  }

  // ---------------------------------------------------------------- references

  /** What a pointer may step through: reordered values, or two lists, where it ends. */
  ghost predicate Alike(a: Json, b: Json)
  {
    Reordered(a, b) || (a.Arr? && b.Arr?)
  }

  lemma {:induction false} WalkReordered(a: Json, b: Json, tokens: seq<string>)
    requires Alike(a, b)
    ensures Walk(a, tokens).Some? == Walk(b, tokens).Some?
    ensures Walk(a, tokens).Some? ==> Alike(Walk(a, tokens).value, Walk(b, tokens).value)
    decreases |tokens|
  {
    if |tokens| > 0 && a.Obj? && tokens[0] in a.fields {
      MemberShape(tokens[0], a.fields[tokens[0]], b.fields[tokens[0]]);
      WalkReordered(a.fields[tokens[0]], b.fields[tokens[0]], tokens[1..]);
    }
  }

  /** A reference resolves to counterparts in both roots. */
  lemma PointerReordered(root: Json, root': Json, r: string)
    requires Reordered(root, root')
    ensures Pointer(root, r).Some? == Pointer(root', r).Some?
    ensures Pointer(root, r).Some? ==> Reordered(Pointer(root, r).value, Pointer(root', r).value)
  {
    if "#/" <= r {
      WalkReordered(root, root', UnescapeAll(Text.Split(r[2..], '/')));
    }
  }

  // ---------------------------------------------------------------- matching jobs

  /** The same job, up to the order inside its schema. */
  ghost predicate SameJob(j: Job, k: Job)
  {
    match j
    case Check(v, s, p) => k.Check? && k.value == v && k.path == p && Reordered(s, k.schema)
    case _ => j == k
  }

  ghost predicate HasCounterpart(j: Job, b: seq<Job>)
  {
    exists i :: 0 <= i < |b| && SameJob(j, b[i])
  }

  ghost predicate HasOrigin(a: seq<Job>, k: Job)
  {
    exists i :: 0 <= i < |a| && SameJob(a[i], k)
  }

  /** The two lists hold the same jobs, in any order and multiplicity. */
  ghost predicate JobsMatch(a: seq<Job>, b: seq<Job>)
  {
    && (forall i :: 0 <= i < |a| ==> HasCounterpart(a[i], b))
    && (forall i :: 0 <= i < |b| ==> HasOrigin(a, b[i]))
  }

  lemma MatchPointwise(a: seq<Job>, b: seq<Job>)
    requires |a| == |b| && forall i :: 0 <= i < |a| ==> SameJob(a[i], b[i])
    ensures JobsMatch(a, b)
  {
    forall i | 0 <= i < |a| ensures HasCounterpart(a[i], b) && HasOrigin(a, b[i]) {
      assert SameJob(a[i], b[i]);
    }
  }

  lemma MatchConcat(a: seq<Job>, b: seq<Job>, c: seq<Job>, d: seq<Job>)
    requires JobsMatch(a, b) && JobsMatch(c, d)
    ensures JobsMatch(a + c, b + d)
  {
    forall i | 0 <= i < |a + c| ensures HasCounterpart((a + c)[i], b + d) {
      CounterpartWithin((a + c)[i], b, d);
      assert HasCounterpart((a + c)[i], if i < |a| then b else d);
    }
    forall i | 0 <= i < |b + d| ensures HasOrigin(a + c, (b + d)[i]) {
      OriginWithin(a, c, (b + d)[i]);
      assert HasOrigin(if i < |b| then a else c, (b + d)[i]);
    }
  }

  lemma CounterpartWithin(j: Job, b: seq<Job>, d: seq<Job>)
    ensures HasCounterpart(j, b) || HasCounterpart(j, d) ==> HasCounterpart(j, b + d)
  {
    if HasCounterpart(j, b) {
      var k :| 0 <= k < |b| && SameJob(j, b[k]);
      assert (b + d)[k] == b[k];
    } else if HasCounterpart(j, d) {
      var k :| 0 <= k < |d| && SameJob(j, d[k]);
      assert (b + d)[|b| + k] == d[k];
    }
  }

  lemma OriginWithin(a: seq<Job>, c: seq<Job>, j: Job)
    ensures HasOrigin(a, j) || HasOrigin(c, j) ==> HasOrigin(a + c, j)
  {
    if HasOrigin(a, j) {
      var k :| 0 <= k < |a| && SameJob(a[k], j);
      assert (a + c)[k] == a[k];
    } else if HasOrigin(c, j) {
      var k :| 0 <= k < |c| && SameJob(c[k], j);
      assert (a + c)[|a| + k] == c[k];
    }
  }

  /** Lists of reports and failures match when they have the same members. */
  lemma MatchReports(a: seq<Job>, b: seq<Job>)
    requires (forall j :: j in a ==> !j.Check?) && forall j :: j in a <==> j in b
    ensures JobsMatch(a, b)
  {
    forall i | 0 <= i < |a| ensures HasCounterpart(a[i], b) {
      assert a[i] in b;
      var k :| 0 <= k < |b| && b[k] == a[i];
      assert SameJob(a[i], b[k]);
    }
    forall i | 0 <= i < |b| ensures HasOrigin(a, b[i]) {
      assert b[i] in a;
      var k :| 0 <= k < |a| && a[k] == b[i];
      assert SameJob(a[k], b[i]);
    }
  }

  // ---------------------------------------------------------------- running matched jobs

  /** Where N answers, M gives the same answer for the reordered schema. */
  ghost predicate Follows(N: Nested, M: Nested)
  {
    forall v, s, t, p :: Reordered(s, t) && N(v, s, p).Ok? ==> M(v, t, p) == N(v, s, p)
  }

  lemma DoFollows(N: Nested, M: Nested, j: Job, k: Job)
    requires Follows(N, M) && SameJob(j, k) && Do(N, j).Ok?
    ensures Do(M, k) == Do(N, j)
  {
    if j.Check? {
      assert N(j.value, j.schema, j.path).Ok?;
    }
  }

  ghost predicate SameFindings(a: Outcome, b: Outcome)
  {
    a.Ok? && b.Ok? && forall x :: x in a.findings <==> x in b.findings
  }

  lemma RunFollows(N: Nested, M: Nested, a: seq<Job>, b: seq<Job>)
    requires Follows(N, M) && JobsMatch(a, b) && Run(N, a).Ok?
    ensures SameFindings(Run(N, a), Run(M, b))
  {
    RunOk(N, a);
    forall i | 0 <= i < |b| ensures Do(M, b[i]).Ok? {
      var k :| 0 <= k < |a| && SameJob(a[k], b[i]);
      DoFollows(N, M, a[k], b[i]);
    }
    RunOk(M, b);
    RunIsSequence(N, a);
    RunIsSequence(M, b);
    forall x ensures x in Run(N, a).findings <==> x in Run(M, b).findings {
      SequenceMembers(Outcomes(N, a), x);
      SequenceMembers(Outcomes(M, b), x);
      if Contributes(Outcomes(N, a), x) { ContributionFollows(N, M, a, b, x); }
      if Contributes(Outcomes(M, b), x) { ContributionPrecedes(N, M, a, b, x); }
    }
  }

  lemma ContributionFollows(N: Nested, M: Nested, a: seq<Job>, b: seq<Job>, x: Finding)
    requires Follows(N, M) && JobsMatch(a, b) && Contributes(Outcomes(N, a), x)
    ensures Contributes(Outcomes(M, b), x)
  {
    var outs := Outcomes(N, a);
    var i :| 0 <= i < |outs| && outs[i].Ok? && x in outs[i].findings;
    assert HasCounterpart(a[i], b);
    var k :| 0 <= k < |b| && SameJob(a[i], b[k]);
    DoFollows(N, M, a[i], b[k]);
    assert Outcomes(M, b)[k] == outs[i];
  }

  lemma ContributionPrecedes(N: Nested, M: Nested, a: seq<Job>, b: seq<Job>, x: Finding)
    requires Follows(N, M) && JobsMatch(a, b) && Contributes(Outcomes(M, b), x)
    requires forall i :: 0 <= i < |a| ==> Do(N, a[i]).Ok?
    ensures Contributes(Outcomes(N, a), x)
  {
    var outs := Outcomes(M, b);
    var i :| 0 <= i < |outs| && outs[i].Ok? && x in outs[i].findings;
    assert HasOrigin(a, b[i]);
    var k :| 0 <= k < |a| && SameJob(a[k], b[i]);
    DoFollows(N, M, a[k], b[i]);
    assert Outcomes(N, a)[k] == outs[i];
  }

  // ---------------------------------------------------------------- one node

  lemma RefMatch(root: Json, root': Json, s: Json, t: Json, v: Json, path: string)
    requires Reordered(root, root') && s.Obj? && Reordered(s, t)
    ensures JobsMatch(RefJobs(root, s.fields, v, path), RefJobs(root', t.fields, v, path))
  {
    KeywordShape(s, t, "$ref");
    var a, b := RefJobs(root, s.fields, v, path), RefJobs(root', t.fields, v, path);
    if Get(s.fields, "$ref").Str? {
      PointerReordered(root, root', Get(s.fields, "$ref").s);
    }
    MatchPointwise(a, b);
  }

  lemma AllOfMatch(s: Json, t: Json, v: Json, path: string)
    requires s.Obj? && Reordered(s, t)
    ensures JobsMatch(AllOfJobs(s.fields, v, path), AllOfJobs(t.fields, v, path))
  {
    KeywordShape(s, t, "allOf");
    var f, g := s.fields, t.fields;
    if "allOf" in f && f["allOf"].Arr? {
      ListMatch(f["allOf"].items, g["allOf"].items, v, path, AllOfJobs(f, v, path), AllOfJobs(g, v, path));
    } else {
      MatchPointwise(AllOfJobs(f, v, path), AllOfJobs(g, v, path));
    }
  }

  lemma ListMatch(xs: seq<Json>, ys: seq<Json>, v: Json, path: string, a: seq<Job>, b: seq<Job>)
    requires forall i :: 0 <= i < |xs| ==> Becomes(xs[i], ys)
    requires forall j :: 0 <= j < |ys| ==> ComesFrom(xs, ys[j])
    requires |a| == |xs| && forall i :: 0 <= i < |a| ==> a[i] == Check(v, xs[i], path)
    requires |b| == |ys| && forall i :: 0 <= i < |b| ==> b[i] == Check(v, ys[i], path)
    ensures JobsMatch(a, b)
  {
    forall i | 0 <= i < |a| ensures HasCounterpart(a[i], b) {
      ListCounterpart(xs[i], ys, v, path, b);
    }
    forall j | 0 <= j < |b| ensures HasOrigin(a, b[j]) {
      ListOrigin(xs, ys[j], v, path, a);
    }
  }

  lemma ListCounterpart(x: Json, ys: seq<Json>, v: Json, path: string, b: seq<Job>)
    requires Becomes(x, ys)
    requires |b| == |ys| && forall i :: 0 <= i < |b| ==> b[i] == Check(v, ys[i], path)
    ensures HasCounterpart(Check(v, x, path), b)
  {
    var j :| 0 <= j < |ys| && Reordered(x, ys[j]);
    assert SameJob(Check(v, x, path), b[j]);
  }

  lemma ListOrigin(xs: seq<Json>, y: Json, v: Json, path: string, a: seq<Job>)
    requires ComesFrom(xs, y)
    requires |a| == |xs| && forall i :: 0 <= i < |a| ==> a[i] == Check(v, xs[i], path)
    ensures HasOrigin(a, Check(v, y, path))
  {
    var i :| 0 <= i < |xs| && Reordered(xs[i], y);
    assert SameJob(a[i], Check(v, y, path));
  }

  lemma InPlaceMatch(root: Json, root': Json, s: Json, t: Json, v: Json, path: string)
    requires Reordered(root, root') && s.Obj? && Reordered(s, t)
    ensures JobsMatch(InPlaceJobs(root, s.fields, v, path), InPlaceJobs(root', t.fields, v, path))
  {
    RefMatch(root, root', s, t, v, path);
    AllOfMatch(s, t, v, path);
    MatchConcat(RefJobs(root, s.fields, v, path), RefJobs(root', t.fields, v, path),
                AllOfJobs(s.fields, v, path), AllOfJobs(t.fields, v, path));
  }

  lemma {:induction false} MissingMember(names: seq<string>, m: map<string, Json>, path: string, j: Job)
    ensures j in MissingJobs(names, m, path) <==>
            exists r :: r in names && r !in m && j == Report(Finding(path + "." + r, "required field is missing"))
  {
    if |names| > 0 {
      MissingMember(names[..|names| - 1], m, path, j);
      assert names == names[..|names| - 1] + [names[|names| - 1]];
    }
  }

  lemma RequiredNameMember(f: map<string, Json>, r: string)
    requires Get(f, "required").Arr?
    ensures r in RequiredNames(f) <==>
            exists x :: x in Get(f, "required").items && r == if x.Str? then x.s else ""
  {
    var items, names := Get(f, "required").items, RequiredNames(f);
    if r in names {
      var i :| 0 <= i < |names| && names[i] == r;
      assert items[i] in items;
    }
    if x :| x in items && r == if x.Str? then x.s else "" {
      var i :| 0 <= i < |items| && items[i] == x;
      assert names[i] == r;
    }
  }

  lemma RequiredNamesAlike(f: map<string, Json>, g: map<string, Json>)
    requires Get(f, "required").Arr? && Get(g, "required").Arr?
    requires forall x :: x in Get(f, "required").items <==> x in Get(g, "required").items
    ensures forall r :: r in RequiredNames(f) <==> r in RequiredNames(g)
  {
    forall r ensures r in RequiredNames(f) <==> r in RequiredNames(g) {
      RequiredNameMember(f, r);
      RequiredNameMember(g, r);
    }
  }

  lemma MissingAlike(a: seq<string>, b: seq<string>, m: map<string, Json>, path: string)
    requires forall r :: r in a <==> r in b
    ensures forall j :: j in MissingJobs(StableSort(LexLe, a), m, path) <==> j in MissingJobs(StableSort(LexLe, b), m, path)
  {
    forall j ensures j in MissingJobs(StableSort(LexLe, a), m, path) <==> j in MissingJobs(StableSort(LexLe, b), m, path) {
      MissingMember(StableSort(LexLe, a), m, path, j);
      MissingMember(StableSort(LexLe, b), m, path, j);
      forall r ensures r in StableSort(LexLe, a) <==> r in StableSort(LexLe, b) {
        SortMember(LexLe, a, r);
        SortMember(LexLe, b, r);
      }
    }
  }

  lemma RequiredMatch(s: Json, t: Json, m: map<string, Json>, path: string)
    requires s.Obj? && Reordered(s, t)
    ensures JobsMatch(RequiredJobs(s.fields, m, path), RequiredJobs(t.fields, m, path))
  {
    var f, g := s.fields, t.fields;
    KeywordShape(s, t, "required");
    MissingReports(StableSort(LexLe, RequiredNames(f)), m, path);
    if Get(f, "required").Arr? {
      RequiredNamesAlike(f, g);
    }
    MissingAlike(RequiredNames(f), RequiredNames(g), m, path);
    MatchReports(RequiredJobs(f, m, path), RequiredJobs(g, m, path));
  }

  /** `properties` maps names to schemas, as acceptance guarantees. */
  ghost predicate PropertiesAreSchemas(f: map<string, Json>)
  {
    forall k :: k in Properties(f) ==> Properties(f)[k].Obj?
  }

  lemma KeyMatch(s: Json, t: Json, m: map<string, Json>, key: string, path: string)
    requires s.Obj? && Reordered(s, t) && PropertiesAreSchemas(s.fields) && key in m
    ensures JobsMatch(PropertyJob(s.fields, m, key, path), PropertyJob(t.fields, m, key, path))
  {
    KeywordShape(s, t, "properties");
    KeywordShape(s, t, "additionalProperties");
    if "properties" in s.fields && s.fields["properties"].Obj? && key in s.fields["properties"].fields {
      MemberShape(key, s.fields["properties"].fields[key], t.fields["properties"].fields[key]);
      assert Properties(s.fields)[key].Obj?;
    }
    MatchPointwise(PropertyJob(s.fields, m, key, path), PropertyJob(t.fields, m, key, path));
  }

  lemma {:induction false} PropertyMatch(s: Json, t: Json, m: map<string, Json>, keys: seq<string>, path: string)
    requires s.Obj? && Reordered(s, t) && PropertiesAreSchemas(s.fields) && forall k :: k in keys ==> k in m
    ensures JobsMatch(PropertyJobs(s.fields, m, keys, path), PropertyJobs(t.fields, m, keys, path))
  {
    if |keys| > 0 {
      var init, last := keys[..|keys| - 1], keys[|keys| - 1];
      PropertyMatch(s, t, m, init, path);
      KeyMatch(s, t, m, last, path);
      MatchConcat(PropertyJobs(s.fields, m, init, path), PropertyJobs(t.fields, m, init, path),
                  PropertyJob(s.fields, m, last, path), PropertyJob(t.fields, m, last, path));
    }
  }

  lemma SizeAlike(s: Json, t: Json, xs: seq<Json>, path: string)
    requires s.Obj? && Reordered(s, t)
    ensures SizeJobs(s.fields, xs, path) == SizeJobs(t.fields, xs, path)
  {
    KeywordShape(s, t, "minItems");
    KeywordShape(s, t, "maxItems");
  }

  lemma {:induction false} UniqueAlike(E: Engine, s: Json, t: Json, xs: seq<Json>, n: nat, path: string)
    requires s.Obj? && Reordered(s, t) && n <= |xs|
    ensures UniqueJobs(E, s.fields, xs, n, path) == UniqueJobs(E, t.fields, xs, n, path)
  {
    KeywordShape(s, t, "uniqueItems");
    if n > 0 {
      UniqueAlike(E, s, t, xs, n - 1, path);
    }
  }

  lemma ItemMatch(s: Json, t: Json, xs: seq<Json>, path: string)
    requires s.Obj? && Reordered(s, t)
    ensures JobsMatch(ItemJobs(s.fields, xs, path), ItemJobs(t.fields, xs, path))
  {
    KeywordShape(s, t, "items");
    KeywordShape(s, t, "additionalItems");
    var f, g := s.fields, t.fields;
    assert ItemCount(f, xs) == ItemCount(g, xs);
    MatchPointwise(ItemJobs(f, xs, path), ItemJobs(g, xs, path));
  }

  lemma StringAlike(E: Engine, s: Json, t: Json, x: string, path: string)
    requires s.Obj? && Reordered(s, t)
    ensures StringJobs(E, s.fields, x, path) == StringJobs(E, t.fields, x, path)
  {
    KeywordShape(s, t, "minLength");
    KeywordShape(s, t, "maxLength");
    KeywordShape(s, t, "pattern");
  }

  lemma EnumAlike(E: Engine, s: Json, t: Json, v: Json, path: string)
    requires s.Obj? && Reordered(s, t)
    ensures EnumJobs(E, s.fields, v, path) == EnumJobs(E, t.fields, v, path)
  {
    KeywordShape(s, t, "enum");
  }

  lemma MatchSelf(a: seq<Job>)
    requires forall j :: j in a ==> !j.Check?
    ensures JobsMatch(a, a)
  {
    MatchReports(a, a);
  }

  lemma ObjectMatch(s: Json, t: Json, m: map<string, Json>, path: string)
    requires s.Obj? && Reordered(s, t) && PropertiesAreSchemas(s.fields)
    ensures var keys := SortedList(m.Keys);
            JobsMatch(RequiredJobs(s.fields, m, path) + PropertyJobs(s.fields, m, keys, path),
                      RequiredJobs(t.fields, m, path) + PropertyJobs(t.fields, m, keys, path))
  {
    var keys := SortedList(m.Keys);
    RequiredMatch(s, t, m, path);
    PropertyMatch(s, t, m, keys, path);
    MatchConcat(RequiredJobs(s.fields, m, path), RequiredJobs(t.fields, m, path),
                PropertyJobs(s.fields, m, keys, path), PropertyJobs(t.fields, m, keys, path));
  }

  lemma ArrayMatch(E: Engine, s: Json, t: Json, xs: seq<Json>, path: string)
    requires s.Obj? && Reordered(s, t)
    ensures JobsMatch(SizeJobs(s.fields, xs, path) + UniqueJobs(E, s.fields, xs, |xs|, path) + ItemJobs(s.fields, xs, path),
                      SizeJobs(t.fields, xs, path) + UniqueJobs(E, t.fields, xs, |xs|, path) + ItemJobs(t.fields, xs, path))
  {
    var a, b := SizeJobs(s.fields, xs, path), UniqueJobs(E, s.fields, xs, |xs|, path);
    SizeAlike(s, t, xs, path);
    UniqueAlike(E, s, t, xs, |xs|, path);
    UniqueReports(E, s.fields, xs, |xs|, path);
    MatchSelf(a);
    MatchSelf(b);
    ItemMatch(s, t, xs, path);
    MatchConcat(a, a, b, b);
    MatchConcat(a + b, a + b, ItemJobs(s.fields, xs, path), ItemJobs(t.fields, xs, path));
  }

  lemma KindMatch(E: Engine, s: Json, t: Json, v: Json, path: string)
    requires s.Obj? && Reordered(s, t) && PropertiesAreSchemas(s.fields)
    ensures JobsMatch(KindJobs(E, s.fields, v, path), KindJobs(E, t.fields, v, path))
  {
    match v
    case Obj(m) => ObjectMatch(s, t, m, path);
    case Arr(xs) => ArrayMatch(E, s, t, xs, path);
    case Str(x) =>
      StringAlike(E, s, t, x, path);
      MatchSelf(StringJobs(E, s.fields, x, path));
    case _ => MatchSelf([]);
  }

  lemma LocalMatch(E: Engine, s: Json, t: Json, v: Json, path: string)
    requires s.Obj? && Reordered(s, t) && PropertiesAreSchemas(s.fields)
    ensures JobsMatch(LocalJobs(E, s.fields, v, path), LocalJobs(E, t.fields, v, path))
  {
    var enums := EnumJobs(E, s.fields, v, path);
    EnumAlike(E, s, t, v, path);
    MatchSelf(enums);
    KindMatch(E, s, t, v, path);
    MatchConcat(enums, enums, KindJobs(E, s.fields, v, path), KindJobs(E, t.fields, v, path));
  }

  lemma AssembleFollows(s: Json, t: Json, v: Json, path: string, a: Outcome, b: Outcome, c: Outcome, d: Outcome)
    requires s.Obj? && Reordered(s, t) && SameFindings(a, b)
    requires TypeMismatch(s.fields, v) || SameFindings(c, d)
    ensures Assemble(s.fields, v, path, a, c) == Assemble(t.fields, v, path, b, d)
  {
    KeywordShape(s, t, "type");
    if !TypeMismatch(s.fields, v) {
      NormalizeOfMembers(a.findings + c.findings, b.findings + d.findings);
    }
  }

  lemma NodeFollows(E: Engine, root: Json, root': Json, N: Nested, M: Nested, v: Json, s: Json, t: Json, path: string)
    requires Follows(N, M) && Reordered(root, root') && Reordered(s, t)
    requires Node(E, root, N, v, s, path).Ok?
    ensures Node(E, root', M, v, t, path) == Node(E, root, N, v, s, path)
  {
    var f, g := s.fields, t.fields;
    SupportedReordered(E, s, t);
    var a, b := InPlaceJobs(root, f, v, path), InPlaceJobs(root', g, v, path);
    var c, d := LocalJobs(E, f, v, path), LocalJobs(E, g, v, path);
    InPlaceMatch(root, root', s, t, v, path);
    RunFollows(N, M, a, b);
    if !TypeMismatch(f, v) {
      AcceptedProperties(E, s);
      LocalMatch(E, s, t, v, path);
      RunFollows(N, M, c, d);
    }
    AssembleFollows(s, t, v, path, Run(N, a), Run(M, b), Run(N, c), Run(M, d));
  }

  // ---------------------------------------------------------------- order-independence

  /** A call that returns also returns, and the same, after the reordering. */
  lemma {:induction false} ReturnsAlike(E: Engine, root: Json, root': Json, fuel: nat, v: Json, s: Json, t: Json, path: string)
    requires Reordered(root, root') && Reordered(s, t)
    requires Validate(E, root, fuel, v, s, path).Ok?
    ensures Validate(E, root', fuel, v, t, path) == Validate(E, root, fuel, v, s, path)
    decreases fuel, 0
  {
    CallsFollow(E, root, root', fuel - 1);
    NodeFollows(E, root, root', Calls(E, root, fuel - 1), Calls(E, root', fuel - 1), v, s, t, path);
  }

  lemma {:induction false} CallsFollow(E: Engine, root: Json, root': Json, fuel: nat)
    requires Reordered(root, root')
    ensures Follows(Calls(E, root, fuel), Calls(E, root', fuel))
    decreases fuel, 1
  {
    forall v, s, t, p | Reordered(s, t) && Calls(E, root, fuel)(v, s, p).Ok?
      ensures Calls(E, root', fuel)(v, t, p) == Calls(E, root, fuel)(v, s, p)
    {
      ReturnsAlike(E, root, root', fuel, v, s, t, p);
    }
  }

  lemma {:induction false} ReorderedBack(a: Json, b: Json)
    requires Reordered(a, b)
    ensures Reordered(b, a)
    decreases a, 0
  {
    match a
    case Obj(m) =>
      forall k | k in b.fields ensures ReorderedMember(k, b.fields[k], m[k]) {
        MemberBack(k, m[k], b.fields[k]);
      }
    case Arr(xs) =>
      forall i | 0 <= i < |xs| ensures Reordered(b.items[i], xs[i]) {
        ReorderedBack(xs[i], b.items[i]);
      }
    case _ =>
  }

  lemma {:induction false} MemberBack(k: string, a: Json, b: Json)
    requires ReorderedMember(k, a, b)
    ensures ReorderedMember(k, b, a)
    decreases a, 1
  {
    if k == "allOf" && a.Arr? {
      forall j | 0 <= j < |b.items| ensures Becomes(b.items[j], a.items) {
        var i := Origin(a.items, b.items[j]);
        ReorderedBack(a.items[i], b.items[j]);
      }
      forall i | 0 <= i < |a.items| ensures ComesFrom(b.items, a.items[i]) {
        var j := Counterpart(a.items[i], b.items);
        ReorderedBack(a.items[i], b.items[j]);
      }
    } else if !(k == "required" && a.Arr?) && !(k == "enum" && a.Arr?) {
      ReorderedBack(a, b);
    }
  }

  lemma Origin(xs: seq<Json>, y: Json) returns (i: nat)
    requires ComesFrom(xs, y)
    ensures i < |xs| && Reordered(xs[i], y)
  {
    i :| 0 <= i < |xs| && Reordered(xs[i], y);
  }

  lemma Counterpart(x: Json, ys: seq<Json>) returns (j: nat)
    requires Becomes(x, ys)
    ensures j < |ys| && Reordered(x, ys[j])
  {
    j :| 0 <= j < |ys| && Reordered(x, ys[j]);
  }

  /** Reordering `allOf` and `required` anywhere in the schema and in the root, behind references
      as well, changes neither whether a call returns nor what it returns. */
  lemma OrderIsIrrelevant(E: Engine, root: Json, root': Json, fuel: nat, v: Json, s: Json, t: Json, path: string)
    requires Reordered(root, root') && Reordered(s, t)
    ensures Validate(E, root', fuel, v, t, path).Ok? <==> Validate(E, root, fuel, v, s, path).Ok?
    ensures Validate(E, root, fuel, v, s, path).Ok? ==>
              Validate(E, root', fuel, v, t, path) == Validate(E, root, fuel, v, s, path)
  {
    if Validate(E, root, fuel, v, s, path).Ok? {
      ReturnsAlike(E, root, root', fuel, v, s, t, path);
    } else if Validate(E, root', fuel, v, t, path).Ok? {
      ReorderedBack(root, root');
      ReorderedBack(s, t);
      ReturnsAlike(E, root', root, fuel, v, t, s, path);
    }
  }

  /** The same for a whole schema validated against itself as the root. */
  lemma RootOrderIsIrrelevant(E: Engine, fuel: nat, v: Json, s: Json, t: Json, path: string)
    requires Reordered(s, t)
    ensures Validate(E, t, fuel, v, t, path).Ok? <==> Validate(E, s, fuel, v, s, path).Ok?
    ensures Validate(E, s, fuel, v, s, path).Ok? ==> Validate(E, t, fuel, v, t, path) == Validate(E, s, fuel, v, s, path)
  {
    OrderIsIrrelevant(E, s, t, fuel, v, s, t, path);
  }
}
