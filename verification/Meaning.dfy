/** What a schema demands of a value, stated without evaluation order, and the proof that
    `validate_instance` returns no finding exactly for the values that meet it. */
module Meaning {
  import opened Options
  import opened Ordering
  import opened Reachability
  import opened JsonSchema
  import opened Validation

  // ---------------------------------------------------------------- in-place reachability

  /** t applies to the same value as s: it is the target of `$ref` or a member of `allOf`. */
  ghost predicate InPlaceStep(root: Json, s: Json, t: Json)
  {
    && s.Obj?
    && ((Get(s.fields, "$ref").Str? && Pointer(root, s.fields["$ref"].s) == Some(t)) ||
        ("allOf" in s.fields && s.fields["allOf"].Arr? && t in s.fields["allOf"].items))
  }

  ghost function InPlace(root: Json): (Json, Json) -> bool
  {
    (s, t) => InPlaceStep(root, s, t)
  }

  /** s applies t to its own value, through any number of `$ref` and `allOf` steps. */
  ghost predicate Reaches(root: Json, s: Json, t: Json)
  {
    Reach(InPlace(root), s, t)
  }

  // ---------------------------------------------------------------- satisfaction

  /** The value meets the schema: every node that applies in place holds of it. */
  ghost predicate Satisfies(E: Engine, root: Json, s: Json, v: Json)
    decreases v, 1
  {
    forall t :: Reaches(root, s, t) ==> NodeHolds(E, root, t, v)
  }

  /** The members of `properties`; none when the keyword is absent or null. */
  function Properties(f: map<string, Json>): map<string, Json>
  {
    if "properties" in f && f["properties"].Obj? then f["properties"].fields else map[]
  }

  ghost predicate AtLeast(f: map<string, Json>, keyword: string, n: nat)
  {
    Get(f, keyword).Int? ==> n >= Get(f, keyword).n
  }

  ghost predicate AtMost(f: map<string, Json>, keyword: string, n: nat)
  {
    Get(f, keyword).Int? ==> n <= Get(f, keyword).n
  }

  /** The assertions of one node, keyword by keyword. */
  ghost predicate NodeHolds(E: Engine, root: Json, t: Json, v: Json)
    decreases v, 0
  {
    && t.Obj?
    && var f := t.fields;
    && (Get(f, "type").Str? ==> TypeMatches(v, Get(f, "type").s))
    && (Get(f, "enum").Arr? ==> InEnum(v, Get(f, "enum").items))
    && match v
       case Obj(m) =>
         && (Get(f, "required").Arr? ==>
               forall x :: x in Get(f, "required").items && x.Str? ==> x.s in m)
         && (forall k :: k in m ==> if k in Properties(f) then Satisfies(E, root, Properties(f)[k], m[k])
                                    else !ForbidsAdditional(f))
       case Arr(xs) =>
         && AtLeast(f, "minItems", |xs|) && AtMost(f, "maxItems", |xs|)
         && (Get(f, "uniqueItems") == Bool(true) ==> forall i, j :: 0 <= i < j < |xs| ==> xs[i] != xs[j])
         && (Get(f, "items").Obj? ==> forall i :: 0 <= i < |xs| ==> Satisfies(E, root, Get(f, "items"), xs[i]))
         && (Get(f, "items").Arr? ==>
               && (forall i :: 0 <= i < |xs| && i < |Get(f, "items").items| ==>
                     Satisfies(E, root, Get(f, "items").items[i], xs[i]))
               && (Get(f, "additionalItems") == Bool(false) ==> |xs| <= |Get(f, "items").items|))
       case Str(s) =>
         && AtLeast(f, "minLength", |s|) && AtMost(f, "maxLength", |s|)
         && (Get(f, "pattern").Str? ==> E.search(Get(f, "pattern").s, s))
       case _ => true
  }

  ghost function Holds(E: Engine, root: Json, v: Json): Json -> bool
  {
    t => NodeHolds(E, root, t, v)
  }

  lemma SatisfiesThroughout(E: Engine, root: Json, s: Json, v: Json)
    ensures Satisfies(E, root, s, v) <==> Throughout(InPlace(root), s, Holds(E, root, v))
  {
  }

  /** Satisfaction along the steps, with the steps still abstract. */
  lemma SatisfiesSteps(E: Engine, root: Json, s: Json, v: Json)
    ensures Satisfies(E, root, s, v) <==>
            Holds(E, root, v)(s) && forall u :: InPlace(root)(s, u) ==> Satisfies(E, root, u, v)
  {
    var step, holds := InPlace(root), Holds(E, root, v);
    ThroughoutUnfold(step, s, holds);
    SatisfiesThroughout(E, root, s, v);
    forall u ensures Satisfies(E, root, u, v) <==> Throughout(step, u, holds) {
      SatisfiesThroughout(E, root, u, v);
    }
  }

  /** Satisfaction, one in-place step at a time. */
  lemma SatisfiesUnfold(E: Engine, root: Json, s: Json, v: Json)
    ensures Satisfies(E, root, s, v) <==>
            NodeHolds(E, root, s, v) && forall u :: InPlaceStep(root, s, u) ==> Satisfies(E, root, u, v)
  {
    SatisfiesSteps(E, root, s, v);
    assert Holds(E, root, v)(s) == NodeHolds(E, root, s, v);
    assert forall u :: InPlace(root)(s, u) == InPlaceStep(root, s, u);
  }

  // ---------------------------------------------------------------- jobs and meaning

  ghost predicate JobHolds(E: Engine, root: Json, job: Job)
  {
    job.Check? && Satisfies(E, root, job.schema, job.value)
  }

  ghost predicate AllHold(E: Engine, root: Json, jobs: seq<Job>)
  {
    forall i :: 0 <= i < |jobs| ==> JobHolds(E, root, jobs[i])
  }

  lemma AllHoldConcat(E: Engine, root: Json, a: seq<Job>, b: seq<Job>)
    ensures AllHold(E, root, a + b) <==> AllHold(E, root, a) && AllHold(E, root, b)
  {
    if AllHold(E, root, a + b) {
      forall i | 0 <= i < |a| ensures JobHolds(E, root, a[i]) { assert (a + b)[i] == a[i]; }
      forall i | 0 <= i < |b| ensures JobHolds(E, root, b[i]) { assert (a + b)[|a| + i] == b[i]; }
    }
  }

  /** The canonical form tells apart the different items of every array inside the value: what the
      `uniqueItems` check relies on. */
  ghost predicate Separates(E: Engine, v: Json)
  {
    match v
    case Arr(xs) => ItemsApart(E, xs) && forall x :: x in xs ==> Separates(E, x)
    case Obj(m) => forall k :: k in m ==> Separates(E, m[k])
    case _ => true
  }

  ghost predicate ItemsApart(E: Engine, xs: seq<Json>)
  {
    forall i, j :: 0 <= i < j < |xs| && E.canonical(xs[i]) == E.canonical(xs[j]) ==> xs[i] == xs[j]
  }

  /** The values that the jobs check are separated as well. */
  ghost predicate JobsSeparate(E: Engine, jobs: seq<Job>)
  {
    forall i :: 0 <= i < |jobs| && jobs[i].Check? ==> Separates(E, jobs[i].value)
  }

  lemma JobsSeparateConcat(E: Engine, a: seq<Job>, b: seq<Job>)
    requires JobsSeparate(E, a) && JobsSeparate(E, b)
    ensures JobsSeparate(E, a + b)
  {
  }

  lemma {:induction false} PropertiesSeparate(E: Engine, f: map<string, Json>, m: map<string, Json>, keys: seq<string>, path: string)
    requires Separates(E, Obj(m)) && forall k :: k in keys ==> k in m
    ensures JobsSeparate(E, PropertyJobs(f, m, keys, path))
  {
    if |keys| > 0 {
      PropertiesSeparate(E, f, m, keys[..|keys| - 1], path);
      JobsSeparateConcat(E, PropertyJobs(f, m, keys[..|keys| - 1], path), PropertyJob(f, m, keys[|keys| - 1], path));
    }
  }

  lemma ItemsSeparate(E: Engine, f: map<string, Json>, xs: seq<Json>, path: string)
    requires Separates(E, Arr(xs))
    ensures JobsSeparate(E, ItemJobs(f, xs, path))
  {
  }

  lemma {:induction false} ReportsSeparate(E: Engine, jobs: seq<Job>)
    requires forall j :: j in jobs ==> !j.Check?
    ensures JobsSeparate(E, jobs)
  {
    forall i | 0 <= i < |jobs| ensures !jobs[i].Check? {
      assert jobs[i] in jobs;
    }
  }

  lemma {:induction false} MissingReports(names: seq<string>, m: map<string, Json>, path: string)
    ensures forall j :: j in MissingJobs(names, m, path) ==> !j.Check?
  {
    if |names| > 0 {
      MissingReports(names[..|names| - 1], m, path);
    }
  }

  lemma {:induction false} UniqueReports(E: Engine, f: map<string, Json>, xs: seq<Json>, n: nat, path: string)
    requires n <= |xs|
    ensures forall j :: j in UniqueJobs(E, f, xs, n, path) ==> j.Report?
  {
    if n > 0 {
      UniqueReports(E, f, xs, n - 1, path);
    }
  }

  lemma ObjectSeparate(E: Engine, f: map<string, Json>, m: map<string, Json>, path: string)
    requires Separates(E, Obj(m))
    ensures JobsSeparate(E, RequiredJobs(f, m, path) + PropertyJobs(f, m, SortedList(m.Keys), path))
  {
    MissingReports(StableSort(LexLe, RequiredNames(f)), m, path);
    ReportsSeparate(E, RequiredJobs(f, m, path));
    PropertiesSeparate(E, f, m, SortedList(m.Keys), path);
    JobsSeparateConcat(E, RequiredJobs(f, m, path), PropertyJobs(f, m, SortedList(m.Keys), path));
  }

  lemma ArraySeparate(E: Engine, f: map<string, Json>, xs: seq<Json>, path: string)
    requires Separates(E, Arr(xs))
    ensures JobsSeparate(E, SizeJobs(f, xs, path) + UniqueJobs(E, f, xs, |xs|, path) + ItemJobs(f, xs, path))
  {
    var a, b, c := SizeJobs(f, xs, path), UniqueJobs(E, f, xs, |xs|, path), ItemJobs(f, xs, path);
    ReportsSeparate(E, a);
    UniqueReports(E, f, xs, |xs|, path);
    ReportsSeparate(E, b);
    ItemsSeparate(E, f, xs, path);
    JobsSeparateConcat(E, a, b);
    JobsSeparateConcat(E, a + b, c);
  }

  lemma LocalSeparate(E: Engine, f: map<string, Json>, v: Json, path: string)
    requires Separates(E, v)
    ensures JobsSeparate(E, LocalJobs(E, f, v, path))
  {
    ReportsSeparate(E, EnumJobs(E, f, v, path));
    assert JobsSeparate(E, KindJobs(E, f, v, path)) by {
      match v
      case Obj(m) => ObjectSeparate(E, f, m, path);
      case Arr(xs) => ArraySeparate(E, f, xs, path);
      case Str(t) => ReportsSeparate(E, StringJobs(E, f, t, path));
      case _ =>
    }
    JobsSeparateConcat(E, EnumJobs(E, f, v, path), KindJobs(E, f, v, path));
  }

  lemma InPlaceSeparate(E: Engine, root: Json, f: map<string, Json>, v: Json, path: string)
    requires Separates(E, v)
    ensures JobsSeparate(E, InPlaceJobs(root, f, v, path))
  {
    JobsSeparateConcat(E, RefJobs(root, f, v, path), AllOfJobs(f, v, path));
  }

  lemma InPlaceMeaning(E: Engine, root: Json, s: Json, v: Json, path: string)
    requires s.Obj? && Fail !in InPlaceJobs(root, s.fields, v, path)
    ensures AllHold(E, root, InPlaceJobs(root, s.fields, v, path)) <==>
            forall u :: InPlaceStep(root, s, u) ==> Satisfies(E, root, u, v)
  {
    if AllHold(E, root, InPlaceJobs(root, s.fields, v, path)) {
      forall u | InPlaceStep(root, s, u) ensures Satisfies(E, root, u, v) {
        InPlaceHeld(E, root, s, v, path, u);
      }
    }
    if forall u :: InPlaceStep(root, s, u) ==> Satisfies(E, root, u, v) {
      InPlaceHolds(E, root, s, v, path);
    }
  }

  lemma InPlaceHeld(E: Engine, root: Json, s: Json, v: Json, path: string, u: Json)
    requires s.Obj? && AllHold(E, root, InPlaceJobs(root, s.fields, v, path)) && InPlaceStep(root, s, u)
    ensures Satisfies(E, root, u, v)
  {
    var f, jobs := s.fields, InPlaceJobs(root, s.fields, v, path);
    var refs, subs := RefJobs(root, f, v, path), AllOfJobs(f, v, path);
    if Get(f, "$ref").Str? && Pointer(root, f["$ref"].s) == Some(u) {
      assert refs[0] == Check(v, u, path) && jobs[0] == refs[0];
    } else {
      var i :| 0 <= i < |f["allOf"].items| && f["allOf"].items[i] == u;
      assert subs[i] == Check(v, u, path) && jobs[|refs| + i] == subs[i];
    }
  }

  lemma InPlaceHolds(E: Engine, root: Json, s: Json, v: Json, path: string)
    requires s.Obj? && Fail !in InPlaceJobs(root, s.fields, v, path)
    requires forall u :: InPlaceStep(root, s, u) ==> Satisfies(E, root, u, v)
    ensures AllHold(E, root, InPlaceJobs(root, s.fields, v, path))
  {
    var f, jobs := s.fields, InPlaceJobs(root, s.fields, v, path);
    var refs, subs := RefJobs(root, f, v, path), AllOfJobs(f, v, path);
    assert forall j :: j in jobs <==> j in refs || j in subs;
    forall i | 0 <= i < |jobs| ensures JobHolds(E, root, jobs[i]) {
      assert jobs[i] in jobs;
      if i < |refs| {
        assert InPlaceStep(root, s, refs[i].schema);
      } else {
        var k := i - |refs|;
        assert subs[k] in jobs;
        assert subs[k].Check? && subs[k].schema == f["allOf"].items[k];
        assert InPlaceStep(root, s, subs[k].schema);
      }
    }
  }

  lemma {:induction false} MissingMeaning(names: seq<string>, m: map<string, Json>, path: string)
    ensures MissingJobs(names, m, path) == [] <==> forall r :: r in names ==> r in m
    ensures forall i :: 0 <= i < |MissingJobs(names, m, path)| ==> MissingJobs(names, m, path)[i].Report?
  {
    if |names| > 0 {
      MissingMeaning(names[..|names| - 1], m, path);
      assert names == names[..|names| - 1] + [names[|names| - 1]];
    }
  }

  lemma RequiredNamesIn(f: map<string, Json>, m: map<string, Json>)
    requires Get(f, "required").Arr? && forall x :: x in Get(f, "required").items ==> x.Str?
    ensures (forall r :: r in RequiredNames(f) ==> r in m) <==>
            (forall x :: x in Get(f, "required").items && x.Str? ==> x.s in m)
  {
    var items, names := Get(f, "required").items, RequiredNames(f);
    if forall r :: r in names ==> r in m {
      forall x | x in items && x.Str? ensures x.s in m {
        var i :| 0 <= i < |items| && items[i] == x;
        assert names[i] == x.s;
      }
    }
    if forall x :: x in items && x.Str? ==> x.s in m {
      forall r | r in names ensures r in m {
        var i :| 0 <= i < |names| && names[i] == r;
        assert items[i] in items;
      }
    }
  }

  lemma RequiredMeaning(E: Engine, root: Json, f: map<string, Json>, m: map<string, Json>, path: string)
    requires SupportedNode(E, f) && Fail !in RequiredJobs(f, m, path)
    ensures AllHold(E, root, RequiredJobs(f, m, path)) <==>
            (Get(f, "required").Arr? ==> forall x :: x in Get(f, "required").items && x.Str? ==> x.s in m)
  {
    var names := RequiredNames(f);
    var sorted := StableSort(LexLe, names);
    MissingMeaning(sorted, m, path);
    forall r ensures r in sorted <==> r in names { SortMember(LexLe, names, r); }
    assert Fail in [Fail];
    assert RequiredJobs(f, m, path) == MissingJobs(sorted, m, path);
    ReportsHoldOnlyWhenEmpty(E, root, RequiredJobs(f, m, path));
    if Get(f, "required").Arr? {
      RequiredNamesIn(f, m);
    }
  }

  ghost predicate KeyHolds(E: Engine, root: Json, f: map<string, Json>, m: map<string, Json>, k: string)
    requires k in m
  {
    if k in Properties(f) then Satisfies(E, root, Properties(f)[k], m[k]) else !ForbidsAdditional(f)
  }

  lemma {:induction false} PropertyMeaning(E: Engine, root: Json, f: map<string, Json>, m: map<string, Json>,
                                           keys: seq<string>, path: string)
    requires forall k :: k in keys ==> k in m
    requires Fail !in PropertyJobs(f, m, keys, path)
    ensures AllHold(E, root, PropertyJobs(f, m, keys, path)) <==>
            forall k :: k in keys ==> KeyHolds(E, root, f, m, k)
  {
    if |keys| > 0 {
      var init, last := keys[..|keys| - 1], keys[|keys| - 1];
      assert keys == init + [last];
      var a, b := PropertyJobs(f, m, init, path), PropertyJob(f, m, last, path);
      assert forall j :: j in a + b <==> j in a || j in b;
      PropertyMeaning(E, root, f, m, init, path);
      AllHoldConcat(E, root, a, b);
      assert Fail in [Fail];
      assert AllHold(E, root, b) <==> KeyHolds(E, root, f, m, last) by {
        if |b| > 0 { assert AllHold(E, root, b) <==> JobHolds(E, root, b[0]); }
      }
    }
  }

  lemma {:induction false} UniqueMeaning(E: Engine, f: map<string, Json>, xs: seq<Json>, n: nat, path: string)
    requires n <= |xs| && ItemsApart(E, xs)
    ensures UniqueJobs(E, f, xs, n, path) == [] <==>
            (Get(f, "uniqueItems") == Bool(true) ==> forall i, j :: 0 <= i < j < n ==> xs[i] != xs[j])
    ensures forall i :: 0 <= i < |UniqueJobs(E, f, xs, n, path)| ==> UniqueJobs(E, f, xs, n, path)[i].Report?
  {
    if n > 0 {
      UniqueMeaning(E, f, xs, n - 1, path);
    }
  }

  ghost predicate ItemsHold(E: Engine, root: Json, f: map<string, Json>, xs: seq<Json>)
  {
    && (Get(f, "items").Obj? ==> forall i :: 0 <= i < |xs| ==> Satisfies(E, root, Get(f, "items"), xs[i]))
    && (Get(f, "items").Arr? ==>
          && (forall i :: 0 <= i < |xs| && i < |Get(f, "items").items| ==>
                Satisfies(E, root, Get(f, "items").items[i], xs[i]))
          && (Get(f, "additionalItems") == Bool(false) ==> |xs| <= |Get(f, "items").items|))
  }

  lemma ItemMeaning(E: Engine, root: Json, f: map<string, Json>, xs: seq<Json>, path: string)
    ensures AllHold(E, root, ItemJobs(f, xs, path)) <==> ItemsHold(E, root, f, xs)
  {
    var items := Get(f, "items");
    var jobs := ItemJobs(f, xs, path);
    if items.Obj? {
      assert |jobs| == |xs|;
      assert forall i :: 0 <= i < |xs| ==> jobs[i] == Check(xs[i], items, At(path, i));
      if AllHold(E, root, jobs) {
        forall i | 0 <= i < |xs| ensures Satisfies(E, root, items, xs[i]) { assert JobHolds(E, root, jobs[i]); }
      }
    } else if items.Arr? {
      var n := if |xs| < |items.items| then |xs| else |items.items|;
      assert forall i :: 0 <= i < n ==> jobs[i] == Check(xs[i], items.items[i], At(path, i));
      if n < |jobs| {
        assert !JobHolds(E, root, jobs[n]);
      }
      if AllHold(E, root, jobs) {
        forall i | 0 <= i < n ensures Satisfies(E, root, items.items[i], xs[i]) { assert JobHolds(E, root, jobs[i]); }
      }
      if ItemsHold(E, root, f, xs) {
        forall i | 0 <= i < |jobs| ensures JobHolds(E, root, jobs[i]) {
          assert i < n;
        }
      }
    }
  }

  lemma ReportsHoldOnlyWhenEmpty(E: Engine, root: Json, jobs: seq<Job>)
    requires forall i :: 0 <= i < |jobs| ==> jobs[i].Report?
    ensures AllHold(E, root, jobs) <==> jobs == []
  {
    if |jobs| > 0 {
      assert !JobHolds(E, root, jobs[0]);
    }
  }

  lemma NotInParts(a: seq<Job>, b: seq<Job>)
    requires Fail !in a + b
    ensures Fail !in a && Fail !in b
  {
    assert forall j :: j in a || j in b ==> j in a + b;
  }

  lemma ObjectMeaning(E: Engine, root: Json, s: Json, m: map<string, Json>, path: string)
    requires s.Obj? && SupportedNode(E, s.fields)
    requires Fail !in RequiredJobs(s.fields, m, path) + PropertyJobs(s.fields, m, SortedList(m.Keys), path)
    ensures AllHold(E, root, RequiredJobs(s.fields, m, path) + PropertyJobs(s.fields, m, SortedList(m.Keys), path)) <==>
            && (Get(s.fields, "required").Arr? ==>
                  forall x :: x in Get(s.fields, "required").items && x.Str? ==> x.s in m)
            && (forall k :: k in m ==> KeyHolds(E, root, s.fields, m, k))
  {
    var f, keys := s.fields, SortedList(m.Keys);
    var a, b := RequiredJobs(f, m, path), PropertyJobs(f, m, keys, path);
    AllHoldConcat(E, root, a, b);
    NotInParts(a, b);
    RequiredMeaning(E, root, f, m, path);
    PropertyMeaning(E, root, f, m, keys, path);
  }

  lemma ArrayMeaning(E: Engine, root: Json, f: map<string, Json>, xs: seq<Json>, path: string)
    requires SupportedNode(E, f) && ItemsApart(E, xs)
    ensures AllHold(E, root, SizeJobs(f, xs, path) + UniqueJobs(E, f, xs, |xs|, path) + ItemJobs(f, xs, path)) <==>
            && AtLeast(f, "minItems", |xs|) && AtMost(f, "maxItems", |xs|)
            && (Get(f, "uniqueItems") == Bool(true) ==> forall i, j :: 0 <= i < j < |xs| ==> xs[i] != xs[j])
            && ItemsHold(E, root, f, xs)
  {
    var a, b, c := SizeJobs(f, xs, path), UniqueJobs(E, f, xs, |xs|, path), ItemJobs(f, xs, path);
    AllHoldConcat(E, root, a + b, c);
    AllHoldConcat(E, root, a, b);
    UniqueMeaning(E, f, xs, |xs|, path);
    ReportsHoldOnlyWhenEmpty(E, root, a);
    ReportsHoldOnlyWhenEmpty(E, root, b);
    ItemMeaning(E, root, f, xs, path);
  }

  ghost predicate HeadHolds(f: map<string, Json>, v: Json)
  {
    && (Get(f, "type").Str? ==> TypeMatches(v, Get(f, "type").s))
    && (Get(f, "enum").Arr? ==> InEnum(v, Get(f, "enum").items))
  }

  lemma ObjectNode(E: Engine, root: Json, s: Json, m: map<string, Json>)
    requires s.Obj?
    ensures NodeHolds(E, root, s, Obj(m)) <==>
            && HeadHolds(s.fields, Obj(m))
            && (Get(s.fields, "required").Arr? ==>
                  forall x :: x in Get(s.fields, "required").items && x.Str? ==> x.s in m)
            && (forall k :: k in m ==> KeyHolds(E, root, s.fields, m, k))
  {
  }

  lemma ArrayNode(E: Engine, root: Json, s: Json, xs: seq<Json>)
    requires s.Obj?
    ensures NodeHolds(E, root, s, Arr(xs)) <==>
            && HeadHolds(s.fields, Arr(xs))
            && AtLeast(s.fields, "minItems", |xs|) && AtMost(s.fields, "maxItems", |xs|)
            && (Get(s.fields, "uniqueItems") == Bool(true) ==> forall i, j :: 0 <= i < j < |xs| ==> xs[i] != xs[j])
            && ItemsHold(E, root, s.fields, xs)
  {
  }

  lemma HeadMeaning(E: Engine, root: Json, f: map<string, Json>, v: Json, path: string, rest: seq<Job>)
    requires Fail !in EnumJobs(E, f, v, path) + rest
    ensures Fail !in rest
    ensures !TypeMismatch(f, v) && AllHold(E, root, EnumJobs(E, f, v, path) + rest) <==>
            HeadHolds(f, v) && AllHold(E, root, rest)
  {
    var enums := EnumJobs(E, f, v, path);
    AllHoldConcat(E, root, enums, rest);
    NotInParts(enums, rest);
    ReportsHoldOnlyWhenEmpty(E, root, enums);
  }

  lemma LocalObject(E: Engine, root: Json, s: Json, m: map<string, Json>, path: string)
    requires s.Obj? && SupportedNode(E, s.fields)
    requires Fail !in LocalJobs(E, s.fields, Obj(m), path)
    ensures !TypeMismatch(s.fields, Obj(m)) && AllHold(E, root, LocalJobs(E, s.fields, Obj(m), path)) <==>
            NodeHolds(E, root, s, Obj(m))
  {
    var f := s.fields;
    HeadMeaning(E, root, f, Obj(m), path, RequiredJobs(f, m, path) + PropertyJobs(f, m, SortedList(m.Keys), path));
    ObjectMeaning(E, root, s, m, path);
    ObjectNode(E, root, s, m);
  }

  lemma LocalArray(E: Engine, root: Json, s: Json, xs: seq<Json>, path: string)
    requires s.Obj? && SupportedNode(E, s.fields) && ItemsApart(E, xs)
    requires Fail !in LocalJobs(E, s.fields, Arr(xs), path)
    ensures !TypeMismatch(s.fields, Arr(xs)) && AllHold(E, root, LocalJobs(E, s.fields, Arr(xs), path)) <==>
            NodeHolds(E, root, s, Arr(xs))
  {
    var f := s.fields;
    HeadMeaning(E, root, f, Arr(xs), path,
                SizeJobs(f, xs, path) + UniqueJobs(E, f, xs, |xs|, path) + ItemJobs(f, xs, path));
    ArrayMeaning(E, root, f, xs, path);
    ArrayNode(E, root, s, xs);
  }

  lemma LocalString(E: Engine, root: Json, s: Json, t: string, path: string)
    requires s.Obj? && SupportedNode(E, s.fields)
    requires Fail !in LocalJobs(E, s.fields, Str(t), path)
    ensures !TypeMismatch(s.fields, Str(t)) && AllHold(E, root, LocalJobs(E, s.fields, Str(t), path)) <==>
            NodeHolds(E, root, s, Str(t))
  {
    HeadMeaning(E, root, s.fields, Str(t), path, StringJobs(E, s.fields, t, path));
    ReportsHoldOnlyWhenEmpty(E, root, StringJobs(E, s.fields, t, path));
    StringNode(E, root, s, t);
    StringMeaning(E, s.fields, t, path);
  }

  ghost predicate StringHolds(E: Engine, f: map<string, Json>, t: string)
  {
    && AtLeast(f, "minLength", |t|) && AtMost(f, "maxLength", |t|)
    && (Get(f, "pattern").Str? ==> E.search(Get(f, "pattern").s, t))
  }

  lemma StringNode(E: Engine, root: Json, s: Json, t: string)
    requires s.Obj?
    ensures NodeHolds(E, root, s, Str(t)) <==> HeadHolds(s.fields, Str(t)) && StringHolds(E, s.fields, t)
  {
  }

  lemma StringMeaning(E: Engine, f: map<string, Json>, t: string, path: string)
    ensures StringJobs(E, f, t, path) == [] <==> StringHolds(E, f, t)
  {
  }

  lemma LocalMeaning(E: Engine, root: Json, s: Json, v: Json, path: string)
    requires s.Obj? && SupportedNode(E, s.fields) && Separates(E, v)
    requires Fail !in LocalJobs(E, s.fields, v, path)
    ensures !TypeMismatch(s.fields, v) && AllHold(E, root, LocalJobs(E, s.fields, v, path)) <==>
            NodeHolds(E, root, s, v)
  {
    match v
    case Obj(m) => LocalObject(E, root, s, m, path);
    case Arr(xs) => LocalArray(E, root, s, xs, path);
    case Str(t) => LocalString(E, root, s, t, path);
    case _ => HeadMeaning(E, root, s.fields, v, path, []);
  }

  // ---------------------------------------------------------------- evaluation

  /** Outcomes combined from left to right. */
  ghost function Sequence(outs: seq<Outcome>): Outcome
  {
    if |outs| == 0 then Ok([]) else Then(Sequence(outs[..|outs| - 1]), outs[|outs| - 1])
  }

  ghost function Outcomes(N: Nested, jobs: seq<Job>): seq<Outcome>
  {
    seq(|jobs|, i requires 0 <= i < |jobs| => Do(N, jobs[i]))
  }

  lemma {:induction false} RunIsSequence(N: Nested, jobs: seq<Job>)
    ensures Run(N, jobs) == Sequence(Outcomes(N, jobs))
  {
    if |jobs| > 0 {
      var init := jobs[..|jobs| - 1];
      RunIsSequence(N, init);
      var outs := Outcomes(N, jobs);
      assert outs[..|outs| - 1] == Outcomes(N, init);
    }
  }

  lemma {:induction false} SequenceOk(outs: seq<Outcome>)
    ensures Sequence(outs).Ok? <==> forall i :: 0 <= i < |outs| ==> outs[i].Ok?
    ensures Sequence(outs).Ok? ==>
              (Sequence(outs).findings == [] <==> forall i :: 0 <= i < |outs| ==> outs[i] == Ok([]))
  {
    if |outs| > 0 {
      var init := outs[..|outs| - 1];
      SequenceOk(init);
      assert forall i :: 0 <= i < |init| ==> outs[i] == init[i];
    }
  }

  lemma RunOk(N: Nested, jobs: seq<Job>)
    ensures Run(N, jobs).Ok? <==> forall i :: 0 <= i < |jobs| ==> Do(N, jobs[i]).Ok?
    ensures Run(N, jobs).Ok? ==>
              (Run(N, jobs).findings == [] <==> forall i :: 0 <= i < |jobs| ==> Do(N, jobs[i]) == Ok([]))
  {
    RunIsSequence(N, jobs);
    var outs := Outcomes(N, jobs);
    SequenceOk(outs);
    assert forall i :: 0 <= i < |jobs| ==> outs[i] == Do(N, jobs[i]);
  }

  lemma NoFail(N: Nested, jobs: seq<Job>)
    requires Run(N, jobs).Ok?
    ensures Fail !in jobs
  {
    RunOk(N, jobs);
  }

  lemma NormalizeEmpty(fs: seq<Finding>)
    ensures Normalize(fs) == [] <==> fs == []
  {
    StableSortPermutes(FindingLe, Deduplicate(fs));
  }

  // ---------------------------------------------------------------- the theorem

  /** The nested calls report nothing exactly for the values that satisfy their schema. */
  ghost predicate Decides(E: Engine, root: Json, N: Nested)
  {
    forall v, s, path :: Separates(E, v) && N(v, s, path).Ok? ==>
      (N(v, s, path).findings == [] <==> Satisfies(E, root, s, v))
  }

  lemma RunDecides(E: Engine, root: Json, N: Nested, jobs: seq<Job>)
    requires Decides(E, root, N) && JobsSeparate(E, jobs) && Run(N, jobs).Ok?
    ensures Run(N, jobs).findings == [] <==> AllHold(E, root, jobs)
  {
    RunOk(N, jobs);
    forall i | 0 <= i < |jobs| ensures Do(N, jobs[i]) == Ok([]) <==> JobHolds(E, root, jobs[i]) {
      assert Do(N, jobs[i]).Ok?;
      if jobs[i].Check? {
        assert N(jobs[i].value, jobs[i].schema, jobs[i].path).Ok?;
      }
    }
  }

  lemma SatisfiesByJobs(E: Engine, root: Json, s: Json, v: Json, path: string)
    requires s.Obj? && SupportedNode(E, s.fields) && Separates(E, v)
    requires Fail !in InPlaceJobs(root, s.fields, v, path)
    requires TypeMismatch(s.fields, v) || Fail !in LocalJobs(E, s.fields, v, path)
    ensures Satisfies(E, root, s, v) <==>
            && AllHold(E, root, InPlaceJobs(root, s.fields, v, path))
            && !TypeMismatch(s.fields, v)
            && AllHold(E, root, LocalJobs(E, s.fields, v, path))
  {
    SatisfiesUnfold(E, root, s, v);
    InPlaceMeaning(E, root, s, v, path);
    if !TypeMismatch(s.fields, v) {
      LocalMeaning(E, root, s, v, path);
    } else {
      MismatchFails(E, root, s, v);
    }
  }

  lemma MismatchFails(E: Engine, root: Json, s: Json, v: Json)
    requires s.Obj? && TypeMismatch(s.fields, v)
    ensures !NodeHolds(E, root, s, v)
  {
  }

  lemma AssembleEmpty(f: map<string, Json>, v: Json, path: string, inPlace: Outcome, local: Outcome)
    requires Assemble(f, v, path, inPlace, local).Ok?
    ensures inPlace.Ok? && (TypeMismatch(f, v) || local.Ok?)
    ensures Assemble(f, v, path, inPlace, local).findings == [] <==>
            inPlace.findings == [] && !TypeMismatch(f, v) && local.findings == []
  {
    if !TypeMismatch(f, v) {
      NormalizeEmpty(inPlace.findings + local.findings);
    }
  }

  lemma NodeDecides(E: Engine, root: Json, N: Nested, v: Json, s: Json, path: string)
    requires Separates(E, v) && Decides(E, root, N)
    requires Node(E, root, N, v, s, path).Ok?
    ensures Node(E, root, N, v, s, path).findings == [] <==> Satisfies(E, root, s, v)
  {
    var f := s.fields;
    var a, b := InPlaceJobs(root, f, v, path), LocalJobs(E, f, v, path);
    AssembleEmpty(f, v, path, Run(N, a), Run(N, b));
    NoFail(N, a);
    InPlaceSeparate(E, root, f, v, path);
    RunDecides(E, root, N, a);
    if !TypeMismatch(f, v) {
      NoFail(N, b);
      LocalSeparate(E, f, v, path);
      RunDecides(E, root, N, b);
    }
    SatisfiesByJobs(E, root, s, v, path);
  }

  /** Whenever validation returns, it returns no finding exactly if the value satisfies the
      schema, provided that the canonical form tells the items of its arrays apart. */
  lemma {:induction false} ValidateIsSatisfaction(E: Engine, root: Json, fuel: nat, v: Json, s: Json, path: string)
    requires Separates(E, v)
    requires Validate(E, root, fuel, v, s, path).Ok?
    ensures Validate(E, root, fuel, v, s, path).findings == [] <==> Satisfies(E, root, s, v)
    decreases fuel, 0
  {
    CallsDecide(E, root, fuel - 1);
    NodeDecides(E, root, Calls(E, root, fuel - 1), v, s, path);
  }

  lemma {:induction false} CallsDecide(E: Engine, root: Json, fuel: nat)
    ensures Decides(E, root, Calls(E, root, fuel))
    decreases fuel, 1
  {
    var N := Calls(E, root, fuel);
    forall v, s, path | Separates(E, v) && N(v, s, path).Ok?
      ensures N(v, s, path).findings == [] <==> Satisfies(E, root, s, v)
    {
      ValidateIsSatisfaction(E, root, fuel, v, s, path);
    }
  }
}
