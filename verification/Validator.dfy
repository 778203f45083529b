/** The loops of `validate_instance` and `_pointer`, proved against their specifications. */
module Validator {
  import opened Options
  import opened Ordering
  import opened Text
  import opened JsonSchema
  import opened Validation
  import opened Meaning
  import Violations

  /** `_pointer`: follow the decoded tokens one object member at a time. */
  method ResolvePointer(root: Json, ref: string) returns (r: Option<Json>)
    ensures r == Pointer(root, ref)
  {
    if !("#/" <= ref) {
      return None;
    }
    var tokens := Split(ref[2..], '/');
    var current := root;
    for i := 0 to |tokens|
      invariant Walk(root, UnescapeAll(tokens)) == Walk(current, UnescapeAll(tokens[i..]))
    {
      var token := Unescape(tokens[i]);
      assert tokens[i..][1..] == tokens[i + 1..];
      if !current.Obj? || token !in current.fields {
        return None;
      }
      current := current.fields[token];
    }
    return if current.Obj? then Some(current) else None;
  }

  lemma {:induction false} RunConcat(N: Nested, a: seq<Job>, b: seq<Job>)
    ensures Run(N, a + b) == Then(Run(N, a), Run(N, b))
    decreases |b|
  {
    if |b| == 0 {
      assert a + b == a;
    } else {
      var init, last := b[..|b| - 1], b[|b| - 1];
      RunConcat(N, a, init);
      assert (a + b)[..|a + b| - 1] == a + init;
    }
  }

  lemma RunOne(N: Nested, a: seq<Job>, j: Job)
    ensures Run(N, a + [j]) == Then(Run(N, a), Do(N, j))
  {
    assert (a + [j])[..|a|] == a;
  }

  lemma RunSingle(N: Nested, j: Job)
    ensures Run(N, [j]) == Do(N, j)
  {
    assert [j] == [] + [j];
    RunOne(N, [], j);
  }

  /** One more job of a list: either it extends the findings, or it decides the outcome. */
  lemma PrefixStep(N: Nested, jobs: seq<Job>, i: nat)
    requires i < |jobs| && Run(N, jobs[..i]).Ok?
    ensures Run(N, jobs[..i + 1]) == Then(Run(N, jobs[..i]), Do(N, jobs[i]))
    ensures !Do(N, jobs[i]).Ok? ==> Run(N, jobs) == Do(N, jobs[i])
  {
    var before, after := jobs[..i], jobs[i + 1..];
    RunOne(N, before, jobs[i]);
    assert jobs[..i + 1] == before + [jobs[i]];
    assert jobs == jobs[..i + 1] + after;
    RunConcat(N, jobs[..i + 1], after);
  }

  /** The `$ref` branch. */
  method RefFindings(E: Engine, root: Json, n: nat, f: map<string, Json>, v: Json, path: string) returns (r: Outcome)
    ensures r == Run(Calls(E, root, n), RefJobs(root, f, v, path))
    decreases n, 2
  {
    ghost var N := Calls(E, root, n);
    if !Get(f, "$ref").Str? {
      return Ok([]);
    }
    var target := ResolvePointer(root, Get(f, "$ref").s);
    if target.None? {
      RunSingle(N, Fail);
      return Raised;
    }
    RunSingle(N, Check(v, target.value, path));
    r := ValidateInstance(E, root, n, v, target.value, path);
  }

  /** `for child in schema.get("allOf", [])` */
  method AllOfFindings(E: Engine, root: Json, n: nat, f: map<string, Json>, v: Json, path: string) returns (r: Outcome)
    ensures r == Run(Calls(E, root, n), AllOfJobs(f, v, path))
    decreases n, 2
  {
    ghost var N := Calls(E, root, n);
    var findings: seq<Finding> := [];
    if "allOf" in f {
      if !f["allOf"].Arr? {
        RunSingle(N, Fail);
        return Raised;
      }
      var items := f["allOf"].items;
      ghost var jobs := AllOfJobs(f, v, path);
      for i := 0 to |items|
        invariant Run(N, jobs[..i]) == Ok(findings)
      {
        var o := ValidateInstance(E, root, n, v, items[i], path);
        assert jobs[i] == Check(v, items[i], path);
        PrefixStep(N, jobs, i);
        if !o.Ok? {
          return o;
        }
        findings := findings + o.findings;
      }
      assert jobs[..|items|] == jobs;
    }
    return Ok(findings);
  }

  method InPlaceFindings(E: Engine, root: Json, n: nat, f: map<string, Json>, v: Json, path: string) returns (r: Outcome)
    ensures r == Run(Calls(E, root, n), InPlaceJobs(root, f, v, path))
    decreases n, 3
  {
    RunConcat(Calls(E, root, n), RefJobs(root, f, v, path), AllOfJobs(f, v, path));
    r := RefFindings(E, root, n, f, v, path);
    if r.Ok? {
      var o := AllOfFindings(E, root, n, f, v, path);
      r := if o.Ok? then Ok(r.findings + o.findings) else o;
    }
  }

  /** The `required` loop. */
  method RequiredFindings(E: Engine, root: Json, n: nat, f: map<string, Json>, m: map<string, Json>, path: string)
    returns (r: Outcome)
    ensures r == Run(Calls(E, root, n), RequiredJobs(f, m, path))
  {
    ghost var N := Calls(E, root, n);
    if "required" in f && !f["required"].Arr? {
      RunSingle(N, Fail);
      return Raised;
    }
    var names := StableSort(LexLe, RequiredNames(f));
    var findings: seq<Finding> := [];
    for i := 0 to |names|
      invariant Run(N, MissingJobs(names[..i], m, path)) == Ok(findings)
    {
      assert names[..i + 1][..i] == names[..i];
      if names[i] !in m {
        var finding := Finding(path + "." + names[i], "required field is missing");
        RunOne(N, MissingJobs(names[..i], m, path), Report(finding));
        findings := findings + [finding];
      } else {
        assert MissingJobs(names[..i + 1], m, path) == MissingJobs(names[..i], m, path);
      }
    }
    assert names[..|names|] == names;
    return Ok(findings);
  }

  /** The jobs of the first i keys are a prefix of the jobs of all keys. */
  lemma {:induction false} PropertyPrefix(f: map<string, Json>, m: map<string, Json>, keys: seq<string>, i: nat, path: string)
    returns (rest: seq<Job>)
    requires i <= |keys| && forall k :: k in keys ==> k in m
    ensures PropertyJobs(f, m, keys, path) == PropertyJobs(f, m, keys[..i], path) + rest
    decreases |keys|
  {
    if i == |keys| {
      rest := [];
      assert keys[..i] == keys;
    } else {
      var init := keys[..|keys| - 1];
      rest := PropertyPrefix(f, m, init, i, path);
      assert init[..i] == keys[..i];
      rest := rest + PropertyJob(f, m, keys[|keys| - 1], path);
    }
  }

  /** One more key: its job extends the findings or decides the outcome. */
  lemma PropertyStep(N: Nested, f: map<string, Json>, m: map<string, Json>, keys: seq<string>, i: nat, path: string)
    requires i < |keys| && forall k :: k in keys ==> k in m
    requires Run(N, PropertyJobs(f, m, keys[..i], path)).Ok?
    ensures Run(N, PropertyJobs(f, m, keys[..i + 1], path)) ==
            Then(Run(N, PropertyJobs(f, m, keys[..i], path)), Run(N, PropertyJob(f, m, keys[i], path)))
    ensures !Run(N, PropertyJob(f, m, keys[i], path)).Ok? ==>
              Run(N, PropertyJobs(f, m, keys, path)) == Run(N, PropertyJob(f, m, keys[i], path))
  {
    var before, job := PropertyJobs(f, m, keys[..i], path), PropertyJob(f, m, keys[i], path);
    assert keys[..i + 1][..i] == keys[..i];
    RunConcat(N, before, job);
    var rest := PropertyPrefix(f, m, keys, i + 1, path);
    RunConcat(N, before + job, rest);
  }

  /** The body of the loop over `sorted(instance)`. */
  method KeyFindings(E: Engine, root: Json, n: nat, f: map<string, Json>, m: map<string, Json>, key: string, path: string)
    returns (r: Outcome)
    requires key in m
    ensures r == Run(Calls(E, root, n), PropertyJob(f, m, key, path))
    decreases n, 2
  {
    ghost var N := Calls(E, root, n);
    if "properties" in f && !f["properties"].Obj? {
      RunSingle(N, Fail);
      return Raised;
    }
    if "properties" in f && key in f["properties"].fields {
      RunSingle(N, Check(m[key], f["properties"].fields[key], path + "." + key));
      r := ValidateInstance(E, root, n, m[key], f["properties"].fields[key], path + "." + key);
    } else if ForbidsAdditional(f) {
      var finding := Finding(path + "." + key, "unexpected field");
      RunSingle(N, Report(finding));
      r := Ok([finding]);
    } else {
      r := Ok([]);
    }
  }

  /** The loop over `sorted(instance)`. */
  method PropertyFindings(E: Engine, root: Json, n: nat, f: map<string, Json>, m: map<string, Json>, path: string)
    returns (r: Outcome)
    ensures r == Run(Calls(E, root, n), PropertyJobs(f, m, SortedList(m.Keys), path))
    decreases n, 3
  {
    ghost var N := Calls(E, root, n);
    var keys := SortSet(m.Keys);
    var findings: seq<Finding> := [];
    for i := 0 to |keys|
      invariant Run(N, PropertyJobs(f, m, keys[..i], path)) == Ok(findings)
    {
      assert keys[i] in m.Keys;
      var o := KeyFindings(E, root, n, f, m, keys[i], path);
      PropertyStep(N, f, m, keys, i, path);
      if !o.Ok? {
        return o;
      }
      findings := findings + o.findings;
    }
    assert keys[..|keys|] == keys;
    return Ok(findings);
  }

  /** `seen` holds the canonical forms of the first i items. */
  predicate Canonicals(E: Engine, xs: seq<Json>, i: nat, seen: set<string>)
    requires i <= |xs|
  {
    seen == set j | 0 <= j < i :: E.canonical(xs[j])
  }

  lemma UniqueStep(E: Engine, f: map<string, Json>, xs: seq<Json>, i: nat, path: string, seen: set<string>)
    requires i < |xs| && Canonicals(E, xs, i, seen) && Get(f, "uniqueItems") == Bool(true)
    ensures UniqueJobs(E, f, xs, i + 1, path) ==
            if E.canonical(xs[i]) in seen
            then UniqueJobs(E, f, xs, i, path) + [Report(Finding(At(path, i), "duplicate array item"))]
            else UniqueJobs(E, f, xs, i, path)
    ensures Canonicals(E, xs, i + 1, seen + {E.canonical(xs[i])})
  {
    assert UniqueJobs(E, f, xs, i, path) + [] == UniqueJobs(E, f, xs, i, path);
  }

  /** The jobs that report these findings. */
  function Reports(findings: seq<Finding>): (r: seq<Job>)
    ensures |r| == |findings|
  {
    seq(|findings|, i requires 0 <= i < |findings| => Report(findings[i]))
  }

  lemma {:induction false} RunReports(N: Nested, findings: seq<Finding>)
    ensures Run(N, Reports(findings)) == Ok(findings)
  {
    if |findings| > 0 {
      var init, last := findings[..|findings| - 1], findings[|findings| - 1];
      RunReports(N, init);
      RunOne(N, Reports(init), Report(last));
      assert Reports(findings) == Reports(init) + [Report(last)];
      assert findings == init + [last];
    }
  }

  /** The `uniqueItems` loop with its `seen` set of canonical forms. */
  method UniqueFindings(E: Engine, f: map<string, Json>, xs: seq<Json>, path: string) returns (findings: seq<Finding>)
    ensures UniqueJobs(E, f, xs, |xs|, path) == Reports(findings)
  {
    findings := [];
    if Get(f, "uniqueItems") == Bool(true) {
      var seen: set<string> := {};
      for i := 0 to |xs|
        invariant Canonicals(E, xs, i, seen)
        invariant UniqueJobs(E, f, xs, i, path) == Reports(findings)
      {
        UniqueStep(E, f, xs, i, path, seen);
        var canonical := E.canonical(xs[i]);
        if canonical in seen {
          findings := findings + [Finding(At(path, i), "duplicate array item")];
        }
        seen := seen + {canonical};
      }
    }
  }

  /** The loops over `items`, for one schema and for a list of schemas. */
  method ItemFindings(E: Engine, root: Json, n: nat, f: map<string, Json>, xs: seq<Json>, path: string)
    returns (r: Outcome)
    ensures r == Run(Calls(E, root, n), ItemJobs(f, xs, path))
    decreases n, 2
  {
    ghost var N := Calls(E, root, n);
    ghost var jobs := ItemJobs(f, xs, path);
    var items := Get(f, "items");
    var findings: seq<Finding> := [];
    var count := ItemCount(f, xs);
    for i := 0 to count
      invariant Run(N, jobs[..i]) == Ok(findings)
    {
      var child := if items.Obj? then items else items.items[i];
      assert jobs[i] == Check(xs[i], child, At(path, i));
      PrefixStep(N, jobs, i);
      var o := ValidateInstance(E, root, n, xs[i], child, At(path, i));
      if !o.Ok? {
        return o;
      }
      findings := findings + o.findings;
    }
    if items.Arr? && |xs| > |items.items| && Get(f, "additionalItems") == Bool(false) {
      var finding := Finding(At(path, |items.items|), "additional array item is not allowed");
      assert jobs[count] == Report(finding);
      PrefixStep(N, jobs, count);
      assert jobs[..count + 1] == jobs;
      findings := findings + [finding];
    } else {
      assert jobs[..count] == jobs;
    }
    return Ok(findings);
  }

  /** An optional report. */
  method Optional(ghost N: Nested, condition: bool, finding: Finding) returns (findings: seq<Finding>)
    ensures Run(N, ReportIf(condition, finding)) == Ok(findings)
  {
    findings := [];
    if condition {
      findings := [finding];
      RunSingle(N, Report(finding));
    }
  }

  method SizeFindings(E: Engine, root: Json, n: nat, f: map<string, Json>, xs: seq<Json>, path: string)
    returns (findings: seq<Finding>)
    ensures Run(Calls(E, root, n), SizeJobs(f, xs, path)) == Ok(findings)
  {
    ghost var N := Calls(E, root, n);
    var low := Finding(path, "must contain at least " + LimitText(f, "minItems") + " item(s)");
    var high := Finding(path, "must contain at most " + LimitText(f, "maxItems") + " item(s)");
    var a := Optional(N, Below(f, "minItems", |xs|), low);
    var b := Optional(N, Above(f, "maxItems", |xs|), high);
    findings := a + b;
    RunConcat(N, ReportIf(Below(f, "minItems", |xs|), low), ReportIf(Above(f, "maxItems", |xs|), high));
  }

  method ArrayFindings(E: Engine, root: Json, n: nat, f: map<string, Json>, xs: seq<Json>, path: string)
    returns (r: Outcome)
    ensures r == Run(Calls(E, root, n), SizeJobs(f, xs, path) + UniqueJobs(E, f, xs, |xs|, path) + ItemJobs(f, xs, path))
    decreases n, 3
  {
    ghost var N := Calls(E, root, n);
    var findings := SizeFindings(E, root, n, f, xs, path);
    var duplicates := UniqueFindings(E, f, xs, path);
    RunReports(N, duplicates);
    var o := ItemFindings(E, root, n, f, xs, path);
    RunConcat(N, SizeJobs(f, xs, path) + UniqueJobs(E, f, xs, |xs|, path), ItemJobs(f, xs, path));
    RunConcat(N, SizeJobs(f, xs, path), UniqueJobs(E, f, xs, |xs|, path));
    return if o.Ok? then Ok(findings + duplicates + o.findings) else o;
  }

  method StringFindings(E: Engine, root: Json, n: nat, f: map<string, Json>, t: string, path: string)
    returns (findings: seq<Finding>)
    ensures Run(Calls(E, root, n), StringJobs(E, f, t, path)) == Ok(findings)
  {
    ghost var N := Calls(E, root, n);
    var low := Finding(path, "length must be at least " + LimitText(f, "minLength"));
    var high := Finding(path, "length must be at most " + LimitText(f, "maxLength"));
    var pattern := Finding(path, "value does not match pattern " + PatternText(f));
    var a := Optional(N, Below(f, "minLength", |t|), low);
    var b := Optional(N, Above(f, "maxLength", |t|), high);
    var c := Optional(N, PatternFails(E, f, t), pattern);
    findings := a + b + c;
    ghost var i, j := ReportIf(Below(f, "minLength", |t|), low), ReportIf(Above(f, "maxLength", |t|), high);
    RunConcat(N, i, j);
    RunConcat(N, i + j, ReportIf(PatternFails(E, f, t), pattern));
  }

  /** The keywords for objects. */
  method ObjectFindings(E: Engine, root: Json, n: nat, f: map<string, Json>, m: map<string, Json>, path: string)
    returns (r: Outcome)
    ensures r == Run(Calls(E, root, n), RequiredJobs(f, m, path) + PropertyJobs(f, m, SortedList(m.Keys), path))
    decreases n, 4
  {
    RunConcat(Calls(E, root, n), RequiredJobs(f, m, path), PropertyJobs(f, m, SortedList(m.Keys), path));
    var a := RequiredFindings(E, root, n, f, m, path);
    if !a.Ok? {
      return a;
    }
    var b := PropertyFindings(E, root, n, f, m, path);
    return if b.Ok? then Ok(a.findings + b.findings) else b;
  }

  /** The keywords for the kind of the instance. */
  method KindFindings(E: Engine, root: Json, n: nat, f: map<string, Json>, v: Json, path: string) returns (r: Outcome)
    ensures r == Run(Calls(E, root, n), KindJobs(E, f, v, path))
    decreases n, 5
  {
    ghost var jobs := KindJobs(E, f, v, path);
    match v {
      case Obj(m) =>
        r := ObjectFindings(E, root, n, f, m, path);
        assert jobs == RequiredJobs(f, m, path) + PropertyJobs(f, m, SortedList(m.Keys), path);
      case Arr(xs) =>
        r := ArrayFindings(E, root, n, f, xs, path);
        assert jobs == SizeJobs(f, xs, path) + UniqueJobs(E, f, xs, |xs|, path) + ItemJobs(f, xs, path);
      case Str(t) =>
        var findings := StringFindings(E, root, n, f, t, path);
        r := Ok(findings);
        assert jobs == StringJobs(E, f, t, path);
      case _ =>
        r := Ok([]);
        assert jobs == [];
    }
    assert r == Run(Calls(E, root, n), jobs);
  }

  method EnumFindings(E: Engine, f: map<string, Json>, v: Json, path: string) returns (findings: seq<Finding>)
    ensures EnumJobs(E, f, v, path) == Reports(findings)
  {
    findings := [];
    if Get(f, "enum").Arr? && !InEnum(v, Get(f, "enum").items) {
      findings := [Finding(path, "value must be one of " + E.repr(Get(f, "enum")))];
    }
  }

  /** The instance-dependent keywords, in the order of the source. */
  method LocalFindings(E: Engine, root: Json, n: nat, f: map<string, Json>, v: Json, path: string) returns (r: Outcome)
    ensures r == Run(Calls(E, root, n), LocalJobs(E, f, v, path))
    decreases n, 6
  {
    var findings := EnumFindings(E, f, v, path);
    var o := KindFindings(E, root, n, f, v, path);
    RunReports(Calls(E, root, n), findings);
    RunConcat(Calls(E, root, n), EnumJobs(E, f, v, path), KindJobs(E, f, v, path));
    r := if o.Ok? then Ok(findings + o.findings) else o;
  }

  /** The final dictionary and sort. */
  method SortUnique(findings: seq<Finding>) returns (r: seq<Finding>)
    ensures r == Normalize(findings)
  {
    var unique: seq<Finding> := [];
    for i := 0 to |findings|
      invariant unique == Deduplicate(findings[..i])
    {
      assert findings[..i + 1][..i] == findings[..i];
      if findings[i] !in unique {
        unique := unique + [findings[i]];
      }
    }
    assert findings[..|findings|] == findings;
    r := StableSort(FindingLe, unique);
  }

  lemma NodeAssembles(E: Engine, root: Json, N: Nested, v: Json, s: Json, path: string, inPlace: Outcome, local: Outcome)
    requires Supported(E, s)
    requires inPlace == Run(N, InPlaceJobs(root, s.fields, v, path))
    requires inPlace.Ok? && !TypeMismatch(s.fields, v) ==> local == Run(N, LocalJobs(E, s.fields, v, path))
    ensures Node(E, root, N, v, s, path) == Assemble(s.fields, v, path, inPlace, local)
  {
  }

  lemma UnsupportedRaises(E: Engine, root: Json, N: Nested, v: Json, s: Json, path: string)
    requires !Supported(E, s)
    ensures Node(E, root, N, v, s, path) == Raised
  {
  }

  /** The in-place and the local parts of a node; the local part is evaluated only when it counts. */
  method NodeParts(E: Engine, root: Json, n: nat, f: map<string, Json>, v: Json, path: string)
    returns (inPlace: Outcome, local: Outcome)
    ensures inPlace == Run(Calls(E, root, n), InPlaceJobs(root, f, v, path))
    ensures inPlace.Ok? && !TypeMismatch(f, v) ==> local == Run(Calls(E, root, n), LocalJobs(E, f, v, path))
    decreases n, 7
  {
    local := Ok([]);
    inPlace := InPlaceFindings(E, root, n, f, v, path);
    if inPlace.Ok? && !TypeMismatch(f, v) {
      local := LocalFindings(E, root, n, f, v, path);
    }
  }

  method ValidateSupported(E: Engine, root: Json, n: nat, v: Json, s: Json, path: string) returns (r: Outcome)
    requires Supported(E, s)
    ensures r == Node(E, root, Calls(E, root, n), v, s, path)
    decreases n, 8
  {
    var inPlace, local := NodeParts(E, root, n, s.fields, v, path);
    NodeAssembles(E, root, Calls(E, root, n), v, s, path, inPlace, local);
    r := AssembleFindings(s.fields, v, path, inPlace, local);
  }

  /** The body of `validate_instance`, with n nested calls left. */
  method ValidateNode(E: Engine, root: Json, n: nat, v: Json, s: Json, path: string) returns (r: Outcome)
    ensures r == Node(E, root, Calls(E, root, n), v, s, path)
    decreases n, 9
  {
    if Supported(E, s) {
      r := ValidateSupported(E, root, n, v, s, path);
    } else {
      UnsupportedRaises(E, root, Calls(E, root, n), v, s, path);
      r := Raised;
    }
  }

  /** The results of a node from those of its parts. */
  method AssembleFindings(f: map<string, Json>, v: Json, path: string, inPlace: Outcome, local: Outcome) returns (r: Outcome)
    ensures r == Assemble(f, v, path, inPlace, local)
  {
    if !inPlace.Ok? {
      return inPlace;
    }
    if TypeMismatch(f, v) {
      return Ok([TypeFinding(f, path)]);
    }
    if !local.Ok? {
      return local;
    }
    var sorted := SortUnique(inPlace.findings + local.findings);
    return Ok(sorted);
  }

  /** `validate_instance` below the root. */
  method ValidateInstance(E: Engine, root: Json, fuel: nat, v: Json, s: Json, path: string) returns (r: Outcome)
    ensures r == Validate(E, root, fuel, v, s, path)
    decreases fuel, 1
  {
    if fuel == 0 {
      r := TooDeep;
    } else {
      r := ValidateNode(E, root, fuel - 1, v, s, path);
    }
  }

  /** The public entry: `validate_instance(instance, schema, root_schema=..., path=...)`. */
  method ValidateAgainst(E: Engine, rootSchema: Option<Json>, fuel: nat, v: Json, s: Json, path: string)
    returns (r: Outcome)
    ensures r.Ok? && Separates(E, v) ==>
              (r.findings == [] <==> Satisfies(E, EffectiveRoot(rootSchema, s), s, v))
    ensures r.Ok? ==> forall x :: x in r.findings <==>
                Violations.Violation(E, EffectiveRoot(rootSchema, s), Violations.Site(s, v, path), x)
    ensures r == Validate(E, EffectiveRoot(rootSchema, s), fuel, v, s, path)
  {
    var root := EffectiveRoot(rootSchema, s);
    r := ValidateInstance(E, root, fuel, v, s, path);
    if r.Ok? {
      forall x ensures x in r.findings <==> Violations.Violation(E, root, Violations.Site(s, v, path), x) {
        Violations.FindingsAreViolations(E, root, fuel, v, s, path, x);
      }
    }
    if r.Ok? && Separates(E, v) {
      ValidateIsSatisfaction(E, root, fuel, v, s, path);
    }
  }
}
