/** Which findings `validate_instance` returns: the violations of every schema node that applies to
    some place of the value, each at the path of its place. */
module Violations {
  import opened Options
  import opened Ordering
  import opened Text
  import opened Reachability
  import opened JsonSchema
  import opened Validation
  import opened Meaning

  // ---------------------------------------------------------------- where schemas apply

  /** A schema node applied to a value; the path names the place of the value. */
  datatype Site = Site(schema: Json, value: Json, path: string)

  ghost predicate WrongType(f: map<string, Json>, v: Json)
  {
    Get(f, "type").Str? && !TypeMatches(v, Get(f, "type").s)
  }

  /** The schema of the item at position i. */
  function ItemSchema(f: map<string, Json>, i: nat): Option<Json>
  {
    var items := Get(f, "items");
    if items.Obj? then Some(items) else if items.Arr? && i < |items.items| then Some(items.items[i]) else None
  }

  /** `$ref` and `allOf` apply to the same value, at the same path. */
  ghost predicate ToSelf(root: Json, a: Site, b: Site)
  {
    InPlaceStep(root, a.schema, b.schema) && b.value == a.value && b.path == a.path
  }

  /** A member of `properties` applies to the member of that name. */
  ghost predicate ToMember(a: Site, b: Site, k: string)
    requires a.schema.Obj?
  {
    && a.value.Obj? && k in a.value.fields && k in Properties(a.schema.fields)
    && b == Site(Properties(a.schema.fields)[k], a.value.fields[k], a.path + "." + k)
  }

  ghost predicate ToItem(a: Site, b: Site, i: nat)
    requires a.schema.Obj?
  {
    && a.value.Arr? && i < |a.value.items| && ItemSchema(a.schema.fields, i).Some?
    && b == Site(ItemSchema(a.schema.fields, i).value, a.value.items[i], a.path + "[" + Decimal(i) + "]")
  }

  /** A node leads on only while the value has the type it asks for. */
  ghost predicate LeadsTo(root: Json, a: Site, b: Site)
  {
    && a.schema.Obj? && !WrongType(a.schema.fields, a.value)
    && (ToSelf(root, a, b) || (exists k :: ToMember(a, b, k)) || (exists i: nat :: ToItem(a, b, i)))
  }

  ghost function Leads(root: Json): (Site, Site) -> bool
  {
    (a, b) => LeadsTo(root, a, b)
  }

  // ---------------------------------------------------------------- what one node finds

  ghost predicate EnumBroken(E: Engine, f: map<string, Json>, v: Json, path: string, x: Finding)
  {
    && Get(f, "enum").Arr? && !InEnum(v, Get(f, "enum").items)
    && x == Finding(path, "value must be one of " + E.repr(Get(f, "enum")))
  }

  ghost predicate RequiredBroken(f: map<string, Json>, m: map<string, Json>, path: string, x: Finding)
  {
    && Get(f, "required").Arr?
    && exists y :: y in Get(f, "required").items && MissesField(y, m, path, x)
  }

  ghost predicate MissesField(y: Json, m: map<string, Json>, path: string, x: Finding)
  {
    y.Str? && y.s !in m && x == Finding(path + "." + y.s, "required field is missing")
  }

  ghost predicate Unexpected(f: map<string, Json>, m: map<string, Json>, path: string, x: Finding, k: string)
  {
    k in m && k !in Properties(f) && ForbidsAdditional(f) && x == Finding(path + "." + k, "unexpected field")
  }

  /** A count below or above the limit that the keyword sets, and the words around it. */
  ghost predicate LimitBroken(f: map<string, Json>, keyword: string, low: bool, n: nat, path: string, before: string,
                              after: string, x: Finding)
  {
    && Get(f, keyword).Int? && Get(f, keyword).n >= 0
    && (if low then n < Get(f, keyword).n else n > Get(f, keyword).n)
    && x == Finding(path, before + Decimal(Get(f, keyword).n) + after)
  }

  ghost predicate Repeats(E: Engine, f: map<string, Json>, xs: seq<Json>, path: string, x: Finding, i: nat)
  {
    && Get(f, "uniqueItems") == Bool(true) && i < |xs|
    && (exists j :: 0 <= j < i && E.canonical(xs[j]) == E.canonical(xs[i]))
    && x == Finding(path + "[" + Decimal(i) + "]", "duplicate array item")
  }

  ghost predicate Surplus(f: map<string, Json>, xs: seq<Json>, path: string, x: Finding)
  {
    && Get(f, "items").Arr? && |xs| > |Get(f, "items").items| && Get(f, "additionalItems") == Bool(false)
    && x == Finding(path + "[" + Decimal(|Get(f, "items").items|) + "]", "additional array item is not allowed")
  }

  ghost predicate ArrayBroken(E: Engine, f: map<string, Json>, xs: seq<Json>, path: string, x: Finding)
  {
    || LimitBroken(f, "minItems", true, |xs|, path, "must contain at least ", " item(s)", x)
    || LimitBroken(f, "maxItems", false, |xs|, path, "must contain at most ", " item(s)", x)
    || (exists i: nat :: Repeats(E, f, xs, path, x, i))
    || Surplus(f, xs, path, x)
  }

  ghost predicate PatternBroken(E: Engine, f: map<string, Json>, t: string, path: string, x: Finding)
  {
    && Get(f, "pattern").Str? && !E.search(Get(f, "pattern").s, t)
    && x == Finding(path, "value does not match pattern " + Get(f, "pattern").s)
  }

  ghost predicate StringBroken(E: Engine, f: map<string, Json>, t: string, path: string, x: Finding)
  {
    || LimitBroken(f, "minLength", true, |t|, path, "length must be at least ", "", x)
    || LimitBroken(f, "maxLength", false, |t|, path, "length must be at most ", "", x)
    || PatternBroken(E, f, t, path, x)
  }

  /** The keywords of one node, apart from its type. */
  ghost predicate KeywordBroken(E: Engine, f: map<string, Json>, v: Json, path: string, x: Finding)
  {
    || EnumBroken(E, f, v, path, x)
    || match v
       case Obj(m) => RequiredBroken(f, m, path, x) || exists k :: Unexpected(f, m, path, x, k)
       case Arr(xs) => ArrayBroken(E, f, xs, path, x)
       case Str(t) => StringBroken(E, f, t, path, x)
       case _ => false
  }

  /** A wrong type is the only finding of its node. */
  ghost predicate NodeViolation(E: Engine, a: Site, x: Finding)
  {
    && a.schema.Obj?
    && var f := a.schema.fields;
       if WrongType(f, a.value) then x == Finding(a.path, "expected " + Get(f, "type").s)
       else KeywordBroken(E, f, a.value, a.path, x)
  }

  /** Some node that applies somewhere in the value finds x. */
  ghost predicate Violation(E: Engine, root: Json, a: Site, x: Finding)
  {
    exists b :: Reach(Leads(root), a, b) && NodeViolation(E, b, x)
  }

  lemma ViolationUnfold(E: Engine, root: Json, a: Site, x: Finding)
    ensures Violation(E, root, a, x) <==>
            NodeViolation(E, a, x) || exists u :: LeadsTo(root, a, u) && Violation(E, root, u, x)
  {
    var step, fine := Leads(root), (b: Site) => !NodeViolation(E, b, x);
    ThroughoutUnfold(step, a, fine);
    NoViolation(E, root, a, x, fine);
    forall u ensures Throughout(step, u, fine) <==> !Violation(E, root, u, x) {
      NoViolation(E, root, u, x, fine);
    }
    assert forall u :: step(a, u) == LeadsTo(root, a, u);
  }

  lemma NoViolation(E: Engine, root: Json, a: Site, x: Finding, fine: Site -> bool)
    requires forall b :: fine(b) == !NodeViolation(E, b, x)
    ensures Throughout(Leads(root), a, fine) <==> !Violation(E, root, a, x)
  {
    if Violation(E, root, a, x) {
      var b :| Reach(Leads(root), a, b) && NodeViolation(E, b, x);
      assert !fine(b);
    }
  }

  // ---------------------------------------------------------------- paths name places

  datatype Step = Member(key: string) | Item(index: nat)

  function Shown(place: seq<Step>): string
  {
    if |place| == 0 then ""
    else
      Shown(place[..|place| - 1]) +
      match place[|place| - 1]
      case Member(k) => "." + k
      case Item(i) => "[" + Decimal(i) + "]"
  }

  function ValueAt(v: Json, place: seq<Step>): Option<Json>
  {
    if |place| == 0 then Some(v)
    else
      match ValueAt(v, place[..|place| - 1])
      case None => None
      case Some(w) =>
        match place[|place| - 1]
        case Member(k) => if w.Obj? && k in w.fields then Some(w.fields[k]) else None
        case Item(i) => if w.Arr? && i < |w.items| then Some(w.items[i]) else None
  }

  /** The path of b names, from the path of a on, the place of its value in the value of a. */
  ghost predicate Placed(a: Site, b: Site)
  {
    exists place :: ValueAt(a.value, place) == Some(b.value) && b.path == a.path + Shown(place)
  }

  lemma StepIsPlaced(root: Json, a: Site, b: Site, c: Site)
    requires Placed(a, b) && LeadsTo(root, b, c)
    ensures Placed(a, c)
  {
    var place :| ValueAt(a.value, place) == Some(b.value) && b.path == a.path + Shown(place);
    if ToSelf(root, b, c) {
      assert ValueAt(a.value, place) == Some(c.value);
    } else if k :| ToMember(b, c, k) {
      PlaceOn(a, b, c, place, Member(k));
    } else {
      var i: nat :| ToItem(b, c, i);
      PlaceOn(a, b, c, place, Item(i));
    }
  }

  lemma PlaceOn(a: Site, b: Site, c: Site, place: seq<Step>, step: Step)
    requires ValueAt(a.value, place) == Some(b.value) && b.path == a.path + Shown(place)
    requires b.schema.Obj? && match step case Member(k) => ToMember(b, c, k) case Item(i) => ToItem(b, c, i)
    ensures Placed(a, c)
  {
    var on := place + [step];
    assert on[..|on| - 1] == place;
    assert ValueAt(a.value, on) == Some(c.value);
    assert c.path == a.path + Shown(on);
  }

  /** Every site's path names the place of its value. */
  lemma PathNamesPlace(root: Json, a: Site, b: Site)
    requires Reach(Leads(root), a, b)
    ensures Placed(a, b)
  {
    assert Placed(a, a) by {
      assert ValueAt(a.value, []) == Some(a.value) && a.path == a.path + Shown([]);
    }
    var keep := (c: Site) => Placed(a, c);
    forall c, d | keep(c) && Leads(root)(c, d) ensures keep(d) {
      StepIsPlaced(root, a, c, d);
    }
    ReachKeeps(Leads(root), keep, a, b);
  }

  /** The number that a text of decimal digits spells. */
  function Number(digits: string): nat
  {
    if digits == "" then 0
    else
      var last := digits[|digits| - 1];
      10 * Number(digits[..|digits| - 1]) + if '0' <= last <= '9' then (last - '0') as nat else 0
  }

  /** Different items have different indices in their paths. */
  lemma {:induction false} NumberInvertsDecimal(n: nat)
    ensures Number(Decimal(n)) == n
    ensures forall c :: c in Decimal(n) ==> '0' <= c <= '9'
  {
    DigitIs(n % 10);
    if n >= 10 {
      NumberInvertsDecimal(n / 10);
      var d := Decimal(n);
      assert d[..|d| - 1] == Decimal(n / 10);
    } else {
      assert Decimal(n)[..0] == "";
    }
  }

  lemma DigitIs(k: nat)
    requires k < 10
    ensures '0' <= DIGITS[k] <= '9' && (DIGITS[k] - '0') as nat == k
  {
  }

  // ---------------------------------------------------------------- what jobs report

  /** Whether a nested call on a value, a schema and a path reports one given finding. */
  type Query = (Json, Json, string) -> bool

  ghost predicate JobShows(Q: Query, job: Job, x: Finding)
  {
    match job
    case Report(f) => x == f
    case Check(v, s, path) => Q(v, s, path)
    case Fail => false
  }

  ghost predicate Shows(Q: Query, jobs: seq<Job>, x: Finding)
  {
    exists job :: job in jobs && JobShows(Q, job, x)
  }

  lemma ShowsConcat(Q: Query, a: seq<Job>, b: seq<Job>, x: Finding)
    ensures Shows(Q, a + b, x) <==> Shows(Q, a, x) || Shows(Q, b, x)
  {
    assert forall job :: job in a + b <==> job in a || job in b;
  }

  lemma ShowsOne(Q: Query, job: Job, x: Finding)
    ensures Shows(Q, [job], x) <==> JobShows(Q, job, x)
  {
    assert job in [job];
  }

  lemma RefShows(Q: Query, root: Json, f: map<string, Json>, v: Json, path: string, x: Finding)
    ensures Shows(Q, RefJobs(root, f, v, path), x) <==>
            Get(f, "$ref").Str? && Pointer(root, Get(f, "$ref").s).Some? && Q(v, Pointer(root, Get(f, "$ref").s).value, path)
  {
    if Get(f, "$ref").Str? {
      ShowsOne(Q, RefJobs(root, f, v, path)[0], x);
    }
  }

  lemma AllOfShows(Q: Query, f: map<string, Json>, v: Json, path: string, x: Finding)
    ensures Shows(Q, AllOfJobs(f, v, path), x) <==>
            "allOf" in f && f["allOf"].Arr? && exists u :: u in f["allOf"].items && Q(v, u, path)
  {
    var jobs := AllOfJobs(f, v, path);
    if "allOf" in f && f["allOf"].Arr? {
      var items := f["allOf"].items;
      if Shows(Q, jobs, x) {
        var job :| job in jobs && JobShows(Q, job, x);
        var i :| 0 <= i < |jobs| && jobs[i] == job;
        assert items[i] in items && Q(v, items[i], path);
      }
      if u :| u in items && Q(v, u, path) {
        var i :| 0 <= i < |items| && items[i] == u;
        assert jobs[i] in jobs && JobShows(Q, jobs[i], x);
      }
    } else if "allOf" in f {
      ShowsOne(Q, Fail, x);
    }
  }

  /** In-place jobs report what the in-place targets report. */
  lemma InPlaceShows(Q: Query, root: Json, f: map<string, Json>, v: Json, path: string, x: Finding)
    ensures Shows(Q, InPlaceJobs(root, f, v, path), x) <==> exists u :: InPlaceStep(root, Obj(f), u) && Q(v, u, path)
  {
    ShowsConcat(Q, RefJobs(root, f, v, path), AllOfJobs(f, v, path), x);
    RefShows(Q, root, f, v, path, x);
    AllOfShows(Q, f, v, path, x);
    if Shows(Q, RefJobs(root, f, v, path), x) {
      assert InPlaceStep(root, Obj(f), Pointer(root, Get(f, "$ref").s).value);
    }
    if Shows(Q, AllOfJobs(f, v, path), x) {
      var u :| u in f["allOf"].items && Q(v, u, path);
      assert InPlaceStep(root, Obj(f), u);
    }
  }

  lemma EnumShows(Q: Query, E: Engine, f: map<string, Json>, v: Json, path: string, x: Finding)
    ensures Shows(Q, EnumJobs(E, f, v, path), x) <==> EnumBroken(E, f, v, path, x)
  {
    if EnumJobs(E, f, v, path) != [] {
      ShowsOne(Q, EnumJobs(E, f, v, path)[0], x);
    }
  }

  lemma {:induction false} MissingShows(Q: Query, names: seq<string>, m: map<string, Json>, path: string, x: Finding)
    ensures Shows(Q, MissingJobs(names, m, path), x) <==> exists name :: name in names && MissesField(Str(name), m, path, x)
  {
    if |names| > 0 {
      var init, last := names[..|names| - 1], names[|names| - 1];
      assert names == init + [last];
      MissingShows(Q, init, m, path, x);
      var job := Report(Finding(path + "." + last, "required field is missing"));
      ShowsConcat(Q, MissingJobs(init, m, path), if last !in m then [job] else [], x);
      ShowsOne(Q, job, x);
      assert last !in m && x == job.finding <==> MissesField(Str(last), m, path, x);
    }
  }

  lemma RequiredShows(Q: Query, E: Engine, f: map<string, Json>, m: map<string, Json>, path: string, x: Finding)
    requires SupportedNode(E, f) && Fail !in RequiredJobs(f, m, path)
    ensures Shows(Q, RequiredJobs(f, m, path), x) <==> RequiredBroken(f, m, path, x)
  {
    var names := RequiredNames(f);
    var sorted := StableSort(LexLe, names);
    assert Fail in [Fail];
    assert RequiredJobs(f, m, path) == MissingJobs(sorted, m, path);
    MissingShows(Q, sorted, m, path, x);
    forall name ensures name in sorted <==> name in names {
      SortMember(LexLe, names, name);
    }
    RequiredNamesBroken(f, m, path, x);
  }

  lemma RequiredNamesBroken(f: map<string, Json>, m: map<string, Json>, path: string, x: Finding)
    requires Get(f, "required").Arr? ==> forall y :: y in Get(f, "required").items ==> y.Str?
    ensures (exists name :: name in RequiredNames(f) && MissesField(Str(name), m, path, x)) <==> RequiredBroken(f, m, path, x)
  {
    var names := RequiredNames(f);
    if Get(f, "required").Arr? {
      var items := Get(f, "required").items;
      if name :| name in names && MissesField(Str(name), m, path, x) {
        var i :| 0 <= i < |names| && names[i] == name;
        assert items[i] in items && items[i] == Str(name);
      }
      if y :| y in items && MissesField(y, m, path, x) {
        var i :| 0 <= i < |items| && items[i] == y;
        assert names[i] in names && y == Str(names[i]);
      }
    }
  }

  /** What is reported about the member k. */
  ghost predicate KeyShows(Q: Query, f: map<string, Json>, m: map<string, Json>, k: string, path: string, x: Finding)
  {
    && k in m
    && if k in Properties(f) then Q(m[k], Properties(f)[k], path + "." + k) else Unexpected(f, m, path, x, k)
  }

  lemma PropertyShows(Q: Query, f: map<string, Json>, m: map<string, Json>, k: string, path: string, x: Finding)
    requires k in m && Fail !in PropertyJob(f, m, k, path)
    ensures Shows(Q, PropertyJob(f, m, k, path), x) <==> KeyShows(Q, f, m, k, path, x)
  {
    assert Fail in [Fail];
    var jobs := PropertyJob(f, m, k, path);
    if jobs != [] {
      ShowsOne(Q, jobs[0], x);
    }
  }

  lemma {:induction false} PropertiesShow(Q: Query, f: map<string, Json>, m: map<string, Json>, keys: seq<string>,
                                          path: string, x: Finding)
    requires forall k :: k in keys ==> k in m
    requires Fail !in PropertyJobs(f, m, keys, path)
    ensures Shows(Q, PropertyJobs(f, m, keys, path), x) <==> exists k :: k in keys && KeyShows(Q, f, m, k, path, x)
  {
    if |keys| > 0 {
      var init, last := keys[..|keys| - 1], keys[|keys| - 1];
      assert keys == init + [last];
      NotInParts(PropertyJobs(f, m, init, path), PropertyJob(f, m, last, path));
      PropertiesShow(Q, f, m, init, path, x);
      PropertyShows(Q, f, m, last, path, x);
      ShowsConcat(Q, PropertyJobs(f, m, init, path), PropertyJob(f, m, last, path), x);
    }
  }

  lemma ReportIfShows(Q: Query, condition: bool, finding: Finding, x: Finding)
    ensures Shows(Q, ReportIf(condition, finding), x) <==> condition && x == finding
  {
    ShowsOne(Q, Report(finding), x);
  }

  lemma SizeShows(Q: Query, E: Engine, f: map<string, Json>, xs: seq<Json>, path: string, x: Finding)
    requires SupportedNode(E, f)
    ensures Shows(Q, SizeJobs(f, xs, path), x) <==>
            || LimitBroken(f, "minItems", true, |xs|, path, "must contain at least ", " item(s)", x)
            || LimitBroken(f, "maxItems", false, |xs|, path, "must contain at most ", " item(s)", x)
  {
    var low := Finding(path, "must contain at least " + LimitText(f, "minItems") + " item(s)");
    var high := Finding(path, "must contain at most " + LimitText(f, "maxItems") + " item(s)");
    var a, b := ReportIf(Below(f, "minItems", |xs|), low), ReportIf(Above(f, "maxItems", |xs|), high);
    ShowsConcat(Q, a, b, x);
    ReportIfShows(Q, Below(f, "minItems", |xs|), low, x);
    ReportIfShows(Q, Above(f, "maxItems", |xs|), high, x);
  }

  lemma StringShows(Q: Query, E: Engine, f: map<string, Json>, t: string, path: string, x: Finding)
    requires SupportedNode(E, f)
    ensures Shows(Q, StringJobs(E, f, t, path), x) <==> StringBroken(E, f, t, path, x)
  {
    var low := Finding(path, "length must be at least " + LimitText(f, "minLength"));
    var high := Finding(path, "length must be at most " + LimitText(f, "maxLength"));
    var odd := Finding(path, "value does not match pattern " + PatternText(f));
    var a, b := ReportIf(Below(f, "minLength", |t|), low), ReportIf(Above(f, "maxLength", |t|), high);
    var c := ReportIf(PatternFails(E, f, t), odd);
    ShowsConcat(Q, a + b, c, x);
    ShowsConcat(Q, a, b, x);
    ReportIfShows(Q, Below(f, "minLength", |t|), low, x);
    ReportIfShows(Q, Above(f, "maxLength", |t|), high, x);
    ReportIfShows(Q, PatternFails(E, f, t), odd, x);
    assert low.message + "" == low.message && high.message + "" == high.message;
  }

  lemma {:induction false} UniqueShows(Q: Query, E: Engine, f: map<string, Json>, xs: seq<Json>, n: nat, path: string, x: Finding)
    requires n <= |xs|
    ensures Shows(Q, UniqueJobs(E, f, xs, n, path), x) <==> exists i: nat :: i < n && Repeats(E, f, xs, path, x, i)
  {
    if n > 0 && Get(f, "uniqueItems") == Bool(true) {
      UniqueShows(Q, E, f, xs, n - 1, path, x);
      var job := Report(Finding(At(path, n - 1), "duplicate array item"));
      ShowsConcat(Q, UniqueJobs(E, f, xs, n - 1, path), if SeenBefore(E, xs, n - 1) then [job] else [], x);
      ShowsOne(Q, job, x);
      assert SeenBefore(E, xs, n - 1) && x == job.finding <==> Repeats(E, f, xs, path, x, n - 1);
    }
  }

  /** What is reported about the item at i. */
  ghost predicate ItemShows(Q: Query, f: map<string, Json>, xs: seq<Json>, i: nat, path: string)
  {
    i < |xs| && ItemSchema(f, i).Some? && Q(xs[i], ItemSchema(f, i).value, path + "[" + Decimal(i) + "]")
  }

  lemma ItemsShow(Q: Query, f: map<string, Json>, xs: seq<Json>, path: string, x: Finding)
    ensures Shows(Q, ItemJobs(f, xs, path), x) <==> (exists i: nat :: ItemShows(Q, f, xs, i, path)) || Surplus(f, xs, path, x)
  {
    var items := Get(f, "items");
    var n := ItemCount(f, xs);
    var checks := seq(n, i requires 0 <= i < n => Check(xs[i], if items.Obj? then items else items.items[i], At(path, i)));
    var more := items.Arr? && |xs| > |items.items| && Get(f, "additionalItems") == Bool(false);
    var job := Report(Finding(if items.Arr? then At(path, |items.items|) else "", "additional array item is not allowed"));
    assert ItemJobs(f, xs, path) == checks + if more then [job] else [];
    ShowsConcat(Q, checks, if more then [job] else [], x);
    ShowsOne(Q, job, x);
    ChecksShow(Q, f, xs, path, checks, x);
  }

  lemma ChecksShow(Q: Query, f: map<string, Json>, xs: seq<Json>, path: string, checks: seq<Job>, x: Finding)
    requires |checks| == ItemCount(f, xs)
    requires forall i :: 0 <= i < |checks| ==>
               checks[i] == Check(xs[i], if Get(f, "items").Obj? then Get(f, "items") else Get(f, "items").items[i], At(path, i))
    ensures Shows(Q, checks, x) <==> exists i: nat :: ItemShows(Q, f, xs, i, path)
  {
    if Shows(Q, checks, x) {
      var job :| job in checks && JobShows(Q, job, x);
      var i :| 0 <= i < |checks| && checks[i] == job;
      assert ItemShows(Q, f, xs, i, path);
    }
    if i: nat :| ItemShows(Q, f, xs, i, path) {
      assert checks[i] in checks && JobShows(Q, checks[i], x);
    }
  }

  // ---------------------------------------------------------------- jobs of one node

  /** What is reported about the members of an object, or the items of an array. */
  ghost predicate InsideShows(Q: Query, f: map<string, Json>, v: Json, path: string)
  {
    match v
    case Obj(m) => exists k :: k in m && k in Properties(f) && Q(m[k], Properties(f)[k], path + "." + k)
    case Arr(xs) => exists i: nat :: ItemShows(Q, f, xs, i, path)
    case _ => false
  }

  lemma ObjectShows(Q: Query, E: Engine, f: map<string, Json>, m: map<string, Json>, path: string, x: Finding)
    requires SupportedNode(E, f)
    requires Fail !in RequiredJobs(f, m, path) + PropertyJobs(f, m, SortedList(m.Keys), path)
    ensures Shows(Q, RequiredJobs(f, m, path) + PropertyJobs(f, m, SortedList(m.Keys), path), x) <==>
            || RequiredBroken(f, m, path, x) || (exists k :: Unexpected(f, m, path, x, k))
            || InsideShows(Q, f, Obj(m), path)
  {
    var keys := SortedList(m.Keys);
    NotInParts(RequiredJobs(f, m, path), PropertyJobs(f, m, keys, path));
    ShowsConcat(Q, RequiredJobs(f, m, path), PropertyJobs(f, m, keys, path), x);
    RequiredShows(Q, E, f, m, path, x);
    PropertiesShow(Q, f, m, keys, path, x);
    KeysShow(Q, f, m, keys, path, x);
  }

  lemma KeysShow(Q: Query, f: map<string, Json>, m: map<string, Json>, keys: seq<string>, path: string, x: Finding)
    requires forall k :: k in keys <==> k in m
    ensures (exists k :: k in keys && KeyShows(Q, f, m, k, path, x)) <==>
            (exists k :: Unexpected(f, m, path, x, k)) || InsideShows(Q, f, Obj(m), path)
  {
    if k :| Unexpected(f, m, path, x, k) {
      assert k in keys && KeyShows(Q, f, m, k, path, x);
    }
    if InsideShows(Q, f, Obj(m), path) {
      var k :| k in m && k in Properties(f) && Q(m[k], Properties(f)[k], path + "." + k);
      assert k in keys && KeyShows(Q, f, m, k, path, x);
    }
  }

  lemma ArrayShows(Q: Query, E: Engine, f: map<string, Json>, xs: seq<Json>, path: string, x: Finding)
    requires SupportedNode(E, f)
    ensures Shows(Q, SizeJobs(f, xs, path) + UniqueJobs(E, f, xs, |xs|, path) + ItemJobs(f, xs, path), x) <==>
            ArrayBroken(E, f, xs, path, x) || InsideShows(Q, f, Arr(xs), path)
  {
    var a, b, c := SizeJobs(f, xs, path), UniqueJobs(E, f, xs, |xs|, path), ItemJobs(f, xs, path);
    ShowsConcat(Q, a + b, c, x);
    ShowsConcat(Q, a, b, x);
    SizeShows(Q, E, f, xs, path, x);
    UniqueShows(Q, E, f, xs, |xs|, path, x);
    ItemsShow(Q, f, xs, path, x);
  }

  /** The local jobs report the broken keywords and what the members or items report. */
  lemma LocalShows(Q: Query, E: Engine, f: map<string, Json>, v: Json, path: string, x: Finding)
    requires SupportedNode(E, f) && Fail !in LocalJobs(E, f, v, path)
    ensures Shows(Q, LocalJobs(E, f, v, path), x) <==> KeywordBroken(E, f, v, path, x) || InsideShows(Q, f, v, path)
  {
    NotInParts(EnumJobs(E, f, v, path), KindJobs(E, f, v, path));
    ShowsConcat(Q, EnumJobs(E, f, v, path), KindJobs(E, f, v, path), x);
    EnumShows(Q, E, f, v, path, x);
    match v
    case Obj(m) => ObjectShows(Q, E, f, m, path, x);
    case Arr(xs) => ArrayShows(Q, E, f, xs, path, x);
    case Str(t) => StringShows(Q, E, f, t, path, x);
    case _ =>
  }

  // ---------------------------------------------------------------- the theorem

  lemma {:induction false} DeduplicateKeeps(fs: seq<Finding>, x: Finding)
    ensures x in Deduplicate(fs) <==> x in fs
  {
    if |fs| > 0 {
      DeduplicateKeeps(fs[..|fs| - 1], x);
      assert fs == fs[..|fs| - 1] + [fs[|fs| - 1]];
    }
  }

  lemma NormalizeKeeps(fs: seq<Finding>, x: Finding)
    ensures x in Normalize(fs) <==> x in fs
  {
    SortMember(FindingLe, Deduplicate(fs), x);
    DeduplicateKeeps(fs, x);
  }

  /** The nested calls that return report x exactly where Q says so. */
  ghost predicate Answers(N: Nested, Q: Query, x: Finding)
  {
    forall v, s, path :: N(v, s, path).Ok? ==> (x in N(v, s, path).findings <==> Q(v, s, path))
  }

  lemma {:induction false} RunShows(N: Nested, Q: Query, jobs: seq<Job>, x: Finding)
    requires Answers(N, Q, x) && Run(N, jobs).Ok?
    ensures x in Run(N, jobs).findings <==> Shows(Q, jobs, x)
  {
    if |jobs| > 0 {
      var init, last := jobs[..|jobs| - 1], jobs[|jobs| - 1];
      assert jobs == init + [last];
      RunShows(N, Q, init, x);
      ShowsConcat(Q, init, [last], x);
      ShowsOne(Q, last, x);
    }
  }

  /** The violations found from each site on. */
  ghost function Violations(E: Engine, root: Json, x: Finding): Query
  {
    (v, s, path) => Violation(E, root, Site(s, v, path), x)
  }

  /** A node without a type mismatch: its own findings and those of everything it applies. */
  lemma NodeUnfold(E: Engine, root: Json, f: map<string, Json>, v: Json, path: string, x: Finding)
    requires !WrongType(f, v)
    ensures Violation(E, root, Site(Obj(f), v, path), x) <==>
            || KeywordBroken(E, f, v, path, x)
            || (exists u :: InPlaceStep(root, Obj(f), u) && Violations(E, root, x)(v, u, path))
            || InsideShows(Violations(E, root, x), f, v, path)
  {
    var a, Q := Site(Obj(f), v, path), Violations(E, root, x);
    ViolationUnfold(E, root, a, x);
    if u :| LeadsTo(root, a, u) && Violation(E, root, u, x) {
      LeadsInside(E, root, f, v, path, x, u);
    }
    if u :| InPlaceStep(root, Obj(f), u) && Q(v, u, path) {
      assert ToSelf(root, a, Site(u, v, path));
    }
    if InsideShows(Q, f, v, path) {
      InsideLeads(E, root, f, v, path, x);
    }
  }

  lemma LeadsInside(E: Engine, root: Json, f: map<string, Json>, v: Json, path: string, x: Finding, u: Site)
    requires LeadsTo(root, Site(Obj(f), v, path), u) && Violation(E, root, u, x)
    ensures || (exists t :: InPlaceStep(root, Obj(f), t) && Violations(E, root, x)(v, t, path))
            || InsideShows(Violations(E, root, x), f, v, path)
  {
    var a, Q := Site(Obj(f), v, path), Violations(E, root, x);
    assert u == Site(u.schema, u.value, u.path);
    if ToSelf(root, a, u) {
      assert Q(v, u.schema, path);
    } else if k :| ToMember(a, u, k) {
      assert Q(v.fields[k], Properties(f)[k], path + "." + k);
    } else {
      var i: nat :| ToItem(a, u, i);
      assert ItemShows(Q, f, v.items, i, path);
    }
  }

  lemma InsideLeads(E: Engine, root: Json, f: map<string, Json>, v: Json, path: string, x: Finding)
    requires !WrongType(f, v) && InsideShows(Violations(E, root, x), f, v, path)
    ensures exists u :: LeadsTo(root, Site(Obj(f), v, path), u) && Violation(E, root, u, x)
  {
    var a, Q := Site(Obj(f), v, path), Violations(E, root, x);
    match v
    case Obj(m) =>
      var k :| k in m && k in Properties(f) && Q(m[k], Properties(f)[k], path + "." + k);
      assert ToMember(a, Site(Properties(f)[k], m[k], path + "." + k), k);
    case Arr(xs) =>
      var i: nat :| ItemShows(Q, f, xs, i, path);
      assert ToItem(a, Site(ItemSchema(f, i).value, xs[i], path + "[" + Decimal(i) + "]"), i);
    case _ =>
  }

  lemma WrongTypeAlone(E: Engine, root: Json, f: map<string, Json>, v: Json, path: string, x: Finding)
    requires WrongType(f, v)
    ensures Violation(E, root, Site(Obj(f), v, path), x) <==> x == Finding(path, "expected " + Get(f, "type").s)
  {
    ViolationUnfold(E, root, Site(Obj(f), v, path), x);
  }

  lemma NodeShows(E: Engine, root: Json, N: Nested, v: Json, s: Json, path: string, x: Finding)
    requires Answers(N, Violations(E, root, x), x)
    requires Node(E, root, N, v, s, path).Ok?
    ensures x in Node(E, root, N, v, s, path).findings <==> Violation(E, root, Site(s, v, path), x)
  {
    var f, Q := s.fields, Violations(E, root, x);
    var a, b := InPlaceJobs(root, f, v, path), LocalJobs(E, f, v, path);
    AssembleEmpty(f, v, path, Run(N, a), Run(N, b));
    if TypeMismatch(f, v) {
      WrongTypeAlone(E, root, f, v, path, x);
    } else {
      NormalizeKeeps(Run(N, a).findings + Run(N, b).findings, x);
      RunShows(N, Q, a, x);
      RunShows(N, Q, b, x);
      NoFail(N, b);
      InPlaceShows(Q, root, f, v, path, x);
      LocalShows(Q, E, f, v, path, x);
      NodeUnfold(E, root, f, v, path, x);
    }
  }

  /** Whenever validation returns, its list holds exactly the violations: each broken keyword of
      each node that applies, at the path of its place, and a wrong type alone at its node. */
  lemma {:induction false} FindingsAreViolations(E: Engine, root: Json, fuel: nat, v: Json, s: Json, path: string, x: Finding)
    requires Validate(E, root, fuel, v, s, path).Ok?
    ensures x in Validate(E, root, fuel, v, s, path).findings <==> Violation(E, root, Site(s, v, path), x)
    decreases fuel, 0
  {
    CallsAnswer(E, root, fuel - 1, x);
    NodeShows(E, root, Calls(E, root, fuel - 1), v, s, path, x);
  }

  lemma {:induction false} CallsAnswer(E: Engine, root: Json, fuel: nat, x: Finding)
    ensures Answers(Calls(E, root, fuel), Violations(E, root, x), x)
    decreases fuel, 1
  {
    var N, Q := Calls(E, root, fuel), Violations(E, root, x);
    forall v, s, path | N(v, s, path).Ok? ensures x in N(v, s, path).findings <==> Q(v, s, path) {
      FindingsAreViolations(E, root, fuel, v, s, path, x);
    }
  }
}
