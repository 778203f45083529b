/** When `validate_instance` returns at all: a termination measure over instance depth and
    `$ref`/`allOf` chains, and the exact condition under which no instance makes it raise. */
module Totality {
  import opened Options
  import opened Ordering
  import opened Reachability
  import opened JsonSchema
  import opened Validation
  import opened Meaning

  // ---------------------------------------------------------------- nesting limit

  /** M answers whatever N answers without hitting the limit. */
  ghost predicate Extends(N: Nested, M: Nested)
  {
    forall v, s, p :: N(v, s, p) != TooDeep ==> M(v, s, p) == N(v, s, p)
  }

  lemma {:induction false} RunExtends(N: Nested, M: Nested, jobs: seq<Job>)
    requires Extends(N, M) && Run(N, jobs) != TooDeep
    ensures Run(M, jobs) == Run(N, jobs)
  {
    if |jobs| > 0 {
      RunExtends(N, M, jobs[..|jobs| - 1]);
    }
  }

  lemma NodeExtends(E: Engine, root: Json, N: Nested, M: Nested, v: Json, s: Json, path: string)
    requires Extends(N, M) && Node(E, root, N, v, s, path) != TooDeep
    ensures Node(E, root, M, v, s, path) == Node(E, root, N, v, s, path)
  {
    if Supported(E, s) {
      var a, b := InPlaceJobs(root, s.fields, v, path), LocalJobs(E, s.fields, v, path);
      RunExtends(N, M, a);
      if Run(N, a).Ok? && !TypeMismatch(s.fields, v) {
        RunExtends(N, M, b);
      }
    }
  }

  /** The nesting limit never changes an answer: a deeper limit gives the same one. */
  lemma {:induction false} LimitIsIrrelevant(E: Engine, root: Json, n: nat, m: nat, v: Json, s: Json, path: string)
    requires n <= m && Validate(E, root, n, v, s, path) != TooDeep
    ensures Validate(E, root, m, v, s, path) == Validate(E, root, n, v, s, path)
    decreases n, 0
  {
    assert n > 0;
    CallsExtend(E, root, n - 1, m - 1);
    NodeLimits(E, root, n, m, v, s, path);
  }

  lemma NodeLimits(E: Engine, root: Json, n: nat, m: nat, v: Json, s: Json, path: string)
    requires 0 < n <= m && Extends(Calls(E, root, n - 1), Calls(E, root, m - 1))
    requires Validate(E, root, n, v, s, path) != TooDeep
    ensures Validate(E, root, m, v, s, path) == Validate(E, root, n, v, s, path)
  {
    calc {
      Validate(E, root, n, v, s, path);
      Node(E, root, Calls(E, root, n - 1), v, s, path);
      { NodeExtends(E, root, Calls(E, root, n - 1), Calls(E, root, m - 1), v, s, path); }
      Node(E, root, Calls(E, root, m - 1), v, s, path);
      Validate(E, root, m, v, s, path);
    }
  }

  lemma {:induction false} CallsExtend(E: Engine, root: Json, n: nat, m: nat)
    requires n <= m
    ensures Extends(Calls(E, root, n), Calls(E, root, m))
    decreases n, 1
  {
    forall v, s, p | Calls(E, root, n)(v, s, p) != TooDeep ensures Calls(E, root, m)(v, s, p) == Calls(E, root, n)(v, s, p) {
      LimitIsIrrelevant(E, root, n, m, v, s, p);
    }
  }

  // ---------------------------------------------------------------- in-place chains

  /** Every chain of `$ref` and `allOf` steps from s has fewer than h steps. */
  ghost predicate Bounded(root: Json, s: Json, h: nat)
    decreases h
  {
    h > 0 && forall t :: InPlaceStep(root, s, t) ==> Bounded(root, t, h - 1)
  }

  /** No infinite chain of `$ref` and `allOf` steps starts at s. */
  ghost predicate Acyclic(root: Json, s: Json)
  {
    exists h :: Bounded(root, s, h)
  }

  lemma InPlaceJobOf(root: Json, s: Json, t: Json, v: Json, path: string)
    requires s.Obj? && InPlaceStep(root, s, t)
    ensures Check(v, t, path) in InPlaceJobs(root, s.fields, v, path)
  {
    var f := s.fields;
    var a, b := RefJobs(root, f, v, path), AllOfJobs(f, v, path);
    assert forall j :: j in a || j in b ==> j in a + b;
    if Get(f, "$ref").Str? && Pointer(root, f["$ref"].s) == Some(t) {
      assert a[0] == Check(v, t, path);
    } else {
      var i :| 0 <= i < |f["allOf"].items| && f["allOf"].items[i] == t;
      assert b[i] == Check(v, t, path);
    }
  }

  lemma JobReturned(N: Nested, jobs: seq<Job>, j: Job)
    requires Run(N, jobs).Ok? && j in jobs
    ensures Do(N, j).Ok?
  {
    RunOk(N, jobs);
    var i :| 0 <= i < |jobs| && jobs[i] == j;
  }

  /** A call that returns has walked every chain: an in-place cycle exhausts any limit. */
  lemma ReturnedIsBounded(E: Engine, root: Json, n: nat, v: Json, s: Json, path: string)
    requires Validate(E, root, n, v, s, path).Ok?
    ensures Bounded(root, s, n)
  {
    var R := (k: nat, u: Json) => Validate(E, root, k, v, u, path).Ok?;
    AnswersAreClosed(E, root, v, path, R);
    assert R(n, s);
    ClosedIsBounded(root, R, n, s);
  }

  lemma AnswersAreClosed(E: Engine, root: Json, v: Json, path: string, R: (nat, Json) -> bool)
    requires forall k: nat, u :: R(k, u) == Validate(E, root, k, v, u, path).Ok?
    ensures StepClosed(root, R)
  {
    forall k: nat, u | R(k, u) ensures k > 0 {
      assert Validate(E, root, k, v, u, path).Ok?;
    }
    forall k: nat, u, t | R(k, u) && InPlaceStep(root, u, t) ensures R(k - 1, t) {
      StepReturned(E, root, k, v, u, path, t);
    }
  }

  /** Each step from an answer uses up one of the calls that are left. */
  ghost predicate StepClosed(root: Json, R: (nat, Json) -> bool)
  {
    && (forall k: nat, u :: R(k, u) ==> k > 0)
    && (forall k: nat, u, t :: R(k, u) && InPlaceStep(root, u, t) ==> R(k - 1, t))
  }

  lemma {:induction false} ClosedIsBounded(root: Json, R: (nat, Json) -> bool, n: nat, s: Json)
    requires StepClosed(root, R) && R(n, s)
    ensures Bounded(root, s, n)
    decreases n
  {
    forall t | InPlaceStep(root, s, t) ensures Bounded(root, t, n - 1) {
      ClosedIsBounded(root, R, n - 1, t);
    }
  }

  lemma StepReturned(E: Engine, root: Json, n: nat, v: Json, s: Json, path: string, t: Json)
    requires Validate(E, root, n, v, s, path).Ok? && InPlaceStep(root, s, t)
    ensures n > 0 && Validate(E, root, n - 1, v, t, path).Ok?
  {
    InPlaceRan(E, root, n, v, s, path);
    InPlaceJobOf(root, s, t, v, path);
    JobReturned(Calls(E, root, n - 1), InPlaceJobs(root, s.fields, v, path), Check(v, t, path));
  }

  lemma InPlaceRan(E: Engine, root: Json, n: nat, v: Json, s: Json, path: string)
    requires Validate(E, root, n, v, s, path).Ok?
    ensures n > 0 && s.Obj? && Run(Calls(E, root, n - 1), InPlaceJobs(root, s.fields, v, path)).Ok?
  {
  }

  // ---------------------------------------------------------------- live nodes

  /** No type mismatch of t stops the evaluation of its local keywords on that kind of value. */
  predicate Admits(t: Json, kind: string)
  {
    t.Obj? && (Get(t.fields, "type").Str? ==> Get(t.fields, "type").s == kind)
  }

  /** Some instance makes the validator go from s to t. */
  ghost predicate LiveStep(root: Json, s: Json, t: Json)
  {
    || InPlaceStep(root, s, t)
    || (Admits(s, "object") && exists k :: k in Properties(s.fields) && Properties(s.fields)[k] == t)
    || (Admits(s, "array") && (Get(s.fields, "items") == t ||
                               (Get(s.fields, "items").Arr? && t in Get(s.fields, "items").items)) && t.Obj?)
  }

  ghost function LiveSteps(root: Json): (Json, Json) -> bool
  {
    (s, t) => LiveStep(root, s, t)
  }

  ghost predicate Live(root: Json, s: Json, t: Json)
  {
    Reach(LiveSteps(root), s, t)
  }

  lemma LiveSelf(root: Json, s: Json)
    ensures Live(root, s, s)
  {
    ReachSelf(LiveSteps(root), s);
  }

  lemma LiveVia(root: Json, s: Json, u: Json, t: Json)
    requires LiveStep(root, s, u) && Live(root, u, t)
    ensures Live(root, s, t)
  {
    ReachOne(LiveSteps(root), s, u);
    ReachJoin(LiveSteps(root), s, u, t);
  }

  /** The keywords of t that would make an evaluation raise: an explicit null for `allOf`, and
      for `required` or `properties` once an object is looked at. */
  predicate Tripwire(t: Json)
  {
    t.Obj? && (
      || ("allOf" in t.fields && !t.fields["allOf"].Arr?)
      || (Admits(t, "object") && (("required" in t.fields && !t.fields["required"].Arr?) ||
                                  ("properties" in t.fields && !t.fields["properties"].Obj?))))
  }

  /** The node is evaluated without raising. */
  ghost predicate Sound(E: Engine, root: Json, t: Json)
  {
    && Supported(E, t)
    && (Get(t.fields, "$ref").Str? ==> Pointer(root, t.fields["$ref"].s).Some?)
    && !Tripwire(t)
    && Acyclic(root, t)
  }

  ghost predicate AllSound(E: Engine, root: Json, s: Json)
  {
    forall t :: Live(root, s, t) ==> Sound(E, root, t)
  }

  lemma SoundSteps(E: Engine, root: Json, s: Json, u: Json)
    requires AllSound(E, root, s) && LiveStep(root, s, u)
    ensures AllSound(E, root, u)
  {
    forall t | Live(root, u, t) ensures Sound(E, root, t) {
      LiveVia(root, s, u, t);
    }
  }

  // ---------------------------------------------------------------- jobs of a sound node

  lemma SoundInPlace(E: Engine, root: Json, s: Json, v: Json, path: string, j: Job)
    requires Sound(E, root, s) && j in InPlaceJobs(root, s.fields, v, path)
    ensures j.Check? && j.value == v && InPlaceStep(root, s, j.schema)
  {
    var f := s.fields;
    var a, b := RefJobs(root, f, v, path), AllOfJobs(f, v, path);
    assert j in a || j in b;
    if j in b {
      var i :| 0 <= i < |b| && b[i] == j;
    }
  }

  /** A local job of a sound node reports, or checks a part of the value against a live node. */
  ghost predicate PartJob(root: Json, s: Json, v: Json, j: Job)
  {
    j.Report? || (j.Check? && LiveStep(root, s, j.schema) && Part(j.value, v))
  }

  /** w is a member or an item of v. */
  ghost predicate Part(w: Json, v: Json)
  {
    || (v.Obj? && exists k :: k in v.fields && v.fields[k] == w)
    || (v.Arr? && w in v.items)
  }

  lemma {:induction false} SoundProperties(E: Engine, root: Json, s: Json, v: Json, keys: seq<string>, path: string, j: Job)
    requires Sound(E, root, s) && v.Obj? && Admits(s, "object") && forall k :: k in keys ==> k in v.fields
    requires j in PropertyJobs(s.fields, v.fields, keys, path)
    ensures PartJob(root, s, v, j)
  {
    var init, last := keys[..|keys| - 1], keys[|keys| - 1];
    var a, b := PropertyJobs(s.fields, v.fields, init, path), PropertyJob(s.fields, v.fields, last, path);
    assert j in a || j in b;
    if j in a {
      SoundProperties(E, root, s, v, init, path, j);
    } else if j.Check? {
      assert last in Properties(s.fields) && Properties(s.fields)[last] == j.schema;
      assert last in v.fields && v.fields[last] == j.value;
    }
  }

  lemma SoundItems(E: Engine, root: Json, s: Json, v: Json, path: string, j: Job)
    requires Sound(E, root, s) && v.Arr? && Admits(s, "array")
    requires j in ItemJobs(s.fields, v.items, path)
    ensures PartJob(root, s, v, j)
  {
    var jobs := ItemJobs(s.fields, v.items, path);
    var i :| 0 <= i < |jobs| && jobs[i] == j;
    var items := Get(s.fields, "items");
    if items.Arr? && j.Check? {
      assert items.items[i] in items.items;
      assert Supported(E, items.items[i]);
    }
  }

  lemma ReportsOnly(names: seq<string>, m: map<string, Json>, path: string, j: Job)
    requires j in MissingJobs(names, m, path)
    ensures j.Report?
  {
    MissingMeaning(names, m, path);
  }

  lemma SoundLocal(E: Engine, root: Json, s: Json, v: Json, path: string, j: Job)
    requires Sound(E, root, s) && !TypeMismatch(s.fields, v)
    requires j in LocalJobs(E, s.fields, v, path)
    ensures PartJob(root, s, v, j)
  {
    if j !in EnumJobs(E, s.fields, v, path) {
      assert j in KindJobs(E, s.fields, v, path);
      match v
      case Obj(m) => SoundObject(E, root, s, m, path, j);
      case Arr(xs) => SoundArray(E, root, s, xs, path, j);
      case Str(t) =>
      case _ =>
    }
  }

  lemma SoundObject(E: Engine, root: Json, s: Json, m: map<string, Json>, path: string, j: Job)
    requires Sound(E, root, s) && !TypeMismatch(s.fields, Obj(m)) && j in KindJobs(E, s.fields, Obj(m), path)
    ensures PartJob(root, s, Obj(m), j)
  {
    assert Admits(s, "object");
    if j in RequiredJobs(s.fields, m, path) {
      ReportsOnly(StableSort(LexLe, RequiredNames(s.fields)), m, path, j);
    } else {
      SoundProperties(E, root, s, Obj(m), SortedList(m.Keys), path, j);
    }
  }

  lemma SoundArray(E: Engine, root: Json, s: Json, xs: seq<Json>, path: string, j: Job)
    requires Sound(E, root, s) && !TypeMismatch(s.fields, Arr(xs)) && j in KindJobs(E, s.fields, Arr(xs), path)
    ensures PartJob(root, s, Arr(xs), j)
  {
    assert Admits(s, "array");
    if j in UniqueJobs(E, s.fields, xs, |xs|, path) {
      UniqueReports(E, s.fields, xs, |xs|, path);
    } else if j !in SizeJobs(s.fields, xs, path) {
      SoundItems(E, root, s, Arr(xs), path, j);
    }
  }

  lemma NodeReturns(E: Engine, root: Json, N: Nested, v: Json, s: Json, path: string)
    requires Supported(E, s)
    requires forall j :: j in InPlaceJobs(root, s.fields, v, path) ==> Do(N, j).Ok?
    requires TypeMismatch(s.fields, v) || forall j :: j in LocalJobs(E, s.fields, v, path) ==> Do(N, j).Ok?
    ensures Node(E, root, N, v, s, path).Ok?
  {
    RunOk(N, InPlaceJobs(root, s.fields, v, path));
    if !TypeMismatch(s.fields, v) {
      RunOk(N, LocalJobs(E, s.fields, v, path));
    }
  }

  // ---------------------------------------------------------------- the termination measure

  /** The value nests at most d levels deep. */
  ghost predicate Within(v: Json, d: nat)
  {
    match v
    case Obj(m) => d > 0 && forall k :: k in m ==> Within(m[k], d - 1)
    case Arr(xs) => d > 0 && forall x :: x in xs ==> Within(x, d - 1)
    case _ => true
  }

  /** Enough nested calls for a value of depth d and a chain of fewer than h steps. */
  ghost predicate Enough(h: nat, H: nat, d: nat, n: nat)
  {
    h <= H && n >= h + H * d
  }

  lemma EnoughBelow(h: nat, H: nat, d: nat, n: nat)
    requires Enough(h, H, d, n) && h > 0
    ensures n > 0 && Enough(h - 1, H, d, n - 1)
    ensures d > 0 ==> Enough(H, H, d - 1, n - 1)
  {
    if d > 0 {
      assert H * d == H * (d - 1) + H;
    }
  }

  /** Every chain from a node that some instance reaches has fewer than H steps. */
  ghost predicate AllBounded(root: Json, s: Json, H: nat)
  {
    forall t :: Live(root, s, t) ==> Bounded(root, t, H)
  }

  lemma BoundedStep(root: Json, s: Json, h: nat, t: Json)
    requires Bounded(root, s, h) && InPlaceStep(root, s, t)
    ensures h > 0 && Bounded(root, t, h - 1)
  {
  }

  // ---------------------------------------------------------------- descending calls

  /** Every check against an in-place target returns. */
  ghost predicate InPlaceDone(root: Json, N: Nested, s: Json, v: Json)
  {
    forall j: Job :: j.Check? && j.value == v && InPlaceStep(root, s, j.schema) ==> Do(N, j).Ok?
  }

  /** Every check of a part of the value returns. */
  ghost predicate PartsDone(root: Json, N: Nested, s: Json, v: Json)
  {
    forall j: Job :: j.Check? && PartJob(root, s, v, j) ==> Do(N, j).Ok?
  }

  /** A sound node returns when the jobs it may hand out do. */
  lemma SoundNode(E: Engine, root: Json, N: Nested, s: Json, v: Json, path: string)
    requires Sound(E, root, s) && InPlaceDone(root, N, s, v) && PartsDone(root, N, s, v)
    ensures Node(E, root, N, v, s, path).Ok?
  {
    forall j | j in InPlaceJobs(root, s.fields, v, path) ensures Do(N, j).Ok? {
      SoundInPlace(E, root, s, v, path, j);
    }
    if !TypeMismatch(s.fields, v) {
      forall j | j in LocalJobs(E, s.fields, v, path) ensures Do(N, j).Ok? {
        SoundLocal(E, root, s, v, path, j);
      }
    }
    NodeReturns(E, root, N, v, s, path);
  }

  /** A property of calls: schema, value, steps of the chain left, depth left, nested calls left. */
  type Call = (Json, Json, nat, nat, nat) -> bool

  /** The call is of a sound node, and each call it makes has the property again, with a shorter
      chain on the same value or with any chain on a part of it. */
  ghost predicate Descends(E: Engine, root: Json, H: nat, F: Call, s: Json, v: Json, h: nat, d: nat, n: nat)
  {
    && n > 0 && Sound(E, root, s)
    && (forall t :: InPlaceStep(root, s, t) ==> h > 0 && F(t, v, h - 1, d, n - 1))
    && (forall j: Job :: j.Check? && PartJob(root, s, v, j) ==> d > 0 && F(j.schema, j.value, H, d - 1, n - 1))
  }

  ghost predicate Descending(E: Engine, root: Json, H: nat, F: Call)
  {
    forall s, v, h, d, n :: F(s, v, h, d, n) ==> Descends(E, root, H, F, s, v, h, d, n)
  }

  lemma {:induction false} Descent(E: Engine, root: Json, H: nat, F: Call,
                                   s: Json, v: Json, path: string, h: nat, d: nat, n: nat)
    requires Descending(E, root, H, F) && F(s, v, h, d, n)
    ensures Validate(E, root, n, v, s, path).Ok?
    decreases d, h, 1
  {
    DescentInPlace(E, root, H, F, s, v, h, d, n);
    DescentParts(E, root, H, F, s, v, h, d, n);
    SoundNode(E, root, Calls(E, root, n - 1), s, v, path);
  }

  lemma {:induction false} DescentInPlace(E: Engine, root: Json, H: nat, F: Call,
                                          s: Json, v: Json, h: nat, d: nat, n: nat)
    requires Descending(E, root, H, F) && F(s, v, h, d, n)
    ensures n > 0 && Sound(E, root, s) && InPlaceDone(root, Calls(E, root, n - 1), s, v)
    decreases d, h, 0
  {
    assert Descends(E, root, H, F, s, v, h, d, n);
    forall j: Job | j.Check? && j.value == v && InPlaceStep(root, s, j.schema)
      ensures Do(Calls(E, root, n - 1), j).Ok?
    {
      DescentJob(E, root, H, F, j, h - 1, d, n - 1);
    }
  }

  lemma {:induction false} DescentParts(E: Engine, root: Json, H: nat, F: Call,
                                        s: Json, v: Json, h: nat, d: nat, n: nat)
    requires Descending(E, root, H, F) && F(s, v, h, d, n)
    ensures n > 0 && PartsDone(root, Calls(E, root, n - 1), s, v)
    decreases d, h, 0
  {
    assert Descends(E, root, H, F, s, v, h, d, n);
    forall j: Job | j.Check? && PartJob(root, s, v, j) ensures Do(Calls(E, root, n - 1), j).Ok? {
      DescentJob(E, root, H, F, j, H, d - 1, n - 1);
    }
  }

  lemma {:induction false} DescentJob(E: Engine, root: Json, H: nat, F: Call, j: Job, h: nat, d: nat, n: nat)
    requires Descending(E, root, H, F) && j.Check? && F(j.schema, j.value, h, d, n)
    ensures Do(Calls(E, root, n), j).Ok?
    decreases d, h, 2
  {
    Descent(E, root, H, F, j.schema, j.value, j.path, h, d, n);
  }

  // ---------------------------------------------------------------- enough nested calls

  /** What `DepthSuffices` needs to know. */
  ghost predicate Fuelled(E: Engine, root: Json, s: Json, v: Json, h: nat, H: nat, d: nat, n: nat)
  {
    && AllSound(E, root, s) && AllBounded(root, s, H)
    && Bounded(root, s, h) && Within(v, d) && Enough(h, H, d, n)
  }

  lemma FuelledChain(E: Engine, root: Json, s: Json, v: Json, t: Json, h: nat, H: nat, d: nat, n: nat)
    requires Fuelled(E, root, s, v, h, H, d, n) && InPlaceStep(root, s, t)
    ensures n > 0 && h > 0 && Fuelled(E, root, t, v, h - 1, H, d, n - 1)
  {
    EnoughBelow(h, H, d, n);
    LiveBelow(E, root, s, t, H);
    BoundedStep(root, s, h, t);
  }

  lemma FuelledPart(E: Engine, root: Json, s: Json, v: Json, j: Job, h: nat, H: nat, d: nat, n: nat)
    requires Fuelled(E, root, s, v, h, H, d, n) && h > 0 && j.Check? && PartJob(root, s, v, j)
    ensures n > 0 && d > 0 && Fuelled(E, root, j.schema, j.value, H, H, d - 1, n - 1)
  {
    EnoughBelow(h, H, d, n);
    LiveBelow(E, root, s, j.schema, H);
    PartWithin(j.value, v, d);
  }

  lemma PartWithin(w: Json, v: Json, d: nat)
    requires Part(w, v) && Within(v, d)
    ensures d > 0 && Within(w, d - 1)
  {
  }

  lemma LiveBelow(E: Engine, root: Json, s: Json, u: Json, H: nat)
    requires AllSound(E, root, s) && LiveStep(root, s, u) && AllBounded(root, s, H)
    ensures AllSound(E, root, u) && Bounded(root, u, H) && AllBounded(root, u, H)
  {
    SoundSteps(E, root, s, u);
    LiveSelf(root, u);
    forall t | Live(root, u, t) ensures Bounded(root, t, H) {
      LiveVia(root, s, u, t);
    }
  }

  ghost function FuelledCalls(E: Engine, root: Json, H: nat): Call
  {
    (s: Json, v: Json, h: nat, d: nat, n: nat) => Fuelled(E, root, s, v, h, H, d, n)
  }

  lemma FuelledDescends(E: Engine, root: Json, H: nat, s: Json, v: Json, h: nat, d: nat, n: nat)
    requires Fuelled(E, root, s, v, h, H, d, n)
    ensures Descends(E, root, H, FuelledCalls(E, root, H), s, v, h, d, n)
  {
    EnoughBelow(h, H, d, n);
    LiveSelf(root, s);
    forall t | InPlaceStep(root, s, t) ensures h > 0 && FuelledCalls(E, root, H)(t, v, h - 1, d, n - 1) {
      FuelledChain(E, root, s, v, t, h, H, d, n);
    }
    forall j: Job | j.Check? && PartJob(root, s, v, j)
      ensures d > 0 && FuelledCalls(E, root, H)(j.schema, j.value, H, d - 1, n - 1)
    {
      FuelledPart(E, root, s, v, j, h, H, d, n);
    }
  }

  /** Instance depth first, then the longest chain still to walk: h + H * d nested calls are
      enough when every chain from a live node has fewer than H steps. */
  lemma DepthSuffices(E: Engine, root: Json, s: Json, v: Json, path: string, h: nat, H: nat, d: nat, n: nat)
    requires Fuelled(E, root, s, v, h, H, d, n)
    ensures Validate(E, root, n, v, s, path).Ok?
  {
    forall s, v, h, d, n | FuelledCalls(E, root, H)(s, v, h, d, n)
      ensures Descends(E, root, H, FuelledCalls(E, root, H), s, v, h, d, n)
    {
      FuelledDescends(E, root, H, s, v, h, d, n);
    }
    Descent(E, root, H, FuelledCalls(E, root, H), s, v, path, h, d, n);
  }

  // ---------------------------------------------------------------- exactly when it returns

  /** With a high enough nesting limit the call returns a list of findings. */
  ghost predicate Returns(E: Engine, root: Json, s: Json, v: Json, path: string)
  {
    exists n :: Validate(E, root, n, v, s, path).Ok?
  }

  ghost predicate JobReturns(E: Engine, root: Json, j: Job)
  {
    j.Report? || (j.Check? && Returns(E, root, j.schema, j.value, j.path))
  }

  /** One limit serves all jobs. */
  lemma {:induction false} CommonLimit(E: Engine, root: Json, jobs: seq<Job>) returns (n: nat)
    requires forall j :: j in jobs ==> JobReturns(E, root, j)
    ensures forall j, m :: j in jobs && m >= n ==> Do(Calls(E, root, m), j).Ok?
  {
    n := 0;
    if |jobs| > 0 {
      var last := jobs[|jobs| - 1];
      assert jobs == jobs[..|jobs| - 1] + [last];
      assert JobReturns(E, root, last) by {
        assert last in jobs;
      }
      var a := CommonLimit(E, root, jobs[..|jobs| - 1]);
      n := a;
      if last.Check? {
        var b :| Validate(E, root, b, last.value, last.schema, last.path).Ok?;
        n := if a < b then b else a;
        forall m | m >= n ensures Do(Calls(E, root, m), last).Ok? {
          LimitIsIrrelevant(E, root, b, m, last.value, last.schema, last.path);
        }
      }
    }
  }

  lemma {:induction false} SoundReturns(E: Engine, root: Json, s: Json, v: Json, path: string, h: nat)
    requires AllSound(E, root, s) && Bounded(root, s, h)
    ensures Returns(E, root, s, v, path)
    decreases v, h
  {
    LiveSelf(root, s);
    var a := InPlaceJobs(root, s.fields, v, path);
    forall j | j in a ensures JobReturns(E, root, j) {
      SoundInPlace(E, root, s, v, path, j);
      SoundSteps(E, root, s, j.schema);
      SoundReturns(E, root, j.schema, v, j.path, h - 1);
    }
    var n := CommonLimit(E, root, a);
    if !TypeMismatch(s.fields, v) {
      var b := LocalJobs(E, s.fields, v, path);
      forall j | j in b ensures JobReturns(E, root, j) {
        SoundLocal(E, root, s, v, path, j);
        if j.Check? {
          SoundPart(E, root, s, v, j);
          var g :| Bounded(root, j.schema, g);
          SoundReturns(E, root, j.schema, j.value, j.path, g);
        }
      }
      var n' := CommonLimit(E, root, b);
      n := if n < n' then n' else n;
    }
    NodeReturns(E, root, Calls(E, root, n), v, s, path);
    assert Validate(E, root, n + 1, v, s, path).Ok?;
  }

  lemma SoundPart(E: Engine, root: Json, s: Json, v: Json, j: Job)
    requires AllSound(E, root, s) && PartJob(root, s, v, j) && j.Check?
    ensures j.value < v && AllSound(E, root, j.schema) && Acyclic(root, j.schema)
  {
    SoundSteps(E, root, s, j.schema);
    LiveSelf(root, j.schema);
  }

  /** No limit lets the call return, wherever the value stands. */
  ghost predicate Never(E: Engine, root: Json, s: Json, v: Json)
  {
    forall path :: !Returns(E, root, s, v, path)
  }

  lemma NeverAnswers(E: Engine, root: Json, s: Json, v: Json, n: nat, path: string)
    requires Never(E, root, s, v)
    ensures n > 0 ==> !Do(Calls(E, root, n - 1), Check(v, s, path)).Ok?
  {
    assert !Returns(E, root, s, v, path);
  }

  lemma BlockedInPlace(E: Engine, root: Json, s: Json, v: Json, n: nat, path: string, j: Job)
    requires s.Obj? && j in InPlaceJobs(root, s.fields, v, path) && (n > 0 ==> !Do(Calls(E, root, n - 1), j).Ok?)
    ensures !Validate(E, root, n, v, s, path).Ok?
  {
    if n > 0 && Run(Calls(E, root, n - 1), InPlaceJobs(root, s.fields, v, path)).Ok? {
      JobReturned(Calls(E, root, n - 1), InPlaceJobs(root, s.fields, v, path), j);
    }
  }

  lemma BlockedLocally(E: Engine, root: Json, s: Json, v: Json, n: nat, path: string, j: Job)
    requires s.Obj? && !TypeMismatch(s.fields, v)
    requires j in LocalJobs(E, s.fields, v, path) && (n > 0 ==> !Do(Calls(E, root, n - 1), j).Ok?)
    ensures !Validate(E, root, n, v, s, path).Ok?
  {
    if n > 0 && Run(Calls(E, root, n - 1), LocalJobs(E, s.fields, v, path)).Ok? {
      JobReturned(Calls(E, root, n - 1), LocalJobs(E, s.fields, v, path), j);
    }
  }

  lemma SingleKey(k: string, v: Json)
    ensures SortedList(map[k := v].Keys) == [k]
  {
    var m := map[k := v];
    assert SortedListOf([k], m.Keys);
    SortedListUnique(SortedList(m.Keys), [k], m.Keys);
  }

  lemma KeyJob(f: map<string, Json>, k: string, v: Json, path: string)
    ensures PropertyJobs(f, map[k := v], SortedList(map[k := v].Keys), path) ==
            PropertyJob(f, map[k := v], k, path)
  {
    SingleKey(k, v);
    var m := map[k := v];
    assert [k][..0] == [];
    assert PropertyJobs(f, m, [k], path) == PropertyJobs(f, m, [], path) + PropertyJob(f, m, k, path);
  }

  /** An unsound node has a value that makes it raise or recurse forever. */
  lemma UnsoundNever(E: Engine, root: Json, t: Json) returns (v: Json)
    requires !Sound(E, root, t)
    ensures Never(E, root, t, v)
  {
    v := Obj(map["x" := Null]);
    forall path, n ensures !Validate(E, root, n, v, t, path).Ok? {
      if Validate(E, root, n, v, t, path).Ok? {
        ReturnedIsBounded(E, root, n, v, t, path);
        UnsoundRaises(E, root, t, n, path);
      }
    }
  }

  lemma UnsoundRaises(E: Engine, root: Json, t: Json, n: nat, path: string)
    requires Supported(E, t)
    requires (Get(t.fields, "$ref").Str? && Pointer(root, t.fields["$ref"].s).None?) || Tripwire(t)
    ensures !Validate(E, root, n, Obj(map["x" := Null]), t, path).Ok?
  {
    var f, v := t.fields, Obj(map["x" := Null]);
    var a, b := RefJobs(root, f, v, path), AllOfJobs(f, v, path);
    assert forall j :: j in a || j in b ==> j in a + b;
    assert Fail in [Fail];
    if Fail in a || Fail in b {
      BlockedInPlace(E, root, t, v, n, path, Fail);
    } else {
      FailsLocally(E, t, path);
      BlockedLocally(E, root, t, v, n, path, Fail);
    }
  }

  /** A null `required` or `properties` fails on every object. */
  lemma FailsLocally(E: Engine, t: Json, path: string)
    requires t.Obj? && Admits(t, "object")
    requires ("required" in t.fields && !t.fields["required"].Arr?) || ("properties" in t.fields && !t.fields["properties"].Obj?)
    ensures Fail in LocalJobs(E, t.fields, Obj(map["x" := Null]), path)
  {
    var f, m := t.fields, map["x" := Null];
    KeyJob(f, "x", Null, path);
    var c, d := RequiredJobs(f, m, path), PropertyJobs(f, m, SortedList(m.Keys), path);
    assert Fail in [Fail];
    assert Fail in c || Fail in d;
    assert Fail in c + d;
  }

  lemma NeverBeforeKey(E: Engine, root: Json, s: Json, k: string, v: Json)
    requires Admits(s, "object") && k in Properties(s.fields) && Never(E, root, Properties(s.fields)[k], v)
    ensures Never(E, root, s, Obj(map[k := v]))
  {
    var u, w := Properties(s.fields)[k], Obj(map[k := v]);
    forall path, n ensures !Validate(E, root, n, w, s, path).Ok? {
      KeyJob(s.fields, k, v, path);
      var j := Check(v, u, path + "." + k);
      assert PropertyJob(s.fields, w.fields, k, path) == [j];
      assert j in LocalJobs(E, s.fields, w, path);
      NeverAnswers(E, root, u, v, n, j.path);
      BlockedLocally(E, root, s, w, n, path, j);
    }
  }

  lemma NeverBeforeItem(E: Engine, root: Json, s: Json, u: Json, i: nat, v: Json)
    requires Admits(s, "array") && Never(E, root, u, v)
    requires (Get(s.fields, "items").Obj? && Get(s.fields, "items") == u && i == 0) ||
             (Get(s.fields, "items").Arr? && i < |s.fields["items"].items| && s.fields["items"].items[i] == u)
    ensures Never(E, root, s, Arr(seq(i + 1, _ => v)))
  {
    var w := Arr(seq(i + 1, _ => v));
    forall path, n ensures !Validate(E, root, n, w, s, path).Ok? {
      var j := Check(v, u, At(path, i));
      ItemJob(s.fields, w.items, i, path);
      assert ItemJobs(s.fields, w.items, path)[i] == j;
      assert j in ItemJobs(s.fields, w.items, path);
      assert j in LocalJobs(E, s.fields, w, path);
      NeverAnswers(E, root, u, v, n, j.path);
      BlockedLocally(E, root, s, w, n, path, j);
    }
  }

  lemma ItemJob(f: map<string, Json>, xs: seq<Json>, i: nat, path: string)
    requires i < ItemCount(f, xs)
    ensures i < |ItemJobs(f, xs, path)|
    ensures ItemJobs(f, xs, path)[i] ==
            Check(xs[i], if Get(f, "items").Obj? then Get(f, "items") else Get(f, "items").items[i], At(path, i))
  {
  }

  /** A value that blocks a node lifts to one that blocks the node before it. */
  lemma NeverBefore(E: Engine, root: Json, s: Json, u: Json, v: Json) returns (w: Json)
    requires LiveStep(root, s, u) && Never(E, root, u, v)
    ensures Never(E, root, s, w)
  {
    if InPlaceStep(root, s, u) {
      w := v;
      forall path, n ensures !Validate(E, root, n, w, s, path).Ok? {
        InPlaceJobOf(root, s, u, v, path);
        NeverAnswers(E, root, u, v, n, path);
        BlockedInPlace(E, root, s, w, n, path, Check(v, u, path));
      }
    } else if k :| Admits(s, "object") && k in Properties(s.fields) && Properties(s.fields)[k] == u {
      w := Obj(map[k := v]);
      NeverBeforeKey(E, root, s, k, v);
    } else {
      var i := ItemIndex(s, u);
      w := Arr(seq(i + 1, _ => v));
      NeverBeforeItem(E, root, s, u, i, v);
    }
  }

  lemma ItemIndex(s: Json, u: Json) returns (i: nat)
    requires s.Obj? && u.Obj?
    requires Get(s.fields, "items") == u || (Get(s.fields, "items").Arr? && u in Get(s.fields, "items").items)
    ensures Get(s.fields, "items") == u ==> i == 0
    ensures Get(s.fields, "items").Arr? ==>
              i < |Get(s.fields, "items").items| && Get(s.fields, "items").items[i] == u
  {
    i := 0;
    if Get(s.fields, "items").Arr? {
      i :| 0 <= i < |Get(s.fields, "items").items| && Get(s.fields, "items").items[i] == u;
    }
  }

  lemma {:induction false} LiveNever(E: Engine, root: Json, p: seq<Json>, s: Json, t: Json) returns (v: Json)
    requires Route(LiveSteps(root), p, s, t) && !Sound(E, root, t)
    ensures Never(E, root, s, v)
    decreases |p|
  {
    if |p| == 1 {
      v := UnsoundNever(E, root, t);
    } else {
      RouteTail(LiveSteps(root), p, s, t);
      var w := LiveNever(E, root, p[1..], p[1], t);
      v := NeverBefore(E, root, s, p[1], w);
    }
  }

  /** `validate_instance` returns for every instance exactly if every node an instance can lead
      it to is supported, resolves its `$ref`, starts no in-place cycle and holds no null where
      the code iterates. */
  lemma ReturnsForAll(E: Engine, root: Json, s: Json)
    ensures (forall v, path :: Returns(E, root, s, v, path)) <==> AllSound(E, root, s)
  {
    if AllSound(E, root, s) {
      LiveSelf(root, s);
      var h :| Bounded(root, s, h);
      forall v, path ensures Returns(E, root, s, v, path) {
        SoundReturns(E, root, s, v, path, h);
      }
    } else {
      var t :| Live(root, s, t) && !Sound(E, root, t);
      var p :| Route(LiveSteps(root), p, s, t);
      var v := LiveNever(E, root, p, s, t);
      assert !Returns(E, root, s, v, "$");
    }
  }

  // ---------------------------------------------------------------- accepted schemas

  /** t is a schema position directly inside s. */
  ghost predicate Inside(s: Json, t: Json)
  {
    && s.Obj?
    && (|| (exists k :: k in Properties(s.fields) && Properties(s.fields)[k] == t)
        || (Get(s.fields, "definitions").Obj? &&
            exists k :: k in s.fields["definitions"].fields && s.fields["definitions"].fields[k] == t)
        || (Get(s.fields, "items").Obj? && s.fields["items"] == t)
        || (Get(s.fields, "items").Arr? && t in s.fields["items"].items)
        || (Get(s.fields, "allOf").Arr? && t in s.fields["allOf"].items))
  }

  ghost predicate Position(root: Json, t: Json)
  {
    Reach(Inside, root, t)
  }

  /** Every reference in the schema points at a schema position. */
  ghost predicate RefsResolve(root: Json)
  {
    forall s :: Position(root, s) && s.Obj? && Get(s.fields, "$ref").Str? ==>
      && Pointer(root, s.fields["$ref"].s).Some?
      && Position(root, Pointer(root, s.fields["$ref"].s).value)
  }

  lemma InsideSupported(E: Engine, s: Json, t: Json)
    requires Supported(E, s) && Inside(s, t)
    ensures Supported(E, t)
  {
  }

  lemma LiveIsPosition(root: Json, s: Json, t: Json)
    requires Position(root, s) && RefsResolve(root) && LiveStep(root, s, t)
    ensures Position(root, t)
  {
    if !(s.Obj? && Get(s.fields, "$ref").Str? && Pointer(root, s.fields["$ref"].s) == Some(t)) {
      assert Inside(s, t);
      ReachOne(Inside, s, t);
      ReachJoin(Inside, root, s, t);
    }
  }

  /** For an accepted schema whose references resolve to schema positions and form no in-place
      cycle, the validator returns for every instance exactly if no live node is a tripwire. */
  lemma AcceptedReturns(E: Engine, root: Json)
    requires Supported(E, root) && RefsResolve(root)
    requires forall s :: Position(root, s) ==> Acyclic(root, s)
    ensures (forall v, path :: Returns(E, root, root, v, path)) <==>
            forall t :: Live(root, root, t) ==> !Tripwire(t)
  {
    ReturnsForAll(E, root, root);
    forall t | Live(root, root, t) ensures Sound(E, root, t) <==> !Tripwire(t) {
      ReachSelf(Inside, root);
      forall x, y | Position(root, x) && LiveStep(root, x, y) ensures Position(root, y) {
        LiveIsPosition(root, x, y);
      }
      ReachKeeps(LiveSteps(root), x => Position(root, x), root, t);
      forall x, y | Supported(E, x) && Inside(x, y) ensures Supported(E, y) {
        InsideSupported(E, x, y);
      }
      ReachKeeps(Inside, x => Supported(E, x), root, t);
    }
  }

  /** Acceptance alone is not enough: these keywords pass the schema check as an explicit null. */
  lemma NullKeywordIsAccepted(E: Engine, k: string)
    requires k == "allOf" || k == "required" || k == "properties"
    ensures Supported(E, Obj(map[k := Null]))
  {
    var f := map[k := Null];
    assert f.Keys == {k};
    assert SupportedNode(E, f);
  }

  /** No validation against a schema with a null `allOf` returns; without a reference that is tried
      first it raises. */
  lemma NullAllOfRaises(E: Engine, root: Json, s: Json, v: Json, path: string, n: nat)
    requires s.Obj? && "allOf" in s.fields && s.fields["allOf"].Null?
    ensures !Validate(E, root, n, v, s, path).Ok?
    ensures n > 0 && "$ref" !in s.fields ==> Validate(E, root, n, v, s, path) == Raised
  {
    var refs := RefJobs(root, s.fields, v, path);
    assert AllOfJobs(s.fields, v, path) == [Fail] && Fail in [Fail];
    assert Fail in refs + [Fail];
    BlockedInPlace(E, root, s, v, n, path, Fail);
    if n > 0 && "$ref" !in s.fields {
      assert [] + [Fail] == [Fail];
      assert InPlaceJobs(root, s.fields, v, path) == [Fail];
      RunFail(Calls(E, root, n - 1));
    }
  }

  /** No validation of an object against a schema with a null `required` returns, unless the type
      rules the object out first. */
  lemma NullRequiredRaises(E: Engine, root: Json, s: Json, m: map<string, Json>, path: string, n: nat)
    requires s.Obj? && "required" in s.fields && s.fields["required"].Null? && !TypeMismatch(s.fields, Obj(m))
    ensures !Validate(E, root, n, Obj(m), s, path).Ok?
  {
    var c, d := RequiredJobs(s.fields, m, path), PropertyJobs(s.fields, m, SortedList(m.Keys), path);
    assert c == [Fail] && Fail in [Fail];
    assert Fail in c + d;
    BlockedLocally(E, root, s, Obj(m), n, path, Fail);
  }

  /** And the same for a null `properties`, once the object has a member to look up. */
  lemma NullPropertiesRaises(E: Engine, root: Json, s: Json, m: map<string, Json>, path: string, n: nat)
    requires s.Obj? && "properties" in s.fields && s.fields["properties"].Null? && !TypeMismatch(s.fields, Obj(m))
    requires m != map[]
    ensures !Validate(E, root, n, Obj(m), s, path).Ok?
  {
    var keys := SortedList(m.Keys);
    NotEmpty(m);
    var a, b := PropertyJobs(s.fields, m, keys[..|keys| - 1], path), PropertyJob(s.fields, m, keys[|keys| - 1], path);
    assert b == [Fail] && Fail in [Fail];
    assert Fail in a + b;
    var c, d := RequiredJobs(s.fields, m, path), PropertyJobs(s.fields, m, keys, path);
    assert Fail in c + d;
    BlockedLocally(E, root, s, Obj(m), n, path, Fail);
  }

  lemma NotEmpty(m: map<string, Json>)
    requires m != map[]
    ensures |SortedList(m.Keys)| > 0
  {
    assert m.Keys != {};
    var k :| k in m.Keys;
    assert k in SortedList(m.Keys);
  }

  lemma RunFail(N: Nested)
    ensures Run(N, [Fail]) == Raised
  {
    assert [Fail][..0] == [];
    assert Run(N, [Fail]) == Then(Run(N, []), Do(N, Fail));
  }

  lemma WithinGrows(v: Json, d: nat, d': nat)
    requires Within(v, d) && d <= d'
    ensures Within(v, d')
  {
  }

  /** Every value has a depth d, so some number of nested calls is enough for it: h + H * d. */
  lemma NestingSuffices(E: Engine, root: Json, s: Json, v: Json, path: string, h: nat, H: nat) returns (d: nat)
    requires AllSound(E, root, s) && AllBounded(root, s, H) && Bounded(root, s, h) && h <= H
    ensures Within(v, d) && forall n: nat :: n >= h + H * d ==> Validate(E, root, n, v, s, path).Ok?
  {
    d := WithinExists(v);
    forall n: nat | n >= h + H * d ensures Validate(E, root, n, v, s, path).Ok? {
      DepthSuffices(E, root, s, v, path, h, H, d, n);
    }
  }

  /** Every value has a depth. */
  lemma {:induction false} WithinExists(v: Json) returns (d: nat)
    ensures Within(v, d)
    decreases v, 1, 0
  {
    match v
    case Obj(m) => d := MembersWithin(v, m.Keys); d := d + 1;
    case Arr(xs) => d := ItemsWithin(v, |xs|); d := d + 1;
    case _ => d := 0;
  }

  lemma {:induction false} MembersWithin(v: Json, keys: set<string>) returns (d: nat)
    requires v.Obj? && keys <= v.fields.Keys
    ensures forall k :: k in keys ==> Within(v.fields[k], d)
    decreases v, 0, |keys|
  {
    d := 0;
    if keys != {} {
      var k :| k in keys;
      var a := MembersWithin(v, keys - {k});
      var b := WithinExists(v.fields[k]);
      d := if a < b then b else a;
      forall j | j in keys ensures Within(v.fields[j], d) {
        WithinGrows(v.fields[j], if j == k then b else a, d);
      }
    }
  }

  lemma {:induction false} ItemsWithin(v: Json, n: nat) returns (d: nat)
    requires v.Arr? && n <= |v.items|
    ensures forall i :: 0 <= i < n ==> Within(v.items[i], d)
    decreases v, 0, n
  {
    d := 0;
    if n > 0 {
      var a := ItemsWithin(v, n - 1);
      var b := WithinExists(v.items[n - 1]);
      d := if a < b then b else a;
      forall i | 0 <= i < n ensures Within(v.items[i], d) {
        WithinGrows(v.items[i], if i == n - 1 then b else a, d);
      }
    }
  }
}
