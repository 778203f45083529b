/** `validate_instance`: what it returns, as a function of the schema, the instance and the
    number of nested calls the interpreter allows. */
module Validation {
  import opened Options
  import opened Ordering
  import opened Text
  import opened JsonSchema

  /** One `{"path": ..., "message": ...}` violation. */
  datatype Finding = Finding(path: string, message: string)

  /** How a call ends: with its findings, with UnsupportedSchemaError or TypeError, or because
      the nesting limit of the interpreter is reached. */
  datatype Outcome = Ok(findings: seq<Finding>) | Raised | TooDeep

  /** What a node asks for, in evaluation order: validate a value against a schema, report a
      finding, or raise. */
  datatype Job = Check(value: Json, schema: Json, path: string) | Report(finding: Finding) | Fail

  // ---------------------------------------------------------------- values

  /** Booleans compare as 0 and 1, ints and floats by numeric value. */
  predicate IsNumeric(v: Json)
  {
    v.Bool? || v.Int? || v.Float?
  }

  function Numeric(v: Json): real
    requires IsNumeric(v)
  {
    match v
    case Bool(b) => if b then 1.0 else 0.0
    case Int(n) => n as real
    case Float(r) => r
  }

  /** Python `==` between two parsed JSON values. */
  predicate PyEq(a: Json, b: Json)
  {
    if IsNumeric(a) && IsNumeric(b) then Numeric(a) == Numeric(b)
    else match a
      case Null => b.Null?
      case Str(s) => b == Str(s)
      case Arr(xs) => b.Arr? && |xs| == |b.items| && forall i :: 0 <= i < |xs| ==> PyEq(xs[i], b.items[i])
      case Obj(m) => b.Obj? && m.Keys == b.fields.Keys && forall k :: k in m ==> PyEq(m[k], b.fields[k])
      case _ => false
  }

  /** `instance in enum` */
  predicate InEnum(v: Json, options: seq<Json>)
  {
    exists i :: 0 <= i < |options| && PyEq(v, options[i])
  }

  predicate TypeMatches(v: Json, t: string)
  {
    match t
    case "object" => v.Obj?
    case "array" => v.Arr?
    case "string" => v.Str?
    case "boolean" => v.Bool?
    case _ => v.Null?
  }

  // ---------------------------------------------------------------- what one node asks for

  function InPlaceJobs(root: Json, f: map<string, Json>, v: Json, path: string): seq<Job>
  {
    RefJobs(root, f, v, path) + AllOfJobs(f, v, path)
  }

  function RefJobs(root: Json, f: map<string, Json>, v: Json, path: string): seq<Job>
  {
    if !Get(f, "$ref").Str? then []
    else match Pointer(root, Get(f, "$ref").s)
      case None => [Fail]
      case Some(target) => [Check(v, target, path)]
  }

  /** `schema.get("allOf", [])`: an explicit null cannot be iterated. */
  function AllOfJobs(f: map<string, Json>, v: Json, path: string): seq<Job>
  {
    if "allOf" !in f then []
    else if !f["allOf"].Arr? then [Fail]
    else seq(|f["allOf"].items|, i requires 0 <= i < |f["allOf"].items| => Check(v, f["allOf"].items[i], path))
  }

  predicate TypeMismatch(f: map<string, Json>, v: Json)
  {
    Get(f, "type").Str? && !TypeMatches(v, Get(f, "type").s)
  }

  function TypeFinding(f: map<string, Json>, path: string): Finding
  {
    Finding(path, "expected " + if Get(f, "type").Str? then Get(f, "type").s else "")
  }

  ghost function LocalJobs(E: Engine, f: map<string, Json>, v: Json, path: string): seq<Job>
  {
    EnumJobs(E, f, v, path) + KindJobs(E, f, v, path)
  }

  /** The keywords for the kind of the instance. */
  ghost function KindJobs(E: Engine, f: map<string, Json>, v: Json, path: string): seq<Job>
  {
    match v
    case Obj(m) => RequiredJobs(f, m, path) + PropertyJobs(f, m, SortedList(m.Keys), path)
    case Arr(xs) => SizeJobs(f, xs, path) + UniqueJobs(E, f, xs, |xs|, path) + ItemJobs(f, xs, path)
    case Str(t) => StringJobs(E, f, t, path)
    case _ => []
  }

  function EnumJobs(E: Engine, f: map<string, Json>, v: Json, path: string): seq<Job>
  {
    if Get(f, "enum").Arr? && !InEnum(v, Get(f, "enum").items)
    then [Report(Finding(path, "value must be one of " + E.repr(Get(f, "enum"))))] else []
  }

  /** The names in `required`. */
  function RequiredNames(f: map<string, Json>): seq<string>
  {
    if Get(f, "required").Arr?
    then seq(|Get(f, "required").items|, i requires 0 <= i < |Get(f, "required").items| =>
               if Get(f, "required").items[i].Str? then Get(f, "required").items[i].s else "")
    else []
  }

  function MissingJobs(names: seq<string>, m: map<string, Json>, path: string): seq<Job>
  {
    if |names| == 0 then []
    else
      var last := names[|names| - 1];
      MissingJobs(names[..|names| - 1], m, path) +
      if last !in m then [Report(Finding(path + "." + last, "required field is missing"))] else []
  }

  /** `sorted(schema.get("required", []))`: an explicit null cannot be sorted. */
  function RequiredJobs(f: map<string, Json>, m: map<string, Json>, path: string): seq<Job>
  {
    if "required" in f && !f["required"].Arr? then [Fail]
    else MissingJobs(StableSort(LexLe, RequiredNames(f)), m, path)
  }

  /** `not schema.get("additionalProperties", True)`: an explicit null forbids as well. */
  predicate ForbidsAdditional(f: map<string, Json>)
  {
    "additionalProperties" in f && f["additionalProperties"] != Bool(true)
  }

  function PropertyJob(f: map<string, Json>, m: map<string, Json>, key: string, path: string): seq<Job>
    requires key in m
  {
    if "properties" in f && !f["properties"].Obj? then [Fail]
    else if "properties" in f && key in f["properties"].fields then
      [Check(m[key], f["properties"].fields[key], path + "." + key)]
    else if ForbidsAdditional(f) then [Report(Finding(path + "." + key, "unexpected field"))]
    else []
  }

  function PropertyJobs(f: map<string, Json>, m: map<string, Json>, keys: seq<string>, path: string): seq<Job>
    requires forall k :: k in keys ==> k in m
  {
    if |keys| == 0 then []
    else PropertyJobs(f, m, keys[..|keys| - 1], path) + PropertyJob(f, m, keys[|keys| - 1], path)
  }

  /** The limit named by the keyword is not reached. */
  predicate Below(f: map<string, Json>, keyword: string, n: nat)
  {
    Get(f, keyword).Int? && n < Get(f, keyword).n
  }

  predicate Above(f: map<string, Json>, keyword: string, n: nat)
  {
    Get(f, keyword).Int? && n > Get(f, keyword).n
  }

  function LimitText(f: map<string, Json>, keyword: string): string
  {
    if Get(f, keyword).Int? && Get(f, keyword).n >= 0 then Decimal(Get(f, keyword).n) else ""
  }

  function ReportIf(condition: bool, finding: Finding): seq<Job>
  {
    if condition then [Report(finding)] else []
  }

  function SizeJobs(f: map<string, Json>, xs: seq<Json>, path: string): seq<Job>
  {
    ReportIf(Below(f, "minItems", |xs|), Finding(path, "must contain at least " + LimitText(f, "minItems") + " item(s)")) +
    ReportIf(Above(f, "maxItems", |xs|), Finding(path, "must contain at most " + LimitText(f, "maxItems") + " item(s)"))
  }

  function At(path: string, i: nat): string
  {
    path + "[" + Decimal(i) + "]"
  }

  /** An earlier item has the same canonical form. */
  predicate SeenBefore(E: Engine, xs: seq<Json>, i: nat)
    requires i < |xs|
  {
    exists j :: 0 <= j < i && E.canonical(xs[j]) == E.canonical(xs[i])
  }

  function UniqueJobs(E: Engine, f: map<string, Json>, xs: seq<Json>, n: nat, path: string): seq<Job>
    requires n <= |xs|
  {
    if n == 0 || Get(f, "uniqueItems") != Bool(true) then []
    else
      UniqueJobs(E, f, xs, n - 1, path) +
      if SeenBefore(E, xs, n - 1) then [Report(Finding(At(path, n - 1), "duplicate array item"))] else []
  }

  /** How many items are validated: all for one schema, as many as there are schemas for a list. */
  function ItemCount(f: map<string, Json>, xs: seq<Json>): (n: nat)
    ensures n <= |xs| && (Get(f, "items").Arr? ==> n <= |Get(f, "items").items|)
    ensures n > 0 ==> Get(f, "items").Obj? || Get(f, "items").Arr?
  {
    var items := Get(f, "items");
    if items.Obj? then |xs|
    else if !items.Arr? then 0
    else if |xs| < |items.items| then |xs| else |items.items|
  }

  function ItemJobs(f: map<string, Json>, xs: seq<Json>, path: string): seq<Job>
  {
    var items := Get(f, "items");
    seq(ItemCount(f, xs), i requires 0 <= i < ItemCount(f, xs) =>
          Check(xs[i], if items.Obj? then items else items.items[i], At(path, i))) +
    if items.Arr? && |xs| > |items.items| && Get(f, "additionalItems") == Bool(false)
    then [Report(Finding(At(path, |items.items|), "additional array item is not allowed"))] else []
  }

  predicate PatternFails(E: Engine, f: map<string, Json>, t: string)
  {
    Get(f, "pattern").Str? && !E.search(Get(f, "pattern").s, t)
  }

  function PatternText(f: map<string, Json>): string
  {
    if Get(f, "pattern").Str? then Get(f, "pattern").s else ""
  }

  function StringJobs(E: Engine, f: map<string, Json>, t: string, path: string): seq<Job>
  {
    ReportIf(Below(f, "minLength", |t|), Finding(path, "length must be at least " + LimitText(f, "minLength"))) +
    ReportIf(Above(f, "maxLength", |t|), Finding(path, "length must be at most " + LimitText(f, "maxLength"))) +
    ReportIf(PatternFails(E, f, t), Finding(path, "value does not match pattern " + PatternText(f)))
  }

  // ---------------------------------------------------------------- the result

  function Then(a: Outcome, b: Outcome): Outcome
  {
    if !a.Ok? then a else if !b.Ok? then b else Ok(a.findings + b.findings)
  }

  /** The order of the returned list: by path, then by message. */
  predicate FindingLe(a: Finding, b: Finding)
  {
    if a.path != b.path then LexLe(a.path, b.path) else LexLe(a.message, b.message)
  }

  predicate FindingLt(a: Finding, b: Finding)
  {
    FindingLe(a, b) && a != b
  }

  /** The values of the dictionary keyed by (path, message). */
  function Deduplicate(fs: seq<Finding>): seq<Finding>
  {
    if |fs| == 0 then []
    else
      var rest := Deduplicate(fs[..|fs| - 1]);
      if fs[|fs| - 1] in rest then rest else rest + [fs[|fs| - 1]]
  }

  /** `[unique[key] for key in sorted(unique)]` */
  function Normalize(fs: seq<Finding>): seq<Finding>
  {
    StableSort(FindingLe, Deduplicate(fs))
  }

  /** What the nested calls return: validating a value against a schema at a path. */
  type Nested = (Json, Json, string) -> Outcome

  /** Evaluate jobs from left to right; the first exception ends the evaluation. */
  ghost function Run(N: Nested, jobs: seq<Job>): Outcome
  {
    if |jobs| == 0 then Ok([])
    else Then(Run(N, jobs[..|jobs| - 1]), Do(N, jobs[|jobs| - 1]))
  }

  ghost function Do(N: Nested, job: Job): Outcome
  {
    match job
    case Fail => Raised
    case Report(f) => Ok([f])
    case Check(v, s, path) => N(v, s, path)
  }

  /** What a node returns, given the outcomes of its in-place and its local jobs: a type
      mismatch replaces all findings, and the local jobs are then not evaluated. */
  function Assemble(f: map<string, Json>, v: Json, path: string, inPlace: Outcome, local: Outcome): Outcome
  {
    if !inPlace.Ok? then inPlace
    else if TypeMismatch(f, v) then Ok([TypeFinding(f, path)])
    else if !local.Ok? then local
    else Ok(Normalize(inPlace.findings + local.findings))
  }

  /** The body of `validate_instance` over its nested calls. */
  ghost function Node(E: Engine, root: Json, N: Nested, v: Json, s: Json, path: string): Outcome
  {
    if !Supported(E, s) then Raised
    else Assemble(s.fields, v, path,
                  Run(N, InPlaceJobs(root, s.fields, v, path)),
                  Run(N, LocalJobs(E, s.fields, v, path)))
  }

  /** One call of `validate_instance` below the root, with `fuel` nested calls allowed. */
  ghost function Validate(E: Engine, root: Json, fuel: nat, v: Json, s: Json, path: string): Outcome
  {
    if fuel == 0 then TooDeep else Node(E, root, Calls(E, root, fuel - 1), v, s, path)
  }

  ghost function Calls(E: Engine, root: Json, fuel: nat): Nested
  {
    (v, s, path) => Validate(E, root, fuel, v, s, path)
  }

  /** `root_schema or schema`: an absent or empty root falls back to the schema. */
  function EffectiveRoot(rootSchema: Option<Json>, schema: Json): Json
  {
    if rootSchema.None? || rootSchema.value == Obj(map[]) then schema else rootSchema.value
  }
}
