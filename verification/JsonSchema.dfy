/** JSON values and the closed schema subset of the agent contracts: `ensure_supported_schema`
    and the local pointers behind `$ref`. */
module JsonSchema {
  import opened Options
  import opened Text

  /** A parsed JSON document, as `json.loads` returns it. Numbers keep Python's int and float. */
  datatype Json =
    | Null
    | Bool(b: bool)
    | Int(n: int)
    | Float(r: real)
    | Str(s: string)
    | Arr(items: seq<Json>)
    | Obj(fields: map<string, Json>)

  /** The parts that stay uninterpreted: regular expressions, `json.dumps` and `repr`. */
  datatype Engine = Engine(
    compiles: string -> bool,
    search: (string, string) -> bool,
    canonical: Json -> string,
    repr: Json -> string)

  const SUPPORTED_KEYS: set<string> := {
    "$schema", "$id", "title", "description", "default", "examples",
    "$ref", "allOf", "type", "required", "additionalProperties", "properties", "definitions", "enum",
    "minLength", "maxLength", "pattern", "minItems", "maxItems", "uniqueItems", "items", "additionalItems"}

  const SUPPORTED_TYPES: set<string> := {"object", "array", "string", "boolean", "null"}

  /** `mapping.get(key)`: an absent key reads as None. */
  function Get(m: map<string, Json>, key: string): Json
  {
    if key in m then m[key] else Null
  }

  predicate IsCount(v: Json)
  {
    v.Null? || (v.Int? && v.n >= 0)
  }

  /** The keyword checks of one schema node, without its children. */
  predicate SupportedNode(E: Engine, f: map<string, Json>)
  {
    && f.Keys <= SUPPORTED_KEYS
    && (Get(f, "$ref").Null? || Get(f, "$ref").Str?)
    && (Get(f, "type").Null? || (Get(f, "type").Str? && Get(f, "type").s in SUPPORTED_TYPES))
    && (Get(f, "required").Null? ||
        (Get(f, "required").Arr? && forall x :: x in Get(f, "required").items ==> x.Str?))
    && (Get(f, "additionalProperties").Null? || Get(f, "additionalProperties").Bool?)
    && (Get(f, "enum").Null? || Get(f, "enum").Arr?)
    && IsCount(Get(f, "minLength")) && IsCount(Get(f, "maxLength"))
    && IsCount(Get(f, "minItems")) && IsCount(Get(f, "maxItems"))
    && (Get(f, "pattern").Null? || (Get(f, "pattern").Str? && E.compiles(Get(f, "pattern").s)))
    && (Get(f, "uniqueItems").Null? || Get(f, "uniqueItems").Bool?)
    && (Get(f, "properties").Null? || Get(f, "properties").Obj?)
    && (Get(f, "definitions").Null? || Get(f, "definitions").Obj?)
    && (Get(f, "items").Null? || Get(f, "items").Obj? || Get(f, "items").Arr?)
    && (Get(f, "additionalItems").Null? || Get(f, "additionalItems").Bool?)
    && (Get(f, "allOf").Null? || Get(f, "allOf").Arr?)
  }

  /** `ensure_supported_schema` returns without raising. */
  predicate Supported(E: Engine, s: Json)
  {
    && s.Obj?
    && SupportedNode(E, s.fields)
    && (("properties" in s.fields && s.fields["properties"].Obj?) ==>
          var p := s.fields["properties"]; forall k :: k in p.fields ==> Supported(E, p.fields[k]))
    && (("definitions" in s.fields && s.fields["definitions"].Obj?) ==>
          var p := s.fields["definitions"]; forall k :: k in p.fields ==> Supported(E, p.fields[k]))
    && (("items" in s.fields && s.fields["items"].Obj?) ==> Supported(E, s.fields["items"]))
    && (("items" in s.fields && s.fields["items"].Arr?) ==>
          var p := s.fields["items"]; forall x :: x in p.items ==> Supported(E, x))
    && (("allOf" in s.fields && s.fields["allOf"].Arr?) ==>
          var p := s.fields["allOf"]; forall x :: x in p.items ==> Supported(E, x))
  }

  // ---------------------------------------------------------------- pointers

  /** The token decoding of `_pointer`: `~1` first, then `~0`. */
  function Unescape(token: string): string
  {
    ReplacePair(ReplacePair(token, '~', '1', '/'), '~', '0', '~')
  }

  /** RFC 6901 section 3: `~` is written `~0` and `/` is written `~1`. */
  function Escape(token: string): string
  {
    if token == "" then ""
    else (if token[0] == '~' then "~0" else if token[0] == '/' then "~1" else [token[0]]) + Escape(token[1..])
  }

  /** Follow object members. */
  function Walk(v: Json, tokens: seq<string>): Option<Json>
  {
    if |tokens| == 0 then Some(v)
    else if v.Obj? && tokens[0] in v.fields then Walk(v.fields[tokens[0]], tokens[1..])
    else None
  }

  function UnescapeAll(tokens: seq<string>): seq<string>
  {
    if |tokens| == 0 then [] else [Unescape(tokens[0])] + UnescapeAll(tokens[1..])
  }

  /** `_pointer`: None stands for UnsupportedSchemaError. */
  function Pointer(root: Json, ref: string): Option<Json>
  {
    if !("#/" <= ref) then None
    else
      match Walk(root, UnescapeAll(Split(ref[2..], '/')))
      case None => None
      case Some(v) => if v.Obj? then Some(v) else None
  }

  function EscapeAll(tokens: seq<string>): (r: seq<string>)
    ensures |r| == |tokens|
  {
    if |tokens| == 0 then [] else [Escape(tokens[0])] + EscapeAll(tokens[1..])
  }

  /** Only the `/` of a token is still decoded after the first replacement. */
  function HalfEscape(token: string): string
  {
    if token == "" then ""
    else (if token[0] == '~' then "~0" else [token[0]]) + HalfEscape(token[1..])
  }

  lemma {:induction false} FirstReplacement(t: string)
    ensures ReplacePair(Escape(t), '~', '1', '/') == HalfEscape(t)
  {
    if t != "" {
      FirstReplacement(t[1..]);
      var rest := Escape(t[1..]);
      if t[0] == '~' {
        assert ("~0" + rest)[1..] == "0" + rest;
        assert ("0" + rest)[1..] == rest;
        PlainStep("0"[0], rest, '~', '1', '/');
      } else if t[0] == '/' {
        assert ("~1" + rest)[2..] == rest;
      } else {
        PlainStep(t[0], rest, '~', '1', '/');
      }
    }
  }

  lemma PlainStep(x: char, rest: string, a: char, b: char, r: char)
    requires x != a
    ensures ReplacePair([x] + rest, a, b, r) == [x] + ReplacePair(rest, a, b, r)
  {
    assert ([x] + rest)[1..] == rest;
  }

  lemma {:induction false} SecondReplacement(t: string)
    ensures ReplacePair(HalfEscape(t), '~', '0', '~') == t
  {
    if t != "" {
      SecondReplacement(t[1..]);
      var rest := HalfEscape(t[1..]);
      if t[0] == '~' {
        assert ("~0" + rest)[2..] == rest;
      } else {
        PlainStep(t[0], rest, '~', '0', '~');
      }
      assert t == [t[0]] + t[1..];
    }
  }

  /** Decoding inverts the RFC 6901 escaping of every token. */
  lemma UnescapeInvertsEscape(t: string)
    ensures Unescape(Escape(t)) == t
  {
    FirstReplacement(t);
    SecondReplacement(t);
  }

  lemma {:induction false} EscapeHasNoSlash(t: string)
    ensures '/' !in Escape(t)
  {
    if t != "" {
      EscapeHasNoSlash(t[1..]);
    }
  }

  lemma {:induction false} EscapeAllInverse(tokens: seq<string>)
    ensures UnescapeAll(EscapeAll(tokens)) == tokens
    ensures forall p :: p in EscapeAll(tokens) ==> '/' !in p
  {
    if |tokens| > 0 {
      EscapeAllInverse(tokens[1..]);
      UnescapeInvertsEscape(tokens[0]);
      EscapeHasNoSlash(tokens[0]);
      assert EscapeAll(tokens)[1..] == EscapeAll(tokens[1..]);
    }
  }

  /** A reference that spells a member path the RFC 6901 way resolves to exactly that member. */
  lemma PointerFollowsTokens(root: Json, tokens: seq<string>)
    requires |tokens| > 0
    ensures Pointer(root, "#/" + Join(EscapeAll(tokens), "/")) ==
            match Walk(root, tokens)
            case Some(v) => if v.Obj? then Some(v) else None
            case None => None
  {
    var parts := EscapeAll(tokens);
    EscapeAllInverse(tokens);
    SplitJoin(parts, '/');
    assert ("#/" + Join(parts, "/"))[2..] == Join(parts, "/");
  }
}
