/** Repository-relative paths: `_normalize_repo_path` and `_path_matches_scope`, and what scope
    matching means segment by segment. */
module RepoPaths {
  import opened Options
  import opened Text

  /** `^[A-Za-z]:/` */
  predicate DriveLetter(s: string)
  {
    |s| >= 3 && ('A' <= s[0] <= 'Z' || 'a' <= s[0] <= 'z') && s[1] == ':' && s[2] == '/'
  }

  predicate EndsWithSlash(s: string)
  {
    s != "" && s[|s| - 1] == '/'
  }

  /** Backslashes become slashes, then surrounding whitespace goes. */
  function Raw(value: string): string
  {
    Strip(ReplaceChar(value, '\\', '/'))
  }

  function DropSlash(s: string): string
  {
    if EndsWithSlash(s) then s[..|s| - 1] else s
  }

  /** Path segments that may not occur. */
  predicate BadSegment(part: string)
  {
    part == "" || part == "." || part == ".."
  }

  /** `_normalize_repo_path` */
  function Normalize(value: string, allowDirectory: bool): Option<string>
  {
    var raw := Raw(value);
    if raw == "" || raw[0] == '/' || DriveLetter(raw) then None
    else
      var isDirectory := EndsWithSlash(raw);
      var parts := Split(DropSlash(raw), '/');
      if exists p :: p in parts && BadSegment(p) then None
      else if isDirectory && !allowDirectory then None
      else
        var normalized := Join(parts, "/");
        Some(if isDirectory then normalized + "/" else normalized)
  }

  /** `_path_matches_scope` */
  predicate MatchesScope(path: string, scope: string)
  {
    var p, s := Normalize(path, false), Normalize(scope, true);
    && p.Some? && s.Some?
    && if EndsWithSlash(s.value) then s.value <= p.value else p.value == s.value
  }

  function Segments(path: string): seq<string>
  {
    Split(path, '/')
  }

  /** What normalisation accepts it returns stripped, with forward slashes, and made of ordinary
      segments only. */
  lemma NormalizedIsRaw(value: string, allowDirectory: bool)
    requires Normalize(value, allowDirectory).Some?
    ensures Normalize(value, allowDirectory).value == Raw(value)
    ensures Trimmed(Raw(value)) && '\\' !in Raw(value)
    ensures forall p :: p in Segments(DropSlash(Raw(value))) ==> !BadSegment(p)
  {
    var raw := Raw(value);
    JoinSplit(DropSlash(raw), '/');
    StripIsTrimmed(ReplaceChar(value, '\\', '/'));
    if '\\' in raw {
      StripKeeps(ReplaceChar(value, '\\', '/'), '\\');
    }
  }

  lemma RawOfRaw(value: string)
    requires Trimmed(value) && '\\' !in value
    ensures Raw(value) == value
  {
    assert ReplaceChar(value, '\\', '/') == value;
    StripOfTrimmed(value);
  }

  /** Normalising twice is normalising once. */
  lemma NormalizeIsIdempotent(value: string, allowDirectory: bool)
    requires Normalize(value, allowDirectory).Some?
    ensures Normalize(Normalize(value, allowDirectory).value, allowDirectory) == Normalize(value, allowDirectory)
  {
    NormalizedIsRaw(value, allowDirectory);
    RawOfRaw(Raw(value));
  }

  /** A directory scope contains exactly the files whose segments extend its segments. */
  lemma DirectoryScopeIsSegmentPrefix(path: string, scope: string)
    requires Normalize(path, false).Some? && Normalize(scope, true).Some? && EndsWithSlash(Normalize(scope, true).value)
    ensures MatchesScope(path, scope) <==>
            Segments(DropSlash(Normalize(scope, true).value)) < Segments(Normalize(path, false).value)
  {
    var p, s := Normalize(path, false).value, Normalize(scope, true).value;
    var d := DropSlash(s);
    assert s == d + "/";
    if s <= p {
      var rest := p[|s|..];
      assert p == d + "/" + rest;
      SplitConcat(d, rest, '/');
    }
    if Segments(d) < Segments(p) {
      var a, b := Segments(d), Segments(p)[|Segments(d)|..];
      assert Segments(p) == a + b;
      JoinConcat(a, b, "/");
      JoinSplit(p, '/');
      JoinSplit(d, '/');
      assert p == d + "/" + Join(b, "/");
    }
  }

  /** A file scope contains exactly the file it names. */
  lemma FileScopeIsEquality(path: string, scope: string)
    requires Normalize(path, false).Some? && Normalize(scope, true).Some? && !EndsWithSlash(Normalize(scope, true).value)
    ensures MatchesScope(path, scope) <==> Segments(Normalize(path, false).value) == Segments(Normalize(scope, true).value)
  {
    JoinSplit(Normalize(path, false).value, '/');
    JoinSplit(Normalize(scope, true).value, '/');
  }
}
