/** `generate_audit_gaps.py`: collecting `audit_gaps` by document id, where the last processed file
    of an id replaces what earlier ones said. */
module AuditGaps {
  import opened Options
  import opened Ordering
  import opened Text
  import opened FrontmatterText
  import Docmeta

  datatype Zone = Zone(path: string, docs: seq<string>)

  /** What one document contributes. */
  datatype Visit = Visit(id: string, file: string, gaps: seq<Item>)

  datatype Entry = Entry(file: string, gaps: seq<Item>)

  datatype Note = Overwriting | RecordingLater | Clearing | Repeated

  datatype Warning = Warning(id: string, previous: string, file: string, note: Note)

  /** `audit_gaps`, `total_gaps`, `seen_ids` and the warnings printed so far. */
  datatype State = State(gaps: map<string, Entry>, total: int, seen: map<string, string>, warnings: seq<Warning>)

  const START := State(map[], 0, map[], [])

  // ---------------------------------------------------------------- one document

  function NonEmptyParts(parts: seq<string>): seq<Item>
  {
    if |parts| == 0 then []
    else (if Strip(parts[0]) == "" then [] else [Bare(Strip(parts[0]))]) + NonEmptyParts(parts[1..])
  }

  /** `normalize_list_field` */
  function NormalizeListField(v: Docmeta.Value): seq<Item>
  {
    match v
    case Items(items) => items
    case Scalar(t) =>
      if Docmeta.InlineList(t) then NonEmptyParts(Split(t[1..|t| - 1], ','))
      else if Strip(t) == "" then [] else [Bare(Strip(t))]
  }

  /** How reading a document ends: it is skipped, it is visited, or its id is a list, which cannot
      be looked up and ends the run with a TypeError. */
  datatype Reading = Skipped | Visited(visit: Visit) | Raises

  function Read(file: string, frontmatter: Option<Docmeta.Data>): Reading
  {
    if frontmatter.None? || frontmatter.value == map[] then Skipped
    else
      var fm := frontmatter.value;
      var gaps := if "audit_gaps" in fm then NormalizeListField(fm["audit_gaps"]) else [];
      if "id" !in fm then Visited(Visit(file, file, gaps))
      else
        match fm["id"]
        case Scalar(id) => Visited(Visit(id, file, gaps))
        case Items(_) => Raises
  }

  /** The documents that are visited, in order, unless one raises. */
  function Visits(paths: seq<string>, load: string -> Option<Docmeta.Data>): Option<seq<Visit>>
  {
    if |paths| == 0 then Some([])
    else
      var before := Visits(paths[..|paths| - 1], load);
      if before.None? then None
      else
        match Read(paths[|paths| - 1], load(paths[|paths| - 1]))
        case Skipped => before
        case Visited(v) => Some(before.value + [v])
        case Raises => None
  }

  /** Zones in the order of their names, documents of a zone in order. */
  function PathsOf(names: seq<string>, zones: map<string, Zone>, rel: (string, string) -> string): seq<string>
    requires forall n :: n in names ==> n in zones
  {
    if |names| == 0 then []
    else PathsOf(names[..|names| - 1], zones, rel) + ZonePaths(zones[names[|names| - 1]], rel)
  }

  function ZonePaths(z: Zone, rel: (string, string) -> string): (r: seq<string>)
    ensures |r| == |StableSort(LexLe, z.docs)|
  {
    var docs := StableSort(LexLe, z.docs);
    seq(|docs|, i requires 0 <= i < |docs| => rel(z.path, docs[i]))
  }

  // ---------------------------------------------------------------- the loop body

  function NoteFor(st: State, v: Visit): Note
  {
    if v.gaps != [] then (if v.id in st.gaps then Overwriting else RecordingLater)
    else if v.id in st.gaps then Clearing else Repeated
  }

  method Take(st: State, v: Visit) returns (st': State)
    ensures Taken(st, v, st')
  {
    var gaps, total, seen, warnings := st.gaps, st.total, st.seen, st.warnings;
    if v.id in seen {
      warnings := warnings + [Warning(v.id, seen[v.id], v.file, NoteFor(st, v))];
    }
    seen := seen[v.id := v.file];
    if v.gaps == [] {
      if v.id in gaps {
        SumRemove(gaps, v.id);
        total := total - |gaps[v.id].gaps|;
        gaps := gaps - {v.id};
      }
      assert gaps == st.gaps - {v.id};
      return State(gaps, total, seen, warnings);
    }
    if v.id in gaps {
      SumRemove(gaps, v.id);
      total := total - |gaps[v.id].gaps|;
    }
    SumAdd(gaps - {v.id}, v.id, Entry(v.file, v.gaps));
    assert v.id !in gaps ==> gaps - {v.id} == gaps;
    assert (gaps - {v.id})[v.id := Entry(v.file, v.gaps)] == gaps[v.id := Entry(v.file, v.gaps)];
    gaps := gaps[v.id := Entry(v.file, v.gaps)];
    total := total + |v.gaps|;
    st' := State(gaps, total, seen, warnings);
  }

  // ---------------------------------------------------------------- the sum over a map

  /** The number of gaps over all documents of the map. */
  ghost function Sum(m: map<string, Entry>): nat
    decreases |m|
  {
    if m == map[] then 0
    else
      var k :| k in m;
      |m[k].gaps| + Sum(m - {k})
  }

  /** The sum does not depend on the order in which the documents are taken. */
  lemma {:induction false} SumRemove(m: map<string, Entry>, k: string)
    requires k in m
    ensures Sum(m) == |m[k].gaps| + Sum(m - {k})
    decreases |m|
  {
    var c :| c in m && Sum(m) == |m[c].gaps| + Sum(m - {c});
    if c != k {
      SumRemove(m - {c}, k);
      SumRemove(m - {k}, c);
      assert (m - {c}) - {k} == (m - {k}) - {c};
    }
  }

  lemma SumAdd(m: map<string, Entry>, k: string, e: Entry)
    requires k !in m
    ensures Sum(m[k := e]) == Sum(m) + |e.gaps|
  {
    SumRemove(m[k := e], k);
    assert m[k := e] - {k} == m;
  }

  // ---------------------------------------------------------------- the last file of an id

  /** The last visit of an id. */
  function Last(vs: seq<Visit>, id: string): Option<Visit>
  {
    if |vs| == 0 then None
    else if vs[|vs| - 1].id == id then Some(vs[|vs| - 1])
    else Last(vs[..|vs| - 1], id)
  }

  /** It is a visit of that id, and no later one is; without one, no visit has the id. */
  lemma {:induction false} LastIsLast(vs: seq<Visit>, id: string) returns (k: nat)
    ensures Last(vs, id).Some? ==>
              k < |vs| && vs[k] == Last(vs, id).value && vs[k].id == id && forall j :: k < j < |vs| ==> vs[j].id != id
    ensures Last(vs, id).None? ==> forall j :: 0 <= j < |vs| ==> vs[j].id != id
  {
    k := 0;
    if |vs| > 0 {
      k := |vs| - 1;
      if vs[k].id != id {
        k := LastIsLast(vs[..k], id);
      }
    }
  }

  /** What the map should say about an id. */
  function Due(vs: seq<Visit>, id: string): Option<Entry>
  {
    var v := Last(vs, id);
    if v.None? || v.value.gaps == [] then None else Some(Entry(v.value.file, v.value.gaps))
  }

  /** The map records exactly the ids whose last file has gaps, with that file and its gaps. */
  ghost predicate LastFileWins(vs: seq<Visit>, gaps: map<string, Entry>)
  {
    forall id :: (id in gaps <==> Due(vs, id).Some?) && (id in gaps ==> gaps[id] == Due(vs, id).value)
  }

  ghost predicate SeenLast(vs: seq<Visit>, seen: map<string, string>)
  {
    forall id :: (id in seen <==> Last(vs, id).Some?) && (id in seen ==> seen[id] == Last(vs, id).value.file)
  }

  /** What holds after every document. */
  ghost predicate Aggregated(vs: seq<Visit>, st: State)
  {
    && LastFileWins(vs, st.gaps) && SeenLast(vs, st.seen)
    && st.total == Sum(st.gaps)
    && |st.warnings| + |st.seen| == |vs|
  }

  lemma LastSnoc(vs: seq<Visit>, v: Visit, id: string)
    ensures Last(vs + [v], id) == if id == v.id then Some(v) else Last(vs, id)
  {
    assert (vs + [v])[..|vs|] == vs;
  }

  lemma GapsStep(vs: seq<Visit>, v: Visit, gaps: map<string, Entry>, gaps': map<string, Entry>)
    requires LastFileWins(vs, gaps)
    requires gaps' == if v.gaps == [] then gaps - {v.id} else gaps[v.id := Entry(v.file, v.gaps)]
    ensures LastFileWins(vs + [v], gaps')
  {
    forall id
      ensures id in gaps' <==> Due(vs + [v], id).Some?
      ensures id in gaps' ==> gaps'[id] == Due(vs + [v], id).value
    {
      LastSnoc(vs, v, id);
    }
  }

  lemma SeenStep(vs: seq<Visit>, v: Visit, seen: map<string, string>)
    requires SeenLast(vs, seen)
    ensures SeenLast(vs + [v], seen[v.id := v.file])
    ensures |seen[v.id := v.file]| == |seen| + (if v.id in seen then 0 else 1)
  {
    var seen' := seen[v.id := v.file];
    forall id
      ensures id in seen' <==> Last(vs + [v], id).Some?
      ensures id in seen' ==> seen'[id] == Last(vs + [v], id).value.file
    {
      LastSnoc(vs, v, id);
    }
    assert seen'.Keys == seen.Keys + {v.id};
    assert |seen'| == |seen'.Keys| && |seen| == |seen.Keys|;
  }

  /** The new state after a visit. */
  ghost predicate Taken(st: State, v: Visit, st': State)
  {
    && st'.gaps == (if v.gaps == [] then st.gaps - {v.id} else st.gaps[v.id := Entry(v.file, v.gaps)])
    && st'.seen == st.seen[v.id := v.file]
    && st'.warnings == st.warnings +
         (if v.id in st.seen then [Warning(v.id, st.seen[v.id], v.file, NoteFor(st, v))] else [])
    && (st.total == Sum(st.gaps) ==> st'.total == Sum(st'.gaps))
  }

  lemma TakeKeepsAggregate(vs: seq<Visit>, st: State, v: Visit, st': State)
    requires Aggregated(vs, st) && Taken(st, v, st')
    ensures Aggregated(vs + [v], st')
  {
    GapsStep(vs, v, st.gaps, st'.gaps);
    SeenStep(vs, v, st.seen);
  }

  // ---------------------------------------------------------------- the loops

  method ProcessDocument(
      st: State, ghost vs: seq<Visit>, ghost done: seq<string>, file: string, load: string -> Option<Docmeta.Data>)
    returns (st': Option<State>, ghost vs': seq<Visit>)
    requires Visits(done, load) == Some(vs) && Aggregated(vs, st)
    ensures st'.None? <==> Visits(done + [file], load).None?
    ensures st'.Some? ==> Visits(done + [file], load) == Some(vs') && Aggregated(vs', st'.value)
  {
    VisitsSnoc(done, file, load);
    match Read(file, load(file)) {
      case Skipped =>
        st', vs' := Some(st), vs;
      case Raises =>
        st', vs' := None, vs;
      case Visited(v) =>
        var next := Take(st, v);
        TakeKeepsAggregate(vs, st, v, next);
        st', vs' := Some(next), vs + [v];
    }
  }

  /** The inner loop over the documents of a zone. */
  method ProcessZone(
      st: State, ghost vs: seq<Visit>, ghost done: seq<string>, z: Zone,
      rel: (string, string) -> string, load: string -> Option<Docmeta.Data>)
    returns (st': Option<State>, ghost vs': seq<Visit>)
    requires Visits(done, load) == Some(vs) && Aggregated(vs, st)
    ensures st'.None? <==> Visits(done + ZonePaths(z, rel), load).None?
    ensures st'.Some? ==> Visits(done + ZonePaths(z, rel), load) == Some(vs') && Aggregated(vs', st'.value)
  {
    var docs := StableSort(LexLe, z.docs);
    var state := st;
    vs' := vs;
    ghost var paths, upTo := ZonePaths(z, rel), done;
    for n := 0 to |docs|
      invariant upTo == done + paths[..n]
      invariant Visits(upTo, load) == Some(vs') && Aggregated(vs', state)
    {
      var file := rel(z.path, docs[n]);
      var next;
      next, vs' := ProcessDocument(state, vs', upTo, file, load);
      Extend(done, paths, n);
      upTo := upTo + [file];
      if next.None? {
        VisitsNone(upTo, paths[n + 1..], load);
        return None, vs';
      }
      state := next.value;
    }
    assert upTo == done + paths by {
      assert paths[..|docs|] == paths;
    }
    st' := Some(state);
  }

  lemma Extend(done: seq<string>, paths: seq<string>, n: nat)
    requires n < |paths|
    ensures done + paths[..n] + [paths[n]] == done + paths[..n + 1]
    ensures done + paths[..n + 1] + paths[n + 1..] == done + paths
  {
  }

  lemma VisitsSnoc(paths: seq<string>, p: string, load: string -> Option<Docmeta.Data>)
    ensures Visits(paths + [p], load) ==
            if Visits(paths, load).None? then None
            else match Read(p, load(p))
              case Skipped => Visits(paths, load)
              case Visited(v) => Some(Visits(paths, load).value + [v])
              case Raises => None
  {
    assert (paths + [p])[..|paths|] == paths;
  }

  lemma {:induction false} VisitsNone(paths: seq<string>, more: seq<string>, load: string -> Option<Docmeta.Data>)
    requires Visits(paths, load).None?
    ensures Visits(paths + more, load).None?
  {
    if |more| == 0 {
      assert paths + more == paths;
    } else {
      VisitsNone(paths, more[..|more| - 1], load);
      VisitsSnoc(paths + more[..|more| - 1], more[|more| - 1], load);
      assert paths + more == paths + more[..|more| - 1] + [more[|more| - 1]];
    }
  }

  /** The whole aggregation: nothing if a document has a list for its id, otherwise the map of the
      last file of each id, with the total of its gaps. */
  method Aggregate(zones: map<string, Zone>, rel: (string, string) -> string, load: string -> Option<Docmeta.Data>)
    returns (st: Option<State>)
    ensures var visits := Visits(PathsOf(SortedList(zones.Keys), zones, rel), load);
            && (st.None? <==> visits.None?)
            && (st.Some? ==> Aggregated(visits.value, st.value))
  {
    var names := SortSet(zones.Keys);
    var state := START;
    ghost var vs: seq<Visit> := [];
    StartAggregated();
    for n := 0 to |names|
      invariant Visits(PathsOf(names[..n], zones, rel), load) == Some(vs) && Aggregated(vs, state)
    {
      assert names[..n + 1][..n] == names[..n];
      ghost var done := PathsOf(names[..n], zones, rel);
      assert PathsOf(names[..n + 1], zones, rel) == done + ZonePaths(zones[names[n]], rel);
      var next;
      next, vs := ProcessZone(state, vs, done, zones[names[n]], rel, load);
      if next.None? {
        StopsEarly(names, n + 1, zones, rel, load);
        return None;
      }
      state := next.value;
    }
    assert names[..|names|] == names;
    st := Some(state);
  }

  lemma StartAggregated()
    ensures Aggregated([], START)
  {
  }

  lemma {:induction false} StopsEarly(
      names: seq<string>, n: nat, zones: map<string, Zone>, rel: (string, string) -> string,
      load: string -> Option<Docmeta.Data>)
    requires n <= |names| && forall x :: x in names ==> x in zones
    requires Visits(PathsOf(names[..n], zones, rel), load).None?
    ensures Visits(PathsOf(names, zones, rel), load).None?
    decreases |names| - n
  {
    if n == |names| {
      assert names[..n] == names;
    } else {
      var more := ZonePaths(zones[names[n]], rel);
      assert names[..n + 1][..n] == names[..n];
      VisitsNone(PathsOf(names[..n], zones, rel), more, load);
      StopsEarly(names, n + 1, zones, rel, load);
    }
  }

  /** The recorded map is determined by the visits: there is only one last-file-wins map. */
  lemma LastFileWinsIsUnique(vs: seq<Visit>, a: map<string, Entry>, b: map<string, Entry>)
    requires LastFileWins(vs, a) && LastFileWins(vs, b)
    ensures a == b
  {
    forall id ensures id in a <==> id in b ensures id in a ==> a[id] == b[id] {
      assert id in a <==> Due(vs, id).Some?;
      assert id in b <==> Due(vs, id).Some?;
    }
    assert a.Keys == b.Keys;
  }
}
