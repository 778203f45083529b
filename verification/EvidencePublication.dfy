/** `publish_evidence_bundle` and `_cleanup_staging`: stage, verify, guard, rename without
    replacing, verify again, clean up; any call may fail and other processes may interfere. */
module EvidencePublication {
  import opened Options
  import opened EvidenceFs
  import Repo = RepositoryGuard

  const EVIDENCE_FILES: seq<string> := ["task.yml", "handoff.json", "validation.json", "run-result.json"]

  datatype Code =
    | OutputDirExists | OutputWriteFailed | AtomicPublishUnavailable
    | EvidenceIncomplete | WriteMismatch | LocationChanged
    | DurabilityUnconfirmed | FinalizationUnconfirmed | CleanupFailed
    | GuardCode(code: Repo.Code)

  /** A RunnerError with its published location, if any, and the length of its `cleanup_errors`. */
  datatype RunnerError = RunnerError(code: Code, evidencePath: Option<string>, cleanupErrors: nat)

  /** How the body of the try statement ends: normally, with a RunnerError or with an OSError. */
  datatype Exc = NoExc | Runner(error: RunnerError) | Os

  datatype PublishResult = Published(path: string) | Raised(error: RunnerError)

  ghost function NamesOf(names: seq<string>): set<string>
  {
    set n | n in names
  }

  ghost predicate WellNamed(names: seq<string>, payloads: map<string, Bytes>)
  {
    && payloads.Keys == NamesOf(names)
    && forall i, j :: 0 <= i < j < |names| ==> names[i] != names[j]
  }

  // ---------------------------------------------------------------- what the log shows

  /** Every payload was read back unchanged from directory d. */
  ghost predicate ReadBack(log: seq<Event>, d: nat, payloads: map<string, Bytes>)
  {
    forall n :: n in payloads ==> ReadFile(d, n, payloads[n]) in log
  }

  /** Before the rename: exactly the evidence files were listed, each was read back, and the guard
      passed as the very last thing. */
  ghost predicate VerifiedBefore(log: seq<Event>, d: nat, payloads: map<string, Bytes>)
  {
    && ReadBack(log, d, payloads)
    && (exists d' :: Listed(d', payloads.Keys) in log && d' == d)
    && |log| > 0 && log[|log| - 1] == GuardPassed
  }

  /** After the rename: the target name was dirFd and found to be directory d, and each file was
      read back through d. */
  ghost predicate VerifiedAfter(log: seq<Event>, parent: nat, target: string, d: nat, payloads: map<string, Bytes>)
  {
    OpenedDir(parent, target, d) in log && ReadBack(log, d, payloads)
  }

  /** The steps that change the file system stay within the staging directory, except for making,
      renaming and removing the staging name in the parent. */
  predicate Confined(e: Event, parent: nat, staging: string, target: string, d: Option<nat>)
  {
    match e
    case MadeDir(p, n, _) => p == parent && n == staging
    case Wrote(dir, _) => d == Some(dir)
    case Unlinked(dir, _) => d == Some(dir)
    case RenamedDir(p, s, t, replaced) => p == parent && s == staging && t == target && replaced == None
    case RemovedDir(p, n) => p == parent && n == staging
    case _ => true
  }

  ghost predicate AllConfined(log: seq<Event>, parent: nat, staging: string, target: string, d: Option<nat>)
  {
    forall e :: e in log ==> Confined(e, parent, staging, target, d)
  }

  // ---------------------------------------------------------------- an undisturbed file system

  /** Compared with s, the only difference visible by name is directory d under a name that was
      free in the parent; d holds only files. */
  ghost predicate Extra(s: Fs, t: Fs, parent: nat, name: string, d: nat)
  {
    && parent in s.dirs && name !in s.dirs[parent] && Fresh(s, d)
    && t.dirs.Keys == s.dirs.Keys + {d}
    && t.dirs[parent] == s.dirs[parent][name := d]
    && (forall x :: x in s.dirs && x != parent ==> t.dirs[x] == s.dirs[x])
    && (forall x :: x in s.files ==> x in t.files && t.files[x] == s.files[x])
    && (forall n :: n in t.dirs[d] ==> t.dirs[d][n] in t.files && t.dirs[d][n] !in t.dirs && t.dirs[d][n] !in s.files)
    && (forall x :: x in t.dirs ==> x !in t.files || x in s.files)
  }

  /** Every name means what it meant in s. */
  ghost predicate Restored(s: Fs, t: Fs)
  {
    t.dirs == s.dirs && forall x :: x in s.files ==> x in t.files && t.files[x] == s.files[x]
  }

  /** The directory holds exactly the payloads. */
  ghost predicate Holds(t: Fs, d: nat, payloads: map<string, Bytes>)
  {
    Entries(t, d).Keys == payloads.Keys && forall n :: n in payloads ==> FileAt(t, d, n) == Some(payloads[n])
  }

  lemma MkdirExtra(s: Fs, parent: nat, name: string, d: nat)
    requires parent in s.dirs && name !in Entries(s, parent) && Fresh(s, d)
    ensures Extra(s, AfterMkdir(s, parent, name, d), parent, name, d)
  {
  }

  lemma WriteExtra(s: Fs, t: Fs, t': Fs, parent: nat, name: string, d: nat, file: string, data: Option<Bytes>)
    requires Extra(s, t, parent, name, d) && Created(t, t', d, file, data)
    ensures Extra(s, t', parent, name, d)
    ensures Entries(t', d).Keys == Entries(t, d).Keys + {file}
    ensures data.Some? ==> FileAt(t', d, file) == data
    ensures forall n :: n in Entries(t, d) ==> FileAt(t', d, n) == FileAt(t, d, n)
  {
    var i, bytes :| CreatedAs(t, t', d, file, i, bytes) && (data == None || data == Some(bytes));
    forall n | n in t.dirs[d] ensures t.dirs[d][n] != i {
      assert t.dirs[d][n] in t.dirs[d].Values;
    }
  }

  lemma UnlinkExtra(s: Fs, t: Fs, parent: nat, name: string, d: nat, file: string)
    requires Extra(s, t, parent, name, d)
    ensures Extra(s, WithoutEntry(t, d, file), parent, name, d)
  {
  }

  lemma RmdirRestores(s: Fs, t: Fs, parent: nat, name: string, d: nat)
    requires Extra(s, t, parent, name, d)
    ensures name in Entries(t, parent) && Entries(t, parent)[name] == d
    ensures Restored(s, AfterRmdir(t, parent, name))
  {
    var t' := AfterRmdir(t, parent, name);
    assert t'.dirs[parent] == s.dirs[parent];
    assert t'.dirs == s.dirs;
  }

  lemma RenameMoves(s: Fs, t: Fs, parent: nat, staging: string, target: string, d: nat)
    requires Extra(s, t, parent, staging, d) && target !in Entries(t, parent)
    ensures Extra(s, AfterRename(t, parent, staging, target), parent, target, d)
    ensures forall n :: FileAt(AfterRename(t, parent, staging, target), d, n) == FileAt(t, d, n)
    ensures Entries(AfterRename(t, parent, staging, target), d) == Entries(t, d)
  {
    var t' := AfterRename(t, parent, staging, target);
    assert t'.dirs[parent] == s.dirs[parent][target := d];
  }

  /** The name denotes directory d, which is not its parent. */
  ghost predicate Denotes(t: Fs, parent: nat, name: string, d: nat)
  {
    name in Entries(t, parent) && Entries(t, parent)[name] == d && d in t.dirs && d != parent
  }

  /** The guard has something to object to: a read raised, or a reading differs from the pins. */
  ghost predicate Stopped(log: seq<Repo.Event>, raised: bool, guard: Option<Repo.Pins>)
  {
    guard.Some? && (raised || Repo.Differs(log, guard.value.first, guard.value.revision))
  }

  lemma ExtraDenotes(s: Fs, t: Fs, parent: nat, name: string, d: nat)
    requires Extra(s, t, parent, name, d)
    ensures Denotes(t, parent, name, d)
  {
  }

  // ---------------------------------------------------------------- staging

  /** The first n files are in place. */
  ghost predicate HoldsFirst(t: Fs, d: nat, names: seq<string>, n: nat, payloads: map<string, Bytes>)
    requires n <= |names| && WellNamed(names, payloads)
  {
    && Entries(t, d).Keys == NamesOf(names[..n])
    && forall k :: 0 <= k < n ==> FileAt(t, d, names[k]) == Some(payloads[names[k]])
  }

  lemma WriteAdvances(s: Fs, t: Fs, t': Fs, parent: nat, staging: string, d: nat,
                      names: seq<string>, n: nat, payloads: map<string, Bytes>)
    requires n < |names| && WellNamed(names, payloads)
    requires Extra(s, t, parent, staging, d) && HoldsFirst(t, d, names, n, payloads)
    requires Created(t, t', d, names[n], Some(payloads[names[n]]))
    ensures Extra(s, t', parent, staging, d) && HoldsFirst(t', d, names, n + 1, payloads)
  {
    WriteExtra(s, t, t', parent, staging, d, names[n], Some(payloads[names[n]]));
    assert NamesOf(names[..n + 1]) == NamesOf(names[..n]) + {names[n]};
    forall k | 0 <= k < n ensures FileAt(t', d, names[k]) == Some(payloads[names[k]]) {
      assert names[k] in NamesOf(names[..n]);
    }
  }

  lemma HoldsAll(t: Fs, d: nat, names: seq<string>, payloads: map<string, Bytes>)
    requires WellNamed(names, payloads) && HoldsFirst(t, d, names, |names|, payloads)
    ensures Holds(t, d, payloads)
  {
    assert names[..|names|] == names;
  }

  /** `for name, payload in staged_payloads.items(): _write_file_sync_at(...)` */
  method WriteAll(fs: FileSystem, ghost s: Fs, ghost parent: nat, ghost staging: string, d: nat,
                  names: seq<string>, payloads: map<string, Bytes>)
    returns (ok: bool, ghost more: seq<Event>)
    requires fs.Valid() && d in fs.pinned && WellNamed(names, payloads)
    requires fs.quiet ==> Extra(s, fs.st, parent, staging, d) && Entries(fs.st, d) == map[]
    modifies fs`st, fs`log, fs`failed
    ensures fs.Valid() && fs.log == old(fs.log) + more
    ensures forall e :: e in more ==> e.Wrote? && e.dir == d
    ensures fs.quiet ==> Extra(s, fs.st, parent, staging, d)
    ensures fs.quiet && ok ==> Holds(fs.st, d, payloads)
    ensures old(fs.failed) ==> fs.failed
    ensures fs.quiet && !fs.failed ==> ok
  {
    more := [];
    for i := 0 to |names|
      invariant fs.Valid() && fs.log == old(fs.log) + more
      invariant forall e :: e in more ==> e.Wrote? && e.dir == d
      invariant old(fs.failed) ==> fs.failed
      invariant fs.quiet ==> Extra(s, fs.st, parent, staging, d) && HoldsFirst(fs.st, d, names, i, payloads)
    {
      ghost var before, log0 := fs.st, fs.log;
      ok := fs.WriteFile(d, names[i], payloads[names[i]]);
      more := more + if fs.log == log0 then [] else [Wrote(d, names[i])];
      if !ok {
        if fs.quiet && fs.st != before {
          WriteExtra(s, before, fs.st, parent, staging, d, names[i], None);
        }
        return;
      }
      if fs.quiet {
        WriteAdvances(s, before, fs.st, parent, staging, d, names, i, payloads);
      }
    }
    ok := true;
    if fs.quiet {
      HoldsAll(fs.st, d, names, payloads);
    }
  }

  datatype Reading = AllMatch | SomeMismatch | ReadError

  /** `for name, expected in staged_payloads.items(): _read_file_at(...) != expected` */
  method ReadAll(fs: FileSystem, d: nat, names: seq<string>, payloads: map<string, Bytes>)
    returns (r: Reading, ghost more: seq<Event>)
    requires fs.Valid() && d in fs.pinned && WellNamed(names, payloads)
    modifies fs`st, fs`log, fs`failed
    ensures fs.Valid() && fs.log == old(fs.log) + more
    ensures forall e :: e in more ==> e.ReadFile?
    ensures r.AllMatch? ==> ReadBack(more, d, payloads)
    ensures fs.quiet ==> fs.st == old(fs.st)
    ensures old(fs.failed) ==> fs.failed
    ensures fs.quiet && !fs.failed && Holds(fs.st, d, payloads) ==> r.AllMatch?
  {
    more := [];
    for i := 0 to |names|
      invariant fs.Valid() && fs.log == old(fs.log) + more
      invariant forall e :: e in more ==> e.ReadFile?
      invariant forall k :: 0 <= k < i ==> ReadFile(d, names[k], payloads[names[k]]) in more
      invariant old(fs.failed) ==> fs.failed
      invariant fs.quiet ==> fs.st == old(fs.st)
    {
      var data := fs.Read(d, names[i]);
      if data.OsError? {
        return ReadError, more;
      }
      more := more + [ReadFile(d, names[i], data.value)];
      if data.value != payloads[names[i]] {
        return SomeMismatch, more;
      }
    }
    return AllMatch, more;
  }

  /** A step that only looks. */
  predicate Looks(e: Event)
  {
    e.OpenedDir? || e.Listed? || e.ReadFile?
  }

  ghost predicate OnlyLooks(log: seq<Event>)
  {
    forall e :: e in log ==> Looks(e)
  }

  function Plain(code: Code): Exc
  {
    Runner(RunnerError(code, None, 0))
  }

  /** `_published_error`; a detail is its first cleanup entry. */
  function PublishedError(code: Code, path: string, detailed: bool): RunnerError
  {
    RunnerError(code, Some(path), if detailed then 1 else 0)
  }

  function AfterRenameError(code: Code, path: string, detailed: bool): Exc
  {
    Runner(PublishedError(code, path, detailed))
  }

  /** Inside the inner try: compare identities, then list. */
  method Inspect(fs: FileSystem, v: nat, d: nat) returns (e: Exc, listing: set<string>, ghost more: seq<Event>)
    requires fs.Valid() && v in fs.pinned
    modifies fs`st, fs`log, fs`failed
    ensures fs.Valid() && fs.log == old(fs.log) + more && OnlyLooks(more)
    ensures e.NoExc? ==> Listed(d, listing) in more
    ensures e.Runner? ==> e == Plain(LocationChanged)
    ensures fs.quiet ==> fs.st == old(fs.st)
    ensures old(fs.failed) ==> fs.failed
    ensures !fs.failed && v == d ==> e.NoExc?
    ensures fs.quiet && e.NoExc? ==> listing == Entries(fs.st, d).Keys
  {
    more, listing := [], {};
    var stat := fs.Sync();
    if !stat {
      return Os, listing, more;
    }
    if v != d {
      return Plain(LocationChanged), listing, more;
    }
    var names := fs.List(v);
    if names.OsError? {
      return Os, listing, more;
    }
    return NoExc, names.value, [Listed(d, names.value)];
  }

  /** The second, fresh look at the staging directory: same inode, its listing, then close. */
  method ListStaging(fs: FileSystem, parent: nat, staging: string, d: nat)
    returns (e: Exc, listing: set<string>, ghost more: seq<Event>)
    requires fs.Valid() && parent in fs.pinned && d in fs.pinned
    modifies fs`st, fs`log, fs`pinned, fs`failed
    ensures fs.Valid() && fs.pinned == old(fs.pinned) && fs.log == old(fs.log) + more && OnlyLooks(more)
    ensures e.NoExc? ==> Listed(d, listing) in more
    ensures e.Runner? ==> e == Plain(LocationChanged)
    ensures fs.quiet ==> fs.st == old(fs.st)
    ensures old(fs.failed) ==> fs.failed
    ensures fs.quiet && !fs.failed && Denotes(fs.st, parent, staging, d) ==> e.NoExc?
    ensures fs.quiet && e.NoExc? ==> listing == Entries(fs.st, d).Keys
  {
    var v := fs.OpenDir(parent, staging);
    if v.OsError? {
      return Os, {}, [];
    }
    ghost var seen;
    e, listing, seen := Inspect(fs, v.value, d);
    more := [OpenedDir(parent, staging, v.value)] + seen;
    var closed := fs.Close(v.value);
    if !closed {
      e := Os;
    }
  }

  /** Everything between the writes and the guard. */
  method VerifyStaged(fs: FileSystem, parent: nat, staging: string, d: nat, names: seq<string>, payloads: map<string, Bytes>)
    returns (e: Exc, ghost more: seq<Event>)
    requires fs.Valid() && parent in fs.pinned && d in fs.pinned && WellNamed(names, payloads)
    modifies fs`st, fs`log, fs`pinned, fs`failed
    ensures fs.Valid() && fs.pinned == old(fs.pinned) && fs.log == old(fs.log) + more && OnlyLooks(more)
    ensures e.NoExc? ==> Listed(d, payloads.Keys) in more && ReadBack(more, d, payloads)
    ensures e.Runner? ==> e.error.evidencePath == None && e.error.cleanupErrors == 0
    ensures fs.quiet ==> fs.st == old(fs.st)
    ensures old(fs.failed) ==> fs.failed
    ensures fs.quiet && !fs.failed && Denotes(fs.st, parent, staging, d) && Holds(fs.st, d, payloads) ==> e.NoExc?
  {
    var listing;
    e, listing, more := ListStaging(fs, parent, staging, d);
    if !e.NoExc? {
      return;
    }
    if listing != payloads.Keys {
      return Plain(EvidenceIncomplete), more;
    }
    var reading, seen := ReadAll(fs, d, names, payloads);
    ghost var all := more + seen;
    more := all;
    if reading.SomeMismatch? {
      return Plain(WriteMismatch), more;
    }
    if reading.ReadError? {
      return Os, more;
    }
    var synced := fs.Sync();
    return if synced then NoExc else Os, more;
  }

  /** `_assert_published_parent_identity` */
  method CheckParent(fs: FileSystem, parent: nat, path: string) returns (e: Exc)
    requires fs.Valid()
    modifies fs`st, fs`failed
    ensures fs.Valid() && (fs.quiet ==> fs.st == old(fs.st))
    ensures e.Runner? ==> e.error.evidencePath == Some(path)
    ensures old(fs.failed) ==> fs.failed
    ensures fs.quiet && !fs.failed ==> e.NoExc?
  {
    var stat := fs.Sync();
    if !stat {
      return Os;
    }
    var rootOpened := fs.Sync();
    if !rootOpened {
      return Os;
    }
    var found := fs.ResolveParent(parent);
    match found
    case PathError => return AfterRenameError(FinalizationUnconfirmed, path, true);
    case LocationLost => return AfterRenameError(LocationChanged, path, true);
    case Found(inode) =>
      var observed := fs.Sync();
      e := if !observed then Os else if inode != parent then AfterRenameError(LocationChanged, path, false) else NoExc;
      var closed := fs.Sync();
      if !closed {
        e := if e.Runner? then Runner(e.error.(cleanupErrors := 1)) else Os;
      }
  }

  /** `_assert_published_target_identity` */
  method CheckTarget(fs: FileSystem, parent: nat, target: string, d: nat, path: string)
    returns (e: Exc, ghost more: seq<Event>)
    requires fs.Valid() && parent in fs.pinned
    modifies fs`st, fs`log, fs`pinned, fs`failed
    ensures fs.Valid() && fs.pinned == old(fs.pinned) && fs.log == old(fs.log) + more && OnlyLooks(more)
    ensures e.NoExc? ==> OpenedDir(parent, target, d) in more
    ensures e.Runner? ==> e.error.evidencePath == Some(path)
    ensures fs.quiet ==> fs.st == old(fs.st)
    ensures old(fs.failed) ==> fs.failed
    ensures fs.quiet && !fs.failed && Denotes(fs.st, parent, target, d) ==> e.NoExc?
  {
    more := [];
    var stat := fs.Sync();
    if !stat {
      return Os, more;
    }
    var v := fs.OpenDir(parent, target);
    if v.OsError? {
      return AfterRenameError(LocationChanged, path, true), more;
    }
    more := [OpenedDir(parent, target, v.value)];
    HeldAndReleased(old(fs.pinned), v.value);
    e := Compare(fs, v.value, d, path);
  }

  lemma HeldAndReleased(pinned: multiset<nat>, d: nat)
    ensures pinned + multiset{d} - multiset{d} == pinned
  {
  }

  /** fstat the freshly opened target, compare, close. */
  method Compare(fs: FileSystem, v: nat, d: nat, path: string) returns (e: Exc)
    requires fs.Valid() && v in fs.pinned
    modifies fs`st, fs`pinned, fs`failed
    ensures fs.Valid() && fs.pinned == old(fs.pinned) - multiset{v}
    ensures e.NoExc? ==> v == d
    ensures e.Runner? ==> e.error.evidencePath == Some(path)
    ensures fs.quiet ==> fs.st == old(fs.st)
    ensures old(fs.failed) ==> fs.failed
    ensures !fs.failed && v == d ==> e.NoExc?
  {
    var observed := fs.Sync();
    e := if !observed then Os else if v != d then AfterRenameError(LocationChanged, path, false) else NoExc;
    var closed := fs.Close(v);
    if !closed {
      e := if e.Runner? then Runner(e.error.(cleanupErrors := 1)) else Os;
    }
  }

  /** Everything after the rename. */
  method VerifyPublished(fs: FileSystem, parent: nat, target: string, d: nat, names: seq<string>,
                         payloads: map<string, Bytes>, path: string)
    returns (e: Exc, ghost more: seq<Event>)
    requires fs.Valid() && parent in fs.pinned && d in fs.pinned && WellNamed(names, payloads)
    modifies fs`st, fs`log, fs`pinned, fs`failed
    ensures fs.Valid() && fs.pinned == old(fs.pinned) && fs.log == old(fs.log) + more && OnlyLooks(more)
    ensures e.NoExc? ==> VerifiedAfter(more, parent, target, d, payloads)
    ensures e.Runner? ==> e.error.evidencePath == Some(path)
    ensures fs.quiet ==> fs.st == old(fs.st)
    ensures old(fs.failed) ==> fs.failed
    ensures fs.quiet && !fs.failed && Denotes(fs.st, parent, target, d) && Holds(fs.st, d, payloads) ==> e.NoExc?
  {
    more := [];
    var durable := fs.Sync();
    if !durable {
      return AfterRenameError(DurabilityUnconfirmed, path, true), more;
    }
    e := CheckParent(fs, parent, path);
    if !e.NoExc? {
      return;
    }
    e, more := CheckTarget(fs, parent, target, d, path);
    if !e.NoExc? {
      return;
    }
    var reading, seen := ReadAll(fs, d, names, payloads);
    more := more + seen;
    match reading
    case AllMatch => e := NoExc;
    case SomeMismatch => e := AfterRenameError(WriteMismatch, path, false);
    case ReadError => e := Os;
  }

  // ---------------------------------------------------------------- the try block

  /** What the try block leaves behind. */
  datatype Attempted = Attempted(exc: Exc, stagingFd: Option<nat>, created: bool, published: bool)

  /** The log of the try block: what came before the rename, the rename if it happened, and what
      came after. `made` is the directory that mkdir created. */
  datatype Trace = Trace(before: seq<Event>, after: seq<Event>, made: nat)

  ghost function Logged(t: Trace, published: bool, parent: nat, staging: string, target: string): seq<Event>
  {
    t.before + (if published then [RenamedDir(parent, staging, target, None)] else []) + t.after
  }

  /** Neither renames nor removes anything. */
  ghost predicate Gentle(log: seq<Event>)
  {
    forall e :: e in log ==> !e.RenamedDir? && !e.RemovedDir? && !e.Unlinked?
  }

  /** What the log of the try block shows, whatever other processes did. */
  ghost predicate AttemptLog(a: Attempted, t: Trace, parent: nat, staging: string, target: string,
                             payloads: map<string, Bytes>)
  {
    && Gentle(t.before) && Gentle(t.after) && (!a.published ==> t.after == [])
    && AllConfined(t.before, parent, staging, target, a.stagingFd)
    && OnlyLooks(t.after)
    && (a.published ==> a.stagingFd.Some? && VerifiedBefore(t.before, a.stagingFd.value, payloads))
    && (a.exc.NoExc? ==> a.published && VerifiedAfter(t.after, parent, target, a.stagingFd.value, payloads))
    && (a.stagingFd.Some? ==> a.created)
  }

  /** What the try block leaves in a file system that nobody else touches. */
  ghost predicate AttemptState(s: Fs, st: Fs, a: Attempted, t: Trace, parent: nat, staging: string, target: string,
                               payloads: map<string, Bytes>)
  {
    && (!a.created ==> st == s)
    && (a.stagingFd.Some? ==> a.stagingFd.value == t.made)
    && (a.created && !a.published ==> Extra(s, st, parent, staging, t.made) &&
                                      (a.stagingFd.None? ==> Entries(st, t.made) == map[]))
    && (a.published ==> Extra(s, st, parent, target, t.made) && Holds(st, t.made, payloads))
  }

  /** From mkdir to the guard. */
  method Stage(fs: FileSystem, parent: nat, staging: string, target: string, names: seq<string>,
               payloads: map<string, Bytes>, w: Repo.World, guard: Option<Repo.Pins>)
    returns (e: Exc, fd: Option<nat>, created: bool, ghost before: seq<Event>, ghost d: nat)
    requires fs.Valid() && parent in fs.pinned && WellNamed(names, payloads) && staging != target
    modifies fs, w
    ensures Consulted(old(w.log), w.log, guard, e.NoExc?)
    ensures fs.Valid() && fs.log == old(fs.log) + before
    ensures fs.pinned == old(fs.pinned) + if fd.Some? then multiset{fd.value} else multiset{}
    ensures fd.Some? ==> fd.value != parent
    ensures Gentle(before) && AllConfined(before, parent, staging, target, fd)
    ensures e.NoExc? ==> fd.Some? && VerifiedBefore(before, fd.value, payloads)
    ensures e.Runner? ==> e.error.evidencePath == None && e.error.cleanupErrors == 0
    ensures fd.Some? ==> created
    ensures fs.quiet ==> StagedState(old(fs.st), fs.st, e, fd, created, d, parent, staging, payloads)
    ensures old(fs.failed) ==> fs.failed
    ensures fs.quiet && !fs.failed && staging !in Entries(old(fs.st), parent) ==> e.NoExc? || Stopped(w.log, w.raised, guard)
    ensures e.NoExc? ==> w.raised == old(w.raised)
  {
    ghost var s := fs.st;
    fd, created, before, d := MakeStaging(fs, parent, staging);
    if fd.None? {
      return Os, fd, created, before, d;
    }
    ghost var more;
    e, more := FillAndVerify(fs, s, parent, staging, fd.value, names, payloads, w, guard);
    EndsAlike(before, more, fd.value, payloads);
    ConfinedConcat(before, more, parent, staging, target, fd);
    before := before + more;
  }

  lemma ConfinedConcat(a: seq<Event>, b: seq<Event>, parent: nat, staging: string, target: string, fd: Option<nat>)
    requires forall e :: e in a ==> Looks(e) || (e.MadeDir? && e.parent == parent && e.name == staging)
    requires forall e :: e in b ==> Looks(e) || e == GuardPassed || (e.Wrote? && fd == Some(e.dir))
    ensures Gentle(a + b) && AllConfined(a + b, parent, staging, target, fd)
  {
  }

  /** mkdir, then open what the staging name denotes. */
  method MakeStaging(fs: FileSystem, parent: nat, staging: string)
    returns (fd: Option<nat>, created: bool, ghost before: seq<Event>, ghost d: nat)
    requires fs.Valid() && parent in fs.pinned
    modifies fs
    ensures fs.Valid() && fs.log == old(fs.log) + before
    ensures fs.pinned == old(fs.pinned) + if fd.Some? then multiset{fd.value} else multiset{}
    ensures fd.Some? ==> fd.value != parent
    ensures forall e :: e in before ==> Looks(e) || (e.MadeDir? && e.parent == parent && e.name == staging)
    ensures fd.Some? ==> created
    ensures fs.quiet ==> if created
            then Extra(old(fs.st), fs.st, parent, staging, d) && Entries(fs.st, d) == map[] && (fd.Some? ==> fd.value == d)
            else fs.st == old(fs.st)
    ensures old(fs.failed) ==> fs.failed
    ensures fs.quiet && !fs.failed && staging !in Entries(old(fs.st), parent) ==> fd.Some?
  {
    ghost var s := fs.st;
    before, d, fd, created := [], 0, None, false;
    var made := fs.Mkdir(parent, staging);
    if made.OsError? {
      return;
    }
    created, d := true, made.value;
    before := [MadeDir(parent, staging, d)];
    if fs.quiet {
      MkdirExtra(s, parent, staging, d);
    }
    var dirFd := fs.OpenDir(parent, staging);
    if dirFd.OsError? {
      return;
    }
    fd := Some(dirFd.value);
    before := before + [OpenedDir(parent, staging, dirFd.value)];
  }

  lemma EndsAlike(a: seq<Event>, b: seq<Event>, d: nat, payloads: map<string, Bytes>)
    ensures VerifiedBefore(b, d, payloads) ==> VerifiedBefore(a + b, d, payloads)
  {
  }

  ghost predicate StagedState(s: Fs, st: Fs, e: Exc, fd: Option<nat>, created: bool, d: nat, parent: nat,
                              staging: string, payloads: map<string, Bytes>)
  {
    && (!created ==> st == s)
    && (created ==> Extra(s, st, parent, staging, d))
    && (created && fd.None? ==> Entries(st, d) == map[])
    && (fd.Some? ==> fd.value == d)
    && (e.NoExc? ==> Holds(st, d, payloads))
  }

  /** What the guard read: nothing was published, and where it passed these are its reads. */
  ghost predicate Consulted(before: seq<Repo.Event>, after: seq<Repo.Event>, guard: Option<Repo.Pins>, passed: bool)
  {
    && before <= after && Repo.NeverPublished(after[|before|..])
    && (passed ==> after == before + Repo.GuardReads(guard))
  }

  /** Writes, verification and guard on the open staging directory. */
  method FillAndVerify(fs: FileSystem, ghost s: Fs, parent: nat, staging: string, d: nat, names: seq<string>,
                       payloads: map<string, Bytes>, w: Repo.World, guard: Option<Repo.Pins>)
    returns (e: Exc, ghost more: seq<Event>)
    requires fs.Valid() && parent in fs.pinned && d in fs.pinned && WellNamed(names, payloads)
    requires fs.quiet ==> Extra(s, fs.st, parent, staging, d) && Entries(fs.st, d) == map[]
    modifies fs, w
    ensures Consulted(old(w.log), w.log, guard, e.NoExc?)
    ensures fs.Valid() && fs.pinned == old(fs.pinned) && fs.log == old(fs.log) + more
    ensures forall x :: x in more ==> Looks(x) || x == GuardPassed || (x.Wrote? && x.dir == d)
    ensures e.NoExc? ==> VerifiedBefore(more, d, payloads)
    ensures e.Runner? ==> e.error.evidencePath == None && e.error.cleanupErrors == 0
    ensures fs.quiet ==> Extra(s, fs.st, parent, staging, d) && (e.NoExc? ==> Holds(fs.st, d, payloads))
    ensures old(fs.failed) ==> fs.failed
    ensures fs.quiet && !fs.failed ==> e.NoExc? || Stopped(w.log, w.raised, guard)
    ensures e.NoExc? ==> w.raised == old(w.raised)
  {
    var written;
    written, more := WriteAll(fs, s, parent, staging, d, names, payloads);
    if !written {
      return Os, more;
    }
    if fs.quiet {
      ExtraDenotes(s, fs.st, parent, staging, d);
    }
    ghost var looks;
    e, looks := VerifyStaged(fs, parent, staging, d, names, payloads);
    more := more + looks;
    if !e.NoExc? {
      return;
    }
    var failed := Repo.RunGuard(w, guard);
    if failed.Some? {
      return Plain(GuardCode(failed.value)), more;
    }
    fs.log := fs.log + [GuardPassed];
    more := more + [GuardPassed];
  }

  /** From the rename on. */
  method RenameAndVerify(fs: FileSystem, w: Repo.World, ghost s: Fs, ghost made: nat, parent: nat, staging: string,
                         target: string, d: nat, names: seq<string>, payloads: map<string, Bytes>, path: string)
    returns (e: Exc, published: bool, ghost after: seq<Event>)
    requires fs.Valid() && parent in fs.pinned && d in fs.pinned && WellNamed(names, payloads)
    requires fs.quiet ==> Extra(s, fs.st, parent, staging, made) && Holds(fs.st, made, payloads) && d == made
    modifies fs, w
    ensures fs.Valid() && fs.pinned == old(fs.pinned)
    ensures fs.log == old(fs.log) + (if published then [RenamedDir(parent, staging, target, None)] else []) + after
    ensures w.log == old(w.log) + if published then [Repo.BundlePublished] else []
    ensures OnlyLooks(after) && (!published ==> after == [])
    ensures e.NoExc? ==> published && VerifiedAfter(after, parent, target, d, payloads)
    ensures e.Runner? ==> e.error.evidencePath == (if published then Some(path) else None) &&
                          (!published ==> e.error.cleanupErrors == 0)
    ensures fs.quiet ==> if published
            then Extra(s, fs.st, parent, target, made) && Holds(fs.st, made, payloads)
            else fs.st == old(fs.st)
    ensures old(fs.failed) ==> fs.failed
    ensures w.raised == old(w.raised)
    ensures fs.quiet && !fs.failed && target !in Entries(old(fs.st), parent) ==> e.NoExc?
    ensures fs.quiet && !fs.failed && target in Entries(old(fs.st), parent) ==> e == Plain(OutputDirExists)
    ensures fs.quiet && e == Plain(OutputDirExists) ==> target in Entries(old(fs.st), parent)
  {
    published, after := false, [];
    ghost var staged := fs.st;
    var renamed := fs.RenameNoReplace(parent, staging, target);
    match renamed
    case RenameUnavailable => e := Plain(AtomicPublishUnavailable);
    case TargetExists => e := Plain(OutputDirExists);
    case RenameFailed => e := Plain(OutputWriteFailed);
    case Renamed =>
      w.log := w.log + [Repo.BundlePublished];
      published := true;
      if fs.quiet {
        RenameMoves(s, staged, parent, staging, target, made);
        ExtraDenotes(s, fs.st, parent, target, made);
      }
      e, after := VerifyPublished(fs, parent, target, d, names, payloads, path);
  }

  /** The rename, if there was one, comes directly after the guard's reads. */
  ghost predicate GuardedRename(before: seq<Repo.Event>, after: seq<Repo.Event>, guard: Option<Repo.Pins>, published: bool)
  {
    if published
    then after == before + Repo.GuardReads(guard) + [Repo.BundlePublished]
    else before <= after && Repo.NeverPublished(after[|before|..])
  }

  method Attempt(fs: FileSystem, parent: nat, staging: string, target: string, names: seq<string>,
                 payloads: map<string, Bytes>, w: Repo.World, guard: Option<Repo.Pins>, path: string)
    returns (a: Attempted, ghost t: Trace)
    requires fs.Valid() && parent in fs.pinned && WellNamed(names, payloads) && staging != target
    modifies fs, w
    ensures GuardedRename(old(w.log), w.log, guard, a.published)
    ensures fs.Valid() && fs.log == old(fs.log) + Logged(t, a.published, parent, staging, target)
    ensures fs.pinned == old(fs.pinned) + if a.stagingFd.Some? then multiset{a.stagingFd.value} else multiset{}
    ensures a.stagingFd.Some? ==> a.stagingFd.value != parent
    ensures AttemptLog(a, t, parent, staging, target, payloads)
    ensures a.exc.Runner? ==> if a.published then a.exc.error.evidencePath == Some(path)
                              else a.exc.error.evidencePath == None && a.exc.error.cleanupErrors == 0
    ensures fs.quiet ==> AttemptState(old(fs.st), fs.st, a, t, parent, staging, target, payloads)
    ensures old(fs.failed) ==> fs.failed
    ensures fs.quiet && !fs.failed && staging !in Entries(old(fs.st), parent) ==>
              || Stopped(w.log, w.raised, guard)
              || a.exc == if target in Entries(old(fs.st), parent) then Plain(OutputDirExists) else NoExc
    ensures a.published ==> w.raised == old(w.raised)
  {
    ghost var s := fs.st;
    var e, fd, created;
    ghost var before, d;
    e, fd, created, before, d := Stage(fs, parent, staging, target, names, payloads, w, guard);
    t := Trace(before, [], d);
    a := Attempted(e, fd, created, false);
    if !e.NoExc? {
      return;
    }
    var published;
    ghost var after;
    e, published, after := RenameAndVerify(fs, w, s, d, parent, staging, target, fd.value, names, payloads, path);
    t := Trace(before, after, d);
    a := Attempted(e, fd, created, published);
  }

  // ---------------------------------------------------------------- cleanup

  /** First the pinned directory was listed, then every listed name was unlinked in it, then its
      name was seen to still denote it, and directly after that the name was removed. */
  ghost predicate Cleaned(log: seq<Event>, parent: nat, staging: string, d: nat)
  {
    exists names, unlinks :: CleanedBy(log, parent, staging, d, names, unlinks)
  }

  ghost predicate CleanedBy(log: seq<Event>, parent: nat, staging: string, d: nat, names: set<string>, unlinks: seq<Event>)
  {
    && log == [Listed(d, names)] + unlinks + [OpenedDir(parent, staging, d), RemovedDir(parent, staging)]
    && (forall e :: e in unlinks ==> e.Unlinked? && e.dir == d)
    && (forall n :: n in names ==> Unlinked(d, n) in unlinks)
  }

  /** The staging name is removed only directly after it was seen to denote the directory. */
  ghost predicate RemovedWhenSeen(log: seq<Event>, parent: nat, staging: string, d: nat)
  {
    forall i :: 0 <= i < |log| && log[i] == RemovedDir(parent, staging) ==>
      i > 0 && log[i - 1] == OpenedDir(parent, staging, d)
  }

  ghost predicate CleanupEvent(e: Event, parent: nat, staging: string, d: nat)
  {
    Looks(e) || (e.Unlinked? && e.dir == d) || e == RemovedDir(parent, staging)
  }

  /** fstat, then list. */
  method StatAndList(fs: FileSystem, d: nat) returns (names: set<string>, ok: bool, ghost more: seq<Event>)
    requires fs.Valid() && d in fs.pinned
    modifies fs`st, fs`log, fs`failed
    ensures fs.Valid() && fs.log == old(fs.log) + more
    ensures if ok then more == [Listed(d, names)] else names == {} && more == []
    ensures fs.quiet ==> fs.st == old(fs.st) && (ok ==> names == Entries(fs.st, d).Keys)
    ensures old(fs.failed) ==> fs.failed
    ensures !fs.failed ==> ok
  {
    more, names, ok := [], {}, false;
    var stat := fs.Sync();
    if stat {
      var listing := fs.List(d);
      if listing.Done? {
        names, ok := listing.value, true;
        more := [Listed(d, names)];
      }
    }
  }

  /** List the pinned directory through a fresh descriptor; any error means no names. */
  method ScanStaging(fs: FileSystem, d: nat) returns (names: set<string>, ok: bool, ghost more: seq<Event>)
    requires fs.Valid() && d in fs.pinned
    modifies fs`st, fs`log, fs`pinned, fs`failed
    ensures fs.Valid() && fs.pinned == old(fs.pinned) && fs.log == old(fs.log) + more
    ensures forall e :: e in more ==> e.Listed?
    ensures if ok then more == [Listed(d, names)] else names == {}
    ensures fs.quiet ==> fs.st == old(fs.st) && (ok ==> names == Entries(fs.st, d).Keys)
    ensures old(fs.failed) ==> fs.failed
    ensures !fs.failed ==> ok
  {
    var scan := fs.Reopen(d);
    if scan.OsError? {
      return {}, false, [];
    }
    names, ok, more := StatAndList(fs, d);
    var closed := fs.Close(d);
    HeldAndReleased(old(fs.pinned), d);
    if !closed {
      names, ok := {}, false;
    }
  }

  /** `for name in names: os.unlink(name, dir_fd=staging_fd)` */
  method UnlinkAll(fs: FileSystem, ghost s: Fs, ghost parent: nat, ghost staging: string, d: nat, names: set<string>)
    returns (errors: nat, ghost more: seq<Event>)
    requires fs.Valid() && d in fs.pinned
    requires fs.quiet ==> Extra(s, fs.st, parent, staging, d)
    requires fs.quiet ==> names <= Entries(fs.st, d).Keys
    modifies fs`st, fs`log, fs`failed
    ensures fs.Valid() && fs.log == old(fs.log) + more
    ensures forall e :: e in more ==> e.Unlinked? && e.dir == d
    ensures errors == 0 ==> forall n :: n in names ==> Unlinked(d, n) in more
    ensures fs.quiet ==> Extra(s, fs.st, parent, staging, d) && Entries(fs.st, d).Keys <= Entries(old(fs.st), d).Keys
    ensures fs.quiet && errors == 0 ==> Entries(fs.st, d).Keys !! names
    ensures old(fs.failed) ==> fs.failed
    ensures fs.quiet && !fs.failed ==> errors == 0
  {
    errors, more := 0, [];
    var rest := names;
    while rest != {}
      invariant rest <= names && fs.Valid() && fs.log == old(fs.log) + more
      invariant forall e :: e in more ==> e.Unlinked? && e.dir == d
      invariant errors == 0 ==> forall n :: n in names - rest ==> Unlinked(d, n) in more
      invariant fs.quiet ==> Extra(s, fs.st, parent, staging, d) && Entries(fs.st, d).Keys <= Entries(old(fs.st), d).Keys
      invariant fs.quiet && errors == 0 ==> Entries(fs.st, d).Keys !! (names - rest)
      invariant old(fs.failed) ==> fs.failed
      invariant fs.quiet ==> rest <= Entries(fs.st, d).Keys
      invariant fs.quiet && !fs.failed ==> errors == 0
      decreases rest
    {
      var n :| n in rest;
      ghost var before := fs.st;
      var ok := fs.Unlink(d, n);
      if ok {
        more := more + [Unlinked(d, n)];
        if fs.quiet {
          UnlinkExtra(s, before, parent, staging, d, n);
        }
      } else {
        errors := errors + 1;
      }
      rest := rest - {n};
    }
  }

  /** List the pinned directory and unlink what was listed. */
  method Scrub(fs: FileSystem, ghost s: Fs, ghost parent: nat, ghost staging: string, d: nat)
    returns (names: set<string>, errors: nat, ghost listed: seq<Event>, ghost unlinks: seq<Event>)
    requires fs.Valid() && d in fs.pinned
    requires fs.quiet ==> Extra(s, fs.st, parent, staging, d)
    modifies fs
    ensures fs.Valid() && fs.pinned == old(fs.pinned) && fs.log == old(fs.log) + listed + unlinks
    ensures forall e :: e in listed ==> e.Listed?
    ensures forall e :: e in unlinks ==> e.Unlinked? && e.dir == d
    ensures errors == 0 ==> listed == [Listed(d, names)] && forall n :: n in names ==> Unlinked(d, n) in unlinks
    ensures fs.quiet ==> Extra(s, fs.st, parent, staging, d)
    ensures old(fs.failed) ==> fs.failed
    ensures fs.quiet && !fs.failed ==> errors == 0 && Entries(fs.st, d) == map[]
  {
    var scanned, unlinkErrors;
    names, scanned, listed := ScanStaging(fs, d);
    unlinkErrors, unlinks := UnlinkAll(fs, s, parent, staging, d, names);
    errors := (if scanned then 0 else 1) + unlinkErrors;
  }

  /** Whether the staging name still denotes the pinned directory. */
  method NameStillDenotes(fs: FileSystem, parent: nat, staging: string, d: nat)
    returns (same: bool, errors: nat, ghost more: seq<Event>)
    requires fs.Valid() && parent in fs.pinned
    modifies fs`st, fs`log, fs`pinned, fs`failed
    ensures fs.Valid() && fs.pinned == old(fs.pinned) && fs.log == old(fs.log) + more && OnlyLooks(more)
    ensures same ==> more == [OpenedDir(parent, staging, d)]
    ensures !same ==> errors > 0
    ensures fs.quiet ==> fs.st == old(fs.st)
    ensures old(fs.failed) ==> fs.failed
    ensures fs.quiet && !fs.failed && Denotes(fs.st, parent, staging, d) ==> same && errors == 0
  {
    more, same, errors := [], false, 0;
    var named := fs.OpenDir(parent, staging);
    if named.OsError? {
      return false, 1, more;
    }
    more := [OpenedDir(parent, staging, named.value)];
    var stat := fs.Sync();
    if stat {
      same := named.value == d;
    }
    if !same {
      errors := 1;
    }
    var closed := fs.Close(named.value);
    if !closed {
      errors := errors + 1;
    }
  }

  /** Close the pinned descriptor, then remove the name if it still denoted the directory. */
  method RemoveName(fs: FileSystem, ghost s: Fs, parent: nat, staging: string, d: nat, same: bool)
    returns (errors: nat, ghost more: seq<Event>)
    requires fs.Valid() && parent in fs.pinned && fs.pinned[d] == 1 && parent != d
    requires fs.quiet ==> Extra(s, fs.st, parent, staging, d)
    modifies fs
    ensures fs.Valid() && fs.pinned == old(fs.pinned) - multiset{d} && fs.log == old(fs.log) + more
    ensures more == [] || (more == [RemovedDir(parent, staging)] && same)
    ensures same && errors == 0 ==> more == [RemovedDir(parent, staging)]
    ensures fs.quiet ==> if more == [] then Extra(s, fs.st, parent, staging, d) else Restored(s, fs.st)
    ensures old(fs.failed) ==> fs.failed
    ensures fs.quiet && !fs.failed && same && Entries(old(fs.st), d) == map[] ==> errors == 0
  {
    errors, more := 0, [];
    var closed := fs.Close(d);
    if !closed {
      errors := 1;
    }
    if same {
      if fs.quiet {
        RmdirRestores(s, fs.st, parent, staging, d);
      }
      var removed := fs.Rmdir(parent, staging);
      if removed {
        more := [RemovedDir(parent, staging)];
      } else {
        errors := errors + 1;
      }
    }
  }

  /** `_cleanup_staging`: `errors` counts the recorded failures; the call raises if there are any. */
  method CleanupStaging(fs: FileSystem, ghost s: Fs, parent: nat, staging: string, d: nat)
    returns (errors: nat, ghost more: seq<Event>)
    requires fs.Valid() && parent in fs.pinned && fs.pinned[d] == 1 && parent != d
    requires fs.quiet ==> Extra(s, fs.st, parent, staging, d)
    modifies fs
    ensures fs.Valid() && fs.pinned == old(fs.pinned) - multiset{d} && fs.log == old(fs.log) + more
    ensures forall e :: e in more ==> CleanupEvent(e, parent, staging, d)
    ensures RemovedWhenSeen(more, parent, staging, d)
    ensures errors == 0 ==> Cleaned(more, parent, staging, d)
    ensures fs.quiet ==> if errors == 0 then Restored(s, fs.st)
                         else Restored(s, fs.st) || Extra(s, fs.st, parent, staging, d)
    ensures old(fs.failed) ==> fs.failed
    ensures fs.quiet && !fs.failed ==> errors == 0
  {
    var names, scrubErrors, same, nameErrors, removeErrors;
    ghost var listed, unlinks, looks, removal;
    names, scrubErrors, listed, unlinks := Scrub(fs, s, parent, staging, d);
    if fs.quiet {
      ExtraDenotes(s, fs.st, parent, staging, d);
    }
    same, nameErrors, looks := NameStillDenotes(fs, parent, staging, d);
    removeErrors, removal := RemoveName(fs, s, parent, staging, d, same);
    errors := scrubErrors + nameErrors + removeErrors;
    more := listed + unlinks + looks + removal;
    CleanupShape(listed, unlinks, looks, removal, names, parent, staging, d, errors == 0);
  }

  lemma CleanedLog(names: set<string>, unlinks: seq<Event>, parent: nat, staging: string, d: nat)
    requires forall e :: e in unlinks ==> e.Unlinked? && e.dir == d
    requires forall n :: n in names ==> Unlinked(d, n) in unlinks
    ensures Cleaned([Listed(d, names)] + unlinks + [OpenedDir(parent, staging, d)] + [RemovedDir(parent, staging)],
                    parent, staging, d)
  {
    var log := [Listed(d, names)] + unlinks + [OpenedDir(parent, staging, d), RemovedDir(parent, staging)];
    assert CleanedBy(log, parent, staging, d, names, unlinks);
    assert log == [Listed(d, names)] + unlinks + [OpenedDir(parent, staging, d)] + [RemovedDir(parent, staging)];
  }

  /** The removal, if any, comes last and directly after the look at the name. */
  lemma RemovalSeen(before: seq<Event>, looks: seq<Event>, removal: seq<Event>, parent: nat, staging: string, d: nat)
    requires RemovedDir(parent, staging) !in before + looks
    requires removal == [] || (removal == [RemovedDir(parent, staging)] && looks == [OpenedDir(parent, staging, d)])
    ensures RemovedWhenSeen(before + looks + removal, parent, staging, d)
  {
    var log := before + looks + removal;
    assert forall i :: 0 <= i < |before + looks| ==> log[i] in before + looks;
  }

  /** What the four parts of the cleanup log together show. */
  lemma CleanupShape(listed: seq<Event>, unlinks: seq<Event>, looks: seq<Event>, removal: seq<Event>,
                     names: set<string>, parent: nat, staging: string, d: nat, clean: bool)
    requires forall e :: e in listed ==> e.Listed?
    requires forall e :: e in unlinks ==> e.Unlinked? && e.dir == d
    requires OnlyLooks(looks)
    requires removal == [] || (removal == [RemovedDir(parent, staging)] && looks == [OpenedDir(parent, staging, d)])
    requires clean ==> listed == [Listed(d, names)] && removal != [] && forall n :: n in names ==> Unlinked(d, n) in unlinks
    ensures var more := listed + unlinks + looks + removal;
            && (forall e :: e in more ==> CleanupEvent(e, parent, staging, d))
            && RemovedWhenSeen(more, parent, staging, d)
            && (clean ==> Cleaned(more, parent, staging, d))
  {
    RemovalSeen(listed + unlinks, looks, removal, parent, staging, d);
    if clean {
      CleanedLog(names, unlinks, parent, staging, d);
    }
  }

  // ---------------------------------------------------------------- the whole call

  /** The except clauses: every failure becomes a RunnerError that names the published location
      exactly if the rename happened. */
  function Converted(exc: Exc, published: bool, path: string): Option<RunnerError>
  {
    match exc
    case NoExc => None
    case Runner(e) => Some(if published && e.evidencePath.None? then e.(evidencePath := Some(path)) else e)
    case Os => Some(if published then PublishedError(FinalizationUnconfirmed, path, true)
                    else RunnerError(OutputWriteFailed, None, 0))
  }

  /** Record one more failure: on the pending error, or as an error of its own. */
  function Recorded(pending: Option<RunnerError>, published: bool, path: string): RunnerError
  {
    match pending
    case Some(e) => e.(cleanupErrors := e.cleanupErrors + 1)
    case None => if published then PublishedError(FinalizationUnconfirmed, path, true)
                 else RunnerError(CleanupFailed, None, 0)
  }

  /** A cleanup failure has left a mark on the error. */
  predicate CleanupRecorded(e: RunnerError)
  {
    e.cleanupErrors > 0 || e.code == CleanupFailed
  }

  /** The rollback of the finally clause. */
  method Rollback(fs: FileSystem, ghost s: Fs, parent: nat, staging: string, a: Attempted, ghost t: Trace)
    returns (errors: nat, ghost more: seq<Event>)
    requires fs.Valid() && parent in fs.pinned && !a.published
    requires a.stagingFd.Some? ==> fs.pinned[a.stagingFd.value] == 1 && a.stagingFd.value != parent && a.created
    requires a.created && a.stagingFd.None? && fs.quiet ==> t.made !in fs.pinned
    requires fs.quiet ==> if a.created then Extra(s, fs.st, parent, staging, t.made) else fs.st == s
    requires fs.quiet && a.stagingFd.Some? ==> a.stagingFd.value == t.made
    requires fs.quiet && a.created && a.stagingFd.None? ==> Entries(fs.st, t.made) == map[]
    modifies fs
    ensures fs.Valid() && parent in fs.pinned && fs.log == old(fs.log) + more
    ensures forall e :: e in more ==> Looks(e) || (e.Unlinked? && a.stagingFd == Some(e.dir)) || e == RemovedDir(parent, staging)
    ensures a.stagingFd.Some? ==> RemovedWhenSeen(more, parent, staging, a.stagingFd.value)
    ensures errors == 0 && a.stagingFd.Some? ==> Cleaned(more, parent, staging, a.stagingFd.value)
    ensures fs.quiet && errors == 0 ==> Restored(s, fs.st)
    ensures fs.quiet ==> Restored(s, fs.st) || Extra(s, fs.st, parent, staging, t.made)
    ensures old(fs.failed) ==> fs.failed
    ensures fs.quiet && !fs.failed ==> errors == 0
  {
    errors, more := 0, [];
    if a.created {
      if a.stagingFd.Some? {
        errors, more := CleanupStaging(fs, s, parent, staging, a.stagingFd.value);
      } else {
        if fs.quiet {
          RmdirRestores(s, fs.st, parent, staging, t.made);
        }
        var removed := fs.Rmdir(parent, staging);
        if removed {
          more := [RemovedDir(parent, staging)];
        } else {
          errors := 1;
        }
      }
    }
  }

  /** The finally clause. A failed close of the staging descriptor with nothing pending raises at
      once and leaves the parent descriptor open. */
  method Finish(fs: FileSystem, ghost s: Fs, parent: nat, staging: string, a: Attempted, path: string, ghost t: Trace)
    returns (r: PublishResult, ghost more: seq<Event>)
    requires fs.Valid() && parent in fs.pinned
    requires a.stagingFd.Some? ==> fs.pinned[a.stagingFd.value] == 1 && a.stagingFd.value != parent && a.created
    requires a.published ==> a.stagingFd.Some?
    requires a.exc.NoExc? ==> a.published
    requires a.exc.Runner? ==> if a.published then a.exc.error.evidencePath == Some(path)
                               else a.exc.error.evidencePath == None && a.exc.error.cleanupErrors == 0
    requires !a.published && a.created && a.stagingFd.None? && fs.quiet ==> t.made !in fs.pinned
    requires !a.published && fs.quiet ==> if a.created then Extra(s, fs.st, parent, staging, t.made) else fs.st == s
    requires !a.published && fs.quiet && a.stagingFd.Some? ==> a.stagingFd.value == t.made
    requires !a.published && fs.quiet && a.created && a.stagingFd.None? ==> Entries(fs.st, t.made) == map[]
    modifies fs
    ensures fs.log == old(fs.log) + more
    ensures a.published ==> more == []
    ensures forall e :: e in more ==> Looks(e) || (e.Unlinked? && a.stagingFd == Some(e.dir)) || e == RemovedDir(parent, staging)
    ensures a.stagingFd.Some? ==> RemovedWhenSeen(more, parent, staging, a.stagingFd.value)
    ensures r.Published? ==> a.exc.NoExc? && r.path == path
    ensures r.Raised? ==> r.error.evidencePath == if a.published then Some(path) else None
    ensures r.Raised? && !a.published && a.stagingFd.Some? && !CleanupRecorded(r.error) ==>
              Cleaned(more, parent, staging, a.stagingFd.value)
    ensures a.published && fs.quiet ==> fs.st == old(fs.st)
    ensures !a.published && fs.quiet ==> Restored(s, fs.st) || Extra(s, fs.st, parent, staging, t.made)
    ensures !a.published && fs.quiet && r.Raised? && !CleanupRecorded(r.error) ==> Restored(s, fs.st)
    ensures old(fs.failed) ==> fs.failed
    ensures fs.quiet && !fs.failed ==>
              r == match Converted(a.exc, a.published, path) case None => Published(path) case Some(e) => Raised(e)
  {
    more := [];
    var pending := Converted(a.exc, a.published, path);
    if !a.published {
      var errors;
      errors, more := Rollback(fs, s, parent, staging, a, t);
      if errors > 0 {
        pending := Some(Recorded(pending, false, path));
      }
    } else {
      var closed := fs.Close(a.stagingFd.value);
      if !closed && pending.None? {
        return Raised(Recorded(None, true, path)), more;
      }
      if !closed {
        pending := Some(Recorded(pending, true, path));
      }
    }
    var parentClosed := fs.Close(parent);
    if !parentClosed {
      pending := Some(Recorded(pending, a.published, path));
    }
    r := match pending case None => Published(path) case Some(e) => Raised(e);
  }

  /** What the whole log shows. */
  ghost predicate PublishLog(r: PublishResult, a: Attempted, t: Trace, rollback: seq<Event>, parent: nat,
                             staging: string, target: string, payloads: map<string, Bytes>)
  {
    && AttemptLog(a, t, parent, staging, target, payloads)
    && AllConfined(rollback, parent, staging, target, a.stagingFd)
    && (forall e :: e in rollback ==> !e.RenamedDir? && !e.Wrote? && !e.MadeDir?)
    && (a.published ==> rollback == [])
    && (a.stagingFd.Some? ==> RemovedWhenSeen(rollback, parent, staging, a.stagingFd.value))
    && (r.Published? ==> a.exc.NoExc?)
    && (r.Raised? && !a.published && a.stagingFd.Some? && !CleanupRecorded(r.error) ==>
          Cleaned(rollback, parent, staging, a.stagingFd.value))
  }

  /** `publish_evidence_bundle`, from the acquired parent descriptor on. Whatever fails and whoever
      interferes: the error names the published location exactly if the rename happened, every
      change stays confined, and a normal return means the target was seen to be the staging
      directory and each file was then read back. Undisturbed, the outcome is all or nothing. */
  method PublishEvidenceBundle(fs: FileSystem, parent: nat, staging: string, target: string, names: seq<string>,
                               payloads: map<string, Bytes>, w: Repo.World, guard: Option<Repo.Pins>, path: string)
    returns (r: PublishResult, ghost a: Attempted, ghost t: Trace, ghost rollback: seq<Event>)
    requires fs.Valid() && fs.pinned == multiset{parent} && WellNamed(names, payloads) && staging != target
    modifies fs, w
    ensures fs.log == old(fs.log) + Logged(t, a.published, parent, staging, target) + rollback
    ensures GuardedRename(old(w.log), w.log, guard, a.published)
    ensures PublishLog(r, a, t, rollback, parent, staging, target, payloads)
    ensures r.Raised? ==> r.error.evidencePath == if a.published then Some(path) else None
    ensures r.Published? ==> r.path == path && a.published
    ensures fs.quiet && a.published ==>
              Extra(old(fs.st), fs.st, parent, target, t.made) && Holds(fs.st, t.made, payloads)
    ensures fs.quiet && !a.published ==>
              Restored(old(fs.st), fs.st) || (r.Raised? && CleanupRecorded(r.error) &&
                                              Extra(old(fs.st), fs.st, parent, staging, t.made))
    ensures fs.quiet && target in Entries(old(fs.st), parent) ==>
              !a.published && Entries(fs.st, parent)[target] == Entries(old(fs.st), parent)[target]
    ensures old(fs.failed) ==> fs.failed
    ensures fs.quiet && !fs.failed && staging !in Entries(old(fs.st), parent) ==>
              || Stopped(w.log, w.raised, guard)
              || r == if target in Entries(old(fs.st), parent) then Raised(RunnerError(OutputDirExists, None, 0))
                      else Published(path)
    ensures a.published ==> w.raised == old(w.raised)
  {
    ghost var s := fs.st;
    var tried;
    tried, t := Attempt(fs, parent, staging, target, names, payloads, w, guard, path);
    a := tried;
    r, rollback := Finish(fs, s, parent, staging, tried, path, t);
  }
}
