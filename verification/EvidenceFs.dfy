/** The file-system calls behind evidence publication: directories pinned by descriptors, names
    that other processes may change between any two calls, and calls that may fail at any time. */
module EvidenceFs {
  import opened Options

  type Bytes = seq<int>

  /** A system call returns a value or raises OSError. */
  datatype Sys<+T> = Done(value: T) | OsError

  /** Directory contents and file contents by inode. */
  datatype Fs = Fs(dirs: map<nat, map<string, nat>>, files: map<nat, Bytes>)

  datatype RenameResult = Renamed | TargetExists | RenameFailed | RenameUnavailable

  datatype PathResult = Found(inode: nat) | LocationLost | PathError

  /** What this process did, or saw, in order. */
  datatype Event =
    | MadeDir(parent: nat, name: string, inode: nat)
    | OpenedDir(parent: nat, name: string, inode: nat)
    | Wrote(dir: nat, name: string)
    | Listed(dir: nat, names: set<string>)
    | ReadFile(dir: nat, name: string, data: Bytes)
    | RenamedDir(parent: nat, source: string, target: string, replaced: Option<nat>)  // what the target named
    | Unlinked(dir: nat, name: string)
    | RemovedDir(parent: nat, name: string)
    | GuardPassed

  function Entries(s: Fs, d: nat): map<string, nat>
  {
    if d in s.dirs then s.dirs[d] else map[]
  }

  /** The bytes behind a name, if it names a regular file. */
  function FileAt(s: Fs, d: nat, name: string): Option<Bytes>
  {
    if name in Entries(s, d) && Entries(s, d)[name] in s.files then Some(s.files[Entries(s, d)[name]]) else None
  }

  /** What a name denotes. */
  function EntryAt(s: Fs, d: nat, name: string): Option<nat>
  {
    if name in Entries(s, d) then Some(Entries(s, d)[name]) else None
  }

  function WithEntry(s: Fs, d: nat, name: string, inode: nat): Fs
  {
    s.(dirs := s.dirs[d := Entries(s, d)[name := inode]])
  }

  function WithoutEntry(s: Fs, d: nat, name: string): Fs
  {
    s.(dirs := s.dirs[d := Entries(s, d) - {name}])
  }

  predicate Fresh(s: Fs, inode: nat)
  {
    inode !in s.dirs && inode !in s.files && forall d :: d in s.dirs ==> inode !in s.dirs[d].Values
  }

  /** The state after a successful mkdir. */
  function AfterMkdir(s: Fs, parent: nat, name: string, inode: nat): Fs
  {
    var t := WithEntry(s, parent, name, inode);
    t.(dirs := t.dirs[inode := map[]])
  }

  /** The state after an exclusive create with the given contents. */
  function AfterWrite(s: Fs, d: nat, name: string, inode: nat, data: Bytes): Fs
  {
    WithEntry(s, d, name, inode).(files := s.files[inode := data])
  }

  function AfterRename(s: Fs, parent: nat, source: string, target: string): Fs
    requires source in Entries(s, parent)
  {
    s.(dirs := s.dirs[parent := (Entries(s, parent) - {source})[target := Entries(s, parent)[source]]])
  }

  function AfterRmdir(s: Fs, parent: nat, name: string): Fs
    requires name in Entries(s, parent)
  {
    var t := WithoutEntry(s, parent, name);
    t.(dirs := t.dirs - {Entries(s, parent)[name]})
  }

  ghost predicate CreatedAs(s: Fs, t: Fs, d: nat, name: string, inode: nat, bytes: Bytes)
  {
    Fresh(s, inode) && t == AfterWrite(s, d, name, inode, bytes)
  }

  /** A new file has appeared under a name that was free, with the given contents if they are given. */
  ghost predicate Created(s: Fs, t: Fs, d: nat, name: string, data: Option<Bytes>)
  {
    && name !in Entries(s, d)
    && exists i, bytes :: CreatedAs(s, t, d, name, i, bytes) && (data == None || data == Some(bytes))
  }

  /** The state after a successful rmdir; an inode still held open survives without a name. */
  function AfterRmdirOf(s: Fs, parent: nat, name: string, held: bool): Fs
    requires name in Entries(s, parent)
  {
    if held then WithoutEntry(s, parent, name) else AfterRmdir(s, parent, name)
  }

  class FileSystem {
    var st: Fs
    /** Directories held open by this process; their inodes cannot disappear. */
    var pinned: multiset<nat>
    /** No other process touches the file system. */
    const quiet: bool
    ghost var log: seq<Event>
    /** Some call has raised although the file system, as this process left it, allowed it. */
    ghost var failed: bool

    ghost predicate Valid()
      reads this
    {
      forall d :: d in pinned ==> d in st.dirs
    }

    constructor (initial: Fs, isQuiet: bool, parent: nat)
      requires parent in initial.dirs
      ensures Valid() && st == initial && pinned == multiset{parent} && quiet == isQuiet && log == [] && !failed
    {
      st, pinned, quiet, log, failed := initial, multiset{parent}, isQuiet, [], false;
    }

    /** Other processes act: anything may change except that pinned directories stay directories. */
    method Interfere()
      requires Valid()
      modifies this`st
      ensures Valid() && (quiet ==> st == old(st))
    {
      var next: Fs :| true;
      if !quiet && forall d :: d in pinned ==> d in next.dirs {
        st := next;
      }
    }

    /** `os.mkdir(name, dir_fd=parent)` */
    method Mkdir(parent: nat, name: string) returns (r: Sys<nat>)
      requires Valid() && parent in pinned
      modifies this`st, this`log, this`failed
      ensures Valid()
      ensures log == old(log) + if r.Done? then [MadeDir(parent, name, r.value)] else []
      ensures r.Done? ==> name in Entries(st, parent) && Entries(st, parent)[name] == r.value && r.value in st.dirs
      ensures quiet ==> if r.Done? then
                && parent in old(st).dirs && name !in Entries(old(st), parent) && Fresh(old(st), r.value)
                && st == AfterMkdir(old(st), parent, name, r.value)
              else st == old(st)
      ensures old(failed) ==> failed
      ensures quiet && !failed && r.OsError? ==> name in Entries(st, parent)
    {
      Interfere();
      var inode: nat, fail: bool :| true;
      if fail || name in Entries(st, parent) || !Fresh(st, inode) {
        failed := failed || name !in Entries(st, parent);
        return OsError;
      }
      st := AfterMkdir(st, parent, name, inode);
      log := log + [MadeDir(parent, name, inode)];
      return Done(inode);
    }

    /** `os.open(name, O_DIRECTORY | O_NOFOLLOW, dir_fd=parent)`, with the fstat that follows. */
    method OpenDir(parent: nat, name: string) returns (r: Sys<nat>)
      requires Valid() && parent in pinned
      modifies this`st, this`log, this`pinned, this`failed
      ensures Valid()
      ensures pinned == old(pinned) + if r.Done? then multiset{r.value} else multiset{}
      ensures log == old(log) + if r.Done? then [OpenedDir(parent, name, r.value)] else []
      ensures r.Done? ==> r.value in st.dirs && name in Entries(st, parent) && Entries(st, parent)[name] == r.value
      ensures r.Done? ==> r.value != parent
      ensures quiet ==> st == old(st)
      ensures old(failed) ==> failed
      ensures quiet && !failed && r.OsError? ==>
                name !in Entries(st, parent) || Entries(st, parent)[name] !in st.dirs || Entries(st, parent)[name] == parent
    {
      Interfere();
      var fail: bool :| true;
      // No directory contains itself.
      if fail || name !in Entries(st, parent) || Entries(st, parent)[name] !in st.dirs || Entries(st, parent)[name] == parent {
        failed := failed || fail;
        return OsError;
      }
      r := Done(Entries(st, parent)[name]);
      pinned := pinned + multiset{r.value};
      log := log + [OpenedDir(parent, name, r.value)];
    }

    /** `os.open(".", ..., dir_fd=d)`: the same directory again. */
    method Reopen(d: nat) returns (r: Sys<nat>)
      requires Valid() && d in pinned
      modifies this`st, this`pinned, this`failed
      ensures Valid()
      ensures pinned == old(pinned) + if r.Done? then multiset{r.value} else multiset{}
      ensures r.Done? ==> r.value == d
      ensures quiet ==> st == old(st)
      ensures old(failed) ==> failed
      ensures !failed ==> r.Done?
    {
      Interfere();
      var fail: bool :| true;
      if fail {
        failed := true;
        return OsError;
      }
      pinned := pinned + multiset{d};
      return Done(d);
    }

    /** `os.close(d)`: the descriptor is gone even when the call reports an error. */
    method Close(d: nat) returns (ok: bool)
      requires Valid() && d in pinned
      modifies this`st, this`pinned, this`failed
      ensures Valid() && pinned == old(pinned) - multiset{d}
      ensures quiet ==> st == old(st)
      ensures old(failed) ==> failed
      ensures !failed ==> ok
    {
      Interfere();
      pinned := pinned - multiset{d};
      ok :| true;
      failed := failed || !ok;
    }

    /** `os.fsync` and the like: no visible effect, may fail. */
    method Sync() returns (ok: bool)
      requires Valid()
      modifies this`st, this`failed
      ensures Valid() && (quiet ==> st == old(st))
      ensures old(failed) ==> failed
      ensures !failed ==> ok
    {
      Interfere();
      ok :| true;
      failed := failed || !ok;
    }

    /** `_write_file_sync_at`: exclusive create, write, fsync. A failure may leave a partial file. */
    method WriteFile(d: nat, name: string, data: Bytes) returns (ok: bool)
      requires Valid() && d in pinned
      modifies this`st, this`log, this`failed
      ensures Valid()
      ensures log == old(log) || log == old(log) + [Wrote(d, name)]
      ensures ok ==> log == old(log) + [Wrote(d, name)]
      ensures quiet && ok ==> Created(old(st), st, d, name, Some(data))
      ensures quiet && !ok ==> st == old(st) || Created(old(st), st, d, name, None)
      ensures old(failed) ==> failed
      ensures quiet && !failed && !ok ==> name in Entries(old(st), d)
    {
      Interfere();
      var inode: nat, fail: bool :| true;
      if fail || name in Entries(st, d) || !Fresh(st, inode) {
        failed := failed || name !in Entries(st, d);
        return false;
      }
      ghost var before := st;
      var written: nat :| true;
      var partial := data[..if written <= |data| then written else |data|];
      st := AfterWrite(st, d, name, inode, partial);
      log := log + [Wrote(d, name)];
      assert Created(before, st, d, name, None) by {
        assert CreatedAs(before, st, d, name, inode, partial);
      }
      ok :| true;
      if ok {
        st := st.(files := st.files[inode := data]);
        assert CreatedAs(before, st, d, name, inode, data);
      } else {
        failed := true;
      }
    }

    /** `os.listdir(d)` */
    method List(d: nat) returns (r: Sys<set<string>>)
      requires Valid() && d in pinned
      modifies this`st, this`log, this`failed
      ensures Valid()
      ensures log == old(log) + if r.Done? then [Listed(d, r.value)] else []
      ensures r.Done? ==> r.value == Entries(st, d).Keys
      ensures quiet ==> st == old(st)
      ensures old(failed) ==> failed
      ensures !failed ==> r.Done?
    {
      Interfere();
      var fail: bool :| true;
      if fail {
        failed := true;
        return OsError;
      }
      r := Done(Entries(st, d).Keys);
      log := log + [Listed(d, r.value)];
    }

    /** `_read_file_at` */
    method Read(d: nat, name: string) returns (r: Sys<Bytes>)
      requires Valid() && d in pinned
      modifies this`st, this`log, this`failed
      ensures Valid()
      ensures log == old(log) + if r.Done? then [ReadFile(d, name, r.value)] else []
      ensures r.Done? ==> FileAt(st, d, name) == Some(r.value)
      ensures quiet ==> st == old(st)
      ensures old(failed) ==> failed
      ensures quiet && !failed && r.OsError? ==> FileAt(st, d, name).None?
    {
      Interfere();
      var fail: bool :| true;
      if fail || FileAt(st, d, name).None? {
        failed := failed || fail;
        return OsError;
      }
      r := Done(FileAt(st, d, name).value);
      log := log + [ReadFile(d, name, r.value)];
    }

    /** `renameat2(parent, source, parent, target, RENAME_NOREPLACE)`: the kernel refuses an
        existing target, so whatever else happens nothing is replaced. */
    method RenameNoReplace(parent: nat, source: string, target: string) returns (r: RenameResult)
      requires Valid() && parent in pinned
      modifies this`st, this`log, this`failed
      ensures Valid()
      ensures log == old(log) + if r.Renamed? then [RenamedDir(parent, source, target, None)] else []
      ensures quiet ==> if r.Renamed? then
                source in Entries(old(st), parent) && target !in Entries(old(st), parent) &&
                st == AfterRename(old(st), parent, source, target)
              else st == old(st)
      ensures quiet && target in Entries(old(st), parent) ==> !r.Renamed?
      ensures old(failed) ==> failed
      ensures quiet && !failed && !r.Renamed? ==>
                if target in Entries(st, parent) then r.TargetExists? else r.RenameFailed? && source !in Entries(st, parent)
      ensures quiet && r.TargetExists? ==> target in Entries(st, parent)
    {
      Interfere();
      var outcome: nat :| true;
      if outcome == 0 {
        failed := true;
        return RenameUnavailable;
      }
      if target in Entries(st, parent) {
        return TargetExists;
      }
      if outcome == 1 || source !in Entries(st, parent) {
        failed := failed || outcome == 1;
        return RenameFailed;
      }
      log := log + [RenamedDir(parent, source, target, EntryAt(st, parent, target))];
      st := AfterRename(st, parent, source, target);
      return Renamed;
    }

    /** `os.unlink(name, dir_fd=d)`: fails on directories. */
    method Unlink(d: nat, name: string) returns (ok: bool)
      requires Valid() && d in pinned
      modifies this`st, this`log, this`failed
      ensures Valid()
      ensures log == old(log) + if ok then [Unlinked(d, name)] else []
      ensures quiet ==> st == if ok then WithoutEntry(old(st), d, name) else old(st)
      ensures old(failed) ==> failed
      ensures quiet && !failed && !ok ==> name !in Entries(st, d) || Entries(st, d)[name] in st.dirs
    {
      Interfere();
      var fail: bool :| true;
      if fail || name !in Entries(st, d) || Entries(st, d)[name] in st.dirs {
        failed := failed || fail;
        return false;
      }
      st := WithoutEntry(st, d, name);
      log := log + [Unlinked(d, name)];
      return true;
    }

    /** `os.rmdir(name, dir_fd=parent)`: only an empty directory goes. */
    method Rmdir(parent: nat, name: string) returns (ok: bool)
      requires Valid() && parent in pinned
      modifies this`st, this`log, this`failed
      ensures Valid()
      ensures log == old(log) + if ok then [RemovedDir(parent, name)] else []
      ensures quiet && ok ==> (
                && name in Entries(old(st), parent)
                && Entries(old(st), Entries(old(st), parent)[name]) == map[]
                && st == AfterRmdirOf(old(st), parent, name, Entries(old(st), parent)[name] in pinned))
      ensures quiet && !ok ==> st == old(st)
      ensures old(failed) ==> failed
      ensures quiet && !failed && !ok ==>
                || name !in Entries(st, parent) || Entries(st, parent)[name] !in st.dirs
                || Entries(st, Entries(st, parent)[name]) != map[] || Entries(st, parent)[name] == parent
    {
      Interfere();
      var fail: bool :| true;
      if fail || name !in Entries(st, parent) || Entries(st, parent)[name] !in st.dirs ||
         Entries(st, Entries(st, parent)[name]) != map[] || Entries(st, parent)[name] == parent {
        failed := failed || fail;
        return false;
      }
      st := AfterRmdirOf(st, parent, name, Entries(st, parent)[name] in pinned);
      log := log + [RemovedDir(parent, name)];
      return true;
    }

    /** `_open_directory_no_symlinks(parent)`: resolve the parent path again. */
    method ResolveParent(parent: nat) returns (r: PathResult)
      requires Valid()
      modifies this`st, this`failed
      ensures Valid()
      ensures quiet ==> st == old(st) && (r.Found? ==> r.inode == parent)
      ensures old(failed) ==> failed
      ensures quiet && !failed ==> r == Found(parent)
    {
      Interfere();
      var outcome: nat, seen: nat :| true;
      if outcome == 0 {
        failed := true;
        return LocationLost;
      }
      if outcome == 1 {
        failed := true;
        return PathError;
      }
      return Found(if quiet then parent else seen);
    }
  }
}
