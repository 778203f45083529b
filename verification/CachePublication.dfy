/** No-clobber publication of the pinned water-polygon archive: any number of `ensure` processes
    share one cache directory, may fail at any system call and may crash between any two. */
module CachePublication {
  import opened Options

  newtype Byte = x: int | 0 <= x < 256

  type Bytes = seq<Byte>

  const ZIP_MAGIC: Bytes := [0x50, 0x4b, 0x03, 0x04]
  const MAX_SIZE: nat := 931_543_967

  /** The pinned identity; SHA-256 stays uninterpreted. */
  datatype Pins = Pins(digest: string, size: nat, sha256: Bytes -> string)

  /** The identity check at the head of `ensure`; the URL is pinned by the command line. */
  predicate Approved(c: Pins)
  {
    4 <= c.size <= MAX_SIZE && |c.digest| == 64 && forall ch :: ch in c.digest ==> ch in "0123456789abcdef"
  }

  predicate HasMagic(b: Bytes)
  {
    |b| >= 4 && b[..4] == ZIP_MAGIC
  }

  /** Exactly the pinned bytes, as far as size, magic and digest tell. */
  predicate Good(c: Pins, b: Bytes)
  {
    |b| == c.size && HasMagic(b) && c.sha256(b) == c.digest
  }

  // ---------------------------------------------------------------- directory and processes

  datatype Name = Target | Temp(id: nat)

  /** A directory entry: a regular file, or a symlink, directory or special file. */
  datatype Node = File(inode: nat) | Other

  datatype Result = Reused | Downloaded | Failed

  /** `_verify` runs before anything else, or on the freshly linked target. */
  datatype Mode = Reusing | Publishing(temp: nat, inode: nat)

  /** Where a process stands in `ensure`. */
  datatype Pc =
    | Start
    | Opening(mode: Mode)
    | Reading(mode: Mode, source: nat, got: Bytes)
    | Creating
    | Receiving(temp: nat, inode: nat, got: Bytes)
    | Received(temp: nat, inode: nat, got: Bytes)
    | Linking(temp: nat, inode: nat)
    | Cleaning(temp: nat, inode: nat, result: Result)
    | Unlinking(temp: nat, inode: nat, result: Result)
    | Done(result: Result)
    | Crashed

  /** The directory, the file contents and the processes. Two history variables: which process
      linked the target, and the temp names that a crash or a failed cleanup left behind. */
  datatype State = State(
    dir: map<Name, Node>,
    content: map<nat, Bytes>,
    procs: map<nat, Pc>,
    publisher: Option<nat>,
    litter: set<nat>)

  /** The temp name and inode a process still has to clean up. */
  function Owned(pc: Pc): Option<(nat, nat)>
  {
    match pc
    case Opening(Publishing(t, i)) => Some((t, i))
    case Reading(Publishing(t, i), _, _) => Some((t, i))
    case Receiving(t, i, _) => Some((t, i))
    case Received(t, i, _) => Some((t, i))
    case Linking(t, i) => Some((t, i))
    case Cleaning(t, i, _) => Some((t, i))
    case Unlinking(t, i, _) => Some((t, i))
    case _ => None
  }

  // ---------------------------------------------------------------- steps

  datatype Step =
    | Spawn(p: nat)                               // a new process calls `ensure`
    | Crash(p: nat)                               // it dies; nothing is cleaned up
    | PrepareFails(p: nat)                        // the identity or directory checks raise
    | LookForTarget(p: nat)                       // target.exists() or target.is_symlink()
    | OpenTarget(p: nat)                          // _verify: is_symlink, open, fstat
    | ReadPrefix(p: nat)                          // _verify: source.read(4) and the magic check
    | ReadBlock(p: nat, n: nat)                   // _verify: source.read
    | FinishRead(p: nat)                          // _verify: end of file, digest
    | VerifyFails(p: nat)                         // _verify: any OSError
    | CreateTemp(p: nat, temp: nat, inode: nat)   // tempfile.mkstemp
    | CreateFails(p: nat)
    | Receive(p: nat, block: Bytes)               // response.read, digest.update, output.write
    | Exceed(p: nat, block: Bytes)                // more than the pinned size; close flushes what was written
    | FlushSome(p: nat, n: nat)                   // buffered bytes reach the file
    | EndDownload(p: nat)                         // flush, fsync, close
    | DownloadFails(p: nat, n: nat)               // HTTP, deadline or OSError; close flushes up to n bytes
    | CheckDownload(p: nat)                       // size, digest and magic checks
    | CheckFails(p: nat)                          // reopening the temp file raises
    | LinkTarget(p: nat)                          // os.link(temporary, target)
    | LinkFails(p: nat)
    | LookForTemp(p: nat)                         // finally: os.path.exists(temporary)
    | LookForTempFails(p: nat)                    // stat fails and reads as "absent"
    | UnlinkTemp(p: nat)                          // os.unlink(temporary)
    | UnlinkFails(p: nat)

  /** What follows `_verify`. */
  function AfterVerify(mode: Mode, ok: bool): Pc
  {
    match mode
    case Reusing => Done(if ok then Reused else Failed)
    case Publishing(t, i) => Cleaning(t, i, if ok then Downloaded else Failed)
  }

  function At(s: State, p: nat): Pc
  {
    if p in s.procs then s.procs[p] else Crashed
  }

  function Go(s: State, p: nat, pc: Pc): State
  {
    s.(procs := s.procs[p := pc])
  }

  /** The effect of a step, or None when it is not enabled. */
  function Apply(c: Pins, s: State, step: Step): Option<State>
  {
    var pc := At(s, step.p);
    var p := step.p;
    match step
    case Spawn(_) => if p !in s.procs then Some(Go(s, p, Start)) else None
    case Crash(_) =>
      if pc.Done? || pc.Crashed? then None
      else
        var litter := match Owned(pc) case Some(o) => s.litter + {o.0} case None => s.litter;
        Some(Go(s, p, Crashed).(litter := litter))
    case PrepareFails(_) => if pc.Start? then Some(Go(s, p, Done(Failed))) else None
    case LookForTarget(_) =>
      if !pc.Start? || !Approved(c) then None
      else if Target in s.dir then Some(Go(s, p, Opening(Reusing))) else Some(Go(s, p, Creating))
    case OpenTarget(_) =>
      if !pc.Opening? then None
      else if Target !in s.dir || s.dir[Target].Other? || s.dir[Target].inode !in s.content ||
              |s.content[s.dir[Target].inode]| != c.size
      then Some(Go(s, p, AfterVerify(pc.mode, false)))
      else Some(Go(s, p, Reading(pc.mode, s.dir[Target].inode, [])))
    case ReadPrefix(_) =>
      if !pc.Reading? || pc.source !in s.content || pc.got != [] then None
      else if HasMagic(s.content[pc.source]) then Some(Go(s, p, Reading(pc.mode, pc.source, ZIP_MAGIC)))
      else Some(Go(s, p, AfterVerify(pc.mode, false)))
    case ReadBlock(_, n) =>
      if pc.Reading? && pc.got != [] && pc.source in s.content && 0 < n && |pc.got| + n <= |s.content[pc.source]|
      then Some(Go(s, p, Reading(pc.mode, pc.source, pc.got + s.content[pc.source][|pc.got|..|pc.got| + n])))
      else None
    case FinishRead(_) =>
      if pc.Reading? && pc.got != [] && pc.source in s.content && |pc.got| >= |s.content[pc.source]|
      then Some(Go(s, p, AfterVerify(pc.mode, c.sha256(pc.got) == c.digest)))
      else None
    case VerifyFails(_) =>
      if pc.Opening? || pc.Reading? then Some(Go(s, p, AfterVerify(pc.mode, false))) else None
    case CreateTemp(_, t, i) =>
      if pc.Creating? && Temp(t) !in s.dir && i !in s.content
      then Some(Go(s, p, Receiving(t, i, [])).(dir := s.dir[Temp(t) := File(i)], content := s.content[i := []]))
      else None
    case CreateFails(_) => if pc.Creating? then Some(Go(s, p, Done(Failed))) else None
    case Receive(_, block) =>
      if pc.Receiving? && |block| > 0 && |pc.got| + |block| <= c.size
      then Some(Go(s, p, Receiving(pc.temp, pc.inode, pc.got + block)))
      else None
    case Exceed(_, block) =>
      if pc.Receiving? && |pc.got| + |block| > c.size
      then Some(Go(s, p, Cleaning(pc.temp, pc.inode, Failed)).(content := s.content[pc.inode := pc.got]))
      else None
    case FlushSome(_, n) =>
      if pc.Receiving? && pc.inode in s.content && |s.content[pc.inode]| <= n <= |pc.got|
      then Some(s.(content := s.content[pc.inode := pc.got[..n]]))
      else None
    case EndDownload(_) =>
      if pc.Receiving?
      then Some(Go(s, p, Received(pc.temp, pc.inode, pc.got)).(content := s.content[pc.inode := pc.got]))
      else None
    case DownloadFails(_, n) =>
      if pc.Receiving? && pc.inode in s.content && |s.content[pc.inode]| <= n <= |pc.got|
      then Some(Go(s, p, Cleaning(pc.temp, pc.inode, Failed)).(content := s.content[pc.inode := pc.got[..n]]))
      else None
    case CheckDownload(_) =>
      if !pc.Received? || Temp(pc.temp) !in s.dir || s.dir[Temp(pc.temp)].Other? ||
         s.dir[Temp(pc.temp)].inode !in s.content then None
      else
        var file := s.content[s.dir[Temp(pc.temp)].inode];
        if |pc.got| == c.size && c.sha256(pc.got) == c.digest && HasMagic(file)
        then Some(Go(s, p, Linking(pc.temp, pc.inode)))
        else Some(Go(s, p, Cleaning(pc.temp, pc.inode, Failed)))
    case CheckFails(_) =>
      if pc.Received? then Some(Go(s, p, Cleaning(pc.temp, pc.inode, Failed))) else None
    case LinkTarget(_) =>
      if !pc.Linking? || Temp(pc.temp) !in s.dir then None
      else if Target in s.dir then Some(Go(s, p, Cleaning(pc.temp, pc.inode, Failed)))
      else Some(Go(s, p, Opening(Publishing(pc.temp, pc.inode)))
                  .(dir := s.dir[Target := s.dir[Temp(pc.temp)]], publisher := Some(p)))
    case LinkFails(_) => if pc.Linking? then Some(Go(s, p, Cleaning(pc.temp, pc.inode, Failed))) else None
    case LookForTemp(_) =>
      if !pc.Cleaning? then None
      else if Temp(pc.temp) in s.dir then Some(Go(s, p, Unlinking(pc.temp, pc.inode, pc.result)))
      else Some(Go(s, p, Done(pc.result)))
    case LookForTempFails(_) =>
      if pc.Cleaning? then Some(Go(s, p, Done(pc.result)).(litter := s.litter + {pc.temp})) else None
    case UnlinkTemp(_) =>
      if pc.Unlinking? then Some(Go(s, p, Done(pc.result)).(dir := s.dir - {Temp(pc.temp)})) else None
    case UnlinkFails(_) =>
      if pc.Unlinking? then Some(Go(s, p, Done(Failed)).(litter := s.litter + {pc.temp})) else None
  }

  // ---------------------------------------------------------------- invariant

  /** What the target may be, given what it was before the first process started. */
  ghost predicate TargetOk(c: Pins, origin: Option<(Node, Bytes)>, s: State)
  {
    match origin
    case Some(o) =>
      Target in s.dir && s.dir[Target] == o.0 && (o.0.File? ==> o.0.inode in s.content && s.content[o.0.inode] == o.1)
    case None =>
      Target in s.dir ==>
        s.dir[Target].File? && s.dir[Target].inode in s.content && Good(c, s.content[s.dir[Target].inode])
  }

  /** The target is present with exactly the pinned bytes. */
  ghost predicate TargetGood(c: Pins, s: State)
  {
    && Target in s.dir && s.dir[Target].File? && s.dir[Target].inode in s.content
    && Good(c, s.content[s.dir[Target].inode])
  }

  /** The process is past a successful link. */
  predicate Linked(pc: Pc)
  {
    || (pc.Opening? && pc.mode.Publishing?)
    || (pc.Reading? && pc.mode.Publishing?)
    || (pc.Cleaning? && pc.result.Downloaded?)
    || (pc.Unlinking? && pc.result.Downloaded?)
    || (pc.Done? && pc.result.Downloaded?)
  }

  ghost predicate ProcOk(c: Pins, s: State, p: nat)
    requires p in s.procs
  {
    var pc := s.procs[p];
    && (Owned(pc).Some? ==>
          var (t, i) := Owned(pc).value;
          Temp(t) in s.dir && s.dir[Temp(t)] == File(i) && i in s.content)
    && (Linked(pc) ==> s.publisher == Some(p))
    && match pc
       case Reading(_, i, got) =>
         Target in s.dir && s.dir[Target] == File(i) && i in s.content && |s.content[i]| == c.size && got <= s.content[i] &&
         (got != [] ==> HasMagic(got))
       case Receiving(_, i, got) =>
         |got| <= c.size && s.content[i] <= got && (Target in s.dir ==> s.dir[Target] != File(i))
       case Received(_, i, got) => s.content[i] == got && (Target in s.dir ==> s.dir[Target] != File(i))
       case Linking(_, i) => Good(c, s.content[i]) && (Target in s.dir ==> s.dir[Target] != File(i))
       case Cleaning(_, _, r) => (r == Downloaded ==> TargetGood(c, s)) && r != Reused
       case Unlinking(_, _, r) => (r == Downloaded ==> TargetGood(c, s)) && r != Reused
       case Done(r) => r != Failed ==> TargetGood(c, s)
       case _ => true
  }

  ghost predicate Separate(s: State, p: nat, q: nat)
    requires p in s.procs && q in s.procs
  {
    Owned(s.procs[p]).Some? && Owned(s.procs[q]).Some? ==>
      Owned(s.procs[p]).value.0 != Owned(s.procs[q]).value.0 && Owned(s.procs[p]).value.1 != Owned(s.procs[q]).value.1
  }

  ghost predicate Accounted(s: State, t: nat)
  {
    t in s.litter || exists p :: p in s.procs && Owned(s.procs[p]).Some? && Owned(s.procs[p]).value.0 == t
  }

  ghost predicate Inv(c: Pins, origin: Option<(Node, Bytes)>, s: State)
  {
    && TargetOk(c, origin, s)
    && (forall n :: n in s.dir && s.dir[n].File? ==> s.dir[n].inode in s.content)
    && (s.publisher.Some? ==> origin.None? && Target in s.dir)
    && (forall p :: p in s.procs ==> ProcOk(c, s, p))
    && (forall p, q :: p in s.procs && q in s.procs && p != q ==> Separate(s, p, q))
    && (forall t :: Temp(t) in s.dir ==> Accounted(s, t))
  }

  /** Before the first process: any directory, nothing running. Old temp names count as litter. */
  ghost predicate Init(c: Pins, origin: Option<(Node, Bytes)>, s: State)
  {
    && s.procs == map[] && s.publisher == None
    && (forall n :: n in s.dir && s.dir[n].File? ==> s.dir[n].inode in s.content)
    && (origin == if Target !in s.dir then None
                  else Some((s.dir[Target], if s.dir[Target].File? then s.content[s.dir[Target].inode] else [])))
    && (forall t :: Temp(t) in s.dir ==> t in s.litter)
  }

  lemma InitInv(c: Pins, origin: Option<(Node, Bytes)>, s: State)
    requires Init(c, origin, s)
    ensures Inv(c, origin, s)
  {
  }

  // ---------------------------------------------------------------- every step keeps it

  /** A temp name stays accounted for when its owner keeps it or it becomes litter. */
  lemma StaysAccounted(s: State, s': State, t: nat)
    requires Accounted(s, t) && s.litter <= s'.litter
    requires forall q :: q in s.procs && Owned(s.procs[q]).Some? && Owned(s.procs[q]).value.0 == t ==>
               t in s'.litter || (q in s'.procs && Owned(s'.procs[q]) == Owned(s.procs[q]))
    ensures Accounted(s', t)
  {
    if t !in s'.litter {
      var q :| q in s.procs && Owned(s.procs[q]).Some? && Owned(s.procs[q]).value.0 == t;
      assert q in s'.procs && Owned(s'.procs[q]).Some?;
    }
  }

  /** A process moves on without touching directory or contents. */
  lemma MoveKeeps(c: Pins, origin: Option<(Node, Bytes)>, s: State, p: nat, pc: Pc, litter: set<nat>)
    requires Inv(c, origin, s) && s.litter <= litter
    requires p !in s.procs ==> Owned(pc).None?
    requires p in s.procs && Owned(pc) != Owned(s.procs[p]) ==>
               Owned(pc).None? && Owned(s.procs[p]).Some? && Owned(s.procs[p]).value.0 in litter
    requires ProcOk(c, Go(s, p, pc).(litter := litter), p)
    ensures Inv(c, origin, Go(s, p, pc).(litter := litter))
  {
    var s' := Go(s, p, pc).(litter := litter);
    forall q | q in s'.procs ensures ProcOk(c, s', q) {
      assert q != p ==> ProcOk(c, s, q);
    }
    forall q, r | q in s'.procs && r in s'.procs && q != r ensures Separate(s', q, r) {
      if q != p && r != p { assert Separate(s, q, r); }
      else if q == p && p in s.procs { assert Separate(s, p, r); }
      else if p in s.procs { assert Separate(s, q, p); }
    }
    forall t | Temp(t) in s'.dir ensures Accounted(s', t) {
      StaysAccounted(s, s', t);
    }
  }

  /** The owner of an unlinked inode writes to it. */
  lemma WriteKeeps(c: Pins, origin: Option<(Node, Bytes)>, s: State, p: nat, pc: Pc, i: nat, bytes: Bytes)
    requires Inv(c, origin, s) && p in s.procs && s.procs[p].Receiving? && s.procs[p].inode == i
    requires Owned(pc) == Owned(s.procs[p])
    requires ProcOk(c, Go(s, p, pc).(content := s.content[i := bytes]), p)
    ensures Inv(c, origin, Go(s, p, pc).(content := s.content[i := bytes]))
  {
    var s' := Go(s, p, pc).(content := s.content[i := bytes]);
    assert ProcOk(c, s, p);
    assert Target in s.dir ==> s.dir[Target] != File(i);
    forall q | q in s'.procs ensures ProcOk(c, s', q) {
      if q != p {
        assert ProcOk(c, s, q);
        assert Separate(s, p, q);
      }
    }
    forall q, r | q in s'.procs && r in s'.procs && q != r ensures Separate(s', q, r) {
      assert Separate(s, q, r);
    }
    forall t | Temp(t) in s'.dir ensures Accounted(s', t) {
      StaysAccounted(s, s', t);
    }
  }

  lemma CreateKeeps(c: Pins, origin: Option<(Node, Bytes)>, s: State, p: nat, t: nat, i: nat)
    requires Inv(c, origin, s) && At(s, p).Creating? && Temp(t) !in s.dir && i !in s.content
    ensures Inv(c, origin, Go(s, p, Receiving(t, i, [])).(dir := s.dir[Temp(t) := File(i)], content := s.content[i := []]))
  {
    var s' := Go(s, p, Receiving(t, i, [])).(dir := s.dir[Temp(t) := File(i)], content := s.content[i := []]);
    forall q | q in s'.procs ensures ProcOk(c, s', q) {
      if q != p {
        assert ProcOk(c, s, q);
      }
    }
    forall q, r | q in s'.procs && r in s'.procs && q != r ensures Separate(s', q, r) {
      if q != p { assert ProcOk(c, s, q); }
      if r != p { assert ProcOk(c, s, r); }
      if q != p && r != p { assert Separate(s, q, r); }
    }
    forall t' | Temp(t') in s'.dir ensures Accounted(s', t') {
      if t' == t {
        assert p in s'.procs && Owned(s'.procs[p]).value.0 == t;
      } else {
        StaysAccounted(s, s', t');
      }
    }
  }

  lemma LinkKeeps(c: Pins, origin: Option<(Node, Bytes)>, s: State, p: nat, t: nat, i: nat)
    requires Inv(c, origin, s) && At(s, p) == Linking(t, i) && Temp(t) in s.dir && Target !in s.dir
    ensures Inv(c, origin, Go(s, p, Opening(Publishing(t, i))).(dir := s.dir[Target := s.dir[Temp(t)]], publisher := Some(p)))
  {
    var s' := Go(s, p, Opening(Publishing(t, i))).(dir := s.dir[Target := s.dir[Temp(t)]], publisher := Some(p));
    assert ProcOk(c, s, p);
    forall q | q in s'.procs ensures ProcOk(c, s', q) {
      if q != p {
        assert ProcOk(c, s, q);
        assert Separate(s, p, q);
      }
    }
    forall q, r | q in s'.procs && r in s'.procs && q != r ensures Separate(s', q, r) {
      assert Separate(s, q, r);
    }
    forall t' | Temp(t') in s'.dir ensures Accounted(s', t') {
      StaysAccounted(s, s', t');
    }
  }

  lemma UnlinkKeeps(c: Pins, origin: Option<(Node, Bytes)>, s: State, p: nat, t: nat, i: nat, r: Result)
    requires Inv(c, origin, s) && At(s, p) == Unlinking(t, i, r)
    ensures Inv(c, origin, Go(s, p, Done(r)).(dir := s.dir - {Temp(t)}))
  {
    var s' := Go(s, p, Done(r)).(dir := s.dir - {Temp(t)});
    assert ProcOk(c, s, p);
    forall q | q in s'.procs ensures ProcOk(c, s', q) {
      if q != p {
        assert ProcOk(c, s, q);
        assert Separate(s, p, q);
      }
    }
    forall q, r | q in s'.procs && r in s'.procs && q != r ensures Separate(s', q, r) {
      assert Separate(s, q, r);
    }
    forall t' | Temp(t') in s'.dir ensures Accounted(s', t') {
      StaysAccounted(s, s', t');
    }
  }

  ghost predicate Next(c: Pins, s: State, s': State)
  {
    exists step :: Apply(c, s, step) == Some(s')
  }

  lemma ReadStepKeeps(c: Pins, origin: Option<(Node, Bytes)>, s: State, step: Step, s': State)
    requires Inv(c, origin, s) && Apply(c, s, step) == Some(s')
    requires step.OpenTarget? || step.ReadPrefix? || step.ReadBlock? || step.VerifyFails?
    ensures Inv(c, origin, s')
  {
    var p := step.p;
    assert ProcOk(c, s, p);
    assert s' == Go(s, p, s'.procs[p]).(litter := s.litter);
    MoveKeeps(c, origin, s, p, s'.procs[p], s.litter);
  }

  lemma FinishReadKeeps(c: Pins, origin: Option<(Node, Bytes)>, s: State, p: nat, s': State)
    requires Inv(c, origin, s) && Apply(c, s, FinishRead(p)) == Some(s')
    ensures Inv(c, origin, s')
  {
    assert ProcOk(c, s, p);
    var pc := s.procs[p];
    assert pc.got == s.content[pc.source];
    assert s' == Go(s, p, s'.procs[p]).(litter := s.litter);
    MoveKeeps(c, origin, s, p, s'.procs[p], s.litter);
  }

  lemma EntryStepKeeps(c: Pins, origin: Option<(Node, Bytes)>, s: State, step: Step, s': State)
    requires Inv(c, origin, s) && Apply(c, s, step) == Some(s')
    requires step.Spawn? || step.Crash? || step.PrepareFails? || step.LookForTarget? || step.CreateFails?
    ensures Inv(c, origin, s')
  {
    var p := step.p;
    if p in s.procs { assert ProcOk(c, s, p); }
    assert s' == Go(s, p, s'.procs[p]).(litter := s'.litter);
    MoveKeeps(c, origin, s, p, s'.procs[p], s'.litter);
  }

  lemma CheckStepKeeps(c: Pins, origin: Option<(Node, Bytes)>, s: State, step: Step, s': State)
    requires Inv(c, origin, s) && Apply(c, s, step) == Some(s')
    requires step.Receive? || step.CheckDownload? || step.CheckFails? || step.LinkFails?
    ensures Inv(c, origin, s')
  {
    var p := step.p;
    assert ProcOk(c, s, p);
    assert s' == Go(s, p, s'.procs[p]).(litter := s.litter);
    MoveKeeps(c, origin, s, p, s'.procs[p], s.litter);
  }

  lemma CleanupStepKeeps(c: Pins, origin: Option<(Node, Bytes)>, s: State, step: Step, s': State)
    requires Inv(c, origin, s) && Apply(c, s, step) == Some(s')
    requires step.LookForTemp? || step.LookForTempFails? || step.UnlinkFails?
    ensures Inv(c, origin, s')
  {
    var p := step.p;
    assert ProcOk(c, s, p);
    assert s' == Go(s, p, s'.procs[p]).(litter := s'.litter);
    MoveKeeps(c, origin, s, p, s'.procs[p], s'.litter);
  }

  lemma WriteStepKeeps(c: Pins, origin: Option<(Node, Bytes)>, s: State, step: Step, s': State)
    requires Inv(c, origin, s) && Apply(c, s, step) == Some(s')
    requires WriteStep(step)
    ensures Inv(c, origin, s')
  {
    var p, pc := step.p, At(s, step.p);
    assert ProcOk(c, s, p);
    var bytes := if step.EndDownload? || step.Exceed? then pc.got else pc.got[..step.n];
    var pc' := if step.FlushSome? then pc else s'.procs[p];
    assert s' == Go(s, p, pc').(content := s.content[pc.inode := bytes]);
    WriteKeeps(c, origin, s, p, pc', pc.inode, bytes);
  }

  lemma LinkStepKeeps(c: Pins, origin: Option<(Node, Bytes)>, s: State, p: nat, s': State)
    requires Inv(c, origin, s) && Apply(c, s, LinkTarget(p)) == Some(s')
    ensures Inv(c, origin, s')
  {
    assert ProcOk(c, s, p);
    if Target !in s.dir {
      LinkKeeps(c, origin, s, p, s.procs[p].temp, s.procs[p].inode);
    } else {
      assert s' == Go(s, p, s'.procs[p]).(litter := s.litter);
      MoveKeeps(c, origin, s, p, s'.procs[p], s.litter);
    }
  }

  /** Every step of every process keeps the invariant. */
  lemma StepKeeps(c: Pins, origin: Option<(Node, Bytes)>, s: State, step: Step, s': State)
    requires Inv(c, origin, s) && Apply(c, s, step) == Some(s')
    ensures Inv(c, origin, s')
  {
    match step
    case CreateTemp(p, t, i) => CreateKeeps(c, origin, s, p, t, i);
    case UnlinkTemp(p) =>
      var pc := At(s, p);
      UnlinkKeeps(c, origin, s, p, pc.temp, pc.inode, pc.result);
    case LinkTarget(p) => LinkStepKeeps(c, origin, s, p, s');
    case FlushSome(_, _) => WriteStepKeeps(c, origin, s, step, s');
    case EndDownload(_) => WriteStepKeeps(c, origin, s, step, s');
    case DownloadFails(_, _) => WriteStepKeeps(c, origin, s, step, s');
    case OpenTarget(_) => ReadStepKeeps(c, origin, s, step, s');
    case ReadPrefix(_) => ReadStepKeeps(c, origin, s, step, s');
    case ReadBlock(_, _) => ReadStepKeeps(c, origin, s, step, s');
    case FinishRead(p) => FinishReadKeeps(c, origin, s, p, s');
    case VerifyFails(_) => ReadStepKeeps(c, origin, s, step, s');
    case Spawn(_) => EntryStepKeeps(c, origin, s, step, s');
    case Crash(_) => EntryStepKeeps(c, origin, s, step, s');
    case PrepareFails(_) => EntryStepKeeps(c, origin, s, step, s');
    case LookForTarget(_) => EntryStepKeeps(c, origin, s, step, s');
    case CreateFails(_) => EntryStepKeeps(c, origin, s, step, s');
    case Exceed(_, _) => WriteStepKeeps(c, origin, s, step, s');
    case Receive(_, _) => CheckStepKeeps(c, origin, s, step, s');
    case CheckDownload(_) => CheckStepKeeps(c, origin, s, step, s');
    case CheckFails(_) => CheckStepKeeps(c, origin, s, step, s');
    case LinkFails(_) => CheckStepKeeps(c, origin, s, step, s');
    case LookForTemp(_) => CleanupStepKeeps(c, origin, s, step, s');
    case LookForTempFails(_) => CleanupStepKeeps(c, origin, s, step, s');
    case UnlinkFails(_) => CleanupStepKeeps(c, origin, s, step, s');
  }

  /** A present target keeps its entry and its bytes in every step. */
  lemma TargetIsStable(c: Pins, origin: Option<(Node, Bytes)>, s: State, step: Step, s': State)
    requires Inv(c, origin, s) && Apply(c, s, step) == Some(s') && Target in s.dir
    ensures Target in s'.dir && s'.dir[Target] == s.dir[Target]
    ensures s.dir[Target].File? ==>
              s'.dir[Target].inode in s'.content &&
              s'.content[s'.dir[Target].inode] == s.content[s.dir[Target].inode]
  {
    KeepsTargetEntry(c, s, step, s');
    if s.dir[Target].File? {
      WritesOwnInode(c, s, step, s', s.dir[Target].inode);
      if step.p in s.procs {
        assert ProcOk(c, s, step.p);
      }
    }
  }

  lemma KeepsTargetEntry(c: Pins, s: State, step: Step, s': State)
    requires Apply(c, s, step) == Some(s') && Target in s.dir
    ensures Target in s'.dir && s'.dir[Target] == s.dir[Target]
  {
  }

  predicate WriteStep(step: Step)
  {
    step.FlushSome? || step.EndDownload? || step.DownloadFails? || step.Exceed?
  }

  /** A step writes at most the temporary file of its process. */
  lemma WritesOwnInode(c: Pins, s: State, step: Step, s': State, i: nat)
    requires Apply(c, s, step) == Some(s') && i in s.content
    ensures i in s'.content
    ensures s'.content[i] == s.content[i] || (At(s, step.p).Receiving? && At(s, step.p).inode == i)
  {
    if !WriteStep(step) && !step.CreateTemp? {
      OtherStepsWriteNothing(c, s, step, s');
    }
  }

  lemma OtherStepsWriteNothing(c: Pins, s: State, step: Step, s': State)
    requires Apply(c, s, step) == Some(s') && !WriteStep(step) && !step.CreateTemp?
    ensures s'.content == s.content
  {
  }

  // ---------------------------------------------------------------- whole runs

  /** An interleaving of any number of processes, with failures and crashes anywhere. */
  ghost predicate Execution(c: Pins, origin: Option<(Node, Bytes)>, run: seq<State>)
  {
    && |run| > 0 && Init(c, origin, run[0])
    && forall i :: 0 <= i < |run| - 1 ==> Moves(c, run, i)
  }

  ghost predicate Moves(c: Pins, run: seq<State>, i: nat)
    requires i + 1 < |run|
  {
    Next(c, run[i], run[i + 1])
  }

  lemma {:induction false} ExecutionInv(c: Pins, origin: Option<(Node, Bytes)>, run: seq<State>, i: nat)
    requires Execution(c, origin, run) && i < |run|
    ensures Inv(c, origin, run[i])
  {
    if i == 0 {
      InitInv(c, origin, run[0]);
    } else {
      ExecutionInv(c, origin, run, i - 1);
      assert Moves(c, run, i - 1);
      var step :| Apply(c, run[i - 1], step) == Some(run[i]);
      StepKeeps(c, origin, run[i - 1], step, run[i]);
    }
  }

  /** The content behind the target name. */
  ghost function TargetBytes(s: State): Bytes
  {
    if Target in s.dir && s.dir[Target].File? && s.dir[Target].inode in s.content
    then s.content[s.dir[Target].inode] else []
  }

  /** Safety over whole runs: the target is absent, or untouched since before the first process,
      or exactly the pinned bytes; once present it never changes again. */
  lemma {:induction false} TargetNeverChanges(c: Pins, origin: Option<(Node, Bytes)>, run: seq<State>, i: nat, j: nat)
    requires Execution(c, origin, run) && i <= j < |run|
    ensures Target in run[i].dir ==>
              && Target in run[j].dir && run[j].dir[Target] == run[i].dir[Target]
              && TargetBytes(run[j]) == TargetBytes(run[i])
    ensures origin.None? && Target in run[i].dir ==> Good(c, TargetBytes(run[i]))
    decreases j
  {
    ExecutionInv(c, origin, run, i);
    if i < j {
      TargetNeverChanges(c, origin, run, i, j - 1);
      ExecutionInv(c, origin, run, j - 1);
      assert Moves(c, run, j - 1);
      var step :| Apply(c, run[j - 1], step) == Some(run[j]);
      if Target in run[j - 1].dir {
        TargetIsStable(c, origin, run[j - 1], step, run[j]);
      }
    }
  }

  /** A successful answer, "reused" or "downloaded", still describes the target at every later
      point of the run. */
  lemma SuccessMeansPinnedBytes(c: Pins, origin: Option<(Node, Bytes)>, run: seq<State>, i: nat, j: nat, p: nat)
    requires Execution(c, origin, run) && i <= j < |run| && p in run[i].procs
    requires run[i].procs[p] == Done(Reused) || run[i].procs[p] == Done(Downloaded)
    ensures Target in run[j].dir && Good(c, TargetBytes(run[j]))
  {
    ExecutionInv(c, origin, run, i);
    assert ProcOk(c, run[i], p);
    TargetNeverChanges(c, origin, run, i, j);
  }

  /** At most one process downloads the archive into place, and only when it was absent. */
  lemma AtMostOneDownloads(c: Pins, origin: Option<(Node, Bytes)>, run: seq<State>, i: nat, p: nat, q: nat)
    requires Execution(c, origin, run) && i < |run| && p in run[i].procs && q in run[i].procs
    requires run[i].procs[p] == Done(Downloaded) && run[i].procs[q] == Done(Downloaded)
    ensures p == q && origin.None?
  {
    ExecutionInv(c, origin, run, i);
    assert ProcOk(c, run[i], p) && ProcOk(c, run[i], q);
  }

  /** No process is still writing the inode that the target names. */
  lemma NobodyWritesTheTarget(c: Pins, origin: Option<(Node, Bytes)>, run: seq<State>, i: nat, p: nat)
    requires Execution(c, origin, run) && i < |run| && p in run[i].procs
    requires run[i].procs[p].Receiving?
    ensures Target in run[i].dir ==> run[i].dir[Target] != File(run[i].procs[p].inode)
  {
    ExecutionInv(c, origin, run, i);
    assert ProcOk(c, run[i], p);
  }

  /** Once every process has returned, the temp names left are those of crashes, of cleanups
      that failed, and of earlier runs. */
  lemma OnlyLitterRemains(c: Pins, origin: Option<(Node, Bytes)>, run: seq<State>, i: nat, t: nat)
    requires Execution(c, origin, run) && i < |run|
    requires forall p :: p in run[i].procs ==> run[i].procs[p].Done? || run[i].procs[p].Crashed?
    requires Temp(t) in run[i].dir
    ensures t in run[i].litter
  {
    ExecutionInv(c, origin, run, i);
    assert Accounted(run[i], t);
  }

  /** Litter grows only by a crash or by a cleanup whose stat or unlink failed. */
  lemma LitterGrowsOnlyByFailure(c: Pins, s: State, step: Step, s': State)
    requires Apply(c, s, step) == Some(s') && s'.litter != s.litter
    ensures step.Crash? || step.LookForTempFails? || step.UnlinkFails?
    ensures Owned(At(s, step.p)).Some? && s'.litter == s.litter + {Owned(At(s, step.p)).value.0}
  {
  }

  predicate CleanupStep(step: Step)
  {
    step.LookForTemp? || step.LookForTempFails? || step.UnlinkTemp? || step.UnlinkFails?
  }

  /** A process that owns a temp name returns only from the cleanup. */
  lemma ReturnsFromCleanup(c: Pins, s: State, step: Step, s': State)
    requires Apply(c, s, step) == Some(s') && Owned(At(s, step.p)).Some? && At(s', step.p).Done?
    ensures CleanupStep(step)
  {
    if step.OpenTarget? || step.ReadPrefix? || step.ReadBlock? || step.FinishRead? || step.VerifyFails? {
      VerifyNeverReturns(c, s, step, s');
    }
  }

  lemma VerifyNeverReturns(c: Pins, s: State, step: Step, s': State)
    requires Apply(c, s, step) == Some(s') && Owned(At(s, step.p)).Some?
    requires step.OpenTarget? || step.ReadPrefix? || step.ReadBlock? || step.FinishRead? || step.VerifyFails?
    ensures !At(s', step.p).Done?
  {
  }

  /** Leaving the cleanup removes the process's own temp name exactly if neither the stat nor the
      unlink failed. */
  lemma CleanExitRemovesTemp(c: Pins, origin: Option<(Node, Bytes)>, s: State, step: Step, s': State)
    requires Inv(c, origin, s) && Apply(c, s, step) == Some(s')
    requires Owned(At(s, step.p)).Some? && At(s', step.p).Done?
    ensures Temp(Owned(At(s, step.p)).value.0) !in s'.dir <==> !step.LookForTempFails? && !step.UnlinkFails?
  {
    ReturnsFromCleanup(c, s, step, s');
    if step.LookForTemp? || step.UnlinkTemp? {
      TempRemoved(c, s, step, s');
    } else {
      assert ProcOk(c, s, step.p);
      TempStays(c, s, step, s');
    }
  }

  lemma TempStays(c: Pins, s: State, step: Step, s': State)
    requires Apply(c, s, step) == Some(s') && step.p in s.procs && ProcOk(c, s, step.p)
    requires step.LookForTempFails? || step.UnlinkFails?
    ensures Owned(s.procs[step.p]).Some? && Temp(Owned(s.procs[step.p]).value.0) in s'.dir
  {
  }

  lemma TempRemoved(c: Pins, s: State, step: Step, s': State)
    requires Apply(c, s, step) == Some(s') && Owned(At(s, step.p)).Some? && At(s', step.p).Done?
    requires step.LookForTemp? || step.UnlinkTemp?
    ensures Temp(Owned(At(s, step.p)).value.0) !in s'.dir
  {
  }

  // ---------------------------------------------------------------- verdicts

  /** What `_verify` leads to when no call fails: the archive is accepted exactly if it is good. */
  function Verdict(mode: Mode, good: bool): Pc
  {
    match mode
    case Reusing => Done(if good then Reused else Failed)
    case Publishing(t, i) => Cleaning(t, i, if good then Downloaded else Failed)
  }

  function ModeOf(pc: Pc): Mode
    requires pc.Opening? || pc.Reading?
  {
    pc.mode
  }

  /** A present target is verified, never downloaded again. */
  lemma PresentTargetIsVerified(c: Pins, s: State, p: nat, s': State)
    requires Apply(c, s, LookForTarget(p)) == Some(s')
    ensures At(s', p) == if Target in s.dir then Opening(Reusing) else Creating
  {
  }

  /** Every verification step either goes on reading, in the same mode, or gives the right verdict;
      the last one gives it. */
  lemma VerifyIsExact(c: Pins, origin: Option<(Node, Bytes)>, s: State, step: Step, s': State)
    requires Inv(c, origin, s) && Apply(c, s, step) == Some(s')
    requires step.OpenTarget? || step.ReadPrefix? || step.ReadBlock? || step.FinishRead?
    ensures var mode := ModeOf(At(s, step.p));
            || (!step.FinishRead? && At(s', step.p).Reading? && At(s', step.p).mode == mode)
            || At(s', step.p) == Verdict(mode, TargetGood(c, s))
  {
    assert ProcOk(c, s, step.p);
    var pc := s.procs[step.p];
    if step.FinishRead? {
      assert pc.got == s.content[pc.source];
    }
  }

  // ---------------------------------------------------------------- runs that leave the temp name

  /** A run from the empty directory that ends in s. */
  ghost predicate Reachable(c: Pins, s: State)
  {
    exists run :: Execution(c, None, run) && run[|run| - 1] == s
  }

  lemma OneStep(c: Pins, s: State, step: Step) returns (s': State)
    requires Reachable(c, s) && Apply(c, s, step).Some?
    ensures Reachable(c, s') && s' == Apply(c, s, step).value
  {
    s' := Apply(c, s, step).value;
    var run :| Execution(c, None, run) && run[|run| - 1] == s;
    var more := run + [s'];
    forall i | 0 <= i < |more| - 1 ensures Moves(c, more, i) {
      assert i < |run| - 1 ==> Moves(c, run, i);
    }
    assert Execution(c, None, more) && more[|more| - 1] == s';
  }

  /** The only process stands at pc and owns temp name 0, whose file holds the bytes. */
  predicate HasTemp(s: State, pc: Pc, bytes: Bytes)
  {
    && s.procs.Keys == {0} && At(s, 0) == pc && Temp(0) in s.dir && s.dir[Temp(0)] == File(0)
    && 0 in s.content && s.content[0] == bytes
  }

  predicate HasTarget(s: State, pc: Pc, bytes: Bytes)
  {
    HasTemp(s, pc, bytes) && Target in s.dir && s.dir[Target] == File(0)
  }

  lemma StartedRun(c: Pins) returns (s: State)
    ensures Reachable(c, s) && s.procs == map[0 := Start] && s.dir == map[] && s.content == map[]
  {
    s := State(map[], map[], map[], None, {});
    assert Execution(c, None, [s]) && [s][|[s]| - 1] == s;
    s := OneStep(c, s, Spawn(0));
  }

  lemma MissingRun(c: Pins) returns (s: State)
    requires Approved(c)
    ensures Reachable(c, s) && s.procs == map[0 := Creating] && s.dir == map[] && s.content == map[]
  {
    s := StartedRun(c);
    s := OneStep(c, s, LookForTarget(0));
  }

  lemma CreatingRun(c: Pins) returns (s: State)
    requires Approved(c)
    ensures Reachable(c, s) && HasTemp(s, Receiving(0, 0, []), []) && Target !in s.dir
  {
    s := MissingRun(c);
    s := OneStep(c, s, CreateTemp(0, 0, 0));
  }

  lemma WrittenRun(c: Pins, bytes: Bytes) returns (s: State)
    requires Approved(c) && Good(c, bytes)
    ensures Reachable(c, s) && HasTemp(s, Received(0, 0, bytes), bytes) && Target !in s.dir
  {
    s := CreatingRun(c);
    s := OneStep(c, s, Receive(0, bytes));
    assert HasTemp(s, Receiving(0, 0, bytes), []);
    s := OneStep(c, s, EndDownload(0));
  }

  lemma CheckedRun(c: Pins, bytes: Bytes) returns (s: State)
    requires Approved(c) && Good(c, bytes)
    ensures Reachable(c, s) && HasTemp(s, Linking(0, 0), bytes) && Target !in s.dir
  {
    s := WrittenRun(c, bytes);
    s := OneStep(c, s, CheckDownload(0));
  }

  /** The download of the pinned bytes, up to the link. */
  lemma DownloadRun(c: Pins, bytes: Bytes) returns (s: State)
    requires Approved(c) && Good(c, bytes)
    ensures Reachable(c, s) && HasTarget(s, Opening(Publishing(0, 0)), bytes)
  {
    s := CheckedRun(c, bytes);
    s := OneStep(c, s, LinkTarget(0));
  }

  lemma OpenedRun(c: Pins, bytes: Bytes) returns (s: State)
    requires Approved(c) && Good(c, bytes)
    ensures Reachable(c, s) && HasTarget(s, Reading(Publishing(0, 0), 0, ZIP_MAGIC), bytes)
  {
    s := DownloadRun(c, bytes);
    s := OneStep(c, s, OpenTarget(0));
    assert HasTarget(s, Reading(Publishing(0, 0), 0, []), bytes);
    s := OneStep(c, s, ReadPrefix(0));
  }

  lemma ReadRun(c: Pins, bytes: Bytes) returns (s: State)
    requires Approved(c) && Good(c, bytes)
    ensures Reachable(c, s) && HasTarget(s, Reading(Publishing(0, 0), 0, bytes), bytes)
  {
    s := OpenedRun(c, bytes);
    assert bytes == ZIP_MAGIC + bytes[4..];
    if |bytes| > 4 {
      s := OneStep(c, s, ReadBlock(0, |bytes| - 4));
    }
  }

  /** The verification of the linked bytes, up to the cleanup. */
  lemma PublishedRun(c: Pins, bytes: Bytes) returns (s: State)
    requires Approved(c) && Good(c, bytes)
    ensures Reachable(c, s) && HasTarget(s, Cleaning(0, 0, Downloaded), bytes)
  {
    s := ReadRun(c, bytes);
    s := OneStep(c, s, FinishRead(0));
  }

  /** For every pinned archive there is a run in which the download succeeds and its temp name
      stays, because the stat of the cleanup failed. */
  lemma StatFailureLeavesTemp(c: Pins, bytes: Bytes) returns (s: State)
    requires Approved(c) && Good(c, bytes)
    ensures Reachable(c, s) && At(s, 0) == Done(Downloaded) && Temp(0) in s.dir
  {
    s := PublishedRun(c, bytes);
    s := OneStep(c, s, LookForTempFails(0));
  }

  /** And one in which it stays because the unlink failed: published, but the call raises. */
  lemma UnlinkFailureLeavesTemp(c: Pins, bytes: Bytes) returns (s: State)
    requires Approved(c) && Good(c, bytes)
    ensures Reachable(c, s) && At(s, 0) == Done(Failed) && Temp(0) in s.dir && Target in s.dir
  {
    s := PublishedRun(c, bytes);
    s := OneStep(c, s, LookForTemp(0));
    assert HasTarget(s, Unlinking(0, 0, Downloaded), bytes);
    s := OneStep(c, s, UnlinkFails(0));
  }

  /** Process p stands at pc, and the target holds the bytes. */
  predicate HasTargetFor(s: State, p: nat, pc: Pc, inode: nat, bytes: Bytes)
  {
    At(s, p) == pc && Target in s.dir && s.dir[Target] == File(inode) && inode in s.content && s.content[inode] == bytes
  }

  /** Nothing but the state of process p differs. */
  predicate OnlyMoves(s: State, s': State, p: nat)
  {
    p in s'.procs && s' == Go(s, p, s'.procs[p])
  }

  lemma OpenedFor(c: Pins, s: State, p: nat, inode: nat, bytes: Bytes) returns (s': State)
    requires Reachable(c, s) && Good(c, bytes) && HasTargetFor(s, p, Opening(Reusing), inode, bytes)
    ensures Reachable(c, s') && HasTargetFor(s', p, Reading(Reusing, inode, ZIP_MAGIC), inode, bytes)
    ensures OnlyMoves(s, s', p)
  {
    var entered := OneStep(c, s, OpenTarget(p));
    assert HasTargetFor(entered, p, Reading(Reusing, inode, []), inode, bytes);
    s' := OneStep(c, entered, ReadPrefix(p));
  }

  lemma ReadFor(c: Pins, s: State, p: nat, inode: nat, bytes: Bytes) returns (s': State)
    requires Reachable(c, s) && Good(c, bytes)
    requires HasTargetFor(s, p, Reading(Reusing, inode, ZIP_MAGIC), inode, bytes)
    ensures Reachable(c, s') && HasTargetFor(s', p, Reading(Reusing, inode, bytes), inode, bytes)
    ensures OnlyMoves(s, s', p)
  {
    s' := s;
    assert bytes == ZIP_MAGIC + bytes[4..];
    if |bytes| > 4 {
      s' := OneStep(c, s, ReadBlock(p, |bytes| - 4));
    }
  }

  lemma FinishedFor(c: Pins, s: State, p: nat, inode: nat, bytes: Bytes) returns (s': State)
    requires Reachable(c, s) && Good(c, bytes)
    requires HasTargetFor(s, p, Reading(Reusing, inode, bytes), inode, bytes)
    ensures Reachable(c, s') && At(s', p) == Done(Reused) && OnlyMoves(s, s', p)
  {
    s' := OneStep(c, s, FinishRead(p));
  }

  /** From every reachable state with a good target, a call that meets no failure reuses it, and
      changes neither the directory nor any other process. */
  lemma GoodTargetIsReused(c: Pins, s: State, p: nat) returns (s': State)
    requires Reachable(c, s) && Approved(c) && TargetGood(c, s) && At(s, p) == Start
    ensures Reachable(c, s') && At(s', p) == Done(Reused) && OnlyMoves(s, s', p)
  {
    var inode := s.dir[Target].inode;
    var bytes := s.content[inode];
    s' := OneStep(c, s, LookForTarget(p));
    s' := OpenedFor(c, s', p, inode, bytes);
    s' := ReadFor(c, s', p, inode, bytes);
    s' := FinishedFor(c, s', p, inode, bytes);
  }

  /** The first call downloads and cleans up. */
  lemma DownloadedRun(c: Pins, bytes: Bytes) returns (s: State)
    requires Approved(c) && Good(c, bytes)
    ensures Reachable(c, s) && s.procs == map[0 := Done(Downloaded)] && Temp(0) !in s.dir && TargetGood(c, s)
  {
    s := PublishedRun(c, bytes);
    s := OneStep(c, s, LookForTemp(0));
    assert HasTarget(s, Unlinking(0, 0, Downloaded), bytes);
    s := OneStep(c, s, UnlinkTemp(0));
  }

  /** For every pinned archive there is a run in which the first call downloads it, the second
      one reuses it, and no temp name is left. */
  lemma SecondCallReuses(c: Pins, bytes: Bytes) returns (s: State)
    requires Approved(c) && Good(c, bytes)
    ensures Reachable(c, s) && s.procs == map[0 := Done(Downloaded), 1 := Done(Reused)] && Temp(0) !in s.dir
  {
    var downloaded := DownloadedRun(c, bytes);
    var spawned := OneStep(c, downloaded, Spawn(1));
    assert TargetGood(c, spawned) && At(spawned, 1) == Start;
    s := GoodTargetIsReused(c, spawned, 1);
  }

  /** The check of the freshly linked target can only fail by a system error, never because the
      bytes are wrong. */
  lemma PublishedBytesVerify(c: Pins, origin: Option<(Node, Bytes)>, s: State, p: nat, s': State)
    requires Inv(c, origin, s) && p in s.procs && Linked(s.procs[p])
    requires Apply(c, s, OpenTarget(p)) == Some(s') || Apply(c, s, ReadPrefix(p)) == Some(s') ||
             Apply(c, s, FinishRead(p)) == Some(s')
    ensures s'.procs[p].Reading? || (s'.procs[p].Cleaning? && s'.procs[p].result == Downloaded)
  {
    assert ProcOk(c, s, p);
    if Apply(c, s, FinishRead(p)) == Some(s') {
      assert s.procs[p].got == s.content[s.procs[p].source];
    }
  }
}
