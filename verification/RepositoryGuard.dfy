/** What a dry run reads from the repository, and the checks that compare it with the first
    reading: `_assert_repository_unchanged` and `pre_publish_guard`. */
module RepositoryGuard {
  import opened Options

  type Bytes = seq<int>

  datatype Code = RepoMutated | RevisionChanged | StateUnreadable | OtherCode

  datatype Read<+T> = Got(value: T) | Failed

  /** A call that only returns or raises. */
  datatype Call = TaskLoaded | RegistryLoaded | RevisionWellFormed | TaskIsObject | RunStamped | ParentAcquired

  /** A call that returns a list of findings or raises. */
  datatype Check = SchemaCheck | NonIdealGuard | HandoffCheck

  /** What the run learns, in order, and the rename that publishes its evidence. */
  datatype Event =
    | StateRead(state: Bytes)
    | RevisionRead(revision: string)
    | Completed(call: Call)
    | Found(check: Check, findings: seq<string>)
    | BundlePublished

  /** The repository and everything else the run asks. Each answer is arbitrary and may differ
      from the one before. */
  class World {
    ghost var log: seq<Event>
    /** Some call has raised. */
    ghost var raised: bool

    constructor ()
      ensures log == [] && !raised
    {
      log, raised := [], false;
    }

    /** `state_reader(root)` */
    method ReadState() returns (r: Read<Bytes>)
      modifies this
      ensures log == old(log) + if r.Got? then [StateRead(r.value)] else []
      ensures raised == (old(raised) || r.Failed?)
    {
      var fail: bool, state: Bytes :| true;
      if fail {
        raised := true;
        return Failed;
      }
      log := log + [StateRead(state)];
      return Got(state);
    }

    /** `revision_resolver(root)` */
    method ReadRevision() returns (r: Read<string>)
      modifies this
      ensures log == old(log) + if r.Got? then [RevisionRead(r.value)] else []
      ensures raised == (old(raised) || r.Failed?)
    {
      var fail: bool, revision: string :| true;
      if fail {
        raised := true;
        return Failed;
      }
      log := log + [RevisionRead(revision)];
      return Got(revision);
    }

    /** A call that either raises or not: loading, validating, writing. */
    method Succeeds(call: Call) returns (ok: bool)
      modifies this
      ensures log == old(log) + if ok then [Completed(call)] else []
      ensures raised == (old(raised) || !ok)
    {
      ok :| true;
      if ok {
        log := log + [Completed(call)];
      } else {
        raised := true;
      }
    }

    /** A check that returns findings or raises. */
    method Findings(check: Check) returns (r: Read<seq<string>>)
      modifies this
      ensures log == old(log) + if r.Got? then [Found(check, r.value)] else []
      ensures raised == (old(raised) || r.Failed?)
    {
      var fail: bool, findings: seq<string> :| true;
      if fail {
        raised := true;
        return Failed;
      }
      log := log + [Found(check, findings)];
      return Got(findings);
    }
  }

  // ---------------------------------------------------------------- what the log shows

  /** Every fingerprint read so far equals the first. */
  ghost predicate Unchanged(log: seq<Event>, first: Bytes)
  {
    forall i :: 0 <= i < |log| && log[i].StateRead? ==> log[i].state == first
  }

  /** Some reading differs from the pinned fingerprint or revision. */
  ghost predicate Differs(log: seq<Event>, first: Bytes, revision: string)
  {
    || (exists s :: StateRead(s) in log && s != first)
    || (exists r :: RevisionRead(r) in log && r != revision)
  }

  /** A publication comes directly after reading the first fingerprint and the run's revision
      again. */
  ghost predicate GuardedAt(log: seq<Event>, first: Bytes, revision: string, i: nat)
    requires i < |log|
  {
    i >= 2 && log[i - 1] == StateRead(first) && log[i - 2] == RevisionRead(revision)
  }

  ghost predicate Guarded(log: seq<Event>, first: Bytes, revision: string)
  {
    forall i :: 0 <= i < |log| && log[i].BundlePublished? ==> GuardedAt(log, first, revision, i)
  }

  ghost predicate NeverPublished(log: seq<Event>)
  {
    forall i :: 0 <= i < |log| ==> !log[i].BundlePublished?
  }

  lemma GuardedAppend(log: seq<Event>, more: seq<Event>, first: Bytes, revision: string)
    requires Guarded(log, first, revision) && NeverPublished(more)
    ensures Guarded(log + more, first, revision)
  {
    forall i | 0 <= i < |log + more| && (log + more)[i].BundlePublished? ensures GuardedAt(log + more, first, revision, i) {
      assert i < |log|;
      assert GuardedAt(log, first, revision, i);
    }
  }

  lemma PublishAppend(log: seq<Event>, first: Bytes, revision: string)
    requires Guarded(log, first, revision)
    ensures Guarded(log + [RevisionRead(revision), StateRead(first), BundlePublished], first, revision)
  {
    var all := log + [RevisionRead(revision), StateRead(first), BundlePublished];
    forall i | 0 <= i < |all| && all[i].BundlePublished? ensures GuardedAt(all, first, revision, i) {
      if i < |log| {
        assert GuardedAt(log, first, revision, i);
      }
    }
  }

  // ---------------------------------------------------------------- the checks

  /** What the pre-publish guard compares with: the first fingerprint and the run's revision. */
  datatype Pins = Pins(first: Bytes, revision: string)

  /** The two reads of a guard that passes; an absent guard reads nothing. */
  ghost function GuardReads(guard: Option<Pins>): seq<Event>
  {
    match guard
    case None => []
    case Some(p) => [RevisionRead(p.revision), StateRead(p.first)]
  }

  /** `_assert_repository_unchanged` */
  method AssertUnchanged(w: World, first: Bytes) returns (ok: Option<Code>)
    modifies w
    ensures w.log == old(w.log) || exists s :: w.log == old(w.log) + [StateRead(s)] && (ok.None? ==> s == first)
    ensures ok.None? <==> w.log == old(w.log) + [StateRead(first)]
    ensures ok == Some(StateUnreadable) <==> w.log == old(w.log)
    ensures ok != Some(RevisionChanged) && ok != Some(OtherCode)
    ensures w.raised == (old(w.raised) || ok == Some(StateUnreadable))
    ensures ok == Some(RepoMutated) ==> exists s :: StateRead(s) in w.log && s != first
  {
    var now := w.ReadState();
    if now.Failed? {
      return Some(StateUnreadable);
    }
    assert w.log[|old(w.log)|] == StateRead(now.value);
    if now.value != first {
      assert StateRead(now.value) in w.log;
      return Some(RepoMutated);
    }
    return None;
  }

  /** Re-resolve the revision, then re-read the state: `pre_publish_guard` and the closing checks. */
  method CheckAgain(w: World, first: Bytes, revision: string) returns (ok: Option<Code>)
    modifies w
    ensures old(w.log) <= w.log && NeverPublished(w.log[|old(w.log)|..])
    ensures ok.None? ==> w.log == old(w.log) + [RevisionRead(revision), StateRead(first)]
    ensures if ok.None? then w.raised == old(w.raised) else w.raised || Differs(w.log, first, revision)
  {
    var now := w.ReadRevision();
    if now.Failed? {
      return Some(OtherCode);
    }
    if now.value != revision {
      assert w.log[|old(w.log)|] == RevisionRead(now.value);
      return Some(RevisionChanged);
    }
    ok := AssertUnchanged(w, first);
    if ok.None? {
      assert w.log == old(w.log) + [RevisionRead(revision), StateRead(first)];
    }
  }

  /** `if pre_publish_guard is not None: pre_publish_guard()` */
  method RunGuard(w: World, guard: Option<Pins>) returns (failed: Option<Code>)
    modifies w
    ensures old(w.log) <= w.log && NeverPublished(w.log[|old(w.log)|..])
    ensures failed.None? ==> w.log == old(w.log) + GuardReads(guard)
    ensures if failed.None? then w.raised == old(w.raised)
            else guard.Some? && (w.raised || Differs(w.log, guard.value.first, guard.value.revision))
  {
    if guard.None? {
      return None;
    }
    failed := CheckAgain(w, guard.value.first, guard.value.revision);
  }
}
