/** The stage machine of `_run_dry_run`: twelve named stages, two blocking exits, and the
    repository fingerprint that is read again before anything is published or returned. */
module DryRun {
  import opened Options
  import opened RepositoryGuard

  import Files = EvidenceFs
  import Evidence = EvidencePublication
  import Handoff = HandoffContract

  datatype Stage =
    | CaptureRepositoryState | LoadTask | ValidateTaskSchema | LoadClaimRegistry | RunNonIdealGuard
    | ResolveSourceRevision | PrepareExecutionPlan | AccountExpectedEvidence | BuildHandoff | ValidateHandoff
    | VerifyRepositoryUnchanged | FinalizeResult

  const STAGES: seq<Stage> := [
    CaptureRepositoryState, LoadTask, ValidateTaskSchema, LoadClaimRegistry, RunNonIdealGuard,
    ResolveSourceRevision, PrepareExecutionPlan, AccountExpectedEvidence, BuildHandoff, ValidateHandoff,
    VerifyRepositoryUnchanged, FinalizeResult]

  datatype Status = Passed | Blocked | NotRun

  type Statuses = map<Stage, Status>

  /** The position of a stage in the canonical order. */
  function Rank(s: Stage): (r: nat)
    ensures r < |STAGES| && STAGES[r] == s
  {
    match s
    case CaptureRepositoryState => 0
    case LoadTask => 1
    case ValidateTaskSchema => 2
    case LoadClaimRegistry => 3
    case RunNonIdealGuard => 4
    case ResolveSourceRevision => 5
    case PrepareExecutionPlan => 6
    case AccountExpectedEvidence => 7
    case BuildHandoff => 8
    case ValidateHandoff => 9
    case VerifyRepositoryUnchanged => 10
    case FinalizeResult => 11
  }

  /** `statuses.get(name, "not_run")` */
  function StatusOf(m: Statuses, s: Stage): Status
  {
    if s in m then m[s] else NotRun
  }

  /** `_render_stages` */
  method RenderStages(m: Statuses) returns (r: seq<(Stage, Status)>)
    ensures |r| == |STAGES| && forall i :: 0 <= i < |STAGES| ==> r[i] == (STAGES[i], StatusOf(m, STAGES[i]))
  {
    r := [];
    for i := 0 to |STAGES|
      invariant |r| == i && forall k :: 0 <= k < i ==> r[k] == (STAGES[k], StatusOf(m, STAGES[k]))
    {
      r := r + [(STAGES[i], StatusOf(m, STAGES[i]))];
    }
  }

  // ---------------------------------------------------------------- results

  datatype RunStatus = Planned | BlockedRun

  datatype Result = Result(status: RunStatus, stages: seq<(Stage, Status)>, findings: seq<string>,
                           evidence: bool, repositoryUnchanged: bool, exitCode: nat)

  datatype Outcome = Returned(result: Result) | Threw(code: Code)

  /** The stages of a result are the twelve canonical ones with the given statuses. */
  ghost predicate Lists(r: Result, status: Stage -> Status)
  {
    |r.stages| == |STAGES| && forall s :: r.stages[Rank(s)] == (s, status(s))
  }

  lemma RenderedLists(r: Result, m: Statuses, status: Stage -> Status)
    requires |r.stages| == |STAGES|
    requires forall i :: 0 <= i < |STAGES| ==> r.stages[i] == (STAGES[i], StatusOf(m, STAGES[i]))
    requires forall s :: StatusOf(m, s) == status(s)
    ensures Lists(r, status)
  {
    forall s ensures r.stages[Rank(s)] == (s, status(s)) {
      assert STAGES[Rank(s)] == s;
    }
  }

  /** Marking the blocked stage and the closing two turns "passed up to b" into the blocked shape. */
  lemma BlockedStatuses(m: Statuses, b: Stage)
    requires b == ValidateTaskSchema || b == RunNonIdealGuard
    requires forall s :: StatusOf(m, s) == if Rank(s) < Rank(b) then Passed else NotRun
    ensures forall s :: StatusOf(m[b := Blocked][VerifyRepositoryUnchanged := Passed][FinalizeResult := Passed], s) ==
                        BlockedAt(b)(s)
  {
  }

  /** What a run blocked at stage b shows: everything before passed, planning after it not run,
      and the closing two stages passed. */
  function BlockedAt(b: Stage): Stage -> Status
  {
    s => if Rank(s) < Rank(b) then Passed
         else if s == b then Blocked
         else if s == VerifyRepositoryUnchanged || s == FinalizeResult then Passed
         else NotRun
  }

  ghost predicate PlannedResult(r: Result)
  {
    && r.status == Planned && r.exitCode == 0 && r.findings == [] && r.repositoryUnchanged
    && Lists(r, s => Passed)
  }

  ghost predicate BlockedResult(r: Result)
  {
    && r.status == BlockedRun && r.exitCode == 1 && r.findings != [] && r.repositoryUnchanged && !r.evidence
    && (Lists(r, BlockedAt(ValidateTaskSchema)) || Lists(r, BlockedAt(RunNonIdealGuard)))
  }

  lemma StagesInOrder(r: Result)
    requires PlannedResult(r) || BlockedResult(r)
    ensures |r.stages| == |STAGES|
    ensures forall i :: 0 <= i < |STAGES| ==> r.stages[i].0 == STAGES[i] && Rank(STAGES[i]) == i
  {
    forall i | 0 <= i < |STAGES| ensures r.stages[i].0 == STAGES[i] && Rank(STAGES[i]) == i {
      RankOfStage(i);
      assert r.stages[Rank(STAGES[i])].0 == STAGES[i];
    }
  }

  /** Planned exactly when all twelve stages passed; blocked exactly when the schema stage or the
      guard stage is blocked. */
  lemma StatusMatchesStages(r: Result)
    requires PlannedResult(r) || BlockedResult(r)
    ensures |r.stages| == |STAGES| && forall i :: 0 <= i < |STAGES| ==> r.stages[i].0 == STAGES[i]
    ensures r.status == Planned <==> forall i :: 0 <= i < |STAGES| ==> r.stages[i].1 == Passed
    ensures r.status == BlockedRun <==>
            (r.stages[Rank(ValidateTaskSchema)].1 == Blocked) != (r.stages[Rank(RunNonIdealGuard)].1 == Blocked)
  {
    StagesInOrder(r);
    if PlannedResult(r) {
      PlannedPasses(r);
    } else {
      BlockedShows(r);
    }
  }

  lemma PlannedPasses(r: Result)
    requires PlannedResult(r) && |r.stages| == |STAGES|
    ensures forall i :: 0 <= i < |STAGES| ==> r.stages[i].1 == Passed
  {
    forall i | 0 <= i < |STAGES| ensures r.stages[i].1 == Passed {
      RankOfStage(i);
      assert r.stages[Rank(STAGES[i])].1 == Passed;
    }
  }

  lemma BlockedShows(r: Result)
    requires BlockedResult(r) && |r.stages| == |STAGES|
    ensures (r.stages[Rank(ValidateTaskSchema)].1 == Blocked) != (r.stages[Rank(RunNonIdealGuard)].1 == Blocked)
  {
    var b := if Lists(r, BlockedAt(ValidateTaskSchema)) then ValidateTaskSchema else RunNonIdealGuard;
    ListedAt(r, BlockedAt(b), ValidateTaskSchema);
    ListedAt(r, BlockedAt(b), RunNonIdealGuard);
  }

  lemma ListedAt(r: Result, status: Stage -> Status, s: Stage)
    requires Lists(r, status)
    ensures Rank(s) < |r.stages| && r.stages[Rank(s)] == (s, status(s))
  {
  }

  lemma RankOfStage(i: nat)
    requires i < |STAGES|
    ensures Rank(STAGES[i]) == i
  {
  }

  // ---------------------------------------------------------------- the run

  /** Where the evidence goes, and its four serialized files. */
  datatype Bundle = Bundle(parent: nat, staging: string, target: string, payloads: map<string, Bytes>, path: string)

  ghost predicate Ready(fs: Files.FileSystem, b: Bundle)
    reads fs
  {
    fs.Valid() && fs.pinned == multiset{b.parent} && Evidence.WellNamed(Evidence.EVIDENCE_FILES, b.payloads) && b.staging != b.target
  }

  /** A publication that returned normally: its log verifies, and undisturbed the target now holds
      exactly the files of the bundle. */
  ghost predicate Persisted(s: Files.Fs, s': Files.Fs, quiet: bool, log: seq<Files.Event>, log': seq<Files.Event>, b: Bundle)
  {
    exists a: Evidence.Attempted, t: Evidence.Trace, rollback: seq<Files.Event> ::
      && Evidence.PublishLog(Evidence.Published(b.path), a, t, rollback, b.parent, b.staging, b.target, b.payloads)
      && a.published && log' == log + Evidence.Logged(t, true, b.parent, b.staging, b.target) + rollback
      && (quiet ==> Evidence.Extra(s, s', b.parent, b.target, t.made) && Evidence.Holds(s', t.made, b.payloads))
  }

  /** A target that existed still denotes what it denoted. */
  ghost predicate TargetKept(s: Files.Fs, s': Files.Fs, b: Bundle)
  {
    b.target in Files.Entries(s, b.parent) ==>
      b.target in Files.Entries(s', b.parent) &&
      Files.Entries(s', b.parent)[b.target] == Files.Entries(s, b.parent)[b.target]
  }

  /** The reads of the guard and the rename that follows them. */
  ghost function PublishReads(first: Bytes, revision: string): seq<Event>
  {
    [RevisionRead(revision), StateRead(first), BundlePublished]
  }

  /** Nothing in the file system stands in the way of the publication. */
  ghost predicate Smooth(before: Files.Fs, fs: Files.FileSystem, b: Bundle)
    reads fs
  {
    && fs.quiet && !fs.failed
    && b.staging !in Files.Entries(before, b.parent) && b.target !in Files.Entries(before, b.parent)
  }

  /** A call has raised, or a reading differs from the first fingerprint or the run's revision. */
  ghost predicate Objected(w: World, first: Bytes, revision: string)
    reads w
  {
    w.raised || Differs(w.log, first, revision)
  }

  /** The code that `publish_evidence_bundle` raises, as far as the run tells codes apart. */
  function CodeOf(error: Evidence.RunnerError): Code
  {
    if error.code.GuardCode? then error.code.code else OtherCode
  }

  /** `publish_evidence_bundle` with `pre_publish_guard`; preparing the payloads and acquiring the
      parent directory may fail first. */
  method Publish(w: World, fs: Files.FileSystem, b: Bundle, first: Bytes, revision: string) returns (ok: Option<Code>)
    requires Guarded(w.log, first, revision) && Ready(fs, b)
    modifies w, fs
    ensures old(w.log) <= w.log && Guarded(w.log, first, revision)
    ensures ok.None? ==> w.log == old(w.log) + [Completed(ParentAcquired)] + PublishReads(first, revision)
    ensures ok.None? ==> w.raised == old(w.raised)
    ensures ok.Some? ==> Objected(w, first, revision) || !Smooth(old(fs.st), fs, b)
    ensures ok.None? ==> Persisted(old(fs.st), fs.st, fs.quiet, old(fs.log), fs.log, b)
    ensures fs.quiet ==> TargetKept(old(fs.st), fs.st, b)
    ensures fs.quiet && b.target in Files.Entries(old(fs.st), b.parent) ==> ok.Some?
  {
    var acquired := w.Succeeds(ParentAcquired);
    if !acquired {
      return Some(OtherCode);
    }
    GuardedAppend(old(w.log), [Completed(ParentAcquired)], first, revision);
    ghost var before := w.log;
    var r;
    ghost var a, t, rollback;
    r, a, t, rollback := Evidence.PublishEvidenceBundle(
      fs, b.parent, b.staging, b.target, Evidence.EVIDENCE_FILES, b.payloads, w, Some(Pins(first, revision)), b.path);
    PublicationIsGuarded(before, w.log, first, revision, a.published);
    return match r case Published(_) => None case Raised(error) => Some(CodeOf(error));
  }

  lemma PublicationIsGuarded(before: seq<Event>, after: seq<Event>, first: Bytes, revision: string, published: bool)
    requires Guarded(before, first, revision)
    requires Evidence.GuardedRename(before, after, Some(Pins(first, revision)), published)
    ensures before <= after && Guarded(after, first, revision)
    ensures published ==> after == before + PublishReads(first, revision)
  {
    if published {
      assert after == before + [RevisionRead(revision), StateRead(first), BundlePublished];
      PublishAppend(before, first, revision);
    } else {
      assert after == before + after[|before|..];
      GuardedAppend(before, after[|before|..], first, revision);
    }
  }

  /** A blocking exit: assert the repository unchanged, close the stages, return. */
  method BlockedExit(w: World, first: Bytes, statuses: Statuses, b: Stage, findings: seq<string>) returns (o: Outcome)
    requires (b == ValidateTaskSchema || b == RunNonIdealGuard) && findings != []
    requires forall s :: StatusOf(statuses, s) == if Rank(s) < Rank(b) then Passed else NotRun
    modifies w
    ensures old(w.log) <= w.log && NeverPublished(w.log[|old(w.log)|..])
    ensures o.Returned? ==> BlockedResult(o.result) && w.log == old(w.log) + [StateRead(first)]
    ensures o.Returned? ==> Lists(o.result, BlockedAt(b)) && o.result.findings == findings && w.raised == old(w.raised)
    ensures o.Threw? ==> w.raised || exists s :: StateRead(s) in w.log && s != first
  {
    BlockedStatuses(statuses, b);
    var m := statuses[b := Blocked];
    var changed := AssertUnchanged(w, first);
    if changed.Some? {
      return Threw(changed.value);
    }
    m := m[VerifyRepositoryUnchanged := Passed];
    m := m[FinalizeResult := Passed];
    var stages := RenderStages(m);
    o := Returned(Result(BlockedRun, stages, findings, false, true, 1));
    RenderedLists(o.result, m, BlockedAt(b));
  }

  /** "Passed up to and including stage k, nothing after." */
  ghost predicate PassedUpTo(m: Statuses, k: int)
  {
    forall s :: StatusOf(m, s) == if Rank(s) <= k then Passed else NotRun
  }

  lemma PassNext(m: Statuses, s: Stage)
    requires PassedUpTo(m, Rank(s) - 1)
    ensures PassedUpTo(m[s := Passed], Rank(s))
  {
    forall t ensures StatusOf(m[s := Passed], t) == if Rank(t) <= Rank(s) then Passed else NotRun {
      if t != s {
        assert Rank(t) != Rank(s) by {
          assert STAGES[Rank(t)] == t && STAGES[Rank(s)] == s;
        }
      }
    }
  }

  /** What a run has learned when it is about to block at stage b, or to go on planning. */
  ghost function SchemaLog(first: Bytes, findings: seq<string>): seq<Event>
  {
    [StateRead(first), Completed(TaskLoaded), Found(SchemaCheck, findings)]
  }

  ghost function GuardLog(first: Bytes, findings: seq<string>): seq<Event>
  {
    SchemaLog(first, []) + [Completed(RegistryLoaded), Found(NonIdealGuard, findings)]
  }

  /** The whole log of a run blocked at stage b by these findings. */
  ghost function BlockedLog(first: Bytes, b: Stage, findings: seq<string>): seq<Event>
  {
    (if b == ValidateTaskSchema then SchemaLog(first, findings) else GuardLog(first, findings)) + [StateRead(first)]
  }

  /** The log shows the non-empty answer that blocked the run, at the stage the result names. */
  ghost predicate BlockedRight(r: Result, log: seq<Event>, first: Bytes)
  {
    && BlockedResult(r)
    && exists b :: (b == ValidateTaskSchema || b == RunNonIdealGuard) && Lists(r, BlockedAt(b)) &&
                   log == BlockedLog(first, b, r.findings)
  }

  /** What the log of a returned run shows: one state throughout; with evidence, the last reads
      before the publication; without, no publication and a final comparison. */
  ghost predicate EndsWell(log: seq<Event>, first: Bytes, revision: string, evidence: bool)
  {
    && Unchanged(log, first)
    && if evidence
       then |log| > 2 && log[|log| - 3..] == [RevisionRead(revision), StateRead(first), BundlePublished]
       else NeverPublished(log) && |log| > 0 && log[|log| - 1] == StateRead(first)
  }

  lemma EndsWithState(log: seq<Event>, first: Bytes, revision: string)
    requires Unchanged(log, first) && NeverPublished(log)
    ensures EndsWell(log + [StateRead(first)], first, revision, false)
  {
  }

  lemma BlockedEndsWell(first: Bytes, x: seq<string>)
    ensures EndsWell(SchemaLog(first, x) + [StateRead(first)], first, "", false)
    ensures EndsWell(GuardLog(first, x) + [StateRead(first)], first, "", false)
  {
    SchemaIsQuiet(first, x);
    EndsWithState(SchemaLog(first, x), first, "");
    GuardIsQuiet(first, x);
    EndsWithState(GuardLog(first, x), first, "");
  }

  lemma SchemaIsQuiet(first: Bytes, x: seq<string>)
    ensures Unchanged(SchemaLog(first, x), first) && NeverPublished(SchemaLog(first, x))
  {
  }

  lemma GuardIsQuiet(first: Bytes, x: seq<string>)
    ensures Unchanged(GuardLog(first, x), first) && NeverPublished(GuardLog(first, x))
  {
  }

  /** Task and schema: the run blocks, raises, or has passed the first three stages. */
  method LoadAndCheck(w: World, first: Bytes) returns (exit: Option<Outcome>, m: Statuses)
    requires w.log == [StateRead(first)]
    modifies w
    ensures old(w.log) <= w.log && NeverPublished(w.log)
    ensures exit.None? ==> PassedUpTo(m, Rank(ValidateTaskSchema)) && w.log == SchemaLog(first, [])
    ensures exit.None? || exit.value.Returned? ==> w.raised == old(w.raised)
    ensures exit.Some? && exit.value.Returned? ==>
              BlockedRight(exit.value.result, w.log, first) && EndsWell(w.log, first, "", false)
    ensures exit.Some? && exit.value.Threw? ==> w.raised || exists s :: StateRead(s) in w.log && s != first
  {
    m := map[];
    assert PassedUpTo(m, -1);
    PassNext(m, CaptureRepositoryState);
    m := m[CaptureRepositoryState := Passed];
    var loaded := w.Succeeds(TaskLoaded);
    if !loaded {
      return Some(Threw(OtherCode)), m;
    }
    PassNext(m, LoadTask);
    m := m[LoadTask := Passed];
    var schema := w.Findings(SchemaCheck);
    if schema.Failed? {
      return Some(Threw(OtherCode)), m;
    }
    assert w.log == SchemaLog(first, schema.value);
    if schema.value != [] {
      var o := BlockedExit(w, first, m, ValidateTaskSchema, schema.value);
      if o.Returned? {
        assert w.log == BlockedLog(first, ValidateTaskSchema, schema.value);
        BlockedEndsWell(first, schema.value);
      }
      return Some(o), m;
    }
    PassNext(m, ValidateTaskSchema);
    m := m[ValidateTaskSchema := Passed];
    return None, m;
  }

  /** The first five stages: load and validate the task, load the registry, run the guard.
      Either one of the two blocking exits is taken, or something raises, or all five passed. */
  method LoadAndGuard(w: World, first: Bytes) returns (exit: Option<Outcome>, m: Statuses)
    requires w.log == [StateRead(first)]
    modifies w
    ensures old(w.log) <= w.log && NeverPublished(w.log)
    ensures exit.None? ==> PassedUpTo(m, Rank(RunNonIdealGuard)) && w.log == GuardLog(first, [])
    ensures exit.None? || exit.value.Returned? ==> w.raised == old(w.raised)
    ensures exit.Some? && exit.value.Returned? ==>
              BlockedRight(exit.value.result, w.log, first) && EndsWell(w.log, first, "", false)
    ensures exit.Some? && exit.value.Threw? ==> w.raised || exists s :: StateRead(s) in w.log && s != first
  {
    exit, m := LoadAndCheck(w, first);
    if exit.Some? {
      return;
    }
    var registry := w.Succeeds(RegistryLoaded);
    if !registry {
      return Some(Threw(OtherCode)), m;
    }
    PassNext(m, LoadClaimRegistry);
    m := m[LoadClaimRegistry := Passed];
    var guard := w.Findings(NonIdealGuard);
    if guard.Failed? {
      return Some(Threw(OtherCode)), m;
    }
    assert w.log == GuardLog(first, guard.value);
    if guard.value != [] {
      var o := BlockedExit(w, first, m, RunNonIdealGuard, guard.value);
      if o.Returned? {
        assert w.log == BlockedLog(first, RunNonIdealGuard, guard.value);
        BlockedEndsWell(first, guard.value);
      }
      return Some(o), m;
    }
    PassNext(m, RunNonIdealGuard);
    m := m[RunNonIdealGuard := Passed];
    return None, m;
  }

  /** The loaded task file: its content, its digest, and which evidence files exist. */
  datatype TaskFile = TaskFile(task: Handoff.Task, digest: string, isFile: string -> bool)

  /** The shape and guard checks of the handoff have found something. */
  ghost predicate HandoffRejected(log: seq<Event>)
  {
    exists x :: Found(HandoffCheck, x) in log && x != []
  }

  /** `validate_handoff` on the runner's own handoff: shape and guard findings, then the binding. */
  method CheckHandoff(w: World, f: TaskFile) returns (accepted: bool)
    modifies w
    ensures accepted ==> Handoff.SelfAcceptable(f.task)
    ensures accepted ==> w.log == old(w.log) + [Found(HandoffCheck, [])] && w.raised == old(w.raised)
    ensures !accepted ==> w.log == old(w.log) || exists x :: w.log == old(w.log) + [Found(HandoffCheck, x)]
    ensures !accepted ==> w.raised || HandoffRejected(w.log) || !Handoff.SelfAcceptable(f.task)
  {
    var others := w.Findings(HandoffCheck);
    assert others.Got? ==> w.log[|old(w.log)|] == Found(HandoffCheck, others.value);
    if others.Failed? || others.value != [] {
      return false;
    }
    var own := Handoff.RunnerHandoff(f.task, f.digest);
    var findings := Handoff.ValidateBinding(f.isFile, f.digest, f.task, own);
    accepted := findings == [];
    Handoff.RunnerHandoffAccepted(f.isFile, f.task, f.digest);
    if accepted {
      assert forall x :: !Handoff.BindingFinding(f.isFile, f.digest, f.task, own, x);
    } else {
      assert findings[0] in findings;
    }
  }

  /** What planning adds to the log. */
  ghost function PlanLog(revision: string): seq<Event>
  {
    PreparedLog(revision) + [Found(HandoffCheck, [])]
  }

  ghost function PreparedLog(revision: string): seq<Event>
  {
    [RevisionRead(revision), Completed(RevisionWellFormed), Completed(TaskIsObject)]
  }

  /** Neither a fingerprint nor a publication. */
  ghost predicate OnlyAnswers(log: seq<Event>)
  {
    forall i :: 0 <= i < |log| ==> !log[i].StateRead? && !log[i].BundlePublished?
  }

  lemma AnswersAppend(log: seq<Event>, log': seq<Event>, first: Bytes)
    requires log <= log' && NeverPublished(log) && Unchanged(log, first) && OnlyAnswers(log'[|log|..])
    ensures NeverPublished(log') && Unchanged(log', first)
  {
    forall i | 0 <= i < |log'| ensures (log'[i].StateRead? ==> log'[i].state == first) && !log'[i].BundlePublished? {
      assert if i < |log| then log'[i] == log[i] else log'[i] == log'[|log|..][i - |log|];
    }
  }

  /** What concluding adds to the log. */
  ghost function ConcludeLog(first: Bytes, revision: string, persist: bool): seq<Event>
  {
    if persist then [Completed(RunStamped), Completed(ParentAcquired)] + PublishReads(first, revision)
    else [RevisionRead(revision), StateRead(first)]
  }

  /** The whole log of a planned run. */
  ghost function PlannedLog(first: Bytes, revision: string, persist: bool): seq<Event>
  {
    GuardLog(first, []) + PlanLog(revision) + [RevisionRead(revision), StateRead(first)] +
    ConcludeLog(first, revision, persist)
  }

  /** Why a run that met no objection may still raise: its generated handoff is rejected, or its
      bundle cannot be published. */
  ghost predicate Unfinished(w: World, fs: Files.FileSystem, before: Files.Fs, f: TaskFile, b: Bundle, persist: bool)
    reads w, fs
  {
    HandoffRejected(w.log) || !Handoff.SelfAcceptable(f.task) || (persist && !Smooth(before, fs, b))
  }

  /** The revision is resolved and the task is an object. */
  method ResolveAndPrepare(w: World, m0: Statuses) returns (failed: bool, revision: string, m: Statuses)
    requires PassedUpTo(m0, Rank(RunNonIdealGuard))
    modifies w
    ensures old(w.log) <= w.log && OnlyAnswers(w.log[|old(w.log)|..])
    ensures !failed ==> PassedUpTo(m, Rank(PrepareExecutionPlan)) && w.log == old(w.log) + PreparedLog(revision)
    ensures if failed then w.raised else w.raised == old(w.raised)
  {
    m, revision := m0, "";
    var resolved := w.ReadRevision();
    if resolved.Failed? {
      return true, revision, m;
    }
    revision := resolved.value;
    var wellFormed := w.Succeeds(RevisionWellFormed);
    if !wellFormed {
      return true, revision, m;
    }
    PassNext(m, ResolveSourceRevision);
    m := m[ResolveSourceRevision := Passed];
    var isObject := w.Succeeds(TaskIsObject);
    if !isObject {
      return true, revision, m;
    }
    PassNext(m, PrepareExecutionPlan);
    m := m[PrepareExecutionPlan := Passed];
    return false, revision, m;
  }

  /** The planning stages, up to the validated handoff. */
  method Plan(w: World, f: TaskFile, m0: Statuses) returns (failed: bool, revision: string, m: Statuses)
    requires PassedUpTo(m0, Rank(RunNonIdealGuard))
    modifies w
    ensures !failed ==> Handoff.SelfAcceptable(f.task)
    ensures old(w.log) <= w.log && OnlyAnswers(w.log[|old(w.log)|..])
    ensures !failed ==> PassedUpTo(m, Rank(ValidateHandoff)) && w.log == old(w.log) + PlanLog(revision)
    ensures !failed ==> w.raised == old(w.raised)
    ensures failed ==> w.raised || HandoffRejected(w.log) || !Handoff.SelfAcceptable(f.task)
  {
    failed, revision, m := ResolveAndPrepare(w, m0);
    if failed {
      return;
    }
    var error := Handoff.ValidateAccounting(f.task, Handoff.RunnerAccounting(f.task));
    assert error.None?;
    PassNext(m, AccountExpectedEvidence);
    m := m[AccountExpectedEvidence := Passed];
    PassNext(m, BuildHandoff);
    m := m[BuildHandoff := Passed];
    var accepted := CheckHandoff(w, f);
    if !accepted {
      return true, revision, m;
    }
    PassNext(m, ValidateHandoff);
    m := m[ValidateHandoff := Passed];
    return false, revision, m;
  }

  lemma EndsWithPublication(log: seq<Event>, first: Bytes, revision: string)
    requires Unchanged(log, first)
    ensures EndsWell(log + [Completed(RunStamped), Completed(ParentAcquired)] + PublishReads(first, revision), first, revision, true)
  {
    var all := log + [Completed(RunStamped), Completed(ParentAcquired)] + PublishReads(first, revision);
    forall i | 0 <= i < |all| && all[i].StateRead? ensures all[i].state == first {
      assert i < |log| ==> all[i] == log[i];
    }
  }

  lemma EndsWithCheck(log: seq<Event>, first: Bytes, revision: string)
    requires Unchanged(log, first) && NeverPublished(log)
    ensures EndsWell(log + [RevisionRead(revision), StateRead(first)], first, revision, false)
  {
    var all := log + [RevisionRead(revision), StateRead(first)];
    forall i | 0 <= i < |all| ensures (all[i].StateRead? ==> all[i].state == first) && !all[i].BundlePublished? {
      assert i < |log| ==> all[i] == log[i];
    }
  }

  lemma QuietIsGuarded(log: seq<Event>, first: Bytes, revision: string)
    requires NeverPublished(log)
    ensures Guarded(log, first, revision)
  {
  }

  lemma QuietAppend(log: seq<Event>, log': seq<Event>)
    requires log <= log' && NeverPublished(log) && NeverPublished(log'[|log|..])
    ensures NeverPublished(log')
  {
    forall i | 0 <= i < |log'| ensures !log'[i].BundlePublished? {
      assert i >= |log| ==> log'[i] == log'[|log|..][i - |log|];
    }
  }

  /** What a run leaves in the file system: a persisted bundle, or nothing new; whatever happens,
      undisturbed no existing target is touched. */
  ghost predicate LeavesFiles(s: Files.Fs, s': Files.Fs, quiet: bool, log: seq<Files.Event>, log': seq<Files.Event>,
                              b: Bundle, returned: bool, evidence: bool, persist: bool)
  {
    && (returned && evidence ==> Persisted(s, s', quiet, log, log', b))
    && ((returned && !evidence) || !persist ==> s' == s && log' == log)
    && (quiet ==> TargetKept(s, s', b))
    && (quiet && returned && evidence ==> b.target !in Files.Entries(s, b.parent))
  }

  /** Persist the planned run, or check once more that nothing changed. */
  method Conclude(w: World, fs: Files.FileSystem, b: Bundle, first: Bytes, revision: string, persist: bool)
    returns (failed: Option<Code>)
    requires NeverPublished(w.log) && Unchanged(w.log, first) && Ready(fs, b)
    modifies w, fs
    ensures LeavesFiles(old(fs.st), fs.st, fs.quiet, old(fs.log), fs.log, b, failed.None?, failed.None? && persist, persist)
    ensures old(w.log) <= w.log && Guarded(w.log, first, revision) && (!persist ==> NeverPublished(w.log))
    ensures failed.None? ==> EndsWell(w.log, first, revision, persist)
    ensures failed.None? ==> w.log == old(w.log) + ConcludeLog(first, revision, persist) && w.raised == old(w.raised)
    ensures failed.Some? ==> Objected(w, first, revision) || (persist && !Smooth(old(fs.st), fs, b))
  {
    ghost var before := w.log;
    QuietIsGuarded(before, first, revision);
    if persist {
      var ready := w.Succeeds(RunStamped);
      if !ready {
        return Some(OtherCode);
      }
      GuardedAppend(before, [Completed(RunStamped)], first, revision);
      failed := Publish(w, fs, b, first, revision);
      EndsWithPublication(before, first, revision);
    } else {
      failed := CheckAgain(w, first, revision);
      QuietAppend(before, w.log);
      QuietIsGuarded(w.log, first, revision);
      EndsWithCheck(before, first, revision);
    }
  }

  /** The planned result, its closing comparison, and its publication. */
  method CheckAndConclude(w: World, fs: Files.FileSystem, b: Bundle, first: Bytes, revision: string, m0: Statuses, persist: bool)
    returns (o: Outcome)
    requires NeverPublished(w.log) && Unchanged(w.log, first)
    requires PassedUpTo(m0, Rank(ValidateHandoff)) && Ready(fs, b)
    modifies w, fs
    ensures LeavesFiles(old(fs.st), fs.st, fs.quiet, old(fs.log), fs.log, b, o.Returned?,
                        o.Returned? && o.result.evidence, persist)
    ensures old(w.log) <= w.log && Guarded(w.log, first, revision) && (!persist ==> NeverPublished(w.log))
    ensures o.Returned? ==> PlannedResult(o.result) && o.result.evidence == persist
    ensures o.Returned? ==> EndsWell(w.log, first, revision, persist) && w.raised == old(w.raised)
    ensures o.Returned? ==> w.log == old(w.log) + [RevisionRead(revision), StateRead(first)] +
                                     ConcludeLog(first, revision, persist)
    ensures o.Threw? ==> Objected(w, first, revision) || (persist && !Smooth(old(fs.st), fs, b))
  {
    ghost var planned := w.log;
    var changed := CheckAgain(w, first, revision);
    QuietAppend(planned, w.log);
    QuietIsGuarded(w.log, first, revision);
    if changed.Some? {
      return Threw(changed.value);
    }
    EndsWithCheck(planned, first, revision);
    var m := m0;
    PassNext(m, VerifyRepositoryUnchanged);
    m := m[VerifyRepositoryUnchanged := Passed];
    PassNext(m, FinalizeResult);
    m := m[FinalizeResult := Passed];
    var stages := RenderStages(m);
    var result := Result(Planned, stages, [], persist, true, 0);
    RenderedLists(result, m, s => Passed);
    changed := Conclude(w, fs, b, first, revision, persist);
    o := if changed.Some? then Threw(changed.value) else Returned(result);
  }

  /** From the resolved revision to the concluded plan. */
  method PlanAndConclude(w: World, fs: Files.FileSystem, f: TaskFile, b: Bundle, first: Bytes, m0: Statuses, persist: bool)
    returns (o: Outcome, ghost revision: string)
    requires NeverPublished(w.log) && Unchanged(w.log, first)
    requires PassedUpTo(m0, Rank(RunNonIdealGuard)) && Ready(fs, b)
    modifies w, fs
    ensures LeavesFiles(old(fs.st), fs.st, fs.quiet, old(fs.log), fs.log, b, o.Returned?,
                        o.Returned? && o.result.evidence, persist)
    ensures old(w.log) <= w.log && Guarded(w.log, first, revision) && (!persist ==> NeverPublished(w.log))
    ensures o.Returned? ==> PlannedResult(o.result) && o.result.evidence == persist && Handoff.SelfAcceptable(f.task)
    ensures o.Returned? ==> EndsWell(w.log, first, revision, persist) && w.raised == old(w.raised)
    ensures o.Returned? ==> w.log == old(w.log) + PlanLog(revision) + [RevisionRead(revision), StateRead(first)] +
                                     ConcludeLog(first, revision, persist)
    ensures o.Threw? ==> Objected(w, first, revision) || Unfinished(w, fs, old(fs.st), f, b, persist)
  {
    ghost var loaded := w.log;
    var failed, source, m := Plan(w, f, m0);
    revision := source;
    AnswersAppend(loaded, w.log, first);
    QuietIsGuarded(w.log, first, revision);
    if failed {
      return Threw(OtherCode), revision;
    }
    o := CheckAndConclude(w, fs, b, first, source, m, persist);
  }

  /** The try block of `_run_dry_run`. */
  method RunBody(w: World, fs: Files.FileSystem, f: TaskFile, b: Bundle, first: Bytes, persist: bool)
    returns (o: Outcome, ghost revision: string)
    requires w.log == [StateRead(first)] && Ready(fs, b)
    modifies w, fs
    ensures LeavesFiles(old(fs.st), fs.st, fs.quiet, old(fs.log), fs.log, b, o.Returned?,
                        o.Returned? && o.result.evidence, persist)
    ensures old(w.log) <= w.log && Guarded(w.log, first, revision) && (!persist ==> NeverPublished(w.log))
    ensures o.Returned? ==> AnswersDecide(o.result, w.log, first, revision, persist) && w.raised == old(w.raised)
    ensures o.Returned? && o.result.status == Planned ==> Handoff.SelfAcceptable(f.task)
    ensures o.Returned? ==> o.result.evidence == (persist && o.result.status == Planned)
    ensures o.Returned? ==> EndsWell(w.log, first, revision, o.result.evidence)
    ensures o.Threw? ==> Excused(w, fs, old(fs.st), f, b, first, revision, persist)
  {
    revision := "";
    var exit, m := LoadAndGuard(w, first);
    QuietIsGuarded(w.log, first, revision);
    if exit.Some? {
      o := exit.value;
      return;
    }
    GuardIsQuiet(first, []);
    o, revision := PlanAndConclude(w, fs, f, b, first, m, persist);
  }

  /** A planned run got two empty answers and went through every step of the plan in order; a
      blocked one shows the answer that blocked it. */
  ghost predicate AnswersDecide(r: Result, log: seq<Event>, first: Bytes, revision: string, persist: bool)
  {
    if r.status == Planned then PlannedResult(r) && log == PlannedLog(first, revision, persist)
    else BlockedRight(r, log, first)
  }

  /** A run raises only because a call raised, a reading changed, or, after two empty answers,
      because it cannot be finished. */
  ghost predicate Excused(w: World, fs: Files.FileSystem, before: Files.Fs, f: TaskFile, b: Bundle, first: Bytes,
                          revision: string, persist: bool)
    reads w, fs
  {
    || Objected(w, first, revision)
    || (GuardLog(first, []) <= w.log && Unfinished(w, fs, before, f, b, persist))
  }

  lemma ObjectionStays(log: seq<Event>, log': seq<Event>, first: Bytes, revision: string)
    requires log <= log'
    ensures Differs(log, first, revision) ==> Differs(log', first, revision)
    ensures HandoffRejected(log) ==> HandoffRejected(log')
  {
    assert forall e :: e in log ==> e in log';
  }

  /** The except clause: an unrelated error gives way to a changed or unreadable state. */
  method CompareAfterError(w: World, first: Bytes, ghost revision: string, pending: Code) returns (code: Code)
    requires Guarded(w.log, first, revision)
    modifies w
    ensures old(w.log) <= w.log && Guarded(w.log, first, revision)
    ensures NeverPublished(old(w.log)) ==> NeverPublished(w.log)
    ensures old(w.raised) ==> w.raised
    ensures Differs(old(w.log), first, revision) ==> Differs(w.log, first, revision)
    ensures HandoffRejected(old(w.log)) ==> HandoffRejected(w.log)
    ensures code == OtherCode ==> w.log == old(w.log) + [StateRead(first)]
  {
    ghost var log := w.log;
    var changed := AssertUnchanged(w, first);
    ObjectionStays(log, w.log, first, revision);
    GuardedAppend(log, w.log[|log|..], first, revision);
    assert w.log == log + w.log[|log|..];
    code := if changed.Some? then changed.value else pending;
  }

  /** `_run_dry_run`. Every returned run lists the twelve stages with the statuses its outcome
      demands, has seen one and the same repository state throughout, and is planned or blocked as
      the answers of schema check and guard decide; a persisted run re-read revision and state
      directly before the rename that published its bundle; any other failure is raised only after
      the state was compared once more, and never without a reason. */
  method RunDryRun(w: World, fs: Files.FileSystem, f: TaskFile, b: Bundle, persist: bool)
    returns (o: Outcome, ghost first: Option<Bytes>, ghost revision: string)
    requires w.log == [] && !w.raised && Ready(fs, b)
    modifies w, fs
    ensures LeavesFiles(old(fs.st), fs.st, fs.quiet, old(fs.log), fs.log, b, o.Returned?,
                        o.Returned? && o.result.evidence, persist)
    ensures first.None? ==> o.Threw? && w.log == [] && w.raised
    ensures first.Some? ==> |w.log| > 0 && w.log[0] == StateRead(first.value) && Guarded(w.log, first.value, revision)
    ensures o.Returned? ==> first.Some? && EndsWell(w.log, first.value, revision, o.result.evidence)
    ensures o.Returned? ==> AnswersDecide(o.result, w.log, first.value, revision, persist) && !w.raised
    ensures o.Returned? && o.result.status == Planned ==> Handoff.SelfAcceptable(f.task)
    ensures o.Returned? ==> o.result.evidence == (persist && o.result.status == Planned)
    ensures !persist ==> NeverPublished(w.log)
    ensures o == Threw(OtherCode) && first.Some? ==> w.log[|w.log| - 1] == StateRead(first.value)
    ensures o.Threw? && first.Some? ==> Excused(w, fs, old(fs.st), f, b, first.value, revision, persist)
  {
    var before := w.ReadState();
    revision := "";
    if before.Failed? {
      return Threw(StateUnreadable), None, revision;
    }
    first := Some(before.value);
    o, revision := RunBody(w, fs, f, b, before.value, persist);
    if o.Threw? && o.code != RepoMutated && o.code != RevisionChanged {
      var code := CompareAfterError(w, before.value, revision, o.code);
      o := Threw(code);
    }
  }

  /** A returned run is blocked if and only if schema check or guard found something. */
  lemma BlockedIffFound(r: Result, log: seq<Event>, first: Bytes, revision: string, persist: bool)
    requires AnswersDecide(r, log, first, revision, persist)
    ensures r.status == BlockedRun <==>
            exists x :: x != [] && (Found(SchemaCheck, x) in log || Found(NonIdealGuard, x) in log)
    ensures r.status == BlockedRun ==> Found(SchemaCheck, r.findings) in log || Found(NonIdealGuard, r.findings) in log
  {
    if r.status == BlockedRun {
      var b :| (b == ValidateTaskSchema || b == RunNonIdealGuard) && Lists(r, BlockedAt(b)) &&
               log == BlockedLog(first, b, r.findings);
      FoundInBlocked(first, b, r.findings);
    } else {
      forall x | Found(SchemaCheck, x) in log || Found(NonIdealGuard, x) in log ensures x == [] {
        FoundInPlanned(first, revision, persist, x);
      }
    }
  }

  lemma FoundInBlocked(first: Bytes, b: Stage, x: seq<string>)
    requires b == ValidateTaskSchema || b == RunNonIdealGuard
    ensures Found(if b == ValidateTaskSchema then SchemaCheck else NonIdealGuard, x) in BlockedLog(first, b, x)
  {
    if b == ValidateTaskSchema {
      assert BlockedLog(first, b, x)[2] == Found(SchemaCheck, x);
    } else {
      assert BlockedLog(first, b, x)[4] == Found(NonIdealGuard, x);
    }
  }

  lemma FoundInPlanned(first: Bytes, revision: string, persist: bool, x: seq<string>)
    requires Found(SchemaCheck, x) in PlannedLog(first, revision, persist) ||
             Found(NonIdealGuard, x) in PlannedLog(first, revision, persist)
    ensures x == []
  {
  }
}
