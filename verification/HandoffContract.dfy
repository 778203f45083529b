/** `validate_handoff.py`: the checks that bind a handoff to its task, and the handoff that the
    dry-run runner generates. */
module HandoffContract {
  import opened Options
  import opened Ordering
  import opened RepoPaths

  datatype Task = Task(
    taskId: string,
    allowedPaths: seq<string>,
    forbiddenPaths: seq<string>,
    deleteAllowed: bool,
    claims: seq<string>,
    expectedEvidence: seq<string>,
    validationCommands: seq<string>)

  datatype CommandResult = CommandResult(command: string, status: string)

  datatype Handoff = Handoff(
    taskId: string,
    taskSha256: string,
    outcome: string,
    changedPaths: seq<string>,
    deletedPaths: seq<string>,
    claimsAddressed: seq<string>,
    evidenceProduced: seq<string>,
    missingEvidence: seq<string>,
    results: seq<CommandResult>,
    blockers: seq<string>,
    residualGaps: seq<string>)

  datatype Code =
    | TaskIdMismatch | TaskDigestMismatch
    | PathOutOfRepo | PathOutOfScope | ForbiddenPath | PathStateContradiction | DeleteWithoutPermission
    | ClaimNotDeclared | ClaimNotAddressed
    | EvidenceStateContradiction | ExpectedEvidenceUnaccounted | UnexpectedMissingEvidence
    | EvidencePathInvalid | EvidenceNotFound
    | ResultDuplicate | ResultMissing | ContradictoryOutcome

  /** The handoff list a finding points at. */
  datatype Field = WholeHandoff | ChangedPaths | DeletedPaths | ClaimsAddressed | EvidenceProduced | MissingEvidence |
    ValidationResults | ValidationResult(index: nat) | OutcomeField | Blockers

  /** A finding: its code, the value it complains about and the field; the prose is left out. */
  datatype Finding = Finding(code: Code, subject: string, field: Field)

  function Members(s: seq<string>): set<string>
  {
    set x | x in s
  }

  /** `_normalized_file_set` */
  function NormalizedSet(values: seq<string>): set<string>
  {
    set v | v in values && Normalize(v, false).Some? :: Normalize(v, false).value
  }

  predicate InSomeScope(path: string, scopes: seq<string>)
  {
    exists i :: 0 <= i < |scopes| && MatchesScope(path, scopes[i])
  }

  function Declared(h: Handoff, field: Field): seq<string>
  {
    match field
    case ChangedPaths => h.changedPaths
    case DeletedPaths => h.deletedPaths
    case EvidenceProduced => h.evidenceProduced
    case MissingEvidence => h.missingEvidence
    case _ => []
  }

  // ---------------------------------------------------------------- when a finding is due

  /** What `_validate_paths` complains about for one declared path. */
  predicate PathFinding(t: Task, path: string, field: Field, x: Finding)
  {
    match Normalize(path, false)
    case None => x == Finding(PathOutOfRepo, path, field)
    case Some(n) =>
      || (x == Finding(PathOutOfScope, path, field) && !InSomeScope(n, t.allowedPaths))
      || (x == Finding(ForbiddenPath, path, field) && InSomeScope(n, t.forbiddenPaths))
  }

  ghost predicate SomePathFinding(t: Task, paths: seq<string>, n: nat, field: Field, x: Finding)
    requires n <= |paths|
  {
    exists k :: 0 <= k < n && PathFinding(t, paths[k], field, x)
  }

  ghost predicate PathsFinding(t: Task, h: Handoff, x: Finding)
  {
    || SomePathFinding(t, h.changedPaths, |h.changedPaths|, ChangedPaths, x)
    || SomePathFinding(t, h.deletedPaths, |h.deletedPaths|, DeletedPaths, x)
    || (x.code == PathStateContradiction && x.field == DeletedPaths &&
        x.subject in NormalizedSet(h.changedPaths) * NormalizedSet(h.deletedPaths))
    || (x == Finding(DeleteWithoutPermission, "", DeletedPaths) && NormalizedSet(h.deletedPaths) != {} && !t.deleteAllowed)
  }

  predicate ClaimsFinding(t: Task, h: Handoff, x: Finding)
  {
    && x.field == ClaimsAddressed
    && (|| (x.code == ClaimNotDeclared && x.subject in Members(h.claimsAddressed) - Members(t.claims))
        || (x.code == ClaimNotAddressed && x.subject in Members(t.claims) - Members(h.claimsAddressed)))
  }

  /** What one listed evidence path gets; `isFile` stands for the resolved existence check. */
  predicate EvidencePathFinding(isFile: string -> bool, path: string, field: Field, x: Finding)
  {
    match Normalize(path, false)
    case None => x == Finding(EvidencePathInvalid, path, field)
    case Some(n) => x == Finding(EvidenceNotFound, path, field) && field == EvidenceProduced && !isFile(n)
  }

  ghost predicate SomeEvidenceFinding(isFile: string -> bool, values: seq<string>, n: nat, field: Field, x: Finding)
    requires n <= |values|
  {
    exists k :: 0 <= k < n && EvidencePathFinding(isFile, values[k], field, x)
  }

  ghost predicate EvidenceFinding(isFile: string -> bool, t: Task, h: Handoff, x: Finding)
  {
    var expected, produced, missing :=
      NormalizedSet(t.expectedEvidence), NormalizedSet(h.evidenceProduced), NormalizedSet(h.missingEvidence);
    || (x.code == EvidenceStateContradiction && x.field == MissingEvidence && x.subject in produced * missing)
    || (x.code == ExpectedEvidenceUnaccounted && x.field == EvidenceProduced && x.subject in expected - produced - missing)
    || (x.code == UnexpectedMissingEvidence && x.field == MissingEvidence && x.subject in missing - expected)
    || SomeEvidenceFinding(isFile, h.evidenceProduced, |h.evidenceProduced|, EvidenceProduced, x)
    || SomeEvidenceFinding(isFile, h.missingEvidence, |h.missingEvidence|, MissingEvidence, x)
  }

  /** The status that `result_map` ends up with: the last one recorded for the command. */
  function LastStatus(results: seq<CommandResult>, command: string): Option<string>
  {
    if |results| == 0 then None
    else
      var last := results[|results| - 1];
      if last.command == command then Some(last.status) else LastStatus(results[..|results| - 1], command)
  }

  function Commands(results: seq<CommandResult>): seq<string>
  {
    seq(|results|, i requires 0 <= i < |results| => results[i].command)
  }

  /** Some recorded command did not end as passed. */
  ghost predicate SomeNotPassed(h: Handoff)
  {
    exists c :: c in Commands(h.results) && LastStatus(h.results, c) != Some("passed")
  }

  function MissingCommands(t: Task, h: Handoff): set<string>
  {
    Members(t.validationCommands) - Members(Commands(h.results))
  }

  /** What `ready_for_review` is contradicted by: two findings that differ in their text. */
  const OPEN_ENDS := "blockers or missing evidence"
  const UNPASSED := "a validation that did not pass"

  ghost predicate OutcomeFinding(t: Task, h: Handoff, x: Finding)
  {
    x.code == ContradictoryOutcome &&
    if h.outcome == "ready_for_review" then
      x.field == OutcomeField &&
      (|| (x.subject == OPEN_ENDS && (h.blockers != [] || h.missingEvidence != []))
       || (x.subject == UNPASSED && (SomeNotPassed(h) || MissingCommands(t, h) != {})))
    else if h.outcome == "blocked" then
      x.field == Blockers && x.subject == "" && h.blockers == []
    else
      && x.field == OutcomeField && x.subject == "" && h.outcome == "incomplete"
      && h.missingEvidence == [] && h.residualGaps == [] && !SomeNotPassed(h) && MissingCommands(t, h) == {}
      && Members(t.claims) - Members(h.claimsAddressed) == {}
  }

  predicate RepeatedAt(results: seq<CommandResult>, i: nat)
    requires i < |results|
  {
    exists j :: 0 <= j < i && results[j].command == results[i].command
  }

  ghost predicate ResultsFinding(t: Task, h: Handoff, x: Finding)
  {
    || (x.code == ResultDuplicate && x.field.ValidationResult? && x.field.index < |h.results| &&
        x.subject == h.results[x.field.index].command && RepeatedAt(h.results, x.field.index))
    || (x.code == ResultMissing && x.field == ValidationResults && x.subject in MissingCommands(t, h))
    || OutcomeFinding(t, h, x)
  }

  ghost predicate BindingFinding(isFile: string -> bool, digest: string, t: Task, h: Handoff, x: Finding)
  {
    || (x == Finding(TaskIdMismatch, "", WholeHandoff) && h.taskId != t.taskId)
    || (x == Finding(TaskDigestMismatch, "", WholeHandoff) && h.taskSha256 != digest)
    || PathsFinding(t, h, x) || ClaimsFinding(t, h, x) || EvidenceFinding(isFile, t, h, x) || ResultsFinding(t, h, x)
  }

  // ---------------------------------------------------------------- the loops

  /** The body of `for declared_path in handoff[field]`. */
  method CheckPath(t: Task, p: string, field: Field) returns (findings: seq<Finding>)
    ensures forall x :: x in findings <==> PathFinding(t, p, field, x)
  {
    match Normalize(p, false)
    case None => findings := [Finding(PathOutOfRepo, p, field)];
    case Some(n) =>
      findings := [];
      if !InSomeScope(n, t.allowedPaths) {
        findings := findings + [Finding(PathOutOfScope, p, field)];
      }
      if InSomeScope(n, t.forbiddenPaths) {
        findings := findings + [Finding(ForbiddenPath, p, field)];
      }
  }

  lemma OneMorePath(t: Task, paths: seq<string>, n: nat, field: Field, x: Finding)
    requires n < |paths|
    ensures SomePathFinding(t, paths, n + 1, field, x) <==>
            SomePathFinding(t, paths, n, field, x) || PathFinding(t, paths[n], field, x)
  {
  }

  /** `for declared_path in handoff[field]` */
  method CheckPaths(t: Task, paths: seq<string>, field: Field) returns (findings: seq<Finding>)
    ensures forall x :: x in findings <==> SomePathFinding(t, paths, |paths|, field, x)
  {
    findings := [];
    for i := 0 to |paths|
      invariant forall x :: x in findings <==> SomePathFinding(t, paths, i, field, x)
    {
      var more := CheckPath(t, paths[i], field);
      forall x ensures x in findings + more <==> SomePathFinding(t, paths, i + 1, field, x) {
        OneMorePath(t, paths, i, field, x);
      }
      findings := findings + more;
    }
  }

  /** One finding for every element of a set, in sorted order. */
  method ReportSet(items: set<string>, code: Code, field: Field) returns (findings: seq<Finding>)
    ensures forall x :: x in findings <==> x.code == code && x.field == field && x.subject in items
  {
    var sorted := SortSet(items);
    findings := [];
    for i := 0 to |sorted|
      invariant forall x :: x in findings <==> x.code == code && x.field == field && x.subject in sorted[..i]
    {
      findings := findings + [Finding(code, sorted[i], field)];
      assert forall s :: s in sorted[..i + 1] <==> s in sorted[..i] || s == sorted[i];
    }
    assert sorted[..|sorted|] == sorted;
  }

  lemma InConcat(a: seq<Finding>, b: seq<Finding>)
    ensures forall x :: x in a + b <==> x in a || x in b
  {
  }

  /** `_validate_paths` */
  method ValidatePaths(t: Task, h: Handoff) returns (findings: seq<Finding>)
    ensures forall x :: x in findings <==> PathsFinding(t, h, x)
  {
    var a := CheckPaths(t, h.changedPaths, ChangedPaths);
    var b := CheckPaths(t, h.deletedPaths, DeletedPaths);
    var changed, deleted := NormalizedSet(h.changedPaths), NormalizedSet(h.deletedPaths);
    var c := ReportSet(changed * deleted, PathStateContradiction, DeletedPaths);
    var d := if deleted != {} && !t.deleteAllowed then [Finding(DeleteWithoutPermission, "", DeletedPaths)] else [];
    findings := a + b + c + d;
    InConcat(a + b + c, d);
    InConcat(a + b, c);
    InConcat(a, b);
  }

  /** `_validate_claims` */
  method ValidateClaims(t: Task, h: Handoff) returns (findings: seq<Finding>)
    ensures forall x :: x in findings <==> ClaimsFinding(t, h, x)
  {
    var a := ReportSet(Members(h.claimsAddressed) - Members(t.claims), ClaimNotDeclared, ClaimsAddressed);
    var b := ReportSet(Members(t.claims) - Members(h.claimsAddressed), ClaimNotAddressed, ClaimsAddressed);
    findings := a + b;
    InConcat(a, b);
  }

  /** `for evidence in values` */
  method CheckEvidence(isFile: string -> bool, values: seq<string>, field: Field) returns (findings: seq<Finding>)
    ensures forall x :: x in findings <==> SomeEvidenceFinding(isFile, values, |values|, field, x)
  {
    findings := [];
    for i := 0 to |values|
      invariant forall x :: x in findings <==> SomeEvidenceFinding(isFile, values, i, field, x)
    {
      var p := values[i];
      ghost var before := findings;
      match Normalize(p, false)
      case None => findings := findings + [Finding(EvidencePathInvalid, p, field)];
      case Some(n) =>
        if field == EvidenceProduced && !isFile(n) {
          findings := findings + [Finding(EvidenceNotFound, p, field)];
        }
      assert forall x :: x in findings <==> x in before || EvidencePathFinding(isFile, p, field, x);
      forall x ensures SomeEvidenceFinding(isFile, values, i + 1, field, x) <==>
                       SomeEvidenceFinding(isFile, values, i, field, x) || EvidencePathFinding(isFile, p, field, x) {
        OneMoreEvidence(isFile, values, i, field, x);
      }
    }
  }

  lemma OneMoreEvidence(isFile: string -> bool, values: seq<string>, i: nat, field: Field, x: Finding)
    requires i < |values|
    ensures SomeEvidenceFinding(isFile, values, i + 1, field, x) <==>
            SomeEvidenceFinding(isFile, values, i, field, x) || EvidencePathFinding(isFile, values[i], field, x)
  {
  }

  /** `_validate_evidence` */
  method ValidateEvidence(isFile: string -> bool, t: Task, h: Handoff) returns (findings: seq<Finding>)
    ensures forall x :: x in findings <==> EvidenceFinding(isFile, t, h, x)
  {
    var expected, produced, missing :=
      NormalizedSet(t.expectedEvidence), NormalizedSet(h.evidenceProduced), NormalizedSet(h.missingEvidence);
    var a := ReportSet(produced * missing, EvidenceStateContradiction, MissingEvidence);
    var b := ReportSet(expected - produced - missing, ExpectedEvidenceUnaccounted, EvidenceProduced);
    var c := ReportSet(missing - expected, UnexpectedMissingEvidence, MissingEvidence);
    var d := CheckEvidence(isFile, h.evidenceProduced, EvidenceProduced);
    var e := CheckEvidence(isFile, h.missingEvidence, MissingEvidence);
    findings := a + b + c + d + e;
    InConcat(a + b + c + d, e);
    InConcat(a + b + c, d);
    InConcat(a + b, c);
    InConcat(a, b);
  }

  /** The loop that fills `result_map`. */
  method CollectResults(results: seq<CommandResult>) returns (findings: seq<Finding>, resultMap: map<string, string>)
    ensures forall x :: x in findings <==>
              x.code == ResultDuplicate && x.field.ValidationResult? && x.field.index < |results| &&
              x.subject == results[x.field.index].command && RepeatedAt(results, x.field.index)
    ensures resultMap.Keys == Members(Commands(results))
    ensures forall c :: c in resultMap ==> LastStatus(results, c) == Some(resultMap[c])
  {
    findings, resultMap := [], map[];
    for i := 0 to |results|
      invariant forall x :: x in findings <==>
                  x.code == ResultDuplicate && x.field.ValidationResult? && x.field.index < i &&
                  x.subject == results[x.field.index].command && RepeatedAt(results, x.field.index)
      invariant forall c :: c in resultMap <==> exists j :: 0 <= j < i && results[j].command == c
      invariant forall c :: c in resultMap ==> LastStatus(results[..i], c) == Some(resultMap[c])
    {
      var item := results[i];
      assert results[..i + 1][..i] == results[..i];
      if item.command in resultMap {
        findings := findings + [Finding(ResultDuplicate, item.command, ValidationResult(i))];
      }
      resultMap := resultMap[item.command := item.status];
    }
    assert results[..|results|] == results;
    forall c ensures c in Commands(results) <==> c in resultMap {
      if c in Commands(results) {
        var j :| 0 <= j < |results| && Commands(results)[j] == c;
        assert results[j].command == c;
      }
      if c in resultMap {
        var j :| 0 <= j < |results| && results[j].command == c;
        assert Commands(results)[j] == c;
      }
    }
  }

  /** `_validate_results_and_outcome` */
  method ValidateResultsAndOutcome(t: Task, h: Handoff) returns (findings: seq<Finding>)
    ensures forall x :: x in findings <==> ResultsFinding(t, h, x)
  {
    var duplicates, resultMap := CollectResults(h.results);
    var missingResults := Members(t.validationCommands) - resultMap.Keys;
    var missing := ReportSet(missingResults, ResultMissing, ValidationResults);
    var nonPassed := set c | c in resultMap && resultMap[c] != "passed";
    assert nonPassed != {} <==> SomeNotPassed(h) by {
      if nonPassed != {} {
        var c :| c in nonPassed;
        assert c in Members(Commands(h.results)) && LastStatus(h.results, c) != Some("passed");
      }
      if SomeNotPassed(h) {
        var c :| c in Commands(h.results) && LastStatus(h.results, c) != Some("passed");
        assert c in Members(Commands(h.results)) && c in nonPassed;
      }
    }
    var unaddressed := Members(t.claims) - Members(h.claimsAddressed);
    var outcome: seq<Finding> := [];
    if h.outcome == "ready_for_review" {
      if h.blockers != [] || h.missingEvidence != [] {
        outcome := outcome + [Finding(ContradictoryOutcome, OPEN_ENDS, OutcomeField)];
      }
      if nonPassed != {} || missingResults != {} {
        outcome := outcome + [Finding(ContradictoryOutcome, UNPASSED, OutcomeField)];
      }
    } else if h.outcome == "blocked" {
      if h.blockers == [] {
        outcome := [Finding(ContradictoryOutcome, "", Blockers)];
      }
    } else if h.outcome == "incomplete" &&
              !(h.missingEvidence != [] || h.residualGaps != [] || nonPassed != {} || missingResults != {} ||
                unaddressed != {}) {
      outcome := [Finding(ContradictoryOutcome, "", OutcomeField)];
    }
    assert forall x :: x in outcome <==> OutcomeFinding(t, h, x);
    findings := duplicates + missing + outcome;
    InConcat(duplicates + missing, outcome);
    InConcat(duplicates, missing);
  }

  /** `_validate_binding`: exactly the findings that are due. */
  method ValidateBinding(isFile: string -> bool, digest: string, t: Task, h: Handoff) returns (findings: seq<Finding>)
    ensures forall x :: x in findings <==> BindingFinding(isFile, digest, t, h, x)
  {
    var id := if h.taskId != t.taskId then [Finding(TaskIdMismatch, "", WholeHandoff)] else [];
    var sha := if h.taskSha256 != digest then [Finding(TaskDigestMismatch, "", WholeHandoff)] else [];
    var a := ValidatePaths(t, h);
    var b := ValidateClaims(t, h);
    var c := ValidateEvidence(isFile, t, h);
    var d := ValidateResultsAndOutcome(t, h);
    findings := id + sha + a + b + c + d;
    InConcat(id + sha + a + b + c, d);
    InConcat(id + sha + a + b, c);
    InConcat(id + sha + a, b);
    InConcat(id + sha, a);
    InConcat(id, sha);
  }

  // ---------------------------------------------------------------- what acceptance means

  ghost predicate Accepted(isFile: string -> bool, digest: string, t: Task, h: Handoff)
  {
    forall x :: !BindingFinding(isFile, digest, t, h, x)
  }

  /** The path normalises, lies in an allowed scope and in no forbidden one. */
  predicate Permitted(t: Task, path: string)
  {
    && Normalize(path, false).Some?
    && InSomeScope(Normalize(path, false).value, t.allowedPaths)
    && !InSomeScope(Normalize(path, false).value, t.forbiddenPaths)
  }

  lemma NoPathFinding(t: Task, path: string, field: Field)
    ensures Permitted(t, path) <==> forall x :: !PathFinding(t, path, field, x)
  {
    if !Permitted(t, path) {
      var x := match Normalize(path, false)
        case None => Finding(PathOutOfRepo, path, field)
        case Some(n) =>
          Finding(if !InSomeScope(n, t.allowedPaths) then PathOutOfScope else ForbiddenPath, path, field);
      assert PathFinding(t, path, field, x);
    }
  }

  lemma AcceptedPath(isFile: string -> bool, digest: string, t: Task, h: Handoff, field: Field, k: nat)
    requires Accepted(isFile, digest, t, h) && (field == ChangedPaths || field == DeletedPaths)
    requires k < |Declared(h, field)|
    ensures Permitted(t, Declared(h, field)[k])
  {
    forall x ensures !PathFinding(t, Declared(h, field)[k], field, x) {
      assert !BindingFinding(isFile, digest, t, h, x);
      assert !SomePathFinding(t, Declared(h, field), |Declared(h, field)|, field, x);
    }
    NoPathFinding(t, Declared(h, field)[k], field);
  }

  /** An accepted handoff touches only permitted paths, and no path is both changed and deleted. */
  lemma AcceptedPaths(isFile: string -> bool, digest: string, t: Task, h: Handoff)
    requires Accepted(isFile, digest, t, h)
    ensures forall p :: p in h.changedPaths || p in h.deletedPaths ==> Permitted(t, p)
    ensures NormalizedSet(h.changedPaths) * NormalizedSet(h.deletedPaths) == {}
    ensures NormalizedSet(h.deletedPaths) != {} ==> t.deleteAllowed
  {
    forall p | p in h.changedPaths || p in h.deletedPaths ensures Permitted(t, p) {
      var field := if p in h.changedPaths then ChangedPaths else DeletedPaths;
      var k :| 0 <= k < |Declared(h, field)| && Declared(h, field)[k] == p;
      AcceptedPath(isFile, digest, t, h, field, k);
    }
    AcceptedDeletions(isFile, digest, t, h);
  }

  lemma AcceptedDeletions(isFile: string -> bool, digest: string, t: Task, h: Handoff)
    requires Accepted(isFile, digest, t, h)
    ensures NormalizedSet(h.changedPaths) * NormalizedSet(h.deletedPaths) == {}
    ensures NormalizedSet(h.deletedPaths) != {} ==> t.deleteAllowed
  {
    var changed, deleted := NormalizedSet(h.changedPaths), NormalizedSet(h.deletedPaths);
    forall s: string ensures s !in changed * deleted {
      assert !BindingFinding(isFile, digest, t, h, Finding(PathStateContradiction, s, DeletedPaths));
    }
    assert !BindingFinding(isFile, digest, t, h, Finding(DeleteWithoutPermission, "", DeletedPaths));
  }

  /** An accepted handoff agrees with its task: identity, claims, and the missing evidence is
      exactly what was expected and not produced. */
  lemma AcceptedAgrees(isFile: string -> bool, digest: string, t: Task, h: Handoff)
    requires Accepted(isFile, digest, t, h)
    ensures Members(h.claimsAddressed) == Members(t.claims)
    ensures NormalizedSet(h.missingEvidence) == NormalizedSet(t.expectedEvidence) - NormalizedSet(h.evidenceProduced)
    ensures h.taskId == t.taskId && h.taskSha256 == digest
  {
    assert !BindingFinding(isFile, digest, t, h, Finding(TaskIdMismatch, "", WholeHandoff));
    assert !BindingFinding(isFile, digest, t, h, Finding(TaskDigestMismatch, "", WholeHandoff));
    forall s ensures s in Members(h.claimsAddressed) <==> s in Members(t.claims) {
      assert !BindingFinding(isFile, digest, t, h, Finding(ClaimNotDeclared, s, ClaimsAddressed));
      assert !BindingFinding(isFile, digest, t, h, Finding(ClaimNotAddressed, s, ClaimsAddressed));
    }
    var expected, produced, missing :=
      NormalizedSet(t.expectedEvidence), NormalizedSet(h.evidenceProduced), NormalizedSet(h.missingEvidence);
    forall s ensures s in missing <==> s in expected - produced {
      assert !BindingFinding(isFile, digest, t, h, Finding(EvidenceStateContradiction, s, MissingEvidence));
      assert !BindingFinding(isFile, digest, t, h, Finding(ExpectedEvidenceUnaccounted, s, EvidenceProduced));
      assert !BindingFinding(isFile, digest, t, h, Finding(UnexpectedMissingEvidence, s, MissingEvidence));
    }
  }

  /** Every produced evidence path of an accepted handoff names an existing file. */
  lemma AcceptedEvidenceExists(isFile: string -> bool, digest: string, t: Task, h: Handoff, p: string)
    requires Accepted(isFile, digest, t, h) && p in h.evidenceProduced
    ensures Normalize(p, false).Some? && isFile(Normalize(p, false).value)
  {
    var x := Finding(if Normalize(p, false).None? then EvidencePathInvalid else EvidenceNotFound, p, EvidenceProduced);
    assert !BindingFinding(isFile, digest, t, h, x);
    assert !SomeEvidenceFinding(isFile, h.evidenceProduced, |h.evidenceProduced|, EvidenceProduced, x);
    var k :| 0 <= k < |h.evidenceProduced| && h.evidenceProduced[k] == p;
    assert !EvidencePathFinding(isFile, h.evidenceProduced[k], EvidenceProduced, x);
  }

  /** An accepted handoff that claims readiness has run every required command to success and
      produced all expected evidence. */
  lemma ReadyMeansDone(isFile: string -> bool, digest: string, t: Task, h: Handoff)
    requires Accepted(isFile, digest, t, h) && h.outcome == "ready_for_review"
    ensures forall c :: c in t.validationCommands ==> LastStatus(h.results, c) == Some("passed")
    ensures NormalizedSet(t.expectedEvidence) <= NormalizedSet(h.evidenceProduced)
    ensures h.blockers == [] && h.missingEvidence == []
  {
    forall subject | subject == OPEN_ENDS || subject == UNPASSED
      ensures !OutcomeFinding(t, h, Finding(ContradictoryOutcome, subject, OutcomeField))
    {
      assert !BindingFinding(isFile, digest, t, h, Finding(ContradictoryOutcome, subject, OutcomeField));
    }
    assert !OutcomeFinding(t, h, Finding(ContradictoryOutcome, OPEN_ENDS, OutcomeField));
    assert !OutcomeFinding(t, h, Finding(ContradictoryOutcome, UNPASSED, OutcomeField));
    AcceptedAgrees(isFile, digest, t, h);
    forall s | s in NormalizedSet(t.expectedEvidence) ensures s in NormalizedSet(h.evidenceProduced) {
      assert s !in NormalizedSet(h.missingEvidence);
    }
    forall c | c in t.validationCommands ensures LastStatus(h.results, c) == Some("passed") {
      assert c in Members(t.validationCommands);
      assert c in Members(Commands(h.results)) by {
        assert c !in MissingCommands(t, h);
      }
    }
  }

  // ---------------------------------------------------------------- the runner's own handoff

  const RESIDUAL_GAPS: seq<string> := [
    "dry-run does not execute task validation commands",
    "dry-run does not apply repository changes",
    "run-evidence-lite persists only successfully planned dry-runs",
    "run-evidence-lite is not a CI attestation or write-mode authorization"]

  /** `_handoff` */
  function RunnerHandoff(t: Task, digest: string): Handoff
  {
    Handoff(t.taskId, digest, "incomplete", [], [], t.claims, [], t.expectedEvidence,
            seq(|t.validationCommands|, i requires 0 <= i < |t.validationCommands| =>
                  CommandResult(t.validationCommands[i], "not_run")),
            [], RESIDUAL_GAPS)
  }

  lemma RunnerCommands(t: Task, digest: string)
    ensures Commands(RunnerHandoff(t, digest).results) == t.validationCommands
  {
  }

  /** The only things the runner's own handoff can be faulted for: an expected evidence entry
      that is no file path, and a validation command listed twice. */
  lemma RunnerFindings(isFile: string -> bool, t: Task, digest: string, x: Finding)
    ensures BindingFinding(isFile, digest, t, RunnerHandoff(t, digest), x) <==>
            || (x.code == EvidencePathInvalid && x.field == MissingEvidence &&
                x.subject in t.expectedEvidence && Normalize(x.subject, false).None?)
            || (x.code == ResultDuplicate && x.field.ValidationResult? && x.field.index < |t.validationCommands| &&
                x.subject == t.validationCommands[x.field.index] &&
                exists j :: 0 <= j < x.field.index && t.validationCommands[j] == x.subject)
  {
    var h := RunnerHandoff(t, digest);
    RunnerCommands(t, digest);
    assert !PathsFinding(t, h, x);
    assert !ClaimsFinding(t, h, x);
    assert NormalizedSet(h.evidenceProduced) == {};
    assert |RESIDUAL_GAPS| == 4 && h.residualGaps != [];
    assert !OutcomeFinding(t, h, x);
    assert MissingCommands(t, h) == {};
    assert EvidenceFinding(isFile, t, h, x) <==>
           SomeEvidenceFinding(isFile, t.expectedEvidence, |t.expectedEvidence|, MissingEvidence, x);
    if x.code == EvidencePathInvalid && x.field == MissingEvidence && x.subject in t.expectedEvidence &&
       Normalize(x.subject, false).None? {
      var k :| 0 <= k < |t.expectedEvidence| && t.expectedEvidence[k] == x.subject;
      assert EvidencePathFinding(isFile, t.expectedEvidence[k], MissingEvidence, x);
    }
  }

  /** The runner accepts its own handoff exactly if every expected evidence entry normalises as a
      file path and no validation command is listed twice. */
  lemma RunnerHandoffAccepted(isFile: string -> bool, t: Task, digest: string)
    ensures Accepted(isFile, digest, t, RunnerHandoff(t, digest)) <==> SelfAcceptable(t)
  {
    var h := RunnerHandoff(t, digest);
    if Accepted(isFile, digest, t, h) {
      forall p | p in t.expectedEvidence ensures Normalize(p, false).Some? {
        RunnerFindings(isFile, t, digest, Finding(EvidencePathInvalid, p, MissingEvidence));
      }
      forall i, j | 0 <= i < j < |t.validationCommands| ensures t.validationCommands[i] != t.validationCommands[j] {
        RunnerFindings(isFile, t, digest, Finding(ResultDuplicate, t.validationCommands[j], ValidationResult(j)));
      }
    } else {
      var x :| BindingFinding(isFile, digest, t, h, x);
      RunnerFindings(isFile, t, digest, x);
    }
  }

  /** What a task must look like for the runner to accept its own handoff. */
  ghost predicate SelfAcceptable(t: Task)
  {
    (forall p :: p in t.expectedEvidence ==> Normalize(p, false).Some?) && Distinct(t.validationCommands)
  }

  // ---------------------------------------------------------------- the runner's evidence accounting

  datatype Accounting = Accounting(produced: seq<string>, missing: seq<string>)

  datatype AccountingError = Incomplete | Invalid

  /** `_evidence_accounting` */
  function RunnerAccounting(t: Task): Accounting
  {
    Accounting([], t.expectedEvidence)
  }

  /** `_validate_evidence_accounting`: nothing is raised exactly if the missing entries lie between
      the expected ones that were not produced and all expected ones; the runner's own accounting
      always passes. */
  method ValidateAccounting(t: Task, a: Accounting) returns (error: Option<AccountingError>)
    ensures error.None? <==>
            Members(t.expectedEvidence) - Members(a.produced) <= Members(a.missing) <= Members(t.expectedEvidence)
    ensures error == Some(Invalid) ==> Members(t.expectedEvidence) <= Members(a.produced) + Members(a.missing)
    ensures a == RunnerAccounting(t) ==> error.None?
  {
    var expected, produced, missing := Members(t.expectedEvidence), Members(a.produced), Members(a.missing);
    if expected - produced - missing != {} {
      return Some(Incomplete);
    }
    assert forall e :: e in expected && e !in produced && e !in missing ==> e in expected - produced - missing;
    if missing - expected != {} {
      ghost var e :| e in missing - expected;
      assert e in missing && e !in expected;
      return Some(Invalid);
    }
    return None;
  }
}
