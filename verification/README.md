# Verified models of the repository's tooling

The repository's tooling holds several small algorithms and protocols whose correctness is not
obvious from reading them: a depth-first cycle search with an explicit stack, a JSON Schema
validator, an evidence publication that must never replace what is already there, a cache that many
processes fill at once, a streaming audit, a handoff contract and three hand-written parsers of one
format. This project models them in Dafny, branch by branch, and proves what they are for.
`dafny verify dfyconfig.toml` checks everything. Every theorem is about the model; the Python
program itself is not executed.

| part | modules |
|---|---|
| shared vocabulary | `Options`, `Ordering`, `Reachability`, `Text` |
| graphs of document relations | `RelationGraph`, `Cycles`, `Clusters` |
| JSON Schema validation | `JsonSchema`, `Validation`, `Validator`, `Meaning`, `Violations`, `FindingOrder`, `Totality`, `DraftReading` |
| cache publication | `CachePublication` |
| evidence publication and dry run | `RepositoryGuard`, `EvidenceFs`, `EvidencePublication`, `DryRun`, `HashRecords` |
| handoff contract | `RepoPaths`, `HandoffContract` |
| reference audit | `ReferenceAudit` |
| relation readers | `FrontmatterText`, `RelationDocument`, `RelationsParser`, `RelationsMeaning`, `Docmeta`, `DocmetaFields`, `LifecycleInventory`, `InventoryFields`, `RelationAgreement` |
| Markdown rows | `MarkdownRow` |
| aggregation passes | `AuditGaps`, `EmailKeys` |

How the parts are set up:

- Code that works step by step is a method proved against a specification, and the specification has
  theorems of its own. For the validator the specification is `Validation.Validate`, written as a list
  of jobs per schema node; the methods of `Validator` follow the loops and compute exactly that.
- `Validate` takes a limit on nested calls; `TooDeep` stands for Python's RecursionError and `Raised`
  for the other exceptions. `Totality` removes the limit again: a deeper limit never changes an answer,
  a sufficient one is computed from the schema and the depth of the value, and "for every value there
  is a limit at which the call returns" is characterised exactly.
- File-system and repository calls are methods of a class whose answers are arbitrary: any call may
  fail, and unless `quiet` is set other processes may change every name between two calls. Theorems
  are about the log of what the process did and saw; under `quiet` they are also about the final state.
  Ghost flags record that a call has failed, so that theorems can also say when nothing goes wrong.
- The cache protocol is a transition system with any number of processes that may crash anywhere. Its
  theorems are about every reachable state or every pair of states of a run.
- Regular expressions, SHA-256, `json.dumps`, `repr` and the file system below a path are functions or
  parameters about which nothing is assumed, except where a theorem says so. The satisfaction theorem
  assumes that the canonical JSON text tells apart the items of each array inside the instance;
  `DraftReading.UniqueNeedsSeparation` shows that `uniqueItems` needs this and no more.

## Findings

Where a property one would expect is false, the code is modelled as it is, an input shows the failure,
and the exact condition is proved.

- A schema with an explicit null for `allOf`, `required` or `properties` passes
  `ensure_supported_schema`, because the check reads a missing and a null keyword alike, but
  `validate_instance` then iterates over `None`. `Totality.NullKeywordIsAccepted`,
  `Totality.NullAllOfRaises`, `Totality.NullRequiredRaises` and `Totality.NullPropertiesRaises` give the
  failing schemas and values; `Totality.AcceptedReturns` is the exact condition for an accepted schema:
  the call returns for every value if and only if no node it can get to holds such a null.
- Siblings of `$ref` are evaluated together with the target; JSON Schema Draft-07, section 8.3 of the
  core document, ignores them. `DraftReading.SiblingsCanDiffer` is a schema on which this shows. The
  code is never more lenient (`DraftReading.CodeIsStricter`); at one reference it differs exactly on the
  values that the target accepts and the siblings reject (`DraftReading.SiblingsDecide`), and nowhere if
  no reference in reach has asserting siblings (`DraftReading.BareReferencesAgree`).
- `enum` takes `true` for 1 (`DraftReading.EnumTakesTrueForOne`), because Python does; it differs from
  JSON equality exactly where a boolean meets a number (`DraftReading.EnumAgreesExactly`).
- `uniqueItems` takes 1 and 1.0 for different (`DraftReading.UniqueTakesOneTwice`), because their
  canonical texts differ; `DraftReading.UniqueAgreesExactly` is the exact condition.
- The three relation readers differ. `docmeta.py` keeps quotation marks and, unlike what
  `relations_parser.py` documents, drops entries that are indented by a tab.
  `RelationAgreement.FirstTwoAgree` (no value quoted) and `RelationAgreement.AgreementNeedsSpaces` (no
  entries, or an indentation that begins with a space) are the exact conditions.
- Cleaning up after a cache download asks `exists()` before `unlink()`. A stat that fails reads as
  "absent", so the temporary file stays although the download is reported as a success;
  `CachePublication.StatFailureLeavesTemp` is such a run, `CachePublication.UnlinkFailureLeavesTemp`
  one with a failing unlink. `CachePublication.CleanExitRemovesTemp` shows that the file is removed if
  and only if neither of the two calls failed.
- The runner's own handoff is not always acceptable to the handoff validator:
  `HandoffContract.RunnerHandoffAccepted` shows that it is exactly when every expected evidence path
  normalises as a file path and no validation command is repeated.

## Model

| member | source | states |
|---|---|---|
| Cycles.FindCycles | scripts/docmeta/generate_relations_analysis.py:69-126 | every reported list is a closed walk of real `depends_on` relations that repeats only its endpoint; without the closing arc of every reported cycle the graph is acyclic; the report is empty exactly for acyclic graphs; an arc closes no report or exactly as many as it occurs in the input; and the list is that of a recursive search over the relations |
| Cycles.SearchFrom | scripts/docmeta/generate_relations_analysis.py:86-124 | one start node: the visited nodes, the finishing order and the reports so far stay a proof that all explored arcs but the reported ones descend, and every property that the moves of the search keep holds of the result |
| Cycles.Step | scripts/docmeta/generate_relations_analysis.py:92-124 | one iteration of the stack loop keeps the stack a trail of suspended frames and every such property, and makes progress, so the loop ends |
| Cycles.ScanNeighbors | scripts/docmeta/generate_relations_analysis.py:107-120 | the scan of a row stops at the first neighbour that is neither on the stack nor visited, and keeps every property that one report per stack neighbour and passing a visited one keep |
| Cycles.LeadsToKept | scripts/docmeta/generate_relations_analysis.py:91-124 | from every stack the explicit loop goes on to the result of the recursive search: reporting, passing, pushing and finishing each leave it unchanged |
| Cycles.TalliesKept | scripts/docmeta/generate_relations_analysis.py:91-124 | at every moment each node has reported as many cycles as stack neighbours were scanned in its row, and a node that was not entered none |
| Cycles.TalliedArcs | scripts/docmeta/generate_relations_analysis.py:91-124 | so in the end the reports closed by an arc are none, or one for each of its occurrences |
| Cycles.PushKeepsHead | scripts/docmeta/generate_relations_analysis.py:96-120 | a pushed frame is neither visited nor on the stack when it is popped: the re-check on a fresh frame never fires |
| Cycles.RankedIsAcyclic | scripts/docmeta/generate_relations_analysis.py:69-126 | a complete finishing order along which every uncut arc descends rules out every closed walk of uncut arcs |
| Cycles.TrailClosesCycle | scripts/docmeta/generate_relations_analysis.py:110-114 | the slice taken at a stack neighbour is a simple cycle whose last arc leaves the current node |
| Cycles.BuildRows | scripts/docmeta/generate_relations_analysis.py:76-80 | the adjacency rows hold exactly the targets of the `depends_on` relations in order, each key once, in the order of its first relation |
| Clusters.FindClusters | scripts/docmeta/generate_relates_to_audit.py:137-176 | the clusters partition the endpoints of `relates_to` relations, two nodes share one exactly if an undirected path joins them, and the list is ordered by descending size, then smallest member |
| Clusters.FindComponent | scripts/docmeta/generate_relates_to_audit.py:160-173 | the queue search returns exactly the nodes connected with its root, each once, and marks them visited |
| Clusters.ReportIsUnique | scripts/docmeta/generate_relates_to_audit.py:137-176 | two reports for relation lists with the same undirected adjacency are equal: the order and multiplicity of the input do not matter |
| JsonSchema.UnescapeInvertsEscape | scripts/agent/json_contract.py:82-82 | decoding a token inverts the escaping of RFC 6901, section 3, for every string |
| JsonSchema.PointerFollowsTokens | scripts/agent/json_contract.py:77-90 | a reference spelled from any list of member names resolves to exactly the object reached by those names, or to nothing |
| Validator.ResolvePointer | scripts/agent/json_contract.py:77-90 | the loop over the decoded tokens computes the specified resolution |
| Validator.ValidateAgainst | scripts/agent/json_contract.py:204-333 | the public entry, with an absent or empty root replaced by the schema: a returned list holds exactly the violations, and for instances whose array items the canonical form tells apart it is empty exactly if they satisfy the schema |
| Validator.ValidateInstance | scripts/agent/json_contract.py:204-333 | the recursive method with its loops computes the specified outcome for every limit, root, schema and value |
| Validator.UniqueFindings | scripts/agent/json_contract.py:270-278 | the loop with the set of seen canonical forms reports exactly the items that repeat an earlier one |
| Validator.PropertyFindings | scripts/agent/json_contract.py:242-255 | the loop over the sorted members yields the specified checks of the declared ones and reports of forbidden additional ones, and raises where they do |
| Meaning.ValidateIsSatisfaction | scripts/agent/json_contract.py:204-333 | for every root, schema and value whose array items the canonical form tells apart: a returned list of findings is empty if and only if the value satisfies the schema, read keyword by keyword through all `$ref` and `allOf` steps |
| Meaning.SatisfiesUnfold | scripts/agent/json_contract.py:217-224 | satisfaction is the node's own assertions together with satisfaction of every `$ref` target and `allOf` member |
| Violations.FindingsAreViolations | scripts/agent/json_contract.py:204-333 | for every root, schema, value and path: a pair of path and message is in a returned list if and only if some node that applies to some place of the value, through references, `allOf`, members and items of the right type, has that violation there; a wrong type is the only one of its node and hides what the node would lead to |
| Violations.PathNamesPlace | scripts/agent/json_contract.py:242-310 | the path at which a node is applied spells the place of its value: members append a dot and their name, items their index in brackets |
| Violations.NumberInvertsDecimal | scripts/agent/json_contract.py:270-310 | the digits of an index determine it, so different items have different paths |
| FindingOrder.ValidateIsStrict | scripts/agent/json_contract.py:330-333 | every returned list is strictly increasing in (path, message) |
| FindingOrder.OrderIsIrrelevant | scripts/agent/json_contract.py:204-333 | `allOf` and `required` lists may be reordered at every depth of schema and root, behind references too: a call returns exactly if it returned before, and then the same findings |
| FindingOrder.RootOrderIsIrrelevant | scripts/agent/json_contract.py:204-333 | the same, in both directions, for a schema validated as its own root |
| FindingOrder.PermutedAllOf | scripts/agent/json_contract.py:223-224 | every permutation of an `allOf` list, with members that may be reordered inside, is such a reordering |
| FindingOrder.PermutedRequired | scripts/agent/json_contract.py:235-240 | every permutation of a `required` list is such a reordering |
| FindingOrder.ReorderedSelf | scripts/agent/json_contract.py:204-333 | every schema is a reordering of itself |
| FindingOrder.ReorderedBack | scripts/agent/json_contract.py:204-333 | and being a reordering is symmetric |
| Totality.LimitIsIrrelevant | scripts/agent/json_contract.py:204-333 | a deeper nesting limit never changes an answer |
| Totality.ReturnedIsBounded | scripts/agent/json_contract.py:217-224 | a call that returns has only finite `$ref` and `allOf` chains below its schema: a cycle exhausts every limit |
| Totality.DepthSuffices | scripts/agent/json_contract.py:204-333 | with in-place chains below h here and H everywhere, h + H * d nested calls suffice for a value of depth d |
| Totality.NestingSuffices | scripts/agent/json_contract.py:204-333 | every value has such a depth, so some limit is enough for it |
| Totality.ReturnsForAll | scripts/agent/json_contract.py:204-333 | validation returns for every value if and only if every schema node it can get to is supported, has resolvable references, no null that raises and no endless `$ref` or `allOf` chain |
| Totality.AcceptedReturns | scripts/agent/json_contract.py:93-183 | for an accepted root whose references resolve to schema positions without cycles: it returns for every value if and only if no node it can get to holds a null `allOf`, `required` or `properties` that is looked at |
| Totality.NullKeywordIsAccepted | scripts/agent/json_contract.py:111-183 | an explicit null for `allOf`, `required` or `properties` passes the schema check |
| Totality.NullAllOfRaises | scripts/agent/json_contract.py:223-224 | no validation against a schema with a null `allOf` returns; it raises unless a `$ref` is followed first |
| Totality.NullRequiredRaises | scripts/agent/json_contract.py:234-240 | no validation of an object against a null `required` returns, unless the type already rules the object out |
| Totality.NullPropertiesRaises | scripts/agent/json_contract.py:242-255 | the same for a null `properties` and every object with at least one member |
| DraftReading.SiblingsAreConjoined | scripts/agent/json_contract.py:217-224 | at a resolved `$ref` a value satisfies the node exactly if it satisfies the target and the node without the reference |
| DraftReading.SiblingsDecide | scripts/agent/json_contract.py:217-224 | so code and target agree on a value exactly if the siblings accept it or the target does not |
| DraftReading.CodeIsStricter | scripts/agent/json_contract.py:217-224 | what satisfies a schema as the code reads it satisfies it when siblings of `$ref` are ignored at every depth |
| DraftReading.BareReferencesAgree | scripts/agent/json_contract.py:217-224 | the two readings agree on every value if no node that validation can get to has a reference with asserting siblings |
| DraftReading.SiblingsCanDiffer | scripts/agent/json_contract.py:217-224 | an accepted schema and a value on which they differ |
| DraftReading.ReturnedVerdict | scripts/agent/json_contract.py:204-333 | an empty returned list implies the reading that ignores siblings, and is equivalent to it without asserting siblings |
| DraftReading.PyEqDiffersOnBooleans | scripts/agent/json_contract.py:230-232 | Python equality of parsed values is JSON equality but for positions where a boolean meets a number |
| DraftReading.EnumAgreesExactly | scripts/agent/json_contract.py:230-232 | `enum` accepts all it should, and agrees with JSON equality exactly if some equal option has booleans at the same positions |
| DraftReading.EnumTakesTrueForOne | scripts/agent/json_contract.py:230-232 | the failing input: `true` passes for 1 |
| DraftReading.EqDiffersOnNumbers | scripts/agent/json_contract.py:200-201 | equality of parsed values is JSON equality but for positions where a float meets an equal integer |
| DraftReading.UniqueNeedsSeparation | scripts/agent/json_contract.py:270-278 | `uniqueItems` is right about repeated items exactly if the canonical form confuses no different items, or some item is repeated anyway |
| DraftReading.UniqueAgreesExactly | scripts/agent/json_contract.py:270-278 | with a separating form it agrees with JSON equality exactly if equal items are spelled alike, or some item is repeated anyway |
| DraftReading.UniqueTakesOneTwice | scripts/agent/json_contract.py:270-278 | the failing input: 1 and 1.0 pass for different |
| CachePublication.StepKeeps | scripts/basemap/prepare-water-polygons.py:83-185 | every step of every process, including crashes and failing calls, keeps the protocol invariant |
| CachePublication.TargetIsStable | scripts/basemap/prepare-water-polygons.py:106-185 | no step changes the entry or the bytes of a present target |
| CachePublication.TargetNeverChanges | scripts/basemap/prepare-water-polygons.py:106-185 | in every run, once the target is present it names the same inode with the same bytes forever; if it was absent at first, those are exactly the pinned size, magic and digest |
| CachePublication.SuccessMeansPinnedBytes | scripts/basemap/prepare-water-polygons.py:106-185 | from a normal return of any process on, the target has the pinned bytes |
| CachePublication.AtMostOneDownloads | scripts/basemap/prepare-water-polygons.py:139-182 | at most one process reports a download, and only if the target was absent at first |
| CachePublication.NobodyWritesTheTarget | scripts/basemap/prepare-water-polygons.py:143-182 | no process that still receives data holds the inode that the target names |
| CachePublication.OnlyLitterRemains | scripts/basemap/prepare-water-polygons.py:183-185 | when every process has ended, each temporary name left is one recorded as abandoned |
| CachePublication.LitterGrowsOnlyByFailure | scripts/basemap/prepare-water-polygons.py:183-185 | names are abandoned only by a crash or by a clean-up whose stat or unlink failed |
| CachePublication.CleanExitRemovesTemp | scripts/basemap/prepare-water-polygons.py:183-185 | in every reachable state, a process that returns has removed its temporary name if and only if neither the stat nor the unlink of the clean-up failed |
| CachePublication.StatFailureLeavesTemp | scripts/basemap/prepare-water-polygons.py:183-185 | for every pinned archive there is a run that reports a download and leaves the temporary name, because the stat failed |
| CachePublication.UnlinkFailureLeavesTemp | scripts/basemap/prepare-water-polygons.py:183-185 | and one that publishes, raises and leaves it, because the unlink failed |
| CachePublication.PublishedBytesVerify | scripts/basemap/prepare-water-polygons.py:176-182 | the verification after linking can fail only because a call fails, never because of the bytes |
| CachePublication.PresentTargetIsVerified | scripts/basemap/prepare-water-polygons.py:139-141 | a target that is present is verified for reuse, an absent one is downloaded |
| CachePublication.VerifyIsExact | scripts/basemap/prepare-water-polygons.py:83-103 | in every reachable state a verification step that does not fail goes on reading or, in the last step always, gives the verdict that the bytes deserve, for reuse and after publication alike |
| CachePublication.GoodTargetIsReused | scripts/basemap/prepare-water-polygons.py:139-141 | from every reachable state with a good target a new call that meets no failure ends with "reused" and changes nothing else |
| CachePublication.SecondCallReuses | scripts/basemap/prepare-water-polygons.py:106-185 | for every pinned archive there is a run in which the first call downloads it, the second one reuses it and no temporary name is left |
| ReferenceAudit.AuditFiles | scripts/docmeta/audit_domain_edge_references.py:251-565 | over both input files: auditable, malformed, unparsable and non-object records add up to all edge records, the six side classes to twice the auditable edges, the missing sides to edges with any plus edges with both; strict readiness holds exactly for runtime data whose records are all clean; a policy decision is required exactly if some side is not compatible with a foreign key |
| ReferenceAudit.EvaluateAudit | scripts/docmeta/audit_domain_edge_references.py:379-565 | the kept findings are the first ones of the stable sort of all findings, truncation is flagged exactly when more than the limit were produced, and the readiness flags mean what they say about the edges |
| ReferenceAudit.AppendFinding | scripts/docmeta/audit_domain_edge_references.py:358-376 | the bounded list stays the sorted prefix of everything produced; the flag is set exactly when something was dropped |
| ReferenceAudit.SortedPrefixAppend | scripts/docmeta/audit_domain_edge_references.py:358-376 | keeping the first k after each append and sort is the same as sorting everything and keeping the first k |
| Ordering.StableSortKeepsClasses | scripts/docmeta/audit_domain_edge_references.py:371-371 | the sort is stable: findings that compare equal keep their order |
| Ordering.StableArrangementUnique | scripts/docmeta/audit_domain_edge_references.py:371-371 | a sorted arrangement that keeps equal findings in order is the only one, so "the stable sort" is well defined |
| ReferenceAudit.CountersConserve | scripts/docmeta/audit_domain_edge_references.py:422-493 | the conservation laws of the side counters for every list of edges |
| ReferenceAudit.CountersMeaning | scripts/docmeta/audit_domain_edge_references.py:315-348 | each of the six counters is the number of sides of its class, the classes told apart by hint and known ids alone |
| ReferenceAudit.DeriveSignals | scripts/docmeta/audit_domain_edge_references.py:495-538 | each signal as a condition on the counters; strict readiness excludes required clean-up and policy decisions, and a policy decision is required exactly if the compatible sides are fewer than all sides |
| ReferenceAudit.ReadyMeaning | scripts/docmeta/audit_domain_edge_references.py:495-538 | readiness in terms of the records of the two files rather than of the counters |
| ReferenceAudit.LoadNodes | scripts/docmeta/audit_domain_edge_references.py:169-218 | the node loader collects exactly the usable ids, counts repeated ones, and each counter of bad records counts exactly the lines of its kind |
| ReferenceAudit.LoadEdges | scripts/docmeta/audit_domain_edge_references.py:251-271 | the edge loader yields the object records in order; yielded and rejected records add up to all records |
| RepoPaths.NormalizedIsRaw | scripts/agent/validate_handoff.py:64-81 | a path that normalises is trimmed, has no backslash and no empty, `.` or `..` segment |
| RepoPaths.NormalizeIsIdempotent | scripts/agent/validate_handoff.py:64-81 | normalising twice is normalising once |
| RepoPaths.DirectoryScopeIsSegmentPrefix | scripts/agent/validate_handoff.py:84-91 | a directory scope contains exactly the files whose segments properly extend its own: no prefix of a name is enough |
| RepoPaths.FileScopeIsEquality | scripts/agent/validate_handoff.py:84-91 | a file scope contains exactly the file it names |
| HandoffContract.ValidateBinding | scripts/agent/validate_handoff.py:367-398 | reports exactly the findings that are due, as a set; its caller drops repeats and sorts |
| HandoffContract.ValidatePaths | scripts/agent/validate_handoff.py:124-180 | the same for changed and deleted paths, scopes, conflicts and forbidden deletions |
| HandoffContract.ValidateClaims | scripts/agent/validate_handoff.py:182-205 | the same for unknown and unaddressed claims |
| HandoffContract.ValidateEvidence | scripts/agent/validate_handoff.py:207-284 | the same for evidence paths, their existence and the missing-evidence list |
| HandoffContract.ValidateResultsAndOutcome | scripts/agent/validate_handoff.py:286-365 | the same for command results and the declared outcome, with the two contradictions of readiness kept apart |
| HandoffContract.AcceptedPaths | scripts/agent/validate_handoff.py:124-180 | an accepted handoff touches only paths in an allowed and in no forbidden scope, changes nothing it deletes, and deletes only if deletion is allowed |
| HandoffContract.AcceptedAgrees | scripts/agent/validate_handoff.py:182-284 | in an accepted handoff the addressed claims are exactly the required ones, and missing evidence is exactly expected minus produced |
| HandoffContract.AcceptedEvidenceExists | scripts/agent/validate_handoff.py:207-284 | each produced evidence path of an accepted handoff names an existing file |
| HandoffContract.ReadyMeansDone | scripts/agent/validate_handoff.py:323-340 | an accepted handoff that is ready for review has passed every required command, produced all expected evidence and has no blocker |
| HandoffContract.RunnerFindings | scripts/agent/run_task.py:505-526 | the findings on the runner's own handoff: exactly one kind per unusable evidence path and one per repeated command |
| HandoffContract.RunnerHandoffAccepted | scripts/agent/run_task.py:505-526 | that handoff is accepted if and only if every expected path normalises and the commands are distinct |
| HandoffContract.ValidateAccounting | scripts/agent/run_task.py:475-498 | an accounting passes exactly if its missing entries lie between the expected ones not produced and all expected ones; the runner's own accounting always passes |
| EvidenceFs.FileSystem.WriteFile | scripts/agent/run_task.py:627-637 | exclusive create and write: success puts exactly these bytes under a free name, a failure may leave a partial file |
| EvidenceFs.FileSystem.RenameNoReplace | scripts/agent/run_task.py:697-732 | whoever interferes, the target name denoted nothing when the rename happened |
| EvidencePublication.CleanupStaging | scripts/agent/run_task.py:952-1003 | no recorded error means that the log is: the pinned directory listed, every listed file unlinked in it, its name seen to denote it, the name removed, in this order; in any case the name is removed only directly after it was seen to denote the directory; undisturbed, success restores the state before staging |
| EvidencePublication.CheckTarget | scripts/agent/run_task.py:1058-1092 | no error means that the target name was opened and is the staging inode |
| EvidencePublication.RenameAndVerify | scripts/agent/run_task.py:1215-1241 | from the rename on: an error names the published location exactly if the rename happened, and a normal end has seen target identity and all files again; undisturbed and without a failing call the end is normal if the target name was free, and OUTPUT_DIR_EXISTS if it was not |
| EvidencePublication.PublishEvidenceBundle | scripts/agent/run_task.py:1178-1304 | over every failure and interference: no target is replaced, the rename directly follows the guard's reads, the error names the evidence path exactly if it happened, every change stays in the staging directory or is its removal, a failed clean-up is recorded; undisturbed, the target holds exactly the payloads or nothing is left; undisturbed, without a failing call and with a free staging name, it succeeds exactly if the target name is free, unless the guard objects |
| RepositoryGuard.AssertUnchanged | scripts/agent/run_task.py:453-462 | passes if and only if a state equal to the first one was read |
| RepositoryGuard.RunGuard | scripts/agent/run_task.py:1439-1445 | a passing guard has just read the run's revision and the first state again |
| DryRun.RenderStages | scripts/agent/run_task.py:117-125 | the twelve stages in canonical order, each with its recorded status |
| DryRun.RunDryRun | scripts/agent/run_task.py:1307-1483 | every returned run lists the statuses its outcome demands and saw one repository state throughout; a planned run got empty answers from schema check and guard and took every later step in order, a blocked one shows the non-empty answer of exactly the stage that is blocked; a run raises only if a call raised, a reading changed, or, after two empty answers, the handoff was rejected or the bundle could not be published; a persisted run re-read revision and state directly before the rename that published its four files; a run without evidence leaves the files untouched, and undisturbed no existing target is changed |
| DryRun.StatusMatchesStages | scripts/agent/run_task.py:1307-1483 | "planned" exactly if all twelve stages passed, "blocked" exactly if one of schema and guard stage is blocked |
| DryRun.BlockedIffFound | scripts/agent/run_task.py:1331-1371 | a returned run is blocked if and only if schema check or guard found something, and then its findings are that answer |
| DryRun.LoadAndGuard | scripts/agent/run_task.py:1327-1372 | the first five stages: blocked with the answer of one check, raised for a reason, or passed with two empty answers |
| DryRun.BlockedExit | scripts/agent/run_task.py:1334-1349 | a blocking exit returns only after the state was found unchanged, with the later planning stages not run and with the findings it was given |
| DryRun.CheckHandoff | scripts/agent/run_task.py:1390-1403 | the handoff stage passes only if the handoff validator has nothing to report on the runner's own handoff, and fails only if a check raised, found something, or the task is not acceptable to it |
| DryRun.Conclude | scripts/agent/run_task.py:1428-1471 | with evidence, the run's revision and the first state were read again directly before the publication; without, nothing is published and both are compared once more |
| DryRun.Publish | scripts/agent/run_task.py:1439-1461 | the publication with its guard: a normal end has the two guard reads directly before the rename and a verified file-system log, any other end has published nothing unguarded and, undisturbed, kept an existing target |
| HashRecords.HashRecord | scripts/agent/run_task.py:338-341 | feeds exactly the framed tag and payload |
| HashRecords.NumberInvertsBigEndian | scripts/agent/run_task.py:338-341 | the big-endian length bytes determine every number that fits |
| HashRecords.DecodeInvertsStream | scripts/agent/run_task.py:338-341 | the byte stream of any records decodes to exactly these records |
| HashRecords.StreamIsInjective | scripts/agent/run_task.py:338-341 | two record sequences give the same stream exactly if they are equal |
| HashRecords.RepositoryState | scripts/agent/run_task.py:393-450 | feeds exactly the records of the state: head, both diffs, then each non-empty listed path in sorted order with what was read of it; nothing if a path cannot be read or HEAD moved meanwhile |
| HashRecords.StateIgnoresListingOrder | scripts/agent/run_task.py:437-442 | two listings of the same paths in any order give the same state |
| HashRecords.StateIsDetermined | scripts/agent/run_task.py:432-442 | what is fed to the hash determines the whole repository state |
| RelationsParser.ExtractRelations | scripts/docmeta/relations_parser.py:60-136 | the line loop computes the fold that the theorems are about |
| RelationsParser.ExtractInvertsPrint | scripts/docmeta/relations_parser.py:60-136 | for every printed document it reports each entry, in order, with unquoted values |
| RelationsMeaning.ExtractReadsTheBlock | scripts/docmeta/relations_parser.py:60-136 | for every text: the result lists, in order, exactly the list items below the last key line when that key line opens the `relations:` block, each as its text or with the keys of its own lines, the last value of a repeated key |
| RelationsMeaning.OutsideLinesAreIgnored | scripts/docmeta/relations_parser.py:111-131 | removing a line outside the block that is not a top-level key, such as a list item of another key, never changes the result |
| Docmeta.ParseFrontmatter | scripts/docmeta/docmeta.py:65-169 | the line loop over data, current key and current entry computes the fold that the theorems are about |
| Docmeta.TrackedKeyHoldsList | scripts/docmeta/docmeta.py:82-169 | whenever a key is tracked its value is a list, so appending to it cannot fail |
| Docmeta.ParseInvertsPrint | scripts/docmeta/docmeta.py:65-169 | for every printed document with entries indented by a space it reports the entries verbatim |
| DocmetaFields.ParseReadsFields | scripts/docmeta/docmeta.py:65-169 | every front matter of printed texts, inline lists and block lists of the known list fields, quoted or not, is read back: exactly its keys, each with the value of its last field |
| LifecycleInventory.SplitFrontmatter | scripts/docmeta/generate_report_lifecycle_inventory.py:153-170 | finds the front matter and whether it is closed |
| LifecycleInventory.ParseFrontmatter | scripts/docmeta/generate_report_lifecycle_inventory.py:179-252 | the index loop computes the specified data and warnings |
| LifecycleInventory.ParseRelationsBlock | scripts/docmeta/generate_report_lifecycle_inventory.py:255-314 | the relations block: entries, warnings and the index after it |
| LifecycleInventory.ParseInvertsPrint | scripts/docmeta/generate_report_lifecycle_inventory.py:179-314 | for every printed document it reports type and target of each entry, without warnings |
| InventoryFields.ParseReadsFields | scripts/docmeta/generate_report_lifecycle_inventory.py:179-353 | every front matter of printed texts, list blocks and folded blocks is read back without a warning: exactly its keys, each with the value of its last field |
| RelationAgreement.AllReadersReturnTheList | scripts/docmeta/relations_parser.py:60-136 | every list of relations printed in the documented subset is returned by all three readers |
| RelationAgreement.FirstTwoAgree | scripts/docmeta/docmeta.py:82-169 | on space-indented documents the first two readers agree if and only if no value is quoted |
| RelationAgreement.FirstAndThirdAgree | scripts/docmeta/generate_report_lifecycle_inventory.py:255-314 | the first and the third reader agree on every printed document, whatever the indentation |
| RelationAgreement.AgreementNeedsSpaces | scripts/docmeta/docmeta.py:82-169 | for every indentation and list the first two readers agree if and only if the list is empty or the indentation begins with a space; after a tab the second one reports no relation |
| MarkdownRow.SplitMarkdownRow | scripts/docmeta/generate_task_index.py:170-207 | the scanner computes the stripped pieces between the specified cuts |
| MarkdownRow.PiecesLoseNothing | scripts/docmeta/generate_task_index.py:170-207 | the unstripped pieces joined by pipes are the row body |
| MarkdownRow.PiecesLieBetweenCuts | scripts/docmeta/generate_task_index.py:170-207 | piece k is exactly the text between the cut before it and the next one; there is one piece more than cuts |
| MarkdownRow.CutsAreTheBarePipes | scripts/docmeta/generate_task_index.py:170-207 | the cuts are exactly the pipes that are neither escaped nor inside a code span, from left to right |
| MarkdownRow.SplitInvertsPrint | scripts/docmeta/generate_task_index.py:170-207 | splitting a printed row gives back every list of trimmed cells whose pipes are escaped or in closed code spans |
| MarkdownRow.SplitInvertsPlainPrint | scripts/docmeta/generate_task_index.py:170-207 | in particular cells without pipe, backtick and backslash |
| AuditGaps.Aggregate | scripts/docmeta/generate_audit_gaps.py:26-78 | after all files the map is the last-file-wins map, the total is the sum of its gap counts, and each file is recorded or warned about; it raises exactly if taking some document does |
| AuditGaps.Take | scripts/docmeta/generate_audit_gaps.py:47-78 | one document: overwrite, delete or insert, with the total adjusted |
| AuditGaps.LastFileWinsIsUnique | scripts/docmeta/generate_audit_gaps.py:47-78 | there is only one last-file-wins map |
| AuditGaps.LastIsLast | scripts/docmeta/generate_audit_gaps.py:47-78 | "the last file" of an id is a visit of that id after which none follows |
| EmailKeys.LowerCommutesWithStrip | scripts/docmeta/audit_account_email_uniqueness.py:12-13 | lowering ASCII letters commutes with trimming |
| EmailKeys.Audit | scripts/docmeta/audit_account_email_uniqueness.py:65-226 | the counters are conserved, both groupings hold exactly the records with an email, in order, and the duplicate counts count the groups with several ids |
| EmailKeys.CurrentGroupsNest | scripts/docmeta/audit_account_email_uniqueness.py:157-187 | every group of a non-blank current key lies inside one group of the proposed key, and stays a duplicate there |
| EmailKeys.OnlyBlankDuplicatesRemain | scripts/docmeta/audit_account_email_uniqueness.py:157-226 | without duplicates under the proposed key, only blank current keys are duplicated |

## Left out

General:

- Git, Docker, psql, HTTP, subprocess calls and path resolution: foreign effects; they are parameters or calls with arbitrary answers.
- URL classification, the vertical-pilot validator, report rendering and the command-line wrappers: flat field checks or formatting.
- Reading files, character decoding and universal newlines: the models begin with the text.
- Wall-clock time and the SIGALRM deadline: a step that may fail.
- Exceptions that are neither OSError nor the program's own error type, and the accounting of descriptors after a raised error.

Graphs and audit:

- Degree statistics, hubs and warnings of the relations analysis, and the supersession report: counting in one pass.
- The Postgres loaders of the reference audit; the fingerprints and hashed references inside a finding, which are uninterpreted.

JSON Schema:

- Parsing JSON text, including duplicate keys, and numbers that are not finite; the sign of a negative zero.
- Totality.ReturnsForAll: `Raised` does not tell UnsupportedSchemaError and TypeError apart, because callers treat neither as a finding.
- Totality.NullKeywordIsAccepted: the recursion limit of `ensure_supported_schema` itself is not modelled; schema documents are finite trees there.

Handoff:

- HandoffContract.ValidateBinding: findings are compared as a set; `validate_handoff` drops repeats and sorts by text, and the texts are not modelled.
- HandoffContract.ValidatePaths: as a set, for the same reason.
- HandoffContract.ValidateClaims: as a set, for the same reason.
- HandoffContract.ValidateEvidence: as a set, for the same reason.
- HandoffContract.ValidateResultsAndOutcome: as a set, for the same reason.

Publication:

- EvidencePublication.CleanupStaging: between the identity check of the staging name and its removal another process may exchange the name, as in the code; what is proved is that the check was passed.
- EvidencePublication.PublishEvidenceBundle: begins once the parent directory is acquired. If opening the new staging directory fails, its name is removed without an identity check, as in the code.
- EvidenceFs.FileSystem.WriteFile: open, write and fsync are one call that may fail after any part; what other processes do to the file in between is not told apart.
- DryRun.RenderStages: the optional message of a stage, which no caller sets.
- DryRun.RunDryRun: the payloads are given; that they encode the result, and their schema checks, are calls that may fail.
- HashRecords.HashRecord: the loop over the two parts is written out; parts of 2^64 bytes or more, for which the length conversion raises, are excluded by its precondition.
- CachePublication.StepKeeps: the directory is not renamed or replaced by others, and no foreign process writes the target or the temporary names.

Texts:

- LifecycleInventory.ParseRelationsBlock: its warnings are values of a datatype, one for each occurrence.
- LifecycleInventory.ParseFrontmatter: warnings are values of a datatype; joining them into one text and removing repeats is not modelled.
- MarkdownRow.SplitInvertsPrint: rows are printed as `| a | b |`; other spacings split alike but have no printing form here.
- AuditGaps.Aggregate: the texts of the warnings are not modelled; a list-valued id, which raises TypeError in the code, is a raising file.
- EmailKeys.Audit: the list of findings, the classification texts and the exit code are not modelled.
- `extract_depends_on` and the other consumers of the parsed front matter: single expressions.
