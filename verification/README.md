# Trust Core: a verified model

A Dafny model of the parts of Trust Core that have to stay right when things go wrong half way:
portable import, the archive format, object ingest, resource history and the audit chain, the
storage binding registry and the quarantine scan. Functions on values say what an operation does;
where the source updates objects or loops, a class or method is proved to do the same; lemmas then
state what every input, every run or every interleaving of such operations guarantees.

`dafny verify dfyconfig.toml` checks everything.

## How it is laid out

| files | what they cover |
|---|---|
| `Base`, `Text`, `Sorting`, `Json`, `Numbers`, `Records`, `Paths` | strings in UTF-16 code unit order, sorting, canonical JSON, conversion to numbers, record kinds, archive paths |
| `AuditChain`, `Lineage` | the hash chain of audit events; the check that exported events form one chain |
| `ArchiveFormat`, `ArchiveAssemble`, `ArchiveOrder`, `ArchiveVerify`, `ArchiveTells`, `ArchiveReadback`, `ArchiveRoundTrip`, `ArchiveCommitment`, `ArchiveSigning`, `ArchiveSigned`, `ArchiveExamples`, `ArchivePlatform` | assembling, verifying and signing archives |
| `ImportTypes`, `ImportGraph`, `ImportMapping`, `ImportRemap`, `ImportIds`, `ImportPlan`, `ImportPlanner`, `ImportOrder`, `ImportPreserved`, `ImportCycles`, `ImportThrows`, `ImportIdentity`, `ImportReplan`, `ImportLaws` | planning an import |
| `ImportStore`, `ImportExecution`, `ImportStamps`, `ImportFailure`, `ImportConvergence`, `ImportExecutor`, `ImportActions`, `ImportResume` | executing an import, by one executor and by any number of crashing ones with plans of different times |
| `Ingest`, `IngestSafety`, `IngestOrigin`, `IngestHome`, `IngestMoved`, `IngestFirst`, `IngestService` | object ingest, into one storage or several |
| `History`, `HistoryService`, `HistoryOutcomes` | revisions, deletion and restoration |
| `Registry`, `RegistryService`, `RegistryLaws` | storage bindings |
| `Quarantine`, `QuarantineOverlap`, `QuarantineOrigin`, `QuarantineLaws`, `QuarantineService` | scan records, queueing, callbacks and promotion |

## What is a parameter

- SHA-256 is an arbitrary function. It is never assumed injective: results say "equal, or here are two
  different inputs with one digest", or name the collision they exclude. Where the shape of a digest
  matters (mapped ids, archive paths, the key of a policy without an id) it is stated.
- `localeCompare` is an arbitrary total preorder where sorting is enough and a total order where the
  outcome has to be unique.
- UTF-8, `JSON.parse` and base64 enter the archive proofs through their inverse laws
  (`ArchiveFormat.Lawful`); `ArchivePlatform.LawsHold` shows that the laws can hold together.
- Clocks and generated ids are arguments. Generated ids are new when they are used.
- The Ed25519 signer and verifier are functions; the signed round trip asks that the verifier accepts
  what the signer made of that archive.

## What the source does not guarantee

- A ready plan can have actions that wait for each other. A cycle of dependencies exists exactly when the
  revisions have a cycle of parent ids (`ImportCycles.CyclesAreParentCycles`), and the graph check does not rule
  that out: it sees the last of several revisions with one id (`ImportCycles.TwinsMakeCycles`) and compares
  nothing when a revision number is not a number (`ImportCycles.UnnumberedMakeCycles`). With distinct ids and
  numbers that are numbers it does (`ImportCycles.Acyclic`).
- Mapping into another workspace can give two records one id: when the digests behind two mapped ids agree on the 122
  bits that an id keeps, or when the archive has workspace records under both the old and the new workspace id
  (`ImportIds.CollisionsAre`).
- A relation to something external waits for a resource of that id: the dependency names a resource
  whether or not the archive has one (`ImportReplan.DependenciesAre`).
- Two checked references can dangle after an import. When an archive has no schema packages, any schema id is
  accepted and none is imported (`ImportReplan.SchemaDangles`). A retention policy whose id is the empty string is
  stored under the digest of the record, so a dataset that names it by that id does not find it
  (`ImportReplan.PolicyDangles`). `ImportReplan.ReferencesResolve` says that these two resolve exactly when they
  did before, and every other reference resolves.
- Verification throws, instead of reporting, on a manifest without record counts when a record file is
  missing, on record lines that are neither objects nor arrays, on an audit event whose hash JavaScript has no text
  for (an object with a field "toString", or an array that holds one) when the events have a single tail, and on a
  null blob record when no manifest can be read (`ArchiveVerify.Throws`; `ArchiveExamples` has an archive for each
  case).
- Planning throws, instead of reporting, on records without a stable id or without a field that mapping writes
  back, on a revision number without a text that is compared with its parent's or its child's, and on an id that
  leads to a function which every object inherits, such as "constructor", when the target lists records of that kind
  (`ImportPlan.PlanOf`; `ImportThrows` has an import for the last two). An id "__proto__" is blocked as if it were
  taken.
- An executor can fail although the archive is intact: its plan was made before somebody else committed one of its
  blobs, and a later plan has carried the operation past staging without that blob (`ImportFailure.IntactButFails`).
  An executor past staging with an unstaged blob always fails (`ImportFailure.OutdatedFails`), and no other does
  unless the archive is damaged (`ImportFailure.FailureMeansDamage`).
- An ingest that is resumed with another storage records the binding of the new storage with an object that lies in
  the old one (`IngestMoved.CataloguedElsewhere`). When every operation keeps to one storage, objects lie where
  their rows say (`IngestHome.BlobsAreWhereTheySay`).
- An open tombstone does not mean that the resource is deleted: creating a revision of a deleted resource
  makes it active and leaves the tombstone open (`HistoryService.ConverseFails`), and so does restoring a resource
  that was deleted twice (`HistoryService.RestoreLeavesOpen`); `HistoryService.CreateKeepsConverse` and
  `HistoryService.RestoreKeepsConverse` say exactly when.
- A profile changed by accepting a plan is not recorded as a version (`RegistryLaws.AcceptedPlanUnrecorded`), so
  updating the binding and rolling back brings back the profile before the acceptance
  (`RegistryLaws.UpdateThenRollback`).
- A refused cutover has already moved the routes before the mismatch (`RegistryService.CutoverMoves`).
  A cutover moves the listed routes whichever binding they belonged to.
- A stored scan verdict can be overwritten. A callback reads the record and saves its verdict in two moments; as
  soon as two callbacks of one job with different outcomes are both about to save, the second to save replaces
  the verdict of the first (`QuarantineOverlap.RivalsOverwrite`, with a run from the empty store in
  `QuarantineOverlap.MaliciousOverwritten`). Otherwise verdicts stay (`Quarantine.VerdictsStayInOrder`), for which it
  is enough to take the callbacks of a job one at a time (`Quarantine.OneAtATime`).
- An upload can have two scan records in the in-memory store. A save looks up the job and the upload and writes in
  two moments; as soon as two queueing calls of one upload are between the two, both can write
  (`QuarantineOverlap.TwinsStoreTwo`, with a run from the empty store in `QuarantineOverlap.UploadQueuedTwice`).
  Otherwise uploads have one record (`Quarantine.UploadsStayUnique`), for which it is enough to queue an upload once
  at a time (`Quarantine.OneUploadAtATime`).

## Model

| member | source | states |
|---|---|---|
| Text.SortedKeys | packages/archive/src/canonical.ts:12-13 | the keys of an object in strictly increasing UTF-16 code unit order, each once |
| Text.SortedUnique | packages/archive/src/canonical.ts:12-13 | a set of keys has only one such enumeration, so any correct sort finds it |
| Text.DecodesToText | packages/archive/src/canonical.ts:12-13 | the code units of a text are its UTF-16 encoding: decoding them gives its characters in order |
| Text.LessMeans | packages/archive/src/canonical.ts:12-13 | one key comes before another exactly when its code units end where the other's go on, or the first unit that differs is the smaller number |
| Text.LessAlphabetical | packages/archive/src/canonical.ts:12-13 | for characters below the surrogates this is the order of the characters themselves |
| Json.InsertionOrderIrrelevant | packages/archive/src/canonical.ts:11-15 | sorting the keys by code units, in whatever order they were inserted, prints the same text |
| Json.CanonicalReadsBack | packages/archive/src/canonical.ts:3-16 | a reader for the grammar of RFC 8259 reads the printed text of every value as that value |
| Json.PrintedInOrder | packages/archive/src/canonical.ts:11-15 | the reader finds the members of a printed object in the order of the sorted keys, whatever text is behind it |
| Json.CanonicalInjective | packages/archive/src/canonical.ts:3-16 | two values print alike exactly when they are equal |
| Json.ObjectsSelfDelimiting | packages/audit/src/audit-chain.ts:22-27 | two object texts with arbitrary text behind them agree exactly when objects and trailing texts agree |
| AuditChain.VerifyAuditChain | packages/audit/src/audit-chain.ts:34-44 | the loop accepts exactly the sequences that form a hash chain from the empty hash |
| AuditChain.GrownVerifies | packages/audit/src/audit-chain.ts:29-32 | a chain grown by appending verifies |
| AuditChain.TipCommitsToHistory | packages/audit/src/audit-chain.ts:29-44 | two verifying chains with the same last hash have the same events, or two different hashed texts with one digest are exhibited |
| Lineage.ValidateAuditLineage | packages/archive/src/verify.ts:187-276 | throws exactly when there is one tail and a hash without a text; otherwise no issue exactly when hashes are valid and distinct, count and boundary hashes match, and the events can be ordered into one chain from a single root to a single tail; terminates on cycles and dangling links |
| Lineage.LineageOfRecords | packages/archive/src/verify.ts:187-276 | in terms of the records: no issue exactly when their hashes are different digests and some order of them is a chain between the boundary hashes that begins with an event linking to nothing, null or the empty text |
| Lineage.Walk | packages/archive/src/verify.ts:256-269 | the backward walk visits exactly what can be reached from the tail, each hash once, and stops at a root, an unknown hash or a hash seen before |
| Lineage.Branching | packages/archive/src/verify.ts:244-255 | some hash has more than one child exactly when the references are not distinct |
| Lineage.Sound | packages/archive/src/verify.ts:187-276 | a walk as long as the bag of events, under the other checks, orders them into one chain |
| Lineage.Complete | packages/archive/src/verify.ts:187-276 | events that form one chain pass every check and the walk covers them all |
| Paths.PlainPathSafe | packages/archive/src/paths.ts:3-21 | a path of any number of plain segments is safe exactly when it is within the length limit and no segment is empty, a dot or two dots |
| Paths.SafePathMeans | packages/archive/src/paths.ts:3-21 | any path is safe exactly when it is within the length limit, names no drive and joins names that are not empty, a dot or two dots and hold no slash, backslash or control character |
| ArchiveAssemble.BlobPathShape | packages/archive/src/paths.ts:23-26 | a digest's path is safe, begins in the blob folder and ends in the digest, so distinct digests have distinct paths |
| ArchiveAssemble.AssembleArchiveEntries | packages/archive/src/assemble.ts:14-69 | succeeds exactly on sources whose blobs have the stated length and digest and occur once, with exactly the blob, record, manifest, readme and checksum entries of the source |
| ArchiveOrder.AssemblyForgetsOrder | packages/archive/src/assemble.ts:19-95 | permuting records within a kind, blobs or dataset ids changes neither success nor any entry, given that sort keys tell records apart and the audit events have one root and one tail |
| ArchiveOrder.FilesInOrder | packages/archive/src/assemble.ts:29-66 | records with text ids are written in the order of their ids, and the checksum lines in the order of the paths |
| ArchiveVerify.CheckLimits | packages/archive/src/verify.ts:62-84 | no issue exactly when entry count, paths, entry sizes and total size are within bounds |
| ArchiveVerify.ReadChecksums | packages/archive/src/verify.ts:278-327 | returns the stated digests; no issue exactly when the file is readable and every line is well formed, safe and not a repeat |
| ArchiveVerify.CheckSums | packages/archive/src/verify.ts:87-114 | no issue exactly when every stated digest is its entry's and every entry outside the signatures has one |
| ArchiveVerify.CheckManifest | packages/archive/src/verify.ts:329-391 | returns the manifest that verification continues with; no issue exactly when it has the required form and is printed canonically |
| ArchiveVerify.CheckFiles | packages/archive/src/verify.ts:138-174 | returns every readable record file; no issue exactly when files and counts agree; throws exactly on missing counts with a missing file |
| ArchiveVerify.CheckScope | packages/archive/src/verify.ts:393-441 | no issue exactly when every record is in the workspace and revisions name existing resources and parents |
| ArchiveVerify.CheckBlobs | packages/archive/src/verify.ts:443-490 | no issue exactly when every blob record has its bytes, length and digest and the totals match the manifest |
| ArchiveVerify.VerifyArchiveEntries | packages/archive/src/verify.ts:52-185 | reports valid exactly on archives that meet all of these, with the manifest and records it read, and throws exactly in the stated cases |
| ArchiveTells.ValidArchiveTells | packages/archive/src/verify.ts:52-185 | of any valid archive: the manifest is in its one printed form with a known format, signing profile and lineage; every record file holds one value a line, as many as counted; records are in the workspace and revisions name resources and parents that are there; the audit events are one chain; every blob record has its bytes, length and digest, and the totals are those stated by the records |
| ArchiveTells.ChecksumsTell | packages/archive/src/verify.ts:86-114 | of any valid archive: the checksum file has the line of every entry outside the signatures, and no other lines |
| ArchiveTells.SizesTell | packages/archive/src/verify.ts:62-84 | of any valid archive: every path is safe and every entry and their number are within bounds |
| ArchiveReadback.ChecksumsReadBack | packages/archive/src/verify.ts:278-327 | the checksum file of a set of files reads back as exactly their digests |
| ArchiveReadback.RecordsReadBack | packages/archive/src/assemble.ts:29-37 | a record file reads back as its records, sorted |
| ArchiveRoundTrip.ChainPermutes | packages/archive/src/verify.ts:187-276 | a chain of events stays one when the events are listed in another order |
| ArchiveRoundTrip.LineageHolds | packages/archive/src/assemble.ts:71-95 | the boundary hashes that assembly writes are accepted by verification |
| ArchiveRoundTrip.AssembleThenVerify | packages/archive/src/assemble.ts:14-112 | a well-scoped source within limits assembles into an archive that verifies, returning the same manifest and the same records sorted by id |
| ArchiveRoundTrip.ManifestTells | packages/archive/src/assemble.ts:38-54 | the manifest names the source's ids, times, author and version, its dataset ids in code unit order and the number of records of each kind |
| ArchiveExamples.SmallSourceIsWellScoped | packages/archive/src/assemble.ts:14-112 | a source with a blob of any bytes and two audit events, the later listed first, meets the conditions of the round trip |
| ArchiveExamples.UncountedThrows | packages/archive/src/verify.ts:138-174 | verification throws on any otherwise good manifest without record counts when record files are missing |
| ArchiveExamples.PrimitiveThrows | packages/archive/src/verify.ts:393-414 | verification throws on a record line that is null, under any good manifest and in the file of any kind |
| ArchiveExamples.TextlessHashThrows | packages/archive/src/verify.ts:256-259 | verification throws on a lone audit event whose hash has no text, under any good manifest |
| ArchiveExamples.NullBlobThrows | packages/archive/src/verify.ts:443-455 | verification throws on a null blob record when there is no manifest |
| ArchiveCommitment.ChecksumFileCommits | packages/archive/src/verify.ts:86-114 | two valid archives with one checksum file hold the same paths and bytes outside the signatures folder, or a path with colliding bytes is exhibited |
| ArchiveSigning.SignArchiveEntries | packages/archive/src/signature.ts:16-63 | succeeds exactly on an unsigned 0.2 manifest with an Ed25519 signer, a valid key id and a non-empty signature; changes only manifest, checksums and signature, and two manifest fields; the artifact then reads back with the manifest's profile, the signer's key id and a signature of the new manifest and checksums, and the checksum file reads back as the digests of all entries outside the signatures |
| ArchiveSigning.VerifyManifestSignature | packages/archive/src/signature.ts:65-146 | no issue exactly when the artifact is present, in its one form, matches the manifest's profile and the verifier accepts its signature |
| ArchiveSigned.ArtifactHasOneForm | packages/archive/src/signature.ts:148-184 | a signature artifact is accepted exactly when it is the artifact of some key id and signature |
| ArchiveSigned.PayloadCommits | packages/archive/src/signature.ts:198-209 | the signed bytes agree exactly when the digests of manifest and checksum file do |
| ArchiveSigned.SignatureCommits | packages/archive/src/signature.ts:118-146 | two valid archives with the same signed bytes hold the same paths and bytes outside the signatures folder, or a path with colliding bytes is exhibited |
| ArchiveSigned.SignedMeansAccepted | packages/archive/src/verify.ts:36-50 | an archive that verifies is unsigned and without a signature, or the verifier accepts one over its signed bytes under the key its manifest names |
| ArchiveSigning.VerifyWithSignatures | packages/archive/src/verify.ts:36-50 | valid exactly on archives that verify and whose signature, if claimed, is accepted |
| ArchiveSigning.SignThenVerify | packages/archive/src/signature.ts:16-63 | an assembled and signed archive verifies and returns its manifest and sorted records, when the verifier accepts the signer's output |
| ImportGraph.ValidateGraph | packages/archive/src/import-plan.ts:378-538 | throws exactly when a number without a text is compared; otherwise no issue exactly when every record is in scope, every checked reference resolves, parents belong to the same resource and their number, as JavaScript converts it, is not at least the child's, and no number repeats |
| Numbers.IntegerText | packages/archive/src/import-plan.ts:466-470 | a printed integer, as text or alone in an array, converts to that integer |
| Numbers.DecimalText | packages/archive/src/import-plan.ts:466-470 | digits, a point, more digits and an exponent convert to the number they denote |
| ImportGraph.ValidateNumbers | packages/archive/src/import-plan.ts:444-458 | an issue exactly when two revisions of a resource carry one number |
| ImportLaws.NumbersMean | packages/archive/src/import-plan.ts:444-458 | numbers are accepted exactly when no two revisions carry one resource id and one number |
| ImportLaws.ParentsAreRelatives | packages/archive/src/import-plan.ts:459-476 | in a checked archive the parent that a revision names is there and belongs to the same resource |
| ImportGraph.RecordIssues | packages/archive/src/import-plan.ts:413-538 | the issue codes of one record: an empty list exactly when its references are good, and no list exactly when the check throws |
| ImportGraph.ValidateRetentionAssignments | packages/archive/src/import-plan.ts:540-560 | an issue exactly when a dataset names a retention policy the archive lacks |
| ImportPlan.ValidateSchemaConflicts | packages/archive/src/import-plan.ts:562-582 | an issue exactly when the target's first schema of that identity has another digest |
| ImportLaws.SchemaOkMeans | packages/archive/src/import-plan.ts:562-582 | in a target with one digest per namespace, name and version a schema package is accepted exactly when the packages of its identity have its digest |
| ImportLaws.SchemasStayUnique | packages/archive/src/import-plan.ts:562-582 | importing a ready plan keeps one digest per namespace, name and version |
| ImportMapping.BuildIdMappings | packages/archive/src/import-plan.ts:213-248 | every id of a scoped kind, and no other, gets an image: itself when the workspace stays, else the mapped id; the source workspace maps to the target |
| ImportMapping.ScopedKinds | packages/archive/src/import-plan.ts:218-227 | ids of all kinds are mapped but those of workspaces, schema packages and audit events |
| ImportLaws.MappedFieldsAre | packages/archive/src/import-plan.ts:250-340 | the fields that a record must have to be planned are those that mapping treats as a reference in some record of its kind |
| ImportMapping.MappedIdShape | packages/archive/src/import-plan.ts:362-376 | a mapped id has the UUID layout with the version and variant fields of sections 4.1 and 4.2 of RFC 9562, and the digest in all other places |
| ImportIds.IdTextInjective | packages/archive/src/import-plan.ts:367-374 | workspace, kind and source id all go into the hashed text: two texts agree exactly when all three do |
| ImportIds.OriginsCanDiffer | packages/archive/src/import-plan.ts:362-376 | for any two different origins there is a digest function under which their mapped ids differ |
| ImportIds.IdKeeps | packages/archive/src/import-plan.ts:375 | two mapped ids agree exactly when their digests agree on the 122 bits that an id keeps |
| ImportIds.CollisionsAre | packages/archive/src/import-plan.ts:213-248 | mapping gives two ids of a kind one image exactly when the digests of their two texts agree on those bits, or the archive has workspaces under both the old and the new workspace id |
| ImportIds.TwoDatasetsStayApart | packages/archive/src/import-plan.ts:193-360 | any two datasets with a resource of the second can be mapped into any other workspace without a collision; they pass the checks there, have different ids, and the resource belongs to the image of its dataset |
| ImportMapping.FieldsMapped | packages/archive/src/import-plan.ts:250-360 | mapping a record maps each field by its role and adds and removes none |
| ImportMapping.MergeParentsMapped | packages/archive/src/import-plan.ts:291-294 | every merge parent that is a string is mapped as a revision and the rest of the list stays |
| ImportRemap.ReferencesResolveToImages | packages/archive/src/import-plan.ts:250-360 | without id collisions every reference resolves to the image of the record it resolved to before |
| ImportRemap.ImportPreservesGraph | packages/archive/src/import-plan.ts:193-360 | without id collisions, records that pass the graph and retention checks pass them in the target workspace |
| ImportPlanner.PlanArchiveImport | packages/archive/src/import-plan.ts:28-164 | the planner's loops compute the plan, throw exactly on unplannable records, unconvertible revision numbers and inherited functions, and find no issue exactly when the import is clean |
| ImportLaws.RequestMeans | packages/archive/src/import-plan.ts:36-58 | a request is accepted exactly when the archive is valid and it preserves ids without naming another workspace, or maps into a workspace whose id is not blank, which is then trimmed |
| ImportActions.ActionsAreComplete | packages/archive/src/import-plan.ts:67-118 | a plan has as many actions as the archive has records and blobs with a digest |
| ImportActions.RecordHasAction | packages/archive/src/import-plan.ts:67-105 | every record of the archive has an action with its image and both ids |
| ImportActions.ActionHasRecord | packages/archive/src/import-plan.ts:67-105 | every action that writes a record comes from a record of the archive in that way |
| ImportActions.CountsTell | packages/archive/src/import-plan.ts:130-137 | the counts are the numbers of actions by disposition and add up to all of them |
| ImportActions.RejectedInsertsNothing | packages/archive/src/import-plan.ts:120-143 | a rejected plan has issues and inserts nothing |
| ImportLaws.WritesInWorkspace | packages/archive/src/import-plan.ts:378-392 | whatever a ready plan writes, other than audit events, belongs to the target workspace |
| ImportPlanner.PlanRecords | packages/archive/src/import-plan.ts:68-104 | one kind's actions, decided against the target, with an issue for each that meets other content; throws exactly on unplannable records and inherited functions |
| ImportReplan.DecisionMeans | packages/archive/src/import-plan.ts:74-89 | insert exactly when the id is free and leads to nothing inherited; already present exactly when what is found is equal, or it is the workspace of a mapped import; throws exactly on an inherited function |
| ImportOrder.NamesInjective | packages/archive/src/import-plan.ts:634-660 | a dependency name determines kind and id |
| ImportOrder.DependencyOrder | packages/archive/src/import-plan.ts:634-679 | in every plan a dependency that names an action has a smaller index, except a revision's parent |
| ImportLaws.PlanInOrder | packages/archive/src/import-plan.ts:670-679 | in every plan actions come in the import order of the kinds, from workspaces to audit events, and within a kind in the order of target ids |
| ImportCycles.CyclesAreParentCycles | packages/archive/src/import-plan.ts:634-668 | in every plan, ready or not, the dependencies have a cycle exactly when the mapped revisions have a cycle of parent ids |
| ImportCycles.PlanCyclesAreOwn | packages/archive/src/import-plan.ts:250-360 | a cycle of parents in the archive is always in the plan, and there is no other as long as mapping keeps revision ids apart |
| ImportCycles.ParentsDecrease | packages/archive/src/import-plan.ts:459-476 | among checked revisions with distinct ids and numbers that are numbers, a parent has a smaller number than its child |
| ImportCycles.Acyclic | packages/archive/src/import-plan.ts:459-476 | the dependencies of a ready plan have no cycle, given distinct revision ids and revision numbers that convert to numbers |
| ImportCycles.TwinsMakeCycles | packages/archive/src/import-plan.ts:393-397 | with two revisions of one id a ready plan can have two actions that wait for each other |
| ImportCycles.UnnumberedMakeCycles | packages/archive/src/import-plan.ts:466-470 | so it can with distinct ids, when revision numbers are not numbers |
| ImportThrows.TextlessNumberThrows | packages/archive/src/import-plan.ts:466-470 | planning throws on a revision number without a text, whatever the target holds |
| ImportThrows.InheritedIdThrows | packages/archive/src/import-plan.ts:74-79 | planning throws on any id that names an inherited function, when the target lists records of that kind |
| ImportReplan.DependenciesAre | packages/archive/src/import-plan.ts:634-668 | the dependencies of a good record are exactly the records its awaited references name, and the external ends of relations, which count as resources |
| ImportIdentity.PlanIdCommits | packages/archive/src/import-plan.ts:166-191 | plans with one id agree on archive, workspaces, modes and actions up to index and disposition, or two of the texts hashed for them collide |
| ImportReplan.OnlyAdds | apps/trust-api/src/portability.ts:472-483 | executing a ready plan adds keys and changes no record |
| ImportReplan.ReferencesResolve | packages/archive/src/import-plan.ts:378-560 | after execution a checked reference resolves in the target exactly when it did before, or it is neither a schema of an archive without schemas nor the empty retention id |
| ImportReplan.SchemaDangles | packages/archive/src/import-plan.ts:413-420 | a dataset of an archive without schemas is imported into an empty target and its schema is not there |
| ImportReplan.PolicyDangles | packages/archive/src/import-plan.ts:540-560 | a dataset that names a policy by the empty id is imported and no policy has that id |
| ImportReplan.ReplanIsIdle | packages/archive/src/import-plan.ts:67-191 | planning the archive again gives no issue, only already-present actions and the same plan id |
| ImportReplan.UniqueIdsAreConsistent | packages/archive/src/import-plan.ts:628-632 | unique target ids per kind meet the condition under which that holds |
| ImportStore.MemoryImportOperations.Begin | apps/trust-api/src/portability.ts:376-396 | returns the plan's operation or creates it at the first checkpoint in both maps |
| ImportStore.MemoryImportOperations.Advance | apps/trust-api/src/portability.ts:398-418 | advances only from the expected checkpoint and otherwise answers with the stored operation |
| ImportStore.AdvanceKeepsStore | apps/trust-api/src/portability.ts:398-418 | an advance keeps both maps consistent and answers with an operation that has passed the expected checkpoint |
| ImportStamps.RunsStamp | apps/trust-api/src/portability.ts:376-418 | in every run of interleaved executors operations keep their plan, export, author and time of creation, and have a time of completion exactly when completed |
| ImportStore.MemoryImportTarget.Stage | apps/trust-api/src/portability.ts:448-456 | adds bytes under the operation and digest and changes nothing else |
| ImportStore.MemoryImportTarget.VerifyStaged | apps/trust-api/src/portability.ts:457-466 | true exactly when the staged bytes have the length and digest |
| ImportStore.MemoryImportTarget.Commit | apps/trust-api/src/portability.ts:467-471 | copies staged bytes to the blobs or reports that there are none |
| ImportStore.MemoryImportTarget.CommitRecords | apps/trust-api/src/portability.ts:472-483 | writes the records in order, keeping the place of keys already there |
| ImportTypes.PutAllIdempotent | apps/trust-api/src/portability.ts:472-483 | committing the same records twice changes nothing more |
| ImportExecution.RunsAreSafe | packages/archive/src/import-executor.ts:38-199 | for any interleaving and crashes of executors, whose plans may have been made at different times, and of other users, the stored checkpoint never moves back and reaching it means the effects of all earlier stages of the whole import are in the target |
| ImportExecution.RecordsAfterBlobs | packages/archive/src/import-executor.ts:73-88 | no record an import inserts appears before every blob it inserts is committed under its own digest |
| ImportFailure.FailureMeansDamage | packages/archive/src/import-executor.ts:125-183 | in runs in which no executor past staging wants an unstaged blob, one fails only when the archive no longer holds a planned blob under its digest |
| ImportFailure.OutdatedFails | packages/archive/src/import-executor.ts:150-183 | an executor past staging that wants an unstaged blob fails when it goes on, even with an intact archive |
| ImportFailure.OnePlanRuns | packages/archive/src/import-executor.ts:125-183 | executors that all use the first plan never are in that position |
| ImportFailure.OwnBlobsRuns | packages/archive/src/import-executor.ts:125-183 | nor are executors of any plans as long as nobody else commits a blob of the import |
| ImportFailure.IntactButFails | packages/archive/src/import-executor.ts:150-172 | a run with an intact archive in which an executor fails because a later plan left out a blob that somebody else committed |
| ImportExecution.ExecutorsTerminate | packages/archive/src/import-executor.ts:53-110 | every own step shortens what an executor has left and nobody else's step lengthens it |
| ImportConvergence.CompletedRunsConverge | packages/archive/src/import-executor.ts:53-110 | every completed import, however often planned anew, crashed and resumed, leaves exactly the blobs, records and audit mark of its first plan |
| ImportExecutor.ArchiveImportExecutor.Execute | packages/archive/src/import-executor.ts:38-123 | refuses exactly what `ImportActions.AcceptedMeans` excludes, changing nothing; otherwise completes an intact import from any state that crashed runs leave, leaving exactly that import, and says truly whether it resumed one and how much its plan inserted |
| ImportActions.AcceptedMeans | packages/archive/src/import-executor.ts:201-236 | a plan with true counts is accepted exactly when the archive is valid, it is ready, no action of it is blocked, its export and workspace are the archive's and its id is that of its content |
| ImportActions.ReadyIsAccepted | packages/archive/src/import-executor.ts:201-236 | of the plans made from an archive exactly the ready ones are accepted, and these are the clean ones made in the strict mode |
| ImportActions.InsertedAreWrites | packages/archive/src/import-executor.ts:114-121 | the records reported as inserted are as many as the plan writes |
| ImportResume.PlanThenExecute | packages/archive/src/import-executor.ts:38-124 | planning against the target and executing the plan: refused with nothing changed exactly when the plan is not ready; otherwise an intact archive is completed and the target holds what the plan promised |
| ImportExecutor.ArchiveImportExecutor.StageBlobs | packages/archive/src/import-executor.ts:125-148 | stages the planned blobs in order, up to the first that is missing or damaged |
| ImportExecutor.ArchiveImportExecutor.VerifyStaged | packages/archive/src/import-executor.ts:150-172 | accepts exactly when every planned blob is staged with its length and digest |
| ImportExecutor.ArchiveImportExecutor.CommitBlobs | packages/archive/src/import-executor.ts:174-183 | commits the planned blobs in order, up to the first that is not staged |
| ImportExecutor.CrashedRunsResume | packages/archive/src/import-executor.ts:44-53 | every run of crashed and resumed executors leaves a state from which one call completes the import, with any plan made on the way |
| ImportResume.PlansShareWork | packages/archive/src/import-plan.ts:166-191 | two ready plans of one import have one id, and the later inserts what the first inserts less what has been put there since |
| ImportResume.PlanAgainAnyTime | packages/archive/src/import-executor.ts:38-123 | planning an import again at any moment of its execution, whatever has crashed, gives a ready plan of the same id that the executor accepts and whose execution completes it |
| ImportResume.ReimportIsIdle | packages/archive/src/import-executor.ts:38-123 | plan, execute through any crashes and new plans, plan again: ready, nothing to insert, same plan id |
| Ingest.FindByHash | packages/persistence-postgres/src/blob-catalog.ts:9-21 | finds a row of the workspace and hash, and none only if there is none |
| IngestSafety.RecordKeeps | packages/persistence-postgres/src/blob-catalog.ts:123-141 | the upsert keeps one row per workspace and hash and answers with it |
| IngestSafety.AppendKeeps | packages/persistence-postgres/src/blob-catalog.ts:61-103 | the audit insert keeps at most one row per operation |
| IngestSafety.ImmutableKeeps | packages/storage/src/memory-object-storage.ts:73-141 | a successful commit leaves the object under its digest and touches no other operation's upload |
| IngestSafety.RunsAreSafe | packages/operations/src/object-ingest.ts:129-272 | the invariant of ingest holds over every interleaving of attempts with crashes |
| IngestSafety.IngestGuarantees | packages/operations/src/object-ingest.ts:129-272 | metadata checkpoint implies catalogued, and audited if the catalog audits; catalogued implies the object is committed in some storage; one row per workspace and hash, at most one audit row per operation, and no attempt fails for missing context or a missing blob |
| IngestOrigin.RecordMeans | packages/persistence-postgres/src/blob-catalog.ts:123-140 | recording a blob adds it when its content has no row, and otherwise only sets the binding of that row, if the blob names one |
| IngestOrigin.RowsAreGenuine | packages/operations/src/object-ingest.ts:232-261 | in every run from an empty system each catalog row has the media type that some operation asked for its content and the length of bytes with its digest, and each audit row names the row of its operation's content |
| IngestHome.RunsStayAtHome | packages/operations/src/object-ingest.ts:102-272 | over every interleaving of attempts with crashes in which each operation keeps to one storage, what its checkpoints say holds of that storage |
| IngestHome.BlobsAreWhereTheySay | packages/operations/src/object-ingest.ts:102-272 | then every catalogued and every returned blob lies in the storage of its binding |
| IngestMoved.CataloguedElsewhere | packages/operations/src/object-ingest.ts:102-272 | a run in which an operation is resumed in another storage and catalogues a blob that is not there |
| IngestService.ObjectIngestService.Ingest | packages/operations/src/object-ingest.ts:90-283 | from any state that crashed attempts leave, keeps the state good; in the storage of its operation an acceptable input completes with the one catalogued blob of its content, which lies where it says; a first attempt is not resumed, says truly whether the content was known, and otherwise adds one row with the length, media type and digest of what was handed in; a key used for another request changes nothing |
| IngestService.StepAdvances | packages/operations/src/object-ingest.ts:134-147 | every step brings an attempt closer to its end |
| History.HistoriesStayLinear | packages/operations/src/history-service.ts:96-300 | over every interleaving of create, delete and restore transactions with stale reads, each resource's revisions stay one chain numbered from 1 with the head at its end, and no committed revision changes |
| History.NoSharedParent | packages/operations/src/history-service.ts:115-133 | no two revisions of a resource share a parent or a number |
| History.PreparedIsNext | packages/core/src/invariants.ts:84-111 | the next-revision check never refuses what a transaction prepared |
| History.OpenTombstone | packages/persistence-postgres/src/history-repository.ts:119-130 | the open tombstone of a resource that was deleted last |
| HistoryService.TransactKeeps | packages/operations/src/history-service.ts:184-300 | with an increasing clock one operation keeps histories linear and every logically deleted resource with revisions recoverable: an open tombstone whose prior revision is its head |
| HistoryService.RunsStayRecoverable | packages/operations/src/history-service.ts:90-300 | so does every sequence of calls, and it changes no committed revision |
| HistoryService.DeletedCanBeRestored | packages/operations/src/history-service.ts:90-300 | from resources without revisions, whatever is deleted at the end of any sequence of calls can be restored inside its window, to the payload of its head under the next number |
| HistoryService.RestoreSucceeds | packages/operations/src/history-service.ts:256-300 | inside the window restoring appends a revision with that payload and schema and the next number |
| HistoryOutcomes.CreateOutcome | packages/operations/src/history-service.ts:90-182 | a revision is created exactly when the resource is there with the expected head; it carries the draft, its hash, the next number and the head as parent, and one audit entry follows |
| HistoryOutcomes.DeleteOutcome | packages/operations/src/history-service.ts:184-254 | a resource is deleted exactly when it is there with the expected head, leaving a tombstone with the requested window and the head |
| HistoryOutcomes.RestoreOutcome | packages/operations/src/history-service.ts:256-300 | a restoration is refused exactly without a recoverable deletion, after its window or without its revision; otherwise it appends that content and closes the tombstone |
| HistoryOutcomes.DeleteThenRestore | packages/operations/src/history-service.ts:184-300 | after a deletion a restoration is refused for its window exactly when the window asked for has passed, and otherwise succeeds unless there never was a revision |
| HistoryService.CreateKeepsConverse | packages/operations/src/history-service.ts:140-150 | creating a revision leaves open tombstones to deleted resources only, exactly when the resource had none |
| HistoryService.RestoreKeepsConverse | packages/operations/src/history-service.ts:293-297 | restoring does so exactly when the tombstone it closes was the only open one |
| HistoryService.ConverseFails | packages/operations/src/history-service.ts:140-150 | a resource deleted and then revised is active with an open tombstone |
| HistoryService.RestoreLeavesOpen | packages/operations/src/history-service.ts:293-297 | so is a resource deleted twice and then restored |
| HistoryService.ResourceHistoryService.CreateRevision | packages/operations/src/history-service.ts:90-182 | the transaction as a whole or nothing, with histories linear and deletions recoverable after it, and the revision that was asked for on the expected head |
| HistoryService.ResourceHistoryService.DeleteResource | packages/operations/src/history-service.ts:184-254 | leaves an open tombstone with the expected head, the time and the requested window, which the next restoration finds |
| HistoryService.ResourceHistoryService.RestoreResource | packages/operations/src/history-service.ts:256-300 | the restoration as a whole or nothing, and the tombstone closed |
| HistoryService.ResourceHistoryService.SetResourceHead | packages/persistence-postgres/src/history-repository.ts:76-98 | changes the head only if it is the expected one and says whether it did |
| Registry.RunsKeep | apps/trust-api/src/app-storage-bindings.ts:443-906 | in every run of commands that set a binding, profile, version or route, one binding per workspace, application and tenant, each with an existing profile of its own, and version generations that strictly increase and never exceed the binding's |
| RegistryService.HistoryNewestFirst | apps/trust-api/src/app-storage-bindings.ts:804-809 | the history of a binding is its versions from the newest back |
| RegistryLaws.RollbackBringsBack | apps/trust-api/src/app-storage-bindings.ts:811-847 | a rollback succeeds exactly when the binding has a version older than its generation; it brings back the profile of the newest such version, records it under the next generation, enables the binding and leaves every other binding as it was |
| RegistryLaws.UpdateThenRollback | apps/trust-api/src/app-storage-bindings.ts:443-847 | rolling back an update brings back the profile recorded last, which is the one before the update exactly when that had been recorded |
| RegistryLaws.RunsRecord | apps/trust-api/src/app-storage-bindings.ts:443-906 | in every run without accepted plans the profile of every binding is recorded |
| RegistryLaws.AcceptedPlanUnrecorded | apps/trust-api/src/app-storage-bindings.ts:679-698 | accepting a plan leaves the profile recorded exactly when it does not change it |
| RegistryLaws.ChangesAreFair | apps/trust-api/src/app-storage-bindings.ts:443-906 | under every command a binding keeps its identity and never loses generations; its status, switch and profile change only by the commands meant for that; it goes away only by being cleared or deleted, and in use only by force |
| RegistryLaws.CommandsTakeEffect | apps/trust-api/src/app-storage-bindings.ts:624-858 | disabling disables, a good probe connects and a bad one asks for attention, only a connected binding starts migrating, and an unforced deletion removes exactly what is neither connected, migrating nor routed |
| RegistryLaws.UpsertStatus | apps/trust-api/src/app-storage-bindings.ts:443-581 | an upsert stores and records the profile, conflicts exactly on another expected generation, configures what has its role and never what lacks it |
| RegistryService.SecondRollbackRestores | apps/trust-api/src/app-storage-bindings.ts:811-847 | when the newest version matches the current profile, a second rollback succeeds and restores that profile |
| RegistryService.CutoverMoves | apps/trust-api/src/app-storage-bindings.ts:864-906 | a cutover succeeds exactly when all digests match and moves exactly the listed routes; a refusal has moved exactly those before the mismatch; no route is lost and no digest changes |
| RegistryService.InMemoryAppStorageRegistry.UpsertBinding | apps/trust-api/src/app-storage-bindings.ts:443-581 | updates the one binding that serves the tenant or adds one, keeping the invariant |
| RegistryService.InMemoryAppStorageRegistry.DisableBinding | apps/trust-api/src/app-storage-bindings.ts:700-710 | disables the binding under a new generation, keeping the invariant |
| RegistryService.InMemoryAppStorageRegistry.DeleteBinding | apps/trust-api/src/app-storage-bindings.ts:712-748 | refuses connected, migrating or routed bindings without force; otherwise removes it and its unused profile |
| RegistryService.InMemoryAppStorageRegistry.RollbackBinding | apps/trust-api/src/app-storage-bindings.ts:811-847 | brings back the previous version under a new generation, keeping the invariant |
| RegistryService.InMemoryAppStorageRegistry.BeginMigrate | apps/trust-api/src/app-storage-bindings.ts:849-858 | a connected binding starts migrating under a new generation |
| RegistryService.InMemoryAppStorageRegistry.CutoverMigrate | apps/trust-api/src/app-storage-bindings.ts:864-906 | the loop moves route after route and succeeds exactly when all digests match |
| Quarantine.RunsKeep | packages/operations/src/quarantine-scan.ts:142-214 | over every run, with lookups and writes of queueing calls, reads, decisions and saves of callbacks, and promotions interleaved and cut off by restarts, states agree with verdicts and no record is lost |
| Quarantine.QuarantineGuarantees | packages/operations/src/quarantine-scan-store.ts:26-101 | in every run promoted means clean; in every run without twins no workspace and upload pair has two records; in every run without rivals about to save a stored verdict never changes |
| Quarantine.PromotionKeeps | apps/trust-api/src/postgres-commands.ts:897-912 | both saves of a promotion store a clean record and change no other |
| QuarantineOrigin.VerdictsAreAuthentic | packages/operations/src/quarantine-scan.ts:142-214 | in every run from the empty store each record was queued as it stands, and its verdict was reported by an authentic callback for its job and workspace |
| QuarantineLaws.PromotedWasAccepted | packages/operations/src/quarantine-scan.ts:16-57 | along the table of transitions a scan is promoted only after it was accepted and its promotion was pending |
| QuarantineLaws.FinalStates | packages/operations/src/quarantine-scan.ts:16-57 | and a rejected or promoted scan stays as it is |
| Quarantine.VerdictsStayInOrder | packages/operations/src/quarantine-scan.ts:176-214 | a stored verdict never changes in a run in which no two callbacks of one job with different outcomes are about to save at once |
| Quarantine.OneAtATime | packages/operations/src/quarantine-scan.ts:176-214 | only receiving a callback can end that, and not one of a job without callbacks under way |
| Quarantine.UploadsStayUnique | packages/operations/src/quarantine-scan-store.ts:93-101 | no upload has two records in a run in which no two queueing calls of one upload are between lookup and write at once |
| Quarantine.OneUploadAtATime | packages/operations/src/quarantine-scan.ts:142-174 | only a new queueing call can end that, and not one of an upload without such calls under way |
| QuarantineOverlap.TwinsStoreTwo | packages/operations/src/quarantine-scan-store.ts:93-101 | wherever two such calls are between lookup and write, some continuation stores two records |
| QuarantineOverlap.UploadQueuedTwice | packages/operations/src/quarantine-scan-store.ts:93-101 | a run from the empty store that leaves an upload with two records |
| QuarantineOverlap.RivalsOverwrite | packages/operations/src/quarantine-scan.ts:180-212 | wherever two callbacks of one job with different outcomes are about to save, some continuation changes a stored verdict |
| QuarantineOverlap.MaliciousOverwritten | packages/operations/src/quarantine-scan.ts:180-212 | a run from the empty store in which a malicious verdict is stored and then replaced by a clean one |
| QuarantineService.InMemoryQuarantineScanStore.SaveRecord | packages/operations/src/quarantine-scan-store.ts:93-101 | with nothing between its lookups and its write, saves exactly when the record does not conflict with those of its job and upload |
| QuarantineLaws.SaveExactly | packages/operations/src/quarantine-scan-store.ts:26-71 | such a save succeeds exactly when writing the record changes no stored scan into another and gives no upload a second record |
| QuarantineService.InMemoryQuarantineScanStore.GetByUploadId | packages/operations/src/quarantine-scan-store.ts:74-82 | finds the record of an upload, and none only if there is none |
| QuarantineService.QuarantineScanOrchestrator.QueueUploaded | packages/operations/src/quarantine-scan.ts:142-174 | a known job is returned and nothing changes; a new one ends up scanning; a conflict changes nothing |
| QuarantineService.QuarantineScanOrchestrator.HandleCallback | packages/operations/src/quarantine-scan.ts:176-214 | refuses callbacks that are not authentic or of no job; records the verdict of a scanning job once; answers repeated callbacks with the record as it is; anything else changes no record |

## Left out

- Lone surrogates: strings are sequences of Unicode scalar values.
- Numbers: integers are unbounded and other numbers are kept as their printed text; converted numbers are exact where the source rounds to double precision.
- Absent reference fields: a record that lacks a field which mapping writes back makes planning throw, as in the source; which of several throws comes first is not modelled.
- Issue messages and paths: issues are codes; the order of issues of different records is not part of any result.
- Object key order of the target's inventory: keys keep insertion order; JavaScript's reordering of integer-like keys is not modelled.
- Container work (packages/archive/src/container.ts): the zip library is not part of this model, and the directory checks are simple bounds.
- Ed25519, base64 and UTF-8 internals: used through their laws only.
- Ingest: saved context other than the two storage keys, operation state texts and the outbox rows are not read back and not modelled; of the two binding fields of a blob only the binding id is kept, and a binding stands for one storage.
- History.HistoriesStayLinear: starts from any repository whose histories are linear; creating resources, and audit and outbox rows beyond the action, are not modelled.
- The payload hash of a revision: a parameter, because its key order depends on the locale.
- Registry: tenants, external ids, plan observation, probes' texts and route resolution, which only read or set single fields.
- Quarantine: the public status view, which copies fields; two queueing calls that share one generated job id.
- QuarantineService.InMemoryQuarantineScanStore.SaveRecord: is one uninterrupted call; what can happen between its lookups and its write is in the runs of `Quarantine`.
- HTTP routing, storage adapters, policy evaluation, identity and the user interface: thin dispatch or code whose sources are elsewhere.
