# Verification of the game delivery backend

A Dafny model of the parts of the service that must not go wrong quietly: content-addressed uploads with quotas and
collection, delta downloads, canonical documents, rate limiting, sessions and credentials, database migrations,
forwarded addresses.

## How it is put together

**One machine for uploading, storing, collecting and finalizing.** `Protocol` has accounts, upload sessions, blob rows,
builds, staging files and stored files. A request under way is the list of repository and storage calls it still has to
make; `Execute` performs one such call atomically and answers with the calls its outcome leads to (the refund after a
failed commit, the discard after a deleted row). An event is a call of some request, a crash of some request, the start
of one, a tick of the clock, or a change from outside (a build created, failed or removed, a quota set). `Run` folds any
list of events, so any number of requests interleave in any order.

**Guarantees over every run.** `Quota`, `UploadSafety`, `SessionSafety`, `SerialUploads`, `Lifecycle` and
`ManifestAgreement` prove invariants of that machine. `Scenarios` has pieces of runs; `Collecting` takes an upload back
with them, and `LostFile`, `StaleListing`, `LateWrite` and `WrongHash` put together the runs that break a guarantee when
the discipline it asks for is missing. `WholeUploads` says what the calls of an upload ask for and leave, and proves
that they add up to the upload.

**The imperative code refines the machine.** `BlobStore` keeps a map of paths to bytes, seen as staging files by session
and blobs by digest. `Backend` holds the tables and the disk, and its `Valid()` says that its present state is where the
recorded trace of machine events leads. `UploadService` and `RetentionService` are the services' own control flow over
it; each method proves that it carried its request to the end on every branch. `Uninterrupted` and `Disciplines` show
that one request at a time keeps every discipline. `Guarantees` joins all of it: however requests interleave, the
backend has the guarantees under their disciplines, and driven by whole calls it has them outright.

**The rest** follows the same division: loops and in-place updates are methods and classes proved against functions and
predicates, and what the source promises is proved about those. `Delta` performs plans in any order, `DeltaTrees` on a
real tree, `Download` plans and verifies, `Manifest`, `CanonicalJson` and `Release` print canonical documents and have
reference readers, `Containment` resolves accepted paths, `RateLimiter` is a token bucket over reals, `Auth` and
`AuthService` are the session machine and its service, `AuthRaces` splits its refreshes and `Credentials` says who gets
a session, `Migrations` plans and applies, `ClientAddress` and `Base64` are the two bit kernels, and `Semver` orders
versions. `Ordering`, `Text`, `Decimal`, `Sums`, `StagingFile`, `Frames` and `Common` hold what they share.

## Where a promise fails, and exactly when it holds

Each of these has a run or an input that shows the failure, and the condition under which it does not happen.

- **Stale listing.** `RetentionService` refunds the size and owner it listed, not those of the row it deletes. If a pass
  outlasts the grace period, a digest collected and uploaded anew meanwhile is refunded to the wrong account
  (`StaleListing.StaleListingRefundsTheWrongUser`). Exact condition: `Quota.ConservedThroughoutIffListingsMatch`.
- **Row without a file.** Between the collector's delete and its discard, the same content can be uploaded again: the
  commit finds the old file, the row is recorded, the discard takes the file
  (`LostFile.ReuploadDuringCollectionLosesTheFile`). Exact condition: `Lifecycle.RowsBackedThroughoutIffRespected`.
- **Recorded size.** Completion trusts the declared size. An empty chunk at the end can complete a session whose last
  write is still pending (`LateWrite.EmptyChunkRecordsAWrongSize`). Exact condition:
  `SerialUploads.HonestThroughoutIffLengthsAreDeclared`.
- **Manifest hash.** A blob collected and recorded anew with another size between reading sizes and finalizing leaves a
  ready build under a hash its manifest does not have (`WrongHash.ChangedSizeChangesTheHash`). Exact condition:
  `ManifestAgreement.AgreeThroughoutIffSizesAreCurrent`; with serial chunks it always holds.
- **Rotation.** `src/repositories/IRefreshTokenRepository.h:41-51` promises that rotation never leaves two valid tokens in a
  family. The statement in `src/repositories/postgres/PgRepositories.cpp:362-375` inserts whether or not it revokes. So two
  refreshes that read the same token fork its family (`AuthRaces.ReadingTwiceForksTheFamily`), and one that rotates after a
  revocation revives the family (`AuthRaces.LateRotationRevivesABurnedFamily`). Exact condition:
  `AuthRaces.FamiliesKeptIffRotationsFindTheirTokens`.
- **Release version.** Validation and printing accept a version component the parser refuses, so a release can be signed
  that can never be read (`Releases.AnOversizedReleaseIsValidButNeverParsed`). Exact condition:
  `Releases.AValidDocumentComesBackIffItsVersionIsInRange`.
- **Migration numbers.** Files are sorted as texts, so a number with more digits can come before a lower one
  (`Migrations.WidthsMatter`). Exact for one width: `Migrations.VersionsOfOneWidthCompareAsNumbers`.
- **Files and directories.** Manifest validation accepts a build no directory tree can hold
  (`DeltaTrees.AValidManifestMayBeNoTree`), and between two builds that trees can hold, the order of a plan's steps can
  matter (`DeltaTrees.OrderMayMatter`). Exact condition: `DeltaTrees.TreesTakeAnyOrderIffApart`, which also shows that
  removing first never fails.

## Model

| member | source | states |
|---|---|---|
| Quota.QuotaIsConserved | src/repositories/IUserRepository.h:53-63 | From any conserving state, every run whose collections delete within the grace period of their listing keeps, for each user: used bytes = bytes of the rows recorded for them + charges held by unfinished completions + refunds owed for deleted rows + what crashed requests took along. |
| Quota.QuotaIsConservedFromTheStart | src/services/RetentionService.cpp:24-43 | The same from empty accounts. |
| Quota.StepConserves | src/services/UploadService.cpp:258-299 | One repository or storage call of any request conserves the quota; only a collector's delete needs its listing to describe the row still. |
| Quota.RefundNeverClamps | src/repositories/postgres/PgRepositories.cpp:153-160 | Whenever a refund is due, at least that much is used: the clamp at zero never bites. |
| Quota.CollectingConservesIffListingMatches | src/services/RetentionService.cpp:24-43 | Deleting a row conserves the quota if and only if the size in the listing is still the row's, and the owner too unless that size is zero. |
| Quota.StaleListingUnbalances | src/services/RetentionService.cpp:24-43 | In any conserving state, a delete by a stale listing puts a named account out of balance, whichever way the listing differs. |
| Quota.ConservedThroughoutIffListingsMatch | src/services/RetentionService.cpp:24-43 | Over every run, the quota is conserved in every state passed through if and only if every delete finds a listing that still describes its row. |
| Quota.ConservedFromTheStartIffListingsMatch | src/repositories/IUserRepository.h:53-63 | The same from empty accounts. |
| StaleListing.StaleListingRefundsTheWrongUser | src/services/RetentionService.cpp:21-43 | For any two users who can afford a content, a run from empty accounts (A uploads, two passes list the row, one collects it, B uploads it anew, the grace period passes, the other pass goes on) after which B pays for a content nobody stores and nothing is owed to B. |
| Quota.QuotaIsNeverExceeded | src/repositories/postgres/PgRepositories.cpp:139-151 | While no quota is changed, no run, with or without crashes and stale listings, takes an account past its quota. |
| Quota.OnlyCrashesLeak | src/services/UploadService.cpp:276-295 | Without a crash no charge is ever lost. |
| UploadSafety.ContentStaysAddressedByItsHash | src/storage/BlobStore.cpp:119-166 | Under every interleaving of chunks, aborts, sweeps, completions, collections and crashes, every stored file hashes to its name. |
| UploadSafety.AcceptedRangesAlwaysTile | src/repositories/postgres/PgUploadRepositories.cpp:248-269 | Under every interleaving the ranges a session accepted follow each other without gap or overlap from 0 to its received bytes. |
| UploadSafety.AcceptedRangesDoNotOverlap | src/repositories/IUploadSessionRepository.h:53-57 | In a tiling, no accepted range reaches into a later one. |
| UploadSafety.AcceptedRangeHoldsItsChunk | src/services/UploadService.cpp:226-237 | In the concatenation of the accepted chunks, each range holds exactly the bytes of its own chunk. |
| SessionSafety.AtMostOneOpenSession | src/repositories/postgres/PgUploadRepositories.cpp:200-233 | Under every interleaving a content of a build has at most one open session, so what a retried negotiation resumes is unique. |
| SessionSafety.ChunksComeFromTheOwner | src/services/UploadService.cpp:188-237 | Under every interleaving, every range a session accepted, and every range still to be reserved, was sent by the user the session belongs to, for this session and offset, in a chunk of allowed size. |
| SessionSafety.ChunksComeFromTheOwnerFromTheStart | src/services/UploadService.cpp:188-237 | The same from empty accounts. |
| SessionSafety.OnlyOpenSessionsAccept | src/repositories/postgres/PgUploadRepositories.cpp:248-269 | A session takes a range only while it is pending and before it expires, where the ranges before it end, and never past its declared size. |
| SessionSafety.SessionsLeaveOnlyInTimeOrWithTheirBuild | src/services/UploadService.cpp:430-445 | Over every run from empty accounts a session disappears only once it has expired, or with its build, however long a sweep takes after its listing. |
| SerialUploads.SerialRunsStayInOrder | src/services/UploadService.cpp:188-256 | If a session's chunks are handled one at a time, its request and its staging file agree after every event, whatever other requests do in between. |
| SerialUploads.SerialUploadsStageAndRecordFaithfully | src/services/UploadService.cpp:188-256 | Then the staging file of an idle session is exactly the concatenation of its accepted chunks, and every recorded size is the length of the stored content. |
| SerialUploads.CommitIsHonestIffFileHasDeclaredLength | src/services/UploadService.cpp:276-290 | A commit that goes through records the true size if and only if the staging file has the declared length. |
| SerialUploads.HonestThroughoutIffLengthsAreDeclared | src/services/UploadService.cpp:276-291 | Over every run, the rows and the records under way have true sizes throughout if and only if no file of another length is ever committed. |
| LateWrite.EmptyChunkRecordsAWrongSize | src/services/UploadService.cpp:213-256 | For every content and every non-empty rest, a run from empty accounts that writes the content, reserves the rest without writing it and completes the session by an empty chunk: the row records the sum of both lengths, which for an injective hash is no size of that digest. |
| SerialUploads.HonestSizesAgree | src/repositories/postgres/PgUploadRepositories.cpp:122-135 | With an injective hash a digest has at most one true size. |
| WholeUploads.InOrderUploadsComplete | src/services/UploadService.cpp:188-299 | A content of the declared digest and size, sent in order by the owner in pieces of allowed size, each before expiry, with quota up to the last byte and no row yet: every call asks for nothing more than is given, and after the last the session is completed, the row recorded, the user charged, the content stored, and nothing else changed. |
| WholeUploads.NegotiatedUploadsComplete | src/services/UploadService.cpp:117-299 | The same from the negotiation on: for a user with a free session slot and room in the quota, it is not refused, and the upload that follows goes through. |
| WholeUploads.NextPieceSucceeds | src/services/UploadService.cpp:188-237 | Whatever else has happened to the tables: where the session has received so much of the content, the next piece is accepted, up to and including the last. |
| Collecting.TheUnwantedGoes | src/services/RetentionService.cpp:24-43 | A row older than the grace period, named by no build and awaited by no open session, goes with its file when a collector passes, and its uploader gets the bytes back; nothing else changes. |
| Collecting.CollectingUndoesAnUpload | src/services/RetentionService.cpp:24-43 | An upload nobody makes use of is taken back whole: after the collection accounts, rows and files are those from before the upload. |
| Lifecycle.BuildFilesAreAlwaysRecorded | src/repositories/postgres/PgCatalogRepositories.cpp:571-607 | Over every run with crashes anywhere, every file of every build has its blob row. |
| Lifecycle.RowsLeaveOnlyWhenCollectable | src/repositories/postgres/PgUploadRepositories.cpp:172-191 | A row disappears only by a collector's delete, and at that moment it is older than the grace period, unreferenced by any build and awaited by no open session. |
| Lifecycle.EveryRowKeepsItsFile | src/services/RetentionService.cpp:24-43 | If committing-and-recording a digest and deleting-and-discarding it exclude each other, every row keeps its stored file over every run, crashes between any two calls included. |
| Lifecycle.EveryBuildFileIsOnDisk | src/repositories/IBlobRepository.h:55-70 | Under the same exclusion, every file of every build is on disk and hashes to the digest the build names. |
| Lifecycle.DiscardKeepsRowsBackedIffNoRow | src/services/RetentionService.cpp:30-37 | Removing a file leaves every row backed if and only if no upload has recorded the digest again. |
| Lifecycle.RecordKeepsRowsBackedIffFileStored | src/services/UploadService.cpp:286-290 | Recording a row leaves every row backed if and only if the committed file has not been removed meanwhile. |
| Lifecycle.RowsBackedThroughoutIffRespected | src/services/RetentionService.cpp:24-43 | Over every run, every row has its file throughout if and only if no file is removed while its digest has a row and no row is recorded while its file is gone. |
| LostFile.ReuploadDuringCollectionLosesTheFile | src/services/RetentionService.cpp:24-43 | For every content that can be uploaded at all, a run from empty accounts (upload, grace period, collector's delete, upload again, collector's discard) that ends with a recorded row and no file. |
| ManifestAgreement.FinalizeAgreesIffSizesStillHold | src/services/UploadService.cpp:338-383 | A successful finalization records the hash of the manifest the store will serve if and only if the sizes read before still hold in the rows. |
| ManifestAgreement.ManifestsAlwaysAgree | src/services/UploadService.cpp:421-426 | Over every run in which they hold, every ready build whose files are present has a recorded hash equal to the hash of its served manifest. |
| ManifestAgreement.ServedManifestHashesToItsRecord | src/repositories/postgres/PgCatalogRepositories.cpp:539-558 | From empty accounts: whatever order the file rows come back in, the served bytes hash to the recorded value. |
| ManifestAgreement.SerialRunsAreSettled | src/services/UploadService.cpp:338-379 | With an injective hash and chunks handled one at a time, the sizes always still hold, so agreement needs no further condition. |
| ManifestAgreement.AgreeThroughoutIffSizesAreCurrent | src/services/UploadService.cpp:338-383 | For an injective hash, over every run, manifests agree with their records throughout if and only if every finalization that takes effect finds the sizes it read. |
| WrongHash.ChangedSizeChangesTheHash | src/services/UploadService.cpp:338-383 | For an injective hash, a run from empty accounts (sizes read, row collected, digest recorded anew with another size, finalize) that leaves a ready build whose served manifest does not hash to its record. |
| ManifestAgreement.ABuildIsFinalizedAtMostOnce | src/repositories/postgres/PgCatalogRepositories.cpp:571-607 | A ready build stays ready with the same files, hash, entrypoint and arguments until it is removed. |
| BlobStores.StorageKeysAreInjective | src/storage/BlobStore.cpp:33-41 | Different digests get different storage paths. |
| BlobStores.StagingPathsAreInjective | src/storage/BlobStore.cpp:60-63 | Different sessions get different staging paths. |
| BlobStores.StagingNeverMeetsStorage | src/storage/BlobStore.cpp:33-63 | No staging path is ever a storage path, whatever the session id and the digest. |
| BlobStores.StagingChangesOneSession | src/storage/BlobStore.cpp:60-63 | Changing one staging path changes that session and no other session or blob. |
| BlobStores.StoringChangesOneDigest | src/storage/BlobStore.cpp:33-41 | Changing one storage path changes that digest and no other blob or session. |
| BlobStores.BlobStore.Contains | src/storage/BlobStore.cpp:51-58 | True exactly when the digest is stored. |
| BlobStores.BlobStore.WriteAt | src/storage/BlobStore.cpp:65-108 | The session's staging file becomes the old bytes with the range overwritten, past the end filled with zeros; everything else is untouched; a negative or first non-zero offset is refused; an operating system that fails may leave any debris in that one file. |
| BlobStores.BlobStore.Commit | src/storage/BlobStore.cpp:119-166 | Succeeds exactly when the declared digest is well formed, the staged bytes hash to it and the system works, with the error of the first of these that fails; on success the content is stored under the digest; the staging file goes unless the digest is malformed; what was already stored stays. |
| BlobStores.BlobStore.Discard | src/storage/BlobStore.cpp:168-171 | One staging file goes, nothing else. |
| BlobStores.BlobStore.DiscardBlob | src/services/RetentionService.cpp:30-37 | One stored blob goes, nothing else. |
| Guarantees.BackendsKeepTheirPromises | src/services/UploadService.cpp:188-445 | Every state the imperative backend reaches, interleaved or not, has all of the guarantees above, each under the discipline it names. |
| Guarantees.QuietBackendsKeepAllPromises | src/services/UploadService.cpp:117-445 | A backend driven by whole service calls, and by what happens between them, has all of the guarantees outright: addresses, tilings, quota, files behind rows, rows behind builds, true sizes, complete staging files, agreeing manifests. |
| Disciplines.OneAtATimeKeepsTheDisciplines | src/services/UploadService.cpp:188-445 | A run of one request at a time is timely, exclusive, settled and serial. |
| Uninterrupted.FinishedCallLeavesIdle | src/services/UploadService.cpp:188-445 | Adding one whole service call to such a run gives such a run again, with nothing under way. |
| Backends.Backend.HandOut | src/repositories/postgres/PgUploadRepositories.cpp:248-269 | The offset is handed out only to an open, unexpired session at exactly that offset with room for the bytes. |
| Backends.Backend.CreateSession | src/repositories/postgres/PgUploadRepositories.cpp:200-233 | One event of the machine; exactly one open session is added, with nothing received. |
| Backends.Backend.FindOpen | src/repositories/postgres/PgUploadRepositories.cpp:218-232 | Finds an open session for the content of the build exactly when there is one. |
| Backends.Backend.FailBuild | src/repositories/postgres/PgCatalogRepositories.cpp:609-616 | One event; a ready build never fails. |
| Backends.Backend.DropBuild | src/repositories/postgres/PgCatalogRepositories.cpp:618-626 | One event; the build and its upload sessions go, nothing else. |
| Backends.Backend.ReserveBytes | src/repositories/postgres/PgUploadRepositories.cpp:248-269 | The call is one step of the machine, its answer decides whether the write follows. |
| Backends.Backend.WriteStaging | src/storage/BlobStore.cpp:65-108 | One step; what follows is completion, nothing or the abort, by whether the write worked and the session is complete. |
| Backends.Backend.FindBySha256 | src/services/UploadService.cpp:263-267 | One step; content already recorded is not charged again. |
| Backends.Backend.ChargeUpload | src/repositories/postgres/PgRepositories.cpp:139-151 | One step; the charge is made exactly when it fits the quota. |
| Backends.Backend.CommitStaging | src/storage/BlobStore.cpp:119-166 | One step; a failed commit leads to refund and abort. |
| Backends.Backend.RecordBlob | src/repositories/postgres/PgUploadRepositories.cpp:122-135 | One step; the digest has a row afterwards, and the loser of the race refunds. |
| Backends.Backend.ReleaseUpload | src/repositories/postgres/PgRepositories.cpp:153-160 | One step, clamped at zero. |
| Backends.Backend.MarkSession | src/repositories/postgres/PgUploadRepositories.cpp:271-287 | One step; only an open session changes status. |
| Backends.Backend.DeleteById | src/repositories/postgres/PgUploadRepositories.cpp:313-320 | One step; exactly that session row goes. |
| Backends.Backend.DeleteIfUnreferenced | src/repositories/postgres/PgUploadRepositories.cpp:172-191 | One step; the row goes exactly when it is old enough, unreferenced and unawaited at that moment, and only then do discard and refund follow. |
| Backends.Backend.DeleteRow | src/repositories/postgres/PgUploadRepositories.cpp:172-191 | The SQL test by subqueries agrees with the collectability of the machine. |
| Backends.Backend.FinalizeRow | src/repositories/postgres/PgCatalogRepositories.cpp:560-607 | One step; the build becomes ready exactly when it is uploading and every file has a row, and then holds exactly the submitted files, hash, entrypoint and arguments. |
| UploadServices.UploadService.ServeManifest | src/services/UploadService.cpp:393-428 | Anything but a ready build is not found; a ready one is answered with its recorded hash, and, if finalizations found the sizes they read, with bytes that hash to it. |
| UploadServices.UploadService.FilesFor | src/repositories/postgres/PgCatalogRepositories.cpp:539-558 | The build's files with the recorded sizes, each once, in an order nothing relies on. |
| UploadServices.UploadService.BeginUpload | src/services/UploadService.cpp:117-173 | Refuses with the code of the first failing check and changes nothing. While a session is in flight for the content, it is unique, and the answer is that session if and only if it is the caller's, and a conflict if and only if it is another's. Otherwise exactly one fresh session opens. No user gets past the number of sessions allowed, and nobody is answered a session past their quota. |
| UploadServices.UploadService.UploadChunk | src/services/UploadService.cpp:188-256 | Succeeds if and only if the chunk is of the owner's open session, in time, of allowed size, at its offset and within its size, the write works, and, if it is the last, the content is held or can be charged, commits and hashes as declared; then the tables and files are exactly those of a good chunk. A refused chunk changes nothing; any other failure carries the program to its end, with every compensation, and leaves the session aborted. |
| UploadServices.UploadService.CompleteSession | src/services/UploadService.cpp:258-299 | Succeeds exactly when the content is held already, or can be charged and hashes as declared; success leaves exactly the row, the file, the charge and the mark, failure the session aborted and no request under way. |
| UploadServices.UploadService.CommitAndRecord | src/services/UploadService.cpp:276-298 | After the charge: succeeds exactly when the commit does and then there is a row; a failed one answers its error with the refund made and the session aborted. |
| UploadServices.UploadService.AbortUpload | src/services/UploadService.cpp:301-310 | Only the owner may; afterwards nothing of the session is staged. |
| UploadServices.UploadService.SweepExpiredSessions | src/services/UploadService.cpp:430-445 | Every listed session and its staging file are gone, and distinct sessions are counted once each. |
| UploadServices.UploadService.DistinctBlobs | src/services/UploadService.cpp:330-336 | Every digest of the manifest once, and no other. |
| UploadServices.UploadService.SizeEntries | src/services/UploadService.cpp:361-370 | Sizes come from the store, never from the request. |
| UploadServices.UploadService.FinalizeBuild | src/services/UploadService.cpp:312-391 | Succeeds if and only if the submission is valid, the build is uploading and every blob is recorded; then the build is ready with the submitted files and the hash of the canonical document over stored sizes. |
| RetentionServices.RetentionService.CollectOne | src/services/RetentionService.cpp:24-43 | The row goes exactly when it is collectable, and the file goes exactly when the row did. |
| RetentionServices.RetentionService.CollectUnreferencedBlobs | src/services/RetentionService.cpp:18-56 | Every listed blob loses row and file; the report counts each candidate once and sums the reclaimed bytes of a listing without repeats. |
| CanonicalJson.AppendCanonicalJsonString | src/domain/CanonicalJson.cpp:5-43 | Appends the quoted text and leaves what was there. |
| CanonicalJson.ReadStringUndoesQuoted | src/domain/CanonicalJson.cpp:5-43 | A string reader after section 7 of RFC 8259 reads every quoted string back, quotes, backslashes and control bytes included, and stops at its end. |
| Manifest.ValidateRelativePath | src/domain/Manifest.cpp:35-92 | Accepts exactly the safe paths. |
| Containment.AcceptedIffStaysInside | src/domain/Manifest.cpp:33-92 | A path is accepted if and only if it has 1 to 1024 characters, none of them a control character or a backslash, and on every platform, from every root, it resolves to exactly root and segments. |
| Containment.SafePathsStayInside | src/domain/Manifest.cpp:33-92 | On its way an accepted path never leaves the root, whether slashes, backslashes, drives, dots or leading slashes are what the platform looks for. |
| Containment.SafePathsNameDifferentFiles | src/domain/Manifest.cpp:33-92 | Two accepted paths lead to one file if and only if they are equal. |
| Containment.ValidBuildsInstallInside | src/domain/Manifest.cpp:94-139 | A validated build installs below the root only, each file in its own place. |
| Containment.ValidBuildsAreExactly | src/domain/Manifest.cpp:94-139 | Validation accepts exactly the builds of up to 200000 files that all install inside, with lower-case SHA-256 digests, sizes and distinct places, one of them to start. |
| Manifest.ValidateManifest | src/domain/Manifest.cpp:94-139 | Accepts exactly the valid manifests; a conflict is reported only if a path is repeated, and always if that is all that is wrong. |
| Manifest.CanonicalManifestDocument | src/domain/Manifest.cpp:141-178 | The printed text is the document of a path-sorted permutation, and without repeated paths it depends on the entries only up to order. |
| Manifest.ReadDocumentUndoesDocumentText | src/domain/Manifest.cpp:141-178 | A reference parser returns entrypoint, launch arguments and entries of every printed document, for all strings. |
| Manifest.CanonicalTextIdentifiesTheManifest | src/domain/Manifest.cpp:141-178 | Two manifests share a canonical document if and only if entrypoint and arguments are equal and the entries are the same up to order. |
| Deltas.ComputeDelta | src/domain/Delta.cpp:114-142 | The steps are those of the target's unkept files and the removed paths, the kept entries exactly those already there unchanged; downloadBytes is the sum over precisely the distinct needed blobs; and, for unique target paths, performing the steps in any order turns the install into the target. |
| Deltas.FullDownload | src/domain/Delta.cpp:97-112 | The same for the full plan, whose cost is the sum over all distinct blobs. |
| Deltas.DeltaUpdatesInAnyOrder | src/domain/Delta.h:22-24 | Every permutation of a delta's writes, copies from the current content of the source path and removals ends in exactly the target's path-to-blob map. |
| Deltas.FullUpdatesInAnyOrder | src/domain/Delta.cpp:97-112 | So does every permutation of a full plan. |
| DeltaTrees.TreesTakeAnyOrderIffApart | src/domain/Delta.h:22-24 | Where a path cannot be file and directory at once: every order of the steps can be written if and only if no path of one build is a directory of the other; writes before removals fail otherwise, removals before writes never do. |
| DeltaTrees.PlansFitTrees | src/domain/Delta.cpp:97-142 | So for every plan the server computes, and removals first end in exactly the target. |
| DeltaTrees.AValidManifestMayBeNoTree | src/domain/Manifest.cpp:94-139 | A manifest with the files a and a/b passes validation. |
| DeltaTrees.OrderMayMatter | src/domain/Delta.cpp:97-142 | From a build with the file a to one with a/b, the plan's writes before its removals do not fit. |
| Deltas.IndependentStepsSettle | src/domain/Delta.cpp:24-35 | Steps whose sources no step touches leave, after any of them, each path at its old or its final content. |
| Deltas.TravellingBlobsAreTheNeeded | src/domain/Delta.cpp:63-75 | The blobs that travel are the distinct blobs of the target that no unchanged path holds. |
| Deltas.KeptIsInPlace | src/domain/Delta.cpp:114-131 | An entry counts as kept exactly when the install has its content at its path. |
| Deltas.NeededIsInPlaceNowhere | src/domain/Delta.cpp:24-35 | A blob of the target travels exactly when no path has it both before and after the update. |
| Deltas.DeltaIsNeverDearer | src/domain/Delta.cpp:63-83 | Delta bytes are at most full bytes, and these at most the size of the build. |
| Deltas.NeededBlobsIgnoreOrder | src/domain/Delta.cpp:114-142 | The cost does not depend on the order of either manifest. |
| Deltas.IndexByPath | src/domain/Delta.cpp:12-19 | The index answers each path with its first entry. |
| Deltas.SurvivingContent | src/domain/Delta.cpp:24-35 | A digest is mapped exactly when a path keeps it unchanged, to the first such path. |
| Deltas.PathsToRemove | src/domain/Delta.cpp:50-59 | Exactly the installed paths the target lacks, in order. |
| Deltas.TransferBytes | src/domain/Delta.cpp:63-75 | Each travelling digest counted once. |
| Deltas.SumOfSizes | src/domain/Delta.cpp:77-83 | The size of all files of the target. |
| Deltas.SortPlan | src/domain/Delta.cpp:37-48 | All three lists sorted by path, each a permutation, the rest unchanged. |
| Downloads.Plan | src/services/DownloadService.cpp:95-180 | A source of another game is refused; otherwise the plan is a delta exactly within the threshold, and either kind updates the source install to the target in any order at exactly the stated cost. |
| Downloads.GenerousThresholdsTakeTheDelta | src/services/DownloadService.cpp:128-141 | A threshold of the whole build or more never turns a delta down. |
| Downloads.TheSameBuildIsADeltaOfNothing | src/services/DownloadService.cpp:128-141 | Updating to the installed build is a delta of zero bytes, whatever the threshold. |
| Downloads.SignAll | src/services/DownloadService.cpp:73-93 | Each file once, in order, with its copy source and a signed address for its content. |
| Downloads.DistinctBlobBytes | src/services/DownloadService.cpp:27-36 | The size of the distinct blobs of the repair list. |
| Downloads.Observe | src/services/DownloadService.cpp:196-217 | Accepts exactly reports of well-formed files without a repeated path, and then maps each path to its hash. |
| Downloads.Classify | src/services/DownloadService.cpp:219-241 | Missing, corrupt and damaged are exactly the entries that are absent, that differ, and that do not match, in manifest order. |
| Downloads.FindUnexpected | src/services/DownloadService.cpp:243-252 | Exactly the reported paths outside the manifest, sorted. |
| Downloads.VerifyInstall | src/services/DownloadService.cpp:182-263 | Succeeds exactly on acceptable reports, and then the answer is the report of what was observed. |
| Downloads.ReportsCompareDisks | src/services/DownloadService.cpp:219-241 | Intact if and only if the disk has the whole build in place; missing are exactly its paths that are absent, corrupt exactly those with other content. |
| Downloads.ReportsPartitionTheManifest | src/services/DownloadService.cpp:219-241 | Each manifest file is missing, corrupt or matching and never two of them, and is repaired exactly when it is one of the first two. |
| Downloads.RepairMakesTheInstallIntact | src/services/DownloadService.cpp:196-260 | A client that writes the repair list and verifies again: the second list is accepted if and only if the missing files have not made it longer than allowed, and then the answer is intact with zero repair bytes. |
| Downloads.ManifestsAreReportable | src/domain/Manifest.cpp:94-139 | Every file of a manifest that passed validation passes the checks on reported files, and no path repeats. |
| Downloads.FinalizedBuildsAreRepairable | src/services/DownloadService.cpp:196-260 | So for a validated build nothing more is asked for: one round of repair, if the second list is accepted, leaves it intact. |
| Downloads.RepairedListShows | src/services/DownloadService.cpp:229-256 | The list after writing the repair shows the repaired files, is well formed without repeats, and is longer by exactly the missing files. |
| Downloads.UnexpectedFilesNeverMatter | src/services/DownloadService.cpp:219-260 | Observations that agree on the manifest's paths give the same verdict, lists, repair and repair bytes. |
| RateLimiting.LimitsFor | src/common/RateLimiter.cpp:19-23 | Capacity and rate are positive whatever was configured, and are the configured ones when those are. |
| RateLimiting.RateLimiter.Acquire | src/common/RateLimiter.cpp:39-54 | Answer and buckets are those of the specification. |
| RateLimiting.RateLimiter.SecondsUntilToken | src/common/RateLimiter.cpp:56-72 | Likewise. |
| RateLimiting.RateLimiter.DropFullBuckets | src/common/RateLimiter.cpp:74-83 | Erasing while visiting the entries in any order removes exactly the full buckets. |
| RateLimiting.GrantsArePaidFor | src/common/RateLimiter.cpp:31-54 | Over every run of calls at non-decreasing times, grants to a key are at most its level at the start plus what drips in. |
| RateLimiting.RateIsBounded | src/common/RateLimiter.cpp:19-54 | Over every run of a fresh limiter at non-decreasing times, the grants to one key in any interval of length T, whatever came before it and with prunes and other keys anywhere, are at most capacity + T * capacity / window. |
| RateLimiting.ConformingCallersAreNeverRefused | src/common/RateLimiter.cpp:31-55 | The converse bound: over any ordered run with other keys and prunes anywhere, a caller of whom no interval holds more requests than a full bucket and the interval's share is granted every one. |
| RateLimiting.PrunesAreUnobservable | src/common/RateLimiter.cpp:74-83 | With prunes anywhere, every answer is the one a limiter that never prunes gives. |
| RateLimiting.RetryAfterIsTheLeastWait | src/common/RateLimiter.cpp:56-72 | After the answer n, whole-second waits succeed if and only if they are at least n, whatever is called for other keys, asked or pruned meanwhile. |
| Auth.EachFamilyHasOneLiveToken | src/services/AuthService.cpp:172-220 | With each service call atomic, every run keeps at most one unrevoked token per family. |
| Auth.FamiliesFromTheStart | src/services/AuthService.cpp:356-374 | The same from empty tables. |
| Auth.BurnedStaysBurned | src/services/AuthService.cpp:172-209 | A family without a live token never gets one again. |
| Auth.ReplayBurnsTheFamily | src/services/AuthService.cpp:179-188 | Once a revoked token has been presented, no token of its family yields a session, after any run. |
| Auth.CredentialChangesEndSessions | src/services/AuthService.cpp:275-285 | After a successful change, reset, temporary password, deactivation or erasure, no refresh token issued before it yields a session, after any run. |
| Auth.FlagStaysUntilTheOwnerChooses | src/services/AuthService.cpp:160-169 | No event but the owner's own change or reset clears the change-required flag, a login's rehash included, and a session minted meanwhile carries it. |
| Auth.FlaggedUsersGetFlaggedSessions | src/services/AuthService.cpp:376-378 | Over whole runs without the owner's own choice, every session of a flagged user carries the flag. |
| Auth.TemporaryPasswordsDemandAChange | src/repositories/postgres/PgAdminRepositories.cpp:195-230 | So it is from the temporary password on. |
| Auth.ResetLinksOpenOnce | src/repositories/postgres/PgRepositories.cpp:442-467 | A reset link that was used, superseded or outlived its password opens nothing, after any run. |
| Credentials.LoginMintsIff | src/services/AuthService.cpp:133-170 | A login mints if and only if the account is found, the password verifies against the hash stored for it, the account is active and, where asked for, its address verified; a disabled account is only admitted to whoever knows the password. |
| Credentials.RefreshMintsIff | src/services/AuthService.cpp:172-209 | A refresh mints if and only if the token is there, neither revoked nor expired, and its user there and active; the new token continues the family. |
| Credentials.ChangeSucceedsIff | src/services/AuthService.cpp:291-353 | A change succeeds if and only if the account is active, the present password is right, the new one differs and can be hashed; then exactly the hash and the flag change in the user table. |
| Credentials.ResetSucceedsIff | src/services/AuthService.cpp:262-288 | A reset succeeds if and only if the link is there, neither used nor expired, and the new password can be hashed. |
| Credentials.StoredHashFitsTheChosen | src/services/AuthService.cpp:160-169 | Over every run, rehashing logins included, the stored hash fits exactly the passwords that fit the hash last chosen for the account. |
| Credentials.LoginsTakeTheChosenPassword | src/services/AuthService.cpp:133-170 | So after any run a login mints if and only if the password fits the hash of the last change, reset, temporary password or erasure, and the account may sign in. |
| Credentials.ChangedPasswordsAreOver | src/services/AuthService.cpp:291-353 | Once changed, the old password opens nothing after any run in which nobody chooses again. |
| Credentials.SessionsRefreshUntilTheyExpire | src/services/AuthService.cpp:356-374 | Left alone, a login's token refreshes exactly until its time is over. |
| Credentials.LinksOpenUntilTheyExpire | src/services/AuthService.cpp:235-285 | Left alone, a requested link resets the password exactly until its time is over, and then exactly the new password signs in. |
| Auth.RotationKeepsFamiliesIffTokenLives | src/repositories/postgres/PgRepositories.cpp:362-391 | A rotation, however late, leaves every family at most one live token and every burned family burned if and only if its own update finds the token live; a row that is gone by then counts as not live. |
| Auth.ConcurrentRefreshesForkTheFamily | src/repositories/postgres/PgRepositories.cpp:362-391 | Two refreshes that both find one live token leave two, because the insert does not depend on the revocation. |
| Auth.LateRotationOutlivesRevocation | src/repositories/postgres/PgRepositories.cpp:362-391 | A refresh that read before an operator's temporary password and rotates after it leaves a live token. |
| AuthRaces.FamiliesKeptIffRotationsFindTheirTokens | src/services/AuthService.cpp:172-209 | With refreshes split into reading and rotating, interleaved with every other event and dropped anywhere: every state passed through has single families and no burned family revives, if and only if every rotation finds its token live. |
| AuthRaces.FromTheStartFamiliesKeptIffRotationsFindTheirTokens | src/repositories/postgres/PgRepositories.cpp:362-391 | The same from empty tables. |
| AuthRaces.PromptRotationIsARefresh | src/services/AuthService.cpp:172-209 | Reading and at once rotating is the undivided refresh. |
| AuthRaces.PromptRacesAreSerial | src/services/AuthService.cpp:172-209 | A split run in which nothing comes between reading and rotating ends where the run of undivided refreshes does. |
| AuthRaces.ReadingTwiceForksTheFamily | src/repositories/postgres/PgRepositories.cpp:362-391 | A run from empty tables (login, two reads, two rotations) that leaves two live tokens in one family. |
| AuthRaces.LateRotationRevivesABurnedFamily | src/repositories/postgres/PgRepositories.cpp:362-391 | A run from empty tables (login, read, temporary password, rotation) that revives a burned family while every family stays single. |
| AuthServices.AuthService.SignIn | src/services/AuthService.cpp:132-170 | State and answer are those of the state machine's login event. |
| AuthServices.AuthService.RefreshWith | src/services/AuthService.cpp:172-209 | Likewise for a refresh, replay included. |
| AuthServices.AuthService.SignOut | src/services/AuthService.cpp:211-220 | Likewise for a logout. |
| AuthServices.AuthService.RequestPasswordReset | src/services/AuthService.cpp:235-260 | Likewise: older links die and a new one is written. |
| AuthServices.AuthService.Reset | src/services/AuthService.cpp:262-289 | Likewise for a reset by link. |
| AuthServices.AuthService.Change | src/services/AuthService.cpp:291-354 | Likewise for the owner's change of password. |
| AuthServices.AuthService.IssueSession | src/services/AuthService.cpp:356-385 | Issues or rotates, and the session carries the user's flag. |
| AuthServices.AuthService.ReplacePassword | src/repositories/postgres/PgAdminRepositories.cpp:195-230 | The one statement's effects on password, flag, tokens and links are the temporary-password event. |
| AuthServices.AuthService.Activate | src/repositories/postgres/PgAdminRepositories.cpp:162-193 | Likewise for (de)activation. |
| Ordering.BeforeIsLexicographic | src/migrations/MigrationRunner.cpp:155-157 | The order every sort uses is that of std::string: a proper prefix, or the smaller character at the first difference. |
| Migrations.VersionsOfOneWidthCompareAsNumbers | src/migrations/MigrationRunner.cpp:155-157 | Digit strings of one width are ordered as their values. |
| Migrations.FilesOfOneWidthAreInNumericOrder | src/migrations/MigrationRunner.cpp:155-157 | So discovered files of one width, and every history they leave, finished or not, go from the lowest number to the highest. |
| Migrations.WidthsMatter | src/migrations/MigrationRunner.cpp:155-157 | Of different widths the text decides: 10 comes before 9. |
| Migrations.ParseFileName | src/migrations/MigrationRunner.cpp:44-52 | Succeeds exactly on a digit run, an underscore and a name, and returns them. |
| Migrations.Discover | src/migrations/MigrationRunner.cpp:120-167 | Success means all and only the SQL files, strictly sorted by version; each failure names a cause that is in the directory. |
| Migrations.PlanMigrations | src/migrations/MigrationRunner.cpp:169-217 | For strictly sorted files and unique history versions: succeeds if and only if the applied pairs are exactly the first files', and pending is the rest. |
| Migrations.RunAlone | src/migrations/MigrationRunner.cpp:223-289 | A bad history is refused untouched; otherwise the history stays a prefix, grows by working migrations only, and the summary counts them. |
| Migrations.HistoryStaysAPrefix | src/migrations/MigrationRunner.cpp:254-283 | Over any interleaving of runs that fail or crash at any migration, and of deployments that append files, history is a prefix of the files and only grows: each migration commits at most once, in order. |
| Migrations.HistoryIsAPrefixFromTheStart | src/migrations/MigrationRunner.cpp:169-217 | The same from an empty history, so planning never refuses what the runner itself left. |
| Migrations.AFinishedRunHasAppliedEverything | src/migrations/MigrationRunner.cpp:254-283 | A run nothing interrupts leaves every file applied. |
| Semvers.ParseComponent | src/domain/Semver.cpp:15-42 | Accepts exactly canonical decimals up to the maximum, with their value. |
| Semvers.ParseSemver | src/domain/Semver.cpp:46-81 | Accepts exactly one to three components, trimmed, absent ones zero. |
| Semvers.CanonicalVersionIdentifiesTheComponents | src/domain/Semver.cpp:46-81 | Canonical texts are equal if and only if all components are. |
| Semvers.ParsingUndoesCanonicalVersion | src/domain/Semver.cpp:46-81 | A canonical text parses back if and only if its components are in range. |
| Semvers.NewerHasTheHigherRank | src/domain/LauncherRelease.cpp:198-201 | For components in range, newer is the larger of the numbers with six digits for each lower component. |
| Semvers.NewerIsAStrictTotalOrder | src/domain/LauncherRelease.cpp:198-201 | On canonical version texts: exactly one of newer, older and same text, and transitive. |
| Releases.CheckUtcTimestamp | src/domain/LauncherRelease.cpp:26-60 | Decides the shape and the ranges of the timestamp. |
| Releases.TimestampsArePrintedMoments | src/domain/LauncherRelease.cpp:26-60 | The accepted timestamps are exactly what the moments in range print. |
| Releases.NamesParseBack | src/domain/LauncherRelease.cpp:64-127 | Names of channel, platform and architecture parse back. |
| Releases.ValidateReleaseDocument | src/domain/LauncherRelease.cpp:129-169 | Accepts exactly the valid documents. |
| Releases.CanonicalReleaseDocument | src/domain/LauncherRelease.cpp:171-196 | Prints the nine keys in order and nothing else. |
| Releases.ReadReleaseUndoesReleaseText | src/domain/LauncherRelease.cpp:171-196 | A reference reader returns every field of every printed document. |
| Releases.TheReferenceReaderDoes | src/app/ReleaseDocumentJson.cpp:20-88 | So a reader as the parser below assumes exists. |
| Releases.ParseReleaseDocument | src/app/ReleaseDocumentJson.cpp:20-88 | With any JSON reader, accepts nothing but the canonical bytes of a valid document; with one that reads the bytes of valid documents right, accepts those of every valid document whose version is in range, and returns it. |
| Releases.AValidDocumentComesBackIffItsVersionIsInRange | src/app/ReleaseDocumentJson.cpp:41-46 | The canonical bytes of a valid document come back as that document if and only if its version components are in range, and with no reader otherwise. |
| Releases.AnOversizedReleaseIsValidButNeverParsed | src/domain/LauncherRelease.cpp:136-147 | Version 1000000.0.0 passes validation and its own bytes are refused. |
| ClientAddress.ParseIpv4 | src/common/ClientAddress.cpp:36-62 | The four octets, packed, exactly when there are four. |
| ClientAddress.ParsingUndoesDotted | src/common/ClientAddress.cpp:36-62 | Parsing a printed address gives the value whose four bytes, by shifts and masks, are the printed octets. |
| ClientAddress.OctetsIdentifyTheAddress | src/common/ClientAddress.cpp:36-62 | There is only one such value. |
| ClientAddress.MaskComparesLeadingBits | src/common/ClientAddress.cpp:64-82 | Masked addresses are equal if and only if their first p bits agree, for every p in 1..32. |
| ClientAddress.MatchesEntry | src/common/ClientAddress.cpp:64-82 | An entry matches exactly when it is the address, or a network whose p leading bits agree. |
| ClientAddress.IsTrustedProxy | src/common/ClientAddress.cpp:86-93 | Some entry matches. |
| ClientAddress.ResolveClientAddress | src/common/ClientAddress.cpp:95-122 | The right-to-left scan finds the last non-empty hop that is not trusted, else the peer. |
| ClientAddress.TheClientIsTheLastHopNobodyVouchesFor | src/common/ClientAddress.cpp:95-122 | By position: a header of an untrusted peer is ignored; otherwise the client is the last hop that says something and matches no trusted entry, or the peer if there is none. |
| ClientAddress.TextLeftOfTheClientNeverMatters | src/common/ClientAddress.cpp:95-122 | Text left of a suffix with an untrusted hop never changes the answer. |
| Base64.Base64Url | src/storage/DownloadUrlSigner.cpp:16-48 | The loop over groups and the tail print the encoding. |
| Base64.DecodingUndoesEncoding | src/storage/DownloadUrlSigner.cpp:16-48 | Decoding gives back byte strings of every length. |
| Base64.EncodedLength | src/storage/DownloadUrlSigner.cpp:16-48 | Length ceil(4n/3) without padding, every letter in the alphabet of section 5 of RFC 4648. |

## Left out

- Protocol: `missingBlobs` is a read and not modelled; the event that opens a session asks less than `beginUpload` does, so the machine has more runs than the service.
- Protocol: permission and ownership lookups before finalizing, failing or removing a build are reads of tables not modelled; the events exist without them.
- Protocol: SHA-256 is an arbitrary function of the bytes, and injective only in the lemmas that say so.
- Protocol: a commit's hashing and renaming are one step with respect to writes, as an open file descriptor that survives a rename is not modelled.
- Protocol: the listings `findExpired` and `findUnreferenced` arrive as any list of ids that meet the query's condition, in any order, at most the sweep's batch; user rows are never deleted.
- Quota.QuotaIsConserved: asks that collections finish within the grace period of their listing, without which it is false (`StaleListing.StaleListingRefundsTheWrongUser`).
- SerialUploads.SerialUploadsStageAndRecordFaithfully: asks that a session's chunks come one at a time and that no chunk request dies between reserving and writing or with a staging file still to discard, since either leaves a file shorter or longer than what was accepted (`LateWrite.EmptyChunkRecordsAWrongSize`).
- Lifecycle.EveryRowKeepsItsFile: asks that committing and recording a digest exclude deleting and discarding it, without which it is false (`LostFile.ReuploadDuringCollectionLosesTheFile`).
- Guarantees.QuietBackendsKeepAllPromises: asks that calls are carried to their end one after another; a crash inside a call is covered by the guarantees under disciplines only.
- Backends.Backend.ReserveBytes: as every method of the backend and the services, it is one call uninterrupted by others; interleavings are proved of the machine these methods step through.
- UploadServices.UploadService.SweepExpiredSessions: the count is exact only for a listing without repeats, which a primary key guarantees.
- BlobStores.BlobStore.Commit: a failing read, a failing directory and a failing rename are one failure after the hash test, with one error code; a rename that loses a race for the target is not modelled, as a commit is one step.
- BlobStores.BlobStore.Discard: a removal that fails, which the source ignores, is not modelled; it would leave a file nothing refers to.
- BlobStores.BlobStore.DiscardBlob: likewise; the state it leaves is that of a crash before the discard, which the machine has.
- BlobStores.BlobStore.WriteAt: directory creation, permissions and disk space are one arbitrary failure with arbitrary debris in the file.
- Containment.SafePathsStayInside: links inside the install directory, names a file system folds together, trailing dots, streams after a colon and reserved device names are not modelled.
- WholeUploads.InOrderUploadsComplete: between the pieces only time passes; `WholeUploads.NextPieceSucceeds` is the step for any other tables in which the session, its staging file, the quota and the missing row are as they were left.
- Credentials.LoginsTakeTheChosenPassword: assumes that no two passwords fit one hash and that a rehash fits the password it was made from; the hash library is not part of this model.
- Manifest.ReadDocumentUndoesDocumentText: bytes are characters, and the reader covers the canonical grammar only.
- Deltas.ComputeDelta: order-freedom asks for unique target paths and cost for one size per digest, which manifest validation and the join with the blob table provide.
- Deltas.DeltaUpdatesInAnyOrder: the disk is a flat map of paths; on a tree `DeltaTrees.PlansFitTrees` holds instead, where a directory is there exactly as long as a file needs it and names differ as texts, whatever a file system folds together.
- Downloads.Plan: the threshold ratio is a real number; access checks arrive as the lookup's result; recording the download is left out.
- RateLimiting.RateIsBounded: tokens and time are reals; the clock never goes back, and the time is taken as the moment the lock is held.
- Auth.EachFamilyHasOneLiveToken: each service call is one step; `AuthRaces` states what interleaved refreshes do.
- AuthRaces.FamiliesKeptIffRotationsFindTheirTokens: refreshes are split into reading and rotating; a login, a reset or a change that checked a password before another call replaced it is not.
- Auth: mails, cookies, the checks on a registration and on new passwords, and the tokens of verification mails are not modelled, though registering, verifying an address and cleaning up expired tokens are events; password verification is an arbitrary relation, and fresh tokens are only known to be fresh.
- Migrations.RunAlone: what a script does to the schema is not modelled, only whether it commits with its history row; a missing directory is not either.
- Migrations.HistoryStaysAPrefix: a deployment only appends higher versions, since any other is refused by planning before it changes anything.
- Releases.ParseReleaseDocument: the JSON library is an arbitrary function from text to fields; its source is not part of this model.
- ClientAddress.MatchesEntry: IPv6 entries match only as equal text, as in the source.
- Base64.Base64Url: shifts and masks of a 24-bit group are written as quotients and remainders.
- HTTP controllers, filters, JSON mapping, configuration, logging, mail templates, signing keys and tokens: framework plumbing and cryptography.
- Catalog, patch notes, media, crash reports and analytics: mostly one-branch checks that would add only easy members.
