# Verification of the backup server

This project models the parts of the server (`crates/server/src`) where state, concurrency and crashes
meet, and proves what they are for. `dafny verify dfyconfig.toml` checks all of it.

## The commit protocol

An upload goes from receiving parts through commit started and finalizing to committed, failed or
unknown, over two stores that cannot change together: rows in SQLite and a tree of files.

* `Content`, `Durable`: hashes, manifests, keys; the rows and files, and every transaction on them as a
  function. The hash is injective; a declared hash may be written in upper case, the server's never is.
* `Session`: one completing request as a machine whose steps are single transactions and single file
  operations, with the source lines of each. `World`: all interleavings of any number of requests,
  creations, parts, deletions, reclamations, account changes, storage errors, lost stages and crashes.
* `TableInvariant`, `RequestInvariant` say what holds of the tables and of each request in flight;
  `TableProofs`, `ServerProofs`, `RequestProofs`, `SessionProofs` and `WorldProofs` prove that every
  action keeps it. `Protocol`, `Quota`, `Supersession` draw the consequences.
* `LoneRun`, `Recovery`, `Completion`: a request that runs alone, its crashes and its result.
  `Settling`: what any completed request leaves. `Staging`: what stages hold in every reachable state, so
  that recovery applies to all of them.
* `Opening`, `Parts`: exactly when a request opens an upload, resumes one or finds its content; how parts
  come to be received. `Answers`: exactly when a completion is refused, which uploads fail, what the
  deduplication mark means. `Journey`: from the first request to the stored content. `Administration`:
  exactly which account changes and deletions take effect, and what a deletion sets free.
* `Delivery`: while nothing is reclaimed, no stage is lost and storage works, concurrent completions of
  good uploads all commit and share one blob row for equal content. `Restart`: after such a run, cut off
  anywhere, the reconciliation at startup commits every good upload that was left in between.
* `CommitServer`: the same server as a class whose methods update tables and files in place, with the
  loops of the original, each proved equal to the transaction or request it performs. `RequestSteps`
  holds what those proofs need.

## The other components

* `Library`, `SyncClient`, `LibraryServer`: an account's library with its change log; a client that takes
  the head, walks the snapshot by id and replays the changes. `LibraryEffects`: what each operation shows.
  `SyncProgress`: a client left alone catches up.
* `LoginBuckets`, `LoginAdmission`: token buckets in a bounded, expiring map.
* `Credentials`, `CredentialServer`: pairing, rotation, removal, API keys and authentication.
  `CredentialEffects`: whose access each request changes, and whose not.
* `Text`, `StorageKeys`, `AccountPaths`: storage keys as text, accounts' directories, the doctor's scan.
  `Places`: where keys lead in a file system.
* `UploadAdmission`: semaphores for the server and for each account, held by weak references.
* `LogPages`, `LogCursors`: two-way paging of the audit log and its cursors.
* `Prelude`: options, integer limits, and sums over finite maps.

## Assumptions

* SQLite transactions and single file operations are atomic; a failed file operation changes nothing; a
  crash drops the requests in flight and keeps rows and files, except that a stage being written may be
  cut short anywhere.
* No object is unlinked between a request's last look at its final object and the end of its metadata
  transaction (`World.Admissible`). `Protocol.ReclaimedInWindow` says exactly when the invariant is lost
  without this.
* An unlink that takes effect while its transaction does not commit (`World.ReclaimTorn`) does not hit an
  object that a request relies on at that moment.
* Random ids, tokens and codes are fresh. Loading the referenced stages, listing the directory and
  deleting is one step.

Two details follow the code. An object's directory keeps the case of the first two digits of the declared
hash while its name is in lower case (`crates/server/src/storage.rs:112-116`). `docs/gallery-api.md`
promises that events after the watermark repair whatever changed; `create_upload` writes none. The promise
holds exactly as long as no upload gives a shown asset another kind or date
(`SyncClient.UpsertKeepsConverged`, `SyncClient.HarmlessConverges`, `SyncClient.SilentUpsertIsMissed`).

## Model

| member | source | states |
|---|---|---|
| WorldProofs.ReachableIsSafe | crates/server/src/upload_commit.rs:116-291 | In every reachable state each blob that a resource or a committed upload refers to has a row, and at its storage path a file with exactly its hash and size: under every interleaving of completing requests, creation, parts, deletion, reclamation, administration, lost stage files, storage errors and crashes. |
| WorldProofs.RunKeeps | crates/server/src/upload_commit.rs:452-603 | Every admissible run keeps the whole invariant: indexes, ownership, recorded proofs and paths, proposals apart, received parts intact, and the assertion of every request in flight. |
| WorldProofs.StepKeeps | crates/server/src/library.rs:396-454 | Each single action keeps it, whatever state the other requests are in. |
| WorldProofs.ProgressKeeps | crates/server/src/upload_commit.rs:116-291 | One step of one request, with or without a storage error, keeps the tables and every other request's assertion. |
| WorldProofs.RoughStep | crates/server/src/library.rs:413-452 | A reclamation outside any window on its object, also one whose unlink is torn, and the removal of an account keep the invariant. |
| RequestProofs.MicroTables | crates/server/src/upload_commit.rs:143-291 | A request's step keeps the tables' invariant; it changes no other upload's row or stages, no existing part, object or blob row, and adds no blob row but the one it proposed. |
| SessionProofs.MicroSession | crates/server/src/upload_commit.rs:143-291 | A request's step establishes the assertion of the point it goes to. |
| SessionProofs.RecordedRow | crates/server/src/upload_commit.rs:452-603 | In its window a request finds its account's path unchanged and is never refused; it must look again at most once. |
| Session.MicroLowers | crates/server/src/upload_commit.rs:402-450 | Every step of a request brings it closer to its reply, whatever the tables are by then. |
| TableProofs.RecordMetadataKeeps | crates/server/src/upload_commit.rs:452-603 | The metadata transaction keeps the tables' invariant in all its outcomes. |
| TableProofs.RecordedBlob | crates/server/src/upload_commit.rs:484-505 | After the insert, the row with the request's content is there, names its final object, and is its own proposal unless another row was there first. |
| TableProofs.BeginCommitKeeps | crates/server/src/upload_commit.rs:293-387 | Starting a commit joins a stored blob or proposes a fresh one, and keeps the tables' invariant. |
| ServerProofs.ReclaimKeeps | crates/server/src/library.rs:413-452 | Removing an unreferenced blob row with its object breaks no reference and no other object. |
| ServerProofs.DeleteAssetKeeps | crates/server/src/library.rs:321-365 | Deleting an asset with its resources and uploads keeps the invariant. |
| ServerProofs.UpdateAccountKeeps | crates/server/src/admin.rs:583-606 | A path change that the pinning check lets through invalidates no recorded commit. |
| ServerProofs.AttachDuplicateKeeps | crates/server/src/routes.rs:355-399 | Attaching a resource after the row check keeps the invariant, given only that the row, if still there, has its object. |
| Protocol.RunEvolves | crates/server/src/upload_commit.rs:124-137 | From any point of a run to any later one, an upload that still exists keeps what the client declared, keeps its receipts, and its phase is the same or of lower rank (receiving, commit started, finalizing, committed, failed or unknown): failed and unknown are final. |
| Protocol.StepEvolves | crates/server/src/upload_commit.rs:959-993 | The same for each action. |
| Protocol.WriteOnce | crates/server/src/storage.rs:186-199 | A linked part or object never changes: it stays as it is or is removed. |
| Protocol.ReceivedPartsMatch | crates/server/src/routes.rs:547-559 | A part recorded as received is stored with the size and hash of its manifest entry, in every reachable state. |
| Protocol.ContentIsShared | crates/server/src/upload_commit.rs:484-505 | Two committed uploads with equal content in one account have the same blob row, the only one with that content; `Delivery.EqualContentCommits` is the property over runs. |
| Protocol.RepliesAreHonest | crates/server/src/upload_commit.rs:402-450 | While its upload exists, a completing request never exhausts its rounds and never loses the race its lock excludes; its reply says what has become of the upload: success gives the recorded outcome, missing parts and a full quota leave it receiving, a validation failure, a newer upload and a review stand for its phase, and a storage error leaves it to a later attempt. |
| Protocol.DuplicateIsBacked | crates/server/src/routes.rs:335-399 | When the deduplicated create attaches a resource, its blob row and object are there with the declared size and hash, whatever was reclaimed since the object was inspected. |
| Protocol.RecordedPathIsCurrent | crates/server/src/admin.rs:583-606 | In every reachable state a started or committed upload has the account's present path on record, so that its record is never refused as stale. |
| Protocol.AccountsShareNoKey | crates/server/src/admin.rs:911-932 | In every reachable state no storage key is accepted under two accounts. |
| Protocol.CompletingAgain | crates/server/src/upload_commit.rs:651-719 | Completing a committed upload again answers with the recorded outcome, also when its resource has moved on, and at most tidies its stage. |
| Protocol.ReclaimedInWindow | crates/server/src/upload_commit.rs:484-509 | If the stored row with the request's content is reclaimed after the last look at the object, the following metadata transaction leaves a safe state if and only if a newer upload supersedes this one. |
| Delivery.EqualContentCommits | crates/server/src/upload_commit.rs:402-505 | Deduplication under concurrency: when any number of requests complete uploads of equal content in one account, interleaved in any way with each other and with everything else while nothing is reclaimed, no stage is lost and storage works, then once they have ended every one has succeeded, one blob row has the content, and every upload has a resource of its own that points at it. |
| Delivery.EqualContentIsOneRow | crates/server/src/upload_commit.rs:484-603 | Over every admissible run: any set of committed uploads of equal content, each the newest of its source, has one blob row between them, and each one's own resource points at it. |
| Delivery.CompletionsCommit | crates/server/src/upload_commit.rs:116-291 | In such a run every request for an upload whose parts are in and make up the declared content ends with the recorded success, unless a newer upload of its source committed. |
| Delivery.RunGood | crates/server/src/upload_commit.rs:143-291 | In such a run every blob row has its object, a good upload is neither failed nor unknown, and object or stage is there from the end of assembly to the link. |
| Delivery.MicroGood | crates/server/src/upload_commit.rs:143-291 | Each step of a good upload's request leaves it good. |
| Delivery.NeverRefused | crates/server/src/upload_commit.rs:867-908 | Under a fixed quota no request is refused for space. |
| Quota.StepCharge | crates/server/src/routes.rs:791-828 | Stored plus reserved bytes of an account rise in no action but the guarded insert of a new upload, and are within the quota after it. |
| Quota.QuotaHolds | crates/server/src/routes.rs:791-828 | Under a fixed quota other than 0 stored plus reserved bytes never exceed it, in every reachable state. |
| Quota.CommitIsWithinQuota | crates/server/src/upload_commit.rs:867-908 | Under a fixed quota the check at commit time never rejects an upload. |
| Quota.RecordingCharge | crates/server/src/upload_commit.rs:467-597 | The metadata transaction ends the reservation for a blob row that is no larger. |
| Supersession.ResourceIsNewest | crates/server/src/upload_commit.rs:506-603 | Over every run in which no deduplicated create replaces the slot's resource and no committed upload of it becomes unknown, rowids follow the order of creation and the resource points at the blob of the newest committed upload. |
| Supersession.CommitsInOrder | crates/server/src/upload_commit.rs:512-534 | A recorded commit is younger than every commit of the same asset and source resource so far. |
| Supersession.LateUploadFails | crates/server/src/upload_commit.rs:512-553 | An upload with a newer committed one is superseded, without blob and stage references, and resources are untouched; or it must look at the stored row first. |
| Completion.LateRequestIsOvertaken | crates/server/src/upload_commit.rs:424-445 | From every point of its window such a request ends overtaken, its upload failed, its references cleared and its stage removed. |
| Recovery.CrashesDoNotMatter | crates/server/src/upload_commit.rs:143-282 | For one upload alone, any number of crashes, at any step and with any prefix of a half-written stage, followed by one uninterrupted completion, give the reply, rows, parts and objects of one completion without a crash. |
| Recovery.Again | crates/server/src/storage.rs:271-411 | Starting again from any point of a request gives what going on would have given. |
| LoneRun.WritingEnds | crates/server/src/storage.rs:300-367 | Assembly from any part on ends with the concatenation of all parts in the stage, or with the stage gone and the upload failed. |
| LoneRun.LookingEnds | crates/server/src/upload_commit.rs:402-450 | The metadata loop, from any round and with any approved row, ends in one and the same metadata transaction. |
| Completion.CompletionResult | crates/server/src/upload_commit.rs:116-291 | If the parts concatenate to the declared content, or the object is stored already, the upload is committed and its blob holds exactly the declared content; otherwise it is failed. |
| Completion.CompletionAfterCrashes | crates/server/src/upload_commit.rs:143-282 | The same result after any number of crashes. |
| Staging.ReachableRecovers | crates/server/src/upload_commit.rs:116-291 | It applies to every upload of every reachable state, however far crashes left it, once nothing else is going on. |
| Staging.ReceivingHasNoStage | crates/server/src/storage.rs:96-121 | In every reachable state no stage file exists for an upload that has not started its commit. |
| Staging.StagesArePrefixes | crates/server/src/storage.rs:271-368 | In every reachable state a started commit has all its parts, and its stage file, if there, is a beginning of what the parts make up. |
| Staging.WholeIsConcatenated | crates/server/src/storage.rs:300-367 | With all parts received, what they join to is what their declared hashes say. |
| Settling.CompletionSettles | crates/server/src/upload_commit.rs:1030-1050 | Completing an upload from any phase leaves it neither between phases nor committed with a stage, and every other row as it was. |
| Journey.UploadIsDelivered | crates/server/src/routes.rs:320-560 | From every reachable state: creating an upload, sending its parts and completing it, with nothing in between, ends with success if what was sent is what was declared; the slot has a resource whose new blob belongs to the account and whose object holds exactly the bytes sent, the upload is not marked as deduplicated, and no stage is left. |
| Journey.CopyIsAttached | crates/server/src/routes.rs:335-399 | When the content is stored, a second request for it attaches a resource to the same blob and sends nothing; if the object is missing or another size is declared, nothing changes. |
| Journey.FlagIsExact | crates/server/src/upload_commit.rs:574-592 | A commit is marked as deduplicated exactly if its blob row was there before it. |
| Journey.CompletingRuns | crates/server/src/upload_commit.rs:116-291 | The steps of a request taken one after the other as actions of the server lead to the outcome of the request run to its end. |
| Answers.OnlyBadContentFails | crates/server/src/upload_commit.rs:165-181 | Over every admissible run, with storage errors, lost stages, crashes and reclamations: validation fails an upload only if its declared parts do not make up its declared content. |
| Answers.StorageErrors | crates/server/src/upload_commit.rs:143-265 | A storage error while an object or a stage is inspected or linked makes the upload unknown; one while the stage is written leaves everything to a later attempt. |
| Answers.RecordedIsAnswered | crates/server/src/upload_commit.rs:274-291 | Once a commit is recorded the answer is success even if the stage cannot be removed; a confirmation of an earlier commit needs the removal. |
| Answers.OneOriginal | crates/server/src/upload_commit.rs:574-592 | Of all committed uploads of one content in an account at most one is not marked as deduplicated. |
| Answers.CompletionRefuses | crates/server/src/upload_commit.rs:293-335 | A completion with nothing else going on misses parts exactly if a part is not received, is refused for space exactly if the content is not stored and stored and reserved bytes exceed the quota, gives failed and unknown uploads their standing reply, and changes nothing then. |
| Restart.CompletionRestores | crates/server/src/upload_commit.rs:1011-1067 | After any calm run that was cut off anywhere, completing an upload whose commit had started, with parts that make up its content, commits it unless a newer upload of its source is committed. |
| Restart.CalmIsSane | crates/server/src/upload_commit.rs:1011-1067 | Every state of such a run, with its requests cut off, satisfies what that needs. |
| Opening.OpenAnswers | crates/server/src/routes.rs:320-476 | For a valid manifest and an existing account: the answer is a stored blob exactly if the account has one with that content; an upload under way exactly if one of that slot and content is receiving or committing; no space exactly if stored, reserved and requested bytes exceed a quota other than 0; and otherwise a new upload, receiving, without parts, younger than all others, with everything else as it was. |
| Opening.BadManifestIff | crates/server/src/routes.rs:633-671 | A manifest is turned down exactly for having no parts, a part over the limit, an empty part of non-empty content, or sizes that do not add up to the content's; an unknown account comes next. |
| Opening.ResolvedAsset | crates/server/src/routes.rs:478-513 | The request uses the caller's asset if it is the account's, or a new one outside the trash. |
| Opening.AskingAgain | crates/server/src/routes.rs:404-428 | A second request for an upload under way resumes it or finds its content stored; for a committed upload it finds that upload's blob. |
| Opening.OneUploadUnderWay | crates/server/src/routes.rs:404-417 | In every reachable state at most one upload of a source has given content and is under way, so that the query for the latest never has to choose. |
| Opening.QuotasWithinLimit | crates/server/src/admin.rs:852-868 | Quotas stay within the limit that keeps the sums exact. |
| Parts.AllSentAreReceived | crates/server/src/routes.rs:515-560 | Under every interleaving: once fitting bytes of every part were stored and then recorded, at any times, all parts of the upload are received. |
| Parts.SendingReceives | crates/server/src/routes.rs:515-560 | From every reachable state sending the parts one after the other receives them all and changes nothing else. |
| Parts.PartFilesFit | crates/server/src/storage.rs:178-199 | In every reachable state a part file has the content of its manifest entry: no part meets other content under its name. |
| Parts.StoredIsReceived | crates/server/src/routes.rs:552-558 | Storing and recording a part adds its index to the receipts and puts its bytes under its name; every other row and file is as it was. |
| Administration.CreatesIff | crates/server/src/admin.rs:542-570 | An account is created exactly if its quota is within the limit and its directory is valid and apart from all others. |
| Administration.UpdatesIff | crates/server/src/admin.rs:572-628 | An account takes a new path and quota exactly if the directories stay valid and apart and no blob and no unfinished or staged upload holds the old path. |
| Administration.RemovesIff | crates/server/src/admin.rs:667-725 | An account is removed exactly if no asset and no upload is its, and only its blob rows go with it. |
| Administration.DeletesIff | crates/server/src/library.rs:321-365 | A deletion takes effect exactly for an asset in the trash that has a resource, and takes the asset, its resources and its uploads, nothing else. |
| Administration.DeletionFrees | crates/server/src/library.rs:366-394 | With the reclamation that follows, exactly those blobs of the account go that only the deleted asset referred to, with their objects. |
| Administration.TrashesIff | crates/server/src/library.rs:276-319 | Moving to and from the trash changes that mark of that asset only. |
| Administration.CleansIff | crates/server/src/storage.rs:423-445 | Cleaning a staging directory removes exactly the stages there that no upload has on record. |
| Administration.AttachesIff | crates/server/src/routes.rs:355-399 | The deduplicated create attaches exactly if the row it saw is still there; it keeps the resource's id and touches no other slot. |
| CommitServer.Server.FileMatches | crates/server/src/storage.rs:542-570 | The buffered read reports missing, matching or not by size and hash of the whole file. |
| CommitServer.Server.ReceivePart | crates/server/src/storage.rs:141-177 | A body chunk by chunk: accepted only with the declared size and hash within the limit, and each rejection names a real fault. |
| CommitServer.Server.PutPart | crates/server/src/routes.rs:515-560 | Who may store a part and when; a stored part is recorded as received and its file holds the declared content, with every other row and file as it was; a taken name is accepted only if it holds the same content. |
| CommitServer.Server.AssembleCommit | crates/server/src/storage.rs:271-368 | The stage holds the declared content or is gone, and nothing else changed; equal to the assembly that the request model takes step by step. |
| CommitServer.Server.BeginCommit | crates/server/src/upload_commit.rs:293-387 | Equals the transaction of the model, replies included. |
| CommitServer.Server.CommitMetadata | crates/server/src/upload_commit.rs:452-603 | Equals the transaction of the model, replies included. |
| CommitServer.Server.RecordWithRetry | crates/server/src/upload_commit.rs:402-450 | The three-round loop has the outcome of the request model from its window on. |
| CommitServer.Server.CompleteUpload | crates/server/src/upload_commit.rs:116-291 | The whole request, from any state of the upload, leaves the tables and the reply of the request model run to its end. |
| CommitServer.Server.ReconcileOrphanBlobs | crates/server/src/library.rs:396-454 | A row goes exactly if it is of the chosen account, or any, and no resource and no upload refers to it; a file goes exactly if it is the object of such a row; the rest stays, and the count is right. |
| RequestSteps.OrphansGone | crates/server/src/library.rs:396-454 | The same of the model's tables. |
| CommitServer.Server.CleanupOrphanStaging | crates/server/src/storage.rs:423-445 | Exactly the unreferenced stages of the directory go, and the count is right. |
| CommitServer.Server.ReconcileAll | crates/server/src/upload_commit.rs:1011-1097 | At startup: afterwards no upload is between phases, every good one that was is committed or was superseded, every blob row is referenced, and staging directories hold only referenced stages. |
| CommitServer.Server.ReconcileUpload | crates/server/src/upload_commit.rs:1030-1050 | One upload is completed or tidied, and no other row changes. |
| CommitServer.Server.UsedBytes | crates/server/src/upload_commit.rs:876-880 | The sum over an account's blobs. |
| CommitServer.Server.ReservedBytes | crates/server/src/routes.rs:805-817 | The sum over an account's uploads that hold reservations, with or without the unknown ones. |
| CommitServer.Server.OpenUpload | crates/server/src/routes.rs:320-476 | Equals the transaction of the model, and names an upload under way when it resumes one. |
| CommitServer.Server.CreateUpload | crates/server/src/routes.rs:420-475 | The upload the client is to go on with, and exactly its parts that are not received, in order. |
| CommitServer.Server.MissingPartsOf | crates/server/src/routes.rs:677-685 | The parts not received, in order. |
| CommitServer.Server.EnsureQuota | crates/server/src/routes.rs:791-828 | Room exactly if stored, reserved and requested bytes are within the quota, or it is 0. |
| CommitServer.Server.FindUnderWay | crates/server/src/routes.rs:404-419 | Finds an upload of the slot and content that is under way exactly if there is one. |
| CommitServer.Server.ValidateManifest | crates/server/src/routes.rs:633-671 | Accepts exactly the manifests whose parts are within limits and add up. |
| CommitServer.Server.AttachDuplicate | crates/server/src/routes.rs:355-399 | Equals the transaction of the model. |
| CommitServer.Server.DeleteAsset | crates/server/src/library.rs:321-365 | Equals the transaction of the model, and says whether it changed anything. |
| CommitServer.Server.UpdateAccount | crates/server/src/admin.rs:572-628 | Equals the transaction of the model: a path changes only if it is valid, overlaps no other account's and nothing pins the old one. |
| CommitServer.Server.ToFinalizing | crates/server/src/upload_commit.rs:389-400 | Moves on only from commit started. |
| CommitServer.Server.TidyStage | crates/server/src/upload_commit.rs:721-739 | The stage goes; its reference only from a committed row that still has it. |
| CommitServer.Server.ValidateCandidate | crates/server/src/upload_commit.rs:605-649 | Passes exactly a stored row with the request's size and hash and with its object; otherwise the upload becomes unknown. |
| CommitServer.Server.ValidateCommitted | crates/server/src/upload_commit.rs:651-719 | Equals the request model from the check of a committed upload on. |
| CommitServer.Server.Publish | crates/server/src/upload_commit.rs:198-271 | Equals the request model from finalizing on. |
| CommitServer.Server.AssembleAndPublish | crates/server/src/upload_commit.rs:143-197 | Equals the request model from commit started on. |
| CommitServer.Server.UpsertResource | crates/server/src/upload_commit.rs:910-941 | Equals the upsert of the model and returns the slot's resource. |
| CommitServer.Server.Reclaim | crates/server/src/library.rs:413-452 | Equals one round of the model, and says whether the row was there unreferenced. |
| CommitServer.Server.ReconcileUploads | crates/server/src/upload_commit.rs:1011-1067 | Completes or tidies every upload that was left in between, and touches no other: after a calm run that was cut off, all good ones are committed or were superseded. |
| RequestSteps.AssemblyIsDriven | crates/server/src/storage.rs:300-367 | The loop over parts and the request's steps are the same assembly. |
| SyncClient.EmptyPageMeansConverged | crates/server/src/library.rs:949-987 | When a page of changes comes back empty, the client's cache equals what the server shows for every asset, except those that an upload overwrote without an event since they were last read; the server may change anything at any time meanwhile. |
| SyncClient.StepKeeps | crates/server/src/library.rs:150-195 | Each step of server or client keeps every asset current in the cache, or ahead of the walk, or pending in the log or in the page being applied. |
| SyncClient.UpsertKeepsConverged | crates/server/src/routes.rs:401-402 | From a converged state an upload leaves the client up to date by the protocol, and converged if and only if it does not give a shown asset another kind or date. |
| SyncClient.HarmlessConverges | crates/server/src/routes.rs:401-402 | If no upload of a run does, being up to date by the protocol is having converged, for every asset. |
| SyncClient.SilentUpsertIsMissed | crates/server/src/routes.rs:478-513 | A run that does: uploaded, committed, cached, then uploaded again with another kind; the client is up to date by the protocol and holds the old copy. |
| SyncClient.PageKeeps | crates/server/src/library.rs:966-987 | A snapshot page settles every id up to its end, also those it does not show. |
| SyncClient.ChangesAre | crates/server/src/library.rs:150-195 | A page of changes leaves out no event up to its last one. |
| SyncProgress.RestartRepairs | crates/server/src/library.rs:949-987 | From any state of server and client, a fresh start that nothing disturbs ends with the client up to date and its cache equal to what the server shows, also for assets that were overwritten silently. |
| SyncProgress.ClientCatchesUp | crates/server/src/library.rs:150-195 | A replay that nothing disturbs ends, for every page size, with the client up to date. |
| SyncProgress.PageTakes | crates/server/src/library.rs:150-195 | A page has as many of the later events as fit, the next page begins after its last one, and there are more exactly if some are not in it. |
| LibraryEffects.UpdatingShows | crates/server/src/library.rs:197-244 | Marking needs a mark and the asset; a mark that is given takes its value and the other stays; one event, and no other asset shows anything else. |
| LibraryEffects.TrashingShows | crates/server/src/library.rs:276-319 | Only the trash mark of that asset changes, with one event. |
| LibraryEffects.DeletingShows | crates/server/src/library.rs:321-365 | Exactly a shown asset in the trash is deleted; it shows no more, and all others show what they did. |
| LibraryEffects.CreatingTagShows | crates/server/src/library.rs:595-634 | A new tag exactly if there is none yet; no asset shows it. |
| LibraryEffects.TaggingShows | crates/server/src/library.rs:730-793 | Adds or removes just this tag's name in what this asset shows. |
| LibraryEffects.SettingTagShows | crates/server/src/library.rs:636-707 | Afterwards exactly the listed assets show the tag, and all other tags are as they were. |
| LibraryEffects.SettingTagLogs | crates/server/src/library.rs:655-707 | One event for every asset that had the tag or has it now, then one for the tag. |
| LibraryEffects.AttachingShows | crates/server/src/upload_commit.rs:554-563 | A commit shows its resource in its asset, which shows from then on. |
| LibraryEffects.UpsertingShows | crates/server/src/routes.rs:478-513 | A new asset starts outside archive and trash; an existing one takes kind and date and keeps its marks. |
| LibraryEffects.AlbumsShow | crates/server/src/library.rs:479-572 | Changing an album announces the album and shows in no asset. |
| Library.SetTagAssetsAnnounces | crates/server/src/library.rs:655-707 | Replacing a tag's members announces every asset whose summary changes: old and new members. |
| Library.DeleteAssetAnnounces | crates/server/src/library.rs:321-365 | A permanent deletion announces the only asset it changes. |
| Library.CreateTagAnnounces | crates/server/src/library.rs:595-634 | A new tag changes no summary. |
| Library.UpsertRowIsSilent | crates/server/src/routes.rs:478-513 | The upsert of an upload changes no asset's summary but that of a shown asset to which it gives another kind or date. |
| Library.UpsertShows | crates/server/src/routes.rs:478-513 | The summary changes if and only if the asset is shown and kind or date differ. |
| LibraryServer.Server.SetTagAssets | crates/server/src/library.rs:636-707 | The loops replace the members and log one event for each old or new member, then the tag's. |
| LibraryServer.Server.UpdateAsset | crates/server/src/library.rs:197-244 | Equals the operation of the model, event included. |
| LibraryServer.Server.DeleteAsset | crates/server/src/library.rs:321-365 | Equals the operation of the model, event included. |
| LibraryServer.Server.ChangeTagAsset | crates/server/src/library.rs:730-793 | Equals the operation of the model, event included. |
| LibraryServer.Server.Snapshot | crates/server/src/library.rs:966-987 | The page is the least visible ids beyond the cursor in order, and says rightly whether there are more. |
| LibraryServer.Server.SyncChanges | crates/server/src/library.rs:150-195 | The events after the cursor, at most the limit, and whether there are more. |
| LoginBuckets.MapIsIdeal | crates/server/src/login_admission.rs:195-245 | After every run the bounded map shows for every key the tokens of a bucket that was never evicted or expired, and stays within its capacity. |
| LoginBuckets.VerdictIsIdeal | crates/server/src/login_admission.rs:195-209 | A known key gets exactly the ideal verdict, nobody is admitted that the ideal would turn away, and only a newcomer to a map full of unfilled buckets is shed. |
| LoginBuckets.RateBoundIffPatient | crates/server/src/login_admission.rs:211-214 | Over all runs, between any two admissions of a key there are at most burst + time / interval of them, if and only if entries live at least burst x interval. |
| LoginBuckets.RateBound | crates/server/src/login_admission.rs:155-165 | The bound for an ideal bucket. |
| LoginBuckets.WaitingIsEnough | crates/server/src/login_admission.rs:216-245 | Waiting the delay of a rejection is enough when nothing intervenes, for a drained bucket and for a full map. |
| LoginBuckets.DelayIsExact | crates/server/src/login_admission.rs:167-181 | With nothing in between, a second attempt is admitted if and only if it waits the delay of the rejection, for a drained bucket and for a full map. |
| LoginBuckets.NewcomerIsServedIff | crates/server/src/login_admission.rs:195-245 | A key without a live entry is turned away exactly if as many entries are live as the map may hold and none of them is full. |
| LoginBuckets.RetryAfterCovers | crates/server/src/login_admission.rs:110-115 | The whole seconds sent are at least the delay, at least one, and less than a second more. |
| LoginBuckets.ServerKeepsRates | crates/server/src/login_admission.rs:14-20 | Both of the server's policies satisfy the condition. |
| LoginBuckets.PruningHides | crates/server/src/login_admission.rs:211-214 | Dropping an expired entry cannot be observed. |
| LoginBuckets.AdmittingHides | crates/server/src/login_admission.rs:216-228 | Neither can making room for a newcomer. |
| LoginAdmission.BoundedBuckets.PruneExpired | crates/server/src/login_admission.rs:211-214 | Exactly the expired entries go. |
| LoginAdmission.BoundedBuckets.MakeRoom | crates/server/src/login_admission.rs:216-245 | Evicts the full bucket seen least recently, or reports the shortest wait among all entries. |
| LoginAdmission.BoundedBuckets.CheckAt | crates/server/src/login_admission.rs:195-209 | One check has the map and the verdict of the model for a choice the iteration could make. |
| LoginAdmission.BoundedBuckets.LeastRecentFull | crates/server/src/login_admission.rs:220-226 | The full entry seen least recently, or none if there is none. |
| LoginAdmission.BoundedBuckets.ShortestWait | crates/server/src/login_admission.rs:231-244 | The least wait over all entries. |
| Credentials.CredentialsArePaired | crates/server/src/admin.rs:630-725 | In every reachable state a device has a token exactly when it is paired, and a key that is not revoked has a paired device in the epoch in which it was made. |
| Credentials.OldSecretsAreDead | crates/server/src/api_access.rs:44-97 | Once a device has moved on from the epoch a secret was made in, that secret authenticates nobody at any later time, whatever stale requests are in flight. |
| Credentials.AuthenticatesInPresent | crates/server/src/auth.rs:64-104 | Whoever authenticates does so with a secret of the device's present epoch. |
| Credentials.OneDevicePerSecret | crates/server/src/auth.rs:64-104 | A secret authenticates as one device of one account. |
| Credentials.EndingEndsAll | crates/server/src/admin.rs:630-725 | A rotation or removal ends the epoch of every secret the device had. |
| Credentials.CodesPairOnce | crates/server/src/routes.rs:265-304 | An authorization code pairs only in its own epoch, and only once. |
| CredentialEffects.CreatingOpens | crates/server/src/admin.rs:542-570 | A new instance has a code that pairs its device, and nobody's access changes. |
| CredentialEffects.PairingAdmits | crates/server/src/routes.rs:265-304 | Pairing succeeds exactly with the device's open code; it admits the new token, closes the code, and changes nobody else's access. |
| CredentialEffects.RotatingShuts | crates/server/src/admin.rs:630-665 | A rotation shuts out the device's token and keys, leaves one new code that pairs it, and changes nobody else's access. |
| CredentialEffects.RemovingShuts | crates/server/src/admin.rs:667-725 | The first removal shuts out the device's token, keys and code, and nobody else. |
| CredentialEffects.RemovingDeletes | crates/server/src/admin.rs:667-725 | The second deletes the account's devices and keys exactly if the device owns nothing. |
| CredentialEffects.KeyingAdmits | crates/server/src/api_access.rs:44-97 | A key is made exactly if the request's credential still authenticates; it admits that key and nobody else. |
| CredentialEffects.RevokingShuts | crates/server/src/api_access.rs:141-168 | Revoking succeeds exactly for a live key of the caller's account; it shuts out that key and nobody else. |
| CredentialEffects.RevokedKeyIsShut | crates/server/src/api_access.rs:148-155 | Once a revocation was answered with success, nothing authenticates as that key at any later time of the run. |
| CredentialServer.Server.Authenticate | crates/server/src/auth.rs:64-104 | Finds an actor exactly when the secret authenticates one. |
| CredentialServer.Server.Bootstrap | crates/server/src/routes.rs:265-304 | Pairs the pending device with the code, or there is none. |
| CredentialServer.Server.CreateKey | crates/server/src/api_access.rs:44-97 | Checks the credential of the request again before making a key. |
| CredentialServer.Server.Rotate | crates/server/src/admin.rs:630-665 | New code, no token, all keys revoked. |
| CredentialServer.Server.Remove | crates/server/src/admin.rs:667-725 | Cancels or revokes first, deletes the second time if nothing is owned. |
| CredentialServer.Server.RevokeKey | crates/server/src/api_access.rs:141-168 | Revokes a live key of the caller's account only. |
| AccountPaths.SharedBlobKeyIffOverlap | crates/server/src/storage.rs:680-689 | Some blob key is accepted under two account paths if and only if the paths overlap. |
| AccountPaths.StageKeyIsOnes | crates/server/src/storage.rs:691-713 | A stage key is accepted for one account and one upload only. |
| AccountPaths.CommitKeysAreOwn | crates/server/src/storage.rs:96-121 | The keys made for a commit are accepted for its account, and the stage for its own upload only. |
| AccountPaths.CommitKeysExist | crates/server/src/storage.rs:96-121 | For account paths within the length limit they can always be made. |
| AccountPaths.ObjectKeysDiffer | crates/server/src/storage.rs:112-116 | Two object keys are equal exactly when account, first two digits as written and hash agree. |
| AccountPaths.AssignIsolates | crates/server/src/admin.rs:911-932 | Creating and updating accounts keeps their paths apart, so that no blob key is accepted under two of them. |
| AccountPaths.AssignsIff | crates/server/src/admin.rs:911-932 | A path is assigned exactly if it leaves the paths valid and apart. |
| AccountPaths.AssignableHasKeys | crates/server/src/storage.rs:96-121 | Every account that was given a path can commit any content. |
| AccountPaths.AcceptedStageIff | crates/server/src/storage.rs:691-730 | A stage key is accepted exactly if it is one that could have been generated for that account and upload. |
| Places.ValidKeyShows | crates/server/src/storage.rs:634-662 | Resolved as a file system does, with ".", ".." and both slashes, an accepted key leads to the place its text shows. |
| Places.ShownIffOrdinary | crates/server/src/storage.rs:646-654 | Components lead to what they show exactly if none is empty, "." or "..". |
| Places.ValidIffNames | crates/server/src/storage.rs:634-662 | A key is accepted exactly if it is within the length limit and each component is a name: not hidden, without separators, drive marks, control characters or white space at its ends. |
| Places.AcceptedIsInside | crates/server/src/storage.rs:680-689 | An accepted blob key leads strictly inside its account's directory. |
| Places.AccountsShareNoPlace | crates/server/src/admin.rs:911-932 | In every reachable state accepted keys of different accounts lead to different places. |
| Places.PartsAreNobodys | crates/server/src/storage.rs:69-75 | Nothing an account accepts lies in the directory of parts. |
| AccountPaths.ValidateAccountPaths | crates/server/src/doctor.rs:282-311 | The scan of ancestors accepts distinct paths exactly when each is valid, the budget is kept and no two overlap by the server's test. |
| AccountPaths.HasAncestor | crates/server/src/doctor.rs:302-309 | Finds an ancestor in the set exactly when the path is below one. |
| AccountPaths.BelowIsAncestor | crates/server/src/storage.rs:673-677 | Being below a path is having it among one's ancestors. |
| Text.SplitAppend | crates/server/src/storage.rs:646-654 | Splitting a joined path is splitting both sides. |
| UploadAdmission.LimitsHold | crates/server/src/routes.rs:76-108 | Under every interleaving an account has at most one live semaphore, and permits never exceed the account's and the server's limits. |
| UploadAdmission.NoDeadlock | crates/server/src/routes.rs:92-108 | No reachable state is deadlocked: some waiting request gets its next permit when it asks for it, or an admitted one will leave. |
| UploadAdmission.WaitingIsServed | crates/server/src/routes.rs:92-108 | From every reachable state with limits other than 0 a waiting request is admitted once enough of the others leave. |
| UploadAdmission.GlobalGrants | crates/server/src/routes.rs:92-92 | The server's semaphore gives a permit exactly if the limit holds afterwards. |
| UploadAdmission.AccountGrants | crates/server/src/routes.rs:93-93 | So does the account's. |
| UploadAdmission.EnteringKeepsLive | crates/server/src/routes.rs:77-91 | After a request enters, the map has exactly the accounts that have a request. |
| UploadAdmission.Semaphores.Enter | crates/server/src/routes.rs:77-91 | Under the lock: dead semaphores are forgotten, the account's is reused or made. |
| LogPages.ThereAndBack | crates/server/src/admin.rs:444-531 | On a fixed log, next then previous, and previous then next, return the identical page from every page that can be reached. |
| LogPages.ShownOnce | crates/server/src/admin.rs:444-531 | An event in the log all through a complete walk is shown exactly once, whatever is added or removed meanwhile, also between a page's rows and its checks for more. |
| LogPages.FixedWalkShowsAll | crates/server/src/admin.rs:444-531 | On a fixed log the walk of n pages shows exactly the newest n x 50 events in order, and it ends exactly with the page that reaches the oldest. |
| LogPages.WalkEnds | crates/server/src/admin.rs:444-531 | While events are only removed or added above, a walk ends once its pages could hold the events it began with. |
| LogPages.WalkIsChunk | crates/server/src/admin.rs:444-531 | Every page that can be reached is a chunk of 50 counted from the newest event. |
| LogCursors.ParsesIffPrinted | crates/server/src/admin.rs:338-370 | A cursor text is accepted exactly when it is the printed form of the cursor for that date and scope, in range and within the length limit. |
| LogCursors.PrintedIsShort | crates/server/src/admin.rs:338-350 | The length limit never turns down a printed cursor. |

## Left out

- The reclaimer inside a request's window: an assumption, with its exact consequence proved.
- Protocol.RepliesAreHonest: says nothing of a request whose upload is deleted under it; it may then run out of rounds, and one that is about to start its commit answers as changed where the code may also answer over quota or unauthorized.
- Recovery.CrashesDoNotMatter: storage errors during recovery are not part of the runs compared; they end an attempt like a crash or give the upload up as unknown, which `World` covers.
- CommitServer.Server.CompleteUpload: no storage errors; `Session` has them. It runs one request at a time; interleavings are in `World`.
- CommitServer.Server.RecordWithRetry: leaves out the request that a superseded completion makes to the reclaimer; reclamation is an action of its own.
- CommitServer.Server.PutPart: check, link and receipt run as one step, without the wait for admission; `World` takes storing and receipt apart, and `UploadAdmission` has the wait.
- CommitServer.Server.OpenUpload: the asset that a source asset id resolves to is a parameter.
- CommitServer.Server.ReconcileAll: leaves out the counts of the report; there are no storage errors.
- LoginBuckets.MapIsIdeal: tokens and times are reals; floating-point rounding and clocks that differ between threads are not modelled.
- AccountPaths.ValidateAccountPaths: paths are distinct, as the UNIQUE column has them.
- Temporary files of parts, directory creation and fsync: a verified part appears under its name in one step.
- Roles, file names, MIME types and metadata of resources; device ids of uploads, which the asset row stands for.
- The two entries of `LoginAdmission` for sources and accounts, the form of IP addresses and the hashing of account names.
- The order of waiting on a semaphore and the 30 second limit: a request may leave at any time.
- Validation of calendar dates, times and names; the queries of the overview, the timeline and duplicates.
- The doctor's scans of objects, stages and manifests: they reject some reachable states.
- `rooted_fs.rs`, `runtime_lock.rs`: used by what they promise (create new, link if absent, remove if present, exclusive lock).
- Encryption, randomness, JSON and base64, range requests, previews, proxies, configuration, releases, metrics, error mapping.
