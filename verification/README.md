# PlaiFlow document pipeline: a verified model

This project models the backend of PlaiFlow, a document pipeline, and proves what
stays true while many requests and workers interleave. `dafny verify
dfyconfig.toml` checks it.

- **Review.** `Review.dfy` holds one document with its OCR runs, draft head and
  draft history, confirmed reviews and accounting approvals, and every
  transaction on them. `ReviewInvariants.dfy` proves what each transaction keeps.
  `ReviewRuns.dfy` runs an organization: every interleaving of transactions with
  the confirm handler, which reads first and commits later. `PublishedRuns.dfy`
  says which run is open after any history, `ConfirmedValues.dfy` what validation
  guarantees of all confirmed reviews. `ReviewStore.dfy` is the store as a class
  whose methods update the rows, and the handlers around it; its methods are
  refinements, their properties are those of the transactions.
- **Exports.** `Exports.dfy` freezes a snapshot and says when it is still valid;
  `ExportWorker.dfy` reads it page by page and builds the table;
  `LeasedExports.dfy` joins the snapshot check with the lease.
- **Jobs.** `Jobs.dfy` is the durable job lease protocol; `LeasedRecognition.dfy`
  joins it with the recognition runs of a document.
- **Storage.** `EncryptedStore.dfy` is the framed, encrypted object format with
  its incremental reader, `ContinuedReads.dfy` what a caller gets that reads on
  after errors; `Blobs.dfy` is the put, commit, delete protocol around the rows
  that name objects.
- **Extraction.** `Extraction.dfy` folds recognized lines into a draft,
  `Validation.dfy` validates what a reviewer submits, `LengthLimits.dfy` is about
  its byte limit; `Fields.dfy`, `Money.dfy`, `Dates.dfy` and `Text.dfy` are the
  field normal forms and Go's text functions.
- **Accounting.** `Accounting.dfy` has category suggestions, mapping rules and
  the version that stamps them, and the approval handler.
- **Intake.** `Intake.dfy` deduplicates, binds origins and charges usage.
- **Engine.** `Engine.dfy` is the recognition parent and child over two pipes.
- **Vendors.** `Vendors.dfy`, `Spreadsheet.dfy`, `VendorImport.dfy` and
  `VendorCsv.dfy` normalize, export and import vendor lists.
- **Benchmark.** `EditDistance.dfy` is the two-row edit distance.

Tables are maps and sequences. A transaction that holds the document, job or
organization lock is one atomic step, and a refused or failed transaction changes
nothing. One clock rises strictly from step to step. Drafts are modelled with
review mode on, the mode in which a review stores its draft revision.

What the proofs found:

- **The send of an engine call is unguarded.** When the idle child has died, the
  send fails before the guarded block, the dead process is kept, and every later
  call fails the same way (`Engine.Engine.Run`).
- **A late OCR completion blocks the review page.** The page shows the latest
  run, transactions demand the run that was published last. When an older run
  completes after a newer one, no save, confirmation, return or reprocessing can
  go through until another run is published
  (`ReviewInvariants.LateCompletionBlocksReview`); they go through exactly when
  the run shown was published last (`PublishedRuns.PageRequestsPassIffPublishedLast`).
- **XML cannot hold every text.** A vendor list comes back from its own export
  exactly when all its text is XML text (`VendorImport.ExportRoundTripIff`); a
  name with a vertical tab inside does not (`VendorImport.VerticalTabIsLost`).
- **A vendor CSV file is cut, and some contacts change in it.** Import stops
  after 10000 contacts without an error, where the spreadsheet import refuses the
  file (`VendorCsv.LongFileIsCut`). The prefix that protects a formula is never
  taken off again and the writer drops carriage returns, so a list comes back
  exactly without these (`VendorCsv.CsvRoundTripIff`). The import's check for
  formulas skips four characters, normalization trims all white space: a formula
  behind a no-break space is accepted and stored as a formula
  (`VendorCsv.SpacedFormulaPasses`).
- **A cell reference is read in 64-bit arithmetic.** A reference is accepted
  exactly when its letters name one of the fifty columns modulo 2^64
  (`Spreadsheet.CellAcceptedIff`): the fourteen letters that name index 2^64 pass
  for column A (`Spreadsheet.FarReferenceIsTaken`).
- **One byte behind an object can go unnoticed.** The reader looks for trailing
  data with a read of one byte and heeds only its error. A raw stream may return
  its last byte together with the end, as an HTTP body of known length does; then
  an object that is the image and one more byte ends cleanly
  (`EncryptedStore.ExtraByte`). What is delivered is the plaintext all the same,
  and this is the only such stream (`EncryptedStore.TamperedStreamDeliversPrefix`).
- **A decrypting reader keeps no error state.** A caller that ignores an error
  and reads on can reach a clean end on a stream that is not the image, a
  repeated frame for one (`ContinuedReads.RepeatedFrameEndsCleanly`). What it
  has then got is still exactly the plaintext (`ContinuedReads.ReadingOnIsHarmless`),
  as long as the object has fewer than 2^32 frames
  (`ContinuedReads.FullCounterReadsTwice`).
- **Nonces repeat beyond the counter.** They are distinct exactly up to
  (2^32 - 1) * 65536 bytes (`EncryptedStore.NoncesAreDistinctIffCounterFits`),
  far above the 20 MiB limit of a document.
- **Blob keys must be fresh.** An export artifact's key is made of job, attempt
  and format, so a repeated upload of one attempt has the same key; when its put,
  its size or its completion fails, the clean-up deletes the published object
  (`Blobs.Server.Upload`, `Blobs.RepeatedUploadLosesObject`). That is the only way
  for a row to dangle (`Blobs.DanglesIff`). When the repeat is answered with the
  first artifact, its own bytes stay under the key while the row keeps the digest
  of the first ones (`Blobs.RepeatedUploadReplacesBytes`). Keys of documents, OCR results and
  reviews are drawn at random for every request (`Blobs.NoDanglingReference`).
- **The first rule change is not locked out.** An approval is kept apart from
  rule changes by a lock on the organization's rule-set row. Before the first
  change there is no such row, and a rename in the middle of an approval leaves it
  with a category name that is no longer true (`Accounting.FirstRenameSlipsIn`).
  An approval credited to a rule is never affected
  (`Accounting.RuleStore.ApproveAccounting`).
- **The length limit is the only gap between extraction and validation**
  (`Validation.UnblockedDraftsAreAccepted`).
- **Drafts are limited in characters, reviews in bytes.** A Thai name of 81
  characters can be saved as a draft and never confirmed
  (`LengthLimits.ThaiNameIsSavedButNeverConfirmed`), even when extraction itself
  proposed it without a blocker (`LengthLimits.LongNameReceipt`).
- **A redelivered submission is answered before its document's status is looked
  at.** It is a duplicate even when the document is in the trash, where the same
  content from another origin is refused (`Intake.RedeliveryIsIdempotent`).

## Model

| member | source | states |
|---|---|---|
| ReviewInvariants.PerformKeeps | api/internal/postgres/ocr.go:31-88 | Every transaction on a document, of all nine kinds, keeps the invariant (history revisions exactly 1..n with the draft equal to entry n; at most one open run, review and approval; gapless review and approval revisions; every review backed by a decided draft entry of a published run) and takes nothing back: histories only grow, superseded and published are for good, status and time change together. |
| ReviewInvariants.SaveDraftKeeps | api/internal/postgres/review_drafts.go:114-156 | `SaveDraft` keeps the invariant: the new draft is history entry n+1. |
| ReviewInvariants.ReturnReviewKeeps | api/internal/postgres/review_return.go:63-117 | `ReturnReview` keeps the invariant. |
| ReviewInvariants.ReprocessKeeps | api/internal/postgres/ocr.go:162-222 | `ReprocessOCR` keeps the invariant although the draft moves to a run that is not yet published. |
| ReviewInvariants.RetryKeeps | api/internal/postgres/ocr.go:110-150 | `RetryOCR` keeps the invariant. |
| ReviewInvariants.CompleteKeeps | api/internal/postgres/ocr.go:46-88 | `CompleteOCR` keeps the invariant, in particular at most one published and unsuperseded run. |
| ReviewInvariants.SaveReviewKeeps | api/internal/postgres/extraction.go:35-101 | `SaveReview` keeps the invariant when the values it is given were saved: one current review, revisions gapless. |
| ReviewInvariants.ApproveKeeps | api/internal/postgres/accounting.go:269-338 | `Approve` keeps the invariant: one current approval, revisions gapless, each naming a review by id and revision. |
| ReviewInvariants.ChangeStatusKeeps | api/internal/postgres/document_reads.go:333-374 | Archive, trash (with its trigger on queued OCR jobs) and restore keep the invariant. |
| ReviewInvariants.ExportableIsCurrent | api/internal/postgres/review_exports.go:104-111 | An exportable review names draft revision n, the same OCR run as the draft and the published run, and holds exactly the draft's values. |
| ReviewInvariants.ExportableOnlyThroughConfirmation | api/internal/postgres/extraction.go:35-101 | No transaction other than a confirmation can make a review exportable. |
| ReviewInvariants.DraftChangesInvalidate | api/internal/postgres/review_return.go:92-114 | Saving, returning or reprocessing leaves no exportable review. |
| ReviewInvariants.PublicationInvalidates | api/internal/postgres/ocr.go:70-74 | Publishing another run makes it the open one and leaves no exportable review. |
| ReviewInvariants.ReturnKeepsSavedValues | api/internal/postgres/review_return.go:99-106 | A return after a save of the same run keeps the saved values and decisions, two revisions on. |
| ReviewInvariants.ReprocessedDraftCanBeSaved | api/internal/postgres/ocr.go:202-215 | After reprocessing and publication of the new run the draft can be saved again under that run. |
| ReviewInvariants.OpenReviewIsLast | api/internal/postgres/extraction.go:63-66 | The unsuperseded review is the last one inserted. |
| ReviewInvariants.ApproveFacts | api/internal/postgres/accounting.go:273-279 | An approval that goes through names the last review, by id and revision, and is the next approval. |
| ReviewInvariants.FreshDocumentCanBeApproved | api/internal/postgres/accounting.go:245-350 | The way through is open: a fresh document can be recognized, drafted, confirmed and approved, and is then exportable. |
| ReviewInvariants.LateCompletionBlocksReview | api/internal/postgres/ocr.go:102-102 | A concrete history in which an older run completes last: the pages show one run, the other is open, and no save can go through. |
| ReviewInvariants.PerformKeepsSensible | api/internal/postgres/review_drafts.go:142-156 | No transaction writes a history entry that the draft form would not admit, provided that saves come from the form. |
| ReviewRuns.RunKeepsInvariant | api/internal/httpapi/extraction_routes.go:158-258 | In every reachable state of every interleaving, with confirm requests between their reads and their commit, all documents satisfy the invariant and what each request has read is still in the history. |
| ReviewRuns.ReachableDocumentsAreValid | api/internal/postgres/review_drafts.go:142-156 | The per-document invariant in every reachable state. |
| ReviewRuns.RunGrows | api/internal/postgres/review_exports.go:356-369 | From any state of a run to any later one a document only grows. |
| ReviewRuns.ConfirmationsAreFaithful | api/internal/httpapi/extraction_routes.go:180-247 | Whatever runs between a confirm handler's reads and its commit, a commit that goes through names the run published at that moment and stores the values of the draft of that moment, which is the history entry at the revision the review names. |
| ReviewRuns.ReviewsHoldSavedValues | api/internal/postgres/extraction.go:49-62 | In every reachable state each review's values are those of the history entry at its draft revision, of the same run, with every field decided. |
| ReviewRuns.ReachableExportsAreCurrent | api/internal/postgres/review_exports.go:112-123 | In every reachable state an exportable review is the latest draft of the published run. |
| ReviewRuns.HistoriesAreSensible | api/internal/httpapi/extraction_routes.go:133-142 | In every reachable state each history entry is one that the form admits. |
| ReviewRuns.UnknownFieldsAreEmpty | api/internal/httpapi/extraction_routes.go:136-138 | In every reachable state a field decided unknown is empty in the confirmed review. |
| PublishedRuns.OpenRunIsLastPublished | api/internal/postgres/ocr.go:70-74 | In every reachable state the publications of a document so far name each published run once and the open run last, so the latest run is open exactly when it was published and no other was published after it. |
| PublishedRuns.PageRequestsPassIffOpen | api/internal/postgres/review_return.go:63-92 | An up-to-date save, confirmation, return or reprocessing of the run that the page shows goes through exactly when that run is the open one. |
| PublishedRuns.PageRequestsPassIffPublishedLast | api/internal/postgres/ocr.go:102-102 | Over runs: such a request goes through exactly when no other run was published after the one that the page shows. |
| ConfirmedValues.FormFieldsAreKeys | api/internal/extraction/extraction.go:15-15 | The fields of the review form are exactly the keys that the validator knows. |
| ConfirmedValues.ConfirmedReviewsAreAcceptable | api/internal/httpapi/extraction_routes.go:214-247 | When confirm requests commit only values that validation accepts for the run they have read, every review in every reachable state holds acceptable values. |
| ConfirmedValues.RequiredFieldsAreKnown | api/internal/extraction/extraction.go:268-276 | In every reachable state the history entry that a confirmed review names has each field that the document type requires accepted or corrected, never unknown. |
| ConfirmedValues.SavedDraftIsAcceptableIff | api/internal/httpapi/extraction_routes.go:133-142 | A saved draft passes validation exactly when its values are acceptable but for length and each free text has at most 240 bytes. |
| ReviewStore.Store.SaveDraft | api/internal/postgres/review_drafts.go:101-168 | The rows after the call are those of the transaction that the invariants are about; the new revision is the expected one plus one, or nothing changed. |
| ReviewStore.Store.ReturnReview | api/internal/postgres/review_return.go:46-136 | The rows after the call are those of the transaction that the invariants are about; the new revision is the expected one plus one, or nothing changed. |
| ReviewStore.Store.ReprocessOcr | api/internal/postgres/ocr.go:153-237 | The rows after the call are those of the transaction that the invariants are about; a run is queued exactly when something changed. |
| ReviewStore.Store.RetryOcr | api/internal/postgres/ocr.go:110-151 | The rows after the call are those of the transaction that the invariants are about; a run is queued exactly when something changed. |
| ReviewStore.Store.CompleteOcr | api/internal/postgres/ocr.go:31-88 | Superseding, publishing and completing in three updates equals the one transaction. |
| ReviewStore.Store.SaveReview | api/internal/postgres/extraction.go:35-101 | The rows after the call are those of the transaction that the invariants are about, and it answers with the next revision exactly when it went through. |
| ReviewStore.Store.Approve | api/internal/postgres/accounting.go:269-345 | The rows after the call are those of the transaction that the invariants are about, and the answer says whether it went through. |
| ReviewStore.Store.ChangeDocumentStatus | api/internal/postgres/document_reads.go:333-374 | The rows after the call are those of the transaction that the invariants are about, and the answer says whether it went through. |
| ReviewStore.Server.CollectDraft | api/internal/httpapi/extraction_routes.go:133-142 | Collects exactly the submitted texts and decisions, and exactly when every field is admitted. |
| ReviewStore.Server.SaveExtractionDraft | api/internal/httpapi/extraction_routes.go:112-156 | The handler with arbitrary other requests before its save: what is saved is an admitted draft of the run published at the save, accepted values are its proposals, and its revision is the next one. |
| ReviewStore.Server.CollectValues | api/internal/httpapi/extraction_routes.go:188-205 | Collects the saved values exactly when every field is decided and submitted as it was saved. |
| ReviewStore.Server.ConfirmExtraction | api/internal/httpapi/extraction_routes.go:158-258 | The handler with arbitrary other requests between its reads, the storing of the review object and the commit: if it confirms, the current review is exportable, names the submitted run and revision n, and holds the saved, decided values, which validation accepts and the stored object holds; if not, the object is gone unless its deletion failed. Every review keeps its object throughout. |
| Exports.QueueDocumentExport | api/internal/postgres/review_exports.go:88-219 | Returns the numbered selection of the query, written in batches of 500, or nothing when the request or the number of rows is refused. |
| Exports.InsertRows | api/internal/postgres/review_exports.go:182-208 | Batching gives every row its ordinal 1..n. |
| Exports.ValidDocumentExportSnapshot | api/internal/postgres/review_exports.go:351-374 | The three counts agree exactly when the row count matches and every pinned row is current. |
| Exports.QueuedIsValid | api/internal/postgres/review_exports.go:97-123 | A freshly queued snapshot is numbered and valid. |
| Exports.HeldBefore | api/internal/postgres/review_exports.go:356-369 | A pinned row that is current later was current before: staleness is for good. |
| Exports.ValidityIsContinuous | api/internal/postgres/review_exports.go:351-374 | A snapshot valid when queued and at completion was valid in every state between; once invalid it never becomes valid again. |
| ExportWorker.ReadPage | api/internal/postgres/review_exports.go:250-344 | A page holds the first rows after the cursor that the joins find, up to the limit; it is the last exactly when no more follow; the next cursor is the last row's ordinal. |
| ExportWorker.ProcessExport | api/cmd/jobworker/main.go:135-206 | For every page size and every pattern of dropped rows: an accepted table is the snapshot's rows 1..n in order, each found by the joins of the page that delivered it; the loop terminates; an undisturbed worker always succeeds. |
| ExportWorker.AsManyAreAll | api/cmd/jobworker/main.go:200-203 | Rows with rising ordinals that are as many as the snapshot's rows are all of them: the count check detects every dropped row. |
| ExportWorker.JoinsAgree | api/internal/postgres/review_exports.go:283-300 | In reachable states the paging query and the validity check accept the same rows, although only one of them compares review revisions. |
| ExportWorker.ValidAtEndMeansNothingDropped | api/internal/postgres/jobs.go:284-289 | If the snapshot is still valid at completion, no page read since the queueing can have missed a row. |
| ExportWorker.PublishedRowsWereAlwaysCurrent | api/internal/postgres/jobs.go:279-289 | Every row of a published export was current at every moment from queueing to completion, and its review then held the values of the latest draft. |
| ExportWorker.ExportRun | api/cmd/jobworker/main.go:168-206 | Queueing, paging and completion over a run: what is published is the selection of the queueing, row for row; with every request served it is published exactly if the snapshot is valid at completion. |
| LeasedExports.CompleteDocumentExport | api/internal/postgres/jobs.go:248-321 | A completion publishes exactly when the request holds the unexpired lease, the row count matches and the snapshot is valid, and otherwise changes nothing. |
| LeasedExports.EveryPublicationIsChecked | api/internal/postgres/jobs.go:279-294 | Over every run each publication, of an export or a recognition, was made by one request that held the unexpired lease of that job, and for an export over a snapshot valid at that moment. |
| LeasedExports.PublishedExportIsSound | api/internal/postgres/jobs.go:284-302 | A published export was queued by an earlier request and published by the unexpired holder, at a time not before the queueing; the snapshot is valid, so every row of it current, in every state from the queueing to that time. |
| Jobs.JobStore.ClaimJobs | api/internal/postgres/jobs.go:20-117 | A claim sweeps exhausted leases, then leases unlocked eligible rows with fresh attempts, in the order of available time, creation and id; it leaves an unlocked eligible row only behind all those it took up to its limit. |
| Jobs.JobStore.SelectClaimable | api/internal/postgres/jobs.go:47-60 | Selects distinct unlocked claimable rows: the first ones in the order of the query, up to the limit. |
| Jobs.JobStore.HeartbeatJob | api/internal/postgres/jobs.go:119-131 | Extends the expiry exactly for the current, unexpired holder. |
| Jobs.JobStore.FailJob | api/internal/postgres/jobs.go:133-178 | Requeues with backoff or fails the job, exactly for the holder. |
| Jobs.JobStore.CompleteExport | api/internal/postgres/jobs.go:248-321 | Publishes exactly for the unexpired holder; a repeat by the publishing attempt is answered and changes nothing. |
| Jobs.JobStore.CompleteOcr | api/internal/postgres/ocr.go:52-79 | Publishes exactly for the unexpired holder and worker; a repeat by the publishing attempt is answered and changes nothing. |
| Jobs.StepKeepsInvariant | api/internal/postgres/jobs.go:33-97 | Every request keeps the board: Running exactly with attempt, lease hash and expiry; holders are the latest attempt issued; attempts unique; one publication per completed job. |
| Jobs.ReachableBoardsKeepInvariant | api/internal/postgres/jobs.go:33-97 | The invariant over every run. |
| Jobs.TakeoverNeedsExpiry | api/internal/postgres/jobs.go:47-55 | A running job changes hands only after its lease has expired. |
| Jobs.HolderKeepsUndisturbedJob | api/internal/postgres/jobs.go:51-97 | Until expiry or the failure or completion that its own holder sends, the job stays with its holder, over any number of requests, those of lost attempts for this job among them. |
| Jobs.TakeoverRemovesEarlierAttempt | api/internal/postgres/jobs.go:87-97 | A takeover leaves the earlier attempt without any job. |
| Jobs.LostAttemptIsPowerless | api/internal/postgres/jobs.go:119-162 | An attempt that lost its job can never again heartbeat, fail or publish, whatever the clock it sends. |
| Jobs.TerminalJobsNeverChange | api/internal/postgres/jobs.go:257-306 | Completed, failed and cancelled jobs never change. |
| Jobs.EachJobIsPublishedAtMostOnce | api/internal/postgres/jobs.go:257-306 | From the empty board: each job is published at most once, by the attempt its result names, and claimed at most its limit of times. |
| Jobs.OnlyTheHolderPublishes | api/internal/postgres/jobs.go:290-302 | Only the unexpired holder publishes, and only the job it holds. |
| Jobs.EveryAttemptUsesUpPotential | api/internal/postgres/jobs.go:87-90 | 2*(max_attempts - attempt_count) plus 1 if Running never rises, and stays the same only on heartbeats, cancellation or no change. |
| Jobs.NoJobIsStranded | api/internal/postgres/jobs.go:33-55 | A job whose available or lease time has passed is claimable or exhausted. |
| Jobs.BackoffDoubles | api/internal/postgres/jobs.go:149-162 | The retry delay doubles per attempt up to 256 seconds and respects the requested delay. |
| LeasedRecognition.StatusChangesAreLegal | api/internal/postgres/jobs.go:33-97 | Short of completing it, no request changes the status of a job except as the review model allows. |
| LeasedRecognition.BoardStepIsJobChanges | api/internal/postgres/jobs.go:119-178 | Refinement: whatever a request of the job protocol does to the jobs of a document's recognition runs, short of completing one, is a sequence of the review model's job changes, and the two tables still agree. |
| LeasedRecognition.CompleteRecognition | api/internal/postgres/ocr.go:31-88 | One transaction on both tables: a result is published exactly when the worker holds the unexpired lease and the document takes it; then the run is the open one, and job and run still agree. |
| EncryptedStore.DecryptReader.ReadInto | api/internal/document/encrypted_store.go:132-172 | One `Read` equals the specified step of the reader's state, whether the raw stream reports its end by itself, with its last byte, or as an error. |
| EncryptedStore.Store.Put | api/internal/document/encrypted_store.go:45-93 | Stores exactly the framed image of the source, or leaves the store unchanged. |
| EncryptedStore.AnyBufferSizesDeliver | api/internal/document/encrypted_store.go:132-172 | Reads with any buffer sizes, up to the first error, deliver the same bytes in order, and enough nonempty ones deliver everything. |
| EncryptedStore.RoundTrip | api/internal/document/encrypted_store.go:65-103 | Reading back a stored image with any buffer sizes gives the plaintext and then a clean end, provided that the raw stream does not end in an error. |
| EncryptedStore.NoncesAreDistinctIffCounterFits | api/internal/document/encrypted_store.go:73-103 | No nonce is used twice in an object exactly when its frames fit the 32-bit counter. |
| EncryptedStore.TamperedStreamDeliversPrefix | api/internal/document/encrypted_store.go:136-168 | Without a forged chunk, whatever bytes replace the frames, up to the first error only a prefix of the plaintext is delivered; a clean end comes exactly on a clean image: the exact frames with a raw stream that ends without an error, or the frames and one byte more when the raw stream returns that byte together with its end. Then all of the plaintext has been delivered. |
| EncryptedStore.TamperingIsHarmless | api/internal/document/encrypted_store.go:132-172 | The same for a reader with any buffer sizes that stops at its first error: `done` only on a clean image and with all of the plaintext, with enough reads exactly then; nothing stands behind the frames unless it is one byte that came together with the end. |
| EncryptedStore.ExtraByte | api/internal/document/encrypted_store.go:155-160 | One byte behind the last frame is reported as trailing data, except when the raw stream returns it together with its end: then the end is clean although the object is not the image. |
| EncryptedStore.ShuffledImageDeliversPrefix | api/internal/document/encrypted_store.go:136-168 | Any cut, repetition or reordering of the frames, read up to the first error, delivers a prefix, and `done` comes only on a clean image, as above. |
| EncryptedStore.SoundCiphersExist | api/internal/document/encrypted_store.go:30-43 | The demands on the codec can be met, with big-endian words. |
| EncryptedStore.WordIsBigEndian | api/internal/document/encrypted_store.go:98-99 | The length and counter words of a sound codec are the big-endian ones. |
| ContinuedReads.ReadingOnIsHarmless | api/internal/document/encrypted_store.go:132-172 | A caller that reads on after errors, on whatever bytes without a forged chunk, gets only a prefix of the plaintext, all of it once `done` is true; the stream was then a clean image (the exact frames, or one byte more that came together with the end) if and only if no read answered an error before the end. |
| ContinuedReads.ShuffledImageReadOn | api/internal/document/encrypted_store.go:132-172 | The same for any cut, repetition or reordering of the frames. |
| ContinuedReads.RepeatedFrameEndsCleanly | api/internal/document/encrypted_store.go:151-154 | One byte whose frame is sent twice: the byte, a refusal, and then `done` on a stream that is not the image. |
| ContinuedReads.FullCounterReadsTwice | api/internal/document/encrypted_store.go:155-161 | The bound is sharp: with 2^32 frames a refusal of trailing data wraps the counter, and the whole image can be delivered a second time. |
| Extraction.Extract | api/internal/extraction/extraction.go:59-132 | For every order in which the patterns are visited: each field is found, ambiguous or missing as its valid candidates over all lines say, with evidence in line order, and the warnings are exactly those raised, none twice. |
| Extraction.ScanPatterns | api/internal/extraction/extraction.go:76-100 | One line adds its captures to each field, in any order of the fields. |
| Extraction.WarnAdds | api/internal/extraction/extraction.go:134-147 | `warn` adds one warning and never a second of the same code and field. |
| Extraction.ColumnSummarizes | api/internal/extraction/extraction.go:81-99 | The running update of a field equals the summary of its valid candidates. |
| Extraction.WarnAboutFields | api/internal/extraction/extraction.go:112-130 | Adds exactly the warnings about missing required fields and disagreeing amounts. |
| Validation.OrderDoesNotMatter | api/internal/extraction/extraction.go:76-99 | Two extractions of the same lines agree on type, fields and the set and number of warnings. |
| Validation.ValidateReview | api/internal/extraction/extraction.go:230-283 | Accepts exactly the acceptable values, in any order of the submitted map, and names a real defect otherwise. |
| Validation.NormalFormIsProper | api/internal/extraction/extraction.go:149-202 | The normal form of anything a pattern can capture is a value the validator accepts, length aside. |
| Validation.UnblockedDraftsAreAccepted | api/internal/extraction/extraction.go:230-283 | A draft of a supported type without blockers, submitted unchanged, is accepted exactly when every value has at most 240 bytes. |
| LengthLimits.ConfirmableIffTextsAreShort | api/internal/extraction/extraction.go:237-266 | Values of any fields are acceptable exactly when they are so but for length and every free text has at most 240 bytes: only a free text can have the right format and be too long. |
| LengthLimits.ThaiNameIsSavedButNeverConfirmed | api/internal/httpapi/extraction_routes.go:136-138 | A Thai name of 81 to 240 characters is admitted by the draft form, and validation refuses every set of values that holds it as the seller's name. |
| LengthLimits.WrittenDateHasNormalForm | api/internal/extraction/extraction.go:157-172 | Every date of the calendar from 1900 to 9999, of either era, written in digits has a normal form. |
| LengthLimits.LongNameReceipt | api/internal/extraction/extraction.go:59-132 | Extraction of one concrete receipt line with such a name gives a draft without blockers that validation refuses when it is submitted unchanged. |
| Money.CentsNeverOverflow | api/internal/extraction/extraction.go:204-227 | No string makes the int64 arithmetic of `cents` overflow. |
| Money.MismatchIsExact | api/internal/extraction/extraction.go:124-130 | The mismatch test does not overflow on any three strings and is the exact comparison. |
| Money.CentsOfDecimal | api/internal/extraction/extraction.go:204-227 | Digits, a point and two digits parse to their value exactly when the whole part has at most 15 digits. |
| Money.CentsOfDigits | api/internal/extraction/extraction.go:204-227 | Digits alone parse to their value exactly when there are at most 15. |
| Money.NormalizedAmount | api/internal/extraction/extraction.go:173-184 | A normalized amount is canonical and worth what the text said. |
| Dates.ParseInvertsFormat | api/internal/extraction/extraction.go:168-172 | Parsing a formatted date gives the date back. |
| Engine.Engine.ServeStep | ocr/plaiflow_ocr/engine.py:47-173 | Each step of the child keeps what has been sent equal to the due messages of the call it serves. |
| Engine.Engine.Receive | ocr/plaiflow_ocr/engine.py:193-208 | A message read during a call is a reply to that call; the parent accepts none above the memory limit. |
| Engine.Engine.Start | ocr/plaiflow_ocr/engine.py:210-225 | A new process is ready and quiet, or there is none; a running one is kept. |
| Engine.Engine.Call | ocr/plaiflow_ocr/engine.py:227-253 | Returned pages are exactly the pages of this call's file, numbered 1..count in order; a reported error is real; after a failure the process is gone, except that a dead idle child makes the send fail and stays. |
| Engine.Engine.Run | ocr/plaiflow_ocr/engine.py:182-253 | Over any number of calls with crashes, timeouts and kills every answer belongs to its own call; after one broken send every later call fails the same way, because the send is outside the guarded block. |
| Engine.MessageRead | ocr/plaiflow_ocr/engine.py:232-247 | What has been read is what was due. |
| Spreadsheet.NameColumn | api/internal/business/spreadsheet.go:113-120 | The loop computes the bijective base-26 name. |
| Spreadsheet.FindColumn | api/internal/business/spreadsheet.go:328-342 | The loop computes the column in 64-bit arithmetic. |
| Spreadsheet.ValueOfColumnName | api/internal/business/spreadsheet.go:113-120 | The name of an index stands for that index. |
| Spreadsheet.ColumnNameOfValue | api/internal/business/spreadsheet.go:328-342 | Every string of letters is the name of the number it stands for: the names are a bijection. |
| Spreadsheet.ColumnRoundTrip | api/internal/business/spreadsheet.go:328-342 | Reading back a written reference gives the index modulo 2^64, so the index exactly when it fits 64 bits. |
| Spreadsheet.CellAcceptedIff | api/internal/business/spreadsheet.go:289-306 | A cell is taken exactly when its text is and its letters name one of the fifty columns modulo 2^64, and only that column changes. |
| Spreadsheet.FarReferenceIsTaken | api/internal/business/spreadsheet.go:328-342 | A reference that names any index congruent to a column, 2^64 for column A, is taken for that column. |
| Spreadsheet.WriteSheet | api/internal/business/spreadsheet.go:92-108 | The row loop writes the tokens of the grid. |
| Spreadsheet.ReadSheet | api/internal/business/spreadsheet.go:246-317 | The token loop equals the fold over the tokens, with all its refusals. |
| Spreadsheet.SheetReadsBack | api/internal/business/spreadsheet.go:246-317 | A written grid within the cell limits is read back cell by cell, escaped; one with more than 10001 rows is refused. |
| Vendors.ValidThaiTaxId | api/internal/business/business.go:90-99 | The loop decides the check digit. |
| Vendors.NormalizedIsCanonical | api/internal/business/business.go:44-79 | Every normalized contact is canonical. |
| Vendors.CanonicalIffFixed | api/internal/business/business.go:44-79 | Normalizing a contact again returns it exactly when it is canonical; so normalization is idempotent. |
| Vendors.LawfulCasingsExist | api/internal/business/business.go:44-79 | The demands on the case tables can be met. |
| VendorImport.FindColumns | api/internal/business/spreadsheet.go:348-385 | Finds the columns exactly when no two headers name the same one, and locates each. |
| VendorImport.ImportRows | api/internal/business/spreadsheet.go:344-400 | Returns the normalized contacts of all rows, or nothing if a limit, the header or any row is refused. |
| VendorImport.ContactSurvivesIff | api/internal/business/spreadsheet.go:96-98 | A canonical contact survives writing and reading exactly when XML can hold all its text. |
| VendorImport.ExportRoundTripIff | api/internal/business/spreadsheet.go:67-111 | Importing an exported list returns its contacts exactly when it has 1 to 10000 entries and XML can hold all their text. |
| VendorImport.VerticalTabIsLost | api/internal/business/spreadsheet.go:96-98 | A vertical tab inside a name is a concrete list that does not come back. |
| VendorCsv.GuardSeesFormulaIff | api/internal/business/spreadsheet.go:62-65 | A cell counts as a formula exactly when its trimmed text does and only spaces, tabs and line ends stand in front of it. |
| VendorCsv.SpacedFormulaPasses | api/internal/business/spreadsheet.go:159-162 | A formula behind any other white space is accepted, and trimming makes it the stored text. |
| VendorCsv.ReadRecords | api/internal/business/spreadsheet.go:144-165 | The loop returns the first 10001 records exactly when each of them is readable and within the limits and has no formula; later ones are not looked at. |
| VendorCsv.ImportCsv | api/internal/business/spreadsheet.go:144-167 | Returns the normalized contacts of the rows read, or nothing if a record, a limit, the header or any row is refused. |
| VendorCsv.ProtectRecord | api/internal/business/spreadsheet.go:52-58 | The loop in place prefixes exactly the formulas. |
| VendorCsv.WriteRows | api/internal/business/spreadsheet.go:28-44 | Writes the header and the protected record of each contact, in order. |
| VendorCsv.ProtectedIsAdmissible | api/internal/business/spreadsheet.go:52-65 | A protected field is never refused as a formula when it is read back. |
| VendorCsv.ContactReturnsIff | api/internal/business/spreadsheet.go:33-60 | A canonical contact survives the CSV file exactly when no field is a formula or holds a carriage return. |
| VendorCsv.CsvImportGivesCutIff | api/internal/business/spreadsheet.go:149-167 | Importing an exported file returns exactly the contacts of its first 10000 entries if and only if there is one and all their fields come back. |
| VendorCsv.CsvRoundTripIff | api/internal/business/spreadsheet.go:28-167 | Importing an exported file returns its contacts exactly when there are 1 to 10000 of them and no field is a formula or holds a carriage return. |
| VendorCsv.LongFileIsCut | api/internal/business/spreadsheet.go:149-151 | A file with more than 10000 contacts is cut to the first 10000, where the spreadsheet with the same contacts is refused. |
| Intake.Store.CommitPrepared | api/internal/postgres/documents.go:17-175 | Each call is one step of the run, with its answer. |
| Intake.Store.CurrentPeriod | api/internal/postgres/documents.go:228-248 | The latest stored period around the time, or the calendar month. |
| Intake.StepKeepsInvariant | api/internal/postgres/documents.go:33-174 | Every step keeps: live documents have distinct content; every document has exactly one charge, its own; an origin has an accepted attempt exactly when it has a source, naming the same document. |
| Intake.RunKeepsInvariant | api/internal/postgres/documents.go:33-174 | The invariant in every state of every run. |
| Intake.AnswersAreTrue | api/internal/postgres/documents.go:33-174 | An acceptance adds one document, source and charge; a duplicate names a document with the submitted content and charges nothing; any other answer leaves documents, sources and charges alone. |
| Intake.AcceptedIff | api/internal/postgres/documents.go:106-150 | The exact condition for an acceptance. |
| Intake.OriginsStayBound | api/internal/postgres/documents.go:177-197 | Once an origin has a document it keeps it, with its content and submitter. |
| Intake.RedeliveryIsIdempotent | api/internal/postgres/documents.go:40-72 | The same submission again, however much later, returns the same document and changes nothing; only a group submission of a purged document is refused. |
| Intake.ChargesCountAcceptances | api/internal/postgres/documents.go:147-152 | Charges and documents grow by exactly the number of acceptances. |
| Intake.PeriodsStayWithinLimit | api/internal/postgres/documents.go:113-130 | Outside trials, with no plan above a limit, no period ever has more charges than the limit. |
| Intake.TrialsStayWithinLimit | api/internal/postgres/documents.go:117-121 | A trial never grants more than its limit inside its window. |
| Blobs.NoDanglingReference | api/internal/document/service.go:155-178 | Over every run a recorded key that was drawn once is in storage with the bytes that were recorded, through failed puts and deletes, refused commits and requests that die anywhere. |
| Blobs.PresentIff | api/internal/document/service.go:155-178 | Over every run an object is in storage exactly when it was put and no effective clean-up has taken it away since the last put. |
| Blobs.DanglesIff | api/internal/httpapi/job_routes.go:239-250 | Over every run from the empty state a row dangles exactly when an effective clean-up removed a recorded object that no later put restored. |
| Blobs.HoldsRecordedIff | api/internal/httpapi/job_routes.go:239-253 | Over every run from the empty state the object of a row holds the recorded bytes exactly when it is not lost and what was put under its key last, in whole or in part, were these bytes. |
| Blobs.RepeatedUploadLosesObject | api/internal/httpapi/job_routes.go:239-250 | Two runs from the empty state in which a published artifact is lost: the repeated upload's put fails, or its completion does. |
| Blobs.RepeatedUploadReplacesBytes | api/internal/postgres/jobs.go:258-272 | A run from the empty state in which a repeated upload with other bytes is answered with the first artifact: the row keeps the digest of the first bytes, the object holds the second ones. |
| Blobs.Server.Upload | api/internal/httpapi/job_routes.go:217-253 | With other requests in between: after an upload the recorded artifact is missing exactly when it was recorded before, the put, the size or the completion failed, and the deletion took effect; after a success the object holds the bytes uploaded; a row that was there keeps what it recorded, and one that is new records the bytes uploaded. |
| Blobs.Server.Submit | api/internal/httpapi/ocr_routes.go:160-180 | Keeps the object exactly when the commit names it, with the bytes that the row records, with other requests between all its steps. |
| Blobs.Server.Accept | api/internal/document/intake.go:46-107 | Keeps the object exactly when put, check and acceptance succeed, with the bytes that the row records, with other requests between all its steps. |
| Accounting.Suggest | api/internal/accounting/suggestion.go:21-53 | The loop finds what the set of rules determines: no vendor, a conflict, no rule, or the decisive rule. |
| Accounting.OrderDoesNotMatter | api/internal/accounting/suggestion.go:25-52 | Every order of the same rules gives the same category, basis and warnings. |
| Accounting.FittingRulesSuffice | api/internal/postgres/accounting.go:180-198 | The rules that the evaluation reads suffice for the suggestion of all live rules. |
| Accounting.ChangeKeepsConsistency | api/internal/postgres/accounting.go:433-500 | Every change keeps rule versions distinct and bounded by the stamp. |
| Accounting.UnstampedChangesKeepRules | api/internal/postgres/accounting.go:94-117 | A change that does not raise the version leaves the live rules and known categories as they are. |
| Accounting.StampIsFaithfulOverRuns | api/internal/postgres/accounting.go:281-291 | Over any run the version never falls, and while it stands still the live rules stand still. |
| Accounting.RuleStore.VendorRules | api/internal/postgres/accounting.go:180-198 | Returns exactly the live rules of a vendor that fit the document type. |
| Accounting.RuleStore.Approve | api/internal/postgres/accounting.go:281-310 | The approval statement by statement, with rule changes in between: it goes through exactly when version, vendor, category and rule are what each statement demands of the state it reads; a version row, when there is one, keeps every change out until the commit; when none is there and the version has not moved, the category and rule named are those of the commit. |
| Accounting.RuleStore.ApproveAccounting | api/internal/httpapi/accounting_routes.go:246-311 | Evaluation and approval with changes in between, also between the statements of the approval: the version can have moved at the commit only when it was zero and no rule is credited; if it has not, an approved suggestion is the one that the live rules determine at the commit, and the category has the name recorded. |
| Accounting.FirstRenameSlipsIn | api/internal/postgres/accounting.go:281-300 | Without a rule-set row nothing is locked: a first rename committed after the version was read lets the approval through, and with the old name on it when it comes after the category was read. |
| EditDistance.Measure | ocr/plaiflow_ocr/benchmark.py:16-25 | The two-row loop computes the recursive distance. |
| EditDistance.NoCheaperScript | ocr/plaiflow_ocr/benchmark.py:16-25 | No edit script between the sequences costs less. |
| EditDistance.EveryScriptCosts | ocr/plaiflow_ocr/benchmark.py:16-25 | Some edit script costs exactly the distance. |
| EditDistance.Symmetric | ocr/plaiflow_ocr/benchmark.py:16-25 | The distance is symmetric. |
| EditDistance.ZeroOnlyWhenEqual | ocr/plaiflow_ocr/benchmark.py:16-25 | It is zero exactly on equal sequences. |
| EditDistance.TriangleInequality | ocr/plaiflow_ocr/benchmark.py:16-25 | It satisfies the triangle inequality. |

## Left out

- HTTP parsing, sessions, roles, row-level security, audit rows, notifications and tasks: plumbing around the modelled transactions.
- The web user interface, OAuth, LINE, Google Drive, S3 and ClamAV clients.
- The legacy export job mirror, the synchronous task export, and the inbound-event and LINE-delivery queues.
- ContinuedReads.ShuffledImageReadOn: assumes that no part of the stream opens under the nonce after the last frame's, which was never used to seal.
- The mathematics of AES-GCM: the cipher is any pair of functions with which opening inverts sealing, accepts nothing else, and never accepts another nonce's chunk. The tampering theorems assume that no chunk is forged: no byte sequence opens unless `Put` sealed it in that object.
- Regular expressions, ZIP and XML syntax: a match is the captured text, restricted to the characters its pattern can capture; a sheet is its token stream. A CSV file is its records, with the carriage returns inside a field dropped, as the writer drops them when it ends lines with CR LF. The byte limits of an imported file and its media type are not modelled.
- PDF rendering and recognition inside the engine's child: each page of each call's file has an arbitrary outcome.
- Time zones, calendar months and the plan catalogue of intake: the month around a time and the plan in force are given to the call.
- Random ids and lease tokens are parameters. Attempt ids and blob keys are required to be new where the proof needs it; document, run, review and approval ids that are already in use are refused, within the document for the last three.
- Sniffing, size and digest of an uploaded file: they decide only whether a put is accepted, and which content it is.
- Purging a document: no code does it. The intake model allows the status, because the look-up excludes it; the review model has no such status.
- ReviewStore.Store.CompleteOcr: takes a job in status Running for a held lease; module LeasedRecognition joins it with the lease check.
- ReviewStore.Store.Approve: leaves rules, categories and vendors to module Accounting.
- ReviewStore.Server.ConfirmExtraction: does not model the check that the original opens and the size limit of the review object, which can only refuse earlier. Ids of reviews are random: another request that would draw a taken one counts as abandoned.
- ReviewStore.Server.SaveExtractionDraft: takes the proposal of the run as a parameter; it is what module Extraction makes of the run's stored result.
- Exports.QueueDocumentExport: takes the documents inside the date range, in the order of the query, as a parameter.
- ExportWorker.ProcessExport: a row of the table is a row of the snapshot; the cells, the header and the file format are not modelled. A page read may fail at any time.
- Extraction.Extract: takes the lines of all pages in order, with what each line mentions and captures, instead of their text; the unrated confidence is omitted.
- Fields.NormalizeDate: refuses years beyond 9999, which the code accepts; the pattern captures four digits, so no captured text has one.
- Engine.Engine.Call: messages arrive whole; the 45-second and 180-second deadlines are an arbitrary number of polls.
- Vendors.NormalizedIsCanonical: assumes of the case tables that upper case is idempotent, keeps A to Z and the replacement character, and makes no space or NUL out of another character.
- EncryptedStore.DecryptReader.ReadInto: a raw read that returns neither a byte nor an error is left out.
- VendorCsv.CsvRoundTripIff: the exported id is taken to be shorter than a cell's limit; ids are UUIDs.
- VendorImport.ExportRoundTripIff: the exported id is taken to fit a cell; ids are UUIDs.
- Intake.Store.CommitPrepared: does not model the Drive columns of a source.
- Accounting.RuleStore.ApproveAccounting: leaves out the draft and review checks of the approval, which are in module Review.
