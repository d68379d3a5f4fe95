/**
 Review of one document: its OCR runs, the draft with its history, confirmed
 reviews and accounting approvals, and every transaction that changes them.

 Each transaction locks the document first, so it is one step. A refused
 transaction changes nothing. Roles, row-level security, audit rows, tasks and
 notifications are not modelled. Module LeasedRecognition joins the lease protocol
 of the OCR jobs.
 */
module Review {
  import opened Common

  type Time = nat
  type RunId = nat
  type ReviewId = nat
  type ApprovalId = nat
  type Values = map<string, string>

  datatype Status = Available | Archived | Trash

  datatype OcrRun = OcrRun(id: RunId, fingerprint: nat, job: JobStatus, published: bool, superseded: bool)

  datatype Draft = Draft(ocr: RunId, revision: nat, values: Values, decisions: Values)

  datatype Review = Review(id: ReviewId, ocr: RunId, revision: nat, draftRevision: nat, values: Values, superseded: bool)

  datatype Approval = Approval(id: ApprovalId, review: ReviewId, reviewRevision: nat, revision: nat, superseded: bool)

  /** A document and all rows about it, each table in the order of insertion. */
  datatype Document = Document(
    status: Status, updatedAt: Time, trashedAt: Option<Time>,
    runs: seq<OcrRun>, draft: Option<Draft>, history: seq<Draft>, reviews: seq<Review>, approvals: seq<Approval>)

  const FIELDS := ["document_number", "issue_date", "seller_name", "seller_tax_id", "seller_branch", "buyer_name", "buyer_tax_id",
                   "currency", "subtotal", "vat_amount", "total_amount"]

  function Lookup(values: Values, field: string): string {
    if field in values then values[field] else ""
  }

  predicate FieldDecided(decisions: Values, field: string) {
    Lookup(decisions, field) in ["accepted", "corrected", "unknown"]
  }

  predicate AllDecided(fields: seq<string>, decisions: Values) {
    forall i :: 0 <= i < |fields| ==> FieldDecided(decisions, fields[i])
  }

  function Restricted(fields: seq<string>, values: Values): Values {
    map field | field in fields :: Lookup(values, field)
  }

  /** The form counts characters. */
  predicate Savable(value: string) {
    |value| <= 240
  }

  /** One field of a draft as its form admits it; an unknown value is left empty. */
  predicate FieldSensible(value: string, decision: string) {
    && Savable(value) && decision in ["", "accepted", "corrected", "unknown"]
    && (decision == "unknown" ==> value == "")
  }

  predicate AllSensible(fields: seq<string>, values: Values, decisions: Values) {
    forall i :: 0 <= i < |fields| ==> FieldSensible(Lookup(values, fields[i]), Lookup(decisions, fields[i]))
  }

  predicate Sensible(values: Values, decisions: Values) {
    AllSensible(FIELDS, values, decisions)
  }

  /** A reviewer has decided about every field. */
  predicate Decided(decisions: Values) {
    AllDecided(FIELDS, decisions)
  }

  /** The values of the fields, and nothing else. */
  function FieldValues(values: Values): Values {
    Restricted(FIELDS, values)
  }

  const RESTORE_WINDOW: nat := 30 * 24 * 3600

  // ----- Queries -----

  predicate Active(d: Document) {
    d.status == Available || d.status == Archived
  }

  predicate Open(r: OcrRun) {
    r.published && !r.superseded
  }

  /** The published run that nothing has superseded. */
  function OpenRun(runs: seq<OcrRun>): Option<RunId> {
    if runs == [] then None
    else if Open(runs[|runs| - 1]) then Some(runs[|runs| - 1].id)
    else OpenRun(runs[..|runs| - 1])
  }

  /** The run that the review pages show: the latest one, once it is completed. */
  function ReadableRun(d: Document): Option<RunId> {
    if !Active(d) || d.runs == [] || d.runs[|d.runs| - 1].job != Completed then None else Some(d.runs[|d.runs| - 1].id)
  }

  /** The review that nothing has superseded. */
  function OpenReview(reviews: seq<Review>): Option<Review> {
    if reviews == [] then None
    else if !reviews[|reviews| - 1].superseded then Some(reviews[|reviews| - 1])
    else OpenReview(reviews[..|reviews| - 1])
  }

  function OpenApproval(approvals: seq<Approval>): Option<Approval> {
    if approvals == [] then None
    else if !approvals[|approvals| - 1].superseded then Some(approvals[|approvals| - 1])
    else OpenApproval(approvals[..|approvals| - 1])
  }

  /** The latest run with this fingerprint. */
  function LatestRun(runs: seq<OcrRun>, fingerprint: nat): Option<OcrRun> {
    if runs == [] then None
    else if runs[|runs| - 1].fingerprint == fingerprint then Some(runs[|runs| - 1])
    else LatestRun(runs[..|runs| - 1], fingerprint)
  }

  function DraftRevision(d: Document): nat {
    if d.draft.Some? then d.draft.value.revision else 0
  }

  predicate HasRun(runs: seq<OcrRun>, id: RunId) {
    exists i :: 0 <= i < |runs| && runs[i].id == id
  }

  predicate HasReview(reviews: seq<Review>, id: ReviewId) {
    exists i :: 0 <= i < |reviews| && reviews[i].id == id
  }

  predicate HasApproval(approvals: seq<Approval>, id: ApprovalId) {
    exists i :: 0 <= i < |approvals| && approvals[i].id == id
  }

  predicate Pending(runs: seq<OcrRun>) {
    exists i :: 0 <= i < |runs| && (runs[i].job == Queued || runs[i].job == Running)
  }

  predicate Published(runs: seq<OcrRun>, fingerprint: nat) {
    exists i :: 0 <= i < |runs| && runs[i].published && runs[i].fingerprint == fingerprint
  }

  // ----- Row updates -----

  function SupersedeRun(r: OcrRun): OcrRun {
    if Open(r) then r.(superseded := true) else r
  }

  /** All open runs superseded, then this one published. */
  function Publish(runs: seq<OcrRun>, id: RunId): (after: seq<OcrRun>)
    ensures |after| == |runs|
    ensures forall i :: 0 <= i < |runs| ==>
      after[i] == if runs[i].id == id then SupersedeRun(runs[i]).(job := Completed, published := true) else SupersedeRun(runs[i])
  {
    seq(|runs|, i requires 0 <= i < |runs| =>
      if runs[i].id == id then SupersedeRun(runs[i]).(job := Completed, published := true) else SupersedeRun(runs[i]))
  }

  function SetJob(runs: seq<OcrRun>, id: RunId, job: JobStatus): (after: seq<OcrRun>)
    ensures |after| == |runs|
    ensures forall i :: 0 <= i < |runs| ==> after[i] == if runs[i].id == id then runs[i].(job := job) else runs[i]
  {
    seq(|runs|, i requires 0 <= i < |runs| => if runs[i].id == id then runs[i].(job := job) else runs[i])
  }

  /** The trigger on trashed documents. */
  function CancelQueued(runs: seq<OcrRun>): (after: seq<OcrRun>)
    ensures |after| == |runs|
    ensures forall i :: 0 <= i < |runs| ==> after[i] == if runs[i].job == Queued then runs[i].(job := Cancelled) else runs[i]
  {
    seq(|runs|, i requires 0 <= i < |runs| => if runs[i].job == Queued then runs[i].(job := Cancelled) else runs[i])
  }

  function SupersedeReview(reviews: seq<Review>, id: ReviewId): (after: seq<Review>)
    ensures |after| == |reviews|
    ensures forall i :: 0 <= i < |reviews| ==> after[i] == if reviews[i].id == id then reviews[i].(superseded := true) else reviews[i]
  {
    seq(|reviews|, i requires 0 <= i < |reviews| => if reviews[i].id == id then reviews[i].(superseded := true) else reviews[i])
  }

  function SupersedeApproval(approvals: seq<Approval>, id: ApprovalId): (after: seq<Approval>)
    ensures |after| == |approvals|
    ensures forall i :: 0 <= i < |approvals| ==> after[i] == if approvals[i].id == id then approvals[i].(superseded := true) else approvals[i]
  {
    seq(|approvals|, i requires 0 <= i < |approvals| => if approvals[i].id == id then approvals[i].(superseded := true) else approvals[i])
  }

  // ----- Transactions -----

  datatype Action = Archive | MoveToTrash | Restore

  datatype Operation =
    | SaveDraft(ocr: RunId, expected: nat, values: Values, decisions: Values)
    | ReturnReview(ocr: RunId, expectedReview: nat, expected: nat)
    | ReprocessOcr(ocr: RunId, expected: nat, run: RunId, fingerprint: nat)
    | RetryOcr(run: RunId, fingerprint: nat)
    | ChangeJob(run: RunId, from: JobStatus, to: JobStatus)
    | CompleteOcr(run: RunId)
    | SaveReview(review: ReviewId, ocr: RunId, draftRevision: nat, values: Values, expected: nat)
    | Approve(approval: ApprovalId, review: ReviewId, reviewRevision: nat, expected: nat)
    | ChangeStatus(action: Action)

  /** The draft head is overwritten and its history gets the same entry. */
  function WithDraft(d: Document, draft: Draft): Document {
    d.(draft := Some(draft), history := d.history + [draft])
  }

  function DoSaveDraft(d: Document, op: Operation): Option<Document>
    requires op.SaveDraft?
  {
    if !Active(d) || OpenRun(d.runs) != Some(op.ocr) || DraftRevision(d) != op.expected then None
    else Some(WithDraft(d, Draft(op.ocr, op.expected + 1, op.values, op.decisions)))
  }

  /** The values that survive a return: those of the same OCR run. */
  function KeptDraft(d: Document, ocr: RunId): Draft {
    var revision := DraftRevision(d) + 1;
    if d.draft.Some? && d.draft.value.ocr == ocr then d.draft.value.(revision := revision) else Draft(ocr, revision, map[], map[])
  }

  function DoReturnReview(d: Document, op: Operation): Option<Document>
    requires op.ReturnReview?
  {
    var review := OpenReview(d.reviews);
    var revision := if review.Some? then review.value.revision else 0;
    if !Active(d) || revision != op.expectedReview || (review.Some? && review.value.ocr != op.ocr) then None
    else if OpenRun(d.runs) != Some(op.ocr) || DraftRevision(d) != op.expected then None
    else Some(WithDraft(d, KeptDraft(d, op.ocr)))
  }

  function DoReprocessOcr(d: Document, op: Operation): Option<Document>
    requires op.ReprocessOcr?
  {
    if !Active(d) || OpenRun(d.runs) != Some(op.ocr) || Pending(d.runs) || HasRun(d.runs, op.run) then None
    else if DraftRevision(d) != op.expected then None
    else Some(WithDraft(d.(runs := d.runs + [OcrRun(op.run, op.fingerprint, Queued, false, false)]),
                        Draft(op.run, op.expected + 1, map[], map[])))
  }

  function DoRetryOcr(d: Document, op: Operation): Option<Document>
    requires op.RetryOcr?
  {
    var previous := LatestRun(d.runs, op.fingerprint);
    if !Active(d) || HasRun(d.runs, op.run) then None
    else if previous.Some? && previous.value.job != Failed && previous.value.job != Cancelled then None
    else Some(d.(runs := d.runs + [OcrRun(op.run, op.fingerprint, Queued, false, false)]))
  }

  /** What the job protocol can do to a job short of completing it. */
  predicate LegalJobChange(from: JobStatus, to: JobStatus) {
    (from == Queued && to in {Running, Failed, Cancelled}) || (from == Running && to in {Queued, Running, Failed})
  }

  function DoChangeJob(d: Document, op: Operation): Option<Document>
    requires op.ChangeJob?
  {
    if !LegalJobChange(op.from, op.to) || !RunIs(d.runs, op.run, op.from) then None
    else Some(d.(runs := SetJob(d.runs, op.run, op.to)))
  }

  predicate RunIs(runs: seq<OcrRun>, id: RunId, job: JobStatus) {
    exists i :: 0 <= i < |runs| && runs[i].id == id && runs[i].job == job
  }

  function FingerprintOf(runs: seq<OcrRun>, id: RunId): Option<nat> {
    if runs == [] then None
    else if runs[|runs| - 1].id == id then Some(runs[|runs| - 1].fingerprint)
    else FingerprintOf(runs[..|runs| - 1], id)
  }

  function DoCompleteOcr(d: Document, op: Operation): Option<Document>
    requires op.CompleteOcr?
  {
    var fingerprint := FingerprintOf(d.runs, op.run);
    if !Active(d) || !RunIs(d.runs, op.run, Running) || fingerprint.None? || Published(d.runs, fingerprint.value) then None
    else Some(d.(runs := Publish(d.runs, op.run)))
  }

  function DoSaveReview(d: Document, op: Operation): Option<Document>
    requires op.SaveReview?
  {
    var previous := OpenReview(d.reviews);
    var revision := if previous.Some? then previous.value.revision else 0;
    if !Active(d) || OpenRun(d.runs) != Some(op.ocr) then None
    else if op.draftRevision > 0 && (d.draft.None? || d.draft.value.revision != op.draftRevision || d.draft.value.ocr != op.ocr) then None
    else if revision != op.expected || HasReview(d.reviews, op.review) then None
    else
      var others := if previous.Some? then SupersedeReview(d.reviews, previous.value.id) else d.reviews;
      Some(d.(reviews := others + [Review(op.review, op.ocr, revision + 1, op.draftRevision, op.values, false)]))
  }

  /** The open review, when it stands for the open run and the latest draft. */
  function ExportableReview(d: Document): Option<Review> {
    var review := OpenReview(d.reviews);
    if review.None? || OpenRun(d.runs) != Some(review.value.ocr) || DraftRevision(d) > review.value.draftRevision then None else review
  }

  function DoApprove(d: Document, op: Operation): Option<Document>
    requires op.Approve?
  {
    var review := ExportableReview(d);
    var prior := OpenApproval(d.approvals);
    var revision := if prior.Some? then prior.value.revision else 0;
    if !Active(d) || review.None? || review.value.id != op.review || review.value.revision != op.reviewRevision then None
    else if revision != op.expected || HasApproval(d.approvals, op.approval) then None
    else
      var others := if prior.Some? then SupersedeApproval(d.approvals, prior.value.id) else d.approvals;
      Some(d.(approvals := others + [Approval(op.approval, op.review, op.reviewRevision, revision + 1, false)]))
  }

  function DoChangeStatus(d: Document, op: Operation, now: Time): Option<Document>
    requires op.ChangeStatus?
  {
    match op.action
    case Archive =>
      if d.status == Available then Some(d.(status := Archived, trashedAt := None, updatedAt := now)) else None
    case MoveToTrash =>
      if Active(d) then Some(d.(status := Trash, trashedAt := Some(now), updatedAt := now, runs := CancelQueued(d.runs))) else None
    case Restore =>
      if d.status == Trash && d.trashedAt.Some? && d.trashedAt.value + RESTORE_WINDOW > now
      then Some(d.(status := Available, trashedAt := None, updatedAt := now)) else None
  }

  /** One transaction; none if it is refused. */
  function Perform(d: Document, op: Operation, now: Time): Option<Document> {
    match op
    case SaveDraft(_, _, _, _) => DoSaveDraft(d, op)
    case ReturnReview(_, _, _) => DoReturnReview(d, op)
    case ReprocessOcr(_, _, _, _) => DoReprocessOcr(d, op)
    case RetryOcr(_, _) => DoRetryOcr(d, op)
    case ChangeJob(_, _, _) => DoChangeJob(d, op)
    case CompleteOcr(_) => DoCompleteOcr(d, op)
    case SaveReview(_, _, _, _, _) => DoSaveReview(d, op)
    case Approve(_, _, _, _) => DoApprove(d, op)
    case ChangeStatus(_) => DoChangeStatus(d, op, now)
  }

  // ----- Invariant -----

  /** History revisions are exactly 1 to n, and the draft is entry n. */
  ghost predicate HistoryOk(draft: Option<Draft>, history: seq<Draft>) {
    && (forall i :: 0 <= i < |history| ==> history[i].revision == i + 1)
    && draft == if history == [] then None else Some(history[|history| - 1])
  }

  /** Run ids are distinct, at most one run is open, and a run is published exactly when its job is completed. */
  ghost predicate RunsOk(runs: seq<OcrRun>) {
    && (forall i, j :: 0 <= i < j < |runs| ==> runs[i].id != runs[j].id)
    && (forall i, j :: 0 <= i < j < |runs| && Open(runs[i]) ==> !Open(runs[j]))
    && (forall i :: 0 <= i < |runs| ==> (runs[i].published <==> runs[i].job == Completed) && (runs[i].superseded ==> runs[i].published))
  }

  /** Review revisions are exactly 1 to m, all but the last superseded, ids distinct. */
  ghost predicate ReviewsOk(reviews: seq<Review>) {
    && (forall i :: 0 <= i < |reviews| ==> reviews[i].revision == i + 1 && (reviews[i].superseded <==> i < |reviews| - 1))
    && (forall i, j :: 0 <= i < j < |reviews| ==> reviews[i].id != reviews[j].id)
  }

  ghost predicate ApprovalsOk(approvals: seq<Approval>) {
    && (forall i :: 0 <= i < |approvals| ==> approvals[i].revision == i + 1 && (approvals[i].superseded <==> i < |approvals| - 1))
    && (forall i, j :: 0 <= i < j < |approvals| ==> approvals[i].id != approvals[j].id)
  }

  /** The history holds these values of this run at this revision, every field decided. */
  ghost predicate Saved(history: seq<Draft>, ocr: RunId, revision: nat, values: Values) {
    && 1 <= revision <= |history| && history[revision - 1].ocr == ocr && values == FieldValues(history[revision - 1].values)
    && Decided(history[revision - 1].decisions)
  }

  ghost predicate WasPublished(runs: seq<OcrRun>, id: RunId) {
    exists i :: 0 <= i < |runs| && runs[i].id == id && runs[i].published
  }

  /** Every confirmed review holds saved values, of a published run. */
  ghost predicate ReviewsBacked(d: Document) {
    forall i :: 0 <= i < |d.reviews| ==>
      var r := d.reviews[i]; Saved(d.history, r.ocr, r.draftRevision, r.values) && WasPublished(d.runs, r.ocr)
  }

  ghost predicate Approves(a: Approval, reviews: seq<Review>) {
    1 <= a.reviewRevision <= |reviews| && reviews[a.reviewRevision - 1].id == a.review
  }

  /** Every approval names a review by its id and its revision. */
  ghost predicate ApprovalsBacked(d: Document) {
    forall i :: 0 <= i < |d.approvals| ==> Approves(d.approvals[i], d.reviews)
  }

  ghost predicate TimesOk(d: Document, clock: Time) {
    d.updatedAt <= clock && (d.status == Trash <==> d.trashedAt.Some?)
  }

  ghost predicate Valid(d: Document, clock: Time) {
    && HistoryOk(d.draft, d.history) && RunsOk(d.runs) && ReviewsOk(d.reviews) && ApprovalsOk(d.approvals)
    && ReviewsBacked(d) && ApprovalsBacked(d) && TimesOk(d, clock)
  }

  /** A document as intake leaves it. */
  ghost predicate Fresh(d: Document) {
    && d.status == Available && d.trashedAt == None && d.draft == None && d.history == [] && d.reviews == [] && d.approvals == []
    && (d.runs == [] || exists id, fingerprint :: d.runs == [OcrRun(id, fingerprint, Queued, false, false)])
  }

  /** A review is only saved with values that were saved as a draft. */
  ghost predicate Backed(d: Document, op: Operation) {
    op.SaveReview? ==> Saved(d.history, op.ocr, op.draftRevision, op.values)
  }

  // ----- Growth: what no transaction takes back -----

  /** Runs are only added, and published and superseded are for good. */
  ghost predicate RunsGrow(before: seq<OcrRun>, after: seq<OcrRun>) {
    && |before| <= |after|
    && forall i :: 0 <= i < |before| ==>
      && after[i].id == before[i].id && after[i].fingerprint == before[i].fingerprint
      && (before[i].published ==> after[i].published) && (before[i].superseded ==> after[i].superseded)
  }

  ghost predicate ReviewsGrow(before: seq<Review>, after: seq<Review>) {
    && |before| <= |after|
    && forall i :: 0 <= i < |before| ==>
      after[i] == before[i].(superseded := after[i].superseded) && (before[i].superseded ==> after[i].superseded)
  }

  ghost predicate ApprovalsGrow(before: seq<Approval>, after: seq<Approval>) {
    && |before| <= |after|
    && forall i :: 0 <= i < |before| ==>
      after[i] == before[i].(superseded := after[i].superseded) && (before[i].superseded ==> after[i].superseded)
  }

  /** The status and its time change together, and the time only forward. */
  ghost predicate StatusMoves(before: Document, after: Document) {
    before.updatedAt <= after.updatedAt && (before.updatedAt == after.updatedAt ==> before.status == after.status)
  }

  ghost predicate Grows(before: Document, after: Document) {
    && before.history <= after.history && RunsGrow(before.runs, after.runs)
    && ReviewsGrow(before.reviews, after.reviews) && ApprovalsGrow(before.approvals, after.approvals)
    && StatusMoves(before, after)
  }
}
