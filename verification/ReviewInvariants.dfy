/** What every transaction on a document keeps: the invariant, and growth. */
module ReviewInvariants {
  import opened Common
  import opened Review

  // ----- The open rows -----

  lemma {:induction false} OpenRunIs(runs: seq<OcrRun>, i: nat)
    requires RunsOk(runs) && i < |runs| && Open(runs[i])
    ensures OpenRun(runs) == Some(runs[i].id)
  {
    if !Open(runs[|runs| - 1]) {
      OpenRunIs(runs[..|runs| - 1], i);
    }
  }

  lemma {:induction false} OpenRunExists(runs: seq<OcrRun>) returns (i: nat)
    requires OpenRun(runs).Some?
    ensures i < |runs| && Open(runs[i]) && runs[i].id == OpenRun(runs).value
  {
    if Open(runs[|runs| - 1]) {
      i := |runs| - 1;
    } else {
      i := OpenRunExists(runs[..|runs| - 1]);
    }
  }

  /** The open review is the last one. */
  lemma OpenReviewIsLast(reviews: seq<Review>)
    requires ReviewsOk(reviews)
    ensures OpenReview(reviews) == if reviews == [] then None else Some(reviews[|reviews| - 1])
  {
  }

  lemma OpenApprovalIsLast(approvals: seq<Approval>)
    requires ApprovalsOk(approvals)
    ensures OpenApproval(approvals) == if approvals == [] then None else Some(approvals[|approvals| - 1])
  {
  }

  // ----- Drafts -----

  lemma DraftIsLast(d: Document)
    requires HistoryOk(d.draft, d.history)
    ensures DraftRevision(d) == |d.history|
  {
  }

  lemma WithDraftKeepsHistory(d: Document, draft: Draft)
    requires HistoryOk(d.draft, d.history) && draft.revision == |d.history| + 1
    ensures HistoryOk(WithDraft(d, draft).draft, WithDraft(d, draft).history)
  {
  }

  lemma BackedAfterGrowth(before: Document, after: Document)
    requires ReviewsBacked(before) && before.history <= after.history && RunsGrow(before.runs, after.runs)
    requires before.reviews == after.reviews
    ensures ReviewsBacked(after)
  {
    forall k | 0 <= k < |after.reviews|
      ensures Saved(after.history, after.reviews[k].ocr, after.reviews[k].draftRevision, after.reviews[k].values)
      ensures WasPublished(after.runs, after.reviews[k].ocr)
    {
      var r := before.reviews[k];
      assert Saved(before.history, r.ocr, r.draftRevision, r.values);
      PublishedStays(before.runs, after.runs, r.ocr);
    }
  }

  lemma PublishedStays(before: seq<OcrRun>, after: seq<OcrRun>, id: RunId)
    requires RunsGrow(before, after) && WasPublished(before, id)
    ensures WasPublished(after, id)
  {
    var i :| 0 <= i < |before| && before[i].id == id && before[i].published;
    assert after[i].id == id && after[i].published;
  }

  // ----- Runs -----

  lemma AddRun(runs: seq<OcrRun>, id: RunId, fingerprint: nat)
    requires RunsOk(runs) && !HasRun(runs, id)
    ensures RunsOk(runs + [OcrRun(id, fingerprint, Queued, false, false)])
    ensures RunsGrow(runs, runs + [OcrRun(id, fingerprint, Queued, false, false)])
  {
  }

  lemma ChangeJobKeepsRuns(runs: seq<OcrRun>, id: RunId, from: JobStatus, to: JobStatus)
    requires RunsOk(runs) && RunIs(runs, id, from) && LegalJobChange(from, to)
    ensures RunsOk(SetJob(runs, id, to)) && RunsGrow(runs, SetJob(runs, id, to))
  {
    var after := SetJob(runs, id, to);
    forall i | 0 <= i < |runs| && runs[i].id == id
      ensures runs[i].job == from
    {
      var k :| 0 <= k < |runs| && runs[k].id == id && runs[k].job == from;
      assert i == k || i < k || k < i;
    }
    assert forall i :: 0 <= i < |runs| ==> after[i].published == runs[i].published && after[i].superseded == runs[i].superseded;
  }

  lemma PublishKeepsRuns(runs: seq<OcrRun>, id: RunId)
    requires RunsOk(runs) && RunIs(runs, id, Running)
    ensures RunsOk(Publish(runs, id)) && RunsGrow(runs, Publish(runs, id)) && OpenRun(Publish(runs, id)) == Some(id)
  {
    var after := Publish(runs, id);
    var k :| 0 <= k < |runs| && runs[k].id == id && runs[k].job == Running;
    forall i | 0 <= i < |runs|
      ensures Open(after[i]) <==> i == k
      ensures (after[i].published <==> after[i].job == Completed) && (after[i].superseded ==> after[i].published)
      ensures after[i].id == runs[i].id && after[i].fingerprint == runs[i].fingerprint
    {
      assert i == k || i < k || k < i;
    }
    OpenRunIs(after, k);
  }

  lemma CancelKeepsRuns(runs: seq<OcrRun>)
    requires RunsOk(runs)
    ensures RunsOk(CancelQueued(runs)) && RunsGrow(runs, CancelQueued(runs))
  {
    var after := CancelQueued(runs);
    assert forall i :: 0 <= i < |runs| ==> after[i].published == runs[i].published && after[i].superseded == runs[i].superseded;
  }

  // ----- Reviews and approvals -----

  lemma NextReview(reviews: seq<Review>, review: Review)
    requires ReviewsOk(reviews) && !HasReview(reviews, review.id)
    requires review.revision == |reviews| + 1 && !review.superseded
    ensures var others := if reviews == [] then reviews else SupersedeReview(reviews, reviews[|reviews| - 1].id);
      ReviewsOk(others + [review]) && ReviewsGrow(reviews, others + [review])
  {
    var others := if reviews == [] then reviews else SupersedeReview(reviews, reviews[|reviews| - 1].id);
    forall i | 0 <= i < |others|
      ensures others[i] == reviews[i].(superseded := true)
    {
      assert i == |reviews| - 1 || i < |reviews| - 1;
    }
  }

  lemma NextApproval(approvals: seq<Approval>, approval: Approval)
    requires ApprovalsOk(approvals) && !HasApproval(approvals, approval.id)
    requires approval.revision == |approvals| + 1 && !approval.superseded
    ensures var others := if approvals == [] then approvals else SupersedeApproval(approvals, approvals[|approvals| - 1].id);
      ApprovalsOk(others + [approval]) && ApprovalsGrow(approvals, others + [approval])
  {
    var others := if approvals == [] then approvals else SupersedeApproval(approvals, approvals[|approvals| - 1].id);
    forall i | 0 <= i < |others|
      ensures others[i] == approvals[i].(superseded := true)
    {
      assert i == |approvals| - 1 || i < |approvals| - 1;
    }
  }

  lemma ApprovalsBackedAfter(before: Document, after: Document)
    requires ApprovalsBacked(before) && ReviewsGrow(before.reviews, after.reviews) && before.approvals == after.approvals
    ensures ApprovalsBacked(after)
  {
    forall i | 0 <= i < |after.approvals|
      ensures Approves(after.approvals[i], after.reviews)
    {
      assert Approves(before.approvals[i], before.reviews);
    }
  }

  lemma NothingGrows(d: Document)
    ensures RunsGrow(d.runs, d.runs) && ReviewsGrow(d.reviews, d.reviews) && ApprovalsGrow(d.approvals, d.approvals)
  {
  }

  // ----- Each transaction -----

  /** The invariant after the transaction, and the growth up to it. */
  ghost predicate Kept(d: Document, after: Document, now: Time) {
    Valid(after, now) && Grows(d, after)
  }

  /** Only the draft and the runs differ. */
  lemma DraftStep(d: Document, middle: Document, draft: Draft, clock: Time, now: Time)
    requires Valid(d, clock) && clock < now
    requires middle == d.(runs := middle.runs) && RunsOk(middle.runs) && RunsGrow(d.runs, middle.runs)
    requires draft.revision == |d.history| + 1
    ensures Kept(d, WithDraft(middle, draft), now)
  {
    var after := WithDraft(middle, draft);
    WithDraftKeepsHistory(middle, draft);
    BackedAfterGrowth(d, after);
    NothingGrows(d);
    ApprovalsBackedAfter(d, after);
  }

  lemma SaveDraftKeeps(d: Document, op: Operation, clock: Time, now: Time)
    requires Valid(d, clock) && clock < now && op.SaveDraft? && DoSaveDraft(d, op).Some?
    ensures Kept(d, DoSaveDraft(d, op).value, now)
  {
    DraftIsLast(d);
    NothingGrows(d);
    DraftStep(d, d, Draft(op.ocr, op.expected + 1, op.values, op.decisions), clock, now);
  }

  lemma ReturnReviewKeeps(d: Document, op: Operation, clock: Time, now: Time)
    requires Valid(d, clock) && clock < now && op.ReturnReview? && DoReturnReview(d, op).Some?
    ensures Kept(d, DoReturnReview(d, op).value, now)
  {
    DraftIsLast(d);
    NothingGrows(d);
    DraftStep(d, d, KeptDraft(d, op.ocr), clock, now);
  }

  lemma ReprocessKeeps(d: Document, op: Operation, clock: Time, now: Time)
    requires Valid(d, clock) && clock < now && op.ReprocessOcr? && DoReprocessOcr(d, op).Some?
    ensures Kept(d, DoReprocessOcr(d, op).value, now)
  {
    var run := OcrRun(op.run, op.fingerprint, Queued, false, false);
    DraftIsLast(d);
    AddRun(d.runs, op.run, op.fingerprint);
    DraftStep(d, d.(runs := d.runs + [run]), Draft(op.run, op.expected + 1, map[], map[]), clock, now);
  }

  /** Only the runs differ. */
  lemma RunStep(d: Document, runs: seq<OcrRun>, clock: Time, now: Time)
    requires Valid(d, clock) && clock < now && RunsOk(runs) && RunsGrow(d.runs, runs)
    ensures Kept(d, d.(runs := runs), now)
  {
    var after := d.(runs := runs);
    BackedAfterGrowth(d, after);
    NothingGrows(d);
    ApprovalsBackedAfter(d, after);
  }

  lemma RetryKeeps(d: Document, op: Operation, clock: Time, now: Time)
    requires Valid(d, clock) && clock < now && op.RetryOcr? && DoRetryOcr(d, op).Some?
    ensures Kept(d, DoRetryOcr(d, op).value, now)
  {
    AddRun(d.runs, op.run, op.fingerprint);
    RunStep(d, d.runs + [OcrRun(op.run, op.fingerprint, Queued, false, false)], clock, now);
  }

  lemma ChangeJobKeeps(d: Document, op: Operation, clock: Time, now: Time)
    requires Valid(d, clock) && clock < now && op.ChangeJob? && DoChangeJob(d, op).Some?
    ensures Kept(d, DoChangeJob(d, op).value, now)
  {
    ChangeJobKeepsRuns(d.runs, op.run, op.from, op.to);
    RunStep(d, SetJob(d.runs, op.run, op.to), clock, now);
  }

  lemma CompleteKeeps(d: Document, op: Operation, clock: Time, now: Time)
    requires Valid(d, clock) && clock < now && op.CompleteOcr? && DoCompleteOcr(d, op).Some?
    ensures Kept(d, DoCompleteOcr(d, op).value, now)
  {
    PublishKeepsRuns(d.runs, op.run);
    RunStep(d, Publish(d.runs, op.run), clock, now);
  }

  function NextReviews(reviews: seq<Review>, review: Review): seq<Review> {
    (if reviews == [] then reviews else SupersedeReview(reviews, reviews[|reviews| - 1].id)) + [review]
  }

  lemma SaveReviewFacts(d: Document, op: Operation)
    requires RunsOk(d.runs) && ReviewsOk(d.reviews) && op.SaveReview? && DoSaveReview(d, op).Some?
    ensures !HasReview(d.reviews, op.review) && OpenRun(d.runs) == Some(op.ocr) && WasPublished(d.runs, op.ocr)
    ensures op.draftRevision > 0 ==> d.draft.Some? && d.draft.value.revision == op.draftRevision && d.draft.value.ocr == op.ocr
    ensures DoSaveReview(d, op).value ==
      d.(reviews := NextReviews(d.reviews, Review(op.review, op.ocr, |d.reviews| + 1, op.draftRevision, op.values, false)))
  {
    OpenReviewIsLast(d.reviews);
    var i := OpenRunExists(d.runs);
  }

  lemma NextReviewIsBacked(d: Document, review: Review)
    requires ReviewsBacked(d) && Saved(d.history, review.ocr, review.draftRevision, review.values) && WasPublished(d.runs, review.ocr)
    requires ReviewsGrow(d.reviews, NextReviews(d.reviews, review))
    ensures ReviewsBacked(d.(reviews := NextReviews(d.reviews, review)))
  {
    var after := d.(reviews := NextReviews(d.reviews, review));
    forall k | 0 <= k < |after.reviews|
      ensures Saved(after.history, after.reviews[k].ocr, after.reviews[k].draftRevision, after.reviews[k].values)
      ensures WasPublished(after.runs, after.reviews[k].ocr)
    {
      if k < |d.reviews| {
        var r := d.reviews[k];
        assert Saved(d.history, r.ocr, r.draftRevision, r.values);
        assert after.reviews[k] == r.(superseded := after.reviews[k].superseded);
      }
    }
  }

  /** Only the reviews differ. */
  lemma ReviewStep(d: Document, review: Review, clock: Time, now: Time)
    requires Valid(d, clock) && clock < now && !HasReview(d.reviews, review.id)
    requires review.revision == |d.reviews| + 1 && !review.superseded
    requires Saved(d.history, review.ocr, review.draftRevision, review.values) && WasPublished(d.runs, review.ocr)
    ensures Kept(d, d.(reviews := NextReviews(d.reviews, review)), now)
  {
    NextReview(d.reviews, review);
    NextReviewIsBacked(d, review);
    ApprovalsBackedAfter(d, d.(reviews := NextReviews(d.reviews, review)));
    NothingGrows(d);
  }

  lemma SaveReviewKeeps(d: Document, op: Operation, clock: Time, now: Time)
    requires Valid(d, clock) && clock < now && op.SaveReview? && DoSaveReview(d, op).Some? && Backed(d, op)
    ensures Kept(d, DoSaveReview(d, op).value, now)
  {
    SaveReviewFacts(d, op);
    ReviewStep(d, Review(op.review, op.ocr, |d.reviews| + 1, op.draftRevision, op.values, false), clock, now);
  }

  function NextApprovals(approvals: seq<Approval>, approval: Approval): seq<Approval> {
    (if approvals == [] then approvals else SupersedeApproval(approvals, approvals[|approvals| - 1].id)) + [approval]
  }

  lemma ApproveFacts(d: Document, op: Operation)
    requires ReviewsOk(d.reviews) && ApprovalsOk(d.approvals) && op.Approve? && DoApprove(d, op).Some?
    ensures d.reviews != [] && op.review == d.reviews[|d.reviews| - 1].id && op.reviewRevision == |d.reviews|
    ensures !HasApproval(d.approvals, op.approval)
    ensures DoApprove(d, op).value ==
      d.(approvals := NextApprovals(d.approvals, Approval(op.approval, op.review, op.reviewRevision, |d.approvals| + 1, false)))
  {
    OpenReviewIsLast(d.reviews);
    OpenApprovalIsLast(d.approvals);
  }

  lemma NextApprovalIsBacked(d: Document, approval: Approval)
    requires ApprovalsBacked(d) && Approves(approval, d.reviews)
    ensures ApprovalsBacked(d.(approvals := NextApprovals(d.approvals, approval)))
  {
    var after := d.(approvals := NextApprovals(d.approvals, approval));
    forall i | 0 <= i < |after.approvals|
      ensures Approves(after.approvals[i], after.reviews)
    {
      if i < |d.approvals| {
        assert Approves(d.approvals[i], d.reviews);
      }
    }
  }

  /** Only the approvals differ. */
  lemma ApprovalStep(d: Document, approval: Approval, clock: Time, now: Time)
    requires Valid(d, clock) && clock < now && !HasApproval(d.approvals, approval.id)
    requires approval.revision == |d.approvals| + 1 && !approval.superseded && Approves(approval, d.reviews)
    ensures Kept(d, d.(approvals := NextApprovals(d.approvals, approval)), now)
  {
    var after := d.(approvals := NextApprovals(d.approvals, approval));
    NextApproval(d.approvals, approval);
    NextApprovalIsBacked(d, approval);
    NothingGrows(d);
    BackedAfterGrowth(d, after);
  }

  lemma NextApprovalOf(d: Document, op: Operation) returns (approval: Approval)
    requires ReviewsOk(d.reviews) && ApprovalsOk(d.approvals) && op.Approve? && DoApprove(d, op).Some?
    ensures approval.revision == |d.approvals| + 1 && !approval.superseded
    ensures Approves(approval, d.reviews) && !HasApproval(d.approvals, approval.id)
    ensures DoApprove(d, op).value == d.(approvals := NextApprovals(d.approvals, approval))
  {
    ApproveFacts(d, op);
    approval := Approval(op.approval, op.review, op.reviewRevision, |d.approvals| + 1, false);
  }

  lemma ApproveKeeps(d: Document, op: Operation, clock: Time, now: Time)
    requires Valid(d, clock) && clock < now && op.Approve? && DoApprove(d, op).Some?
    ensures Kept(d, DoApprove(d, op).value, now)
  {
    var approval := NextApprovalOf(d, op);
    ApprovalStep(d, approval, clock, now);
  }

  lemma ChangeStatusKeeps(d: Document, op: Operation, clock: Time, now: Time)
    requires Valid(d, clock) && clock < now && op.ChangeStatus? && DoChangeStatus(d, op, now).Some?
    ensures Kept(d, DoChangeStatus(d, op, now).value, now)
  {
    var after := DoChangeStatus(d, op, now).value;
    CancelKeepsRuns(d.runs);
    NothingGrows(d);
    BackedAfterGrowth(d, after);
    ApprovalsBackedAfter(d, after);
  }

  /** Every transaction keeps the invariant, and takes back nothing. */
  lemma PerformKeeps(d: Document, op: Operation, clock: Time, now: Time)
    requires Valid(d, clock) && clock < now && Backed(d, op) && Perform(d, op, now).Some?
    ensures Kept(d, Perform(d, op, now).value, now)
  {
    match op
    case SaveDraft(_, _, _, _) => SaveDraftKeeps(d, op, clock, now);
    case ReturnReview(_, _, _) => ReturnReviewKeeps(d, op, clock, now);
    case ReprocessOcr(_, _, _, _) => ReprocessKeeps(d, op, clock, now);
    case RetryOcr(_, _) => RetryKeeps(d, op, clock, now);
    case ChangeJob(_, _, _) => ChangeJobKeeps(d, op, clock, now);
    case CompleteOcr(_) => CompleteKeeps(d, op, clock, now);
    case SaveReview(_, _, _, _, _) => SaveReviewKeeps(d, op, clock, now);
    case Approve(_, _, _, _) => ApproveKeeps(d, op, clock, now);
    case ChangeStatus(_) => ChangeStatusKeeps(d, op, clock, now);
  }

  lemma FreshIsValid(d: Document, clock: Time)
    requires Fresh(d) && d.updatedAt <= clock
    ensures Valid(d, clock)
  {
  }

  /**
   What is exported is what was saved last: an exportable review names the
   latest draft revision, the same OCR run as the draft and the published run,
   and holds exactly the draft's values.
   */
  lemma ExportableIsCurrent(d: Document, clock: Time)
    requires Valid(d, clock) && ExportableReview(d).Some?
    ensures var r := ExportableReview(d).value;
      && d.reviews != [] && r == d.reviews[|d.reviews| - 1] && d.draft.Some?
      && r.draftRevision == |d.history| == d.draft.value.revision
      && r.ocr == d.draft.value.ocr && OpenRun(d.runs) == Some(r.ocr) && r.values == FieldValues(d.draft.value.values)
  {
    OpenReviewIsLast(d.reviews);
    DraftIsLast(d);
    assert Saved(d.history, d.reviews[|d.reviews| - 1].ocr, d.reviews[|d.reviews| - 1].draftRevision, d.reviews[|d.reviews| - 1].values);
  }

  // ----- What makes a review exportable, and what ends that -----

  lemma OpenRunWasOpen(d: Document, after: Document, ocr: RunId)
    requires RunsOk(d.runs) && RunsOk(after.runs) && RunsGrow(d.runs, after.runs) && WasPublished(d.runs, ocr) && OpenRun(after.runs) == Some(ocr)
    ensures OpenRun(d.runs) == Some(ocr)
  {
    var a :| 0 <= a < |d.runs| && d.runs[a].id == ocr && d.runs[a].published;
    var b := OpenRunExists(after.runs);
    assert after.runs[a].id == ocr && !(a < b) && !(b < a);
    OpenRunIs(d.runs, a);
  }

  lemma OnlyConfirmationAddsReviews(d: Document, op: Operation, now: Time)
    requires Perform(d, op, now).Some? && !op.SaveReview?
    ensures Perform(d, op, now).value.reviews == d.reviews
  {
  }

  /** Only a confirmation can make a review exportable; every other transaction keeps it at best. */
  lemma ExportableOnlyThroughConfirmation(d: Document, op: Operation, clock: Time, now: Time)
    requires Valid(d, clock) && clock < now && !op.SaveReview? && Perform(d, op, now).Some?
    ensures ExportableReview(Perform(d, op, now).value).Some? ==> ExportableReview(Perform(d, op, now).value) == ExportableReview(d)
  {
    var after := Perform(d, op, now).value;
    OnlyConfirmationAddsReviews(d, op, now);
    PerformKeeps(d, op, clock, now);
    ExportableWasExportable(d, after, clock, now);
  }

  lemma ExportableWasExportable(d: Document, after: Document, clock: Time, now: Time)
    requires Valid(d, clock) && Kept(d, after, now) && after.reviews == d.reviews
    ensures ExportableReview(after).Some? ==> ExportableReview(after) == ExportableReview(d)
  {
    if ExportableReview(after).Some? {
      var r := ExportableReview(after).value;
      OpenReviewIsLast(d.reviews);
      DraftIsLast(d);
      DraftIsLast(after);
      assert WasPublished(d.runs, d.reviews[|d.reviews| - 1].ocr);
      OpenRunWasOpen(d, after, r.ocr);
    }
  }

  lemma NewerDraftEndsExportability(d: Document, clock: Time, n: nat)
    requires Valid(d, clock) && n < |d.history| && forall i :: 0 <= i < |d.reviews| ==> d.reviews[i].draftRevision <= n
    ensures ExportableReview(d) == None
  {
    OpenReviewIsLast(d.reviews);
    DraftIsLast(d);
  }

  /** Saving, returning or reprocessing ends the exportability of whatever was confirmed. */
  lemma DraftChangesInvalidate(d: Document, op: Operation, clock: Time, now: Time)
    requires Valid(d, clock) && clock < now && (op.SaveDraft? || op.ReturnReview? || op.ReprocessOcr?) && Perform(d, op, now).Some?
    ensures ExportableReview(Perform(d, op, now).value) == None
  {
    var after := Perform(d, op, now).value;
    PerformKeeps(d, op, clock, now);
    OnlyConfirmationAddsReviews(d, op, now);
    forall i | 0 <= i < |d.reviews|
      ensures after.reviews[i].draftRevision <= |d.history|
    {
      assert Saved(d.history, d.reviews[i].ocr, d.reviews[i].draftRevision, d.reviews[i].values);
    }
    NewerDraftEndsExportability(after, now, |d.history|);
  }

  /** So does the publication of another run. */
  lemma PublicationInvalidates(d: Document, op: Operation, clock: Time, now: Time)
    requires Valid(d, clock) && clock < now && op.CompleteOcr? && Perform(d, op, now).Some?
    ensures OpenRun(Perform(d, op, now).value.runs) == Some(op.run) && ExportableReview(Perform(d, op, now).value) == None
  {
    PublishKeepsRuns(d.runs, op.run);
    OpenReviewIsLast(d.reviews);
    if d.reviews != [] {
      var ocr := d.reviews[|d.reviews| - 1].ocr;
      assert WasPublished(d.runs, ocr);
      var a :| 0 <= a < |d.runs| && d.runs[a].id == ocr && d.runs[a].published;
      var b :| 0 <= b < |d.runs| && d.runs[b].id == op.run && d.runs[b].job == Running;
      assert a != b;
    }
  }

  /** A return keeps what was saved for the run, and starts afresh for any other. */
  lemma ReturnKeepsSavedValues(d: Document, save: Operation, back: Operation, now: Time)
    requires save.SaveDraft? && back.ReturnReview? && DoSaveDraft(d, save).Some? && DoReturnReview(DoSaveDraft(d, save).value, back).Some?
    ensures var after := DoReturnReview(DoSaveDraft(d, save).value, back).value;
      && after.draft.Some? && after.draft.value.values == save.values && after.draft.value.decisions == save.decisions
      && after.draft.value.revision == save.expected + 2
  {
  }

  lemma QueuedRunPublishes(runs: seq<OcrRun>, id: RunId)
    requires RunsOk(runs) && RunIs(runs, id, Queued)
    ensures OpenRun(Publish(SetJob(runs, id, Running), id)) == Some(id)
  {
    ChangeJobKeepsRuns(runs, id, Queued, Running);
    var i :| 0 <= i < |runs| && runs[i].id == id && runs[i].job == Queued;
    assert SetJob(runs, id, Running)[i].id == id && SetJob(runs, id, Running)[i].job == Running;
    PublishKeepsRuns(SetJob(runs, id, Running), id);
  }

  lemma ReprocessingQueues(d: Document, op: Operation)
    requires RunsOk(d.runs) && op.ReprocessOcr? && DoReprocessOcr(d, op).Some?
    ensures var queued := DoReprocessOcr(d, op).value;
      RunsOk(queued.runs) && RunIs(queued.runs, op.run, Queued) && DraftRevision(queued) == op.expected + 1
  {
    AddRun(d.runs, op.run, op.fingerprint);
    var runs := DoReprocessOcr(d, op).value.runs;
    assert runs[|d.runs|].id == op.run && runs[|d.runs|].job == Queued;
  }

  /** A reprocessed document can be reviewed again once its new run is published: the draft already belongs to that run. */
  lemma ReprocessedDraftCanBeSaved(d: Document, op: Operation, values: Values, decisions: Values, clock: Time, now: Time)
    requires Valid(d, clock) && clock < now && op.ReprocessOcr? && DoReprocessOcr(d, op).Some?
    requires var queued := DoReprocessOcr(d, op).value;
      DoCompleteOcr(queued.(runs := SetJob(queued.runs, op.run, Running)), CompleteOcr(op.run)).Some?
    ensures var queued := DoReprocessOcr(d, op).value;
      var done := DoCompleteOcr(queued.(runs := SetJob(queued.runs, op.run, Running)), CompleteOcr(op.run)).value;
      DoSaveDraft(done, SaveDraft(op.run, op.expected + 1, values, decisions)).Some?
  {
    ReprocessingQueues(d, op);
    QueuedRunPublishes(DoReprocessOcr(d, op).value.runs, op.run);
  }

  // ----- What the entries of a history look like -----

  ghost predicate HistorySensible(history: seq<Draft>) {
    forall i :: 0 <= i < |history| ==> Sensible(history[i].values, history[i].decisions)
  }

  lemma EmptyIsSensible()
    ensures Sensible(map[], map[])
  {
  }

  lemma NextEntryKeepsSensible(history: seq<Draft>, draft: Draft)
    requires HistorySensible(history) && Sensible(draft.values, draft.decisions)
    ensures HistorySensible(history + [draft])
  {
  }

  lemma KeptDraftIsSensible(d: Document, ocr: RunId)
    requires HistoryOk(d.draft, d.history) && HistorySensible(d.history)
    ensures Sensible(KeptDraft(d, ocr).values, KeptDraft(d, ocr).decisions)
  {
    EmptyIsSensible();
    if d.draft.Some? {
      assert Sensible(d.history[|d.history| - 1].values, d.history[|d.history| - 1].decisions);
    }
  }

  lemma SaveKeepsSensible(d: Document, op: Operation)
    requires HistorySensible(d.history) && op.SaveDraft? && Sensible(op.values, op.decisions) && DoSaveDraft(d, op).Some?
    ensures HistorySensible(DoSaveDraft(d, op).value.history)
  {
    NextEntryKeepsSensible(d.history, Draft(op.ocr, op.expected + 1, op.values, op.decisions));
  }

  lemma ReturnKeepsSensible(d: Document, op: Operation)
    requires HistoryOk(d.draft, d.history) && HistorySensible(d.history) && op.ReturnReview? && DoReturnReview(d, op).Some?
    ensures HistorySensible(DoReturnReview(d, op).value.history)
  {
    KeptDraftIsSensible(d, op.ocr);
    NextEntryKeepsSensible(d.history, KeptDraft(d, op.ocr));
  }

  lemma ReprocessKeepsSensible(d: Document, op: Operation)
    requires HistorySensible(d.history) && op.ReprocessOcr? && DoReprocessOcr(d, op).Some?
    ensures HistorySensible(DoReprocessOcr(d, op).value.history)
  {
    EmptyIsSensible();
    NextEntryKeepsSensible(d.history, Draft(op.run, op.expected + 1, map[], map[]));
  }

  lemma OthersKeepHistory(d: Document, op: Operation, now: Time)
    requires !op.SaveDraft? && !op.ReturnReview? && !op.ReprocessOcr? && Perform(d, op, now).Some?
    ensures Perform(d, op, now).value.history == d.history
  {
  }

  /** Every transaction keeps the entries sensible, provided that saves are. */
  lemma PerformKeepsSensible(d: Document, op: Operation, now: Time)
    requires HistoryOk(d.draft, d.history) && HistorySensible(d.history) && Perform(d, op, now).Some?
    requires op.SaveDraft? ==> Sensible(op.values, op.decisions)
    ensures HistorySensible(Perform(d, op, now).value.history)
  {
    if op.SaveDraft? {
      SaveKeepsSensible(d, op);
    } else if op.ReturnReview? {
      ReturnKeepsSensible(d, op);
    } else if op.ReprocessOcr? {
      ReprocessKeepsSensible(d, op);
    } else {
      OthersKeepHistory(d, op, now);
    }
  }

  /** The way through: a fresh document is recognized, drafted, confirmed and approved, one transaction after the other. */
  lemma FreshDocumentCanBeApproved(d: Document, run: RunId, fingerprint: nat, values: Values, decisions: Values, review: ReviewId,
                                   approval: ApprovalId, now: Time)
    returns (claimed: Document, recognized: Document, drafted: Document, confirmed: Document, approved: Document)
    requires Fresh(d) && d.runs == [OcrRun(run, fingerprint, Queued, false, false)]
    ensures Perform(d, ChangeJob(run, Queued, Running), now) == Some(claimed)
    ensures Perform(claimed, CompleteOcr(run), now) == Some(recognized)
    ensures Perform(recognized, SaveDraft(run, 0, values, decisions), now) == Some(drafted)
    ensures Perform(drafted, SaveReview(review, run, 1, FieldValues(values), 0), now) == Some(confirmed)
    ensures Perform(confirmed, Approve(approval, review, 1, 0), now) == Some(approved)
    ensures ExportableReview(approved) == Some(Review(review, run, 1, 1, FieldValues(values), false))
    ensures OpenApproval(approved.approvals) == Some(Approval(approval, review, 1, 1, false))
  {
    var r := OcrRun(run, fingerprint, Running, false, false);
    assert d.runs[0].id == run;
    claimed := d.(runs := [r]);
    assert SetJob(d.runs, run, Running) == [r];
    assert claimed.runs[0].id == run && claimed.runs[0].job == Running;
    var published := r.(job := Completed, published := true);
    recognized := claimed.(runs := [published]);
    assert Publish(claimed.runs, run) == [published];
    drafted := WithDraft(recognized, Draft(run, 1, values, decisions));
    var first := [Review(review, run, 1, 1, FieldValues(values), false)];
    assert drafted.reviews + first == first;
    confirmed := drafted.(reviews := first);
    var only := [Approval(approval, review, 1, 1, false)];
    assert confirmed.approvals + only == only;
    approved := confirmed.(approvals := only);
  }

  // ----- Which run the pages show, and which one is open -----

  lemma BothRunsStart(d: Document, early: RunId, late: RunId, f: nat, g: nat, now: Time)
    returns (retried: Document, started: Document, both: Document)
    requires Active(d) && d.runs == [OcrRun(early, f, Queued, false, false)] && early != late && f != g
    ensures Perform(d, RetryOcr(late, g), now) == Some(retried)
    ensures Perform(retried, ChangeJob(early, Queued, Running), now) == Some(started)
    ensures Perform(started, ChangeJob(late, Queued, Running), now) == Some(both)
    ensures both == d.(runs := [OcrRun(early, f, Running, false, false), OcrRun(late, g, Running, false, false)])
  {
    var queued, other := OcrRun(early, f, Queued, false, false), OcrRun(late, g, Queued, false, false);
    assert d.runs[..|d.runs| - 1] == [] && LatestRun(d.runs[..|d.runs| - 1], g) == None;
    assert d.runs[|d.runs| - 1].fingerprint == f && LatestRun(d.runs, g) == None;
    retried := d.(runs := [queued, other]);
    assert d.runs + [other] == retried.runs;
    assert retried.runs[0].id == early && retried.runs[1].id == late;
    started := d.(runs := [queued.(job := Running), other]);
    assert SetJob(retried.runs, early, Running) == started.runs;
    assert started.runs[1].id == late && started.runs[1].job == Queued;
    both := d.(runs := [queued.(job := Running), other.(job := Running)]);
    assert SetJob(started.runs, late, Running) == both.runs;
  }

  lemma LaterRunCompletesFirst(both: Document, early: RunId, late: RunId, f: nat, g: nat, now: Time)
    returns (second: Document, stuck: Document)
    requires Active(both) && early != late && f != g
    requires both.runs == [OcrRun(early, f, Running, false, false), OcrRun(late, g, Running, false, false)]
    ensures Perform(both, CompleteOcr(late), now) == Some(second)
    ensures Perform(second, CompleteOcr(early), now) == Some(stuck)
    ensures stuck == both.(runs := [OcrRun(early, f, Completed, true, false), OcrRun(late, g, Completed, true, true)])
  {
    var first, later := both.runs[0], both.runs[1];
    second := both.(runs := [first, later.(job := Completed, published := true)]);
    assert both.runs[1].id == late && both.runs[1].job == Running;
    assert Publish(both.runs, late) == second.runs;
    stuck := both.(runs := [first.(job := Completed, published := true), later.(job := Completed, published := true, superseded := true)]);
    assert second.runs[0].id == early && second.runs[0].job == Running;
    assert FingerprintOf(second.runs, early) == Some(f) by {
      assert second.runs[..1] == [first];
    }
    assert Publish(second.runs, early) == stuck.runs;
  }

  lemma LaterRunIsShown(stuck: Document, early: RunId, late: RunId, f: nat, g: nat)
    requires Active(stuck) && early != late
    requires stuck.runs == [OcrRun(early, f, Completed, true, false), OcrRun(late, g, Completed, true, true)]
    ensures ReadableRun(stuck) == Some(late) && OpenRun(stuck.runs) == Some(early)
    ensures forall expected, values, decisions :: DoSaveDraft(stuck, SaveDraft(late, expected, values, decisions)).None?
  {
    assert stuck.runs[..1] == [stuck.runs[0]];
  }

  /**
   A run that completes after a later one was completed takes its place, and the
   pages keep showing the other: a queued run, another one for new settings, both
   claimed, the second one completed and then the first.
   */
  lemma LateCompletionBlocksReview(d: Document, early: RunId, late: RunId, f: nat, g: nat, now: Time)
    returns (retried: Document, started: Document, both: Document, second: Document, stuck: Document)
    requires Fresh(d) && d.runs == [OcrRun(early, f, Queued, false, false)] && early != late && f != g
    ensures Perform(d, RetryOcr(late, g), now) == Some(retried)
    ensures Perform(retried, ChangeJob(early, Queued, Running), now) == Some(started)
    ensures Perform(started, ChangeJob(late, Queued, Running), now) == Some(both)
    ensures Perform(both, CompleteOcr(late), now) == Some(second)
    ensures Perform(second, CompleteOcr(early), now) == Some(stuck)
    ensures ReadableRun(stuck) == Some(late) && OpenRun(stuck.runs) == Some(early)
    ensures forall expected, values, decisions :: DoSaveDraft(stuck, SaveDraft(late, expected, values, decisions)).None?
  {
    retried, started, both := BothRunsStart(d, early, late, f, g, now);
    second, stuck := LaterRunCompletesFirst(both, early, late, f, g, now);
    LaterRunIsShown(stuck, early, late, f, g);
  }
}
