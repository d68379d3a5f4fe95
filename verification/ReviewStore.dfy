/**
 The store behind the review pages: every transaction as a method that updates
 the rows of one document, and the confirm handler around `SaveReview`, with
 other requests running between its reads and its commit.
 */
module ReviewStore {
  import opened Common
  import opened Review
  import opened ReviewInvariants
  import opened ReviewRuns
  import opened ConfirmedValues
  import opened Text
  import Validation

  predicate Accepted(documents: map<DocumentId, Document>, id: DocumentId, op: Operation, now: Time) {
    id in documents && Perform(documents[id], op, now).Some?
  }

  /** The tables after one transaction. */
  function Performed(documents: map<DocumentId, Document>, id: DocumentId, op: Operation, now: Time): map<DocumentId, Document> {
    if Accepted(documents, id, op, now) then documents[id := Perform(documents[id], op, now).value] else documents
  }

  class Store {
    var documents: map<DocumentId, Document>

    constructor ()
      ensures documents == map[]
    {
      documents := map[];
    }

    method SaveDraft(id: DocumentId, ocr: RunId, expected: nat, values: Values, decisions: Values, now: Time) returns (revision: Option<nat>)
      modifies this
      ensures documents == Performed(old(documents), id, Operation.SaveDraft(ocr, expected, values, decisions), now)
      ensures revision == if documents == old(documents) then None else Some(expected + 1)
    {
      if id !in documents || !Active(documents[id]) {
        return None;
      }
      var d := documents[id];
      if OpenRun(d.runs) != Some(ocr) {
        return None;
      }
      var current := DraftRevision(d);
      if current != expected {
        return None;
      }
      var draft := Draft(ocr, current + 1, values, decisions);
      d := d.(draft := Some(draft));
      d := d.(history := d.history + [draft]);
      assert |d.history| != |documents[id].history|;
      documents := documents[id := d];
      revision := Some(draft.revision);
    }

    method ReturnReview(id: DocumentId, ocr: RunId, expectedReview: nat, expected: nat, now: Time) returns (revision: Option<nat>)
      modifies this
      ensures documents == Performed(old(documents), id, Operation.ReturnReview(ocr, expectedReview, expected), now)
      ensures revision == if documents == old(documents) then None else Some(expected + 1)
    {
      if id !in documents || !Active(documents[id]) {
        return None;
      }
      var d := documents[id];
      var review := OpenReview(d.reviews);
      if (if review.Some? then review.value.revision else 0) != expectedReview || (review.Some? && review.value.ocr != ocr) {
        return None;
      }
      if OpenRun(d.runs) != Some(ocr) {
        return None;
      }
      if DraftRevision(d) != expected {
        return None;
      }
      var next := expected + 1;
      if d.draft.None? {
        d := d.(draft := Some(Draft(ocr, next, map[], map[])));
      } else {
        var same := d.draft.value.ocr == ocr;
        d := d.(draft := Some(Draft(ocr, next, if same then d.draft.value.values else map[], if same then d.draft.value.decisions else map[])));
      }
      d := d.(history := d.history + [d.draft.value]);
      assert |d.history| != |documents[id].history|;
      documents := documents[id := d];
      revision := Some(next);
    }

    method ReprocessOcr(id: DocumentId, ocr: RunId, expected: nat, run: RunId, fingerprint: nat, now: Time) returns (queued: bool)
      modifies this
      ensures documents == Performed(old(documents), id, Operation.ReprocessOcr(ocr, expected, run, fingerprint), now)
      ensures queued <==> documents != old(documents)
    {
      if id !in documents || !Active(documents[id]) {
        return false;
      }
      var d := documents[id];
      if OpenRun(d.runs) != Some(ocr) || Pending(d.runs) || HasRun(d.runs, run) {
        return false;
      }
      d := d.(runs := d.runs + [OcrRun(run, fingerprint, Queued, false, false)]);
      if DraftRevision(d) != expected {
        return false;
      }
      d := d.(draft := Some(Draft(run, expected + 1, map[], map[])));
      d := d.(history := d.history + [d.draft.value]);
      assert |d.history| != |documents[id].history|;
      documents := documents[id := d];
      queued := true;
    }

    method RetryOcr(id: DocumentId, run: RunId, fingerprint: nat, now: Time) returns (queued: bool)
      modifies this
      ensures documents == Performed(old(documents), id, Operation.RetryOcr(run, fingerprint), now)
      ensures queued <==> documents != old(documents)
    {
      if id !in documents || !Active(documents[id]) || HasRun(documents[id].runs, run) {
        return false;
      }
      var d := documents[id];
      var previous := LatestRun(d.runs, fingerprint);
      if previous.Some? && (previous.value.job == Queued || previous.value.job == Running || previous.value.job == Completed) {
        return false;
      }
      d := d.(runs := d.runs + [OcrRun(run, fingerprint, Queued, false, false)]);
      assert |d.runs| != |documents[id].runs|;
      documents := documents[id := d];
      queued := true;
    }

    /** Publishes a result: the open run is superseded before this one is published. */
    method CompleteOcr(id: DocumentId, run: RunId, now: Time) returns (published: bool)
      modifies this
      ensures documents == Performed(old(documents), id, Operation.CompleteOcr(run), now)
      ensures published <==> Accepted(old(documents), id, Operation.CompleteOcr(run), now)
    {
      if id !in documents || !Active(documents[id]) || !RunIs(documents[id].runs, run, Running) {
        return false;
      }
      var d := documents[id];
      var fingerprint := FingerprintOf(d.runs, run);
      if fingerprint.None? || Published(d.runs, fingerprint.value) {
        return false;
      }
      var runs := seq(|d.runs|, i requires 0 <= i < |d.runs| => SupersedeRun(d.runs[i]));
      runs := seq(|runs|, i requires 0 <= i < |runs| => if runs[i].id == run then runs[i].(published := true) else runs[i]);
      runs := seq(|runs|, i requires 0 <= i < |runs| => if runs[i].id == run then runs[i].(job := Completed) else runs[i]);
      assert runs == Publish(d.runs, run);
      documents := documents[id := d.(runs := runs)];
      published := true;
    }

    method SaveReview(id: DocumentId, review: ReviewId, ocr: RunId, draftRevision: nat, values: Values, expected: nat, now: Time)
      returns (revision: Option<nat>)
      modifies this
      ensures documents == Performed(old(documents), id, Operation.SaveReview(review, ocr, draftRevision, values, expected), now)
      ensures revision == if Accepted(old(documents), id, Operation.SaveReview(review, ocr, draftRevision, values, expected), now) then Some(expected + 1) else None
    {
      if id !in documents || !Active(documents[id]) {
        return None;
      }
      var d := documents[id];
      if OpenRun(d.runs) != Some(ocr) {
        return None;
      }
      if draftRevision > 0 {
        if d.draft.None? || d.draft.value.revision != draftRevision || d.draft.value.ocr != ocr {
          return None;
        }
      }
      var previous := OpenReview(d.reviews);
      var current := if previous.Some? then previous.value.revision else 0;
      if current != expected || HasReview(d.reviews, review) {
        return None;
      }
      if previous.Some? {
        d := d.(reviews := SupersedeReview(d.reviews, previous.value.id));
      }
      d := d.(reviews := d.reviews + [Review(review, ocr, current + 1, draftRevision, values, false)]);
      documents := documents[id := d];
      revision := Some(current + 1);
    }

    /** The review half of `Approve`; rules and categories are in module Accounting. */
    method Approve(id: DocumentId, approval: ApprovalId, review: ReviewId, reviewRevision: nat, expected: nat, now: Time)
      returns (revision: Option<nat>)
      modifies this
      ensures documents == Performed(old(documents), id, Operation.Approve(approval, review, reviewRevision, expected), now)
      ensures revision == if Accepted(old(documents), id, Operation.Approve(approval, review, reviewRevision, expected), now) then Some(expected + 1) else None
    {
      if id !in documents || !Active(documents[id]) {
        return None;
      }
      var d := documents[id];
      var current := ExportableReview(d);
      if current.None? || current.value.id != review || current.value.revision != reviewRevision {
        return None;
      }
      var prior := OpenApproval(d.approvals);
      var priorRevision := if prior.Some? then prior.value.revision else 0;
      if priorRevision != expected || HasApproval(d.approvals, approval) {
        return None;
      }
      if prior.Some? {
        d := d.(approvals := SupersedeApproval(d.approvals, prior.value.id));
      }
      d := d.(approvals := d.approvals + [Approval(approval, review, reviewRevision, priorRevision + 1, false)]);
      documents := documents[id := d];
      revision := Some(priorRevision + 1);
    }

    method ChangeDocumentStatus(id: DocumentId, action: Action, now: Time) returns (changed: bool)
      modifies this
      ensures documents == Performed(old(documents), id, Operation.ChangeStatus(action), now)
      ensures changed <==> Accepted(old(documents), id, Operation.ChangeStatus(action), now)
    {
      if id !in documents {
        return false;
      }
      var d := documents[id];
      var allowed := match action
        case Archive => d.status == Available
        case MoveToTrash => Active(d)
        case Restore => d.status == Trash && d.trashedAt.Some? && d.trashedAt.value + RESTORE_WINDOW > now;
      if !allowed {
        return false;
      }
      d := d.(status := match action case Archive => Archived case MoveToTrash => Trash case Restore => Available);
      d := d.(trashedAt := if action == MoveToTrash then Some(now) else None);
      d := d.(updatedAt := now);
      if action == MoveToTrash {
        d := d.(runs := CancelQueued(d.runs));
      }
      documents := documents[id := d];
      changed := true;
    }
  }

  /** A step of another request, and how long it took after the one before. */
  datatype Other = Other(step: Step, wait: nat)

  lemma GrowthOfAllComposes(a: map<DocumentId, Document>, b: map<DocumentId, Document>, c: map<DocumentId, Document>)
    requires AllGrow(a, b) && AllGrow(b, c)
    ensures AllGrow(a, c)
  {
    forall id | id in a
      ensures id in c && Grows(a[id], c[id])
    {
      GrowthComposes(a[id], b[id], c[id]);
    }
  }

  predicate FieldAsSaved(saved: Draft, values: Values, decisions: Values, field: string) {
    Lookup(values, field) == Lookup(saved.values, field) && Lookup(decisions, field) == Lookup(saved.decisions, field)
  }

  predicate SubmittedAsSaved(fields: seq<string>, saved: Draft, values: Values, decisions: Values) {
    forall i :: 0 <= i < |fields| ==> FieldAsSaved(saved, values, decisions, fields[i])
  }

  /** The review is current, and it is the draft: same run, latest revision, its values, all decided. */
  ghost predicate Confirmed(d: Document, ocr: RunId, revision: nat, review: ReviewId) {
    && ExportableReview(d).Some? && d.draft.Some? && OpenRun(d.runs) == Some(ocr)
    && var r, draft := ExportableReview(d).value, d.draft.value;
    && r.id == review && r.ocr == draft.ocr == ocr && r.draftRevision == draft.revision == revision == |d.history|
    && Saved(d.history, ocr, revision, r.values)
  }

  lemma SavedReviewIsConfirmed(d: Document, op: Operation, clock: Time)
    requires Valid(d, clock) && op.SaveReview? && Backed(d, op) && DoSaveReview(d, op).Some?
    ensures Confirmed(DoSaveReview(d, op).value, op.ocr, op.draftRevision, op.review)
  {
    SavedReviewConfirmsDraft(d, op, clock, clock + 1);
    SaveReviewFacts(d, op);
  }

  /** The commit of a confirm handler keeps the invariant, and confirms the draft. */
  lemma CommitConfirms(documents: map<DocumentId, Document>, requests: map<RequestId, Request>, id: DocumentId, op: Operation, clock: Time, now: Time)
    requires Invariant(State(documents, requests, clock)) && clock < now && id in documents && op.SaveReview? && Backed(documents[id], op)
    ensures Invariant(State(Performed(documents, id, op, now), requests, now))
    ensures Accepted(documents, id, op, now) ==> Confirmed(Performed(documents, id, op, now)[id], op.ocr, op.draftRevision, op.review)
  {
    var s := State(documents, requests, clock);
    if DoSaveReview(documents[id], op).Some? {
      OperationKeeps(s, id, op, now);
      SavedReviewIsConfirmed(documents[id], op, clock);
    } else {
      UntouchedDocuments(documents, clock, now);
    }
  }

  /** The trimmed text that a form submits for each field. */
  type Form = string -> string

  function Submitted(values: Values): Form {
    field => TrimSpace(Lookup(values, field))
  }

  /** What the form submits for one field, against what extraction proposes for it. */
  predicate FieldAdmitted(proposal: Values, form: Form, decisions: Values, field: string) {
    && FieldSensible(form(field), Lookup(decisions, field))
    && (Lookup(decisions, field) == "accepted" ==> form(field) == Lookup(proposal, field))
  }

  predicate FormAdmitted(fields: seq<string>, proposal: Values, form: Form, decisions: Values) {
    forall i :: 0 <= i < |fields| ==> FieldAdmitted(proposal, form, decisions, fields[i])
  }

  /** The collected drafts hold, per field, the submitted text and the decision, and nothing else. */
  ghost predicate Collected(fields: seq<string>, values: Values, decisions: Values, form: Form, chosen: Values) {
    && (forall field :: field in values <==> field in fields) && decisions.Keys == values.Keys
    && forall field :: field in fields ==> values[field] == form(field) && decisions[field] == Lookup(chosen, field)
  }

  lemma CollectsMore(fields: seq<string>, field: string, values: Values, decisions: Values, form: Form, chosen: Values)
    requires Collected(fields, values, decisions, form, chosen)
    ensures Collected(fields + [field], values[field := form(field)], decisions[field := Lookup(chosen, field)], form, chosen)
  {
  }

  lemma AdmitsMore(fields: seq<string>, field: string, proposal: Values, form: Form, chosen: Values)
    ensures FormAdmitted(fields + [field], proposal, form, chosen) <==>
      FormAdmitted(fields, proposal, form, chosen) && FieldAdmitted(proposal, form, chosen, field)
  {
    var more := fields + [field];
    assert more[|fields|] == field && forall i :: 0 <= i < |fields| ==> more[i] == fields[i];
  }

  lemma CollectedIsSensible(fields: seq<string>, values: Values, decisions: Values, proposal: Values, form: Form, chosen: Values)
    requires Collected(fields, values, decisions, form, chosen) && FormAdmitted(fields, proposal, form, chosen)
    ensures AllSensible(fields, values, decisions) && AcceptedAsProposed(fields, values, decisions, proposal)
  {
    forall i | 0 <= i < |fields|
      ensures FieldSensible(Lookup(values, fields[i]), Lookup(decisions, fields[i]))
      ensures Lookup(decisions, fields[i]) == "accepted" ==> Lookup(values, fields[i]) == Lookup(proposal, fields[i])
    {
      assert FieldAdmitted(proposal, form, chosen, fields[i]);
      assert fields[i] in fields;
    }
  }

  /** Every accepted field holds the proposed value. */
  ghost predicate AcceptedAsProposed(fields: seq<string>, values: Values, decisions: Values, proposal: Values) {
    forall i :: 0 <= i < |fields| && Lookup(decisions, fields[i]) == "accepted" ==> Lookup(values, fields[i]) == Lookup(proposal, fields[i])
  }

  /** The draft head is a sensible draft of the open run in which accepted fields hold that run's proposals. */
  ghost predicate SavedFromForm(d: Document, ocr: RunId, revision: nat, proposal: Values) {
    && d.draft.Some? && d.draft.value.ocr == ocr && d.draft.value.revision == revision == |d.history| && OpenRun(d.runs) == Some(ocr)
    && Sensible(d.draft.value.values, d.draft.value.decisions)
    && AcceptedAsProposed(FIELDS, d.draft.value.values, d.draft.value.decisions, proposal)
  }

  lemma SavedDraftIsFromForm(d: Document, op: Operation, proposal: Values)
    requires HistoryOk(d.draft, d.history) && op.SaveDraft? && DoSaveDraft(d, op).Some?
    requires Sensible(op.values, op.decisions) && AcceptedAsProposed(FIELDS, op.values, op.decisions, proposal)
    ensures SavedFromForm(DoSaveDraft(d, op).value, op.ocr, op.expected + 1, proposal)
  {
    DraftIsLast(d);
  }

  /** The commit of a save keeps the invariant, and saves what the form said. */
  lemma SaveCommits(documents: map<DocumentId, Document>, requests: map<RequestId, Request>, id: DocumentId, op: Operation, proposal: Values, clock: Time, now: Time)
    requires Invariant(State(documents, requests, clock)) && clock < now && id in documents && op.SaveDraft?
    requires Sensible(op.values, op.decisions) && AcceptedAsProposed(FIELDS, op.values, op.decisions, proposal)
    ensures Invariant(State(Performed(documents, id, op, now), requests, now))
    ensures DoSaveDraft(documents[id], op).Some? ==> SavedFromForm(Performed(documents, id, op, now)[id], op.ocr, op.expected + 1, proposal)
  {
    if DoSaveDraft(documents[id], op).Some? {
      assert Valid(documents[id], clock);
      OperationKeeps(State(documents, requests, clock), id, op, now);
      SavedDraftIsFromForm(documents[id], op, proposal);
    } else {
      UntouchedDocuments(documents, clock, now);
    }
  }

  lemma RestrictsMore(fields: seq<string>, field: string, values: Values)
    ensures Restricted(fields + [field], values) == Restricted(fields, values)[field := Lookup(values, field)]
  {
    var more := fields + [field];
    assert more[|fields|] == field && forall i :: 0 <= i < |fields| ==> more[i] == fields[i];
  }

  lemma DecidesMore(fields: seq<string>, field: string, decisions: Values)
    ensures AllDecided(fields + [field], decisions) <==> AllDecided(fields, decisions) && FieldDecided(decisions, field)
  {
    var more := fields + [field];
    assert more[|fields|] == field && forall i :: 0 <= i < |fields| ==> more[i] == fields[i];
  }

  lemma SubmitsMore(fields: seq<string>, field: string, saved: Draft, values: Values, decisions: Values)
    ensures SubmittedAsSaved(fields + [field], saved, values, decisions) <==>
      SubmittedAsSaved(fields, saved, values, decisions) && FieldAsSaved(saved, values, decisions, field)
  {
    var more := fields + [field];
    assert more[|fields|] == field && forall i :: 0 <= i < |fields| ==> more[i] == fields[i];
  }

  lemma OneMoreField(fields: seq<string>, field: string, saved: Draft, values: Values, decisions: Values)
    ensures Restricted(fields + [field], saved.values) == Restricted(fields, saved.values)[field := Lookup(saved.values, field)]
    ensures AllDecided(fields + [field], saved.decisions) <==> AllDecided(fields, saved.decisions) && FieldDecided(saved.decisions, field)
    ensures SubmittedAsSaved(fields + [field], saved, values, decisions) <==>
      SubmittedAsSaved(fields, saved, values, decisions) && FieldAsSaved(saved, values, decisions, field)
  {
    RestrictsMore(fields, field, saved.values);
    DecidesMore(fields, field, saved.decisions);
    SubmitsMore(fields, field, saved, values, decisions);
  }

  lemma UndecidedPrefix(fields: seq<string>, i: nat, saved: Draft, values: Values, decisions: Values)
    requires i < |fields|
    requires !FieldDecided(saved.decisions, fields[i]) || !FieldAsSaved(saved, values, decisions, fields[i])
    ensures !AllDecided(fields, saved.decisions) || !SubmittedAsSaved(fields, saved, values, decisions)
  {
  }

  lemma DraftIsSaved(d: Document, clock: Time)
    requires Valid(d, clock) && d.draft.Some? && Decided(d.draft.value.decisions)
    ensures Saved(d.history, d.draft.value.ocr, d.draft.value.revision, FieldValues(d.draft.value.values))
  {
  }

  // ----- The stored objects of reviews -----

  /** The review has its object, with its values, and the validator accepts them. */
  ghost function Backing(accepts: Accepts, objects: map<ReviewId, Values>): Judge {
    (id: ReviewId, ocr: RunId, values: Values) => id in objects && objects[id] == values && accepts(ocr, values)
  }

  ghost function NotCalled(review: ReviewId): Judge {
    (id: ReviewId, ocr: RunId, values: Values) => id != review
  }

  /** One of the requests confirms under this id. */
  ghost predicate Draws(others: seq<Other>, review: ReviewId) {
    exists i :: 0 <= i < |others| && others[i].step.Confirm? && others[i].step.review == review
  }

  /** What other requests leave alone: an id that none of them draws. */
  ghost predicate Untouched(objects: map<ReviewId, Values>, objects': map<ReviewId, Values>, documents: map<DocumentId, Document>,
                            documents': map<DocumentId, Document>, review: ReviewId) {
    && (review in objects <==> review in objects') && (review in objects ==> objects'[review] == objects[review])
    && (AllJudged(documents, NotCalled(review)) ==> AllJudged(documents', NotCalled(review)))
  }

  lemma MoreObjectsBack(accepts: Accepts, documents: map<DocumentId, Document>, objects: map<ReviewId, Values>, more: map<ReviewId, Values>)
    requires AllJudged(documents, Backing(accepts, objects))
    requires forall id :: id in objects ==> id in more && more[id] == objects[id]
    ensures AllJudged(documents, Backing(accepts, more))
  {
    WeakerJudge(documents, Backing(accepts, objects), Backing(accepts, more));
  }

  lemma WithoutObjectIsNotNamed(accepts: Accepts, documents: map<DocumentId, Document>, objects: map<ReviewId, Values>, review: ReviewId)
    requires AllJudged(documents, Backing(accepts, objects)) && review !in objects
    ensures AllJudged(documents, NotCalled(review))
  {
    WeakerJudge(documents, Backing(accepts, objects), NotCalled(review));
  }

  /** Deleting an object that no review names. */
  lemma DeletionLeavesBacking(accepts: Accepts, documents: map<DocumentId, Document>, objects: map<ReviewId, Values>, review: ReviewId)
    requires AllJudged(documents, Backing(accepts, objects)) && AllJudged(documents, NotCalled(review))
    ensures AllJudged(documents, Backing(accepts, objects - {review}))
  {
    forall id | id in documents
      ensures Judged(documents[id].reviews, Backing(accepts, objects - {review}))
    {
      assert Judged(documents[id].reviews, Backing(accepts, objects)) && Judged(documents[id].reviews, NotCalled(review));
    }
  }

  lemma SaveKeepsReviews(documents: map<DocumentId, Document>, id: DocumentId, op: Operation, now: Time, judge: Judge)
    requires AllJudged(documents, judge) && !op.SaveReview?
    ensures AllJudged(Performed(documents, id, op, now), judge)
  {
    if Accepted(documents, id, op, now) {
      OnlyConfirmationAddsReviews(documents[id], op, now);
      assert Judged(documents[id].reviews, judge);
      OneDocumentJudged(documents, id, Perform(documents[id], op, now).value, judge);
    }
  }

  lemma CommitIsJudged(documents: map<DocumentId, Document>, id: DocumentId, op: Operation, clock: Time, now: Time, judge: Judge)
    requires AllValid(documents, clock) && AllJudged(documents, judge) && op.SaveReview? && judge(op.review, op.ocr, op.values)
    ensures AllJudged(Performed(documents, id, op, now), judge)
  {
    if Accepted(documents, id, op, now) {
      assert Judged(documents[id].reviews, judge);
      ConfirmationJudged(documents[id], op, clock, judge);
      OneDocumentJudged(documents, id, Perform(documents[id], op, now).value, judge);
    }
  }

  lemma ExportableIsJudged(documents: map<DocumentId, Document>, id: DocumentId, clock: Time, judge: Judge)
    requires AllValid(documents, clock) && AllJudged(documents, judge) && id in documents && ExportableReview(documents[id]).Some?
    ensures var r := ExportableReview(documents[id]).value; judge(r.id, r.ocr, r.values)
  {
    OpenReviewIsLast(documents[id].reviews);
    assert Judged(documents[id].reviews, judge);
  }

  /** Every review has its object and acceptable values. */
  ghost predicate SoundState(s: State, accepts: Accepts, objects: map<ReviewId, Values>) {
    Invariant(s) && AllJudged(s.documents, Backing(accepts, objects))
  }

  /** The review is current, it is the draft, and holds what its object holds, which the validator accepts. */
  ghost predicate SoundlyConfirmed(accepts: Accepts, objects: map<ReviewId, Values>, d: Document, ocr: RunId, revision: nat, review: ReviewId) {
    && Confirmed(d, ocr, revision, review)
    && review in objects && ExportableReview(d).value.values == objects[review] && accepts(ocr, objects[review])
  }

  lemma CommitIsSound(s: State, accepts: Accepts, objects: map<ReviewId, Values>, id: DocumentId, op: Operation, now: Time)
    requires SoundState(s, accepts, objects) && s.clock < now && id in s.documents && op.SaveReview? && Backed(s.documents[id], op)
    requires op.review in objects && objects[op.review] == op.values && accepts(op.ocr, op.values)
    ensures SoundState(State(Performed(s.documents, id, op, now), s.requests, now), accepts, objects)
    ensures Accepted(s.documents, id, op, now) ==>
      SoundlyConfirmed(accepts, objects, Performed(s.documents, id, op, now)[id], op.ocr, op.draftRevision, op.review)
  {
    CommitConfirms(s.documents, s.requests, id, op, s.clock, now);
    CommitIsJudged(s.documents, id, op, s.clock, now, Backing(accepts, objects));
    if Accepted(s.documents, id, op, now) {
      ExportableIsJudged(Performed(s.documents, id, op, now), id, now, Backing(accepts, objects));
    }
  }

  lemma SaveIsSound(s: State, accepts: Accepts, objects: map<ReviewId, Values>, id: DocumentId, op: Operation, proposal: Values, now: Time)
    requires SoundState(s, accepts, objects) && s.clock < now && id in s.documents && op.SaveDraft?
    requires Sensible(op.values, op.decisions) && AcceptedAsProposed(FIELDS, op.values, op.decisions, proposal)
    ensures SoundState(State(Performed(s.documents, id, op, now), s.requests, now), accepts, objects)
    ensures DoSaveDraft(s.documents[id], op).Some? ==>
      SavedFromForm(Performed(s.documents, id, op, now)[id], op.ocr, op.expected + 1, proposal)
  {
    SaveCommits(s.documents, s.requests, id, op, proposal, s.clock, now);
    SaveKeepsReviews(s.documents, id, op, now, Backing(accepts, objects));
  }

  /** Another request's step, after its object was stored if it confirms. */
  lemma OtherIsSound(s: State, accepts: Accepts, had: map<ReviewId, Values>, objects: map<ReviewId, Values>, step: Step, t: State)
    requires SoundState(s, accepts, had) && Next(s, step, t) && Confirms(s, step, Backing(accepts, objects))
    requires forall id :: id in had ==> id in objects && objects[id] == had[id]
    ensures SoundState(t, accepts, objects) && AllGrow(s.documents, t.documents)
  {
    MoreObjectsBack(accepts, s.documents, had, objects);
    StepKeepsInvariant(s, step, t);
    StepKeepsJudged(s, step, t, Backing(accepts, objects));
  }

  lemma OtherLeavesAlone(s: State, step: Step, t: State, review: ReviewId)
    requires Invariant(s) && Next(s, step, t) && (step.Confirm? ==> step.review != review)
    ensures AllJudged(s.documents, NotCalled(review)) ==> AllJudged(t.documents, NotCalled(review))
  {
    if AllJudged(s.documents, NotCalled(review)) {
      StepKeepsJudged(s, step, t, NotCalled(review));
    }
  }

  /** A step of another request leaves every review alone that it does not draw. */
  lemma OtherLeavesUndrawn(s: State, other: Other, step: Step, t: State, had: map<ReviewId, Values>, objects: map<ReviewId, Values>)
    requires Invariant(s) && Next(s, step, t) && (step.Confirm? ==> step == other.step)
    requires forall id :: id in had ==> id in objects && objects[id] == had[id]
    requires forall id :: id in objects && id !in had ==> other.step.Confirm? && other.step.review == id
    ensures forall review :: !Draws([other], review) ==> Untouched(had, objects, s.documents, t.documents, review)
  {
    forall review | !Draws([other], review)
      ensures Untouched(had, objects, s.documents, t.documents, review)
    {
      assert [other][0] == other;
      OtherLeavesAlone(s, step, t, review);
    }
  }

  lemma ClockIsSet(s: State, step: Step, now: Time)
    ensures Apply(s, step, now).clock == now
  {
  }

  lemma OtherStep(s: State, accepts: Accepts, had: map<ReviewId, Values>, objects: map<ReviewId, Values>, other: Other, step: Step, now: Time, t: State)
    requires SoundState(s, accepts, had) && s.clock < now && t == Apply(s, step, now)
    requires Legal(step) && (step.Confirm? ==> step == other.step) && Confirms(s, step, Backing(accepts, objects))
    requires forall id :: id in had ==> id in objects && objects[id] == had[id]
    requires forall id :: id in objects && id !in had ==> other.step.Confirm? && other.step.review == id
    ensures SoundState(t, accepts, objects) && AllGrow(s.documents, t.documents)
    ensures forall review :: !Draws([other], review) ==> Untouched(had, objects, s.documents, t.documents, review)
  {
    ClockIsSet(s, step, now);
    OtherIsSound(s, accepts, had, objects, step, t);
    OtherLeavesUndrawn(s, other, step, t, had, objects);
  }

  lemma ObjectStoredIsSound(s: State, accepts: Accepts, objects: map<ReviewId, Values>, review: ReviewId, values: Values)
    requires SoundState(s, accepts, objects) && review !in objects
    ensures SoundState(s, accepts, objects[review := values]) && AllJudged(s.documents, NotCalled(review))
  {
    WithoutObjectIsNotNamed(accepts, s.documents, objects, review);
    MoreObjectsBack(accepts, s.documents, objects, objects[review := values]);
  }

  /** The handlers, over the store, the objects of reviews and the requests of all others. */
  class Server {
    const store: Store
    const types: Types
    ghost const accepts: Accepts
    var objects: map<ReviewId, Values>
    var requests: map<RequestId, Request>
    var clock: Time

    ghost function Now(): State
      reads this, store
    {
      State(store.documents, requests, clock)
    }

    ghost predicate Sound()
      reads this, store
    {
      Validates(types, accepts) && SoundState(Now(), accepts, objects)
    }

    constructor (types: Types)
      ensures Sound() && this.types == types && fresh(store)
    {
      this.types := types;
      accepts := (ocr: RunId, values: Values) => Acceptable(types, ocr, values);
      objects, requests, clock := map[], map[], 0;
      store := new Store();
    }

    /** `ValidateReview` for the document type of the run. */
    method Validate(ocr: RunId, values: Values) returns (accepted: bool)
      requires Validates(types, accepts)
      ensures accepted <==> accepts(ocr, values)
    {
      var refused := Validation.ValidateReview(types(ocr), Keyed(values));
      accepted := refused.None?;
      assert accepted <==> Acceptable(types, ocr, values);
    }

    /** What validation makes of the confirmation of another request; random ids are not drawn twice. */
    method Screen(step: Step) returns (screened: Step)
      requires Legal(step) && Validates(types, accepts)
      modifies this`objects
      ensures Legal(screened) && (screened.Confirm? ==> screened == step)
      ensures forall id :: id in old(objects) ==> id in objects && objects[id] == old(objects)[id]
      ensures forall id :: id in objects && id !in old(objects) ==> step.Confirm? && step.review == id
      ensures Confirms(Now(), screened, Backing(accepts, objects))
    {
      if !step.Confirm? || step.request !in requests || !requests[step.request].DraftRead? {
        return step;
      }
      var r := requests[step.request];
      var accepted := Validate(r.ocr, r.values);
      if !accepted || step.review in objects {
        return Abandon(step.request);
      }
      objects := objects[step.review := r.values];
      screened := step;
    }

    /** A step of another request. */
    method Other(other: Other)
      requires Sound() && Legal(other.step)
      modifies this, store
      ensures Sound() && AllGrow(old(store.documents), store.documents)
      ensures forall review :: !Draws([other], review) ==>
        Untouched(old(objects), objects, old(store.documents), store.documents, review)
    {
      ghost var s, had := Now(), objects;
      var now := clock + 1 + other.wait;
      var step := Screen(other.step);
      OtherStep(s, accepts, had, objects, other, step, now, Apply(s, step, now));
      Advance(step, now);
    }

    /** The step itself. */
    method Advance(step: Step, now: Time)
      modifies this`requests, this`clock, store
      ensures Now() == Apply(old(Now()), step, now)
    {
      var t := Apply(State(store.documents, requests, clock), step, now);
      store.documents, requests, clock := t.documents, t.requests, t.clock;
    }

    /** Any number of steps of other requests. */
    method Others(others: seq<Other>)
      requires Sound() && forall i :: 0 <= i < |others| ==> Legal(others[i].step)
      modifies this, store
      ensures Sound() && AllGrow(old(store.documents), store.documents)
      ensures forall review :: !Draws(others, review) ==>
        Untouched(old(objects), objects, old(store.documents), store.documents, review)
    {
      ghost var before := store.documents;
      UntouchedDocuments(before, clock, clock + 1);
      for i := 0 to |others|
        invariant Sound() && AllGrow(before, store.documents)
        invariant forall review :: !Draws(others, review) ==> Untouched(old(objects), objects, before, store.documents, review)
      {
        ghost var middle := store.documents;
        Other(others[i]);
        GrowthOfAllComposes(before, middle, store.documents);
        forall review | !Draws(others, review)
          ensures !Draws([others[i]], review)
        {
        }
      }
    }

    /** The field loop of `saveExtractionDraft`. */
    method CollectDraft(fields: seq<string>, proposal: Values, form: Form, chosen: Values) returns (values: Values, decisions: Values, ok: bool)
      ensures ok <==> FormAdmitted(fields, proposal, form, chosen)
      ensures ok ==> Collected(fields, values, decisions, form, chosen)
    {
      values, decisions := map[], map[];
      for i := 0 to |fields|
        invariant FormAdmitted(fields[..i], proposal, form, chosen) && Collected(fields[..i], values, decisions, form, chosen)
      {
        var field := fields[i];
        assert fields[..i + 1] == fields[..i] + [field];
        AdmitsMore(fields[..i], field, proposal, form, chosen);
        if !FieldAdmitted(proposal, form, chosen, field) {
          return values, decisions, false;
        }
        CollectsMore(fields[..i], field, values, decisions, form, chosen);
        values, decisions := values[field := form(field)], decisions[field := Lookup(chosen, field)];
      }
      assert fields[..|fields|] == fields;
      ok := true;
    }

    /**
     `saveExtractionDraft`: the run and its proposal are read, the form is
     checked, and the draft is saved later. What is saved is a sensible draft of
     the run that is published at the save, and accepted values are its proposals.
     */
    method SaveExtractionDraft(id: DocumentId, ocr: RunId, proposal: Values, form: Values, chosen: Values, expected: nat, others: seq<Other>)
      returns (saved: Option<nat>)
      requires Sound() && forall i :: 0 <= i < |others| ==> Legal(others[i].step)
      modifies this, store
      ensures Sound()
      ensures saved.Some? ==> saved == Some(expected + 1) && id in store.documents && SavedFromForm(store.documents[id], ocr, expected + 1, proposal)
    {
      if id !in store.documents || ReadableRun(store.documents[id]) != Some(ocr) {
        return None;
      }
      var values, decisions, ok := CollectDraft(FIELDS, proposal, Submitted(form), chosen);
      if !ok {
        return None;
      }
      CollectedIsSensible(FIELDS, values, decisions, proposal, Submitted(form), chosen);
      Others(others);
      saved := SaveAdmitted(id, ocr, proposal, values, decisions, expected);
    }

    /** The save of an admitted draft. */
    method SaveAdmitted(id: DocumentId, ocr: RunId, ghost proposal: Values, values: Values, decisions: Values, expected: nat)
      returns (saved: Option<nat>)
      requires Sound() && id in store.documents && Sensible(values, decisions) && AcceptedAsProposed(FIELDS, values, decisions, proposal)
      modifies this, store
      ensures Sound()
      ensures saved.Some? ==> saved == Some(expected + 1) && id in store.documents && SavedFromForm(store.documents[id], ocr, expected + 1, proposal)
    {
      ghost var s := Now();
      clock := clock + 1;
      SaveIsSound(s, accepts, objects, id, SaveDraft(ocr, expected, values, decisions), proposal, clock);
      saved := store.SaveDraft(id, ocr, expected, values, decisions, clock);
    }

    /** The field loop of the handler: every field decided, and submitted as it was saved. */
    method CollectValues(fields: seq<string>, saved: Draft, values: Values, decisions: Values) returns (collected: Option<Values>)
      ensures collected.Some? <==> AllDecided(fields, saved.decisions) && SubmittedAsSaved(fields, saved, values, decisions)
      ensures collected.Some? ==> collected.value == Restricted(fields, saved.values)
    {
      var result: Values := map[];
      for i := 0 to |fields|
        invariant result == Restricted(fields[..i], saved.values)
        invariant AllDecided(fields[..i], saved.decisions) && SubmittedAsSaved(fields[..i], saved, values, decisions)
      {
        var field := fields[i];
        assert fields[..i + 1] == fields[..i] + [field];
        OneMoreField(fields[..i], field, saved, values, decisions);
        if !FieldDecided(saved.decisions, field) {
          UndecidedPrefix(fields, i, saved, values, decisions);
          return None;
        }
        if !FieldAsSaved(saved, values, decisions, field) {
          UndecidedPrefix(fields, i, saved, values, decisions);
          return None;
        }
        result := result[field := Lookup(saved.values, field)];
      }
      assert fields[..|fields|] == fields;
      collected := Some(result);
    }

    /** The reads of the handler, with other requests between the run and the draft. */
    method ReadSaved(id: DocumentId, ocr: RunId, revision: nat, values: Values, decisions: Values, others: seq<Other>)
      returns (collected: Option<Values>)
      requires Sound() && forall i :: 0 <= i < |others| ==> Legal(others[i].step)
      modifies this, store
      ensures Sound()
      ensures forall review :: !Draws(others, review) && review !in old(objects) ==> review !in objects
      ensures collected.Some? ==> id in store.documents && Saved(store.documents[id].history, ocr, revision, collected.value)
    {
      if id !in store.documents || ReadableRun(store.documents[id]) != Some(ocr) {
        return None;
      }
      Others(others);
      var saved := store.documents[id].draft;
      if saved.None? || revision == 0 || saved.value.revision != revision || saved.value.ocr != ocr {
        return None;
      }
      collected := CollectValues(FIELDS, saved.value, values, decisions);
      if collected.Some? {
        DraftIsSaved(store.documents[id], clock);
      }
    }

    /**
     `confirmExtraction`: the run is read, then the draft, its values are
     validated and stored as an object under a fresh id, and the review is
     committed; any other requests run in between. What is confirmed is the draft
     of the moment of the commit, with acceptable values; the object is kept
     exactly then, unless its deletion fails.
     */
    method ConfirmExtraction(id: DocumentId, ocr: RunId, revision: nat, values: Values, decisions: Values, expected: nat, review: ReviewId,
                             first: seq<Other>, second: seq<Other>, putAnswers: bool, deleted: bool)
      returns (confirmed: Option<nat>)
      requires Sound() && review !in objects && !Draws(first, review) && !Draws(second, review)
      requires forall i :: 0 <= i < |first| ==> Legal(first[i].step)
      requires forall i :: 0 <= i < |second| ==> Legal(second[i].step)
      modifies this, store
      ensures Sound()
      ensures confirmed.Some? ==>
        confirmed == Some(expected + 1) && id in store.documents && SoundlyConfirmed(accepts, objects, store.documents[id], ocr, revision, review)
      ensures confirmed.Some? ==> Acceptable(types, ocr, objects[review])
      ensures confirmed.None? && deleted ==> review !in objects
    {
      var collected := ReadSaved(id, ocr, revision, values, decisions, first);
      if collected.None? {
        return None;
      }
      var accepted := Validate(ocr, collected.value);
      if !accepted || !putAnswers {
        return None;
      }
      ObjectStoredIsSound(Now(), accepts, objects, review, collected.value);
      objects := objects[review := collected.value];
      Others(second);
      confirmed := Commit(id, ocr, revision, collected.value, expected, review, deleted);
    }

    /** The commit, and the deletion of the object after a refusal. */
    method Commit(id: DocumentId, ocr: RunId, revision: nat, values: Values, expected: nat, review: ReviewId, deleted: bool)
      returns (confirmed: Option<nat>)
      requires Sound() && review in objects && objects[review] == values && accepts(ocr, values)
      requires AllJudged(store.documents, NotCalled(review))
      requires id in store.documents && Saved(store.documents[id].history, ocr, revision, values)
      modifies this, store
      ensures Sound()
      ensures confirmed.Some? ==>
        confirmed == Some(expected + 1) && id in store.documents && SoundlyConfirmed(accepts, objects, store.documents[id], ocr, revision, review)
      ensures confirmed.None? && deleted ==> review !in objects
    {
      ghost var s := Now();
      clock := clock + 1;
      CommitIsSound(s, accepts, objects, id, SaveReview(review, ocr, revision, values, expected), clock);
      confirmed := store.SaveReview(id, review, ocr, revision, values, expected, clock);
      if confirmed.None? && deleted {
        DeletionLeavesBacking(accepts, store.documents, objects, review);
        objects := objects - {review};
      }
    }
  }
}
