/**
 Runs of an organization: every interleaving of transactions with the confirm
 handler, which reads the latest completed run, then the draft, and commits later.
 */
module ReviewRuns {
  import opened Common
  import opened Review
  import opened ReviewInvariants

  type DocumentId = nat
  type RequestId = nat

  /** How far a confirm request has come, and what it has read. */
  datatype Request =
    | OcrRead(document: DocumentId, ocr: RunId)
    | DraftRead(document: DocumentId, ocr: RunId, revision: nat, values: Values)

  datatype State = State(documents: map<DocumentId, Document>, requests: map<RequestId, Request>, clock: Time)

  datatype Step =
    | Accept(id: DocumentId, document: Document)
    | Operate(id: DocumentId, op: Operation)
    | ReadOcr(request: RequestId, id: DocumentId, ocr: RunId)
    | ReadDraft(request: RequestId, revision: nat)
    | Confirm(request: RequestId, review: ReviewId, expected: nat)
    | Abandon(request: RequestId)

  /** The transaction of a confirm request that has read everything. */
  function ConfirmOperation(r: Request, review: ReviewId, expected: nat): Operation
    requires r.DraftRead?
  {
    SaveReview(review, r.ocr, r.revision, r.values, expected)
  }

  /** The reads that the handler accepts. */
  predicate DraftMatches(d: Document, r: Request, revision: nat) {
    d.draft.Some? && d.draft.value.revision == revision && d.draft.value.ocr == r.ocr && Decided(d.draft.value.decisions)
  }

  /** The commit of a confirm request, which ends it. */
  function ApplyConfirm(s: State, request: RequestId, review: ReviewId, expected: nat): State
    requires request in s.requests && s.requests[request].DraftRead? && s.requests[request].document in s.documents
  {
    var r := s.requests[request];
    var result := DoSaveReview(s.documents[r.document], ConfirmOperation(r, review, expected));
    s.(requests := s.requests - {request},
       documents := if result.Some? then s.documents[r.document := result.value] else s.documents)
  }

  function Apply(s: State, step: Step, now: Time): State {
    var t := s.(clock := now);
    match step
    case Accept(id, document) =>
      if id in s.documents then t else t.(documents := s.documents[id := document.(updatedAt := now)])
    case Operate(id, op) =>
      if id !in s.documents || Perform(s.documents[id], op, now).None? then t
      else t.(documents := s.documents[id := Perform(s.documents[id], op, now).value])
    case ReadOcr(request, id, ocr) =>
      if request in s.requests || id !in s.documents || ReadableRun(s.documents[id]) != Some(ocr) then t
      else t.(requests := s.requests[request := OcrRead(id, ocr)])
    case ReadDraft(request, revision) =>
      if request !in s.requests || !s.requests[request].OcrRead? || s.requests[request].document !in s.documents then t
      else
        var r := s.requests[request];
        var d := s.documents[r.document];
        if !DraftMatches(d, r, revision) then t.(requests := s.requests - {request})
        else t.(requests := s.requests[request := DraftRead(r.document, r.ocr, revision, FieldValues(d.draft.value.values))])
    case Confirm(request, review, expected) =>
      if request !in s.requests || !s.requests[request].DraftRead? || s.requests[request].document !in s.documents then t
      else ApplyConfirm(t, request, review, expected)
    case Abandon(request) => t.(requests := s.requests - {request})
  }

  /** Documents start fresh, drafts come from the form, and reviews are only saved by the confirm handler. */
  ghost predicate Legal(step: Step) {
    && (step.Accept? ==> Fresh(step.document)) && (step.Operate? ==> !step.op.SaveReview?)
    && (step.Operate? && step.op.SaveDraft? ==> Sensible(step.op.values, step.op.decisions))
  }

  ghost predicate Next(s: State, step: Step, t: State) {
    Legal(step) && s.clock < t.clock && t == Apply(s, step, t.clock)
  }

  ghost predicate Run(states: seq<State>, steps: seq<Step>) {
    && |states| == |steps| + 1 && states[0].documents == map[] && states[0].requests == map[]
    && forall k :: 0 <= k < |steps| ==> Next(states[k], steps[k], states[k + 1])
  }

  // ----- The invariant over runs -----

  /** What a request has read was there when it read it, and has stayed in the history. */
  ghost predicate RequestOk(r: Request, documents: map<DocumentId, Document>) {
    r.document in documents && (r.DraftRead? ==> Saved(documents[r.document].history, r.ocr, r.revision, r.values))
  }

  ghost predicate AllValid(documents: map<DocumentId, Document>, clock: Time) {
    forall id :: id in documents ==> Valid(documents[id], clock)
  }

  ghost predicate AllRequestsOk(requests: map<RequestId, Request>, documents: map<DocumentId, Document>) {
    forall q :: q in requests ==> RequestOk(requests[q], documents)
  }

  ghost predicate Invariant(s: State) {
    AllValid(s.documents, s.clock) && AllRequestsOk(s.requests, s.documents)
  }

  /** No document disappears, and each only grows. */
  ghost predicate AllGrow(before: map<DocumentId, Document>, after: map<DocumentId, Document>) {
    forall id :: id in before ==> id in after && Grows(before[id], after[id])
  }

  lemma LaterIsValid(d: Document, clock: Time, now: Time)
    requires Valid(d, clock) && clock <= now
    ensures Valid(d, now)
  {
  }

  lemma GrowsFromItself(d: Document)
    ensures Grows(d, d)
  {
  }

  lemma UntouchedDocuments(documents: map<DocumentId, Document>, clock: Time, now: Time)
    requires AllValid(documents, clock) && clock < now
    ensures AllValid(documents, now) && AllGrow(documents, documents)
  {
    forall id | id in documents
      ensures Valid(documents[id], now) && Grows(documents[id], documents[id])
    {
      LaterIsValid(documents[id], clock, now);
      GrowsFromItself(documents[id]);
    }
  }

  lemma OneDocumentChanges(documents: map<DocumentId, Document>, id: DocumentId, d: Document, clock: Time, now: Time)
    requires AllValid(documents, clock) && clock < now && Valid(d, now)
    requires id in documents ==> Grows(documents[id], d)
    ensures AllValid(documents[id := d], now) && AllGrow(documents, documents[id := d])
  {
    UntouchedDocuments(documents, clock, now);
  }

  lemma RequestsStayOk(requests: map<RequestId, Request>, before: map<DocumentId, Document>, after: map<DocumentId, Document>)
    requires AllRequestsOk(requests, before) && AllGrow(before, after)
    ensures AllRequestsOk(requests, after)
  {
    forall q | q in requests
      ensures RequestOk(requests[q], after)
    {
      var r := requests[q];
      assert RequestOk(r, before);
      assert Grows(before[r.document], after[r.document]);
    }
  }

  lemma OperationKeeps(s: State, id: DocumentId, op: Operation, now: Time)
    requires Invariant(s) && s.clock < now && id in s.documents && Backed(s.documents[id], op) && Perform(s.documents[id], op, now).Some?
    ensures var documents := s.documents[id := Perform(s.documents[id], op, now).value];
      AllValid(documents, now) && AllGrow(s.documents, documents) && AllRequestsOk(s.requests, documents)
  {
    var d := Perform(s.documents[id], op, now).value;
    PerformKeeps(s.documents[id], op, s.clock, now);
    OneDocumentChanges(s.documents, id, d, s.clock, now);
    RequestsStayOk(s.requests, s.documents, s.documents[id := d]);
  }

  lemma AcceptKeeps(s: State, id: DocumentId, document: Document, now: Time)
    requires Invariant(s) && s.clock < now && Fresh(document) && id !in s.documents
    ensures var documents := s.documents[id := document.(updatedAt := now)];
      AllValid(documents, now) && AllGrow(s.documents, documents) && AllRequestsOk(s.requests, documents)
  {
    var d := document.(updatedAt := now);
    FreshIsValid(d, now);
    OneDocumentChanges(s.documents, id, d, s.clock, now);
    RequestsStayOk(s.requests, s.documents, s.documents[id := d]);
  }

  lemma DraftReadIsSaved(d: Document, clock: Time, r: Request, revision: nat)
    requires Valid(d, clock) && r.OcrRead? && DraftMatches(d, r, revision)
    ensures Saved(d.history, r.ocr, revision, FieldValues(d.draft.value.values))
  {
  }

  lemma OneRequestChanges(requests: map<RequestId, Request>, documents: map<DocumentId, Document>, request: RequestId, r: Request)
    requires AllRequestsOk(requests, documents) && RequestOk(r, documents)
    ensures AllRequestsOk(requests[request := r], documents)
  {
  }

  lemma OneRequestEnds(requests: map<RequestId, Request>, documents: map<DocumentId, Document>, request: RequestId)
    requires AllRequestsOk(requests, documents)
    ensures AllRequestsOk(requests - {request}, documents)
  {
  }

  lemma ReadDraftKeeps(s: State, request: RequestId, revision: nat, t: State)
    requires Invariant(s) && t == Apply(s, ReadDraft(request, revision), t.clock)
    ensures AllRequestsOk(t.requests, t.documents) && t.documents == s.documents
  {
    OneRequestEnds(s.requests, s.documents, request);
    if request in s.requests && s.requests[request].OcrRead? {
      var r := s.requests[request];
      assert RequestOk(r, s.documents);
      var d := s.documents[r.document];
      if DraftMatches(d, r, revision) {
        DraftReadIsSaved(d, s.clock, r, revision);
        OneRequestChanges(s.requests, s.documents, request, DraftRead(r.document, r.ocr, revision, FieldValues(d.draft.value.values)));
      }
    }
  }

  lemma ReadOcrKeeps(s: State, request: RequestId, id: DocumentId, ocr: RunId, t: State)
    requires Invariant(s) && t == Apply(s, ReadOcr(request, id, ocr), t.clock)
    ensures AllRequestsOk(t.requests, t.documents) && t.documents == s.documents
  {
    if id in s.documents {
      OneRequestChanges(s.requests, s.documents, request, OcrRead(id, ocr));
    }
  }

  lemma SavingIsPerforming(d: Document, op: Operation, now: Time)
    requires op.SaveReview?
    ensures Perform(d, op, now) == DoSaveReview(d, op)
  {
  }

  lemma ConfirmedDocuments(s: State, id: DocumentId, op: Operation, now: Time, documents: map<DocumentId, Document>)
    requires Invariant(s) && s.clock < now && id in s.documents && op.SaveReview? && Backed(s.documents[id], op)
    requires var result := DoSaveReview(s.documents[id], op);
      documents == if result.Some? then s.documents[id := result.value] else s.documents
    ensures AllValid(documents, now) && AllGrow(s.documents, documents) && AllRequestsOk(s.requests, documents)
  {
    SavingIsPerforming(s.documents[id], op, now);
    if Perform(s.documents[id], op, now).Some? {
      OperationKeeps(s, id, op, now);
    } else {
      UntouchedDocuments(s.documents, s.clock, now);
    }
  }

  lemma ConfirmKeeps(s: State, request: RequestId, review: ReviewId, expected: nat, t: State)
    requires Invariant(s) && request in s.requests && s.requests[request].DraftRead? && s.requests[request].document in s.documents
    requires s.clock < t.clock && t == ApplyConfirm(s.(clock := t.clock), request, review, expected)
    ensures Invariant(t) && AllGrow(s.documents, t.documents)
  {
    var r := s.requests[request];
    assert RequestOk(r, s.documents);
    ConfirmedDocuments(s, r.document, ConfirmOperation(r, review, expected), t.clock, t.documents);
    OneRequestEnds(s.requests, t.documents, request);
  }

  lemma DocumentStepKeeps(s: State, step: Step, t: State)
    requires Invariant(s) && Next(s, step, t) && (step.Accept? || step.Operate?)
    ensures Invariant(t) && AllGrow(s.documents, t.documents)
  {
    if t.documents == s.documents {
      UntouchedDocuments(s.documents, s.clock, t.clock);
    } else if step.Accept? {
      AcceptKeeps(s, step.id, step.document, t.clock);
    } else {
      OperationKeeps(s, step.id, step.op, t.clock);
    }
  }

  lemma RequestStepKeeps(s: State, step: Step, t: State)
    requires Invariant(s) && Next(s, step, t) && (step.ReadOcr? || step.ReadDraft? || step.Abandon?)
    ensures Invariant(t) && AllGrow(s.documents, t.documents)
  {
    UntouchedDocuments(s.documents, s.clock, t.clock);
    match step
    case ReadOcr(request, id, ocr) => ReadOcrKeeps(s, request, id, ocr, t);
    case ReadDraft(request, revision) => ReadDraftKeeps(s, request, revision, t);
    case Abandon(request) => OneRequestEnds(s.requests, s.documents, request);
  }

  lemma StepKeepsInvariant(s: State, step: Step, t: State)
    requires Invariant(s) && Next(s, step, t)
    ensures Invariant(t) && AllGrow(s.documents, t.documents)
  {
    if step.Accept? || step.Operate? {
      DocumentStepKeeps(s, step, t);
    } else if !step.Confirm? {
      RequestStepKeeps(s, step, t);
    } else if step.request in s.requests && s.requests[step.request].DraftRead? {
      assert RequestOk(s.requests[step.request], s.documents);
      ConfirmKeeps(s, step.request, step.review, step.expected, t);
    } else {
      UntouchedDocuments(s.documents, s.clock, t.clock);
    }
  }

  lemma {:induction false} RunKeepsInvariant(states: seq<State>, steps: seq<Step>, k: nat)
    requires Run(states, steps) && k < |states|
    ensures Invariant(states[k])
  {
    if k > 0 {
      RunKeepsInvariant(states, steps, k - 1);
      StepKeepsInvariant(states[k - 1], steps[k - 1], states[k]);
    }
  }

  /** In every reachable state: one current row of each kind, gapless revisions, and faithful drafts and reviews. */
  lemma ReachableDocumentsAreValid(states: seq<State>, steps: seq<Step>, k: nat, id: DocumentId)
    requires Run(states, steps) && k < |states| && id in states[k].documents
    ensures Valid(states[k].documents[id], states[k].clock)
  {
    RunKeepsInvariant(states, steps, k);
  }

  // ----- Growth over runs -----

  lemma GrowthComposes(a: Document, b: Document, c: Document)
    requires Grows(a, b) && Grows(b, c)
    ensures Grows(a, c)
  {
    RunGrowthComposes(a.runs, b.runs, c.runs);
    ReviewGrowthComposes(a.reviews, b.reviews, c.reviews);
    ApprovalGrowthComposes(a.approvals, b.approvals, c.approvals);
  }

  lemma RunGrowthComposes(a: seq<OcrRun>, b: seq<OcrRun>, c: seq<OcrRun>)
    requires RunsGrow(a, b) && RunsGrow(b, c)
    ensures RunsGrow(a, c)
  {
  }

  lemma ReviewGrowthComposes(a: seq<Review>, b: seq<Review>, c: seq<Review>)
    requires ReviewsGrow(a, b) && ReviewsGrow(b, c)
    ensures ReviewsGrow(a, c)
  {
  }

  lemma ApprovalGrowthComposes(a: seq<Approval>, b: seq<Approval>, c: seq<Approval>)
    requires ApprovalsGrow(a, b) && ApprovalsGrow(b, c)
    ensures ApprovalsGrow(a, c)
  {
  }

  lemma StepGrows(states: seq<State>, steps: seq<Step>, k: nat, id: DocumentId)
    requires Run(states, steps) && k < |steps| && id in states[k].documents
    ensures id in states[k + 1].documents && Grows(states[k].documents[id], states[k + 1].documents[id])
  {
    RunKeepsInvariant(states, steps, k);
    StepKeepsInvariant(states[k], steps[k], states[k + 1]);
  }

  lemma StepGrowsOn(d: Document, states: seq<State>, steps: seq<Step>, k: nat, id: DocumentId)
    requires Run(states, steps) && k < |steps| && id in states[k].documents && Grows(d, states[k].documents[id])
    ensures id in states[k + 1].documents && Grows(d, states[k + 1].documents[id])
  {
    StepGrows(states, steps, k, id);
    GrowthComposes(d, states[k].documents[id], states[k + 1].documents[id]);
  }

  /** From any state of a run to any later one. */
  lemma {:induction false} RunGrows(states: seq<State>, steps: seq<Step>, j: nat, k: nat, id: DocumentId)
    requires Run(states, steps) && j <= k < |states| && id in states[j].documents
    ensures id in states[k].documents && Grows(states[j].documents[id], states[k].documents[id])
  {
    if j == k {
      GrowsFromItself(states[j].documents[id]);
    } else {
      RunGrows(states, steps, j, k - 1, id);
      StepGrowsOn(states[j].documents[id], states, steps, k - 1, id);
    }
  }

  // ----- Confirmation -----

  /**
   The moment of a confirmation: the run it names is the published one, the
   draft is still the one that was read, fully decided, and the review that
   becomes current holds exactly the draft's values.
   */
  ghost predicate ConfirmsDraft(before: Document, after: Document) {
    && before.history != [] && before.draft.Some? && after.draft == before.draft && after.history == before.history
    && |after.reviews| == |before.reviews| + 1
    && var r, draft := after.reviews[|before.reviews|], before.draft.value;
    && r.ocr == draft.ocr && r.draftRevision == draft.revision == |before.history| && draft == before.history[|before.history| - 1]
    && Saved(before.history, r.ocr, r.draftRevision, r.values)
    && OpenRun(before.runs) == Some(r.ocr) && r.revision == |before.reviews| + 1
  }

  lemma DraftIsLastEntry(d: Document)
    requires HistoryOk(d.draft, d.history) && d.draft.Some?
    ensures d.history != [] && d.draft.value == d.history[|d.history| - 1] && d.draft.value.revision == |d.history|
  {
  }

  lemma NextReviewIsLast(reviews: seq<Review>, review: Review)
    ensures |NextReviews(reviews, review)| == |reviews| + 1 && NextReviews(reviews, review)[|reviews|] == review
  {
  }

  lemma AppendedReviewConfirmsDraft(d: Document, review: Review, clock: Time)
    requires Valid(d, clock) && review.revision == |d.reviews| + 1 && !review.superseded
    requires OpenRun(d.runs) == Some(review.ocr) && Saved(d.history, review.ocr, review.draftRevision, review.values)
    requires d.draft.Some? && d.draft.value.revision == review.draftRevision
    ensures ConfirmsDraft(d, d.(reviews := NextReviews(d.reviews, review)))
  {
    DraftIsLastEntry(d);
    NextReviewIsLast(d.reviews, review);
  }

  lemma AppendedReviewIsExportable(d: Document, review: Review)
    requires OpenRun(d.runs) == Some(review.ocr) && DraftRevision(d) == review.draftRevision && !review.superseded
    ensures ExportableReview(d.(reviews := NextReviews(d.reviews, review))) == Some(review)
  {
    var reviews := NextReviews(d.reviews, review);
    assert reviews[|reviews| - 1] == review;
  }

  lemma SavedReviewConfirmsDraft(d: Document, op: Operation, clock: Time, now: Time)
    requires Valid(d, clock) && op.SaveReview? && Backed(d, op) && DoSaveReview(d, op).Some?
    ensures ConfirmsDraft(d, DoSaveReview(d, op).value)
    ensures ExportableReview(DoSaveReview(d, op).value) == Some(DoSaveReview(d, op).value.reviews[|d.reviews|])
  {
    var review := Review(op.review, op.ocr, |d.reviews| + 1, op.draftRevision, op.values, false);
    SaveReviewFacts(d, op);
    AppendedReviewConfirmsDraft(d, review, clock);
    AppendedReviewIsExportable(d, review);
  }

  lemma ConfirmIsFaithful(s: State, request: RequestId, review: ReviewId, expected: nat)
    requires Invariant(s) && request in s.requests && s.requests[request].DraftRead? && s.requests[request].document in s.documents
    requires ApplyConfirm(s, request, review, expected).documents != s.documents
    ensures var r, t := s.requests[request], ApplyConfirm(s, request, review, expected);
      r.document in t.documents && ConfirmsDraft(s.documents[r.document], t.documents[r.document])
  {
    var r := s.requests[request];
    assert RequestOk(r, s.documents);
    SavedReviewConfirmsDraft(s.documents[r.document], ConfirmOperation(r, review, expected), s.clock, s.clock + 1);
  }

  /** Whatever happens between a confirm handler's reads and its commit, a commit that goes through confirms the draft of that moment. */
  lemma ConfirmationsAreFaithful(states: seq<State>, steps: seq<Step>, k: nat)
    requires Run(states, steps) && k < |steps| && steps[k].Confirm? && states[k + 1].documents != states[k].documents
    ensures steps[k].request in states[k].requests
    ensures var r := states[k].requests[steps[k].request];
      && r.DraftRead? && r.document in states[k].documents && r.document in states[k + 1].documents
      && ConfirmsDraft(states[k].documents[r.document], states[k + 1].documents[r.document])
  {
    RunKeepsInvariant(states, steps, k);
    ConfirmStepIsFaithful(states[k], steps[k], states[k + 1]);
  }

  lemma ConfirmStepIsFaithful(s: State, step: Step, t: State)
    requires Invariant(s) && Next(s, step, t) && step.Confirm? && t.documents != s.documents
    ensures step.request in s.requests
    ensures var r := s.requests[step.request];
      && r.DraftRead? && r.document in s.documents && r.document in t.documents
      && ConfirmsDraft(s.documents[r.document], t.documents[r.document])
  {
    LaterInvariant(s, t.clock);
    ConfirmIsFaithful(s.(clock := t.clock), step.request, step.review, step.expected);
  }

  lemma LaterInvariant(s: State, now: Time)
    requires Invariant(s) && s.clock < now
    ensures Invariant(s.(clock := now))
  {
    UntouchedDocuments(s.documents, s.clock, now);
  }

  /** In every reachable state each confirmed review holds the history's values at the revision it names. */
  lemma ReviewsHoldSavedValues(states: seq<State>, steps: seq<Step>, k: nat, id: DocumentId, i: nat)
    requires Run(states, steps) && k < |states| && id in states[k].documents && i < |states[k].documents[id].reviews|
    ensures var d := states[k].documents[id]; var r := d.reviews[i];
      && 1 <= r.draftRevision <= |d.history| && r.values == FieldValues(d.history[r.draftRevision - 1].values)
      && d.history[r.draftRevision - 1].ocr == r.ocr && Decided(d.history[r.draftRevision - 1].decisions)
  {
    RunKeepsInvariant(states, steps, k);
    var d := states[k].documents[id];
    assert Saved(d.history, d.reviews[i].ocr, d.reviews[i].draftRevision, d.reviews[i].values);
  }

  /** In every reachable state what can be exported is what was saved last, of the published run. */
  lemma ReachableExportsAreCurrent(states: seq<State>, steps: seq<Step>, k: nat, id: DocumentId)
    requires Run(states, steps) && k < |states| && id in states[k].documents && ExportableReview(states[k].documents[id]).Some?
    ensures var d := states[k].documents[id]; var r := ExportableReview(d).value;
      && d.draft.Some? && r.draftRevision == |d.history| == d.draft.value.revision
      && r.ocr == d.draft.value.ocr && OpenRun(d.runs) == Some(r.ocr) && r.values == FieldValues(d.draft.value.values)
  {
    RunKeepsInvariant(states, steps, k);
    ExportableIsCurrent(states[k].documents[id], states[k].clock);
  }

  // ----- Unknown fields -----

  ghost predicate AllSensibleHistories(documents: map<DocumentId, Document>) {
    forall id :: id in documents ==> HistorySensible(documents[id].history)
  }

  lemma OneHistoryChanges(documents: map<DocumentId, Document>, id: DocumentId, d: Document)
    requires AllSensibleHistories(documents) && HistorySensible(d.history)
    ensures AllSensibleHistories(documents[id := d])
  {
  }

  lemma OperationKeepsSensible(s: State, id: DocumentId, op: Operation, now: Time)
    requires Invariant(s) && AllSensibleHistories(s.documents) && id in s.documents && Perform(s.documents[id], op, now).Some?
    requires op.SaveDraft? ==> Sensible(op.values, op.decisions)
    ensures AllSensibleHistories(s.documents[id := Perform(s.documents[id], op, now).value])
  {
    PerformKeepsSensible(s.documents[id], op, now);
    OneHistoryChanges(s.documents, id, Perform(s.documents[id], op, now).value);
  }

  lemma SavingKeepsSensible(documents: map<DocumentId, Document>, id: DocumentId, op: Operation, now: Time)
    requires AllSensibleHistories(documents) && id in documents && HistoryOk(documents[id].draft, documents[id].history)
    requires op.SaveReview? && DoSaveReview(documents[id], op).Some?
    ensures AllSensibleHistories(documents[id := DoSaveReview(documents[id], op).value])
  {
    SavingIsPerforming(documents[id], op, now);
    PerformKeepsSensible(documents[id], op, now);
    OneHistoryChanges(documents, id, DoSaveReview(documents[id], op).value);
  }

  lemma ConfirmKeepsSensible(s: State, request: RequestId, review: ReviewId, expected: nat)
    requires Invariant(s) && AllSensibleHistories(s.documents)
    requires request in s.requests && s.requests[request].DraftRead? && s.requests[request].document in s.documents
    ensures AllSensibleHistories(ApplyConfirm(s, request, review, expected).documents)
  {
    var r := s.requests[request];
    var op := ConfirmOperation(r, review, expected);
    if DoSaveReview(s.documents[r.document], op).Some? {
      assert Valid(s.documents[r.document], s.clock);
      SavingKeepsSensible(s.documents, r.document, op, s.clock);
    }
  }

  lemma StepKeepsSensible(s: State, step: Step, t: State)
    requires Invariant(s) && Next(s, step, t) && AllSensibleHistories(s.documents)
    ensures AllSensibleHistories(t.documents)
  {
    if t.documents == s.documents {
    } else if step.Accept? {
      OneHistoryChanges(s.documents, step.id, step.document.(updatedAt := t.clock));
    } else if step.Operate? {
      OperationKeepsSensible(s, step.id, step.op, t.clock);
    } else {
      LaterInvariant(s, t.clock);
      ConfirmKeepsSensible(s.(clock := t.clock), step.request, step.review, step.expected);
    }
  }

  lemma {:induction false} HistoriesAreSensible(states: seq<State>, steps: seq<Step>, k: nat)
    requires Run(states, steps) && k < |states|
    ensures AllSensibleHistories(states[k].documents)
  {
    if k > 0 {
      HistoriesAreSensible(states, steps, k - 1);
      RunKeepsInvariant(states, steps, k - 1);
      StepKeepsSensible(states[k - 1], steps[k - 1], states[k]);
    }
  }

  lemma RestrictedLookup(fields: seq<string>, values: Values, i: nat)
    requires i < |fields|
    ensures Lookup(Restricted(fields, values), fields[i]) == Lookup(values, fields[i])
  {
  }

  /** In every reachable state a field that the reviewer called unknown is empty in the confirmed review. */
  lemma UnknownFieldsAreEmpty(states: seq<State>, steps: seq<Step>, k: nat, id: DocumentId, i: nat, f: nat)
    requires Run(states, steps) && k < |states| && id in states[k].documents && i < |states[k].documents[id].reviews| && f < |FIELDS|
    ensures var d := states[k].documents[id]; var r := d.reviews[i];
      && 1 <= r.draftRevision <= |d.history|
      && (Lookup(d.history[r.draftRevision - 1].decisions, FIELDS[f]) == "unknown" ==> Lookup(r.values, FIELDS[f]) == "")
  {
    ReviewsHoldSavedValues(states, steps, k, id, i);
    HistoriesAreSensible(states, steps, k);
    var d := states[k].documents[id];
    var entry := d.history[d.reviews[i].draftRevision - 1];
    RestrictedLookup(FIELDS, entry.values, f);
    assert FieldSensible(Lookup(entry.values, FIELDS[f]), Lookup(entry.decisions, FIELDS[f]));
  }
}
