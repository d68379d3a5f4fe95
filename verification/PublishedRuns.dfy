/**
 Which recognition run of a document is open: over any run of an organization,
 the one that was published last. The review pages show the latest run instead.
 */
module PublishedRuns {
  import opened Common
  import opened Review
  import opened ReviewInvariants
  import opened ReviewRuns

  // ----- What a transaction does to the open run -----

  lemma {:induction false} SameOpenRun(before: seq<OcrRun>, after: seq<OcrRun>)
    requires |before| == |after|
    requires forall i :: 0 <= i < |before| ==> after[i].id == before[i].id && Open(after[i]) == Open(before[i])
    ensures OpenRun(after) == OpenRun(before)
  {
    if before != [] {
      SameOpenRun(before[..|before| - 1], after[..|after| - 1]);
    }
  }

  lemma NewRunIsNotOpen(runs: seq<OcrRun>, run: OcrRun)
    requires !Open(run)
    ensures OpenRun(runs + [run]) == OpenRun(runs)
  {
    assert (runs + [run])[..|runs|] == runs;
  }

  /** Only a publication changes which run is open. */
  lemma OnlyPublicationOpens(d: Document, op: Operation, now: Time)
    requires Perform(d, op, now).Some? && !op.CompleteOcr?
    ensures OpenRun(Perform(d, op, now).value.runs) == OpenRun(d.runs)
    ensures forall id :: WasPublished(Perform(d, op, now).value.runs, id) ==> WasPublished(d.runs, id)
  {
    var after := Perform(d, op, now).value.runs;
    if op.ReprocessOcr? || op.RetryOcr? {
      NewRunIsNotOpen(d.runs, OcrRun(op.run, op.fingerprint, Queued, false, false));
    } else {
      SameOpenRun(d.runs, after);
    }
  }

  lemma PublishedOnlyThatRun(runs: seq<OcrRun>, run: RunId, id: RunId)
    requires WasPublished(Publish(runs, run), id)
    ensures WasPublished(runs, id) || id == run
  {
    var after := Publish(runs, run);
    var i :| 0 <= i < |after| && after[i].id == id && after[i].published;
    assert runs[i].id == id;
  }

  lemma RunningIsNotPublished(runs: seq<OcrRun>, id: RunId)
    requires RunsOk(runs) && RunIs(runs, id, Running)
    ensures !WasPublished(runs, id)
  {
    var k :| 0 <= k < |runs| && runs[k].id == id && runs[k].job == Running;
    forall i | 0 <= i < |runs| && runs[i].id == id
      ensures !runs[i].published
    {
      assert i == k || i < k || k < i;
    }
  }

  lemma PublicationOpens(d: Document, run: RunId, clock: Time)
    requires Valid(d, clock) && DoCompleteOcr(d, CompleteOcr(run)).Some?
    ensures var after := DoCompleteOcr(d, CompleteOcr(run)).value.runs;
      && OpenRun(after) == Some(run) && WasPublished(after, run) && !WasPublished(d.runs, run)
      && forall id :: WasPublished(after, id) && id != run ==> WasPublished(d.runs, id)
  {
    var after := Publish(d.runs, run);
    PublishKeepsRuns(d.runs, run);
    RunningIsNotPublished(d.runs, run);
    var i := OpenRunExists(after);
    forall id | WasPublished(after, id) && id != run
      ensures WasPublished(d.runs, id)
    {
      PublishedOnlyThatRun(d.runs, run, id);
    }
  }

  // ----- Over runs -----

  /** The step publishes a recognition run of this document. */
  ghost predicate Publishes(s: State, step: Step, now: Time, id: DocumentId) {
    step.Operate? && step.id == id && step.op.CompleteOcr? && id in s.documents && Perform(s.documents[id], step.op, now).Some?
  }

  /** The recognition runs of a document that the first k steps published, in order. */
  ghost function Publications(states: seq<State>, steps: seq<Step>, id: DocumentId, k: nat): seq<RunId>
    requires |states| == |steps| + 1 && k <= |steps|
  {
    if k == 0 then []
    else
      var earlier := Publications(states, steps, id, k - 1);
      if Publishes(states[k - 1], steps[k - 1], states[k].clock, id) then earlier + [steps[k - 1].op.run] else earlier
  }

  function Last(runs: seq<RunId>): Option<RunId> {
    if runs == [] then None else Some(runs[|runs| - 1])
  }

  /** The publications so far account for the document's runs: all published ones, and the open one last. */
  ghost predicate Accounted(documents: map<DocumentId, Document>, id: DocumentId, published: seq<RunId>) {
    && Distinct(published)
    && (id !in documents ==> published == [])
    && (id in documents ==>
          && OpenRun(documents[id].runs) == Last(published)
          && forall run :: WasPublished(documents[id].runs, run) <==> run in published)
  }

  lemma PublicationAccounted(documents: map<DocumentId, Document>, id: DocumentId, published: seq<RunId>, run: RunId, d: Document, clock: Time)
    requires Accounted(documents, id, published) && id in documents && Valid(documents[id], clock)
    requires DoCompleteOcr(documents[id], CompleteOcr(run)) == Some(d)
    ensures Accounted(documents[id := d], id, published + [run])
  {
    PublicationOpens(documents[id], run, clock);
    PublishKeepsRuns(documents[id].runs, run);
    assert run !in published;
    forall other | other in published
      ensures WasPublished(d.runs, other)
    {
      PublishedStays(documents[id].runs, d.runs, other);
    }
  }

  lemma OtherStepKeepsPublished(s: State, step: Step, t: State, id: DocumentId)
    requires Next(s, step, t) && id in s.documents && !Publishes(s, step, t.clock, id)
    ensures id in t.documents && OpenRun(t.documents[id].runs) == OpenRun(s.documents[id].runs)
    ensures forall run :: WasPublished(t.documents[id].runs, run) ==> WasPublished(s.documents[id].runs, run)
  {
    if step.Operate? && step.id == id && Perform(s.documents[id], step.op, t.clock).Some? {
      OnlyPublicationOpens(s.documents[id], step.op, t.clock);
    }
  }

  lemma SameRunsPublished(before: Document, after: Document)
    requires RunsGrow(before.runs, after.runs) && OpenRun(after.runs) == OpenRun(before.runs)
    requires forall run :: WasPublished(after.runs, run) ==> WasPublished(before.runs, run)
    ensures forall run :: WasPublished(after.runs, run) <==> WasPublished(before.runs, run)
  {
    forall run | WasPublished(before.runs, run)
      ensures WasPublished(after.runs, run)
    {
      PublishedStays(before.runs, after.runs, run);
    }
  }

  lemma NewDocumentIsFresh(s: State, step: Step, t: State, id: DocumentId)
    requires Next(s, step, t) && id !in s.documents && id in t.documents
    ensures OpenRun(t.documents[id].runs) == None && forall run :: !WasPublished(t.documents[id].runs, run)
  {
  }

  lemma StillAccounted(before: Document, after: Document, published: seq<RunId>)
    requires Distinct(published) && OpenRun(before.runs) == Last(published)
    requires forall run :: WasPublished(before.runs, run) <==> run in published
    requires OpenRun(after.runs) == OpenRun(before.runs)
    requires forall run :: WasPublished(after.runs, run) <==> WasPublished(before.runs, run)
    ensures OpenRun(after.runs) == Last(published) && forall run :: WasPublished(after.runs, run) <==> run in published
  {
  }

  lemma OtherStepAccounted(s: State, step: Step, t: State, id: DocumentId, published: seq<RunId>)
    requires Invariant(s) && Next(s, step, t) && Accounted(s.documents, id, published) && !Publishes(s, step, t.clock, id)
    ensures Accounted(t.documents, id, published)
  {
    if id in s.documents {
      StepKeepsInvariant(s, step, t);
      OtherStepKeepsPublished(s, step, t, id);
      SameRunsPublished(s.documents[id], t.documents[id]);
      StillAccounted(s.documents[id], t.documents[id], published);
    } else if id in t.documents {
      NewDocumentIsFresh(s, step, t, id);
    }
  }

  lemma PublishingStepIs(s: State, step: Step, t: State, id: DocumentId)
    requires Next(s, step, t) && Publishes(s, step, t.clock, id)
    ensures id in t.documents && t.documents == s.documents[id := t.documents[id]]
    ensures DoCompleteOcr(s.documents[id], CompleteOcr(step.op.run)) == Some(t.documents[id])
  {
  }

  lemma StepAccounted(s: State, step: Step, t: State, id: DocumentId, published: seq<RunId>)
    requires Invariant(s) && Next(s, step, t) && Accounted(s.documents, id, published)
    ensures Accounted(t.documents, id, if Publishes(s, step, t.clock, id) then published + [step.op.run] else published)
  {
    if Publishes(s, step, t.clock, id) {
      PublishingStepIs(s, step, t, id);
      PublicationAccounted(s.documents, id, published, step.op.run, t.documents[id], s.clock);
    } else {
      OtherStepAccounted(s, step, t, id, published);
    }
  }

  lemma {:induction false} PublicationsAccounted(states: seq<State>, steps: seq<Step>, k: nat, id: DocumentId)
    requires Run(states, steps) && k <= |steps|
    ensures Accounted(states[k].documents, id, Publications(states, steps, id, k))
  {
    if k > 0 {
      PublicationsAccounted(states, steps, k - 1, id);
      RunKeepsInvariant(states, steps, k - 1);
      StepAccounted(states[k - 1], steps[k - 1], states[k], id, Publications(states, steps, id, k - 1));
    }
  }

  /**
   In every reachable state: each run of a document is published at most once,
   and the open run is the one published last. So the latest run is open exactly
   when it was published and no other was published after it.
   */
  lemma OpenRunIsLastPublished(states: seq<State>, steps: seq<Step>, k: nat, id: DocumentId)
    requires Run(states, steps) && k <= |steps| && id in states[k].documents
    ensures var published := Publications(states, steps, id, k);
      && Distinct(published) && OpenRun(states[k].documents[id].runs) == Last(published)
      && forall run :: WasPublished(states[k].documents[id].runs, run) <==> run in published
  {
    PublicationsAccounted(states, steps, k, id);
  }

  // ----- What the review pages can do -----

  /** A request of the pages that names the run they show and the rows as they are. */
  ghost predicate UpToDate(d: Document, op: Operation, ocr: RunId) {
    var reviewed := if OpenReview(d.reviews).Some? then OpenReview(d.reviews).value.revision else 0;
    match op
    case SaveDraft(run, expected, _, _) => run == ocr && expected == DraftRevision(d)
    case SaveReview(review, run, draftRevision, _, expected) =>
      && run == ocr && d.draft.Some? && d.draft.value.ocr == ocr && draftRevision == DraftRevision(d)
      && expected == reviewed && !HasReview(d.reviews, review)
    case ReturnReview(run, expectedReview, expected) =>
      && run == ocr && expected == DraftRevision(d) && expectedReview == reviewed
      && (OpenReview(d.reviews).Some? ==> OpenReview(d.reviews).value.ocr == ocr)
    case ReprocessOcr(run, expected, next, _) =>
      run == ocr && expected == DraftRevision(d) && !Pending(d.runs) && !HasRun(d.runs, next)
    case _ => false
  }

  /** Saving, confirming, returning and reprocessing go through exactly when the run that the pages show is open. */
  lemma PageRequestsPassIffOpen(d: Document, op: Operation, ocr: RunId, now: Time)
    requires ReadableRun(d) == Some(ocr) && UpToDate(d, op, ocr)
    ensures Perform(d, op, now).Some? <==> OpenRun(d.runs) == Some(ocr)
  {
  }

  /** Over runs: they go through exactly when no other run was published after the one that the pages show. */
  lemma PageRequestsPassIffPublishedLast(states: seq<State>, steps: seq<Step>, k: nat, id: DocumentId, op: Operation, ocr: RunId, now: Time)
    requires Run(states, steps) && k <= |steps| && id in states[k].documents
    requires ReadableRun(states[k].documents[id]) == Some(ocr) && UpToDate(states[k].documents[id], op, ocr)
    ensures var published := Publications(states, steps, id, k);
      && ocr in published
      && (Perform(states[k].documents[id], op, now).Some? <==> Last(published) == Some(ocr))
  {
    var d := states[k].documents[id];
    RunKeepsInvariant(states, steps, k);
    PageRequestsPassIffOpen(d, op, ocr, now);
    OpenRunIsLastPublished(states, steps, k, id);
    assert d.runs[|d.runs| - 1].id == ocr && d.runs[|d.runs| - 1].published;
    assert WasPublished(d.runs, ocr);
  }
}
