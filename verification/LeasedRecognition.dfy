/**
 Recognition jobs under leases. The job of a recognition run is a row of the job
 board: what the board does to it is what `Review` allows as a change of the job,
 and a completion publishes in both at once.
 */
module LeasedRecognition {
  import opened Common
  import opened Review
  import opened ReviewInvariants
  import opened ReviewRuns
  import Jobs
  import ReviewStore

  /** The board holds the job of every run, with its status. */
  ghost predicate Linked(runs: seq<OcrRun>, board: Jobs.Board) {
    forall i :: 0 <= i < |runs| ==> runs[i].id in board.jobs && board.jobs[runs[i].id].status == runs[i].job
  }

  // ----- The board's steps are changes of jobs -----

  ghost predicate Completes(step: Jobs.Step, id: Jobs.JobId) {
    (step.CompleteExport? || step.CompleteOcr?) && step.lease.job == id
  }

  /** A step that does not complete a job leaves its status or changes it legally. */
  lemma StatusChangesAreLegal(board: Jobs.Board, step: Jobs.Step, id: Jobs.JobId)
    requires Jobs.Legal(board, step) && id in board.jobs && !Completes(step, id)
    ensures id in Jobs.Apply(board, step).jobs
    ensures var before, after := board.jobs[id].status, Jobs.Apply(board, step).jobs[id].status;
      after == before || LegalJobChange(before, after)
  {
    Jobs.JobsStay(board, step, id);
  }

  /** The runs with the statuses that the board gives their jobs. */
  function Viewed(runs: seq<OcrRun>, board: Jobs.Board): (viewed: seq<OcrRun>)
    requires forall i :: 0 <= i < |runs| ==> runs[i].id in board.jobs
    ensures |viewed| == |runs| && forall i :: 0 <= i < |runs| ==> viewed[i] == runs[i].(job := board.jobs[runs[i].id].status)
  {
    seq(|runs|, i requires 0 <= i < |runs| => runs[i].(job := board.jobs[runs[i].id].status))
  }

  /** The document after these transactions; none if one is refused. */
  function PerformAll(d: Document, ops: seq<Operation>, now: Time): Option<Document> {
    if ops == [] then Some(d)
    else match PerformAll(d, ops[..|ops| - 1], now)
      case None => None
      case Some(e) => Perform(e, ops[|ops| - 1], now)
  }

  lemma PerformMore(d: Document, ops: seq<Operation>, op: Operation, now: Time)
    requires PerformAll(d, ops, now).Some?
    ensures PerformAll(d, ops + [op], now) == Perform(PerformAll(d, ops, now).value, op, now)
  {
    assert (ops + [op])[..|ops|] == ops;
  }

  /** The first n runs as they become, the others as they were. */
  function Mixed(before: seq<OcrRun>, after: seq<OcrRun>, n: nat): seq<OcrRun>
    requires n <= |before| == |after|
  {
    after[..n] + before[n..]
  }

  /** The same runs, ids distinct, with other statuses, each reached by no change or a legal one. */
  ghost predicate LegalChanges(before: seq<OcrRun>, after: seq<OcrRun>) {
    && |before| == |after|
    && (forall i, j :: 0 <= i < j < |before| ==> before[i].id != before[j].id)
    && forall i :: 0 <= i < |before| ==>
         after[i] == before[i].(job := after[i].job) && (after[i].job == before[i].job || LegalJobChange(before[i].job, after[i].job))
  }

  lemma SetJobMovesOn(before: seq<OcrRun>, after: seq<OcrRun>, n: nat)
    requires LegalChanges(before, after) && n < |before|
    ensures SetJob(Mixed(before, after, n), before[n].id, after[n].job) == Mixed(before, after, n + 1)
  {
    var mixed, next := Mixed(before, after, n), Mixed(before, after, n + 1);
    var changed := SetJob(mixed, before[n].id, after[n].job);
    forall i | 0 <= i < |before|
      ensures changed[i] == next[i]
    {
      assert mixed[i].id == before[i].id;
      assert i == n || i < n || n < i;
    }
  }

  lemma OneRunChanges(d: Document, before: seq<OcrRun>, after: seq<OcrRun>, n: nat)
    requires LegalChanges(before, after) && n < |before| && d.runs == Mixed(before, after, n) && after[n].job != before[n].job
    ensures DoChangeJob(d, ChangeJob(before[n].id, before[n].job, after[n].job)) == Some(d.(runs := Mixed(before, after, n + 1)))
  {
    assert d.runs[n] == before[n];
    assert RunIs(d.runs, before[n].id, before[n].job);
    SetJobMovesOn(before, after, n);
  }

  ghost predicate OnlyJobChanges(ops: seq<Operation>) {
    forall i :: 0 <= i < |ops| ==> ops[i].ChangeJob?
  }

  lemma UnchangedMovesOn(before: seq<OcrRun>, after: seq<OcrRun>, n: nat)
    requires LegalChanges(before, after) && n < |before| && after[n].job == before[n].job
    ensures Mixed(before, after, n + 1) == Mixed(before, after, n)
  {
    assert after[n] == before[n];
  }

  /** Job changes alone turn the document's runs into these. */
  ghost predicate Reaches(d: Document, ops: seq<Operation>, runs: seq<OcrRun>, now: Time) {
    OnlyJobChanges(ops) && PerformAll(d, ops, now) == Some(d.(runs := runs))
  }

  lemma ReachesMore(d: Document, ops: seq<Operation>, runs: seq<OcrRun>, op: Operation, more: seq<OcrRun>, now: Time)
    requires Reaches(d, ops, runs, now) && op.ChangeJob? && DoChangeJob(d.(runs := runs), op) == Some(d.(runs := more))
    ensures Reaches(d, ops + [op], more, now)
  {
    PerformMore(d, ops, op, now);
  }

  lemma NothingReached(d: Document, after: seq<OcrRun>, now: Time)
    requires |d.runs| == |after|
    ensures Reaches(d, [], Mixed(d.runs, after, 0), now)
  {
    assert Mixed(d.runs, after, 0) == d.runs;
  }

  lemma OneMoreReached(d: Document, after: seq<OcrRun>, n: nat, ops: seq<Operation>, now: Time) returns (more: seq<Operation>)
    requires LegalChanges(d.runs, after) && n < |d.runs| && Reaches(d, ops, Mixed(d.runs, after, n), now)
    ensures Reaches(d, more, Mixed(d.runs, after, n + 1), now)
  {
    if after[n].job == d.runs[n].job {
      UnchangedMovesOn(d.runs, after, n);
      more := ops;
    } else {
      var op := ChangeJob(d.runs[n].id, d.runs[n].job, after[n].job);
      OneRunChanges(d.(runs := Mixed(d.runs, after, n)), d.runs, after, n);
      ReachesMore(d, ops, Mixed(d.runs, after, n), op, Mixed(d.runs, after, n + 1), now);
      more := ops + [op];
    }
  }

  lemma {:induction false} JobChangesReach(d: Document, after: seq<OcrRun>, n: nat, now: Time) returns (ops: seq<Operation>)
    requires LegalChanges(d.runs, after) && n <= |d.runs|
    ensures Reaches(d, ops, Mixed(d.runs, after, n), now)
    decreases n
  {
    if n == 0 {
      ops := [];
      NothingReached(d, after, now);
    } else {
      ops := JobChangesReach(d, after, n - 1, now);
      ops := OneMoreReached(d, after, n - 1, ops, now);
    }
  }

  /**
   Whatever the job protocol does to the jobs of a document's runs, short of
   completing one, is a sequence of the job changes that the review model allows.
   */
  lemma BoardStepIsJobChanges(d: Document, board: Jobs.Board, step: Jobs.Step, now: Time) returns (ops: seq<Operation>)
    requires RunsOk(d.runs) && Linked(d.runs, board) && Jobs.Legal(board, step)
    requires forall i :: 0 <= i < |d.runs| ==> !Completes(step, d.runs[i].id)
    ensures forall i :: 0 <= i < |d.runs| ==> d.runs[i].id in Jobs.Apply(board, step).jobs
    ensures OnlyJobChanges(ops) && PerformAll(d, ops, now) == Some(d.(runs := Viewed(d.runs, Jobs.Apply(board, step))))
    ensures Linked(Viewed(d.runs, Jobs.Apply(board, step)), Jobs.Apply(board, step))
  {
    var after := Jobs.Apply(board, step);
    forall i | 0 <= i < |d.runs|
      ensures d.runs[i].id in after.jobs
      ensures after.jobs[d.runs[i].id].status == d.runs[i].job || LegalJobChange(d.runs[i].job, after.jobs[d.runs[i].id].status)
    {
      StatusChangesAreLegal(board, step, d.runs[i].id);
    }
    var viewed := Viewed(d.runs, after);
    ops := JobChangesReach(d, viewed, |d.runs|, now);
    assert Mixed(d.runs, viewed, |d.runs|) == viewed;
  }

  // ----- The completion, in both -----

  /** The document's part of the completion: it is not removed, and no published run has this run's fingerprint. */
  predicate Publishable(d: Document, run: RunId) {
    var fingerprint := FingerprintOf(d.runs, run);
    Active(d) && fingerprint.Some? && !Published(d.runs, fingerprint.value)
  }

  lemma {:induction false} FingerprintMeansRun(runs: seq<OcrRun>, id: RunId) returns (i: nat)
    requires FingerprintOf(runs, id).Some?
    ensures i < |runs| && runs[i].id == id
  {
    if runs[|runs| - 1].id == id {
      i := |runs| - 1;
    } else {
      i := FingerprintMeansRun(runs[..|runs| - 1], id);
    }
  }

  lemma RunningOnBoard(d: Document, board: Jobs.Board, run: RunId)
    requires RunsOk(d.runs) && Linked(d.runs, board) && FingerprintOf(d.runs, run).Some?
    ensures run in board.jobs && (RunIs(d.runs, run, Running) <==> board.jobs[run].status == Running)
  {
    var i := FingerprintMeansRun(d.runs, run);
    if RunIs(d.runs, run, Running) {
      var k :| 0 <= k < |d.runs| && d.runs[k].id == run && d.runs[k].job == Running;
    }
    if board.jobs[run].status == Running {
      assert d.runs[i].id == run && d.runs[i].job == Running;
    }
  }

  lemma PublicationStaysLinked(runs: seq<OcrRun>, board: Jobs.Board, run: RunId, receipt: Jobs.Receipt)
    requires Linked(runs, board) && run in board.jobs
    ensures Linked(Publish(runs, run), Jobs.Publish(board, run, receipt))
  {
  }

  /** What publishing a running run does in both tables. */
  lemma BothPublish(documents: map<DocumentId, Document>, id: DocumentId, board: Jobs.Board, run: RunId, receipt: Jobs.Receipt, now: Time)
    requires id in documents && RunsOk(documents[id].runs) && Linked(documents[id].runs, board)
    requires run in board.jobs && board.jobs[run].status == Running && Publishable(documents[id], run)
    ensures var d := documents[id];
      && DoCompleteOcr(d, CompleteOcr(run)) == Some(d.(runs := Publish(d.runs, run)))
      && ReviewStore.Performed(documents, id, CompleteOcr(run), now) == documents[id := d.(runs := Publish(d.runs, run))]
      && RunsOk(Publish(d.runs, run)) && Linked(Publish(d.runs, run), Jobs.Publish(board, run, receipt))
      && OpenRun(Publish(d.runs, run)) == Some(run)
  {
    var runs := documents[id].runs;
    RunningOnBoard(documents[id], board, run);
    PublishKeepsRuns(runs, run);
    PublicationStaysLinked(runs, board, run, receipt);
  }

  /**
   `CompleteOCR`: one transaction on the job and on the document's runs. The
   result is published exactly when the worker holds the unexpired lease and the
   document takes it; then the run is the open one, and both tables still agree.
   */
  method CompleteRecognition(jobs: Jobs.JobStore, reviews: ReviewStore.Store, id: DocumentId, lease: Jobs.Lease, worker: string,
                             fits: bool, now: Time) returns (r: Jobs.Completion)
    requires Jobs.Invariant(jobs.State())
    requires id in reviews.documents ==> RunsOk(reviews.documents[id].runs) && Linked(reviews.documents[id].runs, jobs.State())
    modifies jobs, reviews
    ensures r.Published? <==>
      && id in old(reviews.documents) && Publishable(old(reviews.documents)[id], lease.job) && fits
      && lease.job in old(jobs.jobs) && Jobs.Holds(old(jobs.jobs)[lease.job], lease) && old(jobs.jobs)[lease.job].worker == Some(worker)
    ensures r.Published? ==>
      && jobs.published == old(jobs.published) + [Jobs.Publication(lease.job, lease.attempt)]
      && DoCompleteOcr(old(reviews.documents)[id], CompleteOcr(lease.job)).Some?
      && reviews.documents == old(reviews.documents)[id := DoCompleteOcr(old(reviews.documents)[id], CompleteOcr(lease.job)).value]
      && OpenRun(reviews.documents[id].runs) == Some(lease.job)
    ensures !r.Published? ==> jobs.State() == old(jobs.State()) && reviews.documents == old(reviews.documents)
    ensures id in reviews.documents ==> RunsOk(reviews.documents[id].runs) && Linked(reviews.documents[id].runs, jobs.State())
  {
    if id !in reviews.documents || !Active(reviews.documents[id]) || FingerprintOf(reviews.documents[id].runs, lease.job).None? {
      return Jobs.LeaseLost;
    }
    ghost var board := jobs.State();
    r := jobs.CompleteOcr(lease, worker, fits && Publishable(reviews.documents[id], lease.job));
    if r.Published? {
      BothPublish(reviews.documents, id, board, lease.job, Jobs.OcrReceipt(lease, worker), now);
      var published := reviews.CompleteOcr(id, lease.job, now);
    }
  }
}
