/**
 Exports under leases: the job protocol and the snapshot check of a completion,
 put together. Board requests and review requests interleave; `when` says in which
 state of the review run a board request reads the documents.
 */
module LeasedExports {
  import opened Common
  import opened Exports
  import opened Review
  import opened ReviewInvariants
  import opened ReviewRuns
  import Jobs

  /** `CompleteExport`: the row count and the snapshot are checked, then the lease. */
  method CompleteDocumentExport(jobs: Jobs.JobStore, lease: Jobs.Lease, documents: Documents, snapshot: Snapshot, rowCount: nat)
    returns (r: Jobs.Completion)
    requires Jobs.Invariant(jobs.State())
    modifies jobs
    ensures Jobs.Invariant(jobs.State())
    ensures r.Published? <==> jobs.State() != old(jobs.State())
    ensures r.Published? <==>
      && lease.job in old(jobs.jobs) && Jobs.Holds(old(jobs.jobs)[lease.job], lease)
      && rowCount == snapshot.rowCount && SnapshotValid(documents, snapshot)
    ensures r.Published? ==> jobs.published == old(jobs.published) + [Jobs.Publication(lease.job, lease.attempt)]
    ensures r.Published? ==> lease.job in jobs.jobs && jobs.jobs[lease.job].status == Completed
  {
    var valid := ValidDocumentExportSnapshot(documents, snapshot);
    ghost var before := jobs.State();
    ghost var request := Jobs.Step.CompleteExport(lease, rowCount == snapshot.rowCount && valid);
    r := jobs.CompleteExport(lease, rowCount == snapshot.rowCount && valid);
    Jobs.CompletionKeepsInvariant(before, request);
  }

  // ----- Over runs -----

  ghost predicate BoardRun(boards: seq<Jobs.Board>, requests: seq<Jobs.Step>) {
    && |boards| == |requests| + 1 && boards[0] == Jobs.EMPTY
    && forall k :: 0 <= k < |requests| ==> Jobs.Legal(boards[k], requests[k]) && boards[k + 1] == Jobs.Apply(boards[k], requests[k])
  }

  /** How an export was queued: by which request, in which state, and for which selection. */
  datatype Queueing = Queueing(request: nat, at: nat, order: seq<DocumentId>, product: Product, status: Status)

  type Exporting = map<Jobs.JobId, Queueing>

  ghost predicate Orderable(states: seq<State>, q: Queueing) {
    q.at < |states| && forall id :: id in q.order ==> id in states[q.at].documents
  }

  /** The snapshot that `QueueDocumentExport` froze. */
  ghost function Frozen(states: seq<State>, q: Queueing): Snapshot
    requires Orderable(states, q)
  {
    var all := Selected(states[q.at].documents, q.order, q.product, q.status);
    Snapshot(q.product, q.status, |all|, RowsOf(all))
  }

  /** The transaction that froze the snapshot put the job on the board. */
  ghost predicate QueuedOnBoard(states: seq<State>, boards: seq<Jobs.Board>, requests: seq<Jobs.Step>, when: nat -> nat, id: Jobs.JobId, q: Queueing)
    requires |boards| > |requests|
  {
    && Orderable(states, q) && q.request < |requests| && when(q.request) == q.at
    && requests[q.request].Enqueue? && requests[q.request].id == id && id !in boards[q.request].jobs
  }

  ghost predicate AllQueued(states: seq<State>, exports: Exporting, boards: seq<Jobs.Board>, requests: seq<Jobs.Step>, when: nat -> nat)
    requires |boards| > |requests|
  {
    forall id :: id in exports ==> QueuedOnBoard(states, boards, requests, when, id, exports[id])
  }

  /** Later requests read later states. */
  ghost predicate Monotone(when: nat -> nat) {
    forall j: nat, k: nat :: j <= k ==> when(j) <= when(k)
  }

  ghost predicate CheckedAt(states: seq<State>, exports: Exporting, board: Jobs.Board, request: Jobs.Step, at: nat) {
    && (request.CompleteExport? && request.accepted && request.lease.job in board.jobs ==>
          && board.jobs[request.lease.job].kind == Jobs.Export && request.lease.job in exports
          && at < |states| && Orderable(states, exports[request.lease.job])
          && SnapshotValid(states[at].documents, Frozen(states, exports[request.lease.job])))
    && (request.CompleteOcr? && request.accepted && request.lease.job in board.jobs ==> board.jobs[request.lease.job].kind == Jobs.Ocr)
  }

  /** Every completion is accepted only for its kind of job, and an export only over a valid snapshot. */
  ghost predicate Checked(states: seq<State>, exports: Exporting, boards: seq<Jobs.Board>, requests: seq<Jobs.Step>, when: nat -> nat)
    requires |boards| > |requests|
  {
    forall k :: 0 <= k < |requests| ==> CheckedAt(states, exports, boards[k], requests[k], when(k))
  }

  /** Request k published this: the unexpired holder of the job, and for an export over a valid snapshot. */
  ghost predicate PublishedBy(states: seq<State>, exports: Exporting, boards: seq<Jobs.Board>, requests: seq<Jobs.Step>, when: nat -> nat,
                              p: Jobs.Publication, k: nat)
  {
    && k < |requests| < |boards| && p.job in boards[k].jobs
    && (requests[k].CompleteExport? || requests[k].CompleteOcr?)
    && requests[k].lease.job == p.job && requests[k].lease.attempt == p.attempt
    && Jobs.Holds(boards[k].jobs[p.job], requests[k].lease)
    && (boards[k].jobs[p.job].kind == Jobs.Export ==>
          && requests[k].CompleteExport? && p.job in exports && when(k) < |states| && Orderable(states, exports[p.job])
          && SnapshotValid(states[when(k)].documents, Frozen(states, exports[p.job])))
  }

  lemma KindStays(board: Jobs.Board, request: Jobs.Step, id: Jobs.JobId)
    requires Jobs.Legal(board, request) && id in board.jobs
    ensures id in Jobs.Apply(board, request).jobs && Jobs.Apply(board, request).jobs[id].kind == board.jobs[id].kind
  {
    Jobs.JobsStay(board, request, id);
  }

  lemma {:induction false} KindStaysOverRuns(boards: seq<Jobs.Board>, requests: seq<Jobs.Step>, j: nat, k: nat, id: Jobs.JobId)
    requires BoardRun(boards, requests) && j <= k < |boards| && id in boards[j].jobs
    ensures id in boards[k].jobs && boards[k].jobs[id].kind == boards[j].jobs[id].kind
  {
    if j < k {
      KindStaysOverRuns(boards, requests, j, k - 1, id);
      KindStays(boards[k - 1], requests[k - 1], id);
    }
  }

  lemma PublicationIsChecked(states: seq<State>, exports: Exporting, boards: seq<Jobs.Board>, requests: seq<Jobs.Step>, when: nat -> nat,
                             p: Jobs.Publication, k: nat)
    requires BoardRun(boards, requests) && Checked(states, exports, boards, requests, when)
    requires k < |requests| && p in boards[k + 1].published && p !in boards[k].published
    ensures PublishedBy(states, exports, boards, requests, when, p, k)
  {
    Jobs.OnlyTheHolderPublishes(boards[k], requests[k]);
    assert CheckedAt(states, exports, boards[k], requests[k], when(k));
    assert Jobs.Apply(boards[k], requests[k]) != boards[k];
  }

  /** Whatever has been published was published by the unexpired holder, and an export over a snapshot valid at that moment. */
  lemma {:induction false} EveryPublicationIsChecked(states: seq<State>, exports: Exporting, boards: seq<Jobs.Board>, requests: seq<Jobs.Step>,
                                                    when: nat -> nat, n: nat, p: Jobs.Publication) returns (k: nat)
    requires BoardRun(boards, requests) && Checked(states, exports, boards, requests, when)
    requires n < |boards| && p in boards[n].published
    ensures k < n && PublishedBy(states, exports, boards, requests, when, p, k)
    decreases n
  {
    if p in boards[n - 1].published {
      k := EveryPublicationIsChecked(states, exports, boards, requests, when, n - 1, p);
    } else {
      k := n - 1;
      PublicationIsChecked(states, exports, boards, requests, when, p, k);
    }
  }

  lemma QueuedBefore(states: seq<State>, boards: seq<Jobs.Board>, requests: seq<Jobs.Step>, when: nat -> nat, id: Jobs.JobId, q: Queueing, k: nat)
    requires BoardRun(boards, requests) && QueuedOnBoard(states, boards, requests, when, id, q)
    requires k < |boards| && id in boards[k].jobs
    ensures q.request < k
  {
    if k <= q.request {
      KindStaysOverRuns(boards, requests, k, q.request, id);
    }
  }

  lemma FrozenIsValid(states: seq<State>, steps: seq<ReviewRuns.Step>, q: Queueing)
    requires ReviewRuns.Run(states, steps) && Orderable(states, q)
    ensures SnapshotValid(states[q.at].documents, Frozen(states, q))
  {
    RunKeepsInvariant(states, steps, q.at);
    QueuedIsValid(states[q.at].documents, q.order, q.product, q.status, states[q.at].clock);
  }

  /**
   A published export: its publisher held the job's unexpired lease, and every row
   of the selection that was frozen when the export was queued was current in
   every state from then to the publication.
   */
  lemma PublishedExportIsSound(states: seq<State>, steps: seq<ReviewRuns.Step>, exports: Exporting, boards: seq<Jobs.Board>,
                               requests: seq<Jobs.Step>, when: nat -> nat, n: nat, p: Jobs.Publication) returns (k: nat)
    requires ReviewRuns.Run(states, steps) && BoardRun(boards, requests) && Monotone(when)
    requires Checked(states, exports, boards, requests, when) && AllQueued(states, exports, boards, requests, when)
    requires n < |boards| && p in boards[n].published && p.job in boards[n].jobs && boards[n].jobs[p.job].kind == Jobs.Export
    ensures k < n && k < |requests| && p.job in boards[k].jobs && requests[k].CompleteExport?
    ensures requests[k].lease.job == p.job && requests[k].lease.attempt == p.attempt && Jobs.Holds(boards[k].jobs[p.job], requests[k].lease)
    ensures p.job in exports && exports[p.job].request < k && exports[p.job].at <= when(k) < |states| && Orderable(states, exports[p.job])
    ensures forall j: nat :: exports[p.job].at <= j <= when(k) ==> SnapshotValid(states[j].documents, Frozen(states, exports[p.job]))
  {
    k := EveryPublicationIsChecked(states, exports, boards, requests, when, n, p);
    KindStaysOverRuns(boards, requests, k, n, p.job);
    var q := exports[p.job];
    QueuedBefore(states, boards, requests, when, p.job, q, k);
    FrozenIsValid(states, steps, q);
    forall j: nat | q.at <= j <= when(k)
      ensures SnapshotValid(states[j].documents, Frozen(states, q))
    {
      ValidityIsContinuous(states, steps, q.at, j, when(k), Frozen(states, q));
    }
  }
}
