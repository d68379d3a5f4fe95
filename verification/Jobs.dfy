/**
 Durable jobs and their leases: claim, reclaim, heartbeat, failure, completion.

 `Apply` gives the board after one request, `Run` after any sequence of them.
 Each request carries its own clock reading, so what is proved over runs holds
 whatever the clocks of the requests say.
 */
module Jobs {
  import opened Common

  type JobId = nat
  type AttemptId = nat
  type Token = nat

  /** The stored digest of a lease token; distinct tokens have distinct digests. */
  datatype Hash = Hash(token: Token)

  datatype Kind = Export | Ocr

  /** The attempt that completed the job, as recorded in its result. */
  datatype Receipt = Receipt(attempt: AttemptId, hash: Option<Hash>, worker: Option<string>)

  datatype Job = Job(
    kind: Kind, status: JobStatus, attempts: nat, maxAttempts: nat,
    attempt: Option<AttemptId>, leaseHash: Option<Hash>, expires: Option<int>, worker: Option<string>,
    available: int, created: int, result: Option<Receipt>, reclaims: nat)

  /** One `job.claimed` or `job.reclaimed` record. */
  datatype Claim = Claim(job: JobId, attempt: AttemptId, token: Token)

  /** One artifact row, or one published recognition run. */
  datatype Publication = Publication(job: JobId, attempt: AttemptId)

  datatype Board = Board(jobs: map<JobId, Job>, issued: seq<Claim>, published: seq<Publication>)

  datatype Lease = Lease(job: JobId, attempt: AttemptId, token: Token, now: int)

  datatype ClaimCommand = ClaimCommand(worker: string, kinds: set<Kind>, limit: nat, lease: int, now: int)

  datatype Step =
    | Enqueue(id: JobId, kind: Kind, maxAttempts: nat, now: int)
    | ClaimJobs(command: ClaimCommand, picks: seq<Claim>)
    | Heartbeat(lease: Lease, length: int)
    | Fail(lease: Lease, transient: bool, retryAfter: nat, jitter: nat)
    | CompleteExport(lease: Lease, accepted: bool)
    | CompleteOcr(lease: Lease, worker: string, accepted: bool)
    | CancelQueued(id: JobId)

  // ----- Transitions of one job -----

  function NewJob(kind: Kind, maxAttempts: nat, now: int): Job {
    Job(kind, Queued, 0, maxAttempts, None, None, None, None, now, now, None, 0)
  }

  predicate Terminal(job: Job) {
    job.status in {Completed, Failed, Cancelled}
  }

  predicate Expired(job: Job, now: int) {
    job.status == Running && job.expires.Some? && job.expires.value <= now
  }

  predicate Exhausted(job: Job, now: int) {
    Expired(job, now) && job.attempts >= job.maxAttempts
  }

  predicate Claimable(job: Job, kinds: set<Kind>, now: int) {
    && job.kind in kinds && job.attempts < job.maxAttempts
    && ((job.status == Queued && job.available <= now) || Expired(job, now))
  }

  /** The order of the claim query: available time, then creation, then id. */
  predicate DueBefore(jobs: map<JobId, Job>, a: JobId, b: JobId)
    requires a in jobs && b in jobs
  {
    var x, y := jobs[a], jobs[b];
    x.available < y.available || (x.available == y.available && (x.created < y.created || (x.created == y.created && a < b)))
  }

  /** The lease check that every worker request makes. */
  predicate Holds(job: Job, lease: Lease) {
    && job.status == Running && job.attempt == Some(lease.attempt) && job.leaseHash == Some(Hash(lease.token))
    && job.expires.Some? && job.expires.value > lease.now
  }

  function Released(job: Job, status: JobStatus): Job {
    job.(status := status, attempt := None, leaseHash := None, expires := None, worker := None)
  }

  function Claimed(job: Job, pick: Claim, command: ClaimCommand): Job {
    job.(status := Running, attempts := job.attempts + 1, attempt := Some(pick.attempt), leaseHash := Some(Hash(pick.token)),
         expires := Some(command.now + command.lease), worker := Some(command.worker),
         reclaims := job.reclaims + if job.status == Running then 1 else 0)
  }

  function Pow2(n: nat): nat {
    if n == 0 then 1 else 2 * Pow2(n - 1)
  }

  /** Exponential backoff in milliseconds with jitter, raised to the provider's hint. */
  function Backoff(attempts: nat, retryAfter: nat, jitter: nat): nat {
    Max(Pow2(Min(attempts, 8)) * 1000 + jitter, retryAfter)
  }

  predicate Transient(code: string) {
    code in {"temporary_upstream", "rate_limited", "artifact_upload_failed"}
  }

  function FailedJob(job: Job, step: Step): Job
    requires step.Fail?
  {
    if step.transient && job.attempts < job.maxAttempts
    then Released(job, Queued).(available := step.lease.now + Backoff(job.attempts, step.retryAfter, step.jitter))
    else Released(job, Failed).(available := step.lease.now)
  }

  function CompletedJob(job: Job, receipt: Receipt): Job {
    Released(job, Completed).(result := Some(receipt))
  }

  function ExportReceipt(lease: Lease): Receipt {
    Receipt(lease.attempt, None, None)
  }

  function OcrReceipt(lease: Lease, worker: string): Receipt {
    Receipt(lease.attempt, Some(Hash(lease.token)), Some(worker))
  }

  // ----- Transitions of the board -----

  function Exhaust(board: Board, now: int): Board {
    board.(jobs := map id | id in board.jobs ::
             if Exhausted(board.jobs[id], now) then Released(board.jobs[id], Failed) else board.jobs[id])
  }

  /** The selected candidates are leased one after the other. */
  function ClaimAll(board: Board, command: ClaimCommand, picks: seq<Claim>): Board
    decreases |picks|
  {
    if picks == [] then board
    else
      var earlier := ClaimAll(board, command, picks[..|picks| - 1]);
      var pick := picks[|picks| - 1];
      if pick.job !in earlier.jobs then earlier
      else earlier.(jobs := earlier.jobs[pick.job := Claimed(earlier.jobs[pick.job], pick, command)], issued := earlier.issued + [pick])
  }

  predicate ValidClaim(command: ClaimCommand) {
    command.worker != "" && 1 <= command.limit <= 10 && command.lease > 0 && command.kinds != {}
  }

  function Publish(board: Board, id: JobId, receipt: Receipt): Board
    requires id in board.jobs
  {
    board.(jobs := board.jobs[id := CompletedJob(board.jobs[id], receipt)],
           published := board.published + [Publication(id, receipt.attempt)])
  }

  function Apply(board: Board, step: Step): Board {
    match step
    case Enqueue(id, kind, maxAttempts, now) =>
      if id in board.jobs || !(1 <= maxAttempts <= 5) then board
      else board.(jobs := board.jobs[id := NewJob(kind, maxAttempts, now)])
    case ClaimJobs(command, picks) =>
      if !ValidClaim(command) then board else ClaimAll(Exhaust(board, command.now), command, picks)
    case Heartbeat(lease, length) =>
      if lease.job !in board.jobs || !Holds(board.jobs[lease.job], lease) then board
      else board.(jobs := board.jobs[lease.job := board.jobs[lease.job].(expires := Some(lease.now + length))])
    case Fail(lease, _, _, _) =>
      if lease.job !in board.jobs || !Holds(board.jobs[lease.job], lease) then board
      else board.(jobs := board.jobs[lease.job := FailedJob(board.jobs[lease.job], step)])
    case CompleteExport(lease, accepted) =>
      if lease.job !in board.jobs || !accepted || !Holds(board.jobs[lease.job], lease) then board
      else Publish(board, lease.job, ExportReceipt(lease))
    case CompleteOcr(lease, worker, accepted) =>
      if lease.job !in board.jobs || !accepted || !Holds(board.jobs[lease.job], lease) || board.jobs[lease.job].worker != Some(worker) then board
      else Publish(board, lease.job, OcrReceipt(lease, worker))
    case CancelQueued(id) =>
      if id !in board.jobs || board.jobs[id].status != Queued then board
      else board.(jobs := board.jobs[id := board.jobs[id].(status := Cancelled)])
  }

  // ----- Runs -----

  /** The rows that one claim request may have selected. */
  ghost predicate Selected(board: Board, command: ClaimCommand, picks: seq<Claim>) {
    && (forall i, j :: 0 <= i < j < |picks| ==> picks[i].job != picks[j].job && picks[i].attempt != picks[j].attempt)
    && forall pick :: pick in picks ==>
         && pick.job in board.jobs && Claimable(board.jobs[pick.job], command.kinds, command.now)
         && !Issued(board, pick.attempt)
  }

  /** The secrets of a claim are fresh and its rows are the ones the locked query may return. */
  ghost predicate Legal(board: Board, step: Step) {
    step.ClaimJobs? && ValidClaim(step.command) ==>
      |step.picks| <= step.command.limit && Selected(board, step.command, step.picks)
  }

  function Run(board: Board, steps: seq<Step>): Board
    decreases |steps|
  {
    if steps == [] then board else Run(Apply(board, steps[0]), steps[1..])
  }

  ghost predicate LegalRun(board: Board, steps: seq<Step>)
    decreases |steps|
  {
    steps == [] || (Legal(board, steps[0]) && LegalRun(Apply(board, steps[0]), steps[1..]))
  }

  const EMPTY := Board(map[], [], [])

  ghost predicate Issued(board: Board, attempt: AttemptId) {
    exists claim :: claim in board.issued && claim.attempt == attempt
  }

  // ----- What every reachable board satisfies -----

  ghost predicate JobInvariant(job: Job) {
    && (job.status == Running <==> job.attempt.Some?)
    && (job.status == Running <==> job.leaseHash.Some?)
    && (job.status == Running <==> job.expires.Some?)
    && (job.status == Running <==> job.worker.Some?)
    && (job.status == Completed <==> job.result.Some?)
    && 1 <= job.maxAttempts <= 5 && job.attempts <= job.maxAttempts
    && (job.status == Queued ==> job.attempts < job.maxAttempts)
    && (job.status == Running ==> job.attempts > 0)
  }

  function ClaimsOf(issued: seq<Claim>, id: JobId): nat {
    if issued == [] then 0
    else ClaimsOf(issued[..|issued| - 1], id) + if issued[|issued| - 1].job == id then 1 else 0
  }

  /** Entry k issued the lease that the job carries, and no later entry is about this job. */
  ghost predicate HolderEntry(issued: seq<Claim>, k: nat, id: JobId, job: Job) {
    && k < |issued| && issued[k].job == id
    && job.attempt == Some(issued[k].attempt) && job.leaseHash == Some(Hash(issued[k].token))
    && forall l :: k < l < |issued| ==> issued[l].job != id
  }

  /** The holder is the last attempt ever issued for the job. */
  ghost predicate HeldByLatest(issued: seq<Claim>, id: JobId, job: Job) {
    job.status == Running ==> exists k :: HolderEntry(issued, k, id, job)
  }

  ghost predicate LogInvariant(board: Board) {
    && (forall i, j :: 0 <= i < j < |board.issued| ==> board.issued[i].attempt != board.issued[j].attempt)
    && (forall claim :: claim in board.issued ==> claim.job in board.jobs)
    && (forall id :: id in board.jobs ==> board.jobs[id].attempts == ClaimsOf(board.issued, id))
    && (forall id :: id in board.jobs ==> HeldByLatest(board.issued, id, board.jobs[id]))
  }

  /** Every completed job is published once, by the attempt that its result names. */
  ghost predicate PublicationInvariant(board: Board) {
    && (forall i, j :: 0 <= i < j < |board.published| ==> board.published[i].job != board.published[j].job)
    && (forall p :: p in board.published ==> p.job in board.jobs && board.jobs[p.job].status == Completed)
    && (forall id :: id in board.jobs && board.jobs[id].result.Some? ==>
          Publication(id, board.jobs[id].result.value.attempt) in board.published)
  }

  ghost predicate Invariant(board: Board) {
    && (forall id :: id in board.jobs ==> JobInvariant(board.jobs[id]))
    && LogInvariant(board)
    && PublicationInvariant(board)
  }

  /** Claiming a batch claims each picked job once and touches no other job. */
  lemma {:induction false} BatchClaimsEachPick(board: Board, command: ClaimCommand, picks: seq<Claim>)
    requires forall i, j :: 0 <= i < j < |picks| ==> picks[i].job != picks[j].job
    requires forall pick :: pick in picks ==> pick.job in board.jobs
    ensures var after := ClaimAll(board, command, picks);
      && after.jobs.Keys == board.jobs.Keys && after.issued == board.issued + picks && after.published == board.published
      && (forall pick :: pick in picks ==> after.jobs[pick.job] == Claimed(board.jobs[pick.job], pick, command))
      && (forall id :: id in board.jobs && (forall pick :: pick in picks ==> pick.job != id) ==> after.jobs[id] == board.jobs[id])
    decreases |picks|
  {
    if picks == [] {
      assert board.issued + picks == board.issued;
    } else {
      var init, last := picks[..|picks| - 1], picks[|picks| - 1];
      assert picks == init + [last];
      BatchClaimsEachPick(board, command, init);
      assert board.issued + picks == board.issued + init + [last];
    }
  }

  lemma {:induction false} ClaimsOfAppend(issued: seq<Claim>, picks: seq<Claim>, id: JobId)
    ensures ClaimsOf(issued + picks, id) == ClaimsOf(issued, id) + ClaimsOf(picks, id)
  {
    if picks == [] {
      assert issued + picks == issued;
    } else {
      ClaimsOfAppend(issued, picks[..|picks| - 1], id);
      assert (issued + picks)[..|issued + picks| - 1] == issued + picks[..|picks| - 1];
    }
  }

  lemma {:induction false} ClaimsOfDistinct(picks: seq<Claim>, id: JobId)
    requires forall i, j :: 0 <= i < j < |picks| ==> picks[i].job != picks[j].job
    ensures ClaimsOf(picks, id) == if exists pick :: pick in picks && pick.job == id then 1 else 0
  {
    if picks != [] {
      var init, last := picks[..|picks| - 1], picks[|picks| - 1];
      ClaimsOfDistinct(init, id);
      assert picks == init + [last];
    }
  }

  /** An update of one unpublished job that leaves its attempt count and either keeps or ends its lease. */
  lemma JobUpdateKeepsLog(board: Board, id: JobId, job: Job)
    requires LogInvariant(board) && id in board.jobs && job.attempts == board.jobs[id].attempts
    requires var before := board.jobs[id];
      job.status == Running ==> before.status == Running && job.attempt == before.attempt && job.leaseHash == before.leaseHash
    ensures LogInvariant(board.(jobs := board.jobs[id := job]))
  {
    assert HeldByLatest(board.issued, id, board.jobs[id]);
    if job.status == Running {
      var k: nat :| HolderEntry(board.issued, k, id, board.jobs[id]);
      assert HolderEntry(board.issued, k, id, job);
    }
  }

  lemma JobUpdateKeepsPublications(board: Board, id: JobId, job: Job)
    requires PublicationInvariant(board) && id in board.jobs && board.jobs[id].status != Completed && job.result.None?
    ensures PublicationInvariant(board.(jobs := board.jobs[id := job]))
  {
  }

  lemma JobUpdateKeepsInvariant(board: Board, id: JobId, job: Job)
    requires Invariant(board) && id in board.jobs
    requires var before := board.jobs[id];
      && JobInvariant(job) && job.attempts == before.attempts && before.status != Completed && job.status != Completed
      && (job.status == Running ==> before.status == Running && job.attempt == before.attempt && job.leaseHash == before.leaseHash)
    ensures Invariant(board.(jobs := board.jobs[id := job]))
  {
    JobUpdateKeepsLog(board, id, job);
    JobUpdateKeepsPublications(board, id, job);
  }

  /** No publication names a job that is not completed. */
  lemma UnpublishedJob(board: Board, id: JobId, p: Publication)
    requires PublicationInvariant(board) && id in board.jobs && board.jobs[id].status != Completed && p in board.published
    ensures p.job != id
  {
  }

  lemma PublishKeepsPublications(board: Board, id: JobId, receipt: Receipt)
    requires Invariant(board) && id in board.jobs && board.jobs[id].status == Running
    ensures PublicationInvariant(Publish(board, id, receipt))
  {
    var after, last := Publish(board, id, receipt), Publication(id, receipt.attempt);
    forall p | p in board.published
      ensures p.job != id
    {
      UnpublishedJob(board, id, p);
    }
    assert after.published[|board.published|] == last;
    forall i, j | 0 <= i < j < |after.published|
      ensures after.published[i].job != after.published[j].job
    {
      assert after.published[i] in board.published;
    }
    forall other | other in after.jobs && after.jobs[other].result.Some?
      ensures Publication(other, after.jobs[other].result.value.attempt) in after.published
    {
      assert other != id ==> Publication(other, board.jobs[other].result.value.attempt) in board.published;
    }
  }

  lemma PublishKeepsLog(board: Board, id: JobId, receipt: Receipt)
    requires LogInvariant(board) && id in board.jobs
    ensures LogInvariant(Publish(board, id, receipt))
  {
    var after := Publish(board, id, receipt);
    forall other | other in after.jobs
      ensures HeldByLatest(after.issued, other, after.jobs[other])
    {
      assert HeldByLatest(board.issued, other, board.jobs[other]);
    }
  }

  lemma PublishKeepsInvariant(board: Board, id: JobId, receipt: Receipt)
    requires Invariant(board) && id in board.jobs && board.jobs[id].status == Running
    ensures Invariant(Publish(board, id, receipt))
  {
    PublishKeepsPublications(board, id, receipt);
    PublishKeepsLog(board, id, receipt);
  }

  lemma EnqueueKeepsInvariant(board: Board, id: JobId, job: Job)
    requires Invariant(board) && id !in board.jobs && JobInvariant(job) && job.status == Queued && job.attempts == 0
    ensures Invariant(board.(jobs := board.jobs[id := job]))
  {
    NeverClaimed(board.issued, id);
  }

  lemma {:induction false} NeverClaimed(issued: seq<Claim>, id: JobId)
    requires forall claim :: claim in issued ==> claim.job != id
    ensures ClaimsOf(issued, id) == 0
  {
    if issued != [] {
      NeverClaimed(issued[..|issued| - 1], id);
    }
  }

  lemma ExhaustKeepsInvariant(board: Board, now: int)
    requires Invariant(board)
    ensures Invariant(Exhaust(board, now))
  {
    var after := Exhaust(board, now);
    forall id | id in after.jobs
      ensures JobInvariant(after.jobs[id]) && HeldByLatest(after.issued, id, after.jobs[id])
    {
      assert HeldByLatest(board.issued, id, board.jobs[id]);
    }
  }

  lemma PickedJobIsKept(board: Board, command: ClaimCommand, pick: Claim)
    requires Invariant(board) && pick.job in board.jobs && Claimable(board.jobs[pick.job], command.kinds, command.now)
    ensures var job := Claimed(board.jobs[pick.job], pick, command);
      JobInvariant(job) && job.attempts == ClaimsOf(board.issued, pick.job) + 1
  {
  }

  ghost predicate Picked(picks: seq<Claim>, id: JobId) {
    exists pick :: pick in picks && pick.job == id
  }

  /** A picked job is leased to its pick. */
  lemma PickOf(board: Board, command: ClaimCommand, picks: seq<Claim>, id: JobId) returns (p: nat)
    requires Selected(board, command, picks) && Picked(picks, id)
    ensures p < |picks| && picks[p].job == id && id in board.jobs && Claimable(board.jobs[id], command.kinds, command.now)
    ensures id in ClaimAll(board, command, picks).jobs && ClaimAll(board, command, picks).jobs[id] == Claimed(board.jobs[id], picks[p], command)
  {
    BatchClaimsEachPick(board, command, picks);
    p :| 0 <= p < |picks| && picks[p].job == id;
    assert picks[p] in picks;
  }

  lemma UnpickedStays(board: Board, command: ClaimCommand, picks: seq<Claim>, id: JobId)
    requires Selected(board, command, picks) && !Picked(picks, id) && id in board.jobs
    ensures id in ClaimAll(board, command, picks).jobs && ClaimAll(board, command, picks).jobs[id] == board.jobs[id]
  {
    BatchClaimsEachPick(board, command, picks);
    assert forall pick :: pick in picks ==> pick.job != id;
  }

  lemma ClaimsAfter(board: Board, command: ClaimCommand, picks: seq<Claim>, id: JobId)
    requires Selected(board, command, picks)
    ensures ClaimsOf(board.issued + picks, id) == ClaimsOf(board.issued, id) + if Picked(picks, id) then 1 else 0
  {
    ClaimsOfAppend(board.issued, picks, id);
    ClaimsOfDistinct(picks, id);
  }

  lemma ClaimKeepsJob(board: Board, command: ClaimCommand, picks: seq<Claim>, id: JobId)
    requires Invariant(board) && Selected(board, command, picks) && id in board.jobs
    ensures var after := ClaimAll(board, command, picks);
      id in after.jobs && JobInvariant(after.jobs[id]) && after.jobs[id].attempts == ClaimsOf(board.issued + picks, id)
  {
    ClaimsAfter(board, command, picks, id);
    if Picked(picks, id) {
      var p := PickOf(board, command, picks, id);
      PickedJobIsKept(board, command, picks[p]);
    } else {
      UnpickedStays(board, command, picks, id);
    }
  }

  lemma ClaimsKeepJobs(board: Board, command: ClaimCommand, picks: seq<Claim>)
    requires Invariant(board) && Selected(board, command, picks)
    ensures forall id :: id in ClaimAll(board, command, picks).jobs ==>
      && JobInvariant(ClaimAll(board, command, picks).jobs[id])
      && ClaimAll(board, command, picks).jobs[id].attempts == ClaimsOf(board.issued + picks, id)
  {
    var after := ClaimAll(board, command, picks);
    BatchClaimsEachPick(board, command, picks);
    forall id | id in after.jobs
      ensures JobInvariant(after.jobs[id]) && after.jobs[id].attempts == ClaimsOf(board.issued + picks, id)
    {
      ClaimKeepsJob(board, command, picks, id);
    }
  }

  lemma ClaimKeepsResult(board: Board, command: ClaimCommand, picks: seq<Claim>, id: JobId)
    requires Selected(board, command, picks) && id in board.jobs
    ensures var after := ClaimAll(board, command, picks);
      id in after.jobs && after.jobs[id].result == board.jobs[id].result && (board.jobs[id].status == Completed ==> after.jobs[id].status == Completed)
  {
    if Picked(picks, id) {
      var p := PickOf(board, command, picks, id);
    } else {
      UnpickedStays(board, command, picks, id);
    }
  }

  lemma ClaimsKeepPublications(board: Board, command: ClaimCommand, picks: seq<Claim>)
    requires Invariant(board) && Selected(board, command, picks)
    ensures PublicationInvariant(ClaimAll(board, command, picks))
  {
    BatchClaimsEachPick(board, command, picks);
    forall id | id in board.jobs {
      ClaimKeepsResult(board, command, picks, id);
    }
  }

  lemma FreshClaimsStayDistinct(board: Board, picks: seq<Claim>)
    requires forall i, j :: 0 <= i < j < |board.issued| ==> board.issued[i].attempt != board.issued[j].attempt
    requires forall i, j :: 0 <= i < j < |picks| ==> picks[i].attempt != picks[j].attempt
    requires forall pick :: pick in picks ==> !Issued(board, pick.attempt)
    ensures var log := board.issued + picks; forall i, j :: 0 <= i < j < |log| ==> log[i].attempt != log[j].attempt
  {
    var log := board.issued + picks;
    forall i, j | 0 <= i < j < |log|
      ensures log[i].attempt != log[j].attempt
    {
      if i < |board.issued| <= j {
        assert !Issued(board, picks[j - |board.issued|].attempt);
        assert board.issued[i] in board.issued;
      }
    }
  }

  lemma PickedJobIsHeld(issued: seq<Claim>, picks: seq<Claim>, p: nat, job: Job)
    requires p < |picks| && forall i, j :: 0 <= i < j < |picks| ==> picks[i].job != picks[j].job
    requires job.attempt == Some(picks[p].attempt) && job.leaseHash == Some(Hash(picks[p].token))
    ensures HeldByLatest(issued + picks, picks[p].job, job)
  {
    assert HolderEntry(issued + picks, |issued| + p, picks[p].job, job);
  }

  lemma OtherJobStaysHeld(issued: seq<Claim>, picks: seq<Claim>, id: JobId, job: Job)
    requires HeldByLatest(issued, id, job) && forall pick :: pick in picks ==> pick.job != id
    ensures HeldByLatest(issued + picks, id, job)
  {
    if job.status == Running {
      var k: nat :| HolderEntry(issued, k, id, job);
      forall l | k < l < |issued + picks|
        ensures (issued + picks)[l].job != id
      {
        if l >= |issued| {
          assert picks[l - |issued|] in picks;
        }
      }
      assert HolderEntry(issued + picks, k, id, job);
    }
  }

  lemma ClaimKeepsHolder(board: Board, command: ClaimCommand, picks: seq<Claim>, id: JobId)
    requires Invariant(board) && Selected(board, command, picks) && id in board.jobs
    ensures id in ClaimAll(board, command, picks).jobs
    ensures HeldByLatest(board.issued + picks, id, ClaimAll(board, command, picks).jobs[id])
  {
    if Picked(picks, id) {
      var p := PickOf(board, command, picks, id);
      PickedJobIsHeld(board.issued, picks, p, ClaimAll(board, command, picks).jobs[id]);
    } else {
      UnpickedStays(board, command, picks, id);
      OtherJobStaysHeld(board.issued, picks, id, board.jobs[id]);
    }
  }

  lemma ClaimsKeepLog(board: Board, command: ClaimCommand, picks: seq<Claim>)
    requires Invariant(board) && Selected(board, command, picks)
    ensures LogInvariant(ClaimAll(board, command, picks))
  {
    var after := ClaimAll(board, command, picks);
    BatchClaimsEachPick(board, command, picks);
    ClaimsKeepJobs(board, command, picks);
    FreshClaimsStayDistinct(board, picks);
    forall id | id in after.jobs
      ensures HeldByLatest(after.issued, id, after.jobs[id])
    {
      ClaimKeepsHolder(board, command, picks, id);
    }
  }

  lemma ClaimStepKeepsInvariant(board: Board, command: ClaimCommand, picks: seq<Claim>)
    requires Invariant(board) && Selected(board, command, picks)
    ensures Invariant(ClaimAll(Exhaust(board, command.now), command, picks))
  {
    ExhaustKeepsInvariant(board, command.now);
    var swept := Exhaust(board, command.now);
    assert Selected(swept, command, picks);
    ClaimsKeepJobs(swept, command, picks);
    ClaimsKeepLog(swept, command, picks);
    ClaimsKeepPublications(swept, command, picks);
  }

  lemma LeaseStepKeepsInvariant(board: Board, step: Step)
    requires Invariant(board) && (step.Heartbeat? || step.Fail?)
    ensures Invariant(Apply(board, step))
  {
    var id := step.lease.job;
    if Apply(board, step) != board {
      var job := board.jobs[id];
      if step.Heartbeat? {
        JobUpdateKeepsInvariant(board, id, job.(expires := Some(step.lease.now + step.length)));
      } else {
        JobUpdateKeepsInvariant(board, id, FailedJob(job, step));
      }
    }
  }

  lemma CompletionKeepsInvariant(board: Board, step: Step)
    requires Invariant(board) && (step.CompleteExport? || step.CompleteOcr?)
    ensures Invariant(Apply(board, step))
  {
    if Apply(board, step) != board {
      PublishKeepsInvariant(board, step.lease.job, if step.CompleteExport? then ExportReceipt(step.lease) else OcrReceipt(step.lease, step.worker));
    }
  }

  /** Every request keeps the board's invariant. */
  lemma StepKeepsInvariant(board: Board, step: Step)
    requires Invariant(board) && Legal(board, step)
    ensures Invariant(Apply(board, step))
  {
    if Apply(board, step) != board {
      match step
      case Enqueue(id, kind, maxAttempts, now) => EnqueueKeepsInvariant(board, id, NewJob(kind, maxAttempts, now));
      case ClaimJobs(command, picks) => ClaimStepKeepsInvariant(board, command, picks);
      case CancelQueued(id) => JobUpdateKeepsInvariant(board, id, board.jobs[id].(status := Cancelled));
      case Heartbeat(_, _) => LeaseStepKeepsInvariant(board, step);
      case Fail(_, _, _, _) => LeaseStepKeepsInvariant(board, step);
      case _ => CompletionKeepsInvariant(board, step);
    }
  }

  lemma {:induction false} ReachableBoardsKeepInvariant(board: Board, steps: seq<Step>)
    requires Invariant(board) && LegalRun(board, steps)
    ensures Invariant(Run(board, steps))
    decreases |steps|
  {
    if steps != [] {
      StepKeepsInvariant(board, steps[0]);
      ReachableBoardsKeepInvariant(Apply(board, steps[0]), steps[1..]);
    }
  }

  // ----- Exclusivity -----

  /** The job row after any step: gone jobs do not exist, so the row is always there. */
  lemma JobsStay(board: Board, step: Step, id: JobId)
    requires Legal(board, step) && id in board.jobs
    ensures id in Apply(board, step).jobs
    ensures step.ClaimJobs? && ValidClaim(step.command) ==>
      var job, after := board.jobs[id], Apply(board, step).jobs[id];
      if Exhausted(job, step.command.now) then after == Released(job, Failed)
      else if exists pick :: pick in step.picks && pick.job == id
        then Claimable(job, step.command.kinds, step.command.now)
             && exists pick :: pick in step.picks && pick.job == id && after == Claimed(job, pick, step.command)
      else after == job
  {
    if step.ClaimJobs? && ValidClaim(step.command) {
      BatchClaimsEachPick(Exhaust(board, step.command.now), step.command, step.picks);
    }
  }

  /** Only the expiry of a lease lets another attempt take the job. */
  lemma TakeoverNeedsExpiry(board: Board, step: Step, id: JobId)
    requires Invariant(board) && Legal(board, step) && id in board.jobs && board.jobs[id].status == Running
    ensures id in Apply(board, step).jobs
    ensures Apply(board, step).jobs[id].attempt.Some? && Apply(board, step).jobs[id].attempt != board.jobs[id].attempt ==>
      && step.ClaimJobs? && board.jobs[id].expires.value <= step.command.now
      && !Issued(board, Apply(board, step).jobs[id].attempt.value)
  {
    JobsStay(board, step, id);
  }

  /** The claim does not find the lease expired, and no failure or completion carries the holder's unexpired lease. */
  predicate Spares(step: Step, id: JobId, job: Job) {
    && (step.ClaimJobs? ==> !Expired(job, step.command.now))
    && ((step.Fail? || step.CompleteExport? || step.CompleteOcr?) && step.lease.job == id ==> !Holds(job, step.lease))
  }

  ghost predicate Undisturbed(board: Board, steps: seq<Step>, id: JobId)
    decreases |steps|
  {
    steps == [] || id !in board.jobs ||
    (Spares(steps[0], id, board.jobs[id]) && Undisturbed(Apply(board, steps[0]), steps[1..], id))
  }

  lemma SparedHolderKeepsJob(board: Board, step: Step, id: JobId)
    requires Legal(board, step) && id in board.jobs && board.jobs[id].status == Running
    requires Spares(step, id, board.jobs[id])
    ensures id in Apply(board, step).jobs && Apply(board, step).jobs[id].status == Running
    ensures Apply(board, step).jobs[id].attempt == board.jobs[id].attempt
  {
    JobsStay(board, step, id);
  }

  /** Between claim and expiry the job belongs to its holder, over any number of requests. */
  lemma {:induction false} HolderKeepsUndisturbedJob(board: Board, steps: seq<Step>, id: JobId)
    requires LegalRun(board, steps) && id in board.jobs && board.jobs[id].status == Running
    requires Undisturbed(board, steps, id)
    ensures id in Run(board, steps).jobs && Run(board, steps).jobs[id].status == Running
    ensures Run(board, steps).jobs[id].attempt == board.jobs[id].attempt
    decreases |steps|
  {
    if steps != [] {
      SparedHolderKeepsJob(board, steps[0], id);
      HolderKeepsUndisturbedJob(Apply(board, steps[0]), steps[1..], id);
    }
  }

  /** The attempt was issued once and no job is held by it any more. */
  ghost predicate Gone(board: Board, attempt: AttemptId) {
    Issued(board, attempt) && forall id :: id in board.jobs ==> board.jobs[id].attempt != Some(attempt)
  }

  lemma IssuedStays(board: Board, step: Step, attempt: AttemptId)
    requires Legal(board, step) && Issued(board, attempt)
    ensures Issued(Apply(board, step), attempt)
  {
    var claim :| claim in board.issued && claim.attempt == attempt;
    if step.ClaimJobs? && ValidClaim(step.command) {
      BatchClaimsEachPick(Exhaust(board, step.command.now), step.command, step.picks);
    }
    assert claim in Apply(board, step).issued;
  }

  /** No step but a claim gives a job an attempt it did not have. */
  lemma OnlyClaimsIssue(board: Board, step: Step, id: JobId)
    requires !step.ClaimJobs? && id in Apply(board, step).jobs
    ensures var attempt := Apply(board, step).jobs[id].attempt;
      attempt == None || (id in board.jobs && attempt == board.jobs[id].attempt)
  {
  }

  /** A claim gives a job only an attempt never issued before. */
  lemma ClaimsIssueFreshAttempts(board: Board, command: ClaimCommand, picks: seq<Claim>, id: JobId)
    requires Legal(board, Step.ClaimJobs(command, picks)) && id in Apply(board, Step.ClaimJobs(command, picks)).jobs
    ensures id in board.jobs
    ensures var attempt := Apply(board, Step.ClaimJobs(command, picks)).jobs[id].attempt;
      attempt == None || attempt == board.jobs[id].attempt || !Issued(board, attempt.value)
  {
    if ValidClaim(command) {
      BatchClaimsEachPick(Exhaust(board, command.now), command, picks);
      if p :| 0 <= p < |picks| && picks[p].job == id {
        assert picks[p] in picks && !Issued(board, picks[p].attempt);
      } else {
        assert forall pick :: pick in picks ==> pick.job != id;
      }
    }
  }

  lemma GoneStaysGoneInOneStep(board: Board, step: Step, attempt: AttemptId)
    requires Legal(board, step) && Gone(board, attempt)
    ensures Gone(Apply(board, step), attempt)
  {
    IssuedStays(board, step, attempt);
    forall id | id in Apply(board, step).jobs
      ensures Apply(board, step).jobs[id].attempt != Some(attempt)
    {
      if step.ClaimJobs? {
        ClaimsIssueFreshAttempts(board, step.command, step.picks, id);
      } else {
        OnlyClaimsIssue(board, step, id);
      }
    }
  }

  /** An attempt that lost its job never gets any job back, so nothing it sends has an effect. */
  lemma {:induction false} LostAttemptIsPowerless(board: Board, steps: seq<Step>, lease: Lease, request: Step)
    requires Invariant(board) && LegalRun(board, steps) && Gone(board, lease.attempt)
    requires (request.Heartbeat? || request.Fail? || request.CompleteExport? || request.CompleteOcr?) && request.lease == lease
    ensures Gone(Run(board, steps), lease.attempt)
    ensures lease.job in Run(board, steps).jobs ==> !Holds(Run(board, steps).jobs[lease.job], lease)
    ensures Apply(Run(board, steps), request) == Run(board, steps)
    decreases |steps|
  {
    if steps != [] {
      StepKeepsInvariant(board, steps[0]);
      GoneStaysGoneInOneStep(board, steps[0], lease.attempt);
      LostAttemptIsPowerless(Apply(board, steps[0]), steps[1..], lease, request);
    }
  }

  /** A takeover leaves the earlier attempt gone. */
  /** An attempt was issued for one job, and no other job is held by it. */
  lemma AttemptHasOneJob(board: Board, k: nat, other: JobId)
    requires Invariant(board) && k < |board.issued| && other in board.jobs && other != board.issued[k].job
    ensures board.jobs[other].attempt != Some(board.issued[k].attempt)
  {
    if board.jobs[other].status == Running {
      assert HeldByLatest(board.issued, other, board.jobs[other]);
      var l: nat :| HolderEntry(board.issued, l, other, board.jobs[other]);
      assert l < k || k < l;
    }
  }

  lemma GoneWhenReplaced(after: Board, k: nat)
    requires Invariant(after) && k < |after.issued|
    requires after.issued[k].job in after.jobs ==> after.jobs[after.issued[k].job].attempt != Some(after.issued[k].attempt)
    ensures Gone(after, after.issued[k].attempt)
  {
    assert after.issued[k] in after.issued;
    forall other | other in after.jobs
      ensures after.jobs[other].attempt != Some(after.issued[k].attempt)
    {
      if other != after.issued[k].job {
        AttemptHasOneJob(after, k, other);
      }
    }
  }

  lemma TakeoverRemovesEarlierAttempt(board: Board, step: Step, id: JobId)
    requires Invariant(board) && Legal(board, step) && id in board.jobs && board.jobs[id].status == Running
    requires id in Apply(board, step).jobs && Apply(board, step).jobs[id].attempt != board.jobs[id].attempt
    ensures Gone(Apply(board, step), board.jobs[id].attempt.value)
  {
    assert HeldByLatest(board.issued, id, board.jobs[id]);
    var k: nat :| HolderEntry(board.issued, k, id, board.jobs[id]);
    StepKeepsInvariant(board, step);
    LogOnlyGrows(board, step);
    assert Apply(board, step).issued[k] == board.issued[k];
    GoneWhenReplaced(Apply(board, step), k);
  }

  lemma LogOnlyGrows(board: Board, step: Step)
    requires Legal(board, step)
    ensures |board.issued| <= |Apply(board, step).issued| && Apply(board, step).issued[..|board.issued|] == board.issued
    ensures board.published <= Apply(board, step).published
  {
    if step.ClaimJobs? && ValidClaim(step.command) {
      BatchClaimsEachPick(Exhaust(board, step.command.now), step.command, step.picks);
    }
  }

  // ----- Termination, publication, progress -----

  lemma {:induction false} TerminalJobsNeverChange(board: Board, steps: seq<Step>, id: JobId)
    requires LegalRun(board, steps) && id in board.jobs && Terminal(board.jobs[id])
    ensures id in Run(board, steps).jobs && Run(board, steps).jobs[id] == board.jobs[id]
    decreases |steps|
  {
    if steps != [] {
      JobsStay(board, steps[0], id);
      TerminalJobsNeverChange(Apply(board, steps[0]), steps[1..], id);
    }
  }

  /** From the empty board: no job is claimed more than its limit or published twice, by whatever run. */
  lemma EachJobIsPublishedAtMostOnce(steps: seq<Step>)
    requires LegalRun(EMPTY, steps)
    ensures var board := Run(EMPTY, steps);
      && (forall i, j :: 0 <= i < j < |board.published| ==> board.published[i].job != board.published[j].job)
      && (forall p :: p in board.published ==> p.job in board.jobs && board.jobs[p.job].result.Some?
                                               && board.jobs[p.job].result.value.attempt == p.attempt)
      && (forall id :: id in board.jobs ==> ClaimsOf(board.issued, id) <= board.jobs[id].maxAttempts <= 5)
  {
    var board := Run(EMPTY, steps);
    ReachableBoardsKeepInvariant(EMPTY, steps);
    forall p | p in board.published
      ensures board.jobs[p.job].result.Some? && board.jobs[p.job].result.value.attempt == p.attempt
    {
      var q := Publication(p.job, board.jobs[p.job].result.value.attempt);
      assert q in board.published && q.job == p.job;
    }
  }

  /** Only the unexpired holder publishes, and only for the job it holds. */
  lemma OnlyTheHolderPublishes(board: Board, step: Step)
    requires Legal(board, step) && Apply(board, step).published != board.published
    ensures (step.CompleteExport? || step.CompleteOcr?) && step.lease.job in board.jobs && Holds(board.jobs[step.lease.job], step.lease)
    ensures Apply(board, step).published == board.published + [Publication(step.lease.job, step.lease.attempt)]
  {
    if step.ClaimJobs? && ValidClaim(step.command) {
      BatchClaimsEachPick(Exhaust(board, step.command.now), step.command, step.picks);
    }
  }

  function Potential(job: Job): int {
    2 * (job.maxAttempts - job.attempts) + if job.status == Running then 1 else 0
  }

  /** What one step may do to a job: leave its potential for a heartbeat or a cancellation, lower it otherwise. */
  predicate UsesPotential(step: Step, job: Job, after: Job) {
    && 0 <= Potential(after) <= Potential(job)
    && (Potential(after) == Potential(job) <==>
          (after == job || (step.Heartbeat? && after == job.(expires := after.expires)) || (step.CancelQueued? && after.status == Cancelled)))
  }

  lemma FailureUsesPotential(step: Step, job: Job)
    requires step.Fail? && JobInvariant(job) && job.status == Running
    ensures UsesPotential(step, job, FailedJob(job, step))
  {
  }

  lemma LeaseStepUsesPotential(board: Board, step: Step, id: JobId)
    requires (step.Heartbeat? || step.Fail?) && id in board.jobs && JobInvariant(board.jobs[id])
    ensures id in Apply(board, step).jobs && UsesPotential(step, board.jobs[id], Apply(board, step).jobs[id])
  {
    if step.Fail? && id == step.lease.job && Holds(board.jobs[id], step.lease) {
      FailureUsesPotential(step, board.jobs[id]);
    }
  }

  lemma CompletionUsesPotential(board: Board, step: Step, id: JobId)
    requires (step.CompleteExport? || step.CompleteOcr?) && id in board.jobs && JobInvariant(board.jobs[id])
    ensures id in Apply(board, step).jobs && UsesPotential(step, board.jobs[id], Apply(board, step).jobs[id])
  {
  }

  lemma ClaimUsesPotential(board: Board, step: Step, id: JobId)
    requires Legal(board, step) && step.ClaimJobs? && id in board.jobs && JobInvariant(board.jobs[id])
    ensures id in Apply(board, step).jobs && UsesPotential(step, board.jobs[id], Apply(board, step).jobs[id])
  {
    JobsStay(board, step, id);
  }

  lemma OtherStepUsesPotential(board: Board, step: Step, id: JobId)
    requires (step.Enqueue? || step.CancelQueued?) && id in board.jobs && JobInvariant(board.jobs[id])
    ensures id in Apply(board, step).jobs && UsesPotential(step, board.jobs[id], Apply(board, step).jobs[id])
  {
  }

  /** Every change of status or attempt uses up potential; heartbeats and cancellation do not. */
  lemma EveryAttemptUsesUpPotential(board: Board, step: Step, id: JobId)
    requires Invariant(board) && Legal(board, step) && id in board.jobs
    ensures id in Apply(board, step).jobs
    ensures 0 <= Potential(Apply(board, step).jobs[id]) <= Potential(board.jobs[id])
    ensures var job, after := board.jobs[id], Apply(board, step).jobs[id];
      Potential(after) == Potential(job) <==>
        (after == job || (step.Heartbeat? && after == job.(expires := after.expires)) || (step.CancelQueued? && after.status == Cancelled))
  {
    match step
    case ClaimJobs(_, _) => ClaimUsesPotential(board, step, id);
    case Heartbeat(_, _) => LeaseStepUsesPotential(board, step, id);
    case Fail(_, _, _, _) => LeaseStepUsesPotential(board, step, id);
    case CompleteExport(_, _) => CompletionUsesPotential(board, step, id);
    case CompleteOcr(_, _, _) => CompletionUsesPotential(board, step, id);
    case _ => OtherStepUsesPotential(board, step, id);
  }

  /** No reachable job is stranded: once its time has come, a claim request takes it or ends it. */
  lemma NoJobIsStranded(job: Job, now: int)
    requires JobInvariant(job) && !Terminal(job)
    requires now >= if job.status == Queued then job.available else job.expires.value
    ensures Exhausted(job, now) || Claimable(job, {job.kind}, now)
    ensures Exhausted(job, now) <==> job.status == Running && job.attempts == job.maxAttempts
  {
  }

  /** A retry waits at least twice as long for every attempt already made, up to 256 seconds. */
  lemma {:induction false} BackoffDoubles(attempts: nat, retryAfter: nat, jitter: nat)
    requires jitter < 1000
    ensures Backoff(attempts, retryAfter, jitter) >= retryAfter
    ensures attempts < 8 ==> Backoff(attempts + 1, 0, 0) == 2 * Backoff(attempts, 0, 0)
    ensures attempts >= 8 ==> Backoff(attempts, 0, 0) == 256000
  {
    if attempts < 8 {
      assert Pow2(attempts + 1) == 2 * Pow2(attempts);
    } else {
      assert Pow2(8) == 2 * Pow2(7) && Pow2(7) == 2 * Pow2(6) && Pow2(6) == 2 * Pow2(5) && Pow2(5) == 2 * Pow2(4)
          && Pow2(4) == 2 * Pow2(3) && Pow2(3) == 2 * Pow2(2) && Pow2(2) == 2 * Pow2(1) && Pow2(1) == 2 * Pow2(0);
    }
  }

  // ----- The store -----

  datatype Completion = Published | AlreadyPublished(attempt: AttemptId) | Rejected | LeaseLost

  /** Rows found claimable after the sweep, leased with fresh attempts, are a legal selection. */
  lemma LeasedRowsAreSelected(board: Board, command: ClaimCommand, rows: seq<JobId>, attempts: seq<AttemptId>, claimed: seq<Claim>)
    requires Distinct(rows) && Distinct(attempts) && |claimed| == |rows| <= |attempts|
    requires forall k :: 0 <= k < |rows| ==> claimed[k].job == rows[k] && claimed[k].attempt == attempts[k]
    requires forall id :: id in rows ==>
      id in board.jobs && Claimable(Exhaust(board, command.now).jobs[id], command.kinds, command.now)
    requires forall attempt :: attempt in attempts ==> !Issued(board, attempt)
    ensures Selected(board, command, claimed)
  {
    forall claim | claim in claimed
      ensures claim.job in board.jobs && Claimable(board.jobs[claim.job], command.kinds, command.now) && !Issued(board, claim.attempt)
    {
      var k :| 0 <= k < |claimed| && claimed[k] == claim;
      assert rows[k] in rows && attempts[k] in attempts;
    }
  }

  ghost predicate InOrder(jobs: map<JobId, Job>, rows: seq<JobId>) {
    && (forall row :: row in rows ==> row in jobs)
    && (forall i, j :: 0 <= i < j < |rows| ==> DueBefore(jobs, rows[i], rows[j]))
  }

  lemma InOrderAppend(jobs: map<JobId, Job>, rows: seq<JobId>, id: JobId)
    requires InOrder(jobs, rows) && id in jobs && forall row :: row in rows ==> DueBefore(jobs, row, id)
    ensures InOrder(jobs, rows + [id])
  {
    var all := rows + [id];
    forall i, j | 0 <= i < j < |all|
      ensures DueBefore(jobs, all[i], all[j])
    {
      assert rows[i] in rows;
    }
  }

  /** The sweep of exhausted leases does not touch the order. */
  lemma SweepKeepsOrder(board: Board, now: int, rows: seq<JobId>)
    requires InOrder(Exhaust(board, now).jobs, rows)
    ensures InOrder(board.jobs, rows)
  {
  }

  /** The jobs of a claim in the order in which it took them. */
  function JobsOf(claimed: seq<Claim>): (rows: seq<JobId>)
    ensures |rows| == |claimed|
  {
    seq(|claimed|, k requires 0 <= k < |claimed| => claimed[k].job)
  }

  /** Every eligible row that a claim left is locked, or comes after all the rows that it took up to its limit. */
  ghost predicate FirstInOrder(jobs: map<JobId, Job>, command: ClaimCommand, locked: set<JobId>, rows: seq<JobId>)
    requires forall row :: row in rows ==> row in jobs
  {
    forall id :: id in jobs && id !in locked && Claimable(jobs[id], command.kinds, command.now) && id !in rows ==>
      |rows| == command.limit && forall row :: row in rows ==> DueBefore(jobs, row, id)
  }

  lemma SweepKeepsFirst(board: Board, command: ClaimCommand, locked: set<JobId>, rows: seq<JobId>)
    requires forall row :: row in rows ==> row in board.jobs
    requires FirstInOrder(Exhaust(board, command.now).jobs, command, locked, rows)
    ensures FirstInOrder(board.jobs, command, locked, rows)
  {
    var swept := Exhaust(board, command.now).jobs;
    forall id | id in board.jobs && id !in locked && Claimable(board.jobs[id], command.kinds, command.now) && id !in rows
      ensures |rows| == command.limit && forall row :: row in rows ==> DueBefore(board.jobs, row, id)
    {
      assert swept[id] == board.jobs[id];
      forall row | row in rows
        ensures DueBefore(board.jobs, row, id)
      {
        assert DueBefore(swept, row, id);
      }
    }
  }

  class JobStore {
    var jobs: map<JobId, Job>
    var issued: seq<Claim>
    var published: seq<Publication>

    function State(): Board
      reads this
    {
      Board(jobs, issued, published)
    }

    constructor ()
      ensures State() == EMPTY
    {
      jobs, issued, published := map[], [], [];
    }

    method Enqueue(id: JobId, kind: Kind, maxAttempts: nat, now: int)
      modifies this
      ensures State() == Apply(old(State()), Step.Enqueue(id, kind, maxAttempts, now))
    {
      if id !in jobs && 1 <= maxAttempts <= 5 {
        jobs := jobs[id := NewJob(kind, maxAttempts, now)];
      }
    }

    /** The first of some rows in the order of the claim query. */
    method FirstDue(todo: set<JobId>) returns (first: JobId)
      requires todo != {} && todo <= jobs.Keys
      ensures first in todo && forall id :: id in todo && id != first ==> DueBefore(jobs, first, id)
    {
      first :| first in todo;
      var rest := todo - {first};
      while rest != {}
        invariant rest <= todo && first in todo - rest
        invariant forall id :: id in todo - rest && id != first ==> DueBefore(jobs, first, id)
      {
        var id :| id in rest;
        if !DueBefore(jobs, first, id) {
          forall other | other in todo - rest && other != first
            ensures DueBefore(jobs, id, other)
          {
            assert DueBefore(jobs, first, other);
          }
          first := id;
        }
        rest := rest - {id};
      }
    }

    /** The locking query: up to `limit` claimable rows in order, skipping those that another claim has locked. */
    method SelectClaimable(command: ClaimCommand, locked: set<JobId>) returns (rows: seq<JobId>)
      ensures Distinct(rows) && |rows| <= command.limit
      ensures forall id :: id in rows ==> id in jobs && id !in locked && Claimable(jobs[id], command.kinds, command.now)
      ensures InOrder(jobs, rows)
      ensures FirstInOrder(jobs, command, locked, rows)
    {
      rows := [];
      var todo := set id | id in jobs && id !in locked && Claimable(jobs[id], command.kinds, command.now);
      while todo != {} && |rows| < command.limit
        invariant todo <= jobs.Keys && Distinct(rows) && |rows| <= command.limit && InOrder(jobs, rows)
        invariant forall id :: id in rows ==> id in jobs && id !in locked && id !in todo && Claimable(jobs[id], command.kinds, command.now)
        invariant forall id :: id in jobs && id !in locked && Claimable(jobs[id], command.kinds, command.now) ==> id in rows || id in todo
        invariant forall row, id :: row in rows && id in todo ==> DueBefore(jobs, row, id)
      {
        var id := FirstDue(todo);
        InOrderAppend(jobs, rows, id);
        todo := todo - {id};
        rows := rows + [id];
      }
    }

    /** Leases each selected row with its own attempt and token. */
    method LeaseRows(command: ClaimCommand, rows: seq<JobId>, attempts: seq<AttemptId>, tokens: seq<Token>) returns (claimed: seq<Claim>)
      requires |rows| <= |attempts| == |tokens| && forall id :: id in rows ==> id in jobs
      modifies this
      ensures State() == ClaimAll(old(State()), command, claimed) && |claimed| == |rows|
      ensures forall k :: 0 <= k < |rows| ==> claimed[k] == Claim(rows[k], attempts[k], tokens[k])
    {
      ghost var swept := State();
      claimed := [];
      for i := 0 to |rows|
        invariant |claimed| == i && State() == ClaimAll(swept, command, claimed)
        invariant forall k :: 0 <= k < i ==> claimed[k] == Claim(rows[k], attempts[k], tokens[k])
        invariant jobs.Keys == swept.jobs.Keys
      {
        var claim := Claim(rows[i], attempts[i], tokens[i]);
        assert (claimed + [claim])[..i] == claimed;
        jobs := jobs[claim.job := Claimed(jobs[claim.job], claim, command)];
        issued := issued + [claim];
        claimed := claimed + [claim];
      }
    }

    /** One claim transaction: sweep exhausted leases, select, then lease the rows with fresh secrets. */
    method ClaimJobs(command: ClaimCommand, locked: set<JobId>, attempts: seq<AttemptId>, tokens: seq<Token>)
      returns (ok: bool, claimed: seq<Claim>)
      requires Invariant(State())
      requires |attempts| == |tokens| == 10 && Distinct(attempts)
      requires forall attempt :: attempt in attempts ==> !Issued(State(), attempt)
      modifies this
      ensures ok == ValidClaim(command)
      ensures Legal(old(State()), Step.ClaimJobs(command, claimed))
      ensures State() == Apply(old(State()), Step.ClaimJobs(command, claimed)) && Invariant(State())
      // It takes the eligible rows that are not locked in order, and leaves one only for its limit.
      ensures forall claim :: claim in claimed ==> claim.job !in locked
      ensures InOrder(old(jobs), JobsOf(claimed)) && (ok ==> FirstInOrder(old(jobs), command, locked, JobsOf(claimed)))
    {
      ok, claimed := ValidClaim(command), [];
      if !ok {
        return;
      }
      ghost var before := State();
      jobs := Exhaust(State(), command.now).jobs;
      var rows := SelectClaimable(command, locked);
      claimed := LeaseRows(command, rows, attempts, tokens);
      LeasedRowsAreSelected(before, command, rows, attempts, claimed);
      assert JobsOf(claimed) == rows;
      SweepKeepsOrder(before, command.now, rows);
      SweepKeepsFirst(before, command, locked, rows);
      StepKeepsInvariant(before, Step.ClaimJobs(command, claimed));
    }

    method HeartbeatJob(lease: Lease, length: int) returns (held: bool)
      modifies this
      ensures State() == Apply(old(State()), Heartbeat(lease, length))
      ensures held == (lease.job in old(jobs) && Holds(old(jobs)[lease.job], lease))
    {
      held := lease.job in jobs && Holds(jobs[lease.job], lease);
      if held {
        jobs := jobs[lease.job := jobs[lease.job].(expires := Some(lease.now + length))];
      }
    }

    method FailJob(lease: Lease, code: string, retryAfter: nat, jitter: nat) returns (held: bool)
      modifies this
      ensures State() == Apply(old(State()), Fail(lease, Transient(code), retryAfter, jitter))
      ensures held == (lease.job in old(jobs) && Holds(old(jobs)[lease.job], lease))
    {
      held := lease.job in jobs && Holds(jobs[lease.job], lease);
      if !held {
        return;
      }
      var job := jobs[lease.job];
      var status, available := Failed, lease.now;
      if Transient(code) && job.attempts < job.maxAttempts {
        status := Queued;
        var backoff := Pow2(Min(job.attempts, 8)) * 1000 + jitter;
        if retryAfter > backoff {
          backoff := retryAfter;
        }
        available := available + backoff;
      }
      jobs := jobs[lease.job := Released(job, status).(available := available)];
    }

    method CompleteExport(lease: Lease, accepted: bool) returns (r: Completion)
      requires Invariant(State())
      modifies this
      ensures State() == Apply(old(State()), Step.CompleteExport(lease, accepted))
      ensures r.Published? ==> State().published == old(published) + [Publication(lease.job, lease.attempt)]
      ensures !r.Published? ==> State() == old(State())
      ensures r.AlreadyPublished? ==> r.attempt == lease.attempt && Publication(lease.job, lease.attempt) in published
    {
      if lease.job !in jobs {
        return LeaseLost;
      }
      var job := jobs[lease.job];
      if job.status == Completed {
        return if job.result.value.attempt == lease.attempt then AlreadyPublished(lease.attempt) else LeaseLost;
      }
      if !accepted {
        return Rejected;
      }
      if !Holds(job, lease) {
        return LeaseLost;
      }
      published := published + [Publication(lease.job, lease.attempt)];
      jobs := jobs[lease.job := Released(job, Completed).(result := Some(ExportReceipt(lease)))];
      return Published;
    }

    method CompleteOcr(lease: Lease, worker: string, accepted: bool) returns (r: Completion)
      requires Invariant(State())
      modifies this
      ensures State() == Apply(old(State()), Step.CompleteOcr(lease, worker, accepted))
      ensures r.Published? ==> State().published == old(published) + [Publication(lease.job, lease.attempt)]
      ensures !r.Published? ==> State() == old(State())
      ensures r.AlreadyPublished? ==> r.attempt == lease.attempt && Publication(lease.job, lease.attempt) in published
    {
      if lease.job !in jobs {
        return LeaseLost;
      }
      var job := jobs[lease.job];
      if job.status == Completed && job.result == Some(OcrReceipt(lease, worker)) {
        return AlreadyPublished(lease.attempt);
      }
      if !Holds(job, lease) || job.worker != Some(worker) {
        return LeaseLost;
      }
      if !accepted {
        return Rejected;
      }
      published := published + [Publication(lease.job, lease.attempt)];
      jobs := jobs[lease.job := Released(job, Completed).(result := Some(OcrReceipt(lease, worker)))];
      return Published;
    }

    /** The trash trigger: a queued recognition job of a removed document is cancelled. */
    method CancelQueued(id: JobId)
      modifies this
      ensures State() == Apply(old(State()), Step.CancelQueued(id))
    {
      if id in jobs && jobs[id].status == Queued {
        jobs := jobs[id := jobs[id].(status := Cancelled)];
      }
    }
  }
}
