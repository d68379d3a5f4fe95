/**
 Accepting prepared documents: deduplication by content, binding of origins, and
 usage charges, for one organization.

 Every commit runs under the organization's lock, so it is one step. Row-level
 security, membership and the audit log are not modelled.
 */
module Intake {
  import opened Common

  type Time = nat
  type DocumentId = nat
  type UserId = nat
  type Digest = string

  datatype Channel = Web | Line | Drive

  datatype Origin = Origin(channel: Channel, key: string)

  datatype Status = Available | Archived | Trash | Purged

  datatype Document = Document(digest: Digest, status: Status, acceptedAt: Time, period: Time)

  datatype Source = Source(document: DocumentId, submitter: UserId)

  datatype Charge = Charge(period: Time, acceptedAt: Time)

  /** An intake attempt; `document` is set exactly when it was accepted. */
  datatype Attempt = Attempt(id: nat, document: Option<DocumentId>)

  datatype State = State(
    documents: map<DocumentId, Document>,
    sources: map<Origin, Source>,
    charges: Charges,
    attempts: map<Origin, Attempt>,
    periods: map<Time, Time>)

  const EMPTY := State(map[], map[], map[], map[], map[])

  const MAX_FILE_BYTES := 20 * 1024 * 1024

  /** The limit in force, and the trial window if the plan is a trial. */
  datatype Plan = Plan(limit: nat, trialStart: Time, trialEnd: Time)

  predicate Trial(plan: Plan) {
    plan.trialEnd > plan.trialStart
  }

  datatype Submission = Submission(attempt: nat, submitter: UserId, origin: Origin, group: bool, digest: Digest, size: int, now: Time)

  /** What the call draws from elsewhere: a random id, the plan, and the calendar month around `now`. */
  datatype Context = Context(id: DocumentId, plan: Plan, monthStart: Time, monthEnd: Time)

  datatype Outcome =
    | Accepted(document: DocumentId) | Duplicate(document: DocumentId)
    | Malformed | SourceConflict | InTrash | QuotaExhausted | DatabaseError | NoAnswer

  // ----- Queries -----

  predicate Live(d: Document) {
    d.status != Purged
  }

  predicate HasContent(s: State, id: DocumentId, digest: Digest) {
    id in s.documents && Live(s.documents[id]) && s.documents[id].digest == digest
  }

  /** `lookup_document_for_intake`. */
  ghost predicate IsLookup(s: State, digest: Digest, found: Option<DocumentId>) {
    if found.Some? then HasContent(s, found.value, digest) else forall id :: !HasContent(s, id, digest)
  }

  /** The source of an origin, if this submitter sent it. */
  function OwnSource(s: State, origin: Origin, submitter: UserId): Option<DocumentId> {
    if origin in s.sources && s.sources[origin].submitter == submitter then Some(s.sources[origin].document) else None
  }

  type Charges = map<DocumentId, Charge>

  function ChargesInPeriod(charges: Charges, period: Time): set<DocumentId> {
    set id | id in charges && charges[id].period == period
  }

  function ChargesBetween(charges: Charges, start: Time, end: Time): set<DocumentId> {
    set id | id in charges && start <= charges[id].acceptedAt < end
  }

  function Used(s: State, plan: Plan, period: Time): nat {
    if Trial(plan) then |ChargesBetween(s.charges, plan.trialStart, plan.trialEnd)| else |ChargesInPeriod(s.charges, period)|
  }

  predicate Covers(s: State, start: Time, now: Time) {
    start in s.periods && start <= now < s.periods[start]
  }

  /** The latest stored period around `now`, or the calendar month. */
  ghost predicate IsPeriod(s: State, now: Time, context: Context, period: Time) {
    if forall start: Time :: !Covers(s, start, now) then period == context.monthStart
    else Covers(s, period, now) && forall start: Time :: Covers(s, start, now) ==> start <= period
  }

  /** The latest of these starts whose period covers `now`, if there is one. */
  ghost predicate IsLatest(s: State, starts: set<Time>, now: Time, latest: Time, covered: bool) {
    && (covered ==> Covers(s, latest, now))
    && forall start: Time :: start in starts && Covers(s, start, now) ==> covered && start <= latest
  }

  // ----- The effect of a commit -----

  predicate WellFormed(i: Submission) {
    (i.group ==> i.origin.channel == Line) && 1 <= i.size <= MAX_FILE_BYTES
  }

  /** The attempt row can be written: an update, or an insert under an unused id. */
  predicate AttemptFits(s: State, i: Submission) {
    i.origin in s.attempts || forall o :: o in s.attempts ==> s.attempts[o].id != i.attempt
  }

  function WithAttempt(s: State, i: Submission, document: DocumentId): State {
    var id := if i.origin in s.attempts then s.attempts[i.origin].id else i.attempt;
    s.(attempts := s.attempts[i.origin := Attempt(id, Some(document))])
  }

  function WithPeriod(s: State, context: Context, period: Time): State {
    if period in s.periods then s else s.(periods := s.periods[period := context.monthEnd])
  }

  function WithDocument(s: State, i: Submission, id: DocumentId, period: Time): State {
    s.(documents := s.documents[id := Document(i.digest, Available, i.now, period)],
       sources := s.sources[i.origin := Source(id, i.submitter)],
       charges := s.charges[id := Charge(period, i.now)])
  }

  /** The commit of content that nobody has sent from this origin yet. */
  function CommitNew(s: State, i: Submission, context: Context, period: Time): (State, Outcome) {
    var s1 := WithPeriod(s, context, period);
    if Used(s, context.plan, period) >= context.plan.limit then
      if i.origin in s.attempts then (s1, QuotaExhausted)
      else if !AttemptFits(s, i) then (s, DatabaseError)
      else (s1.(attempts := s.attempts[i.origin := Attempt(i.attempt, None)]), QuotaExhausted)
    else if context.id in s.documents then (s, DatabaseError)
    else if i.origin in s.sources then (s, SourceConflict)
    else if !AttemptFits(s, i) then (s, DatabaseError)
    else (WithAttempt(WithDocument(s1, i, context.id, period), i, context.id), Accepted(context.id))
  }

  /** The commit of content that the organization already holds. */
  function CommitKnown(s: State, i: Submission, id: DocumentId): (State, Outcome)
    requires id in s.documents
  {
    if s.documents[id].status == Trash then (s, InTrash)
    else if i.origin in s.sources then (s, SourceConflict)
    else if !AttemptFits(s, i) then (s, DatabaseError)
    else (WithAttempt(s.(sources := s.sources[i.origin := Source(id, i.submitter)]), i, id), Duplicate(id))
  }

  /** The whole decision, given what the lookups return. */
  function Commit(s: State, i: Submission, context: Context, found: Option<DocumentId>, period: Time): (State, Outcome)
    requires found.Some? ==> found.value in s.documents
    requires forall o :: o in s.sources ==> s.sources[o].document in s.documents
  {
    var own := OwnSource(s, i.origin, i.submitter);
    if !WellFormed(i) then (s, Malformed)
    else if i.group && own.Some? then
      if found == own then (s, Duplicate(own.value)) else (s, SourceConflict)
    else if own.Some? then
      if s.documents[own.value].digest == i.digest then (s, Duplicate(own.value)) else (s, SourceConflict)
    else if found.Some? then CommitKnown(s, i, found.value)
    else CommitNew(s, i, context, period)
  }

  // ----- Invariant -----

  ghost predicate DistinctContent(s: State) {
    forall a, b, digest :: HasContent(s, a, digest) && HasContent(s, b, digest) ==> a == b
  }

  /** Every document has exactly one charge, for its own period and time, and no charge is without a document. */
  ghost predicate ChargedOnce(s: State) {
    && s.charges.Keys == s.documents.Keys
    && forall id :: id in s.documents ==> s.charges[id] == Charge(s.documents[id].period, s.documents[id].acceptedAt)
  }

  ghost predicate SourcesResolve(s: State) {
    forall o :: o in s.sources ==> s.sources[o].document in s.documents
  }

  /** An origin has an accepted attempt exactly when it has a source, and both name the same document. */
  ghost predicate AttemptsMatch(s: State) {
    forall o :: (if o in s.attempts then s.attempts[o].document else None)
             == (if o in s.sources then Some(s.sources[o].document) else None)
  }

  ghost predicate Invariant(s: State) {
    DistinctContent(s) && ChargedOnce(s) && SourcesResolve(s) && AttemptsMatch(s)
  }

  // ----- Runs -----

  datatype Step =
    | CommitStep(i: Submission, context: Context)
    | RejectStep(attempt: nat, origin: Origin)
    | StatusStep(id: DocumentId, status: Status)

  /** `RecordRejected` never takes back an acceptance. */
  function Reject(s: State, attempt: nat, origin: Origin): State {
    if origin in s.attempts || exists o :: o in s.attempts && s.attempts[o].id == attempt then s
    else s.(attempts := s.attempts[origin := Attempt(attempt, None)])
  }

  /** A change of status; nothing brings a purged document back. */
  function SetStatus(s: State, id: DocumentId, status: Status): State {
    if id in s.documents && Live(s.documents[id]) then s.(documents := s.documents[id := s.documents[id].(status := status)]) else s
  }

  ghost predicate Next(s: State, step: Step, t: State, outcome: Outcome) {
    match step
    case CommitStep(i, context) => SourcesResolve(s) && exists found, period :: CommitResult(s, i, context, found, period, t, outcome)
    case RejectStep(attempt, origin) => t == Reject(s, attempt, origin) && outcome == NoAnswer
    case StatusStep(id, status) => t == SetStatus(s, id, status) && outcome == NoAnswer
  }

  ghost predicate CommitResult(s: State, i: Submission, context: Context, found: Option<DocumentId>, period: Time, t: State, outcome: Outcome)
    requires SourcesResolve(s)
  {
    IsLookup(s, i.digest, found) && IsPeriod(s, i.now, context, period) && (t, outcome) == Commit(s, i, context, found, period)
  }

  /** States, the steps between them, and what each answered. */
  ghost predicate Run(states: seq<State>, steps: seq<Step>, outcomes: seq<Outcome>) {
    && |states| == |steps| + 1 && |outcomes| == |steps|
    && forall k :: 0 <= k < |steps| ==> Next(states[k], steps[k], states[k + 1], outcomes[k])
  }

  class Store {
    var state: State

    constructor ()
      ensures state == EMPTY && Invariant(state)
    {
      state := EMPTY;
    }

    method Lookup(digest: Digest) returns (found: Option<DocumentId>)
      ensures IsLookup(state, digest, found)
    {
      if id :| id in state.documents && HasContent(state, id, digest) {
        found := Some(id);
      } else {
        found := None;
      }
    }

    /** `currentDocumentPeriod`, without the insert. */
    method CurrentPeriod(now: Time, context: Context) returns (period: Time)
      ensures IsPeriod(state, now, context, period)
    {
      period := context.monthStart;
      var covered := false;
      var todo := state.periods.Keys;
      while todo != {}
        invariant todo <= state.periods.Keys
        invariant IsLatest(state, state.periods.Keys - todo, now, period, covered)
        invariant !covered ==> period == context.monthStart
      {
        var start :| start in todo;
        if Covers(state, start, now) && (!covered || start > period) {
          period, covered := start, true;
        }
        todo := todo - {start};
      }
    }

    /** `CommitPrepared`: its statements in order; an early return is a rollback unless it says otherwise. */
    method CommitPrepared(i: Submission, context: Context) returns (outcome: Outcome)
      requires Invariant(state)
      modifies this
      ensures Next(old(state), CommitStep(i, context), state, outcome)
    {
      var found := Lookup(i.digest);
      var period := CurrentPeriod(i.now, context);
      ghost var result := Commit(state, i, context, found, period);
      assert CommitResult(state, i, context, found, period, result.0, result.1);
      if !WellFormed(i) {
        return Malformed;
      }
      var own := OwnSource(state, i.origin, i.submitter);
      if i.group && own.Some? {
        return if found == own then Duplicate(own.value) else SourceConflict;
      }
      if own.Some? {
        return if state.documents[own.value].digest == i.digest then Duplicate(own.value) else SourceConflict;
      }
      if found.Some? {
        if state.documents[found.value].status == Trash {
          return InTrash;
        }
        if i.origin in state.sources {
          return SourceConflict;
        }
        if !AttemptFits(state, i) {
          return DatabaseError;
        }
        state := state.(sources := state.sources[i.origin := Source(found.value, i.submitter)]);
        state := WithAttempt(state, i, found.value);
        return Duplicate(found.value);
      }
      if Used(state, context.plan, period) >= context.plan.limit {
        if i.origin !in state.attempts {
          if !AttemptFits(state, i) {
            return DatabaseError;
          }
          state := state.(attempts := state.attempts[i.origin := Attempt(i.attempt, None)]);
        }
        state := WithPeriod(state, context, period);
        return QuotaExhausted;
      }
      if context.id in state.documents {
        return DatabaseError;
      }
      if i.origin in state.sources {
        return SourceConflict;
      }
      if !AttemptFits(state, i) {
        return DatabaseError;
      }
      state := WithPeriod(state, context, period);
      state := state.(documents := state.documents[context.id := Document(i.digest, Available, i.now, period)]);
      state := state.(sources := state.sources[i.origin := Source(context.id, i.submitter)]);
      state := state.(charges := state.charges[context.id := Charge(period, i.now)]);
      state := WithAttempt(state, i, context.id);
      outcome := Accepted(context.id);
    }
  }

  // ----- What one step keeps -----

  lemma SourceAddedKeepsInvariant(s: State, i: Submission, id: DocumentId)
    requires Invariant(s) && id in s.documents
    ensures Invariant(WithAttempt(s.(sources := s.sources[i.origin := Source(id, i.submitter)]), i, id))
  {
    var t := WithAttempt(s.(sources := s.sources[i.origin := Source(id, i.submitter)]), i, id);
    assert forall a, digest :: HasContent(t, a, digest) == HasContent(s, a, digest);
  }

  lemma DocumentAddedKeepsInvariant(s: State, i: Submission, id: DocumentId, period: Time)
    requires Invariant(s) && id !in s.documents && forall a :: !HasContent(s, a, i.digest)
    ensures Invariant(WithAttempt(WithDocument(s, i, id, period), i, id))
  {
    var t := WithAttempt(WithDocument(s, i, id, period), i, id);
    assert forall a, digest :: HasContent(t, a, digest) ==> if a == id then digest == i.digest else HasContent(s, a, digest);
  }

  lemma PeriodKeepsInvariant(s: State, context: Context, period: Time)
    requires Invariant(s)
    ensures Invariant(WithPeriod(s, context, period))
    ensures forall a, digest :: HasContent(WithPeriod(s, context, period), a, digest) == HasContent(s, a, digest)
  {
    var t := WithPeriod(s, context, period);
    assert forall a, digest :: HasContent(t, a, digest) == HasContent(s, a, digest);
  }

  lemma RejectionKeepsInvariant(s: State, attempt: nat, origin: Origin)
    requires Invariant(s) && origin !in s.attempts
    ensures Invariant(s.(attempts := s.attempts[origin := Attempt(attempt, None)]))
  {
    var t := s.(attempts := s.attempts[origin := Attempt(attempt, None)]);
    assert forall a, digest :: HasContent(t, a, digest) == HasContent(s, a, digest);
  }

  lemma StatusKeepsInvariant(s: State, id: DocumentId, status: Status)
    requires Invariant(s)
    ensures Invariant(SetStatus(s, id, status))
  {
    var t := SetStatus(s, id, status);
    assert forall a, digest :: HasContent(t, a, digest) ==> HasContent(s, a, digest);
  }

  lemma NewKeepsInvariant(s: State, i: Submission, context: Context, period: Time)
    requires Invariant(s) && forall a :: !HasContent(s, a, i.digest)
    ensures Invariant(CommitNew(s, i, context, period).0)
  {
    var s1 := WithPeriod(s, context, period);
    PeriodKeepsInvariant(s, context, period);
    if Used(s, context.plan, period) >= context.plan.limit {
      if i.origin !in s.attempts {
        RejectionKeepsInvariant(s1, i.attempt, i.origin);
      }
    } else if context.id !in s.documents {
      DocumentAddedKeepsInvariant(s1, i, context.id, period);
    }
  }

  lemma KnownKeepsInvariant(s: State, i: Submission, id: DocumentId)
    requires Invariant(s) && id in s.documents
    ensures Invariant(CommitKnown(s, i, id).0)
  {
    SourceAddedKeepsInvariant(s, i, id);
  }

  lemma CommitKeepsInvariant(s: State, i: Submission, context: Context, found: Option<DocumentId>, period: Time)
    requires Invariant(s) && IsLookup(s, i.digest, found)
    ensures Invariant(Commit(s, i, context, found, period).0)
  {
    if found.Some? {
      KnownKeepsInvariant(s, i, found.value);
    } else {
      NewKeepsInvariant(s, i, context, period);
    }
  }

  lemma StepKeepsInvariant(s: State, step: Step, t: State, outcome: Outcome)
    requires Invariant(s) && Next(s, step, t, outcome)
    ensures Invariant(t)
  {
    match step
    case CommitStep(i, context) =>
      var found, period :| CommitResult(s, i, context, found, period, t, outcome);
      CommitKeepsInvariant(s, i, context, found, period);
    case RejectStep(attempt, origin) =>
      if t != s {
        RejectionKeepsInvariant(s, attempt, origin);
      }
    case StatusStep(id, status) => StatusKeepsInvariant(s, id, status);
  }

  /** In every state of every run. */
  lemma {:induction false} RunKeepsInvariant(states: seq<State>, steps: seq<Step>, outcomes: seq<Outcome>, k: nat)
    requires Run(states, steps, outcomes) && Invariant(states[0]) && k < |states|
    ensures Invariant(states[k])
  {
    if k > 0 {
      RunKeepsInvariant(states, steps, outcomes, k - 1);
      StepKeepsInvariant(states[k - 1], steps[k - 1], states[k], outcomes[k - 1]);
    }
  }

  // ----- What each answer means -----

  /** The document that an answer names, if any. */
  function Named(outcome: Outcome): Option<DocumentId> {
    match outcome
    case Accepted(id) => Some(id)
    case Duplicate(id) => Some(id)
    case _ => None
  }

  /** No document, source or charge is touched. */
  predicate SameHoldings(s: State, t: State) {
    t.documents == s.documents && t.sources == s.sources && t.charges == s.charges
  }

  ghost predicate AcceptanceAdds(s: State, i: Submission, t: State, id: DocumentId) {
    && id !in s.documents && (forall a :: !HasContent(s, a, i.digest)) && HasContent(t, id, i.digest)
    && id in t.documents && t.documents == s.documents[id := t.documents[id]] && i.origin !in s.sources
    && t.sources == s.sources[i.origin := Source(id, i.submitter)]
    && id in t.charges && t.charges == s.charges[id := t.charges[id]] && t.charges[id].acceptedAt == i.now
  }

  ghost predicate DuplicateKeeps(s: State, i: Submission, t: State, id: DocumentId) {
    && t.documents == s.documents && t.charges == s.charges && id in s.documents && s.documents[id].digest == i.digest
    && t.sources == s.sources[i.origin := Source(id, i.submitter)]
  }

  lemma AcceptedCommit(s: State, i: Submission, context: Context, found: Option<DocumentId>, period: Time)
    requires SourcesResolve(s) && IsLookup(s, i.digest, found) && Commit(s, i, context, found, period).1.Accepted?
    ensures Commit(s, i, context, found, period).1 == Accepted(context.id)
    ensures AcceptanceAdds(s, i, Commit(s, i, context, found, period).0, context.id)
    ensures Commit(s, i, context, found, period).0.charges == s.charges[context.id := Charge(period, i.now)]
    ensures Used(s, context.plan, period) < context.plan.limit
  {
  }

  lemma DuplicateCommit(s: State, i: Submission, context: Context, found: Option<DocumentId>, period: Time)
    requires SourcesResolve(s) && IsLookup(s, i.digest, found) && Commit(s, i, context, found, period).1.Duplicate?
    ensures var (t, outcome) := Commit(s, i, context, found, period); DuplicateKeeps(s, i, t, outcome.document)
  {
  }

  lemma PeriodKeepsHoldings(s: State, context: Context, period: Time)
    ensures SameHoldings(s, WithPeriod(s, context, period))
  {
  }

  lemma OtherNew(s: State, i: Submission, context: Context, period: Time)
    requires Named(CommitNew(s, i, context, period).1).None?
    ensures SameHoldings(s, CommitNew(s, i, context, period).0)
  {
    var s1 := WithPeriod(s, context, period);
    PeriodKeepsHoldings(s, context, period);
    if Used(s, context.plan, period) >= context.plan.limit {
      var t := CommitNew(s, i, context, period).0;
      assert t == s || t == s1 || t == s1.(attempts := s.attempts[i.origin := Attempt(i.attempt, None)]);
    } else {
      assert CommitNew(s, i, context, period).0 == s;
    }
  }

  lemma OtherKnown(s: State, i: Submission, id: DocumentId)
    requires id in s.documents && Named(CommitKnown(s, i, id).1).None?
    ensures SameHoldings(s, CommitKnown(s, i, id).0)
  {
  }

  lemma OtherCommit(s: State, i: Submission, context: Context, found: Option<DocumentId>, period: Time)
    requires SourcesResolve(s) && IsLookup(s, i.digest, found) && Named(Commit(s, i, context, found, period).1).None?
    ensures SameHoldings(s, Commit(s, i, context, found, period).0)
  {
    var own := OwnSource(s, i.origin, i.submitter);
    if WellFormed(i) && own.None? {
      if found.Some? {
        OtherKnown(s, i, found.value);
      } else {
        OtherNew(s, i, context, period);
      }
    }
  }

  /**
   An acceptance adds one live document of new content with one charge; a
   duplicate names a document with the submitted content and charges nothing;
   any other answer leaves documents, sources and charges alone.
   */
  lemma AnswersAreTrue(s: State, i: Submission, context: Context, t: State, outcome: Outcome)
    requires Invariant(s) && Next(s, CommitStep(i, context), t, outcome)
    ensures match outcome
      case Accepted(id) => AcceptanceAdds(s, i, t, id)
      case Duplicate(id) => DuplicateKeeps(s, i, t, id)
      case _ => SameHoldings(s, t)
  {
    var found, period :| CommitResult(s, i, context, found, period, t, outcome);
    if outcome.Accepted? {
      AcceptedCommit(s, i, context, found, period);
    } else if outcome.Duplicate? {
      DuplicateCommit(s, i, context, found, period);
    } else {
      OtherCommit(s, i, context, found, period);
    }
  }

  /** Nothing is refused as new content while the quota lasts: the exact condition for an acceptance. */
  lemma AcceptedIff(s: State, i: Submission, context: Context, t: State, outcome: Outcome, period: Time)
    requires Invariant(s) && Next(s, CommitStep(i, context), t, outcome) && IsPeriod(s, i.now, context, period)
    ensures outcome.Accepted? <==>
      && WellFormed(i) && i.origin !in s.sources && (forall a :: !HasContent(s, a, i.digest))
      && Used(s, context.plan, period) < context.plan.limit && context.id !in s.documents && AttemptFits(s, i)
  {
    var found, p :| CommitResult(s, i, context, found, p, t, outcome);
    assert p == period;
  }

  // ----- Origins stay bound -----

  /** The origin belongs to this document and submitter, and the document has this content. */
  ghost predicate Bound(s: State, o: Origin, source: Source, digest: Digest) {
    && o in s.sources && s.sources[o] == source
    && source.document in s.documents && s.documents[source.document].digest == digest
  }

  lemma StepKeepsBound(s: State, step: Step, t: State, outcome: Outcome, o: Origin, source: Source, digest: Digest)
    requires Invariant(s) && Next(s, step, t, outcome) && Bound(s, o, source, digest)
    ensures Bound(t, o, source, digest)
  {
    if step.CommitStep? {
      CommitKeepsBound(s, step.i, step.context, t, outcome, o, source, digest);
    }
  }

  lemma CommitKeepsBound(s: State, i: Submission, context: Context, t: State, outcome: Outcome, o: Origin, source: Source, digest: Digest)
    requires Invariant(s) && Next(s, CommitStep(i, context), t, outcome) && Bound(s, o, source, digest)
    ensures Bound(t, o, source, digest)
  {
    AnswersAreTrue(s, i, context, t, outcome);
    if outcome.Duplicate? && i.origin in s.sources {
      DuplicateKeepsSource(s, i, context, t, outcome);
    }
  }

  lemma DuplicateKeepsSource(s: State, i: Submission, context: Context, t: State, outcome: Outcome)
    requires Invariant(s) && Next(s, CommitStep(i, context), t, outcome) && outcome.Duplicate? && i.origin in s.sources
    ensures t.sources == s.sources
  {
    var found, period :| CommitResult(s, i, context, found, period, t, outcome);
  }

  /** Once an origin has a document it keeps it, with the same content and submitter, in every later state. */
  lemma {:induction false} OriginsStayBound(states: seq<State>, steps: seq<Step>, outcomes: seq<Outcome>, j: nat, k: nat,
                                            o: Origin, source: Source, digest: Digest)
    requires Run(states, steps, outcomes) && Invariant(states[0]) && j <= k < |states| && Bound(states[j], o, source, digest)
    ensures Bound(states[k], o, source, digest)
  {
    if j < k {
      OriginsStayBound(states, steps, outcomes, j, k - 1, o, source, digest);
      RunKeepsInvariant(states, steps, outcomes, k - 1);
      StepKeepsBound(states[k - 1], steps[k - 1], states[k], outcomes[k - 1], o, source, digest);
    }
  }

  lemma AnswerBindsOrigin(s: State, i: Submission, context: Context, t: State, outcome: Outcome)
    requires Invariant(s) && Next(s, CommitStep(i, context), t, outcome) && Named(outcome).Some?
    ensures Bound(t, i.origin, Source(Named(outcome).value, i.submitter), i.digest)
  {
    AnswersAreTrue(s, i, context, t, outcome);
  }

  lemma RepeatIsDuplicate(s: State, i: Submission, context: Context, t: State, outcome: Outcome, id: DocumentId)
    requires Invariant(s) && Next(s, CommitStep(i, context), t, outcome) && WellFormed(i)
    requires Bound(s, i.origin, Source(id, i.submitter), i.digest)
    ensures outcome == if i.group && !Live(s.documents[id]) then SourceConflict else Duplicate(id)
    ensures t == s
  {
    var found, period :| CommitResult(s, i, context, found, period, t, outcome);
    if Live(s.documents[id]) {
      assert HasContent(s, id, i.digest);
    }
  }

  /**
   Redelivery: after a submission was answered with a document, the same
   submitter sending the same content from the same origin gets that document
   again, however much happened in between, and nothing changes. Only a group
   submission of a document that has since been purged is refused.
   */
  lemma RedeliveryIsIdempotent(states: seq<State>, steps: seq<Step>, outcomes: seq<Outcome>, j: nat, k: nat)
    requires Run(states, steps, outcomes) && Invariant(states[0]) && j < k < |steps|
    requires steps[j].CommitStep? && steps[k].CommitStep? && Named(outcomes[j]).Some?
    requires var a, b := steps[j].i, steps[k].i;
      a.origin == b.origin && a.submitter == b.submitter && a.digest == b.digest && WellFormed(b)
    ensures var id := Named(outcomes[j]).value;
      && id in states[k].documents && states[k + 1] == states[k]
      && outcomes[k] == if steps[k].i.group && !Live(states[k].documents[id]) then SourceConflict else Duplicate(id)
  {
    RunKeepsInvariant(states, steps, outcomes, j);
    AnswerBindsOrigin(states[j], steps[j].i, steps[j].context, states[j + 1], outcomes[j]);
    OriginsStayBound(states, steps, outcomes, j + 1, k, steps[j].i.origin,
                     Source(Named(outcomes[j]).value, steps[j].i.submitter), steps[j].i.digest);
    RunKeepsInvariant(states, steps, outcomes, k);
    RepeatIsDuplicate(states[k], steps[k].i, steps[k].context, states[k + 1], outcomes[k], Named(outcomes[j]).value);
  }

  // ----- Quotas -----

  function Acceptances(outcomes: seq<Outcome>): nat {
    if outcomes == [] then 0
    else Acceptances(outcomes[..|outcomes| - 1]) + if outcomes[|outcomes| - 1].Accepted? then 1 else 0
  }

  lemma StepCharges(s: State, step: Step, t: State, outcome: Outcome)
    requires Invariant(s) && Next(s, step, t, outcome)
    ensures |t.charges| == |s.charges| + if outcome.Accepted? then 1 else 0
    ensures forall id :: id in s.charges ==> id in t.charges && t.charges[id] == s.charges[id]
  {
    if step.CommitStep? {
      AnswersAreTrue(s, step.i, step.context, t, outcome);
      assert |t.charges| == |t.charges.Keys| && |s.charges| == |s.charges.Keys|;
    }
  }

  /** Charges count acceptances exactly, and documents are charged once each. */
  lemma {:induction false} ChargesCountAcceptances(states: seq<State>, steps: seq<Step>, outcomes: seq<Outcome>, k: nat)
    requires Run(states, steps, outcomes) && Invariant(states[0]) && k < |states|
    ensures |states[k].charges| == |states[0].charges| + Acceptances(outcomes[..k])
    ensures |states[k].documents| == |states[0].documents| + Acceptances(outcomes[..k])
  {
    RunKeepsInvariant(states, steps, outcomes, k);
    if k > 0 {
      ChargesCountAcceptances(states, steps, outcomes, k - 1);
      RunKeepsInvariant(states, steps, outcomes, k - 1);
      StepCharges(states[k - 1], steps[k - 1], states[k], outcomes[k - 1]);
      assert outcomes[..k][..k - 1] == outcomes[..k - 1];
    }
    assert |states[k].charges.Keys| == |states[k].documents.Keys|;
  }

  /** Outside trials, and with no limit above `limit`, no period ever has more charges than that. */
  ghost predicate FixedPlan(steps: seq<Step>, limit: nat) {
    forall k :: 0 <= k < |steps| && steps[k].CommitStep? ==> !Trial(steps[k].context.plan) && steps[k].context.plan.limit <= limit
  }

  lemma OneMoreInPeriod(charges: Charges, id: DocumentId, charge: Charge, period: Time)
    requires id !in charges
    ensures |ChargesInPeriod(charges[id := charge], period)| == |ChargesInPeriod(charges, period)| + if charge.period == period then 1 else 0
  {
    var extra: set<DocumentId> := if charge.period == period then {id} else {};
    assert ChargesInPeriod(charges[id := charge], period) == ChargesInPeriod(charges, period) + extra;
  }

  lemma OneMoreBetween(charges: Charges, id: DocumentId, charge: Charge, start: Time, end: Time)
    requires id !in charges
    ensures |ChargesBetween(charges[id := charge], start, end)| == |ChargesBetween(charges, start, end)| + if start <= charge.acceptedAt < end then 1 else 0
  {
    var extra: set<DocumentId> := if start <= charge.acceptedAt < end then {id} else {};
    assert ChargesBetween(charges[id := charge], start, end) == ChargesBetween(charges, start, end) + extra;
  }

  /** The one new charge of an acceptance, under a plan that was not used up; no other step adds any. */
  lemma StepAddsCharge(s: State, step: Step, t: State, outcome: Outcome) returns (period: Time)
    requires Invariant(s) && Next(s, step, t, outcome)
    ensures if outcome.Accepted? then
        && step.CommitStep? && step.context.id !in s.charges && t.charges == s.charges[step.context.id := Charge(period, step.i.now)]
        && Used(s, step.context.plan, period) < step.context.plan.limit
      else t.charges == s.charges
  {
    period := 0;
    if step.CommitStep? {
      var found, p :| CommitResult(s, step.i, step.context, found, p, t, outcome);
      period := p;
      if outcome.Accepted? {
        AcceptedCommit(s, step.i, step.context, found, p);
      } else {
        AnswersAreTrue(s, step.i, step.context, t, outcome);
      }
    }
  }

  lemma StepKeepsQuota(s: State, step: Step, t: State, outcome: Outcome, limit: nat, period: Time)
    requires Invariant(s) && Next(s, step, t, outcome)
    requires step.CommitStep? ==> !Trial(step.context.plan) && step.context.plan.limit <= limit
    requires |ChargesInPeriod(s.charges, period)| <= limit
    ensures |ChargesInPeriod(t.charges, period)| <= limit
  {
    var p := StepAddsCharge(s, step, t, outcome);
    if outcome.Accepted? {
      OneMoreInPeriod(s.charges, step.context.id, Charge(p, step.i.now), period);
    }
  }

  lemma {:induction false} PeriodsStayWithinLimit(states: seq<State>, steps: seq<Step>, outcomes: seq<Outcome>, limit: nat, period: Time, k: nat)
    requires Run(states, steps, outcomes) && Invariant(states[0]) && FixedPlan(steps, limit) && k < |states|
    requires |ChargesInPeriod(states[0].charges, period)| <= limit
    ensures |ChargesInPeriod(states[k].charges, period)| <= limit
  {
    if k > 0 {
      PeriodsStayWithinLimit(states, steps, outcomes, limit, period, k - 1);
      RunKeepsInvariant(states, steps, outcomes, k - 1);
      StepKeepsQuota(states[k - 1], steps[k - 1], states[k], outcomes[k - 1], limit, period);
    }
  }

  /** Every commit inside the trial window runs under that trial. */
  ghost predicate TrialGoverns(steps: seq<Step>, limit: nat, start: Time, end: Time) {
    forall k :: 0 <= k < |steps| && steps[k].CommitStep? && start <= steps[k].i.now < end ==> steps[k].context.plan == Plan(limit, start, end)
  }

  lemma StepKeepsTrialQuota(s: State, step: Step, t: State, outcome: Outcome, limit: nat, start: Time, end: Time)
    requires Invariant(s) && Next(s, step, t, outcome) && start < end
    requires step.CommitStep? && start <= step.i.now < end ==> step.context.plan == Plan(limit, start, end)
    requires |ChargesBetween(s.charges, start, end)| <= limit
    ensures |ChargesBetween(t.charges, start, end)| <= limit
  {
    var p := StepAddsCharge(s, step, t, outcome);
    if outcome.Accepted? {
      OneMoreBetween(s.charges, step.context.id, Charge(p, step.i.now), start, end);
    }
  }

  /** A trial never grants more than its limit inside its window. */
  lemma {:induction false} TrialsStayWithinLimit(states: seq<State>, steps: seq<Step>, outcomes: seq<Outcome>,
                                                 limit: nat, start: Time, end: Time, k: nat)
    requires Run(states, steps, outcomes) && Invariant(states[0]) && TrialGoverns(steps, limit, start, end) && k < |states|
    requires start < end && |ChargesBetween(states[0].charges, start, end)| <= limit
    ensures |ChargesBetween(states[k].charges, start, end)| <= limit
  {
    if k > 0 {
      TrialsStayWithinLimit(states, steps, outcomes, limit, start, end, k - 1);
      RunKeepsInvariant(states, steps, outcomes, k - 1);
      StepKeepsTrialQuota(states[k - 1], steps[k - 1], states[k], outcomes[k - 1], limit, start, end);
    }
  }
}
