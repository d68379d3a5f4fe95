/**
 Objects in blob storage and the rows that name them. A handler stores an object
 under its key, commits a row, and deletes the object again unless the row names
 it. Requests interleave, die anywhere, and their deletes may fail.

 Documents, OCR results and reviews get a random key each. An export artifact's
 key is made of its job, attempt and format, so a repeated upload has the same.
 */
module Blobs {
  import opened Common

  datatype Format = Csv | Xlsx

  datatype Key = Random(id: nat) | Artifact(job: nat, attempt: nat, format: Format)

  /** The bytes of an object; a row records their digest and size. */
  type Content = nat

  type RequestId = nat

  /** How far a request has come: with nothing stored, with its object stored, or with a refusal to clean up after. */
  datatype Stage = Began(key: Key) | Stored(key: Key, content: Content) | Refused(key: Key)

  datatype State = State(stored: map<Key, Content>, recorded: map<Key, Content>, used: set<Key>, requests: map<RequestId, Stage>)

  const EMPTY := State(map[], map[], {}, map[])

  datatype Step =
    | Begin(request: RequestId, key: Key)
    | Put(request: RequestId, content: Content, leaves: Option<Content>, ok: bool)
    | Reject(request: RequestId)
    | Commit(request: RequestId, named: bool)
    | Cleanup(request: RequestId, deleted: bool)
    | Leave(request: RequestId)

  /** What a put leaves under its key; a failed one may have left the object, whole or in part. */
  function Left(content: Content, leaves: Option<Content>, ok: bool): Option<Content> {
    if ok then Some(content) else leaves
  }

  function ApplyPut(s: State, request: RequestId, key: Key, content: Content, leaves: Option<Content>, ok: bool): State {
    var left := Left(content, leaves, ok);
    var t := if left.Some? then s.(stored := s.stored[key := left.value]) else s;
    t.(requests := s.requests[request := if ok then Stored(key, content) else Refused(key)])
  }

  /** A commit that names the key ends the request; any other is cleaned up after. A row that is there keeps what it recorded. */
  function ApplyCommit(s: State, request: RequestId, key: Key, content: Content, named: bool): State {
    if named then s.(recorded := if key in s.recorded then s.recorded else s.recorded[key := content], requests := s.requests - {request})
    else s.(requests := s.requests[request := Refused(key)])
  }

  function ApplyCleanup(s: State, request: RequestId, key: Key, deleted: bool): State {
    var t := if deleted then s.(stored := s.stored - {key}) else s;
    t.(requests := s.requests - {request})
  }

  predicate At(s: State, request: RequestId, key: Key) {
    request in s.requests && s.requests[request].key == key
  }

  /** `Leave` ends a request where it is: it has died, or it keeps its object without a row. */
  function Apply(s: State, step: Step): State {
    match step
    case Begin(request, key) =>
      if request in s.requests then s
      else s.(used := s.used + {key}, requests := s.requests[request := Began(key)])
    case Put(request, content, leaves, ok) =>
      if request in s.requests && s.requests[request].Began? then ApplyPut(s, request, s.requests[request].key, content, leaves, ok) else s
    case Reject(request) =>
      if request in s.requests && s.requests[request].Stored? then s.(requests := s.requests[request := Refused(s.requests[request].key)]) else s
    case Commit(request, named) =>
      if request in s.requests && s.requests[request].Stored? then ApplyCommit(s, request, s.requests[request].key, s.requests[request].content, named) else s
    case Cleanup(request, deleted) =>
      if request in s.requests && s.requests[request].Refused? then ApplyCleanup(s, request, s.requests[request].key, deleted) else s
    case Leave(request) => s.(requests := s.requests - {request})
  }

  function Run(s: State, steps: seq<Step>): State {
    if steps == [] then s else Apply(Run(s, steps[..|steps| - 1]), steps[|steps| - 1])
  }

  ghost predicate NothingDangles(s: State) {
    s.recorded.Keys <= s.stored.Keys
  }

  // ----- When an object is missing: exactly -----

  /** The step puts the object under the key. */
  predicate Stores(s: State, step: Step, key: Key) {
    step.Put? && At(s, step.request, key) && s.requests[step.request].Began? && Left(step.content, step.leaves, step.ok).Some?
  }

  /** The step takes the object under the key away. */
  predicate Deletes(s: State, step: Step, key: Key) {
    step.Cleanup? && At(s, step.request, key) && s.requests[step.request].Refused? && step.deleted
  }

  ghost predicate StoredAt(s: State, steps: seq<Step>, key: Key, i: nat) {
    i < |steps| && Stores(Run(s, steps[..i]), steps[i], key)
  }

  ghost predicate DeletedAt(s: State, steps: seq<Step>, key: Key, i: nat) {
    i < |steps| && Deletes(Run(s, steps[..i]), steps[i], key)
  }

  /** The object is taken away at step i and not restored after it. */
  ghost predicate LostAt(s: State, steps: seq<Step>, key: Key, i: nat) {
    DeletedAt(s, steps, key, i) && forall j :: i < j ==> !StoredAt(s, steps, key, j)
  }

  /** Some clean-up took the object away and no later put restored it. */
  ghost predicate Lost(s: State, steps: seq<Step>, key: Key) {
    exists i :: LostAt(s, steps, key, i)
  }

  ghost predicate EverStored(s: State, steps: seq<Step>, key: Key) {
    key in s.stored || exists i :: StoredAt(s, steps, key, i)
  }

  lemma StepStores(s: State, step: Step, key: Key)
    ensures key in Apply(s, step).stored <==> Stores(s, step, key) || (key in s.stored && !Deletes(s, step, key))
  {
  }

  lemma PrefixAgrees(s: State, steps: seq<Step>, last: Step, key: Key, i: nat)
    requires i < |steps|
    ensures StoredAt(s, steps + [last], key, i) <==> StoredAt(s, steps, key, i)
    ensures DeletedAt(s, steps + [last], key, i) <==> DeletedAt(s, steps, key, i)
  {
    assert (steps + [last])[..i] == steps[..i];
  }

  lemma RunLast(s: State, steps: seq<Step>, last: Step)
    ensures Run(s, steps + [last]) == Apply(Run(s, steps), last)
  {
    assert (steps + [last])[..|steps|] == steps;
  }

  lemma LastStep(s: State, steps: seq<Step>, last: Step, key: Key)
    ensures StoredAt(s, steps + [last], key, |steps|) <==> Stores(Run(s, steps), last, key)
    ensures DeletedAt(s, steps + [last], key, |steps|) <==> Deletes(Run(s, steps), last, key)
    ensures Run(s, steps + [last]) == Apply(Run(s, steps), last)
  {
    assert (steps + [last])[..|steps|] == steps;
  }

  lemma LostAtAgrees(s: State, steps: seq<Step>, last: Step, key: Key, i: nat)
    requires i < |steps|
    ensures LostAt(s, steps + [last], key, i) <==> LostAt(s, steps, key, i) && !Stores(Run(s, steps), last, key)
  {
    var all := steps + [last];
    LastStep(s, steps, last, key);
    PrefixAgrees(s, steps, last, key, i);
    forall j: nat | i < j < |steps|
      ensures StoredAt(s, all, key, j) <==> StoredAt(s, steps, key, j)
    {
      PrefixAgrees(s, steps, last, key, j);
    }
    if LostAt(s, steps, key, i) && !Stores(Run(s, steps), last, key) {
      forall j: nat | i < j
        ensures !StoredAt(s, all, key, j)
      {
        assert j < |steps| ==> !StoredAt(s, steps, key, j);
      }
    }
    assert LostAt(s, all, key, i) ==> !StoredAt(s, all, key, |steps|);
  }

  lemma LostAfterMore(s: State, steps: seq<Step>, last: Step, key: Key)
    ensures Lost(s, steps + [last], key) <==>
      Deletes(Run(s, steps), last, key) || (Lost(s, steps, key) && !Stores(Run(s, steps), last, key))
  {
    var all := steps + [last];
    LastStep(s, steps, last, key);
    forall i: nat | i < |steps| {
      LostAtAgrees(s, steps, last, key, i);
    }
    if Lost(s, all, key) {
      var i: nat :| LostAt(s, all, key, i);
      assert i < |steps| ==> LostAt(s, steps, key, i);
    }
    if Deletes(Run(s, steps), last, key) {
      assert LostAt(s, all, key, |steps|);
    } else if Lost(s, steps, key) && !Stores(Run(s, steps), last, key) {
      var i: nat :| LostAt(s, steps, key, i);
      assert LostAt(s, all, key, i);
    }
  }

  lemma EverStoredAfterMore(s: State, steps: seq<Step>, last: Step, key: Key)
    ensures EverStored(s, steps + [last], key) <==> EverStored(s, steps, key) || Stores(Run(s, steps), last, key)
  {
    var all := steps + [last];
    LastStep(s, steps, last, key);
    forall i: nat | i < |steps| {
      PrefixAgrees(s, steps, last, key, i);
    }
    if EverStored(s, all, key) && key !in s.stored {
      var i: nat :| StoredAt(s, all, key, i);
      assert i < |steps| ==> StoredAt(s, steps, key, i);
    }
    if EverStored(s, steps, key) && key !in s.stored {
      var i: nat :| StoredAt(s, steps, key, i);
      assert StoredAt(s, all, key, i);
    }
    if Stores(Run(s, steps), last, key) {
      assert StoredAt(s, all, key, |steps|);
    }
  }

  /** An object is there exactly when it was put and has not been lost since, over any run. */
  lemma {:induction false} PresentIff(s: State, steps: seq<Step>, key: Key)
    ensures key in Run(s, steps).stored <==> EverStored(s, steps, key) && !Lost(s, steps, key)
  {
    if steps != [] {
      var front, last := steps[..|steps| - 1], steps[|steps| - 1];
      assert steps == front + [last];
      PresentIff(s, front, key);
      StepStores(Run(s, front), last, key);
      LostAfterMore(s, front, last, key);
      EverStoredAfterMore(s, front, last, key);
      StoringIsNotDeleting(Run(s, front), last, key);
    }
  }

  lemma StoringIsNotDeleting(s: State, step: Step, key: Key)
    ensures !(Stores(s, step, key) && Deletes(s, step, key))
  {
  }

  /** What a row names, or a request has stored, was put at some time. */
  ghost predicate PutBefore(s: State, steps: seq<Step>, key: Key) {
    && (key in Run(s, steps).recorded ==> EverStored(s, steps, key))
    && forall q :: At(Run(s, steps), q, key) && Run(s, steps).requests[q].Stored? ==> EverStored(s, steps, key)
  }

  lemma StepNames(s: State, step: Step, key: Key)
    ensures var t := Apply(s, step);
      key in t.recorded ==> key in s.recorded || (At(s, step.request, key) && s.requests[step.request].Stored?)
    ensures forall q :: var t := Apply(s, step);
      At(t, q, key) && t.requests[q].Stored? ==> (At(s, q, key) && s.requests[q].Stored?) || Stores(s, step, key)
  {
  }

  lemma {:induction false} NamedWasPut(steps: seq<Step>, key: Key)
    ensures PutBefore(EMPTY, steps, key)
  {
    if steps != [] {
      var front, last := steps[..|steps| - 1], steps[|steps| - 1];
      assert steps == front + [last];
      NamedWasPut(front, key);
      RunLast(EMPTY, front, last);
      StepNames(Run(EMPTY, front), last, key);
      EverStoredAfterMore(EMPTY, front, last, key);
    }
  }

  /**
   Over every run from the empty state, with keys drawn in whatever way, a row
   dangles exactly when some clean-up took away a recorded object that no later
   put restored.
   */
  lemma DanglesIff(steps: seq<Step>)
    ensures NothingDangles(Run(EMPTY, steps)) <==> forall key :: key in Run(EMPTY, steps).recorded ==> !Lost(EMPTY, steps, key)
  {
    forall key | key in Run(EMPTY, steps).recorded
      ensures key in Run(EMPTY, steps).stored <==> !Lost(EMPTY, steps, key)
    {
      PresentIff(EMPTY, steps, key);
      NamedWasPut(steps, key);
    }
  }

  // ----- When an object holds the recorded bytes -----

  /** Step i put this under the key, and no later step put anything there. */
  ghost predicate LastPut(s: State, steps: seq<Step>, key: Key, content: Content, i: nat) {
    && StoredAt(s, steps, key, i) && Left(steps[i].content, steps[i].leaves, steps[i].ok) == Some(content)
    && forall j :: i < j ==> !StoredAt(s, steps, key, j)
  }

  lemma StepLeaves(s: State, step: Step, key: Key)
    requires key in Apply(s, step).stored
    ensures Stores(s, step, key) ==> Left(step.content, step.leaves, step.ok) == Some(Apply(s, step).stored[key])
    ensures !Stores(s, step, key) ==> key in s.stored && Apply(s, step).stored[key] == s.stored[key]
  {
  }

  lemma LastPutStays(s: State, steps: seq<Step>, last: Step, key: Key, content: Content, i: nat)
    requires LastPut(s, steps, key, content, i) && !Stores(Run(s, steps), last, key)
    ensures LastPut(s, steps + [last], key, content, i)
  {
    var all := steps + [last];
    LastStep(s, steps, last, key);
    PrefixAgrees(s, steps, last, key, i);
    forall j: nat | i < j
      ensures !StoredAt(s, all, key, j)
    {
      if j < |steps| {
        PrefixAgrees(s, steps, last, key, j);
      }
    }
  }

  /** An object holds what was put under its key last. */
  lemma {:induction false} HoldsLastPut(steps: seq<Step>, key: Key) returns (i: nat)
    requires key in Run(EMPTY, steps).stored
    ensures LastPut(EMPTY, steps, key, Run(EMPTY, steps).stored[key], i)
  {
    var front, last := steps[..|steps| - 1], steps[|steps| - 1];
    assert steps == front + [last];
    LastStep(EMPTY, front, last, key);
    StepLeaves(Run(EMPTY, front), last, key);
    if Stores(Run(EMPTY, front), last, key) {
      i := |front|;
    } else {
      i := HoldsLastPut(front, key);
      LastPutStays(EMPTY, front, last, key, Run(EMPTY, front).stored[key], i);
    }
  }

  /**
   Over every run from the empty state the object under a recorded key holds the
   recorded bytes exactly when it is not lost and what was put there last, whole
   or in part, were these bytes.
   */
  lemma HoldsRecordedIff(steps: seq<Step>, key: Key)
    requires key in Run(EMPTY, steps).recorded
    ensures var s := Run(EMPTY, steps);
      (key in s.stored && s.stored[key] == s.recorded[key]) <==>
        !Lost(EMPTY, steps, key) && exists i :: LastPut(EMPTY, steps, key, s.recorded[key], i)
  {
    var s := Run(EMPTY, steps);
    PresentIff(EMPTY, steps, key);
    NamedWasPut(steps, key);
    if key in s.stored {
      var i := HoldsLastPut(steps, key);
      if k: nat :| LastPut(EMPTY, steps, key, s.recorded[key], k) {
        assert k == i || k < i || i < k;
      }
    }
  }

  // ----- Fresh keys -----

  /** No two requests have drawn this key. */
  ghost predicate DrawnOnce(steps: seq<Step>, key: Key) {
    forall i :: 0 <= i < |steps| && steps[i].Begin? && steps[i].key == key ==> key !in Run(EMPTY, steps[..i]).used
  }

  /** At most one request has the key, and then no row names it; a named key is in storage. */
  ghost predicate Owned(s: State, key: Key) {
    && (key in s.recorded ==> key in s.stored && s.stored[key] == s.recorded[key] && key in s.used)
    && (forall q :: At(s, q, key) ==>
          && key in s.used && key !in s.recorded
          && (s.requests[q].Stored? ==> key in s.stored && s.stored[key] == s.requests[q].content))
    && forall p, q :: At(s, p, key) && At(s, q, key) ==> p == q
  }

  lemma KeyBefore(s: State, step: Step, q: RequestId, key: Key)
    requires At(Apply(s, step), q, key)
    ensures At(s, q, key) || (step.Begin? && q == step.request && step.key == key)
  {
  }

  lemma OwnerKeepsKey(s: State, step: Step, q: RequestId, key: Key)
    requires Owned(s, key) && (step.Begin? && step.key == key ==> key !in s.used) && At(Apply(s, step), q, key)
    ensures var t := Apply(s, step);
      && key in t.used && key !in t.recorded
      && (t.requests[q].Stored? ==> key in t.stored && t.stored[key] == t.requests[q].content)
  {
    KeyBefore(s, step, q, key);
    assert step.request != q ==> !At(s, step.request, key) || !At(s, q, key);
  }

  lemma StepKeepsOwned(s: State, step: Step, key: Key)
    requires Owned(s, key) && (step.Begin? && step.key == key ==> key !in s.used)
    ensures Owned(Apply(s, step), key)
  {
    var t := Apply(s, step);
    forall q | At(t, q, key)
      ensures key in t.used && key !in t.recorded
      ensures t.requests[q].Stored? ==> key in t.stored && t.stored[key] == t.requests[q].content
    {
      OwnerKeepsKey(s, step, q, key);
    }
    forall p, q | At(t, p, key) && At(t, q, key)
      ensures p == q
    {
      KeyBefore(s, step, p, key);
      KeyBefore(s, step, q, key);
    }
    RecordedIsOwned(s, step, key);
  }

  lemma RecordedIsOwned(s: State, step: Step, key: Key)
    requires Owned(s, key)
    ensures var t := Apply(s, step); key in t.recorded ==> key in t.stored && t.stored[key] == t.recorded[key] && key in t.used
  {
    assert At(s, step.request, key) ==> key !in s.recorded;
  }

  lemma {:induction false} DrawnOnceIsOwned(steps: seq<Step>, key: Key)
    requires DrawnOnce(steps, key)
    ensures Owned(Run(EMPTY, steps), key)
  {
    if steps != [] {
      var front := steps[..|steps| - 1];
      assert forall i :: 0 <= i < |front| ==> front[..i] == steps[..i];
      DrawnOnceIsOwned(front, key);
      StepKeepsOwned(Run(EMPTY, front), steps[|steps| - 1], key);
    }
  }

  /** A row whose key was drawn once never dangles and names the bytes it recorded, whatever happens under other keys. */
  lemma NoDanglingReference(steps: seq<Step>, key: Key)
    requires key in Run(EMPTY, steps).recorded && DrawnOnce(steps, key)
    ensures key in Run(EMPTY, steps).stored && Run(EMPTY, steps).stored[key] == Run(EMPTY, steps).recorded[key]
  {
    DrawnOnceIsOwned(steps, key);
  }

  // ----- A repeated upload of one attempt -----

  function Published(key: Key, content: Content): seq<Step> {
    [Begin(1, key), Put(1, content, None, true), Commit(1, true)]
  }

  /** How a repeat goes: its put fails, its completion fails, or it is answered with the first artifact. */
  datatype Repeat = PutFails | CompletionFails | Answered

  function Middle(repeat: Repeat, content: Content): seq<Step> {
    if repeat.PutFails? then [Put(2, content, None, false)]
    else [Put(2, content, None, true), if repeat.Answered? then Leave(2) else Commit(2, false)]
  }

  function Repeated(key: Key, content: Content, repeat: Repeat, again: Content): seq<Step> {
    Published(key, content) + [Begin(2, key)] + Middle(repeat, again) + if repeat.Answered? then [] else [Cleanup(2, true)]
  }

  lemma {:induction false} RunJoins(s: State, front: seq<Step>, back: seq<Step>)
    ensures Run(s, front + back) == Run(Run(s, front), back)
    decreases |back|
  {
    if back == [] {
      assert front + back == front;
    } else {
      var init, last := back[..|back| - 1], back[|back| - 1];
      RunJoins(s, front, init);
      RunLast(s, front + init, last);
      assert front + back == front + init + [last];
    }
  }

  lemma RunOne(s: State, step: Step)
    ensures Run(s, [step]) == Apply(s, step)
  {
    assert [step][..0] == [];
  }

  lemma RunTwo(s: State, first: Step, second: Step)
    ensures Run(s, [first, second]) == Apply(Apply(s, first), second)
  {
    assert [first, second] == [first] + [second];
    RunJoins(s, [first], [second]);
    RunOne(s, first);
    RunOne(Apply(s, first), second);
  }

  lemma PublishedIsThere(key: Key, content: Content)
    ensures Run(EMPTY, Published(key, content)) == State(map[key := content], map[key := content], {key}, map[])
  {
    var begun := Apply(EMPTY, Begin(1, key));
    RunTwo(EMPTY, Begin(1, key), Put(1, content, None, true));
    var put := Apply(begun, Put(1, content, None, true));
    assert Published(key, content) == [Begin(1, key), Put(1, content, None, true)] + [Commit(1, true)];
    RunJoins(EMPTY, [Begin(1, key), Put(1, content, None, true)], [Commit(1, true)]);
    RunOne(put, Commit(1, true));
  }

  lemma RepeatReaches(key: Key, content: Content, repeat: Repeat, again: Content) returns (s: State)
    ensures s == Run(EMPTY, Published(key, content) + [Begin(2, key)] + Middle(repeat, again))
    ensures s.recorded == map[key := content]
    ensures if repeat.PutFails? then s.stored == map[key := content] else s.stored == map[key := again]
    ensures if repeat.Answered? then 2 !in s.requests else 2 in s.requests && s.requests[2] == Refused(key)
  {
    var before := State(map[key := content], map[key := content], {key}, map[]);
    var begun := Apply(before, Begin(2, key));
    PublishedIsThere(key, content);
    RunJoins(EMPTY, Published(key, content), [Begin(2, key)]);
    RunOne(before, Begin(2, key));
    RunJoins(EMPTY, Published(key, content) + [Begin(2, key)], Middle(repeat, again));
    s := Run(begun, Middle(repeat, again));
    if repeat.PutFails? {
      RunOne(begun, Put(2, again, None, false));
    } else {
      RunTwo(begun, Put(2, again, None, true), if repeat.Answered? then Leave(2) else Commit(2, false));
      assert begun.stored[key := again] == map[key := again];
    }
  }

  /** Two reachable losses: an upload is published, its repeat fails in the put or in the completion, and the clean-up takes the published object. */
  lemma RepeatedUploadLosesObject(key: Key, content: Content, repeat: Repeat, again: Content)
    requires !repeat.Answered?
    ensures var s := Run(EMPTY, Repeated(key, content, repeat, again)); key in s.recorded && key !in s.stored
  {
    var refused := RepeatReaches(key, content, repeat, again);
    RunJoins(EMPTY, Published(key, content) + [Begin(2, key)] + Middle(repeat, again), [Cleanup(2, true)]);
    RunOne(refused, Cleanup(2, true));
  }

  /** A reachable mismatch: the repeat is answered with the first artifact, and its own bytes have replaced the recorded ones. */
  lemma RepeatedUploadReplacesBytes(key: Key, content: Content, again: Content)
    ensures var s := Run(EMPTY, Repeated(key, content, Answered, again));
      && key in s.recorded && s.recorded[key] == content && key in s.stored && s.stored[key] == again
  {
    var s := RepeatReaches(key, content, Answered, again);
    var steps := Published(key, content) + [Begin(2, key)] + Middle(Answered, again);
    assert steps + [] == steps;
  }

  // ----- The handlers -----

  /** Every random key has one owner. */
  ghost predicate Invariant(s: State) {
    forall key: Key :: key.Random? ==> Owned(s, key)
  }

  /** Random keys are drawn fresh; an artifact's key may be drawn again. */
  predicate Legal(s: State, step: Step) {
    step.Begin? && step.key.Random? ==> step.key !in s.used
  }

  lemma StepKeepsInvariant(s: State, step: Step)
    requires Invariant(s) && Legal(s, step)
    ensures Invariant(Apply(s, step))
  {
    forall key: Key | key.Random?
      ensures Owned(Apply(s, step), key)
    {
      StepKeepsOwned(s, step, key);
    }
  }

  /** No request but this one has the key. */
  ghost predicate Alone(s: State, mine: RequestId, key: Key) {
    forall q :: At(s, q, key) ==> q == mine
  }

  lemma OwnStepKeepsAlone(s: State, step: Step, key: Key)
    requires Alone(s, step.request, key)
    ensures Alone(Apply(s, step), step.request, key)
  {
    forall q | At(Apply(s, step), q, key)
      ensures q == step.request
    {
      assert q != step.request ==> At(s, q, key);
    }
  }

  /** Rows stay, with what they recorded. */
  ghost predicate Kept(before: State, after: State) {
    forall key :: key in before.recorded ==> key in after.recorded && after.recorded[key] == before.recorded[key]
  }

  /** The same object and the same row, or none, under this key. */
  ghost predicate SameUnder(before: State, after: State, key: Key) {
    && (key in before.stored <==> key in after.stored) && (key in before.stored ==> after.stored[key] == before.stored[key])
    && (key in before.recorded <==> key in after.recorded) && (key in before.recorded ==> after.recorded[key] == before.recorded[key])
  }

  class Server {
    var state: State

    constructor ()
      ensures Invariant(state) && state == EMPTY
    {
      state := EMPTY;
    }

    /** Steps of other requests; `elsewhere` keeps them away from one key. */
    method Others(others: seq<Step>, mine: RequestId, elsewhere: Key)
      requires Invariant(state)
      modifies this
      ensures Invariant(state) && Kept(old(state), state)
      ensures mine in old(state.requests) ==> mine in state.requests && state.requests[mine] == old(state.requests)[mine]
      ensures Alone(old(state), mine, elsewhere) && !elsewhere.Random? && !Drawn(others, elsewhere) ==>
        Alone(state, mine, elsewhere) && SameUnder(old(state), state, elsewhere)
    {
      for i := 0 to |others|
        invariant Invariant(state) && Kept(old(state), state)
        invariant mine in old(state.requests) ==> mine in state.requests && state.requests[mine] == old(state.requests)[mine]
        invariant Alone(old(state), mine, elsewhere) && !elsewhere.Random? && !Drawn(others, elsewhere) ==>
          Alone(state, mine, elsewhere) && SameUnder(old(state), state, elsewhere)
      {
        var step := others[i];
        if step.request != mine && Legal(state, step) {
          StepKeepsInvariant(state, step);
          OtherKeysStay(state, step, mine, elsewhere);
          state := Apply(state, step);
        }
      }
    }

    method Take(step: Step)
      requires Invariant(state) && Legal(state, step)
      modifies this
      ensures state == Apply(old(state), step) && Invariant(state)
      ensures forall key :: Alone(old(state), step.request, key) ==> Alone(state, step.request, key)
    {
      StepKeepsInvariant(state, step);
      forall key | Alone(state, step.request, key)
        ensures Alone(Apply(state, step), step.request, key)
      {
        OwnStepKeepsAlone(state, step, key);
      }
      state := Apply(state, step);
    }

    /** The deferred delete of a request that failed, behind steps of other requests. */
    method Withdraw(request: RequestId, key: Key, deletes: bool, others: seq<Step>)
      requires Invariant(state) && request in state.requests && state.requests[request] == Refused(key)
      modifies this
      ensures Invariant(state) && Kept(old(state), state)
      ensures Alone(old(state), request, key) && !key.Random? && !Drawn(others, key) ==>
        && (key in state.stored <==> key in old(state.stored) && !deletes)
        && (key in state.recorded <==> key in old(state.recorded))
    {
      Others(others, request, key);
      Take(Cleanup(request, deletes));
    }

    /**
     `submitOCR`, and in the same way `confirmExtraction`: put, commit, and the
     deferred delete unless `keep`. `named` is whether the commit recorded this
     key; a repeated completion answers with the key of the first one.
     */
    method Submit(request: RequestId, key: Key, content: Content, leaves: Option<Content>, stored: bool, named: bool, deletes: bool,
                  first: seq<Step>, second: seq<Step>, third: seq<Step>) returns (kept: bool)
      requires Invariant(state) && request !in state.requests && key.Random? && key !in state.used
      modifies this
      ensures Invariant(state)
      ensures kept <==> stored && named
      ensures kept ==> key in state.recorded && key in state.stored && state.recorded[key] == state.stored[key] == content
    {
      var keep := false;
      Take(Begin(request, key));
      Others(first, request, key);
      Take(Put(request, content, leaves, stored));
      if stored {
        Others(second, request, key);
        Take(Commit(request, named));
        keep := named;
      }
      if !keep {
        Others(third, request, key);
        Take(Cleanup(request, deletes));
      }
      kept := keep;
    }

    /**
     `Service.Accept` around `Intake.Prepare`: the object is put and checked, a
     refusal of either deletes it, and so does a commit that did not accept.
     */
    method Accept(request: RequestId, key: Key, content: Content, leaves: Option<Content>, stored: bool, sound: bool, accepted: bool, deletes: bool,
                  first: seq<Step>, second: seq<Step>, third: seq<Step>, fourth: seq<Step>) returns (kept: bool)
      requires Invariant(state) && request !in state.requests && key.Random? && key !in state.used
      modifies this
      ensures Invariant(state)
      ensures kept <==> stored && sound && accepted
      ensures kept ==> key in state.recorded && key in state.stored && state.recorded[key] == state.stored[key] == content
    {
      Take(Begin(request, key));
      Others(first, request, key);
      Take(Put(request, content, leaves, stored));
      if stored {
        Others(second, request, key);
        if sound {
          Others(third, request, key);
          Take(Commit(request, accepted));
          if accepted {
            return true;
          }
        } else {
          Take(Reject(request));
        }
      }
      Others(fourth, request, key);
      Take(Cleanup(request, deletes));
      kept := false;
    }

    /**
     `uploadArtifact`: a put that fails or exceeds the limit, and a completion
     that fails, delete the object. A completion that succeeds records the key,
     or answers with the artifact of the attempt that completed the job before.
     After it, the key is recorded and missing exactly when it was recorded
     before, the upload failed, and the delete took effect. An upload that
     succeeds leaves its bytes there, and a row that is there keeps the first ones.
     */
    method Upload(request: RequestId, job: nat, attempt: nat, format: Format,
                  content: Content, leaves: Option<Content>, stored: bool, fits: bool, completed: bool, records: bool, deletes: bool,
                  first: seq<Step>, second: seq<Step>, third: seq<Step>) returns (ok: bool)
      requires Invariant(state) && request !in state.requests
      modifies this
      ensures Invariant(state)
      ensures ok <==> stored && fits && completed
      ensures var key := Artifact(job, attempt, format);
        Alone(old(state), request, key) && !Drawn(first, key) && !Drawn(second, key) && !Drawn(third, key)
        && (key in old(state.recorded) ==> key in old(state.stored)) ==>
          && (key in state.recorded && key !in state.stored <==> key in old(state.recorded) && !ok && deletes)
          && (ok ==> key in state.stored && state.stored[key] == content)
          && (key in old(state.recorded) ==> key in state.recorded && state.recorded[key] == old(state.recorded)[key])
          && (key !in old(state.recorded) && key in state.recorded ==> ok && state.recorded[key] == content)
    {
      var key := Artifact(job, attempt, format);
      Take(Begin(request, key));
      Others(first, request, key);
      Take(Put(request, content, leaves, stored));
      if stored {
        if !fits {
          Take(Reject(request));
        } else {
          Others(second, request, key);
          if completed && records {
            Take(Commit(request, true));
            return true;
          }
          if completed {
            Take(Leave(request));
            return true;
          }
          Take(Commit(request, false));
        }
      }
      Withdraw(request, key, deletes, third);
      ok := false;
    }
  }

  /** Some request draws the key. */
  ghost predicate Drawn(steps: seq<Step>, key: Key) {
    exists i :: 0 <= i < |steps| && steps[i].Begin? && steps[i].key == key
  }

  lemma OtherKeysStay(s: State, step: Step, mine: RequestId, key: Key)
    requires step.request != mine
    ensures Alone(s, mine, key) && !(step.Begin? && step.key == key) ==>
      var t := Apply(s, step);
      Alone(t, mine, key) && SameUnder(s, t, key)
  {
    var t := Apply(s, step);
    if Alone(s, mine, key) && !(step.Begin? && step.key == key) {
      assert !At(s, step.request, key);
      forall q | At(t, q, key)
        ensures q == mine
      {
        assert At(s, q, key);
      }
    }
  }
}
