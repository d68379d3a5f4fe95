/** The pages of a document export, and the worker's loop that collects them into a table. */
module ExportWorker {
  import opened Common
  import opened Review
  import opened ReviewInvariants
  import opened ReviewRuns
  import opened Exports

  /** Which rows of the snapshot the joins of a page still find, by ordinal. */
  type Joins = nat -> bool

  datatype Page = Page(product: Product, entries: seq<Row>, done: bool, next: nat)

  datatype Failure = LeaseLost | TemporaryUpstream | InvalidInput

  /** The rows after a cursor that the joins still find. */
  function Joined(rows: seq<Row>, joins: Joins, last: nat): seq<Row> {
    if rows == [] then []
    else
      var front, row := Joined(rows[..|rows| - 1], joins, last), rows[|rows| - 1];
      if row.ordinal > last && joins(row.ordinal) then front + [row] else front
  }

  ghost predicate RowsNumbered(rows: seq<Row>) {
    forall i :: 0 <= i < |rows| ==> rows[i].ordinal == i + 1
  }

  /** The row is the one with its ordinal. */
  predicate IsRowOf(row: Row, rows: seq<Row>) {
    1 <= row.ordinal <= |rows| && row == rows[row.ordinal - 1]
  }

  /** Part of the numbered rows, in their order. */
  ghost predicate Ordered(part: seq<Row>, rows: seq<Row>, after: nat, upto: nat) {
    && (forall i :: 0 <= i < |part| ==> after < part[i].ordinal <= upto && IsRowOf(part[i], rows))
    && forall i, j :: 0 <= i < j < |part| ==> part[i].ordinal < part[j].ordinal
  }

  lemma OrderedInMore(part: seq<Row>, rows: seq<Row>, next: Row, after: nat)
    requires Ordered(part, rows, after, |rows|)
    ensures Ordered(part, rows + [next], after, |rows|)
  {
    var more := rows + [next];
    forall i | 0 <= i < |part|
      ensures IsRowOf(part[i], more)
    {
      assert IsRowOf(part[i], rows);
      assert more[part[i].ordinal - 1] == rows[part[i].ordinal - 1];
    }
  }

  lemma NextIsOrdered(part: seq<Row>, rows: seq<Row>, next: Row, after: nat)
    requires Ordered(part, rows, after, |rows|) && next.ordinal == |rows| + 1 && next.ordinal > after
    ensures Ordered(part + [next], rows + [next], after, |rows| + 1)
  {
    OrderedInMore(part, rows, next, after);
    assert IsRowOf(next, rows + [next]);
  }

  /** The rows of a page query come in order, and each of them joins. */
  ghost predicate OrderedJoins(part: seq<Row>, rows: seq<Row>, joins: Joins, last: nat) {
    Ordered(part, rows, last, |rows|) && forall i :: 0 <= i < |part| ==> joins(part[i].ordinal)
  }

  lemma OneMoreJoined(part: seq<Row>, rows: seq<Row>, next: Row, joins: Joins, last: nat)
    requires OrderedJoins(part, rows, joins, last) && next.ordinal == |rows| + 1
    ensures OrderedJoins(if next.ordinal > last && joins(next.ordinal) then part + [next] else part, rows + [next], joins, last)
  {
    OrderedInMore(part, rows, next, last);
    if next.ordinal > last {
      NextIsOrdered(part, rows, next, last);
    }
  }

  lemma {:induction false} JoinedIsOrdered(rows: seq<Row>, joins: Joins, last: nat)
    requires RowsNumbered(rows)
    ensures OrderedJoins(Joined(rows, joins, last), rows, joins, last)
  {
    if rows != [] {
      var front, next := rows[..|rows| - 1], rows[|rows| - 1];
      assert rows == front + [next];
      JoinedIsOrdered(front, joins, last);
      OneMoreJoined(Joined(front, joins, last), front, next, joins, last);
    }
  }

  /** Nothing is dropped: when all joins succeed a page goes on exactly where the cursor stands. */
  lemma {:induction false} AllJoined(rows: seq<Row>, joins: Joins, last: nat)
    requires RowsNumbered(rows) && last <= |rows| && forall i :: 1 <= i <= |rows| ==> joins(i)
    ensures Joined(rows, joins, last) == rows[last..]
  {
    if last == |rows| {
      NoneAfter(rows, joins, last);
    } else {
      AllJoined(rows[..|rows| - 1], joins, last);
    }
  }

  lemma {:induction false} NoneAfter(rows: seq<Row>, joins: Joins, last: nat)
    requires RowsNumbered(rows) && |rows| <= last
    ensures Joined(rows, joins, last) == []
  {
    if rows != [] {
      NoneAfter(rows[..|rows| - 1], joins, last);
    }
  }

  lemma JoinedStep(rows: seq<Row>, joins: Joins, last: nat, i: nat)
    requires i < |rows|
    ensures var front := Joined(rows[..i], joins, last);
      Joined(rows[..i + 1], joins, last) == if rows[i].ordinal > last && joins(rows[i].ordinal) then front + [rows[i]] else front
  {
    assert rows[..i + 1][..i] == rows[..i];
  }

  lemma {:induction false} JoinedPrefix(rows: seq<Row>, joins: Joins, last: nat, n: nat)
    requires n <= |rows|
    ensures Joined(rows[..n], joins, last) <= Joined(rows, joins, last)
    decreases |rows|
  {
    if n < |rows| {
      var front := rows[..|rows| - 1];
      assert front[..n] == rows[..n];
      JoinedPrefix(front, joins, last, n);
    } else {
      assert rows[..n] == rows;
    }
  }

  /** What a page must hold: the first rows that are joined, and whether more follow. */
  ghost predicate IsPage(page: Page, rows: seq<Row>, joins: Joins, last: nat, limit: nat) {
    var all := Joined(rows, joins, last);
    && page.done == (|all| <= limit)
    && page.entries == (if |all| <= limit then all else all[..limit])
    && (!page.done && limit > 0 ==> page.next == page.entries[limit - 1].ordinal)
  }

  /** `readDocumentExportPage`: one row more than the limit tells whether to go on. */
  /** The loop may stop at one entry more than the limit. */
  lemma PageIsRead(page: Page, rows: seq<Row>, joins: Joins, last: nat, limit: nat, i: nat, entries: seq<Row>)
    requires limit > 0 && i <= |rows| && entries == Joined(rows[..i], joins, last) && |entries| <= limit + 1
    requires i == |rows| || |entries| > limit
    requires page.done == (|entries| <= limit) && page.entries == if page.done then entries else entries[..limit]
    requires !page.done ==> page.next == entries[limit - 1].ordinal
    ensures IsPage(page, rows, joins, last, limit)
  {
    JoinedPrefix(rows, joins, last, i);
    assert rows[..|rows|] == rows;
  }

  method ReadPage(snapshot: Snapshot, joins: Joins, cursor: Option<nat>, limit: nat) returns (page: Option<Page>)
    requires limit > 0
    ensures page.None? <==> cursor.Some? && cursor.value > MAX_ORDINAL
    ensures page.Some? ==> page.value.product == snapshot.product
    ensures page.Some? ==> IsPage(page.value, snapshot.rows, joins, if cursor.Some? then cursor.value else 0, limit)
  {
    var last := if cursor.Some? then cursor.value else 0;
    if last > MAX_ORDINAL {
      return None;
    }
    var rows := snapshot.rows;
    var entries: seq<Row> := [];
    var cursorOrdinal := last;
    var i := 0;
    while i < |rows| && |entries| <= limit
      invariant i <= |rows| && |entries| <= limit + 1 && entries == Joined(rows[..i], joins, last)
      invariant entries != [] ==> cursorOrdinal == entries[Min(|entries|, limit) - 1].ordinal
    {
      JoinedStep(rows, joins, last, i);
      if rows[i].ordinal > last && joins(rows[i].ordinal) {
        entries := entries + [rows[i]];
        if |entries| <= limit {
          cursorOrdinal := rows[i].ordinal;
        }
      }
      i := i + 1;
    }
    var full := |entries| > limit;
    page := Some(Page(snapshot.product, if full then entries[..limit] else entries, !full, if full then cursorOrdinal else 0));
    PageIsRead(page.value, rows, joins, last, limit, i, entries);
  }

  // ----- The worker -----

  /** What the worker meets at each turn: whether the heartbeat and the read succeed, and what the joins find. */
  datatype Turn = Turn(alive: bool, readable: bool, joins: Joins)

  type Turns = nat -> Turn

  ghost predicate Undisturbed(turns: Turns, count: nat) {
    forall n: nat :: turns(n).alive && turns(n).readable && forall i :: 1 <= i <= count ==> turns(n).joins(i)
  }

  /** Increasing ordinals that are as many as the rows are all of them. */
  lemma {:induction false} AsManyAreAll(part: seq<Row>, rows: seq<Row>, upto: nat)
    requires Ordered(part, rows, 0, upto) && |part| == |rows| && RowsNumbered(rows)
    ensures part == rows
  {
    forall i | 0 <= i < |part|
      ensures part[i] == rows[i]
    {
      OrdinalsSpread(part, rows, upto, i);
    }
  }

  lemma OrdinalsSpread(part: seq<Row>, rows: seq<Row>, upto: nat, i: nat)
    requires Ordered(part, rows, 0, upto) && i < |part|
    ensures i + 1 <= part[i].ordinal <= |rows| - (|part| - 1 - i)
  {
    OrdinalsRise(part, rows, upto, i);
    OrdinalsFall(part, rows, upto, i);
  }

  lemma {:induction false} OrdinalsRise(part: seq<Row>, rows: seq<Row>, upto: nat, i: nat)
    requires Ordered(part, rows, 0, upto) && i < |part|
    ensures i + 1 <= part[i].ordinal
  {
    if i > 0 {
      OrdinalsRise(part, rows, upto, i - 1);
    }
  }

  lemma {:induction false} OrdinalsFall(part: seq<Row>, rows: seq<Row>, upto: nat, i: nat)
    requires Ordered(part, rows, 0, upto) && i < |part|
    ensures part[i].ordinal <= |rows| - (|part| - 1 - i)
    decreases |part| - i
  {
    if i + 1 < |part| {
      OrdinalsFall(part, rows, upto, i + 1);
    }
  }

  /** How far a page takes the worker. */
  function Reached(page: Page, rows: seq<Row>): nat {
    if page.done then |rows| else page.next
  }

  lemma PageExtends(values: seq<Row>, page: Page, rows: seq<Row>, joins: Joins, last: nat, limit: nat)
    requires RowsNumbered(rows) && limit > 0 && last <= |rows| && Ordered(values, rows, 0, last) && IsPage(page, rows, joins, last, limit)
    ensures Ordered(values + page.entries, rows, 0, Reached(page, rows))
    ensures last <= Reached(page, rows) <= |rows| && (!page.done ==> last < page.next)
    ensures forall i :: 0 <= i < |page.entries| ==> joins(page.entries[i].ordinal)
  {
    JoinedIsOrdered(rows, joins, last);
  }

  lemma UndisturbedPage(values: seq<Row>, page: Page, rows: seq<Row>, joins: Joins, last: nat, limit: nat)
    requires RowsNumbered(rows) && limit > 0 && last <= |rows| && IsPage(page, rows, joins, last, limit)
    requires values == rows[..last] && forall i :: 1 <= i <= |rows| ==> joins(i)
    ensures Reached(page, rows) <= |rows| && values + page.entries == rows[..Reached(page, rows)]
  {
    AllJoined(rows, joins, last);
  }

  /** The table so far: rows in order, each found by the joins of the turn that delivered it. */
  ghost predicate Collected(values: seq<Row>, delivered: seq<nat>, turns: Turns, rows: seq<Row>, last: nat) {
    && last <= |rows| && Ordered(values, rows, 0, last) && |delivered| == |values|
    && forall i :: 0 <= i < |values| ==> turns(delivered[i]).joins(values[i].ordinal)
  }

  /** If nothing disturbs the worker it has all rows so far. */
  ghost predicate Whole(values: seq<Row>, turns: Turns, rows: seq<Row>, last: nat) {
    last <= |rows| && (Undisturbed(turns, |rows|) ==> values == rows[..last])
  }

  lemma WholeExtends(values: seq<Row>, turns: Turns, rows: seq<Row>, last: nat, page: Page, turn: nat, limit: nat)
    requires RowsNumbered(rows) && limit > 0 && Whole(values, turns, rows, last) && last <= |rows| && Reached(page, rows) <= |rows|
    requires IsPage(page, rows, turns(turn).joins, last, limit)
    ensures Whole(values + page.entries, turns, rows, Reached(page, rows))
    ensures Undisturbed(turns, |rows|) ==> |values + page.entries| <= |rows|
  {
    if Undisturbed(turns, |rows|) {
      UndisturbedPage(values, page, rows, turns(turn).joins, last, limit);
    }
  }

  lemma CollectedExtends(values: seq<Row>, delivered: seq<nat>, turns: Turns, rows: seq<Row>, last: nat, page: Page, turn: nat, limit: nat)
    requires RowsNumbered(rows) && limit > 0 && Collected(values, delivered, turns, rows, last)
    requires IsPage(page, rows, turns(turn).joins, last, limit)
    ensures Collected(values + page.entries, delivered + seq(|page.entries|, _ => turn), turns, rows, Reached(page, rows))
    ensures Reached(page, rows) <= |rows| && (!page.done ==> last < page.next)
  {
    PageExtends(values, page, rows, turns(turn).joins, last, limit);
  }

  lemma DeliveredInOrder(rows: seq<Row>, delivered: seq<nat>, turns: Turns)
    requires RowsNumbered(rows) && |delivered| == |rows|
    requires forall i :: 0 <= i < |rows| ==> turns(delivered[i]).joins(rows[i].ordinal)
    ensures forall i :: 0 <= i < |delivered| ==> turns(delivered[i]).joins(i + 1)
  {
    forall i | 0 <= i < |delivered|
      ensures turns(delivered[i]).joins(i + 1)
    {
      assert rows[i].ordinal == i + 1;
    }
  }

  /**
   `processExport`: pages are read until one is the last, and the table is kept
   only if it has as many rows as the snapshot. `delivered` says at which turn
   each row arrived.
   */
  method ProcessExport(snapshot: Snapshot, product: Product, rowCount: nat, limit: nat, turns: Turns)
    returns (result: Result<seq<Row>, Failure>, ghost delivered: seq<nat>)
    requires Numbered(snapshot) && |snapshot.rows| <= MAX_ORDINAL && limit > 0
    ensures result.Ok? && rowCount == |snapshot.rows| ==>
      && result.value == snapshot.rows && |delivered| == |snapshot.rows|
      && forall i :: 0 <= i < |delivered| ==> turns(delivered[i]).joins(i + 1)
    ensures result.Ok? ==> |result.value| == rowCount && product == snapshot.product
    ensures Undisturbed(turns, |snapshot.rows|) && product == snapshot.product && rowCount == |snapshot.rows| ==> result.Ok?
  {
    ghost var rows := snapshot.rows;
    var cursor: Option<nat> := None;
    var values: seq<Row> := [];
    delivered := [];
    ghost var last: nat := 0;
    var turn: nat := 0;
    var done := false;
    while !done
      invariant !done ==> last == (if cursor.Some? then cursor.value else 0)
      invariant done ==> last == |rows| && turn > 0
      invariant Collected(values, delivered, turns, rows, last) && Whole(values, turns, rows, last) && |values| <= rowCount
      invariant turn > 0 ==> product == snapshot.product
      decreases !done, |rows| - last
    {
      if !turns(turn).alive {
        return Err(LeaseLost), delivered;
      }
      var page := ReadPage(snapshot, turns(turn).joins, cursor, limit);
      if page.None? || !turns(turn).readable {
        return Err(TemporaryUpstream), delivered;
      }
      CollectedExtends(values, delivered, turns, rows, last, page.value, turn, limit);
      WholeExtends(values, turns, rows, last, page.value, turn, limit);
      if page.value.product != product || |values| + |page.value.entries| > rowCount {
        return Err(InvalidInput), delivered;
      }
      values := values + page.value.entries;
      delivered := delivered + seq(|page.value.entries|, _ => turn);
      last := Reached(page.value, rows);
      turn, done := turn + 1, page.value.done;
      if !done {
        cursor := Some(page.value.next);
      }
    }
    if |values| != rowCount || |values| > MAX_ORDINAL {
      return Err(InvalidInput), delivered;
    }
    if rowCount == |rows| {
      AsManyAreAll(values, rows, last);
      DeliveredInOrder(rows, delivered, turns);
    }
    result := Ok(values);
  }

  // ----- The worker among all other requests -----

  /** The paging query joins an approval by its id and its review, not by the review's revision. */
  predicate ApprovalJoins(d: Document, id: ApprovalId, review: ReviewId) {
    exists i :: 0 <= i < |d.approvals| && d.approvals[i].id == id && !d.approvals[i].superseded && d.approvals[i].review == review
  }

  predicate RowJoins(documents: Documents, snapshot: Snapshot, row: Row) {
    && row.pin.document in documents
    && var d := documents[row.pin.document];
    && d.updatedAt == row.pin.updatedAt && d.status == snapshot.status
    && (snapshot.product != RawDocuments ==> ReviewCurrent(d, row.pin.review))
    && (snapshot.product == ApprovedSuggestions ==> ApprovalJoins(d, row.pin.approval, row.pin.review))
  }

  lemma ApprovalJoinsAgree(d: Document, clock: Time, id: ApprovalId, review: ReviewId)
    requires Valid(d, clock)
    ensures ApprovalJoins(d, id, review) <==> ApprovalCurrent(d, id, review)
  {
    if ApprovalJoins(d, id, review) {
      var i :| 0 <= i < |d.approvals| && d.approvals[i].id == id && !d.approvals[i].superseded && d.approvals[i].review == review;
      assert Approves(d.approvals[i], d.reviews);
      assert d.reviews[d.approvals[i].reviewRevision - 1].revision == d.approvals[i].reviewRevision;
      assert ApprovalAt(d, id, review, i);
    }
    if ApprovalCurrent(d, id, review) {
      var i :| 0 <= i < |d.approvals| && ApprovalAt(d, id, review, i);
    }
  }

  /** In reachable states the paging query finds exactly the rows that the validity check accepts. */
  lemma JoinsAgree(states: seq<State>, steps: seq<Step>, k: nat, snapshot: Snapshot, row: Row)
    requires Run(states, steps) && k < |states|
    ensures RowJoins(states[k].documents, snapshot, row) <==> RowValid(states[k].documents, snapshot, row)
  {
    if row.pin.document in states[k].documents {
      ReachableDocumentsAreValid(states, steps, k, row.pin.document);
      ApprovalJoinsAgree(states[k].documents[row.pin.document], states[k].clock, row.pin.approval, row.pin.review);
    }
  }

  /** Each page is read in some state of the run, no earlier than the queueing and no later than the completion. */
  ghost predicate ReadDuring(turns: Turns, snapshot: Snapshot, states: seq<State>, at: nat -> nat, q: nat, k: nat)
    requires k < |states|
  {
    forall n: nat :: q <= at(n) <= k &&
      forall i :: 1 <= i <= |snapshot.rows| ==> (turns(n).joins(i) <==> RowJoins(states[at(n)].documents, snapshot, snapshot.rows[i - 1]))
  }

  /** If the snapshot is still valid at completion, no page can have missed a row. */
  lemma ValidAtEndMeansNothingDropped(states: seq<State>, steps: seq<Step>, at: nat -> nat, q: nat, k: nat, snapshot: Snapshot, turns: Turns, n: nat, i: nat)
    requires Run(states, steps) && q <= k < |states| && ReadDuring(turns, snapshot, states, at, q, k)
    requires SnapshotValid(states[q].documents, snapshot) && SnapshotValid(states[k].documents, snapshot)
    requires 1 <= i <= |snapshot.rows|
    ensures turns(n).joins(i)
  {
    var row := snapshot.rows[i - 1];
    RowHeldBetween(states, steps, q, at(n), k, snapshot, row);
    JoinsAgree(states, steps, at(n), snapshot, row);
  }

  lemma CurrentIsExportable(d: Document, clock: Time, id: ReviewId)
    requires Valid(d, clock) && ReviewCurrent(d, id)
    ensures ExportableReview(d).Some? && ExportableReview(d).value.id == id
  {
    var i :| 0 <= i < |d.reviews| && ReviewAt(d, id, i);
    OpenReviewIsLast(d.reviews);
    var a :| 0 <= a < |d.runs| && d.runs[a].id == d.reviews[i].ocr && Open(d.runs[a]);
    OpenRunIs(d.runs, a);
  }

  /**
   What a published export shows. Every row of the snapshot was current at every
   moment from the queueing to the completion; for reviewed values this means
   that its review was the document's exportable review and held the values of
   the latest draft.
   */
  lemma PublishedRowsWereAlwaysCurrent(states: seq<State>, steps: seq<Step>, q: nat, j: nat, k: nat, snapshot: Snapshot, row: Row)
    requires Run(states, steps) && q <= j <= k < |states| && row in snapshot.rows
    requires SnapshotValid(states[q].documents, snapshot) && SnapshotValid(states[k].documents, snapshot)
    ensures RowValid(states[j].documents, snapshot, row)
    ensures snapshot.product != RawDocuments ==>
      var d := states[j].documents[row.pin.document];
      && d.draft.Some? && ExportableReview(d).Some? && ExportableReview(d).value.id == row.pin.review
      && ExportableReview(d).value.values == FieldValues(d.draft.value.values)
  {
    RowHeldBetween(states, steps, q, j, k, snapshot, row);
    if snapshot.product != RawDocuments {
      var id := row.pin.document;
      ReachableDocumentsAreValid(states, steps, j, id);
      CurrentIsExportable(states[j].documents[id], states[j].clock, row.pin.review);
      ReachableExportsAreCurrent(states, steps, j, id);
    }
  }

  /** No heartbeat and no read fails. */
  ghost predicate Served(turns: Turns) {
    forall n: nat :: turns(n).alive && turns(n).readable
  }

  lemma ValidAtEndIsUndisturbed(states: seq<State>, steps: seq<Step>, at: nat -> nat, q: nat, k: nat, snapshot: Snapshot, turns: Turns)
    requires Run(states, steps) && q <= k < |states| && ReadDuring(turns, snapshot, states, at, q, k) && Served(turns)
    requires SnapshotValid(states[q].documents, snapshot) && SnapshotValid(states[k].documents, snapshot)
    ensures Undisturbed(turns, |snapshot.rows|)
  {
    forall n: nat, i | 1 <= i <= |snapshot.rows|
      ensures turns(n).joins(i)
    {
      ValidAtEndMeansNothingDropped(states, steps, at, q, k, snapshot, turns, n, i);
    }
  }

  /**
   A whole export: queued in state q, read page by page while other requests run,
   completed in state k. What is published is the selection of state q, row for
   row, and it is valid in both states. When every request is served, it is
   published exactly if the snapshot is still valid at completion.
   */
  method ExportRun(states: seq<State>, steps: seq<Step>, at: nat -> nat, q: nat, k: nat,
                   order: seq<DocumentId>, product: Product, status: Status, limit: nat, turns: Snapshot -> Turns)
    returns (snapshot: Option<Snapshot>, published: Option<seq<Row>>)
    requires Run(states, steps) && q <= k < |states| && limit > 0
    requires forall id :: id in order ==> id in states[q].documents
    ensures published.Some? ==>
      && snapshot.Some? && published.value == RowsOf(Selected(states[q].documents, order, product, status))
      && published.value == snapshot.value.rows && SnapshotValid(states[q].documents, snapshot.value) && SnapshotValid(states[k].documents, snapshot.value)
    ensures snapshot.Some? && Served(turns(snapshot.value)) && ReadDuring(turns(snapshot.value), snapshot.value, states, at, q, k) ==>
      (published.Some? <==> SnapshotValid(states[k].documents, snapshot.value))
  {
    published := None;
    snapshot := QueueDocumentExport(states[q].documents, order, product, status);
    if snapshot.None? {
      return;
    }
    var s := snapshot.value;
    RunKeepsInvariant(states, steps, q);
    QueuedIsValid(states[q].documents, order, product, status, states[q].clock);
    var result, delivered := ProcessExport(s, product, s.rowCount, limit, turns(s));
    var valid := ValidDocumentExportSnapshot(states[k].documents, s);
    if valid && Served(turns(s)) && ReadDuring(turns(s), s, states, at, q, k) {
      ValidAtEndIsUndisturbed(states, steps, at, q, k, s, turns(s));
    }
    if result.Ok? && valid && |result.value| == s.rowCount {
      published := Some(result.value);
    }
  }
}
