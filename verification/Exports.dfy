/**
 Document exports: the frozen snapshot of an export, when it is still valid, the
 pages a worker reads from it, and the table that it builds.

 File formats, the cells of a row, and the byte limits of an artifact are not
 modelled: a row of the table is a row of the snapshot.
 */
module Exports {
  import opened Common
  import opened Review
  import opened ReviewInvariants
  import opened ReviewRuns

  type Documents = map<DocumentId, Document>

  datatype Product = RawDocuments | ConfirmedValues | ApprovedSuggestions

  /** What one row of a snapshot is about, as it was when the export was queued. */
  datatype Pin = Pin(document: DocumentId, updatedAt: Time, review: ReviewId, approval: ApprovalId)

  datatype Row = Row(ordinal: nat, pin: Pin)

  datatype Snapshot = Snapshot(product: Product, status: Status, rowCount: nat, rows: seq<Row>)

  const MAX_ORDINAL := 20000
  const BATCH := 500

  function Cap(product: Product): nat {
    if product == RawDocuments then 20000 else 5000
  }

  // ----- When a row is current -----

  predicate RunOpen(runs: seq<OcrRun>, id: RunId) {
    exists i :: 0 <= i < |runs| && runs[i].id == id && Open(runs[i])
  }

  /** The review with this id, not superseded, of the open run, and no later draft. */
  predicate ReviewAt(d: Document, id: ReviewId, i: nat) {
    && i < |d.reviews| && d.reviews[i].id == id && !d.reviews[i].superseded
    && DraftRevision(d) <= d.reviews[i].draftRevision && RunOpen(d.runs, d.reviews[i].ocr)
  }

  predicate ReviewCurrent(d: Document, id: ReviewId) {
    exists i :: 0 <= i < |d.reviews| && ReviewAt(d, id, i)
  }

  /** The approval with this id, of this review at its revision, not superseded. */
  predicate ApprovalAt(d: Document, id: ApprovalId, review: ReviewId, i: nat) {
    && i < |d.approvals| && d.approvals[i].id == id && !d.approvals[i].superseded && d.approvals[i].review == review
    && exists k :: 0 <= k < |d.reviews| && d.reviews[k].id == review && d.reviews[k].revision == d.approvals[i].reviewRevision
  }

  predicate ApprovalCurrent(d: Document, id: ApprovalId, review: ReviewId) {
    exists i :: 0 <= i < |d.approvals| && ApprovalAt(d, id, review, i)
  }

  /** The joins of the document, the review and the approval, for one document. */
  predicate PinHolds(d: Document, product: Product, status: Status, pin: Pin) {
    && d.updatedAt == pin.updatedAt && d.status == status
    && (product != RawDocuments ==> ReviewCurrent(d, pin.review))
    && (product == ApprovedSuggestions ==> ApprovalCurrent(d, pin.approval, pin.review))
  }

  predicate RowValid(documents: Documents, snapshot: Snapshot, row: Row) {
    row.pin.document in documents && PinHolds(documents[row.pin.document], snapshot.product, snapshot.status, row.pin)
  }

  /** Rows are numbered from one without gaps. */
  ghost predicate Numbered(snapshot: Snapshot) {
    forall i :: 0 <= i < |snapshot.rows| ==> snapshot.rows[i].ordinal == i + 1
  }

  ghost predicate SnapshotValid(documents: Documents, snapshot: Snapshot) {
    snapshot.rowCount == |snapshot.rows| && forall row :: row in snapshot.rows ==> RowValid(documents, snapshot, row)
  }

  /** `validDocumentExportSnapshot`: the counts of rows expected, found and valid agree. */
  method ValidDocumentExportSnapshot(documents: Documents, snapshot: Snapshot) returns (valid: bool)
    ensures valid <==> SnapshotValid(documents, snapshot)
  {
    var found, good := 0, 0;
    for i := 0 to |snapshot.rows|
      invariant found == i && good <= i
      invariant good == i <==> forall k :: 0 <= k < i ==> RowValid(documents, snapshot, snapshot.rows[k])
    {
      found := found + 1;
      if RowValid(documents, snapshot, snapshot.rows[i]) {
        good := good + 1;
      }
    }
    valid := snapshot.rowCount == found && found == good;
  }

  // ----- Queueing -----

  /** The row that the export's query yields for a document, if it yields one. */
  function PinOf(id: DocumentId, d: Document, product: Product, status: Status): Option<Pin> {
    var review, approval := ExportableReview(d), OpenApproval(d.approvals);
    if d.status != status then None
    else if product == RawDocuments then Some(Pin(id, d.updatedAt, 0, 0))
    else if review.None? then None
    else if product == ConfirmedValues then Some(Pin(id, d.updatedAt, review.value.id, 0))
    else if approval.None? || approval.value.review != review.value.id then None
    else Some(Pin(id, d.updatedAt, review.value.id, approval.value.id))
  }

  /** The rows of the documents, in the order in which the query returns them. */
  function Selected(documents: Documents, order: seq<DocumentId>, product: Product, status: Status): seq<Pin>
    requires forall id :: id in order ==> id in documents
  {
    if order == [] then []
    else
      var rest := Selected(documents, order[..|order| - 1], product, status);
      var last := PinOf(order[|order| - 1], documents[order[|order| - 1]], product, status);
      if last.Some? then rest + [last.value] else rest
  }

  lemma {:induction false} SelectedGrows(documents: Documents, order: seq<DocumentId>, product: Product, status: Status, n: nat)
    requires (forall id :: id in order ==> id in documents) && n <= |order|
    ensures |Selected(documents, order[..n], product, status)| <= |Selected(documents, order, product, status)|
    decreases |order|
  {
    if n < |order| {
      var front := order[..|order| - 1];
      assert front[..n] == order[..n];
      SelectedGrows(documents, front, product, status, n);
    } else {
      assert order[..n] == order;
    }
  }

  function RowsOf(pins: seq<Pin>): (rows: seq<Row>)
    ensures |rows| == |pins| && forall i :: 0 <= i < |rows| ==> rows[i] == Row(i + 1, pins[i])
  {
    seq(|pins|, i requires 0 <= i < |pins| => Row(i + 1, pins[i]))
  }

  predicate Exportable(product: Product, status: Status) {
    status == Trash ==> product == RawDocuments
  }

  /** The rows of the query, read up to one more than the cap. */
  method SelectRows(documents: Documents, order: seq<DocumentId>, product: Product, status: Status, cap: nat) returns (items: seq<Pin>)
    requires forall id :: id in order ==> id in documents
    ensures var all := Selected(documents, order, product, status);
      if |all| <= cap then items == all else |items| > cap
  {
    items := [];
    var i := 0;
    while i < |order| && |items| <= cap
      invariant i <= |order| && items == Selected(documents, order[..i], product, status)
    {
      assert order[..i + 1][..i] == order[..i];
      var pin := PinOf(order[i], documents[order[i]], product, status);
      if pin.Some? {
        items := items + [pin.value];
      }
      i := i + 1;
    }
    SelectedGrows(documents, order, product, status, i);
    assert order[..|order|] == order;
  }

  /** The numbered rows, written in batches. */
  method InsertRows(items: seq<Pin>) returns (rows: seq<Row>)
    ensures rows == RowsOf(items)
  {
    rows := [];
    var start := 0;
    while start < |items|
      invariant 0 <= start <= |items| && rows == RowsOf(items)[..start]
    {
      var end := start + BATCH;
      if end > |items| {
        end := |items|;
      }
      for i := start to end
        invariant rows == RowsOf(items)[..i]
      {
        rows := rows + [Row(i + 1, items[i])];
      }
      start := end;
    }
    assert RowsOf(items)[..|items|] == RowsOf(items);
  }

  /** `QueueDocumentExport`: none if the request or the number of rows is refused. */
  method QueueDocumentExport(documents: Documents, order: seq<DocumentId>, product: Product, status: Status) returns (snapshot: Option<Snapshot>)
    requires forall id :: id in order ==> id in documents
    ensures var all := Selected(documents, order, product, status);
      snapshot == if Exportable(product, status) && |all| <= Cap(product) then Some(Snapshot(product, status, |all|, RowsOf(all))) else None
  {
    if status == Trash && product != RawDocuments {
      return None;
    }
    var items := SelectRows(documents, order, product, status, Cap(product));
    if |items| > Cap(product) {
      return None;
    }
    var rows := InsertRows(items);
    snapshot := Some(Snapshot(product, status, |items|, rows));
  }

  /** The query's row for a document is current. */
  lemma PinOfHolds(id: DocumentId, d: Document, product: Product, status: Status, clock: Time)
    requires Valid(d, clock) && PinOf(id, d, product, status).Some?
    ensures PinOf(id, d, product, status).value.document == id && PinHolds(d, product, status, PinOf(id, d, product, status).value)
  {
    var pin := PinOf(id, d, product, status).value;
    if product != RawDocuments {
      ExportableIsCurrent(d, clock);
      var run := OpenRunExists(d.runs);
      assert ReviewAt(d, pin.review, |d.reviews| - 1);
    }
    if product == ApprovedSuggestions {
      OpenApprovalIsLast(d.approvals);
      var i := |d.approvals| - 1;
      assert Approves(d.approvals[i], d.reviews);
      assert ApprovalAt(d, pin.approval, pin.review, i);
    }
  }

  lemma {:induction false} SelectedHold(documents: Documents, order: seq<DocumentId>, product: Product, status: Status, clock: Time)
    requires AllValid(documents, clock) && forall id :: id in order ==> id in documents
    ensures forall pin :: pin in Selected(documents, order, product, status) ==>
      pin.document in documents && PinHolds(documents[pin.document], product, status, pin)
  {
    if order != [] {
      var id := order[|order| - 1];
      SelectedHold(documents, order[..|order| - 1], product, status, clock);
      if PinOf(id, documents[id], product, status).Some? {
        PinOfHolds(id, documents[id], product, status, clock);
      }
    }
  }

  /** A freshly queued snapshot is valid and numbered. */
  lemma QueuedIsValid(documents: Documents, order: seq<DocumentId>, product: Product, status: Status, clock: Time)
    requires AllValid(documents, clock) && forall id :: id in order ==> id in documents
    ensures var all := Selected(documents, order, product, status);
      var snapshot := Snapshot(product, status, |all|, RowsOf(all));
      SnapshotValid(documents, snapshot) && Numbered(snapshot)
  {
    var all := Selected(documents, order, product, status);
    var snapshot := Snapshot(product, status, |all|, RowsOf(all));
    SelectedHold(documents, order, product, status, clock);
    forall row | row in snapshot.rows
      ensures RowValid(documents, snapshot, row)
    {
      var i :| 0 <= i < |all| && snapshot.rows[i] == row;
      assert row.pin == all[i] && all[i] in all;
    }
  }

  // ----- Staleness is for good -----

  lemma SameReviewBefore(before: Document, after: Document, clock: Time, id: ReviewId)
    requires Valid(before, clock) && Grows(before, after) && ReviewsOk(after.reviews) && RunsOk(after.runs) && HistoryOk(after.draft, after.history)
    requires HasReview(before.reviews, id) && ReviewCurrent(after, id)
    ensures ReviewCurrent(before, id)
  {
    var i :| 0 <= i < |before.reviews| && before.reviews[i].id == id;
    var k :| 0 <= k < |after.reviews| && ReviewAt(after, id, k);
    assert after.reviews[i].id == id;
    assert !(i < k) && !(k < i);
    DraftIsLast(before);
    DraftIsLast(after);
    SameRunBefore(before, after, i);
    assert ReviewAt(before, id, i);
  }

  lemma SameRunBefore(before: Document, after: Document, i: nat)
    requires i < |before.reviews| && ReviewsBacked(before) && RunsGrow(before.runs, after.runs) && RunsOk(after.runs)
    requires RunOpen(after.runs, before.reviews[i].ocr)
    ensures RunOpen(before.runs, before.reviews[i].ocr)
  {
    var ocr := before.reviews[i].ocr;
    assert WasPublished(before.runs, ocr);
    var a :| 0 <= a < |before.runs| && before.runs[a].id == ocr && before.runs[a].published;
    var b :| 0 <= b < |after.runs| && after.runs[b].id == ocr && Open(after.runs[b]);
    assert after.runs[a].id == ocr;
    assert !(a < b) && !(b < a);
    assert Open(before.runs[a]);
  }

  lemma SameApprovalBefore(before: Document, after: Document, id: ApprovalId, review: ReviewId)
    requires ApprovalsGrow(before.approvals, after.approvals) && ApprovalsOk(after.approvals)
    requires HasApproval(before.approvals, id) && ApprovalsBacked(before) && ReviewsOk(before.reviews) && ApprovalCurrent(after, id, review)
    ensures ApprovalCurrent(before, id, review)
  {
    var i :| 0 <= i < |before.approvals| && before.approvals[i].id == id;
    var k :| 0 <= k < |after.approvals| && ApprovalAt(after, id, review, k);
    assert after.approvals[i].id == id;
    assert !(i < k) && !(k < i);
    assert Approves(before.approvals[i], before.reviews);
    assert ApprovalAt(before, id, review, i);
  }

  /** The document has been as the pin says, or has moved on since. */
  ghost predicate Seen(d: Document, product: Product, status: Status, pin: Pin) {
    && pin.updatedAt <= d.updatedAt && (pin.updatedAt == d.updatedAt ==> d.status == status)
    && (product != RawDocuments ==> HasReview(d.reviews, pin.review))
    && (product == ApprovedSuggestions ==> HasApproval(d.approvals, pin.approval))
  }

  lemma HoldingIsSeen(d: Document, product: Product, status: Status, pin: Pin)
    requires PinHolds(d, product, status, pin)
    ensures Seen(d, product, status, pin)
  {
  }

  lemma SeenStays(before: Document, after: Document, product: Product, status: Status, pin: Pin)
    requires Seen(before, product, status, pin) && Grows(before, after)
    ensures Seen(after, product, status, pin)
  {
    if product != RawDocuments {
      var i :| 0 <= i < |before.reviews| && before.reviews[i].id == pin.review;
      assert after.reviews[i].id == pin.review;
    }
    if product == ApprovedSuggestions {
      var i :| 0 <= i < |before.approvals| && before.approvals[i].id == pin.approval;
      assert after.approvals[i].id == pin.approval;
    }
  }

  /** What holds later held before: once a pinned row is stale it stays stale. */
  lemma HeldBefore(before: Document, after: Document, clock: Time, now: Time, product: Product, status: Status, pin: Pin)
    requires Valid(before, clock) && Valid(after, now) && Grows(before, after)
    requires Seen(before, product, status, pin) && PinHolds(after, product, status, pin)
    ensures PinHolds(before, product, status, pin)
  {
    if product != RawDocuments {
      SameReviewBefore(before, after, clock, pin.review);
    }
    if product == ApprovedSuggestions {
      SameApprovalBefore(before, after, pin.approval, pin.review);
    }
  }

  lemma RowHeldBetween(states: seq<State>, steps: seq<Step>, q: nat, j: nat, k: nat, snapshot: Snapshot, row: Row)
    requires Run(states, steps) && q <= j <= k < |states|
    requires RowValid(states[q].documents, snapshot, row) && RowValid(states[k].documents, snapshot, row)
    ensures RowValid(states[j].documents, snapshot, row)
  {
    var id := row.pin.document;
    RunGrows(states, steps, q, j, id);
    RunGrows(states, steps, j, k, id);
    ReachableDocumentsAreValid(states, steps, j, id);
    ReachableDocumentsAreValid(states, steps, k, id);
    var queued, middle, last := states[q].documents[id], states[j].documents[id], states[k].documents[id];
    HoldingIsSeen(queued, snapshot.product, snapshot.status, row.pin);
    SeenStays(queued, middle, snapshot.product, snapshot.status, row.pin);
    HeldBefore(middle, last, states[j].clock, states[k].clock, snapshot.product, snapshot.status, row.pin);
  }

  /**
   A snapshot that is valid when its export completes was valid at every moment
   since it was queued; so once it is invalid it never becomes valid again.
   */
  lemma ValidityIsContinuous(states: seq<State>, steps: seq<Step>, q: nat, j: nat, k: nat, snapshot: Snapshot)
    requires Run(states, steps) && q <= j <= k < |states|
    requires SnapshotValid(states[q].documents, snapshot) && SnapshotValid(states[k].documents, snapshot)
    ensures SnapshotValid(states[j].documents, snapshot)
  {
    forall row | row in snapshot.rows
      ensures RowValid(states[j].documents, snapshot, row)
    {
      RowHeldBetween(states, steps, q, j, k, snapshot, row);
    }
  }
}
