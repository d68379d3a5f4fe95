/**
 The values of confirmed reviews. The confirm handler validates what it has read
 before it commits, for the document type that extraction finds in the run.
 */
module ConfirmedValues {
  import opened Common
  import opened Review
  import opened ReviewInvariants
  import opened ReviewRuns
  import Extraction
  import Fields
  import LengthLimits
  import Text
  import Validation

  // ----- Field names -----

  function NameOf(key: Fields.Key): string {
    match key
    case DocumentNumber => "document_number"
    case IssueDate => "issue_date"
    case SellerName => "seller_name"
    case SellerTaxId => "seller_tax_id"
    case SellerBranch => "seller_branch"
    case BuyerName => "buyer_name"
    case BuyerTaxId => "buyer_tax_id"
    case Currency => "currency"
    case Subtotal => "subtotal"
    case VatAmount => "vat_amount"
    case TotalAmount => "total_amount"
    case Other(name) => name
  }

  function KeyOf(field: string): (key: Fields.Key)
    ensures NameOf(key) == field
  {
    if field == "document_number" then Fields.DocumentNumber
    else if field == "issue_date" then Fields.IssueDate
    else if field == "seller_name" then Fields.SellerName
    else if field == "seller_tax_id" then Fields.SellerTaxId
    else if field == "seller_branch" then Fields.SellerBranch
    else if field == "buyer_name" then Fields.BuyerName
    else if field == "buyer_tax_id" then Fields.BuyerTaxId
    else if field == "currency" then Fields.Currency
    else if field == "subtotal" then Fields.Subtotal
    else if field == "vat_amount" then Fields.VatAmount
    else if field == "total_amount" then Fields.TotalAmount
    else Fields.Other(field)
  }

  lemma NamedKey(key: Fields.Key)
    requires key in Fields.KEYS
    ensures KeyOf(NameOf(key)) == key
  {
  }

  /** The review form has exactly the fields that the validator knows. */
  lemma FormFieldsAreKeys(field: string)
    ensures field in FIELDS <==> KeyOf(field) in Fields.KEYS
  {
    assert FIELDS[0] == "document_number" && FIELDS[1] == "issue_date" && FIELDS[2] == "seller_name" && FIELDS[3] == "seller_tax_id";
    assert FIELDS[4] == "seller_branch" && FIELDS[5] == "buyer_name" && FIELDS[6] == "buyer_tax_id" && FIELDS[7] == "currency";
    assert FIELDS[8] == "subtotal" && FIELDS[9] == "vat_amount" && FIELDS[10] == "total_amount";
  }

  /** The values as the validator sees them. */
  function Keyed(values: Values): map<Fields.Key, string> {
    map field | field in values :: KeyOf(field) := values[field]
  }

  lemma KeyedValue(values: Values, key: Fields.Key)
    requires key in Fields.KEYS
    ensures Validation.ValueOf(Keyed(values), key) == Lookup(values, NameOf(key))
  {
    NamedKey(key);
    if NameOf(key) in values {
      assert KeyOf(NameOf(key)) in Keyed(values);
    }
  }

  lemma SavedKeys(values: Values)
    ensures Keyed(FieldValues(values)).Keys == Fields.KEYS
  {
    forall key
      ensures key in Keyed(FieldValues(values)) <==> key in Fields.KEYS
    {
      if key in Fields.KEYS {
        NamedKey(key);
        FormFieldsAreKeys(NameOf(key));
        assert NameOf(key) in FieldValues(values);
      } else if key in Keyed(FieldValues(values)) {
        var field :| field in FieldValues(values) && KeyOf(field) == key;
        FormFieldsAreKeys(field);
      }
    }
  }

  /** A saved draft whose values are otherwise acceptable can be confirmed exactly when its free texts are short in bytes. */
  lemma SavedDraftIsAcceptableIff(t: Extraction.DocumentType, values: Values)
    ensures var keyed := Keyed(FieldValues(values));
      Validation.Acceptable(t, keyed) <==>
        && LengthLimits.AcceptableInFormat(t, keyed)
        && forall key :: key in Fields.KEYS && Fields.FreeText(key) ==> Text.Bytes(Lookup(FieldValues(values), NameOf(key))) <= Validation.MAX_BYTES
  {
    var keyed := Keyed(FieldValues(values));
    SavedKeys(values);
    LengthLimits.ConfirmableIffTextsAreShort(t, keyed);
    forall key | key in Fields.KEYS
      ensures keyed[key] == Lookup(FieldValues(values), NameOf(key))
    {
      KeyedValue(FieldValues(values), key);
    }
  }

  // ----- What holds of all reviews -----

  /** The document type that extraction finds in the result of a run. */
  type Types = RunId -> Extraction.DocumentType

  ghost predicate Acceptable(types: Types, ocr: RunId, values: Values) {
    Validation.Acceptable(types(ocr), Keyed(values))
  }

  /** What a validator says of the values of each run. */
  type Accepts = (RunId, Values) -> bool

  ghost predicate Validates(types: Types, accepts: Accepts) {
    forall ocr, values {:trigger Acceptable(types, ocr, values)} :: accepts(ocr, values) <==> Acceptable(types, ocr, values)
  }

  /** A property of a review's id, run and values. */
  type Judge = (ReviewId, RunId, Values) -> bool

  ghost predicate Judged(reviews: seq<Review>, judge: Judge) {
    forall i :: 0 <= i < |reviews| ==> judge(reviews[i].id, reviews[i].ocr, reviews[i].values)
  }

  ghost predicate AllJudged(documents: map<DocumentId, Document>, judge: Judge) {
    forall id :: id in documents ==> Judged(documents[id].reviews, judge)
  }

  lemma WeakerJudge(documents: map<DocumentId, Document>, strong: Judge, weak: Judge)
    requires AllJudged(documents, strong) && forall id, ocr, values :: strong(id, ocr, values) ==> weak(id, ocr, values)
    ensures AllJudged(documents, weak)
  {
    forall id | id in documents
      ensures Judged(documents[id].reviews, weak)
    {
      assert Judged(documents[id].reviews, strong);
    }
  }

  lemma OneMoreJudged(reviews: seq<Review>, review: Review, judge: Judge)
    requires Judged(reviews, judge) && judge(review.id, review.ocr, review.values)
    ensures Judged(NextReviews(reviews, review), judge)
  {
    var after := NextReviews(reviews, review);
    forall i | 0 <= i < |after|
      ensures judge(after[i].id, after[i].ocr, after[i].values)
    {
      if i < |reviews| {
        assert judge(reviews[i].id, reviews[i].ocr, reviews[i].values);
      }
    }
  }

  lemma ConfirmationJudged(d: Document, op: Operation, clock: Time, judge: Judge)
    requires Valid(d, clock) && op.SaveReview? && DoSaveReview(d, op).Some?
    requires Judged(d.reviews, judge) && judge(op.review, op.ocr, op.values)
    ensures Judged(DoSaveReview(d, op).value.reviews, judge)
  {
    SaveReviewFacts(d, op);
    OneMoreJudged(d.reviews, Review(op.review, op.ocr, |d.reviews| + 1, op.draftRevision, op.values, false), judge);
  }

  /** What the step would confirm. */
  ghost predicate Confirms(s: State, step: Step, judge: Judge) {
    step.Confirm? && step.request in s.requests && s.requests[step.request].DraftRead? ==>
      judge(step.review, s.requests[step.request].ocr, s.requests[step.request].values)
  }

  lemma OneDocumentJudged(documents: map<DocumentId, Document>, id: DocumentId, d: Document, judge: Judge)
    requires AllJudged(documents, judge) && Judged(d.reviews, judge)
    ensures AllJudged(documents[id := d], judge)
  {
  }

  lemma ConfirmStepJudged(s: State, step: Step, t: State, judge: Judge)
    requires Invariant(s) && Next(s, step, t) && step.Confirm? && AllJudged(s.documents, judge) && Confirms(s, step, judge)
    ensures AllJudged(t.documents, judge)
  {
    if t.documents != s.documents {
      var r := s.requests[step.request];
      var op := ConfirmOperation(r, step.review, step.expected);
      var d := s.documents[r.document];
      assert Judged(d.reviews, judge);
      ConfirmationJudged(d, op, s.clock, judge);
      OneDocumentJudged(s.documents, r.document, DoSaveReview(d, op).value, judge);
    }
  }

  /** What holds of all reviews goes on to hold when it holds of those that are confirmed. */
  lemma StepKeepsJudged(s: State, step: Step, t: State, judge: Judge)
    requires Invariant(s) && Next(s, step, t) && AllJudged(s.documents, judge) && Confirms(s, step, judge)
    ensures AllJudged(t.documents, judge)
  {
    if step.Confirm? {
      ConfirmStepJudged(s, step, t, judge);
    } else if t.documents != s.documents {
      if step.Operate? {
        OnlyConfirmationAddsReviews(s.documents[step.id], step.op, t.clock);
        assert Judged(s.documents[step.id].reviews, judge);
      }
      OneDocumentJudged(s.documents, step.id, t.documents[step.id], judge);
    }
  }

  lemma {:induction false} RunKeepsJudged(states: seq<State>, steps: seq<Step>, judge: Judge, k: nat)
    requires Run(states, steps) && k < |states|
    requires forall j :: 0 <= j < |steps| ==> Confirms(states[j], steps[j], judge)
    ensures AllJudged(states[k].documents, judge)
  {
    if k > 0 {
      RunKeepsJudged(states, steps, judge, k - 1);
      RunKeepsInvariant(states, steps, k - 1);
      StepKeepsJudged(states[k - 1], steps[k - 1], states[k], judge);
    }
  }

  // ----- Validated runs -----

  ghost function Accepting(types: Types): Judge {
    (id: ReviewId, ocr: RunId, values: Values) => Acceptable(types, ocr, values)
  }

  /** Confirm requests go on to their commit only with values that the validator accepts for the run they have read. */
  ghost predicate Validated(types: Types, states: seq<State>, steps: seq<Step>)
    requires |states| > |steps|
  {
    forall j :: 0 <= j < |steps| ==> Confirms(states[j], steps[j], Accepting(types))
  }

  /** In every reachable state every confirmed review holds acceptable values. */
  lemma ConfirmedReviewsAreAcceptable(types: Types, states: seq<State>, steps: seq<Step>, k: nat, id: DocumentId, i: nat)
    requires Run(states, steps) && Validated(types, states, steps)
    requires k < |states| && id in states[k].documents && i < |states[k].documents[id].reviews|
    ensures var r := states[k].documents[id].reviews[i]; Acceptable(types, r.ocr, r.values)
  {
    RunKeepsJudged(states, steps, Accepting(types), k);
    assert Judged(states[k].documents[id].reviews, Accepting(types));
  }

  lemma FieldIndex(key: Fields.Key) returns (f: nat)
    requires key in Fields.KEYS
    ensures f < |FIELDS| && FIELDS[f] == NameOf(key)
  {
    NamedKey(key);
    FormFieldsAreKeys(NameOf(key));
    f :| f < |FIELDS| && FIELDS[f] == NameOf(key);
  }

  lemma RequiredIsFilled(types: Types, ocr: RunId, values: Values, key: Fields.Key)
    requires Acceptable(types, ocr, values) && key in Extraction.Required(types(ocr))
    ensures key in Fields.KEYS && Lookup(values, NameOf(key)) != ""
  {
    KeyedValue(values, key);
  }

  lemma FilledIsKnown(fields: seq<string>, entry: Draft, f: nat)
    requires f < |fields| && AllDecided(fields, entry.decisions) && AllSensible(fields, entry.values, entry.decisions)
    requires Lookup(Restricted(fields, entry.values), fields[f]) != ""
    ensures Lookup(entry.decisions, fields[f]) in ["accepted", "corrected"]
  {
    RestrictedLookup(fields, entry.values, f);
    assert FieldDecided(entry.decisions, fields[f]);
    assert FieldSensible(Lookup(entry.values, fields[f]), Lookup(entry.decisions, fields[f]));
  }

  lemma RequiredIsKnown(types: Types, ocr: RunId, entry: Draft, key: Fields.Key)
    requires Acceptable(types, ocr, FieldValues(entry.values)) && key in Extraction.Required(types(ocr))
    requires Decided(entry.decisions) && Sensible(entry.values, entry.decisions)
    ensures Lookup(entry.decisions, NameOf(key)) in ["accepted", "corrected"]
  {
    RequiredIsFilled(types, ocr, FieldValues(entry.values), key);
    var f := FieldIndex(key);
    FilledIsKnown(FIELDS, entry, f);
  }

  lemma EntryIsSensible(documents: map<DocumentId, Document>, id: DocumentId, k: nat)
    requires AllSensibleHistories(documents) && id in documents && k < |documents[id].history|
    ensures Sensible(documents[id].history[k].values, documents[id].history[k].decisions)
  {
    assert HistorySensible(documents[id].history);
  }

  /** The history entry that a confirmed review names. */
  lemma ConfirmedEntry(states: seq<State>, steps: seq<Step>, k: nat, id: DocumentId, i: nat) returns (entry: Draft)
    requires Run(states, steps) && k < |states| && id in states[k].documents && i < |states[k].documents[id].reviews|
    ensures var d := states[k].documents[id]; var r := d.reviews[i];
      1 <= r.draftRevision <= |d.history| && entry == d.history[r.draftRevision - 1] && r.values == FieldValues(entry.values)
    ensures Decided(entry.decisions) && Sensible(entry.values, entry.decisions)
  {
    var documents := states[k].documents;
    ReviewsHoldSavedValues(states, steps, k, id, i);
    HistoriesAreSensible(states, steps, k);
    EntryIsSensible(documents, id, documents[id].reviews[i].draftRevision - 1);
    entry := documents[id].history[documents[id].reviews[i].draftRevision - 1];
  }

  /** The reviewer of a confirmed review has accepted or corrected every field that its document type requires. */
  lemma RequiredFieldsAreKnown(types: Types, states: seq<State>, steps: seq<Step>, k: nat, id: DocumentId, i: nat, key: Fields.Key)
    requires Run(states, steps) && Validated(types, states, steps)
    requires k < |states| && id in states[k].documents && i < |states[k].documents[id].reviews|
    requires key in Extraction.Required(types(states[k].documents[id].reviews[i].ocr))
    ensures var d := states[k].documents[id]; var r := d.reviews[i];
      && 1 <= r.draftRevision <= |d.history|
      && Lookup(d.history[r.draftRevision - 1].decisions, NameOf(key)) in ["accepted", "corrected"]
  {
    ConfirmedReviewsAreAcceptable(types, states, steps, k, id, i);
    var entry := ConfirmedEntry(states, steps, k, id, i);
    RequiredIsKnown(types, states[k].documents[id].reviews[i].ocr, entry, key);
  }
}
