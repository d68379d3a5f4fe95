/** Validation of the values a reviewer submits, and why the system's own drafts always pass it. */
module Validation {
  import opened Common
  import opened Extraction
  import opened Fields
  import opened Text
  import Dates
  import Money

  datatype Refusal =
    | UnsupportedType | InvalidField | UnsupportedCurrency | InvalidDate | InvalidAmount
    | InvalidBranch | InvalidTaxId | FieldMissing | AmountsConflict

  const MAX_BYTES := 240

  predicate AboutOneValue(r: Refusal) {
    !r.UnsupportedType? && !r.FieldMissing? && !r.AmountsConflict?
  }

  /** What is wrong with one submitted value, if anything. */
  function Fault(key: Key, value: string): (fault: Option<Refusal>)
    ensures fault.Some? ==> AboutOneValue(fault.value)
  {
    if key !in KEYS || Bytes(value) > MAX_BYTES then Some(InvalidField) else FormatFault(key, value)
  }

  /** What is wrong with it apart from its name and its length. */
  function FormatFault(key: Key, value: string): (fault: Option<Refusal>)
    ensures fault.Some? ==> AboutOneValue(fault.value)
  {
    if value == "" then None
    else if key == Currency then (if value == "THB" then None else Some(UnsupportedCurrency))
    else if key == IssueDate then (if ValidDate(value) then None else Some(InvalidDate))
    else if Amount(key) then (if Money.Cents(value).Some? && '.' in value then None else Some(InvalidAmount))
    else if key == SellerBranch then (if Bytes(value) == 5 && AllDigits(value) then None else Some(InvalidBranch))
    else if TaxId(key) then (if Bytes(value) == 13 && AllDigits(value) then None else Some(InvalidTaxId))
    else None
  }

  /** A date that is written exactly as its canonical form. */
  predicate ValidDate(value: string) {
    var date := Dates.Parse(value);
    date.Some? && Dates.Format(date.value) == value
  }

  function ValueOf(values: map<Key, string>, key: Key): string {
    if key in values then values[key] else ""
  }

  /** Everything that a confirmed review promises about its values. */
  ghost predicate Acceptable(t: DocumentType, values: map<Key, string>) {
    && t != Unknown
    && (forall key :: key in values ==> Fault(key, values[key]).None?)
    && (forall key :: key in Required(t) ==> !Blank(ValueOf(values, key)))
    && !AmountsDisagree(ValueOf(values, Subtotal), ValueOf(values, VatAmount), ValueOf(values, TotalAmount))
  }

  /** Each refusal names a real defect. */
  ghost predicate Justified(refusal: Refusal, t: DocumentType, values: map<Key, string>) {
    match refusal
    case UnsupportedType => t == Unknown
    case FieldMissing => exists key :: key in Required(t) && Blank(ValueOf(values, key))
    case AmountsConflict => AmountsDisagree(ValueOf(values, Subtotal), ValueOf(values, VatAmount), ValueOf(values, TotalAmount))
    case _ => exists key :: key in values && Fault(key, values[key]) == Some(refusal)
  }

  /** The first fault met, in Go's random map order. */
  method CheckValues(values: map<Key, string>) returns (refused: Option<Refusal>)
    ensures refused.None? <==> forall key :: key in values ==> Fault(key, values[key]).None?
    ensures refused.Some? ==> AboutOneValue(refused.value) && exists key :: key in values && Fault(key, values[key]) == refused
  {
    refused := None;
    var todo := values.Keys;
    while todo != {}
      invariant todo <= values.Keys
      invariant forall key :: key in values && key !in todo ==> Fault(key, values[key]).None?
    {
      var key :| key in todo;
      refused := Fault(key, values[key]);
      if refused.Some? {
        return;
      }
      todo := todo - {key};
    }
    refused := None;
  }

  method CheckRequired(required: set<Key>, values: map<Key, string>) returns (complete: bool)
    ensures complete <==> forall key :: key in required ==> !Blank(ValueOf(values, key))
  {
    var todo := required;
    while todo != {}
      invariant todo <= required
      invariant forall key :: key in required && key !in todo ==> !Blank(ValueOf(values, key))
    {
      var key :| key in todo;
      TrimsToNothing(ValueOf(values, key));
      if TrimSpace(ValueOf(values, key)) == "" {
        return false;
      }
      todo := todo - {key};
    }
    complete := true;
  }

  /** Accepts exactly the acceptable values, in whatever order the submitted map is visited. */
  method ValidateReview(t: DocumentType, values: map<Key, string>) returns (refused: Option<Refusal>)
    ensures refused.None? <==> Acceptable(t, values)
    ensures refused.Some? ==> Justified(refused.value, t, values)
  {
    if t == Unknown {
      return Some(UnsupportedType);
    }
    refused := CheckValues(values);
    if refused.Some? {
      return;
    }
    var complete := CheckRequired(Required(t), values);
    if !complete {
      return Some(FieldMissing);
    }
    refused := if AmountsDisagree(ValueOf(values, Subtotal), ValueOf(values, VatAmount), ValueOf(values, TotalAmount))
      then Some(AmountsConflict) else None;
  }

  // ----- Normal forms are valid -----

  /** A value that is submittable: no fault but its length can be found in it, and it is not blank. */
  ghost predicate Proper(key: Key, value: string) {
    value != "" && !Blank(value) && (Bytes(value) <= MAX_BYTES ==> Fault(key, value).None?)
  }

  lemma ProperDate(text: string)
    requires NormalizeDate(text).Some?
    ensures Proper(IssueDate, NormalizeDate(text).value)
  {
    var parts := DateParts(text, "");
    var date := Dates.Date(CommonEra(ParseInt(parts[0 + 2]).value), ParseInt(parts[1]).value, ParseInt(parts[0]).value);
    Dates.ParseInvertsFormat(date);
    assert Digit(Dates.Format(date)[0]);
  }

  lemma AmountHasNoFault(key: Key, value: string)
    requires Amount(key) && value != "" && Digit(value[0]) && Money.Cents(value).Some? && '.' in value
    ensures Proper(key, value)
  {
    assert !Space(value[0]);
  }

  lemma ProperAmount(key: Key, text: string)
    requires Amount(key) && Money.Normalize(text).Some?
    ensures Proper(key, Money.Normalize(text).value)
  {
    var whole, fraction := Money.NormalizedAmount(text);
    var value := Money.Normalize(text).value;
    assert value[0] == whole[0] && value[|whole|] == '.';
    AmountHasNoFault(key, value);
  }

  lemma ProperDigits(key: Key, value: string)
    requires AllDigits(value)
    requires (key == SellerBranch && Bytes(value) == 5) || (TaxId(key) && Bytes(value) == 13)
    ensures Proper(key, value)
  {
    assert Digit(value[0]);
  }

  lemma ProperTaxId(key: Key, raw: string)
    requires TaxId(key) && Normalize(key, raw).Some?
    requires TaxIdText(raw)
    ensures Proper(key, Normalize(key, raw).value)
  {
    var text := ToAscii(raw);
    var value := Without(text, {' ', '-'});
    forall i | 0 <= i < |value|
      ensures Digit(value[i])
    {
      var j :| 0 <= j < |text| && text[j] == value[i];
      assert text[j] == Ascii(raw[j]);
    }
    ProperDigits(key, value);
  }

  lemma ProperBranch(raw: string)
    requires Normalize(SellerBranch, raw).Some?
    ensures Proper(SellerBranch, Normalize(SellerBranch, raw).value)
  {
    ProperDigits(SellerBranch, ToAscii(raw));
  }

  lemma ProperText(key: Key, raw: string)
    requires FreeText(key) && Trimmed(raw) && raw != ""
    ensures Proper(key, raw)
  {
  }

  lemma ProperDateField(raw: string)
    requires Normalize(IssueDate, raw).Some?
    ensures Proper(IssueDate, Normalize(IssueDate, raw).value)
  {
    ProperDate(ToAscii(raw));
  }

  lemma ProperAmountField(key: Key, raw: string)
    requires Amount(key) && Normalize(key, raw).Some?
    ensures Proper(key, Normalize(key, raw).value)
  {
    ProperAmount(key, ToAscii(raw));
  }

  lemma ProperTextField(key: Key, raw: string)
    requires FreeText(key) && Trimmed(raw) && Normalize(key, raw).Some?
    ensures Proper(key, Normalize(key, raw).value)
  {
    ProperText(key, raw);
  }

  /** Whatever a pattern captured, its normal form is a proper value of the field. */
  lemma NormalFormIsProper(key: Key, raw: string)
    requires key in PATTERNS && InLanguage(key, raw) && Normalize(key, raw).Some?
    ensures Proper(key, Normalize(key, raw).value)
  {
    if key == IssueDate {
      ProperDateField(raw);
    } else if Amount(key) {
      ProperAmountField(key, raw);
    } else if key == SellerBranch {
      ProperBranch(raw);
    } else if TaxId(key) {
      ProperTaxId(key, raw);
    } else {
      ProperTextField(key, raw);
    }
  }

  // ----- Drafts without blockers are accepted -----

  ghost predicate CapturesInLanguage(lines: seq<Line>) {
    forall i, key :: 0 <= i < |lines| && key in lines[i].captures ==> InLanguage(key, lines[i].captures[key])
  }

  /** All normal forms of one field's captures are good. */
  ghost predicate CapturesAreGood(norm: Normalizer, lines: seq<Line>, key: Key, good: string -> bool) {
    forall i :: 0 <= i < |lines| && CandidateOf(norm, lines[i], key).Some? ==> good(CandidateOf(norm, lines[i], key).value.normalized)
  }

  lemma {:induction false} CandidatesAreGood(norm: Normalizer, lines: seq<Line>, key: Key, good: string -> bool)
    requires CapturesAreGood(norm, lines, key, good)
    ensures forall c :: c in Candidates(norm, lines, key) ==> good(c.normalized)
  {
    if lines != [] {
      var init, line := lines[..|lines| - 1], lines[|lines| - 1];
      CandidatesAreGood(norm, init, key, good);
      CandidatesOfNextLine(norm, init, line, key);
      assert init + [line] == lines;
    }
  }

  lemma CandidateIsProper(line: Line, key: Key)
    requires key in PATTERNS && key in line.captures && InLanguage(key, line.captures[key]) && CandidateOf(Normalize, line, key).Some?
    ensures Proper(key, CandidateOf(Normalize, line, key).value.normalized)
  {
    NormalFormIsProper(key, line.captures[key]);
  }

  lemma CandidatesAreProper(lines: seq<Line>, key: Key, good: string -> bool)
    requires key in PATTERNS && CapturesInLanguage(lines)
    requires forall value :: Proper(key, value) ==> good(value)
    ensures forall c :: c in Candidates(Normalize, lines, key) ==> good(c.normalized)
  {
    var norm: Normalizer := Normalize;
    forall i | 0 <= i < |lines| && CandidateOf(norm, lines[i], key).Some?
      ensures good(CandidateOf(norm, lines[i], key).value.normalized)
    {
      CandidateIsProper(lines[i], key);
    }
    CandidatesAreGood(norm, lines, key, good);
  }

  function Submitted(draft: Draft): map<Key, string>
    requires draft.fields.Keys == KEYS
  {
    map key | key in KEYS :: draft.fields[key].normalized
  }

  ghost predicate Unblocked(draft: Draft) {
    forall w :: w in draft.warnings ==> !w.blocker
  }

  lemma FoundFieldIsGood(field: Field, cs: seq<Candidate>, good: string -> bool)
    requires Summarizes(field, cs) && forall c :: c in cs ==> good(c.normalized)
    ensures if field.presence == Found then good(field.normalized) else field.normalized == ""
  {
    if field.presence == Found {
      assert cs[0] in cs;
    }
  }

  /** A found field holds a proper value; any other is empty. */
  lemma DraftValueIsProper(draft: Draft, lines: seq<Line>, key: Key)
    requires IsDraftOf(Normalize, draft, lines) && CapturesInLanguage(lines) && key in PATTERNS
    ensures if draft.fields[key].presence == Found then Proper(key, draft.fields[key].normalized) else draft.fields[key].normalized == ""
  {
    var norm: Normalizer := Normalize;
    var cs, good := Candidates(norm, lines, key), (value: string) => Proper(key, value);
    CandidatesAreProper(lines, key, good);
    FoundFieldIsGood(draft.fields[key], cs, good);
  }

  lemma RequiredIsFound(draft: Draft, lines: seq<Line>, key: Key)
    requires IsDraftOf(Normalize, draft, lines) && Unblocked(draft) && key in Required(draft.documentType)
    ensures draft.fields[key].presence == Found
  {
    var missing := Warning(RequiredMissing, key, true);
    assert missing in draft.warnings <==> Raised(Normalize, missing, draft, lines);
  }

  lemma AmountsAgree(draft: Draft, lines: seq<Line>)
    requires IsDraftOf(Normalize, draft, lines) && Unblocked(draft)
    ensures !DraftAmountsDisagree(draft.fields)
  {
    var mismatch := Warning(AmountMismatch, TotalAmount, true);
    assert mismatch in draft.warnings <==> Raised(Normalize, mismatch, draft, lines);
  }

  lemma CurrencyHasNoFault(field: Field, lines: seq<Line>)
    requires CurrencySummarizes(field, lines)
    ensures Fault(Currency, field.normalized).None?
  {
    assert field.normalized == "" || field.normalized == "THB";
    assert Bytes("THB") <= MAX_BYTES;
  }

  lemma DraftValueHasNoFault(draft: Draft, lines: seq<Line>, key: Key)
    requires IsDraftOf(Normalize, draft, lines) && CapturesInLanguage(lines) && key in KEYS
    requires Bytes(draft.fields[key].normalized) <= MAX_BYTES
    ensures Fault(key, draft.fields[key].normalized).None?
  {
    if key == Currency {
      CurrencyHasNoFault(draft.fields[Currency], lines);
    } else {
      DraftValueIsProper(draft, lines, key);
    }
  }

  lemma RequiredValueIsThere(draft: Draft, lines: seq<Line>, key: Key)
    requires IsDraftOf(Normalize, draft, lines) && CapturesInLanguage(lines) && Unblocked(draft) && key in Required(draft.documentType)
    ensures !Blank(ValueOf(Submitted(draft), key))
  {
    RequiredIsFound(draft, lines, key);
    DraftValueIsProper(draft, lines, key);
  }

  ghost predicate AllShort(draft: Draft)
    requires draft.fields.Keys == KEYS
  {
    forall key :: key in KEYS ==> Bytes(draft.fields[key].normalized) <= MAX_BYTES
  }

  lemma ShortDraftIsAccepted(draft: Draft, lines: seq<Line>)
    requires IsDraftOf(Normalize, draft, lines) && CapturesInLanguage(lines)
    requires draft.documentType != Unknown && Unblocked(draft) && AllShort(draft)
    ensures Acceptable(draft.documentType, Submitted(draft))
  {
    var values := Submitted(draft);
    forall key | key in values
      ensures Fault(key, values[key]).None?
    {
      DraftValueHasNoFault(draft, lines, key);
    }
    forall key | key in Required(draft.documentType)
      ensures !Blank(ValueOf(values, key))
    {
      RequiredValueIsThere(draft, lines, key);
    }
    AmountsAgree(draft, lines);
  }

  lemma LongDraftIsRefused(draft: Draft)
    requires draft.fields.Keys == KEYS && !AllShort(draft)
    ensures !Acceptable(draft.documentType, Submitted(draft))
  {
    var values := Submitted(draft);
    var key :| key in KEYS && Bytes(draft.fields[key].normalized) > MAX_BYTES;
    assert Fault(key, values[key]) == Some(InvalidField);
  }

  /**
   A draft of a supported type with no blocker, submitted unchanged, is accepted
   exactly when no value is too long: the length limit is the only rule of the
   validator that extraction does not already keep.
   */
  lemma UnblockedDraftsAreAccepted(draft: Draft, lines: seq<Line>)
    requires IsDraftOf(Normalize, draft, lines) && CapturesInLanguage(lines)
    requires draft.documentType != Unknown && Unblocked(draft)
    ensures Acceptable(draft.documentType, Submitted(draft)) <==> AllShort(draft)
  {
    if AllShort(draft) {
      ShortDraftIsAccepted(draft, lines);
    } else {
      LongDraftIsRefused(draft);
    }
  }

  // ----- Independence of the visiting order -----

  lemma SameSummary(a: Field, b: Field, cs: seq<Candidate>)
    requires Summarizes(a, cs) && Summarizes(b, cs)
    ensures a == b
  {
    assert a.evidence == b.evidence;
  }

  lemma SameCurrency(a: Field, b: Field, lines: seq<Line>)
    requires CurrencySummarizes(a, lines) && CurrencySummarizes(b, lines)
    ensures a == b
  {
  }

  lemma SameMap(a: map<Key, Field>, b: map<Key, Field>)
    requires a.Keys == b.Keys && forall key :: key in a ==> a[key] == b[key]
    ensures a == b
  {
  }

  lemma SameFields(norm: Normalizer, a: map<Key, Field>, b: map<Key, Field>, lines: seq<Line>)
    requires a.Keys == KEYS && b.Keys == KEYS
    requires FieldsSummarize(norm, a, lines) && FieldsSummarize(norm, b, lines)
    requires CurrencySummarizes(a[Currency], lines) && CurrencySummarizes(b[Currency], lines)
    ensures a == b
  {
    SameCurrency(a[Currency], b[Currency], lines);
    forall key | key in PATTERNS
      ensures a[key] == b[key]
    {
      SameSummary(a[key], b[key], Candidates(norm, lines, key));
    }
    SameMap(a, b);
  }

  ghost predicate SameElements(a: seq<Warning>, b: seq<Warning>) {
    forall w :: w in a <==> w in b
  }

  lemma SameWarnings(norm: Normalizer, a: Draft, b: Draft, lines: seq<Line>)
    requires a.documentType == b.documentType && a.fields == b.fields && KEYS <= a.fields.Keys
    requires WarningsAreRaised(norm, a, lines) && WarningsAreRaised(norm, b, lines)
    ensures SameElements(a.warnings, b.warnings)
  {
    forall w: Warning
      ensures w in a.warnings <==> w in b.warnings
    {
      assert w in a.warnings <==> Raised(norm, w, a, lines);
      assert w in b.warnings <==> Raised(norm, w, b, lines);
    }
  }

  /** Two extractions of the same lines agree on everything but the order of the warnings. */
  lemma OrderDoesNotMatter(norm: Normalizer, a: Draft, b: Draft, lines: seq<Line>)
    requires IsDraftOf(norm, a, lines) && IsDraftOf(norm, b, lines)
    ensures a.documentType == b.documentType && a.fields == b.fields
    ensures SameElements(a.warnings, b.warnings) && |a.warnings| == |b.warnings|
  {
    SameFields(norm, a.fields, b.fields, lines);
    SameWarnings(norm, a, b, lines);
    SameSize(a.warnings, b.warnings);
  }

  lemma {:induction false} SizeOfElements(ws: seq<Warning>)
    requires NoRepeats(ws)
    ensures |set w | w in ws| == |ws|
  {
    if ws != [] {
      var init, last := ws[..|ws| - 1], ws[|ws| - 1];
      SizeOfElements(init);
      assert (set w | w in ws) == (set w | w in init) + {last};
    }
  }

  lemma SameSize(a: seq<Warning>, b: seq<Warning>)
    requires NoRepeats(a) && NoRepeats(b) && SameElements(a, b)
    ensures |a| == |b|
  {
    SizeOfElements(a);
    SizeOfElements(b);
    assert (set w | w in a) == (set w | w in b);
  }
}
