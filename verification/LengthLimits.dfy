/**
 The length limit of the validator. The form that saves a draft counts
 characters, the validator counts bytes; that is the only way for a draft without
 blockers to be refused.
 */
module LengthLimits {
  import opened Common
  import opened Extraction
  import opened Fields
  import opened Text
  import opened Validation
  import Dates
  import Money
  import Review

  // ----- Characters and bytes -----

  lemma DateIsShort(value: string)
    requires ValidDate(value)
    ensures Bytes(value) == 10
  {
    assert forall i :: 0 <= i < 4 ==> value[i] == value[..4][i];
    assert forall i :: 5 <= i < 7 ==> value[i] == value[5..7][i - 5];
    assert forall i :: 8 <= i < 10 ==> value[i] == value[8..][i - 8];
    BytesOfDigits(value);
  }

  /** Only a free text can have the right format and be too long. */
  lemma WellFormedIsShort(key: Key, value: string)
    requires key in KEYS && !FreeText(key) && FormatFault(key, value).None?
    ensures Bytes(value) <= MAX_BYTES
  {
    if key == Currency && value != "" {
      BytesOfDigits(value);
    } else if key == IssueDate && value != "" {
      DateIsShort(value);
    }
  }

  /** Acceptable but for the length of the values. */
  ghost predicate AcceptableInFormat(t: DocumentType, values: map<Key, string>) {
    && t != Unknown
    && (forall key :: key in values ==> FormatFault(key, values[key]).None?)
    && (forall key :: key in Required(t) ==> !Blank(ValueOf(values, key)))
    && !AmountsDisagree(ValueOf(values, Subtotal), ValueOf(values, VatAmount), ValueOf(values, TotalAmount))
  }

  /**
   The form that saves a draft counts characters, the validator bytes. Values of
   any fields that are otherwise acceptable can be confirmed exactly when every
   free text is short in bytes too: no other field makes the difference.
   */
  lemma ConfirmableIffTextsAreShort(t: DocumentType, values: map<Key, string>)
    requires values.Keys <= KEYS
    ensures Acceptable(t, values) <==>
      AcceptableInFormat(t, values) && forall key :: key in values && FreeText(key) ==> Bytes(values[key]) <= MAX_BYTES
  {
    if AcceptableInFormat(t, values) && forall key :: key in values && FreeText(key) ==> Bytes(values[key]) <= MAX_BYTES {
      forall key | key in values
        ensures Fault(key, values[key]).None?
      {
        if !FreeText(key) {
          WellFormedIsShort(key, values[key]);
        }
      }
    }
    if Acceptable(t, values) {
      forall key | key in values
        ensures FormatFault(key, values[key]).None? && Bytes(values[key]) <= MAX_BYTES
      {
        assert Fault(key, values[key]).None?;
      }
    }
  }

  function ThaiText(n: nat): (s: string)
    ensures |s| == n && forall i :: 0 <= i < n ==> s[i] == '\U{E01}'
  {
    seq(n, _ => '\U{E01}')
  }

  lemma {:induction false} ThaiTextIsLong(n: nat)
    ensures Bytes(ThaiText(n)) == 3 * n
  {
    if n > 0 {
      assert ThaiText(n)[1..] == ThaiText(n - 1);
      ThaiTextIsLong(n - 1);
    }
  }

  /** A Thai name of 81 to 240 characters can be saved, and no review that holds it can be confirmed. */
  lemma ThaiNameIsSavedButNeverConfirmed(n: nat)
    requires 81 <= n <= 240
    ensures Review.Savable(ThaiText(n))
    ensures forall t, values :: SellerName in values && values[SellerName] == ThaiText(n) ==> !Acceptable(t, values)
  {
    ThaiTextIsLong(n);
    assert Fault(SellerName, ThaiText(n)) == Some(InvalidField);
  }

  // ----- An unblocked draft that is refused -----

  lemma {:induction false} DatePart(part: string, current: string)
    requires current + part != "" && forall i :: 0 <= i < |part| ==> !DateSeparator(part[i])
    ensures DateParts(part, current) == [current + part]
    decreases |part|
  {
    if part == "" {
      assert current + part == current;
    } else {
      DatePart(part[1..], current + [part[0]]);
      assert current + [part[0]] + part[1..] == current + part;
    }
  }

  lemma {:induction false} FirstDatePart(part: string, separator: char, others: string, current: string)
    requires current + part != "" && forall i :: 0 <= i < |part| ==> !DateSeparator(part[i])
    requires DateSeparator(separator)
    ensures DateParts(part + [separator] + others, current) == [current + part] + DateParts(others, "")
    decreases |part|
  {
    var s := part + [separator] + others;
    if part == "" {
      assert current + part == current && s[1..] == others;
    } else {
      assert s[1..] == part[1..] + [separator] + others;
      FirstDatePart(part[1..], separator, others, current + [part[0]]);
      assert current + [part[0]] + part[1..] == current + part;
    }
  }

  lemma ThreeDateParts(day: string, month: string, year: string)
    requires Money.Digits(day) && Money.Digits(month) && Money.Digits(year)
    ensures DateParts(day + ['/'] + (month + ['/'] + year), "") == [day, month, year]
  {
    FirstDatePart(day, '/', month + ['/'] + year, "");
    FirstDatePart(month, '/', year, "");
    DatePart(year, "");
    assert "" + day == day && "" + month == month && "" + year == year;
  }

  lemma DateOfParts(text: string, day: string, month: string, year: string)
    requires DateParts(text, "") == [day, month, year]
    requires ParseInt(day).Some? && ParseInt(month).Some? && ParseInt(year).Some?
    requires var date := Dates.Date(CommonEra(ParseInt(year).value), ParseInt(month).value, ParseInt(day).value);
      1900 <= date.year <= 9999 && Dates.InCalendar(date)
    ensures NormalizeDate(text).Some?
  {
  }

  /** Digits of a day, a month and a year are a date whenever the calendar has it. */
  lemma WrittenDateIsNormalized(day: string, month: string, year: string)
    requires Money.Digits(day) && |day| <= 15 && Money.Digits(month) && |month| <= 15 && Money.Digits(year) && |year| <= 15
    requires var date := Dates.Date(CommonEra(Number(year)), Number(month), Number(day)); 1900 <= date.year <= 9999 && Dates.InCalendar(date)
    ensures NormalizeDate(day + ['/'] + (month + ['/'] + year)).Some?
  {
    Money.DigitsParseAsTheirNumber(day);
    Money.DigitsParseAsTheirNumber(month);
    Money.DigitsParseAsTheirNumber(year);
    ThreeDateParts(day, month, year);
    DateOfParts(day + ['/'] + (month + ['/'] + year), day, month, year);
  }

  predicate Plain(s: string) {
    forall i :: 0 <= i < |s| ==> s[i] < '\U{80}'
  }

  lemma PlainJoins(s: string, t: string)
    requires Plain(s) && Plain(t)
    ensures Plain(s + t)
  {
  }

  lemma PlainIsAscii(s: string)
    requires Plain(s)
    ensures ToAscii(s) == s
  {
  }

  lemma PlainDigits(s: string)
    requires AllDigits(s)
    ensures PatternDigits(s) && Plain(s)
  {
  }

  lemma SlashesJoin(day: string, month: string, year: string)
    ensures day + ['/'] + (month + ['/'] + year) == day + ['/'] + month + ['/'] + year
  {
  }

  /** Such a date is one that the pattern captures. */
  lemma WrittenDateIsCaptured(day: string, month: string, year: string)
    requires AllDigits(day) && 1 <= |day| <= 2 && AllDigits(month) && 1 <= |month| <= 2 && AllDigits(year) && |year| == 4
    ensures DateText(day + ['/'] + (month + ['/'] + year))
  {
    PlainDigits(day);
    PlainDigits(month);
    PlainDigits(year);
    SlashesJoin(day, month, year);
    assert IsDateText(day + ['/'] + (month + ['/'] + year), DateParse(day, '/', month, '/', year));
  }

  lemma WrittenDateIsPlain(day: string, month: string, year: string)
    requires AllDigits(day) && AllDigits(month) && AllDigits(year)
    ensures Plain(day + ['/'] + (month + ['/'] + year))
  {
    PlainJoins(month, ['/']);
    PlainJoins(month + ['/'], year);
    PlainJoins(day, ['/']);
    PlainJoins(day + ['/'], month + ['/'] + year);
  }

  ghost predicate CalendarDigits(day: string, month: string, year: string) {
    && AllDigits(day) && 1 <= |day| <= 2 && AllDigits(month) && 1 <= |month| <= 2 && AllDigits(year) && |year| == 4
    && var date := Dates.Date(CommonEra(Number(year)), Number(month), Number(day)); 1900 <= date.year <= 9999 && Dates.InCalendar(date)
  }

  lemma PlainDateIsNormalized(raw: string)
    requires Plain(raw) && NormalizeDate(raw).Some?
    ensures Normalize(IssueDate, raw).Some?
  {
    PlainIsAscii(raw);
  }

  /** Every date of the calendar, written in digits, has a normal form. */
  lemma WrittenDateHasNormalForm(day: string, month: string, year: string)
    requires CalendarDigits(day, month, year)
    ensures Normalize(IssueDate, day + ['/'] + (month + ['/'] + year)).Some?
  {
    WrittenDateIsPlain(day, month, year);
    WrittenDateIsNormalized(day, month, year);
    PlainDateIsNormalized(day + ['/'] + (month + ['/'] + year));
  }

  const DAY := "1"
  const YEAR := "2000"

  lemma FirstOfJanuary()
    ensures CalendarDigits(DAY, DAY, YEAR)
  {
    assert DAY[..0] == "";
    assert YEAR[..3] == "200" && "200"[..2] == "20" && "20"[..1] == "2" && "2"[..0] == "";
    assert Number("2") == 2 && Number("20") == 20 && Number("200") == 200;
  }

  lemma OneIsCaptured()
    ensures InLanguage(TotalAmount, DAY)
  {
  }

  lemma OneHasNormalForm()
    ensures Normalize(TotalAmount, DAY).Some?
  {
    assert ToAscii(DAY) == DAY;
    WithoutKeeps(DAY, {','});
    Money.CentsOfDigits(DAY);
  }

  lemma CandidatesOfOneLine(norm: Normalizer, line: Line, key: Key)
    ensures Candidates(norm, [line], key) == if CandidateOf(norm, line, key).Some? then [CandidateOf(norm, line, key).value] else []
  {
    assert [] + [line] == [line];
    CandidatesOfNextLine(norm, [], line, key);
  }

  /** A receipt's line without a second total or a subtotal. */
  ghost predicate ReceiptLine(norm: Normalizer, line: Line) {
    && line.receipt && !line.taxInvoice && Subtotal !in line.captures
    && CandidateOf(norm, line, IssueDate).Some? && CandidateOf(norm, line, TotalAmount).Some?
  }

  lemma FieldOfOneCandidate(field: Field, cs: seq<Candidate>, c: Option<Candidate>)
    requires Summarizes(field, cs) && cs == if c.Some? then [c.value] else []
    ensures field.presence == (if c.Some? then Found else NotFound) && field.normalized == (if c.Some? then c.value.normalized else "")
  {
  }

  lemma SummaryOf(norm: Normalizer, draft: Draft, lines: seq<Line>, key: Key)
    requires IsDraftOf(norm, draft, lines) && key in PATTERNS
    ensures key in draft.fields && Summarizes(draft.fields[key], Candidates(norm, lines, key))
  {
  }

  lemma FieldOfOneLine(norm: Normalizer, draft: Draft, line: Line, key: Key)
    requires IsDraftOf(norm, draft, [line]) && key in PATTERNS
    ensures var c := CandidateOf(norm, line, key);
      && key in draft.fields && draft.fields[key].presence == (if c.Some? then Found else NotFound)
      && draft.fields[key].normalized == (if c.Some? then c.value.normalized else "")
  {
    CandidatesOfOneLine(norm, line, key);
    SummaryOf(norm, draft, [line], key);
    FieldOfOneCandidate(draft.fields[key], Candidates(norm, [line], key), CandidateOf(norm, line, key));
  }

  lemma OneLineDoesNotBlock(norm: Normalizer, w: Warning, line: Line)
    requires RaisedByLines(norm, w, [line])
    ensures !w.blocker
  {
    CandidatesOfOneLine(norm, line, w.field);
  }

  lemma FieldsDoNotBlock(w: Warning, fields: map<Key, Field>)
    requires KEYS <= fields.Keys && fields[IssueDate].presence == Found && fields[TotalAmount].presence == Found
    requires fields[Subtotal].normalized == ""
    ensures !RaisedByFields(w, Receipt, fields)
  {
  }

  lemma ReceiptType(norm: Normalizer, draft: Draft, line: Line)
    requires IsDraftOf(norm, draft, [line]) && line.receipt && !line.taxInvoice
    ensures draft.documentType == Receipt
  {
    assert [line][0] == line;
  }

  lemma WarningIsRaised(norm: Normalizer, draft: Draft, lines: seq<Line>, w: Warning)
    requires IsDraftOf(norm, draft, lines) && w in draft.warnings
    ensures RaisedByLines(norm, w, lines) || RaisedByFields(w, draft.documentType, draft.fields)
  {
    assert Raised(norm, w, draft, lines);
  }

  lemma WarningDoesNotBlock(norm: Normalizer, draft: Draft, line: Line, w: Warning)
    requires KEYS <= draft.fields.Keys && draft.documentType == Receipt
    requires draft.fields[IssueDate].presence == Found && draft.fields[TotalAmount].presence == Found && draft.fields[Subtotal].normalized == ""
    requires RaisedByLines(norm, w, [line]) || RaisedByFields(w, draft.documentType, draft.fields)
    ensures !w.blocker
  {
    FieldsDoNotBlock(w, draft.fields);
    OneLineDoesNotBlock(norm, w, line);
  }

  lemma NothingBlocks(norm: Normalizer, draft: Draft, line: Line)
    requires IsDraftOf(norm, draft, [line]) && draft.documentType == Receipt
    requires draft.fields[IssueDate].presence == Found && draft.fields[TotalAmount].presence == Found && draft.fields[Subtotal].normalized == ""
    ensures Unblocked(draft)
  {
    forall w | w in draft.warnings
      ensures !w.blocker
    {
      WarningIsRaised(norm, draft, [line], w);
      WarningDoesNotBlock(norm, draft, line, w);
    }
  }

  lemma FoundInOneLine(norm: Normalizer, draft: Draft, line: Line, key: Key)
    requires IsDraftOf(norm, draft, [line]) && key in PATTERNS && CandidateOf(norm, line, key).Some?
    ensures draft.fields[key].presence == Found
  {
    FieldOfOneLine(norm, draft, line, key);
  }

  lemma ReceiptFields(norm: Normalizer, draft: Draft, line: Line)
    requires IsDraftOf(norm, draft, [line]) && ReceiptLine(norm, line)
    ensures draft.fields[IssueDate].presence == Found && draft.fields[TotalAmount].presence == Found && draft.fields[Subtotal].normalized == ""
  {
    FoundInOneLine(norm, draft, line, IssueDate);
    FoundInOneLine(norm, draft, line, TotalAmount);
    FieldOfOneLine(norm, draft, line, Subtotal);
  }

  /** One line with all that a receipt needs, and no subtotal, raises nothing that blocks. */
  lemma ReceiptIsUnblocked(norm: Normalizer, draft: Draft, line: Line)
    requires IsDraftOf(norm, draft, [line]) && ReceiptLine(norm, line)
    ensures draft.documentType == Receipt && Unblocked(draft)
  {
    ReceiptType(norm, draft, line);
    ReceiptFields(norm, draft, line);
    NothingBlocks(norm, draft, line);
  }

  lemma LineIsInLanguage(line: Line)
    requires forall key :: key in line.captures ==> InLanguage(key, line.captures[key])
    ensures CapturesInLanguage([line])
  {
  }

  lemma NameHasNormalForm(name: string)
    requires name != "" && forall i :: 0 <= i < |name| ==> !Space(name[i])
    ensures Normalize(SellerName, name) == Some(name)
  {
  }

  lemma NameIsCaptured(name: string)
    requires forall i :: 0 <= i < |name| ==> !Space(name[i])
    ensures InLanguage(SellerName, name)
  {
  }

  function LongNameLine(date: string, total: string, name: string): Line {
    Line(Evidence(1, 1), false, true, false, false, false, false, map[IssueDate := date, TotalAmount := total, SellerName := name])
  }

  lemma LongNameLineIsReceipt(norm: Normalizer, date: string, total: string, name: string)
    requires norm(IssueDate, date).Some? && norm(TotalAmount, total).Some? && norm(SellerName, name) == Some(name)
    ensures var line := LongNameLine(date, total, name);
      ReceiptLine(norm, line) && CandidateOf(norm, line, SellerName).Some? && CandidateOf(norm, line, SellerName).value.normalized == name
  {
  }

  const DATE := DAY + ['/'] + (DAY + ['/'] + YEAR)

  lemma ReceiptTextsHaveNormalForms(norm: Normalizer, name: string)
    requires norm == Normalize && name != "" && forall i :: 0 <= i < |name| ==> !Space(name[i])
    ensures norm(IssueDate, DATE).Some? && norm(TotalAmount, DAY).Some? && norm(SellerName, name) == Some(name)
  {
    FirstOfJanuary();
    WrittenDateHasNormalForm(DAY, DAY, YEAR);
    OneHasNormalForm();
    NameHasNormalForm(name);
  }

  lemma ReceiptDateIsCaptured()
    ensures InLanguage(IssueDate, DATE)
  {
    WrittenDateIsCaptured(DAY, DAY, YEAR);
  }

  lemma ReceiptTextsAreCaptured(name: string)
    requires name != "" && forall i :: 0 <= i < |name| ==> !Space(name[i])
    ensures CapturesInLanguage([LongNameLine(DATE, DAY, name)])
  {
    ReceiptDateIsCaptured();
    OneIsCaptured();
    NameIsCaptured(name);
    LineIsInLanguage(LongNameLine(DATE, DAY, name));
  }

  lemma LongNameDraftIsRefused(norm: Normalizer, draft: Draft, date: string, total: string, n: nat)
    requires norm(IssueDate, date).Some? && norm(TotalAmount, total).Some? && norm(SellerName, ThaiText(n)) == Some(ThaiText(n))
    requires 81 <= n <= 240 && IsDraftOf(norm, draft, [LongNameLine(date, total, ThaiText(n))])
    ensures draft.documentType == Receipt && Unblocked(draft) && draft.fields[SellerName].normalized == ThaiText(n)
    ensures !Acceptable(draft.documentType, Submitted(draft))
  {
    var line := LongNameLine(date, total, ThaiText(n));
    LongNameLineIsReceipt(norm, date, total, ThaiText(n));
    ReceiptIsUnblocked(norm, draft, line);
    FieldOfOneLine(norm, draft, line, SellerName);
    ThaiNameIsSavedButNeverConfirmed(n);
    assert SellerName in Submitted(draft) && Submitted(draft)[SellerName] == ThaiText(n);
  }

  /** Extraction of a receipt's line with a long Thai name: no blocker, and a draft that is refused when it is submitted unchanged. */
  method LongNameReceipt(n: nat) returns (line: Line, draft: Draft)
    requires 81 <= n <= 240
    ensures CapturesInLanguage([line]) && IsDraftOf(Normalize, draft, [line])
    ensures draft.documentType == Receipt && Unblocked(draft) && draft.fields[SellerName].normalized == ThaiText(n)
    ensures !Acceptable(draft.documentType, Submitted(draft))
  {
    var norm: Normalizer := Normalize;
    line := LongNameLine(DATE, DAY, ThaiText(n));
    draft := Extract(norm, [line]);
    ReceiptTextsAreCaptured(ThaiText(n));
    ReceiptTextsHaveNormalForms(norm, ThaiText(n));
    LongNameDraftIsRefused(norm, draft, DATE, DAY, n);
  }
}
