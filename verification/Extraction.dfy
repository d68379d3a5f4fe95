/**
 Extraction of field candidates from recognized lines, and validation of the
 values that a reviewer submits.

 A line carries, per field, the text its pattern captured. The patterns
 themselves are not modelled; `InLanguage` is the set of texts each can capture.
 */
module Extraction {
  import opened Common
  import opened Fields
  import Money

  /** The normal form of a captured text, if it has one. */
  type Normalizer = (Key, string) -> Option<string>

  datatype DocumentType = Unknown | TaxInvoice | Receipt | Invoice

  datatype Evidence = Evidence(page: nat, line: nat)

  datatype Presence = NotFound | Found | Ambiguous

  datatype Field = Field(presence: Presence, raw: string, normalized: string, evidence: seq<Evidence>)

  datatype Code = InvalidValue | MultipleCandidates | LowQuality | RequiredMissing | AmountMismatch

  datatype Warning = Warning(code: Code, field: Key, blocker: bool)

  /** One recognized line: what it mentions, and the trimmed capture of each pattern that matched. */
  datatype Line = Line(evidence: Evidence, taxInvoice: bool, receipt: bool, invoice: bool,
                       baht: bool, thb: bool, lowConfidence: bool, captures: map<Key, string>)

  datatype Draft = Draft(documentType: DocumentType, fields: map<Key, Field>, warnings: seq<Warning>)

  // ----- What a draft must be -----

  datatype Candidate = Candidate(evidence: Evidence, raw: string, normalized: string, lowConfidence: bool)

  /** The valid candidates of a field, in line order. */
  function Candidates(norm: Normalizer, lines: seq<Line>, key: Key): seq<Candidate> {
    if lines == [] then []
    else
      var init, line := Candidates(norm, lines[..|lines| - 1], key), lines[|lines| - 1];
      if key in line.captures && norm(key, line.captures[key]).Some?
      then init + [Candidate(line.evidence, line.captures[key], norm(key, line.captures[key]).value, line.lowConfidence)]
      else init
  }

  predicate Disagree(cs: seq<Candidate>) {
    exists i :: 0 <= i < |cs| && cs[i].normalized != cs[0].normalized
  }

  /** The texts shown for a field: the first, and from the first disagreement on all further ones. */
  function Shown(cs: seq<Candidate>): string {
    if cs == [] then ""
    else if Disagree(cs) && |cs| > 1 then Shown(cs[..|cs| - 1]) + " | " + cs[|cs| - 1].raw
    else cs[0].raw
  }

  /** The field that a list of valid candidates stands for. */
  ghost predicate Summarizes(field: Field, cs: seq<Candidate>) {
    && field.presence == (if cs == [] then NotFound else if Disagree(cs) then Ambiguous else Found)
    && field.normalized == (if field.presence == Found then cs[0].normalized else "")
    && field.raw == Shown(cs)
    && |field.evidence| == |cs| && forall i :: 0 <= i < |cs| ==> field.evidence[i] == cs[i].evidence
  }

  predicate Mentions(line: Line) {
    line.baht || line.thb
  }

  /** What a line that mentions the currency puts in its field; U+0E1A U+0E32 U+0E17 is the Thai word for baht. */
  function CurrencyField(line: Line): Field {
    Field(Found, if line.baht then "\U{E1A}\U{E32}\U{E17}" else "THB", "THB", [line.evidence])
  }

  /** The last line that mentions the currency decides. */
  ghost predicate CurrencySummarizes(field: Field, lines: seq<Line>) {
    if forall i :: 0 <= i < |lines| ==> !Mentions(lines[i]) then field == Field(NotFound, "", "", [])
    else exists i ::
      && 0 <= i < |lines| && Mentions(lines[i]) && (forall j :: i < j < |lines| ==> !Mentions(lines[j]))
      && field == CurrencyField(lines[i])
  }

  /** The type of the first line that mentions a receipt or an invoice. */
  function FirstType(lines: seq<Line>): DocumentType {
    if lines == [] then Unknown
    else if lines[0].receipt then Receipt
    else if lines[0].invoice then Invoice
    else FirstType(lines[1..])
  }

  predicate HasTaxInvoice(lines: seq<Line>) {
    exists i :: 0 <= i < |lines| && lines[i].taxInvoice
  }

  /** A tax invoice anywhere decides; otherwise the first line that mentions a receipt or an invoice. */
  predicate TypeSummarizes(t: DocumentType, lines: seq<Line>) {
    t == if HasTaxInvoice(lines) then TaxInvoice else FirstType(lines)
  }

  function Required(t: DocumentType): set<Key> {
    if t == Unknown then {}
    else {IssueDate, TotalAmount} + if t == TaxInvoice then {DocumentNumber, SellerName, SellerTaxId} else {}
  }

  /** The warnings that lines up to here raise for a field. */
  ghost predicate RaisedByLines(norm: Normalizer, w: Warning, lines: seq<Line>) {
    && w.field in PATTERNS && w.blocker == w.code.MultipleCandidates?
    && match w.code
       case InvalidValue =>
         exists i :: 0 <= i < |lines| && w.field in lines[i].captures && norm(w.field, lines[i].captures[w.field]).None?
       case MultipleCandidates => Disagree(Candidates(norm, lines, w.field))
       case LowQuality => exists c :: c in Candidates(norm, lines, w.field) && c.lowConfidence
       case _ => false
  }

  predicate AmountsDisagree(subtotal: string, vat: string, total: string) {
    var a, b, c := Money.Cents(subtotal), Money.Cents(vat), Money.Cents(total);
    a.Some? && b.Some? && c.Some? && Money.Mismatch(a.value, b.value, c.value)
  }

  predicate DraftAmountsDisagree(fields: map<Key, Field>)
    requires KEYS <= fields.Keys
  {
    AmountsDisagree(fields[Subtotal].normalized, fields[VatAmount].normalized, fields[TotalAmount].normalized)
  }

  /** The warnings that the finished fields raise. */
  predicate RaisedByFields(w: Warning, documentType: DocumentType, fields: map<Key, Field>)
    requires KEYS <= fields.Keys
  {
    || (w.code == RequiredMissing && w.blocker && w.field in Required(documentType) && fields[w.field].presence != Found)
    || (w == Warning(AmountMismatch, TotalAmount, true) && DraftAmountsDisagree(fields))
  }

  ghost predicate Raised(norm: Normalizer, w: Warning, draft: Draft, lines: seq<Line>)
    requires KEYS <= draft.fields.Keys
  {
    RaisedByLines(norm, w, lines) || RaisedByFields(w, draft.documentType, draft.fields)
  }

  ghost predicate WarningsAreRaised(norm: Normalizer, draft: Draft, lines: seq<Line>)
    requires KEYS <= draft.fields.Keys
  {
    forall w :: w in draft.warnings <==> Raised(norm, w, draft, lines)
  }

  ghost predicate FieldsSummarize(norm: Normalizer, fields: map<Key, Field>, lines: seq<Line>) {
    forall key :: key in PATTERNS ==> key in fields && Summarizes(fields[key], Candidates(norm, lines, key))
  }

  /** The warnings before the fields are finished. */
  ghost predicate AreRaisedByLines(norm: Normalizer, warnings: seq<Warning>, lines: seq<Line>) {
    forall w :: w in warnings <==> RaisedByLines(norm, w, lines)
  }

  ghost predicate AddRaisedByFields(before: seq<Warning>, after: seq<Warning>, documentType: DocumentType, fields: map<Key, Field>)
    requires KEYS <= fields.Keys
  {
    forall w :: w in after <==> w in before || RaisedByFields(w, documentType, fields)
  }

  ghost predicate NoRepeats(warnings: seq<Warning>) {
    forall i, j :: 0 <= i < j < |warnings| ==> warnings[i].code != warnings[j].code || warnings[i].field != warnings[j].field
  }

  /** Everything that the lines determine about their draft. */
  ghost predicate IsDraftOf(norm: Normalizer, draft: Draft, lines: seq<Line>) {
    && draft.fields.Keys == KEYS
    && TypeSummarizes(draft.documentType, lines)
    && FieldsSummarize(norm, draft.fields, lines)
    && CurrencySummarizes(draft.fields[Currency], lines)
    && WarningsAreRaised(norm, draft, lines)
    && NoRepeats(draft.warnings)
  }

  // ----- Extract -----

  function Warn(warnings: seq<Warning>, code: Code, field: Key, blocker: bool): seq<Warning> {
    if exists i :: 0 <= i < |warnings| && warnings[i].code == code && warnings[i].field == field then warnings
    else warnings + [Warning(code, field, blocker)]
  }

  predicate Blocks(code: Code) {
    code in {MultipleCandidates, RequiredMissing, AmountMismatch}
  }

  /** No warning is there twice, and each code has one severity. */
  ghost predicate Consistent(warnings: seq<Warning>) {
    NoRepeats(warnings) && forall w :: w in warnings ==> w.blocker == Blocks(w.code)
  }

  ghost predicate Has(warnings: seq<Warning>, code: Code, key: Key) {
    Warning(code, key, Blocks(code)) in warnings
  }

  lemma WarnAdds(warnings: seq<Warning>, code: Code, key: Key)
    requires Consistent(warnings)
    ensures var after := Warn(warnings, code, key, Blocks(code));
      && Consistent(after)
      && forall x :: x in after <==> x in warnings || x == Warning(code, key, Blocks(code))
  {
    var w := Warning(code, key, Blocks(code));
    if i :| 0 <= i < |warnings| && warnings[i].code == code && warnings[i].field == key {
      assert warnings[i] in warnings && warnings[i] == w;
    }
  }

  /** A further valid candidate as the field's entry takes it in. */
  function Take(field: Field, c: Candidate): Field {
    var noted := field.(evidence := field.evidence + [c.evidence]);
    if field.presence == NotFound then noted.(presence := Found, raw := c.raw, normalized := c.normalized)
    else if field.presence == Ambiguous || field.normalized != c.normalized
      then noted.(presence := Ambiguous, raw := field.raw + " | " + c.raw, normalized := "")
    else noted
  }

  lemma TakeSummarizes(field: Field, cs: seq<Candidate>, c: Candidate)
    requires Summarizes(field, cs)
    ensures Summarizes(Take(field, c), cs + [c])
    ensures Disagree(cs + [c]) <==> field.presence == Ambiguous || (field.presence == Found && field.normalized != c.normalized)
  {
    var all := cs + [c];
    assert all[..|all| - 1] == cs;
    if cs != [] {
      if Disagree(cs) {
        var i :| 0 <= i < |cs| && cs[i].normalized != cs[0].normalized;
        assert all[i].normalized != all[0].normalized;
      } else {
        assert forall i :: 0 <= i < |cs| ==> all[i] == cs[i];
        if cs[0].normalized != c.normalized {
          assert all[|cs|].normalized != all[0].normalized;
        }
      }
    }
  }

  function CandidateOf(norm: Normalizer, line: Line, key: Key): Option<Candidate> {
    if key in line.captures && norm(key, line.captures[key]).Some?
    then Some(Candidate(line.evidence, line.captures[key], norm(key, line.captures[key]).value, line.lowConfidence))
    else None
  }

  lemma CandidatesOfNextLine(norm: Normalizer, lines: seq<Line>, line: Line, key: Key)
    ensures Candidates(norm, lines + [line], key) == Candidates(norm, lines, key) + if CandidateOf(norm, line, key).Some? then [CandidateOf(norm, line, key).value] else []
  {
    assert (lines + [line])[..|lines + [line]| - 1] == lines;
  }

  /** What one more line adds to the warnings about a field. */
  ghost predicate AddedByLine(norm: Normalizer, w: Warning, line: Line, lines: seq<Line>) {
    match w.code
    case InvalidValue => w.field in line.captures && CandidateOf(norm, line, w.field).None?
    case MultipleCandidates => CandidateOf(norm, line, w.field).Some? && Disagree(Candidates(norm, lines + [line], w.field))
    case LowQuality => CandidateOf(norm, line, w.field).Some? && line.lowConfidence
    case _ => false
  }

  lemma NextLineRaises(norm: Normalizer, w: Warning, lines: seq<Line>, line: Line)
    requires w.field in PATTERNS && w.blocker == w.code.MultipleCandidates?
    ensures RaisedByLines(norm, w, lines + [line]) <==> RaisedByLines(norm, w, lines) || AddedByLine(norm, w, line, lines)
  {
    var all, cs := lines + [line], Candidates(norm, lines, w.field);
    CandidatesOfNextLine(norm, lines, line, w.field);
    match w.code
    case InvalidValue =>
      if RaisedByLines(norm, w, lines) {
        var i :| 0 <= i < |lines| && w.field in lines[i].captures && norm(w.field, lines[i].captures[w.field]).None?;
        assert all[i] == lines[i];
      }
      assert all[|lines|] == line;
    case MultipleCandidates =>
      if Disagree(cs) {
        var i :| 0 <= i < |cs| && cs[i].normalized != cs[0].normalized;
        assert Candidates(norm, all, w.field)[i] == cs[i] && Candidates(norm, all, w.field)[0] == cs[0];
      }
    case _ =>
  }

  // ----- The fold over the lines, field by field -----

  /** The entry of one field and which warnings the lines raise about it. */
  datatype Column = Column(field: Field, invalid: bool, multiple: bool, low: bool)

  const EMPTY_FIELD := Field(NotFound, "", "", [])

  predicate Contradicts(field: Field, normalized: string) {
    field.presence == Ambiguous || (field.presence == Found && field.normalized != normalized)
  }

  function AddLine(norm: Normalizer, column: Column, line: Line, key: Key): Column {
    if key !in line.captures then column
    else match CandidateOf(norm, line, key)
      case None => column.(invalid := true)
      case Some(c) =>
        Column(Take(column.field, c), column.invalid,
               column.multiple || Contradicts(column.field, c.normalized), column.low || line.lowConfidence)
  }

  function ColumnOf(norm: Normalizer, lines: seq<Line>, key: Key): Column {
    if lines == [] then Column(EMPTY_FIELD, false, false, false)
    else AddLine(norm, ColumnOf(norm, lines[..|lines| - 1], key), lines[|lines| - 1], key)
  }

  ghost predicate ColumnMeans(norm: Normalizer, column: Column, lines: seq<Line>, key: Key) {
    && Summarizes(column.field, Candidates(norm, lines, key))
    && (column.invalid <==> RaisedByLines(norm, Warning(InvalidValue, key, false), lines))
    && (column.multiple <==> RaisedByLines(norm, Warning(MultipleCandidates, key, true), lines))
    && (column.low <==> RaisedByLines(norm, Warning(LowQuality, key, false), lines))
  }

  /** The fold gives each field its summary and exactly the warnings that the lines raise. */
  lemma {:induction false} ColumnSummarizes(norm: Normalizer, lines: seq<Line>, key: Key)
    requires key in PATTERNS
    ensures ColumnMeans(norm, ColumnOf(norm, lines, key), lines, key)
  {
    if lines != [] {
      var init, line := lines[..|lines| - 1], lines[|lines| - 1];
      ColumnSummarizes(norm, init, key);
      assert lines == init + [line];
      NextLineKeepsMeaning(norm, ColumnOf(norm, init, key), init, line, key);
    }
  }

  lemma NextLineKeepsMeaning(norm: Normalizer, column: Column, lines: seq<Line>, line: Line, key: Key)
    requires key in PATTERNS && ColumnMeans(norm, column, lines, key)
    ensures ColumnMeans(norm, AddLine(norm, column, line, key), lines + [line], key)
  {
    CandidatesOfNextLine(norm, lines, line, key);
    if CandidateOf(norm, line, key).Some? {
      TakeSummarizes(column.field, Candidates(norm, lines, key), CandidateOf(norm, line, key).value);
    }
    NextLineRaises(norm, Warning(InvalidValue, key, false), lines, line);
    NextLineRaises(norm, Warning(MultipleCandidates, key, true), lines, line);
    NextLineRaises(norm, Warning(LowQuality, key, false), lines, line);
  }

  ghost predicate Tabulated(fields: map<Key, Field>, warnings: seq<Warning>, key: Key, column: Column) {
    && key in fields && fields[key] == column.field
    && Has(warnings, InvalidValue, key) == column.invalid
    && Has(warnings, MultipleCandidates, key) == column.multiple
    && Has(warnings, LowQuality, key) == column.low
  }

  /** So far only the warnings that lines raise. */
  ghost predicate LineCodesOnly(warnings: seq<Warning>) {
    forall w :: w in warnings ==> w.field in PATTERNS && w.code in {InvalidValue, MultipleCandidates, LowQuality}
  }

  /** A valid candidate enters its field. */
  method TakeCandidate(field: Field, warnings: seq<Warning>, c: Candidate, key: Key, ghost column: Column)
    returns (field': Field, warnings': seq<Warning>)
    requires Consistent(warnings) && LineCodesOnly(warnings) && key in PATTERNS && Tabulated(map[key := field], warnings, key, column)
    ensures Consistent(warnings') && LineCodesOnly(warnings')
    ensures Tabulated(map[key := field'], warnings', key,
                      Column(Take(column.field, c), column.invalid, column.multiple || Contradicts(column.field, c.normalized), column.low || c.lowConfidence))
    ensures forall w: Warning :: w.field != key ==> (w in warnings' <==> w in warnings)
  {
    warnings' := warnings;
    if Contradicts(field, c.normalized) {
      WarnAdds(warnings', MultipleCandidates, key);
      warnings' := Warn(warnings', MultipleCandidates, key, true);
    }
    field' := Take(field, c);
    if c.lowConfidence {
      WarnAdds(warnings', LowQuality, key);
      warnings' := Warn(warnings', LowQuality, key, false);
    }
  }

  /** The work on one field of one line; nothing about another field changes. */
  method ScanField(norm: Normalizer, fields: map<Key, Field>, warnings: seq<Warning>, line: Line, key: Key, ghost column: Column)
    returns (field: Field, warnings': seq<Warning>)
    requires Consistent(warnings) && LineCodesOnly(warnings) && key in PATTERNS && Tabulated(fields, warnings, key, column)
    ensures Consistent(warnings') && LineCodesOnly(warnings') && Tabulated(map[key := field], warnings', key, AddLine(norm, column, line, key))
    ensures forall w: Warning :: w.field != key ==> (w in warnings' <==> w in warnings)
  {
    field, warnings' := fields[key], warnings;
    if key !in line.captures {
      return;
    }
    var raw := line.captures[key];
    var normalized := norm(key, raw);
    if normalized.None? {
      WarnAdds(warnings', InvalidValue, key);
      warnings' := Warn(warnings', InvalidValue, key, false);
      return;
    }
    field, warnings' := TakeCandidate(field, warnings', Candidate(line.evidence, raw, normalized.value, line.lowConfidence), key, column);
  }

  /** Every field of a table of columns is as its column says. */
  ghost predicate AllRows(fields: map<Key, Field>, warnings: seq<Warning>, columns: map<Key, Column>) {
    forall key :: key in columns ==> Tabulated(fields, warnings, key, columns[key])
  }

  lemma RowScanned(fields: map<Key, Field>, warnings: seq<Warning>, columns: map<Key, Column>,
                   key: Key, field: Field, warnings': seq<Warning>, column: Column)
    requires AllRows(fields, warnings, columns)
    requires Tabulated(map[key := field], warnings', key, column)
    requires forall w: Warning :: w.field != key ==> (w in warnings' <==> w in warnings)
    ensures AllRows(fields[key := field], warnings', columns[key := column])
  {
    var after := columns[key := column];
    forall k | k in after
      ensures Tabulated(fields[key := field], warnings', k, after[k])
    {
      if k != key {
        assert Tabulated(fields, warnings, k, columns[k]);
      }
    }
  }

  /** The columns in which the line has been added for the fields that are done. */
  ghost predicate PartlyAdded(norm: Normalizer, columns: map<Key, Column>, now: map<Key, Column>, line: Line, todo: set<Key>) {
    && now.Keys == columns.Keys
    && forall key :: key in columns ==> now[key] == if key in todo then columns[key] else AddLine(norm, columns[key], line, key)
  }

  /** The fields of one line, visited in Go's random map order: any choice at each turn. */
  lemma OneMoreAdded(norm: Normalizer, columns: map<Key, Column>, now: map<Key, Column>, line: Line, todo: set<Key>, key: Key)
    requires PartlyAdded(norm, columns, now, line, todo) && key in todo && key in columns
    ensures PartlyAdded(norm, columns, now[key := AddLine(norm, now[key], line, key)], line, todo - {key})
  {
  }

  method ScanPatterns(norm: Normalizer, keys: set<Key>, fields: map<Key, Field>, warnings: seq<Warning>, ghost columns: map<Key, Column>, line: Line)
    returns (fields': map<Key, Field>, warnings': seq<Warning>)
    requires keys <= PATTERNS && columns.Keys == keys && Currency in fields && Currency !in keys
    requires Consistent(warnings) && LineCodesOnly(warnings) && AllRows(fields, warnings, columns)
    ensures fields'.Keys == fields.Keys && fields'[Currency] == fields[Currency]
    ensures Consistent(warnings') && LineCodesOnly(warnings')
    ensures forall key :: key in keys ==> Tabulated(fields', warnings', key, AddLine(norm, columns[key], line, key))
  {
    fields', warnings' := fields, warnings;
    var todo := keys;
    ghost var now := columns;
    while todo != {}
      invariant todo <= keys && fields'.Keys == fields.Keys && fields'[Currency] == fields[Currency]
      invariant Consistent(warnings') && LineCodesOnly(warnings') && AllRows(fields', warnings', now)
      invariant PartlyAdded(norm, columns, now, line, todo)
    {
      var key :| key in todo;
      assert Tabulated(fields', warnings', key, now[key]);
      var field, warnings'' := ScanField(norm, fields', warnings', line, key, now[key]);
      RowScanned(fields', warnings', now, key, field, warnings'', AddLine(norm, now[key], line, key));
      OneMoreAdded(norm, columns, now, line, todo, key);
      now := now[key := AddLine(norm, now[key], line, key)];
      fields', warnings', todo := fields'[key := field], warnings'', todo - {key};
    }
  }

  /** The type so far, after one more line. */
  function NextType(t: DocumentType, line: Line): DocumentType {
    if line.taxInvoice then TaxInvoice
    else if t == Unknown && line.receipt then Receipt
    else if t == Unknown && line.invoice then Invoice
    else t
  }

  lemma {:induction false} FirstTypeOfMore(lines: seq<Line>, line: Line)
    ensures FirstType(lines + [line]) == if FirstType(lines) != Unknown then FirstType(lines) else FirstType([line])
  {
    if lines == [] {
      assert lines + [line] == [line];
    } else {
      FirstTypeOfMore(lines[1..], line);
      assert (lines + [line])[1..] == lines[1..] + [line];
    }
  }

  lemma NextTypeSummarizes(t: DocumentType, lines: seq<Line>, line: Line)
    requires TypeSummarizes(t, lines)
    ensures TypeSummarizes(NextType(t, line), lines + [line])
  {
    var all := lines + [line];
    assert all[|lines|] == line && forall i :: 0 <= i < |lines| ==> all[i] == lines[i];
    assert HasTaxInvoice(all) <==> HasTaxInvoice(lines) || line.taxInvoice;
    FirstTypeOfMore(lines, line);
    assert [line][1..] == [];
  }

  lemma NextCurrencySummarizes(field: Field, lines: seq<Line>, line: Line)
    requires CurrencySummarizes(field, lines)
    ensures CurrencySummarizes(if Mentions(line) then CurrencyField(line) else field, lines + [line])
  {
    var all := lines + [line];
    assert all[|lines|] == line && forall i :: 0 <= i < |lines| ==> all[i] == lines[i];
  }

  /** Warnings about required fields, in any order of the fields, and about amounts. */
  method WarnAboutFields(documentType: DocumentType, fields: map<Key, Field>, warnings: seq<Warning>) returns (warnings': seq<Warning>)
    requires Consistent(warnings) && KEYS <= fields.Keys
    ensures Consistent(warnings')
    ensures AddRaisedByFields(warnings, warnings', documentType, fields)
  {
    warnings' := warnings;
    var todo := Required(documentType);
    while todo != {}
      invariant todo <= Required(documentType) && Consistent(warnings')
      invariant forall w :: w in warnings' <==>
        w in warnings || (w.code == RequiredMissing && w.blocker && w.field in Required(documentType) - todo && fields[w.field].presence != Found)
    {
      var key :| key in todo;
      if fields[key].presence != Found {
        WarnAdds(warnings', RequiredMissing, key);
        warnings' := Warn(warnings', RequiredMissing, key, true);
      }
      todo := todo - {key};
    }
    if DraftAmountsDisagree(fields) {
      WarnAdds(warnings', AmountMismatch, TotalAmount);
      warnings' := Warn(warnings', AmountMismatch, TotalAmount, true);
    }
  }

  ghost function Columns(norm: Normalizer, keys: set<Key>, lines: seq<Line>): (columns: map<Key, Column>)
    ensures columns.Keys == keys
  {
    map key | key in keys :: ColumnOf(norm, lines, key)
  }

  ghost predicate AllTabulated(norm: Normalizer, keys: set<Key>, fields: map<Key, Field>, warnings: seq<Warning>, lines: seq<Line>) {
    Consistent(warnings) && LineCodesOnly(warnings) && AllRows(fields, warnings, Columns(norm, keys, lines))
  }

  lemma LineTabulated(norm: Normalizer, keys: set<Key>, fields: map<Key, Field>, warnings: seq<Warning>, lines: seq<Line>, line: Line)
    requires Consistent(warnings) && LineCodesOnly(warnings)
    requires forall key :: key in keys ==> Tabulated(fields, warnings, key, AddLine(norm, ColumnOf(norm, lines, key), line, key))
    ensures AllTabulated(norm, keys, fields, warnings, lines + [line])
  {
    var all := lines + [line];
    assert all[..|all| - 1] == lines;
    forall key | key in Columns(norm, keys, all)
      ensures Tabulated(fields, warnings, key, Columns(norm, keys, all)[key])
    {
      assert ColumnOf(norm, all, key) == AddLine(norm, ColumnOf(norm, lines, key), line, key);
    }
  }

  lemma OtherFieldsTabulated(fields: map<Key, Field>, warnings: seq<Warning>, columns: map<Key, Column>, key: Key, field: Field)
    requires AllRows(fields, warnings, columns) && key !in columns
    ensures AllRows(fields[key := field], warnings, columns)
  {
    forall k | k in columns
      ensures Tabulated(fields[key := field], warnings, k, columns[k])
    {
      assert Tabulated(fields, warnings, k, columns[k]);
    }
  }

  /** Type, fields and warnings are those of these lines. */
  ghost predicate Scanned(norm: Normalizer, keys: set<Key>, documentType: DocumentType, fields: map<Key, Field>, warnings: seq<Warning>, lines: seq<Line>) {
    && Currency in fields && CurrencySummarizes(fields[Currency], lines)
    && TypeSummarizes(documentType, lines) && AllTabulated(norm, keys, fields, warnings, lines)
  }

  /** The body of the loop over the lines. */
  method ScanLine(norm: Normalizer, keys: set<Key>, documentType: DocumentType, fields: map<Key, Field>, warnings: seq<Warning>, line: Line, ghost before: seq<Line>)
    returns (documentType': DocumentType, fields': map<Key, Field>, warnings': seq<Warning>)
    requires keys <= PATTERNS && Currency !in keys && Scanned(norm, keys, documentType, fields, warnings, before)
    ensures fields'.Keys == fields.Keys && Scanned(norm, keys, documentType', fields', warnings', before + [line])
  {
    NextTypeSummarizes(documentType, before, line);
    NextCurrencySummarizes(fields[Currency], before, line);
    documentType' := NextType(documentType, line);
    fields', warnings' := ScanPatterns(norm, keys, fields, warnings, Columns(norm, keys, before), line);
    LineTabulated(norm, keys, fields', warnings', before, line);
    if Mentions(line) {
      var found := CurrencyField(line);
      OtherFieldsTabulated(fields', warnings', Columns(norm, keys, before + [line]), Currency, found);
      fields' := fields'[Currency := found];
    }
  }

  method ScanLines(norm: Normalizer, keys: set<Key>, fields: map<Key, Field>, lines: seq<Line>)
    returns (documentType: DocumentType, fields': map<Key, Field>, warnings: seq<Warning>)
    requires keys <= PATTERNS && Currency in fields && Currency !in keys && fields[Currency] == EMPTY_FIELD
    requires AllTabulated(norm, keys, fields, [], [])
    ensures fields'.Keys == fields.Keys && Scanned(norm, keys, documentType, fields', warnings, lines)
  {
    documentType, fields', warnings := Unknown, fields, [];
    for i := 0 to |lines|
      invariant fields'.Keys == fields.Keys && Scanned(norm, keys, documentType, fields', warnings, lines[..i])
    {
      assert lines[..i + 1] == lines[..i] + [lines[i]];
      documentType, fields', warnings := ScanLine(norm, keys, documentType, fields', warnings, lines[i], lines[..i]);
    }
    assert lines[..|lines|] == lines;
  }

  function NothingFound(): (fields: map<Key, Field>)
    ensures fields.Keys == KEYS
  {
    map key | key in KEYS :: EMPTY_FIELD
  }

  lemma NothingTabulated(norm: Normalizer)
    ensures AllTabulated(norm, PATTERNS, NothingFound(), [], [])
  {
    forall key | key in PATTERNS
      ensures Tabulated(NothingFound(), [], key, ColumnOf(norm, [], key))
    {
    }
  }

  lemma DraftComplete(norm: Normalizer, draft: Draft, fromLines: seq<Warning>, lines: seq<Line>)
    requires draft.fields.Keys == KEYS && TypeSummarizes(draft.documentType, lines) && CurrencySummarizes(draft.fields[Currency], lines)
    requires FieldsSummarize(norm, draft.fields, lines) && AreRaisedByLines(norm, fromLines, lines)
    requires AddRaisedByFields(fromLines, draft.warnings, draft.documentType, draft.fields)
    requires Consistent(draft.warnings)
    ensures IsDraftOf(norm, draft, lines)
  {
    forall w: Warning
      ensures w in draft.warnings <==> Raised(norm, w, draft, lines)
    {
      assert w in fromLines <==> RaisedByLines(norm, w, lines);
    }
  }

  /** Once all lines are tabulated, fields and warnings are what the lines determine. */
  lemma FieldIsSummary(norm: Normalizer, fields: map<Key, Field>, warnings: seq<Warning>, lines: seq<Line>, key: Key)
    requires key in PATTERNS && Tabulated(fields, warnings, key, ColumnOf(norm, lines, key))
    ensures key in fields && Summarizes(fields[key], Candidates(norm, lines, key))
  {
    ColumnSummarizes(norm, lines, key);
  }

  lemma WarningIsRaised(norm: Normalizer, fields: map<Key, Field>, warnings: seq<Warning>, lines: seq<Line>, w: Warning)
    requires Consistent(warnings) && LineCodesOnly(warnings)
    requires w.field in PATTERNS && Tabulated(fields, warnings, w.field, ColumnOf(norm, lines, w.field))
    ensures w in warnings <==> RaisedByLines(norm, w, lines)
  {
    ColumnSummarizes(norm, lines, w.field);
    assert w in warnings ==> w.blocker == Blocks(w.code);
  }

  lemma LineWarnings(norm: Normalizer, fields: map<Key, Field>, warnings: seq<Warning>, lines: seq<Line>)
    requires AllTabulated(norm, PATTERNS, fields, warnings, lines)
    ensures FieldsSummarize(norm, fields, lines) && AreRaisedByLines(norm, warnings, lines)
  {
    var columns := Columns(norm, PATTERNS, lines);
    forall key | key in PATTERNS
      ensures key in fields && Summarizes(fields[key], Candidates(norm, lines, key))
    {
      assert Tabulated(fields, warnings, key, columns[key]);
      FieldIsSummary(norm, fields, warnings, lines, key);
    }
    forall w: Warning
      ensures w in warnings <==> RaisedByLines(norm, w, lines)
    {
      if w.field in PATTERNS {
        assert Tabulated(fields, warnings, w.field, columns[w.field]);
        WarningIsRaised(norm, fields, warnings, lines, w);
      }
    }
  }

  /** All lines, from a draft in which nothing is found. */
  method ScanFromEmpty(norm: Normalizer, lines: seq<Line>) returns (documentType: DocumentType, fields: map<Key, Field>, warnings: seq<Warning>)
    ensures fields.Keys == KEYS && TypeSummarizes(documentType, lines) && CurrencySummarizes(fields[Currency], lines)
    ensures FieldsSummarize(norm, fields, lines) && AreRaisedByLines(norm, warnings, lines) && Consistent(warnings)
  {
    NothingTabulated(norm);
    documentType, fields, warnings := ScanLines(norm, PATTERNS, NothingFound(), lines);
    LineWarnings(norm, fields, warnings, lines);
  }

  /** The draft of a list of lines; `lines` are those of all pages, in order. */
  method Extract(norm: Normalizer, lines: seq<Line>) returns (draft: Draft)
    ensures IsDraftOf(norm, draft, lines)
  {
    var documentType, fields, fromLines := ScanFromEmpty(norm, lines);
    var warnings := WarnAboutFields(documentType, fields, fromLines);
    draft := Draft(documentType, fields, warnings);
    DraftComplete(norm, draft, fromLines, lines);
  }
}
