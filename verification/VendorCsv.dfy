/** The comma-separated form of a vendor list: the guard against formulas, and what importing an exported file gives back. */
module VendorCsv {
  import opened Common
  import opened Text
  import opened Spreadsheet
  import opened Vendors
  import opened VendorImport

  // ----- Formulas -----

  /** The characters that the guard skips. */
  predicate Skipped(c: char) {
    c == ' ' || c == '\t' || c == '\r' || c == '\n'
  }

  /** The characters that start a formula. */
  predicate Mark(c: char) {
    c == '=' || c == '+' || c == '-' || c == '@'
  }

  function SkipBlanks(s: string): (t: string)
    ensures t == "" || !Skipped(t[0])
  {
    if s != "" && Skipped(s[0]) then SkipBlanks(s[1..]) else s
  }

  /** `spreadsheetFormula`. */
  predicate Formula(value: string) {
    var rest := SkipBlanks(value);
    rest != "" && Mark(rest[0])
  }

  function Protected(value: string): string {
    if Formula(value) then "'" + value else value
  }

  /** The first characters are skipped. */
  ghost predicate SkippedUpTo(s: string, n: int) {
    forall i :: 0 <= i < |s| && i < n ==> Skipped(s[i])
  }

  /** The white space in front is made of skipped characters only. */
  ghost predicate PlainLead(s: string) {
    SkippedUpTo(s, |s| - |TrimLeft(s)|)
  }

  lemma RightTrimKeepsFirst(s: string)
    requires s != "" && !Space(s[0])
    ensures TrimRight(s) != "" && TrimRight(s)[0] == s[0]
  {
    StaysNonempty(s);
  }

  lemma {:induction false} FormulaIsMarkBehindPlainLead(s: string)
    ensures Formula(s) <==> PlainLead(s) && TrimLeft(s) != "" && Mark(TrimLeft(s)[0])
  {
    if s != "" && Skipped(s[0]) {
      FormulaIsMarkBehindPlainLead(s[1..]);
      LeadOfTail(s);
    } else if s != "" && Space(s[0]) {
      assert !Skipped(s[0]);
    }
  }

  lemma SkippedTail(s: string, n: nat)
    requires s != "" && Skipped(s[0])
    ensures SkippedUpTo(s, n + 1) <==> SkippedUpTo(s[1..], n)
  {
    if SkippedUpTo(s[1..], n) {
      forall i | 0 <= i < |s| && i < n + 1
        ensures Skipped(s[i])
      {
        assert i > 0 ==> s[i] == s[1..][i - 1];
      }
    }
  }

  lemma LeadOfTail(s: string)
    requires s != "" && Skipped(s[0])
    ensures TrimLeft(s) == TrimLeft(s[1..]) && (PlainLead(s) <==> PlainLead(s[1..]))
  {
    var rest := TrimLeft(s[1..]);
    assert TrimLeft(s) == rest;
    SkippedTail(s, |s[1..]| - |rest|);
  }

  lemma UnspacedFormula(s: string)
    requires s == "" || !Space(s[0])
    ensures Formula(s) <==> s != "" && Mark(s[0])
  {
    if s != "" {
      assert !Skipped(s[0]);
    }
  }

  lemma TrimmedFirst(s: string, t: string)
    requires t == TrimLeft(s)
    ensures TrimSpace(s) == TrimRight(t) && (t == "" ==> TrimRight(t) == "")
    ensures t != "" ==> TrimRight(t) != "" && TrimRight(t)[0] == t[0] && !Space(t[0])
  {
    if t != "" {
      RightTrimKeepsFirst(t);
    }
  }

  /** A cell is refused exactly when its trimmed text is a formula and no other white space stands in front of it. */
  lemma GuardSeesFormulaIff(cell: string)
    ensures Formula(cell) <==> Formula(TrimSpace(cell)) && PlainLead(cell)
  {
    FormulaIsMarkBehindPlainLead(cell);
    TrimmedFirst(cell, TrimLeft(cell));
    UnspacedFormula(TrimSpace(cell));
  }

  /** A formula behind any other white space, such as a no-break space, passes the guard and is trimmed to the formula. */
  lemma SpacedFormulaPasses(space: char, text: string)
    requires Space(space) && !Skipped(space) && Trimmed(text) && Formula(text)
    ensures !Formula([space] + text) && TrimSpace([space] + text) == text
  {
    var cell := [space] + text;
    assert cell[1..] == text;
    assert text != "" && TrimLeft(text) == text;
    assert TrimLeft(cell) == text;
  }

  // ----- Reading -----

  /** What the CSV reader returns: the fields of a record, or its error. */
  datatype Record = Fields(values: seq<string>) | Malformed

  predicate Admissible(cell: string) {
    CellFits(cell) && !Formula(cell)
  }

  predicate AllAdmissible(cells: seq<string>) {
    forall i :: 0 <= i < |cells| ==> Admissible(cells[i])
  }

  predicate Admitted(record: Record) {
    record.Fields? && |record.values| <= MAX_COLUMNS && AllAdmissible(record.values)
  }

  ghost predicate AllAdmitted(records: seq<Record>) {
    forall i :: 0 <= i < |records| ==> Admitted(records[i])
  }

  /** The records that are looked at. */
  function Looked(records: seq<Record>): seq<Record> {
    records[..Min(|records|, MAX_ROWS + 1)]
  }

  ghost predicate RowsOf(rows: seq<seq<string>>, records: seq<Record>) {
    |rows| == |records| && forall i :: 0 <= i < |rows| ==> records[i] == Fields(rows[i])
  }

  /** The loop of `parseCSV`. */
  method ReadRecords(records: seq<Record>) returns (rows: Option<seq<seq<string>>>)
    ensures rows.Some? <==> AllAdmitted(Looked(records))
    ensures rows.Some? ==> RowsOf(rows.value, Looked(records))
  {
    var read: seq<seq<string>> := [];
    while |read| <= MAX_ROWS
      invariant |read| <= Min(|records|, MAX_ROWS + 1)
      invariant RowsOf(read, records[..|read|]) && AllAdmitted(records[..|read|])
    {
      var at := |read|;
      if at == |records| {
        break;
      }
      if records[at].Malformed? || |records[at].values| > MAX_COLUMNS {
        assert Looked(records)[at] == records[at];
        return None;
      }
      var values := records[at].values;
      for i := 0 to |values|
        invariant forall j :: 0 <= j < i ==> Admissible(values[j])
      {
        if |values[i]| > MAX_CELL || '\0' in values[i] || Formula(values[i]) {
          assert !Admissible(values[i]);
          assert !Admitted(records[at]) && Looked(records)[at] == records[at];
          return None;
        }
      }
      assert records[..at + 1] == records[..at] + [records[at]];
      read := read + [values];
    }
    assert records[..|read|] == Looked(records);
    rows := Some(read);
  }

  function ValuesOf(records: seq<Record>): (rows: seq<seq<string>>)
    requires forall i :: 0 <= i < |records| ==> records[i].Fields?
    ensures RowsOf(rows, records)
  {
    seq(|records|, i requires 0 <= i < |records| => records[i].values)
  }

  /** What importing the file must return. */
  ghost function ImportedCsv(recognize: Recognizer, normalize: Normalizer, records: seq<Record>): Option<seq<Contact>> {
    if AllAdmitted(Looked(records)) then Imported(recognize, normalize, ValuesOf(Looked(records))) else None
  }

  /** `parseCSV`. */
  method ImportCsv(recognize: Recognizer, normalize: Normalizer, records: seq<Record>) returns (result: Option<seq<Contact>>)
    ensures result == ImportedCsv(recognize, normalize, records)
  {
    var rows := ReadRecords(records);
    if rows.None? {
      return None;
    }
    assert rows.value == ValuesOf(Looked(records));
    result := ImportRows(recognize, normalize, rows.value);
  }

  // ----- Writing -----

  function ProtectedRow(row: seq<string>): (protected: seq<string>)
    ensures |protected| == |row| && forall i :: 0 <= i < |row| ==> protected[i] == Protected(row[i])
  {
    seq(|row|, i requires 0 <= i < |row| => Protected(row[i]))
  }

  function CsvRows(entries: seq<Entry>): (rows: seq<seq<string>>)
    ensures |rows| == |entries| + 1 && rows[0] == HEADER
    ensures forall i :: 0 <= i < |entries| ==> rows[i + 1] == ProtectedRow(ExportRecord(entries[i]))
  {
    [HEADER] + seq(|entries|, i requires 0 <= i < |entries| => ProtectedRow(ExportRecord(entries[i])))
  }

  /** The protecting loop of `exportRecord`. */
  method ProtectRecord(record: seq<string>) returns (values: seq<string>)
    ensures values == ProtectedRow(record)
  {
    values := record;
    for index := 0 to |record|
      invariant |values| == |record|
      invariant forall i :: 0 <= i < |record| ==> values[i] == if i < index then Protected(record[i]) else record[i]
    {
      if Formula(record[index]) {
        values := values[index := "'" + record[index]];
      }
    }
  }

  /** The loop of `WriteCSV`. */
  method WriteRows(entries: seq<Entry>) returns (rows: seq<seq<string>>)
    ensures rows == CsvRows(entries)
  {
    rows := [HEADER];
    for i := 0 to |entries|
      invariant |rows| == i + 1 && rows[0] == HEADER
      invariant forall j :: 0 <= j < i ==> rows[j + 1] == ProtectedRow(ExportRecord(entries[j]))
    {
      var record := ProtectRecord(ExportRecord(entries[i]));
      rows := rows + [record];
    }
  }

  /** A field after writing and reading: the writer, set to end lines with CR LF, drops the carriage returns inside a field. */
  function Landed(field: string): string {
    Without(field, {'\r'})
  }

  function LandedRow(row: seq<string>): (landed: seq<string>)
    ensures |landed| == |row| && forall i :: 0 <= i < |row| ==> landed[i] == Landed(row[i])
  {
    seq(|row|, i requires 0 <= i < |row| => Landed(row[i]))
  }

  /** The records that the CSV reader finds in a written file. */
  function RecordsOf(rows: seq<seq<string>>): (records: seq<Record>)
    ensures |records| == |rows| && forall i :: 0 <= i < |rows| ==> records[i] == Fields(LandedRow(rows[i]))
  {
    seq(|rows|, i requires 0 <= i < |rows| => Fields(LandedRow(rows[i])))
  }

  // ----- Importing what was exported -----

  /** A field that comes back as it was. */
  predicate Clean(field: string) {
    '\r' !in field && !Formula(field)
  }

  predicate Writable(c: Contact) {
    Clean(c.displayName) && Clean(c.contactCode) && Clean(c.country) && Clean(c.taxId) && Clean(c.branchCode)
  }

  ghost predicate AllWritable(entries: seq<Entry>) {
    forall i :: 0 <= i < |entries| ==> Writable(entries[i].contact)
  }

  /** The identifiers leave room for the protective prefix. */
  ghost predicate ShortIds(entries: seq<Entry>) {
    forall i :: 0 <= i < |entries| ==> |entries[i].id| < MAX_CELL
  }

  /** Export, then import of the exported file. */
  ghost function ReimportedCsv(casing: Casing, entries: seq<Entry>): Option<seq<Contact>> {
    ImportedCsv(Recognizing(casing), Normalizing(casing), RecordsOf(CsvRows(entries)))
  }

  lemma {:induction false} LandedIsShorter(s: string)
    ensures |Landed(s)| <= |s| && (Landed(s) == s <==> '\r' !in s)
    ensures '\r' in s ==> |Landed(s)| < |s|
  {
    if s != "" {
      LandedIsShorter(s[1..]);
      assert s == [s[0]] + s[1..];
    }
  }

  lemma {:induction false} LandedIsFormulaIff(s: string)
    ensures Formula(Landed(s)) <==> Formula(s)
  {
    if s != "" && s[0] == '\r' {
      LandedIsFormulaIff(s[1..]);
    } else if s != "" && Skipped(s[0]) {
      LandedIsFormulaIff(s[1..]);
      assert Landed(s)[1..] == Landed(s[1..]);
    }
  }

  /** A protected field is never refused. */
  lemma ProtectedIsAdmissible(value: string)
    requires |value| < MAX_CELL && '\0' !in value
    ensures Admissible(Landed(Protected(value)))
  {
    var written := Protected(value);
    assert !Formula(written);
    LandedIsFormulaIff(written);
    LandedIsShorter(written);
  }

  function Returned(field: string): string {
    Landed(Protected(field))
  }

  /** What comes back of a formula starts with the prefix. */
  lemma ReturnedFormula(field: string)
    requires Formula(field)
    ensures Returned(field) != "" && Returned(field)[0] == '\'' && TrimSpace(Returned(field)) != "" && TrimSpace(Returned(field))[0] == '\''
  {
    var written := "'" + field;
    assert written[1..] == field;
    var read := Landed(written);
    assert read == "'" + Landed(field);
    RightTrimKeepsFirst(read);
  }

  lemma TrimmedFormulaStartsWithMark(field: string)
    requires Formula(field) && Trimmed(field)
    ensures Mark(field[0])
  {
  }

  lemma TrimmedFieldReturnsIff(field: string)
    requires Trimmed(field)
    ensures TrimSpace(Returned(field)) == field <==> Clean(field)
  {
    LandedIsShorter(field);
    if Formula(field) {
      ReturnedFormula(field);
      TrimmedFormulaStartsWithMark(field);
    }
  }

  lemma TaxIdReturnsIff(field: string)
    requires Compact(field)
    ensures WithoutGaps(TrimSpace(Returned(field))) == field <==> Clean(field)
  {
    CompactIsTrimmed(field);
    LandedIsShorter(field);
    if Formula(field) {
      ReturnedFormula(field);
      TrimmedFormulaStartsWithMark(field);
      assert !Gap('\'');
    }
  }

  lemma CompactIsTrimmed(field: string)
    requires Compact(field)
    ensures Trimmed(field) && '\r' !in field
  {
    assert field != "" ==> !Gap(field[0]) && !Gap(field[|field| - 1]);
    assert Gap('\r');
  }

  lemma TwoCharactersAtMost(country: string)
    requires Trimmed(country) && Bytes(country) == 2
    ensures 1 <= |country| <= 2 && '\r' !in country
  {
    BytesCoverCharacters(country);
    assert Space('\r') && country[0] != '\r' && country[|country| - 1] != '\r';
  }

  lemma CountryReturnsIff(casing: Casing, country: string)
    requires Trimmed(country) && Bytes(country) == 2 && Each(casing.upper, country) == country
    ensures Vendors.Country(casing, Returned(country)) == country <==> Clean(country)
  {
    TwoCharactersAtMost(country);
    LandedIsShorter(country);
    if Formula(country) {
      var read := "'" + country;
      LandedIsShorter(read);
      assert '\r' !in read;
      assert Trimmed(read);
      assert |Each(casing.upper, read)| == |country| + 1;
    }
  }

  lemma DigitsAreClean(s: string)
    requires s != "" && AllDigits(s)
    ensures Clean(s)
  {
    assert Digit(s[0]) && !Digit('\r');
  }

  lemma BranchOf(country: string, taxId: string, text: string, trimmed: string)
    requires trimmed == TrimSpace(text)
    ensures Branch(country, taxId, text) == trimmed
      || (trimmed == "" && country == "TH" && taxId != "" && AllDigits(Branch(country, taxId, text)) && Branch(country, taxId, text) != "")
  {
  }

  lemma BranchReturnsIff(country: string, taxId: string, branch: string)
    requires Trimmed(branch) && (country == "TH" && taxId != "" ==> branch != "")
    ensures Branch(country, taxId, Returned(branch)) == branch <==> Clean(branch)
  {
    var trimmed := TrimSpace(Returned(branch));
    TrimmedFieldReturnsIff(branch);
    BranchOf(country, taxId, Returned(branch), trimmed);
    if branch != "" && AllDigits(branch) {
      DigitsAreClean(branch);
    }
  }

  function ReturnedInput(c: Contact): Input {
    Input(Returned(c.displayName), Returned(c.contactCode), Returned(c.country), Returned(c.taxId), Returned(c.branchCode))
  }

  lemma CleanReturns(field: string)
    requires Clean(field)
    ensures Returned(field) == field
  {
    LandedIsShorter(field);
  }

  lemma ReturnedIsWritable(casing: Casing, c: Contact)
    requires Canonical(casing, c) && NormalizeVendor(casing, ReturnedInput(c)) == Some(c)
    ensures Writable(c)
  {
    FieldsOf(casing, ReturnedInput(c), c);
    TrimmedFieldReturnsIff(c.displayName);
    TrimmedFieldReturnsIff(c.contactCode);
    CountryReturnsIff(casing, c.country);
    TaxIdReturnsIff(c.taxId);
    BranchReturnsIff(c.country, c.taxId, c.branchCode);
  }

  /** A contact survives writing and reading exactly when none of its fields is a formula or holds a carriage return. */
  lemma ContactReturnsIff(casing: Casing, c: Contact)
    requires Canonical(casing, c)
    ensures NormalizeVendor(casing, ReturnedInput(c)) == Some(c) <==> Writable(c)
  {
    if Writable(c) {
      CleanReturns(c.displayName);
      CleanReturns(c.contactCode);
      CleanReturns(c.country);
      CleanReturns(c.taxId);
      CleanReturns(c.branchCode);
      CanonicalIsFixed(casing, c);
    } else if NormalizeVendor(casing, ReturnedInput(c)) == Some(c) {
      ReturnedIsWritable(casing, c);
    }
  }

  function ReturnedRow(e: Entry): seq<string> {
    LandedRow(ProtectedRow(ExportRecord(e)))
  }

  lemma InputOfReturnedRow(e: Entry)
    ensures RowInput(HEADER_NAMES, ReturnedRow(e)) == ReturnedInput(e.contact)
  {
    var row := ReturnedRow(e);
    HeaderCellAt(row, DisplayName, 1);
    HeaderCellAt(row, ContactCode, 2);
    HeaderCellAt(row, Column.Country, 3);
    HeaderCellAt(row, Column.TaxId, 4);
    HeaderCellAt(row, BranchCode, 5);
    var names := HEADER_NAMES;
    assert RowInput(names, row) == Input(row[1], row[2], row[3], row[4], row[5]);
  }

  lemma RolesAreShort(e: Entry)
    ensures |ExportRecord(e)[6]| < MAX_CELL && '\0' !in ExportRecord(e)[6]
  {
  }

  lemma CellOfRecordIsShort(casing: Casing, e: Entry, i: nat)
    requires Canonical(casing, e.contact) && CellFits(e.id) && |e.id| < MAX_CELL && i < 7
    ensures |ExportRecord(e)[i]| < MAX_CELL && '\0' !in ExportRecord(e)[i]
  {
    TwoCharactersAtMost(e.contact.country);
    RolesAreShort(e);
  }

  lemma ReturnedRowIsAdmitted(casing: Casing, e: Entry)
    requires Canonical(casing, e.contact) && CellFits(e.id) && |e.id| < MAX_CELL
    ensures Admitted(Fields(ReturnedRow(e)))
  {
    var row := ReturnedRow(e);
    forall i | 0 <= i < |row|
      ensures Admissible(row[i])
    {
      CellOfRecordIsShort(casing, e, i);
      ProtectedIsAdmissible(ExportRecord(e)[i]);
    }
  }

  lemma PlainNameIsAdmissible(s: string)
    requires PlainName(s) && CellFits(s)
    ensures Admissible(s) && Landed(s) == s
  {
    LandedIsShorter(s);
    assert 'a' <= s[0] <= 'z' || s[0] == '_';
  }

  lemma HeaderReturns()
    ensures LandedRow(HEADER) == HEADER && Admitted(Fields(HEADER))
  {
    var row := HEADER;
    forall i | 0 <= i < |row|
      ensures Admissible(row[i]) && Landed(row[i]) == row[i]
    {
      HeaderIsPlain(i);
      PlainNameIsAdmissible(row[i]);
    }
  }

  lemma PlainHeaderIsRecognized(casing: Casing)
    requires Lawful(casing)
    ensures Names(Recognizing(casing), HEADER) == HEADER_NAMES
  {
    var names := Names(Recognizing(casing), HEADER);
    forall i | 0 <= i < |names|
      ensures names[i] == HEADER_NAMES[i]
    {
      HeaderIsPlain(i);
      PlainNamesAreKept(casing, HEADER[i]);
      HeaderName(i);
    }
  }

  /** The entries whose records are looked at. */
  function Cut(entries: seq<Entry>): seq<Entry> {
    entries[..Min(|entries|, MAX_ROWS)]
  }

  lemma LookedAtCut(entries: seq<Entry>)
    ensures Looked(RecordsOf(CsvRows(entries))) == RecordsOf(CsvRows(Cut(entries)))
  {
  }

  lemma WrittenFileIsAdmitted(casing: Casing, entries: seq<Entry>)
    requires Stored(casing, entries) && ShortIds(entries)
    ensures AllAdmitted(RecordsOf(CsvRows(entries)))
  {
    var records := RecordsOf(CsvRows(entries));
    forall i | 0 <= i < |records|
      ensures Admitted(records[i])
    {
      if i == 0 {
        HeaderReturns();
      } else {
        assert records[i] == Fields(ReturnedRow(entries[i - 1]));
        ReturnedRowIsAdmitted(casing, entries[i - 1]);
      }
    }
  }

  lemma ReturnedRowsYieldIff(casing: Casing, entries: seq<Entry>, rows: seq<seq<string>>)
    requires Lawful(casing) && Stored(casing, entries)
    requires |rows| == |entries| && forall i :: 0 <= i < |rows| ==> rows[i] == ReturnedRow(entries[i])
    ensures Yields(Normalizing(casing), HEADER_NAMES, rows, Listed(entries)) <==> AllWritable(entries)
  {
    var contacts, normalize, names := Listed(entries), Normalizing(casing), HEADER_NAMES;
    forall i | 0 <= i < |rows|
      ensures normalize(RowInput(names, rows[i])) == Some(contacts[i]) <==> Writable(contacts[i])
    {
      InputOfReturnedRow(entries[i]);
      ContactReturnsIff(casing, contacts[i]);
    }
    EachRowYields(normalize, names, rows, contacts, Writable);
    assert forall i :: 0 <= i < |entries| ==> contacts[i] == entries[i].contact;
  }

  /** The rows below the header of a written file. */
  lemma WrittenValues(entries: seq<Entry>) returns (rows: seq<seq<string>>)
    ensures ValuesOf(RecordsOf(CsvRows(entries))) == [HEADER] + rows
    ensures |rows| == |entries| && forall i :: 0 <= i < |rows| ==> rows[i] == ReturnedRow(entries[i])
  {
    HeaderReturns();
    rows := seq(|entries|, i requires 0 <= i < |entries| => ReturnedRow(entries[i]));
  }

  lemma {:induction false} ContactsPerRow(normalize: Normalizer, names: seq<Option<Column>>, rows: seq<seq<string>>)
    ensures var contacts := Contacts(normalize, names, rows); contacts.Some? ==> |contacts.value| == |rows|
  {
    if rows != [] {
      ContactsPerRow(normalize, names, rows[..|rows| - 1]);
    }
  }

  lemma FileImport(casing: Casing, records: seq<Record>, rows: seq<seq<string>>)
    requires Lawful(casing) && AllAdmitted(Looked(records)) && ValuesOf(Looked(records)) == [HEADER] + rows && |rows| <= MAX_ROWS
    ensures ImportedCsv(Recognizing(casing), Normalizing(casing), records)
      == if rows == [] then None else Contacts(Normalizing(casing), HEADER_NAMES, rows)
  {
    PlainHeaderIsRecognized(casing);
    HeaderIsUnambiguous();
    assert ([HEADER] + rows)[1..] == rows && ([HEADER] + rows)[0] == HEADER;
  }

  lemma ReimportIs(casing: Casing, entries: seq<Entry>) returns (rows: seq<seq<string>>)
    requires Lawful(casing) && Stored(casing, entries) && ShortIds(entries)
    ensures |rows| == |Cut(entries)| && forall i :: 0 <= i < |rows| ==> rows[i] == ReturnedRow(Cut(entries)[i])
    ensures ReimportedCsv(casing, entries) == if rows == [] then None else Contacts(Normalizing(casing), HEADER_NAMES, rows)
  {
    var cut := Cut(entries);
    LookedAtCut(entries);
    WrittenFileIsAdmitted(casing, cut);
    rows := WrittenValues(cut);
    FileImport(casing, RecordsOf(CsvRows(entries)), rows);
  }

  lemma RowsGiveIff(casing: Casing, entries: seq<Entry>, rows: seq<seq<string>>)
    requires Lawful(casing) && Stored(casing, entries)
    requires |rows| == |entries| && forall i :: 0 <= i < |rows| ==> rows[i] == ReturnedRow(entries[i])
    ensures Contacts(Normalizing(casing), HEADER_NAMES, rows) == Some(Listed(entries)) <==> AllWritable(entries)
  {
    ContactsIff(Normalizing(casing), HEADER_NAMES, rows, Listed(entries));
    ReturnedRowsYieldIff(casing, entries, rows);
  }

  /** Importing an exported file gives the contacts of its first ten thousand entries exactly when all their fields come back. */
  lemma CsvImportGivesCutIff(casing: Casing, entries: seq<Entry>)
    requires Lawful(casing) && Stored(casing, entries) && ShortIds(entries)
    ensures ReimportedCsv(casing, entries) == Some(Listed(Cut(entries))) <==> entries != [] && AllWritable(Cut(entries))
  {
    var rows := ReimportIs(casing, entries);
    RowsGiveIff(casing, Cut(entries), rows);
  }

  /**
   Importing an exported file gives back its contacts exactly when it has between one and
   ten thousand of them and no field is a formula or holds a carriage return.
   */
  lemma CsvRoundTripIff(casing: Casing, entries: seq<Entry>)
    requires Lawful(casing) && Stored(casing, entries) && ShortIds(entries)
    ensures ReimportedCsv(casing, entries) == Some(Listed(entries)) <==> 1 <= |entries| <= MAX_ROWS && AllWritable(entries)
  {
    if |entries| <= MAX_ROWS {
      assert Cut(entries) == entries;
      CsvImportGivesCutIff(casing, entries);
    } else {
      var rows := ReimportIs(casing, entries);
      ContactsPerRow(Normalizing(casing), HEADER_NAMES, rows);
    }
  }

  /** A longer file is cut without a word, where the longer sheet is refused. */
  lemma LongFileIsCut(casing: Casing, entries: seq<Entry>)
    requires Lawful(casing) && Stored(casing, entries) && ShortIds(entries)
    requires |entries| > MAX_ROWS && AllWritable(Cut(entries))
    ensures ReimportedCsv(casing, entries) == Some(Listed(entries[..MAX_ROWS]))
    ensures Reimported(casing, entries) == None
  {
    CsvImportGivesCutIff(casing, entries);
    GridFits(casing, entries);
    SheetReadsBack(Grid(entries));
  }
}
