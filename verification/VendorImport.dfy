/** The rows of an imported vendor list, and what importing an exported list gives back. */
module VendorImport {
  import opened Common
  import opened Text
  import opened Spreadsheet
  import opened Vendors

  datatype Column = DisplayName | ContactCode | Country | TaxId | BranchCode

  /** The column that a trimmed, lower-case header names. */
  function Recognized(key: string): Option<Column> {
    if key in ["display_name", "name", "\U{E0A}\U{E37}\U{E48}\U{E2D}", "\U{E0A}\U{E37}\U{E48}\U{E2D}\U{E17}\U{E35}\U{E48}\U{E41}\U{E2A}\U{E14}\U{E07}"] then Some(DisplayName)
    else if key in ["contact_code", "\U{E23}\U{E2B}\U{E31}\U{E2A}\U{E04}\U{E39}\U{E48}\U{E04}\U{E49}\U{E32}"] then Some(ContactCode)
    else if key in ["country", "\U{E1B}\U{E23}\U{E30}\U{E40}\U{E17}\U{E28}"] then Some(Country)
    else if key in ["tax_id", "\U{E40}\U{E25}\U{E02}\U{E1B}\U{E23}\U{E30}\U{E08}\U{E33}\U{E15}\U{E31}\U{E27}\U{E1C}\U{E39}\U{E49}\U{E40}\U{E2A}\U{E35}\U{E22}\U{E20}\U{E32}\U{E29}\U{E35}"] then Some(TaxId)
    else if key in ["branch_code", "\U{E23}\U{E2B}\U{E31}\U{E2A}\U{E2A}\U{E32}\U{E02}\U{E32}"] then Some(BranchCode)
    else None
  }

  function ColumnOf(casing: Casing, header: string): Option<Column> {
    Recognized(Each(casing.lower, TrimSpace(header)))
  }

  /** How headers are recognized and rows are normalized. */
  type Recognizer = string -> Option<Column>
  type Normalizer = Input -> Option<Contact>

  function Recognizing(casing: Casing): Recognizer {
    header => ColumnOf(casing, header)
  }

  function Normalizing(casing: Casing): Normalizer {
    input => NormalizeVendor(casing, input)
  }

  /** No two headers name the same column. */
  ghost predicate Unambiguous(names: seq<Option<Column>>) {
    forall i, j :: 0 <= i < j < |names| && names[i].Some? ==> names[i] != names[j]
  }

  function Names(recognize: Recognizer, headers: seq<string>): (names: seq<Option<Column>>)
    ensures |names| == |headers| && forall i :: 0 <= i < |names| ==> names[i] == recognize(headers[i])
  {
    seq(|headers|, i requires 0 <= i < |headers| => recognize(headers[i]))
  }

  /** The first position with this name. */
  function Position(names: seq<Option<Column>>, column: Column): (index: Option<nat>)
    ensures index.None? <==> Some(column) !in names
    ensures index.Some? ==> index.value < |names| && names[index.value] == Some(column)
  {
    if names == [] then None
    else if names[0] == Some(column) then Some(0)
    else match Position(names[1..], column) { case None => None case Some(i) => Some(i + 1) }
  }

  ghost predicate Locates(columns: map<Column, nat>, names: seq<Option<Column>>) {
    && (forall column :: column in columns ==> columns[column] < |names| && names[columns[column]] == Some(column))
    && (forall i :: 0 <= i < |names| && names[i].Some? ==> names[i].value in columns && columns[names[i].value] == i)
  }

  method FindColumns(recognize: Recognizer, headers: seq<string>) returns (columns: Option<map<Column, nat>>)
    ensures columns.Some? <==> Unambiguous(Names(recognize, headers))
    ensures columns.Some? ==> Locates(columns.value, Names(recognize, headers))
  {
    ghost var names := Names(recognize, headers);
    var found: map<Column, nat> := map[];
    for index := 0 to |headers|
      invariant Unambiguous(names[..index]) && Locates(found, names[..index])
    {
      var column := recognize(headers[index]);
      assert names[index] == column && forall i :: 0 <= i < index ==> names[..index + 1][i] == names[..index][i];
      if column.Some? {
        if column.value in found {
          assert names[..index][found[column.value]] == column;
          return None;
        }
        found := found[column.value := index];
      }
    }
    assert names[..|headers|] == names;
    columns := Some(found);
  }

  function Cell(names: seq<Option<Column>>, row: seq<string>, column: Column): string {
    var index := Position(names, column);
    if index.Some? && index.value < |row| then row[index.value] else ""
  }

  function RowInput(names: seq<Option<Column>>, row: seq<string>): Input {
    Input(Cell(names, row, DisplayName), Cell(names, row, ContactCode), Cell(names, row, Country),
          Cell(names, row, TaxId), Cell(names, row, BranchCode))
  }

  /** The contacts of the rows below the header; none if one of them is refused. */
  function Contacts(normalize: Normalizer, names: seq<Option<Column>>, rows: seq<seq<string>>): Option<seq<Contact>> {
    if rows == [] then Some([])
    else
      var init := Contacts(normalize, names, rows[..|rows| - 1]);
      var last := normalize(RowInput(names, rows[|rows| - 1]));
      if init.None? || last.None? then None else Some(init.value + [last.value])
  }

  /** What an import must return. */
  ghost function Imported(recognize: Recognizer, normalize: Normalizer, rows: seq<seq<string>>): Option<seq<Contact>> {
    if |rows| < 2 || |rows| > MAX_ROWS + 1 then None
    else
      var names := Names(recognize, rows[0]);
      if !Unambiguous(names) || Some(DisplayName) !in names then None else Contacts(normalize, names, rows[1..])
  }

  lemma PositionIsLocated(columns: map<Column, nat>, names: seq<Option<Column>>, column: Column)
    requires Locates(columns, names)
    ensures Position(names, column) == if column in columns then Some(columns[column]) else None
  {
    var index := Position(names, column);
    if column in columns {
      assert names[columns[column]] in names;
    }
  }

  method CellOf(columns: map<Column, nat>, row: seq<string>, column: Column, ghost names: seq<Option<Column>>) returns (text: string)
    requires Locates(columns, names)
    ensures text == Cell(names, row, column)
  {
    PositionIsLocated(columns, names, column);
    if column !in columns || columns[column] >= |row| {
      return "";
    }
    text := row[columns[column]];
  }

  lemma {:induction false} RefusedRowRefusesAll(normalize: Normalizer, names: seq<Option<Column>>, rows: seq<seq<string>>, i: nat)
    requires i < |rows| && Contacts(normalize, names, rows[..i + 1]).None?
    ensures Contacts(normalize, names, rows).None?
    decreases |rows|
  {
    if i + 1 < |rows| {
      var init := rows[..|rows| - 1];
      assert init[..i + 1] == rows[..i + 1];
      RefusedRowRefusesAll(normalize, names, init, i);
    } else {
      assert rows[..i + 1] == rows;
    }
  }

  method InputOfRow(columns: map<Column, nat>, row: seq<string>, ghost names: seq<Option<Column>>) returns (input: Input)
    requires Locates(columns, names)
    ensures input == RowInput(names, row)
  {
    var name := CellOf(columns, row, DisplayName, names);
    var code := CellOf(columns, row, ContactCode, names);
    var country := CellOf(columns, row, Country, names);
    var taxId := CellOf(columns, row, TaxId, names);
    var branch := CellOf(columns, row, BranchCode, names);
    input := Input(name, code, country, taxId, branch);
  }

  method ImportBody(normalize: Normalizer, columns: map<Column, nat>, rows: seq<seq<string>>, ghost names: seq<Option<Column>>)
    returns (result: Option<seq<Contact>>)
    requires Locates(columns, names)
    ensures result == Contacts(normalize, names, rows)
  {
    var contacts: seq<Contact> := [];
    for i := 0 to |rows|
      invariant Contacts(normalize, names, rows[..i]) == Some(contacts)
    {
      assert rows[..i + 1][..i] == rows[..i];
      var input := InputOfRow(columns, rows[i], names);
      var contact := normalize(input);
      if contact.None? {
        RefusedRowRefusesAll(normalize, names, rows, i);
        return None;
      }
      contacts := contacts + [contact.value];
    }
    assert rows[..|rows|] == rows;
    result := Some(contacts);
  }

  /** `importRows`. */
  method ImportRows(recognize: Recognizer, normalize: Normalizer, rows: seq<seq<string>>) returns (result: Option<seq<Contact>>)
    ensures result == Imported(recognize, normalize, rows)
  {
    if |rows| < 2 || |rows| > MAX_ROWS + 1 {
      return None;
    }
    var columns := FindColumns(recognize, rows[0]);
    if columns.None? {
      return None;
    }
    ghost var names := Names(recognize, rows[0]);
    PositionIsLocated(columns.value, names, DisplayName);
    if DisplayName !in columns.value {
      return None;
    }
    result := ImportBody(normalize, columns.value, rows[1..], names);
  }

  // ----- Importing what was exported -----

  /** A row of the exported list; `id` and `customer` are written but not read back. */
  datatype Entry = Entry(id: string, contact: Contact, customer: bool)

  const HEADER := ["vendor_id", "display_name", "contact_code", "country", "tax_id", "branch_code", "roles"]

  const HEADER_NAMES: seq<Option<Column>> :=
    [None, Some(DisplayName), Some(ContactCode), Some(Country), Some(TaxId), Some(BranchCode), None]

  function ExportRecord(e: Entry): seq<string> {
    [e.id, e.contact.displayName, e.contact.contactCode, e.contact.country, e.contact.taxId, e.contact.branchCode,
     if e.customer then "Customer,Vendor" else "Vendor"]
  }

  function Grid(entries: seq<Entry>): (rows: seq<seq<string>>)
    ensures |rows| == |entries| + 1 && rows[0] == HEADER
    ensures forall i :: 0 <= i < |entries| ==> rows[i + 1] == ExportRecord(entries[i])
  {
    [HEADER] + seq(|entries|, i requires 0 <= i < |entries| => ExportRecord(entries[i]))
  }

  predicate PlainName(s: string) {
    s != "" && forall i :: 0 <= i < |s| ==> 'a' <= s[i] <= 'z' || s[i] == '_'
  }

  lemma PlainNamesAreKept(casing: Casing, s: string)
    requires Lawful(casing) && PlainName(s)
    ensures ColumnOf(casing, s) == Recognized(s)
  {
    assert TrimSpace(s) == s;
    assert Each(casing.lower, s) == s;
  }

  lemma HeaderIsPlain(i: nat)
    requires i < |HEADER|
    ensures PlainName(HEADER[i]) && CellFits(HEADER[i])
  {
  }

  lemma HeaderName(i: nat)
    requires i < |HEADER|
    ensures Recognized(HEADER[i]) == HEADER_NAMES[i]
  {
  }

  lemma PlainNamesAreXml(s: string)
    requires PlainName(s)
    ensures Escaped(s) == s
  {
  }

  lemma HeaderCell(casing: Casing, i: nat)
    requires Lawful(casing) && i < |HEADER|
    ensures Recognizing(casing)(Escaped(HEADER[i])) == HEADER_NAMES[i]
  {
    HeaderIsPlain(i);
    PlainNamesAreXml(HEADER[i]);
    PlainNamesAreKept(casing, HEADER[i]);
    HeaderName(i);
  }

  lemma HeaderIsRecognized(casing: Casing)
    requires Lawful(casing)
    ensures Names(Recognizing(casing), EscapedRow(HEADER)) == HEADER_NAMES
  {
    var names := Names(Recognizing(casing), EscapedRow(HEADER));
    forall i | 0 <= i < |names|
      ensures names[i] == HEADER_NAMES[i]
    {
      HeaderCell(casing, i);
    }
  }

  /** All five imported fields are text that XML can hold. */
  predicate Representable(c: Contact) {
    XmlText(c.displayName) && XmlText(c.contactCode) && XmlText(c.country) && XmlText(c.taxId) && XmlText(c.branchCode)
  }

  function EscapedInput(c: Contact): Input {
    Input(Escaped(c.displayName), Escaped(c.contactCode), Escaped(c.country), Escaped(c.taxId), Escaped(c.branchCode))
  }

  lemma OnlyPosition(names: seq<Option<Column>>, column: Column, i: nat)
    requires Unambiguous(names) && i < |names| && names[i] == Some(column)
    ensures Position(names, column) == Some(i)
  {
    var index := Position(names, column);
    assert names[i] in names;
  }

  lemma HeaderIsUnambiguous()
    ensures Unambiguous(HEADER_NAMES) && Some(DisplayName) in HEADER_NAMES
  {
    assert HEADER_NAMES[1] == Some(DisplayName);
  }

  lemma HeaderCellAt(row: seq<string>, column: Column, i: nat)
    requires i < |HEADER_NAMES| && HEADER_NAMES[i] == Some(column)
    requires |row| == |HEADER_NAMES|
    ensures Cell(HEADER_NAMES, row, column) == row[i]
  {
    HeaderIsUnambiguous();
    OnlyPosition(HEADER_NAMES, column, i);
  }

  lemma RowOfRecord(e: Entry)
    ensures RowInput(HEADER_NAMES, EscapedRow(ExportRecord(e))) == EscapedInput(e.contact)
  {
    var row := EscapedRow(ExportRecord(e));
    HeaderCellAt(row, DisplayName, 1);
    HeaderCellAt(row, ContactCode, 2);
    HeaderCellAt(row, Country, 3);
    HeaderCellAt(row, TaxId, 4);
    HeaderCellAt(row, BranchCode, 5);
    var names := HEADER_NAMES;
    assert RowInput(names, row) == Input(row[1], row[2], row[3], row[4], row[5]);
  }

  lemma EscapedKeepsTrimmed(s: string)
    requires Trimmed(s)
    ensures Trimmed(Escaped(s)) && TrimSpace(Escaped(s)) == Escaped(s)
  {
  }

  lemma EscapedTaxId(s: string)
    requires Compact(s)
    ensures WithoutGaps(TrimSpace(Escaped(s))) == Escaped(s)
  {
    TrimTaxId(Escaped(s));
  }

  lemma EscapedCountry(casing: Casing, country: string)
    requires Lawful(casing) && Trimmed(country) && country != "" && Each(casing.upper, country) == country
    requires Vendors.Country(casing, Escaped(country)) == country
    ensures XmlText(country)
  {
    EscapedKeepsTrimmed(country);
    var read := Each(casing.upper, Escaped(country));
    forall i | 0 <= i < |country|
      ensures XmlChar(country[i])
    {
      assert read[i] == casing.upper(Written(country[i]));
    }
  }

  lemma EscapedBranch(country: string, taxId: string, branch: string)
    requires Trimmed(branch) && Branch(country, taxId, Escaped(branch)) == branch
    ensures XmlText(branch)
  {
    if branch != "" {
      var read := Escaped(branch);
      EscapedStaysTrimmed(branch);
      BranchOfTrimmed(country, taxId, read);
      EscapedIsSameIff(branch);
    }
  }

  lemma EscapedStaysTrimmed(s: string)
    requires Trimmed(s)
    ensures Trimmed(Escaped(s))
  {
  }

  /** A contact survives writing and reading exactly when all of its text can be written. */
  lemma ContactSurvivesIff(casing: Casing, c: Contact)
    requires Lawful(casing) && Canonical(casing, c)
    ensures NormalizeVendor(casing, EscapedInput(c)) == Some(c) <==> Representable(c)
  {
    if Representable(c) {
      EscapedIsSameIff(c.displayName);
      EscapedIsSameIff(c.contactCode);
      EscapedIsSameIff(c.country);
      EscapedIsSameIff(c.taxId);
      EscapedIsSameIff(c.branchCode);
      CanonicalIsFixed(casing, c);
    } else if NormalizeVendor(casing, EscapedInput(c)) == Some(c) {
      SurvivorIsRepresentable(casing, c);
    }
  }

  lemma TextSurvives(s: string)
    requires Trimmed(s) && TrimSpace(Escaped(s)) == s
    ensures XmlText(s)
  {
    EscapedKeepsTrimmed(s);
    EscapedIsSameIff(s);
  }

  lemma TaxIdSurvives(s: string)
    requires Compact(s) && WithoutGaps(TrimSpace(Escaped(s))) == s
    ensures XmlText(s)
  {
    EscapedTaxId(s);
    EscapedIsSameIff(s);
  }

  /** The normalized fields of an accepted input, one by one. */
  lemma FieldsOf(casing: Casing, input: Input, c: Contact)
    requires NormalizeVendor(casing, input) == Some(c)
    ensures c.displayName == TrimSpace(input.displayName) && c.contactCode == TrimSpace(input.contactCode)
    ensures c.country == Vendors.Country(casing, input.country) && c.taxId == WithoutGaps(TrimSpace(input.taxId))
    ensures c.branchCode == Branch(c.country, c.taxId, input.branchCode)
  {
  }

  lemma SurvivorIsRepresentable(casing: Casing, c: Contact)
    requires Lawful(casing) && Canonical(casing, c) && NormalizeVendor(casing, EscapedInput(c)) == Some(c)
    ensures Representable(c)
  {
    FieldsOf(casing, EscapedInput(c), c);
    TextSurvives(c.displayName);
    TextSurvives(c.contactCode);
    TaxIdSurvives(c.taxId);
    EscapedCountry(casing, c.country);
    EscapedBranch(c.country, c.taxId, c.branchCode);
  }

  ghost predicate Yields(normalize: Normalizer, names: seq<Option<Column>>, rows: seq<seq<string>>, contacts: seq<Contact>) {
    |rows| == |contacts| && forall i :: 0 <= i < |rows| ==> normalize(RowInput(names, rows[i])) == Some(contacts[i])
  }

  lemma {:induction false} ContactsIff(normalize: Normalizer, names: seq<Option<Column>>, rows: seq<seq<string>>, contacts: seq<Contact>)
    requires |rows| == |contacts|
    ensures Contacts(normalize, names, rows) == Some(contacts) <==> Yields(normalize, names, rows, contacts)
  {
    if rows != [] {
      var front, last := rows[..|rows| - 1], rows[|rows| - 1];
      ContactsIff(normalize, names, front, contacts[..|rows| - 1]);
      assert contacts == contacts[..|rows| - 1] + [contacts[|rows| - 1]];
    }
  }

  lemma RecordFits(casing: Casing, e: Entry)
    requires Canonical(casing, e.contact) && CellFits(e.id)
    ensures RowFits(ExportRecord(e))
  {
    var row := ExportRecord(e);
    BytesCoverCharacters(e.contact.country);
    assert CellFits(row[1]) && CellFits(row[2]) && CellFits(row[3]) && CellFits(row[4]) && CellFits(row[5]);
    assert CellFits("Customer,Vendor") && CellFits("Vendor");
  }

  lemma HeaderFits()
    ensures RowFits(HEADER)
  {
    forall i | 0 <= i < |HEADER|
      ensures CellFits(HEADER[i])
    {
      HeaderIsPlain(i);
    }
  }

  function Listed(entries: seq<Entry>): (contacts: seq<Contact>)
    ensures |contacts| == |entries| && forall i :: 0 <= i < |entries| ==> contacts[i] == entries[i].contact
  {
    seq(|entries|, i requires 0 <= i < |entries| => entries[i].contact)
  }

  ghost predicate Stored(casing: Casing, entries: seq<Entry>) {
    forall i :: 0 <= i < |entries| ==> Canonical(casing, entries[i].contact) && CellFits(entries[i].id)
  }

  ghost predicate AllRepresentable(entries: seq<Entry>) {
    forall i :: 0 <= i < |entries| ==> Representable(entries[i].contact)
  }

  /** Export, then import of the exported sheet. */
  ghost function Reimported(casing: Casing, entries: seq<Entry>): Option<seq<Contact>> {
    match Read([], SheetTokens(Grid(entries)))
    case None => None
    case Some(rows) => Imported(Recognizing(casing), Normalizing(casing), rows)
  }

  lemma GridFits(casing: Casing, entries: seq<Entry>)
    requires Stored(casing, entries)
    ensures SheetFits(Grid(entries))
  {
    var rows := Grid(entries);
    forall i | 0 <= i < |rows|
      ensures RowFits(rows[i])
    {
      if i == 0 {
        HeaderFits();
      } else {
        assert rows[i] == ExportRecord(entries[i - 1]);
        RecordFits(casing, entries[i - 1]);
      }
    }
  }

  lemma RowYieldsIff(casing: Casing, entries: seq<Entry>, i: nat)
    requires Lawful(casing) && Stored(casing, entries) && i < |entries|
    ensures Normalizing(casing)(RowInput(HEADER_NAMES, EscapedSheet(Grid(entries))[i + 1])) == Some(entries[i].contact)
      <==> Representable(entries[i].contact)
  {
    RowOfRecord(entries[i]);
    ContactSurvivesIff(casing, entries[i].contact);
  }

  lemma EachRowYields(normalize: Normalizer, names: seq<Option<Column>>, rows: seq<seq<string>>, contacts: seq<Contact>, good: Contact -> bool)
    requires |rows| == |contacts|
    requires forall i :: 0 <= i < |rows| ==> (normalize(RowInput(names, rows[i])) == Some(contacts[i]) <==> good(contacts[i]))
    ensures Yields(normalize, names, rows, contacts) <==> forall i :: 0 <= i < |contacts| ==> good(contacts[i])
  {
  }

  lemma RowsYieldIff(casing: Casing, entries: seq<Entry>)
    requires Lawful(casing) && Stored(casing, entries)
    ensures Yields(Normalizing(casing), HEADER_NAMES, EscapedSheet(Grid(entries))[1..], Listed(entries)) <==> AllRepresentable(entries)
  {
    var rows, contacts := EscapedSheet(Grid(entries))[1..], Listed(entries);
    var normalize, names := Normalizing(casing), HEADER_NAMES;
    forall i | 0 <= i < |rows|
      ensures normalize(RowInput(names, rows[i])) == Some(contacts[i]) <==> Representable(contacts[i])
    {
      RowYieldsIff(casing, entries, i);
    }
    EachRowYields(normalize, names, rows, contacts, Representable);
    AllRepresentableIs(entries);
  }

  lemma AllRepresentableIs(entries: seq<Entry>)
    ensures AllRepresentable(entries) <==> forall i :: 0 <= i < |Listed(entries)| ==> Representable(Listed(entries)[i])
  {
    if forall i :: 0 <= i < |Listed(entries)| ==> Representable(Listed(entries)[i]) {
      forall i | 0 <= i < |entries|
        ensures Representable(entries[i].contact)
      {
        assert Representable(Listed(entries)[i]);
      }
    }
  }

  lemma SheetImport(casing: Casing, rows: seq<seq<string>>)
    requires Lawful(casing) && 2 <= |rows| <= MAX_ROWS + 1 && rows[0] == EscapedRow(HEADER)
    ensures Imported(Recognizing(casing), Normalizing(casing), rows) == Contacts(Normalizing(casing), HEADER_NAMES, rows[1..])
  {
    HeaderIsRecognized(casing);
    HeaderIsUnambiguous();
  }

  lemma SheetRowsGiveIff(casing: Casing, entries: seq<Entry>, rows: seq<seq<string>>)
    requires Lawful(casing) && Stored(casing, entries) && rows == EscapedSheet(Grid(entries))[1..]
    ensures Contacts(Normalizing(casing), HEADER_NAMES, rows) == Some(Listed(entries)) <==> AllRepresentable(entries)
  {
    ContactsIff(Normalizing(casing), HEADER_NAMES, rows, Listed(entries));
    RowsYieldIff(casing, entries);
  }

  lemma SheetReimported(casing: Casing, entries: seq<Entry>, rows: seq<seq<string>>)
    requires Stored(casing, entries) && rows == EscapedSheet(Grid(entries))
    ensures Reimported(casing, entries)
      == if |rows| > MAX_ROWS + 1 then None else Imported(Recognizing(casing), Normalizing(casing), rows)
  {
    GridFits(casing, entries);
    SheetReadsBack(Grid(entries));
  }

  lemma NothingToImport(casing: Casing, rows: seq<seq<string>>)
    requires |rows| < 2
    ensures Imported(Recognizing(casing), Normalizing(casing), rows) == None
  {
  }

  lemma ImportedIff(casing: Casing, entries: seq<Entry>, rows: seq<seq<string>>)
    requires Lawful(casing) && Stored(casing, entries) && rows == EscapedSheet(Grid(entries)) && 2 <= |rows| <= MAX_ROWS + 1
    ensures Imported(Recognizing(casing), Normalizing(casing), rows) == Some(Listed(entries)) <==> AllRepresentable(entries)
  {
    assert rows[0] == EscapedRow(HEADER);
    SheetImport(casing, rows);
    SheetRowsGiveIff(casing, entries, rows[1..]);
  }

  /**
   Importing an exported list gives back its contacts exactly when the list has
   between one and ten thousand entries and all of its text can be written.
   */
  lemma ExportRoundTripIff(casing: Casing, entries: seq<Entry>)
    requires Lawful(casing) && Stored(casing, entries)
    ensures Reimported(casing, entries) == Some(Listed(entries)) <==> 1 <= |entries| <= MAX_ROWS && AllRepresentable(entries)
  {
    var rows := EscapedSheet(Grid(entries));
    SheetReimported(casing, entries, rows);
    if |rows| < 2 {
      NothingToImport(casing, rows);
    } else if |rows| <= MAX_ROWS + 1 {
      ImportedIff(casing, entries, rows);
    }
  }

  lemma OneEntryIsLost(casing: Casing, e: Entry)
    requires Lawful(casing) && Canonical(casing, e.contact) && CellFits(e.id) && !Representable(e.contact)
    ensures Stored(casing, [e]) && Reimported(casing, [e]) != Some(Listed([e]))
  {
    var entries := [e];
    assert entries[0] == e;
    ExportRoundTripIff(casing, entries);
  }

  /** A vertical tab inside a name is enough to lose it. */
  lemma VerticalTabIsLost(casing: Casing) returns (e: Entry)
    requires Lawful(casing)
    ensures e.contact.displayName == "a\U{B}b" && Stored(casing, [e]) && Reimported(casing, [e]) != Some(Listed([e]))
  {
    var name := "a\U{B}b";
    e := Entry("1", Contact(name, Each(casing.lower, name), "", "TH", "", ""), false);
    assert !XmlChar(name[1]);
    assert Each(casing.upper, "TH") == "TH";
    assert Canonical(casing, e.contact);
    OneEntryIsLost(casing, e);
  }
}
