/**
 Export and import of vendor lists as a worksheet: column names, the cells of a
 sheet as a token stream, and the rows of an import.

 The ZIP container, the XML syntax and the byte limits of a file are not
 modelled: a sheet is the stream of tokens that its XML stands for, and escaping
 is what a text looks like after it has been written and decoded again.
 */
module Spreadsheet {
  import opened Common
  import opened Text
  import opened Vendors

  const MAX_ROWS := 10000
  const MAX_COLUMNS := 50
  const MAX_CELL := 10000

  // ----- Column names: bijective base 26 -----

  predicate Letter(c: char) {
    'A' <= c <= 'Z'
  }

  predicate Letters(s: string) {
    forall i :: 0 <= i < |s| ==> Letter(s[i])
  }

  function LetterOf(n: nat): (c: char)
    requires n < 26
    ensures Letter(c) && c as int - 'A' as int == n
  {
    ('A' as int + n) as char
  }

  /** The name of the column with this index; -1 stands for no name at all. */
  function ColumnName(index: int): (name: string)
    requires index >= -1
    ensures Letters(name) && (index >= 0 ==> name != "")
    decreases index
  {
    if index < 0 then "" else ColumnName(index / 26 - 1) + [LetterOf(index % 26)]
  }

  /** The number that letters stand for: A is 1, Z is 26, AA is 27. */
  function Value(letters: string): nat
    requires Letters(letters)
  {
    if letters == "" then 0
    else Value(letters[..|letters| - 1]) * 26 + (letters[|letters| - 1] as int - 'A' as int + 1)
  }

  lemma {:induction false} ValueOfColumnName(index: int)
    requires index >= -1
    ensures Value(ColumnName(index)) == index + 1
    decreases index
  {
    if index >= 0 {
      ValueOfColumnName(index / 26 - 1);
      var front := ColumnName(index / 26 - 1);
      assert ColumnName(index)[..|front|] == front;
    }
  }

  lemma {:induction false} ColumnNameOfValue(letters: string)
    requires Letters(letters)
    ensures ColumnName(Value(letters) - 1) == letters
  {
    if letters != "" {
      var front, digit := letters[..|letters| - 1], letters[|letters| - 1] as int - 'A' as int;
      ColumnNameOfValue(front);
      var index := Value(letters) - 1;
      assert index == Value(front) * 26 + digit;
      assert index / 26 - 1 == Value(front) - 1 && index % 26 == digit;
      assert letters == front + [letters[|letters| - 1]];
    }
  }

  method NameColumn(index: nat) returns (name: string)
    ensures name == ColumnName(index)
  {
    name := "";
    var rest: int := index;
    while rest >= 0
      invariant rest >= -1 && ColumnName(index) == ColumnName(rest) + name
    {
      name := [LetterOf(rest % 26)] + name;
      rest := rest / 26 - 1;
    }
  }

  /** The letters that a cell reference begins with. */
  function LeadingLetters(reference: string): (letters: string)
    ensures Letters(letters) && letters <= reference
    ensures |letters| < |reference| ==> !Letter(reference[|letters|])
  {
    if reference == "" || !Letter(reference[0]) then ""
    else [reference[0]] + LeadingLetters(reference[1..])
  }

  /** The column of a reference in 64-bit arithmetic; -1 when it has no letters. */
  function CellColumn(reference: string): int {
    var letters := LeadingLetters(reference);
    if letters == "" then -1 else Wrap64(Value(letters) - 1)
  }

  lemma WrapIsCongruent(x: int) returns (k: int)
    ensures Wrap64(x) == x + k * 0x1_0000_0000_0000_0000
  {
    k := -((x + 0x8000_0000_0000_0000) / 0x1_0000_0000_0000_0000);
  }

  lemma CongruentWrapsAlike(x: int, k: int)
    ensures Wrap64(x + k * 0x1_0000_0000_0000_0000) == Wrap64(x)
  {
  }

  lemma WrapInSteps(x: int, digit: int)
    ensures Wrap64(Wrap64(x) * 26 + digit) == Wrap64(x * 26 + digit)
    ensures Wrap64(Wrap64(x) - 1) == Wrap64(x - 1)
  {
    var k := WrapIsCongruent(x);
    CongruentWrapsAlike(x * 26 + digit, k * 26);
    CongruentWrapsAlike(x - 1, k);
  }

  lemma LeadingLettersAre(reference: string, n: nat)
    requires n <= |reference| && Letters(reference[..n]) && (n < |reference| ==> !Letter(reference[n]))
    ensures LeadingLetters(reference) == reference[..n]
  {
    var letters := LeadingLetters(reference);
    assert forall i :: 0 <= i < n ==> reference[i] == reference[..n][i];
    assert forall i :: 0 <= i < |letters| ==> letters[i] == reference[i];
  }

  method FindColumn(reference: string) returns (column: int)
    ensures column == CellColumn(reference)
  {
    column := 0;
    var letters := 0;
    while letters < |reference| && Letter(reference[letters])
      invariant 0 <= letters <= |reference| && Letters(reference[..letters])
      invariant column == Wrap64(Value(reference[..letters]))
    {
      var digit := reference[letters] as int - 'A' as int + 1;
      assert reference[..letters + 1][..letters] == reference[..letters];
      WrapInSteps(Value(reference[..letters]), digit);
      column := Wrap64(column * 26 + digit);
      letters := letters + 1;
    }
    LeadingLettersAre(reference, letters);
    if letters == 0 {
      return -1;
    }
    WrapInSteps(Value(reference[..letters]), 0);
    column := Wrap64(column - 1);
  }

  /** Reading back a written reference gives the column exactly when its index fits 64 bits. */
  lemma ColumnRoundTrip(index: nat, row: string)
    requires AllDigits(row)
    ensures CellColumn(ColumnName(index) + row) == Wrap64(index)
    ensures CellColumn(ColumnName(index) + row) == index <==> InInt64(index)
  {
    var name := ColumnName(index);
    var reference := name + row;
    assert reference[..|name|] == name;
    assert row != "" ==> reference[|name|] == row[0];
    LeadingLettersAre(reference, |name|);
    ValueOfColumnName(index);
    if InInt64(index) {
      InRangeIsNotWrapped(index);
    }
  }

  // ----- Sheets as token streams -----

  datatype Token =
    | RowStart | RowEnd | CellStart(kind: string, reference: string) | CellEnd | Formula
    | ValueStart | ValueEnd | TextStart | TextEnd | Chars(text: string) | Other

  /** The characters that XML text can hold; writing replaces any other. */
  predicate XmlChar(c: char) {
    c == '\U{9}' || c == '\U{A}' || c == '\U{D}' || '\U{20}' <= c <= '\U{D7FF}' || '\U{E000}' <= c <= '\U{FFFD}' || c >= '\U{10000}'
  }

  predicate XmlText(s: string) {
    forall i :: 0 <= i < |s| ==> XmlChar(s[i])
  }

  function Written(c: char): char {
    if XmlChar(c) then c else REPLACEMENT
  }

  /** A text after `xml.EscapeText` and decoding. */
  function Escaped(s: string): string {
    Each(Written, s)
  }

  lemma EscapedIsSameIff(s: string)
    ensures Escaped(s) == s <==> XmlText(s)
  {
  }

  function Decimal(n: nat): (s: string)
    ensures AllDigits(s)
  {
    (if n < 10 then "" else Decimal(n / 10)) + [('0' as int + n % 10) as char]
  }

  function CellTokens(number: nat, column: nat, text: string): seq<Token> {
    [CellStart("inlineStr", ColumnName(column) + Decimal(number)), Other, TextStart, Chars(Escaped(text)), TextEnd, Other, CellEnd]
  }

  function CellsTokens(number: nat, row: seq<string>): seq<Token> {
    if row == [] then []
    else CellsTokens(number, row[..|row| - 1]) + CellTokens(number, |row| - 1, row[|row| - 1])
  }

  function RowTokens(number: nat, row: seq<string>): seq<Token> {
    [RowStart] + CellsTokens(number, row) + [RowEnd]
  }

  function SheetTokens(rows: seq<seq<string>>): seq<Token> {
    if rows == [] then []
    else SheetTokens(rows[..|rows| - 1]) + RowTokens(|rows|, rows[|rows| - 1])
  }

  method WriteCells(number: nat, row: seq<string>) returns (cells: seq<Token>)
    ensures cells == CellsTokens(number, row)
  {
    cells := [];
    for j := 0 to |row|
      invariant cells == CellsTokens(number, row[..j])
    {
      var name := NameColumn(j);
      assert row[..j + 1][..j] == row[..j];
      cells := cells + [CellStart("inlineStr", name + Decimal(number)), Other, TextStart, Chars(Escaped(row[j])), TextEnd, Other, CellEnd];
    }
    assert row[..|row|] == row;
  }

  /** The row loop of `WriteXLSX`. */
  method WriteSheet(rows: seq<seq<string>>) returns (tokens: seq<Token>)
    ensures tokens == SheetTokens(rows)
  {
    tokens := [];
    for i := 0 to |rows|
      invariant tokens == SheetTokens(rows[..i])
    {
      var cells := WriteCells(i + 1, rows[i]);
      assert rows[..i + 1][..i] == rows[..i];
      tokens := tokens + ([RowStart] + cells + [RowEnd]);
    }
    assert rows[..|rows|] == rows;
  }

  /** The variables of `readSheet`. */
  datatype Reader = Reader(rows: seq<seq<string>>, row: seq<string>, kind: string, reference: string, text: string,
                           inValue: bool, inText: bool)

  const START := Reader([], [], "", "", "", false, false)

  function Padded(row: seq<string>, length: nat): (padded: seq<string>)
    ensures |padded| == Max(|row|, length)
    ensures forall i :: 0 <= i < |padded| ==> padded[i] == if i < |row| then row[i] else ""
  {
    row + seq(Max(0, length - |row|), _ => "")
  }

  /** What a finished cell holds; none when its reference, shared index or text is refused. */
  function CellText(shared: seq<string>, kind: string, text: string): Option<string> {
    var index := ParseInt(text);
    if kind == "s" && (index.None? || index.value < 0 || index.value >= |shared|) then None
    else
      var value := if kind == "s" then shared[index.value] else text;
      if |value| > MAX_CELL || '\0' in value then None else Some(value)
  }

  function FinishCell(shared: seq<string>, r: Reader): Option<Reader> {
    var column := CellColumn(r.reference);
    var text := CellText(shared, r.kind, r.text);
    if column < 0 || column >= MAX_COLUMNS || text.None? then None
    else Some(r.(row := Padded(r.row, column + 1)[column := text.value], text := text.value))
  }

  const WORD := 0x1_0000_0000_0000_0000

  lemma PositiveValue(letters: string)
    requires Letters(letters) && letters != ""
    ensures Value(letters) >= 1
  {
  }

  /** The index that a reference names, modulo 2^64. */
  function NamedColumn(letters: string): nat
    requires Letters(letters) && letters != ""
  {
    PositiveValue(letters);
    (Value(letters) - 1) % WORD
  }

  lemma NamedColumnIsRead(reference: string)
    requires LeadingLetters(reference) != ""
    ensures var named := NamedColumn(LeadingLetters(reference));
      && (0 <= CellColumn(reference) < MAX_COLUMNS <==> named < MAX_COLUMNS)
      && (named < MAX_COLUMNS ==> CellColumn(reference) == named)
  {
    var letters := LeadingLetters(reference);
    PositiveValue(letters);
    var index := Value(letters) - 1;
    CongruentWrapsAlike(index % WORD, index / WORD);
    assert index == index % WORD + index / WORD * WORD;
  }

  /** A cell is taken exactly when its text is and its letters name one of the fifty columns modulo 2^64. */
  lemma CellAcceptedIff(shared: seq<string>, r: Reader)
    ensures var letters, text, finished := LeadingLetters(r.reference), CellText(shared, r.kind, r.text), FinishCell(shared, r);
      && (finished.Some? <==> letters != "" && NamedColumn(letters) < MAX_COLUMNS && text.Some?)
      && (finished.Some? ==>
            && NamedColumn(letters) < |finished.value.row| && finished.value.row[NamedColumn(letters)] == text.value
            && forall i :: 0 <= i < |finished.value.row| && i != NamedColumn(letters) ==>
                 finished.value.row[i] == if i < |r.row| then r.row[i] else "")
  {
    if LeadingLetters(r.reference) != "" {
      NamedColumnIsRead(r.reference);
    }
  }

  /** The name of any index passes for its remainder modulo 2^64: that of 2^64 itself, in fourteen letters, for column A. */
  lemma FarReferenceIsTaken(shared: seq<string>, r: Reader, index: nat)
    requires r.reference == ColumnName(index) + "1" && index % WORD < MAX_COLUMNS && CellText(shared, r.kind, r.text).Some?
    ensures Value(LeadingLetters(r.reference)) == index + 1
    ensures FinishCell(shared, r).Some?
    ensures var row := FinishCell(shared, r).value.row;
      index % WORD < |row| && row[index % WORD] == CellText(shared, r.kind, r.text).value
  {
    var name := ColumnName(index);
    assert r.reference[..|name|] == name;
    LeadingLettersAre(r.reference, |name|);
    ValueOfColumnName(index);
    CellAcceptedIff(shared, r);
  }

  /** What the end of a cell does. */
  type Finisher = Reader -> Option<Reader>

  function Finishing(shared: seq<string>): Finisher {
    r => FinishCell(shared, r)
  }

  function Step(finish: Finisher, r: Reader, token: Token): Option<Reader> {
    match token
    case RowStart => Some(r.(row := []))
    case CellStart(kind, reference) => Some(r.(kind := kind, reference := reference, text := ""))
    case Formula => None
    case ValueStart => Some(r.(inValue := true))
    case ValueEnd => Some(r.(inValue := false))
    case TextStart => Some(r.(inText := true))
    case TextEnd => Some(r.(inText := false))
    case Chars(text) => Some(if r.inValue || r.inText then r.(text := r.text + text) else r)
    case CellEnd => finish(r)
    case RowEnd => if |r.rows| + 1 > MAX_ROWS + 1 then None else Some(r.(rows := r.rows + [r.row]))
    case Other => Some(r)
  }

  function Fold(finish: Finisher, r: Reader, tokens: seq<Token>): Option<Reader>
    decreases |tokens|
  {
    if tokens == [] then Some(r)
    else match Step(finish, r, tokens[0])
      case None => None
      case Some(next) => Fold(finish, next, tokens[1..])
  }

  function Read(shared: seq<string>, tokens: seq<Token>): Option<seq<seq<string>>> {
    match Fold(Finishing(shared), START, tokens)
    case None => None
    case Some(r) => Some(r.rows)
  }

  method Pad(row: seq<string>, length: nat) returns (padded: seq<string>)
    ensures padded == Padded(row, length)
  {
    padded := row;
    while |padded| < length
      invariant |row| <= |padded| <= Max(|row|, length)
      invariant forall i :: 0 <= i < |padded| ==> padded[i] == if i < |row| then row[i] else ""
    {
      padded := padded + [""];
    }
  }

  /** `readSheet`: one pass over the tokens. */
  lemma FoldAt(finish: Finisher, r: Reader, tokens: seq<Token>, i: nat)
    requires i < |tokens|
    ensures Fold(finish, r, tokens[i..]) ==
            match Step(finish, r, tokens[i]) { case None => None case Some(next) => Fold(finish, next, tokens[i + 1..]) }
  {
    assert tokens[i..][0] == tokens[i] && tokens[i..][1..] == tokens[i + 1..];
  }

  /** The end of a cell: its text, or the shared string that it names, goes to its column. */
  method CloseCell(shared: seq<string>, row: seq<string>, kind: string, reference: string, text: string, ghost r: Reader)
    returns (closed: Option<seq<string>>, value: string)
    requires r.row == row && r.kind == kind && r.reference == reference && r.text == text
    ensures FinishCell(shared, r) == if closed.None? then None else Some(r.(row := closed.value, text := value))
  {
    var column := FindColumn(reference);
    if column < 0 || column >= MAX_COLUMNS {
      return None, text;
    }
    var padded := Pad(row, column + 1);
    var found := CellText(shared, kind, text);
    if found.None? {
      return None, text;
    }
    value := found.value;
    closed := Some(padded[column := value]);
  }

  method ReadSheet(shared: seq<string>, tokens: seq<Token>) returns (result: Option<seq<seq<string>>>)
    ensures result == Read(shared, tokens)
  {
    var rows: seq<seq<string>>, row: seq<string> := [], [];
    var kind, reference, text := "", "", "";
    var inValue, inText := false, false;
    ghost var finish := Finishing(shared);
    for i := 0 to |tokens|
      invariant Fold(finish, START, tokens) == Fold(finish, Reader(rows, row, kind, reference, text, inValue, inText), tokens[i..])
    {
      FoldAt(finish, Reader(rows, row, kind, reference, text, inValue, inText), tokens, i);
      match tokens[i] {
        case RowStart => row := [];
        case CellStart(k, r) => kind, reference, text := k, r, "";
        case Formula => return None;
        case ValueStart => inValue := true;
        case ValueEnd => inValue := false;
        case TextStart => inText := true;
        case TextEnd => inText := false;
        case Chars(t) =>
          if inValue || inText {
            text := text + t;
          }
        case CellEnd =>
          var closed, value := CloseCell(shared, row, kind, reference, text, Reader(rows, row, kind, reference, text, inValue, inText));
          if closed.None? {
            return None;
          }
          row, text := closed.value, value;
        case RowEnd =>
          rows := rows + [row];
          if |rows| > MAX_ROWS + 1 {
            return None;
          }
        case Other =>
      }
    }
    result := Some(rows);
  }

  // ----- Reading back what was written -----

  lemma {:induction false} FoldJoins(finish: Finisher, r: Reader, front: seq<Token>, back: seq<Token>)
    ensures Fold(finish, r, front + back) ==
            match Fold(finish, r, front) { case None => None case Some(next) => Fold(finish, next, back) }
    decreases |front|
  {
    if front == [] {
      assert front + back == back;
    } else {
      assert (front + back)[0] == front[0] && (front + back)[1..] == front[1..] + back;
      var next := Step(finish, r, front[0]);
      if next.Some? {
        FoldJoins(finish, next.value, front[1..], back);
      }
    }
  }

  /** A text that the reader lets through. */
  predicate CellFits(text: string) {
    |text| <= MAX_CELL && '\0' !in text
  }

  predicate RowFits(row: seq<string>) {
    |row| <= MAX_COLUMNS && forall i :: 0 <= i < |row| ==> CellFits(row[i])
  }

  /** Outside any cell, with a row in the making. */
  ghost predicate Between(r: Reader, rows: seq<seq<string>>, row: seq<string>) {
    !r.inValue && !r.inText && r.rows == rows && r.row == row
  }

  lemma EscapedFits(text: string)
    requires CellFits(text)
    ensures CellFits(Escaped(text))
  {
  }

  /** One written cell is appended to its row. */
  lemma CellReadsBack(r: Reader, number: nat, text: string)
    requires !r.inValue && !r.inText && CellFits(text) && |r.row| < MAX_COLUMNS
    ensures var after := Fold(Finishing([]), r, CellTokens(number, |r.row|, text));
      after.Some? && Between(after.value, r.rows, r.row + [Escaped(text)])
  {
    var column := |r.row|;
    var reference := ColumnName(column) + Decimal(number);
    var tokens := CellTokens(number, column, text);
    var begun := r.(kind := "inlineStr", reference := reference, text := "", inText := true);
    var filled := begun.(text := Escaped(text));
    assert tokens == [tokens[0], tokens[1], tokens[2]] + [tokens[3], tokens[4], tokens[5], tokens[6]];
    OpenCell(Finishing([]), r, reference);
    FillCell(Finishing([]), begun, Escaped(text));
    FoldJoins(Finishing([]), r, [tokens[0], tokens[1], tokens[2]], [tokens[3], tokens[4], tokens[5], tokens[6]]);
    ColumnRoundTrip(column, Decimal(number));
    EscapedFits(text);
    assert Padded(r.row, column + 1)[column := Escaped(text)] == r.row + [Escaped(text)];
  }

  lemma FoldSteps(finish: Finisher, r: Reader, token: Token, next: Reader, rest: seq<Token>)
    requires Step(finish, r, token) == Some(next)
    ensures Fold(finish, r, [token] + rest) == Fold(finish, next, rest)
  {
    assert ([token] + rest)[1..] == rest;
  }

  lemma OpenCell(finish: Finisher, r: Reader, reference: string)
    ensures Fold(finish, r, [CellStart("inlineStr", reference), Other, TextStart])
         == Some(r.(kind := "inlineStr", reference := reference, text := "", inText := true))
  {
    var begun := r.(kind := "inlineStr", reference := reference, text := "");
    FoldSteps(finish, r, CellStart("inlineStr", reference), begun, [Other, TextStart]);
    FoldSteps(finish, begun, Other, begun, [TextStart]);
    FoldSteps(finish, begun, TextStart, begun.(inText := true), []);
    assert [CellStart("inlineStr", reference), Other, TextStart] == [CellStart("inlineStr", reference)] + [Other, TextStart];
    assert [Other, TextStart] == [Other] + [TextStart] && [TextStart] == [TextStart] + [];
  }

  lemma FillCell(finish: Finisher, r: Reader, text: string)
    requires r.inText && r.text == ""
    ensures Fold(finish, r, [Chars(text), TextEnd, Other, CellEnd]) == finish(r.(text := text, inText := false))
  {
    var filled := r.(text := text);
    assert "" + text == text;
    FoldSteps(finish, r, Chars(text), filled, [TextEnd, Other, CellEnd]);
    EndCell(finish, filled);
    assert [Chars(text), TextEnd, Other, CellEnd] == [Chars(text)] + [TextEnd, Other, CellEnd];
  }

  lemma EndCell(finish: Finisher, r: Reader)
    ensures Fold(finish, r, [TextEnd, Other, CellEnd]) == finish(r.(inText := false))
  {
    var ended := r.(inText := false);
    FoldSteps(finish, r, TextEnd, ended, [Other, CellEnd]);
    FoldSteps(finish, ended, Other, ended, [CellEnd]);
    FoldOne(finish, ended, CellEnd);
    assert [TextEnd, Other, CellEnd] == [TextEnd] + [Other, CellEnd] && [Other, CellEnd] == [Other] + [CellEnd];
  }

  lemma FoldOne(finish: Finisher, r: Reader, token: Token)
    ensures Fold(finish, r, [token]) == Step(finish, r, token)
  {
    assert [token][1..] == [];
  }

  function EscapedRow(row: seq<string>): (escaped: seq<string>)
    ensures |escaped| == |row| && forall i :: 0 <= i < |row| ==> escaped[i] == Escaped(row[i])
  {
    seq(|row|, i requires 0 <= i < |row| => Escaped(row[i]))
  }

  function EscapedSheet(rows: seq<seq<string>>): (escaped: seq<seq<string>>)
    ensures |escaped| == |rows| && forall i :: 0 <= i < |rows| ==> escaped[i] == EscapedRow(rows[i])
  {
    seq(|rows|, i requires 0 <= i < |rows| => EscapedRow(rows[i]))
  }

  lemma NextCellReadsBack(r: Reader, middle: Reader, number: nat, front: seq<string>, last: string)
    requires Fold(Finishing([]), r, CellsTokens(number, front)) == Some(middle) && Between(middle, r.rows, EscapedRow(front))
    requires |front| < MAX_COLUMNS && CellFits(last)
    ensures var after := Fold(Finishing([]), r, CellsTokens(number, front) + CellTokens(number, |front|, last));
      after.Some? && Between(after.value, r.rows, EscapedRow(front) + [Escaped(last)])
  {
    CellReadsBack(middle, number, last);
    FoldJoins(Finishing([]), r, CellsTokens(number, front), CellTokens(number, |front|, last));
  }

  lemma {:induction false} CellsReadBack(r: Reader, number: nat, row: seq<string>)
    requires !r.inValue && !r.inText && r.row == [] && RowFits(row)
    ensures var after := Fold(Finishing([]), r, CellsTokens(number, row));
      after.Some? && Between(after.value, r.rows, EscapedRow(row))
  {
    if row != [] {
      var front, last := row[..|row| - 1], row[|row| - 1];
      CellsReadBack(r, number, front);
      var middle := Fold(Finishing([]), r, CellsTokens(number, front)).value;
      NextCellReadsBack(r, middle, number, front, last);
      assert EscapedRow(row) == EscapedRow(front) + [Escaped(last)];
    }
  }

  /** One written row is appended to the sheet, unless that makes one row too many. */
  lemma RowReadsBack(r: Reader, number: nat, row: seq<string>)
    requires !r.inValue && !r.inText && RowFits(row)
    ensures var after := Fold(Finishing([]), r, RowTokens(number, row));
      if |r.rows| > MAX_ROWS then after.None?
      else after.Some? && Between(after.value, r.rows + [EscapedRow(row)], EscapedRow(row))
  {
    var emptied := r.(row := []);
    var cells := CellsTokens(number, row);
    assert Fold(Finishing([]), r, [RowStart]) == Some(emptied);
    CellsReadBack(emptied, number, row);
    var after := Fold(Finishing([]), emptied, cells).value;
    FoldJoins(Finishing([]), r, [RowStart], cells);
    FoldJoins(Finishing([]), r, [RowStart] + cells, [RowEnd]);
    assert Fold(Finishing([]), after, [RowEnd]) == Step(Finishing([]), after, RowEnd) by {
      assert [RowEnd][1..] == [];
    }
  }

  ghost predicate SheetFits(rows: seq<seq<string>>) {
    forall i :: 0 <= i < |rows| ==> RowFits(rows[i])
  }

  /** The reader after these rows, unless there are too many. */
  ghost predicate ReadsTo(after: Option<Reader>, rows: seq<seq<string>>) {
    if |rows| > MAX_ROWS + 1 then after.None?
    else after.Some? && Between(after.value, EscapedSheet(rows), after.value.row)
  }

  lemma NextRowReadsTo(r: Reader, front: seq<seq<string>>, last: seq<string>)
    requires RowFits(last) && |front| <= MAX_ROWS + 1 && Between(r, EscapedSheet(front), r.row)
    ensures ReadsTo(Fold(Finishing([]), r, RowTokens(|front| + 1, last)), front + [last])
  {
    RowReadsBack(r, |front| + 1, last);
    assert EscapedSheet(front + [last]) == EscapedSheet(front) + [EscapedRow(last)];
  }

  lemma {:induction false} SheetFolds(rows: seq<seq<string>>)
    requires SheetFits(rows)
    ensures ReadsTo(Fold(Finishing([]), START, SheetTokens(rows)), rows)
  {
    if rows != [] {
      var front, last := rows[..|rows| - 1], rows[|rows| - 1];
      SheetFolds(front);
      FoldJoins(Finishing([]), START, SheetTokens(front), RowTokens(|rows|, last));
      var middle := Fold(Finishing([]), START, SheetTokens(front));
      assert rows == front + [last];
      if middle.Some? {
        NextRowReadsTo(middle.value, front, last);
      }
    }
  }

  /** A written grid is read back cell by cell, escaped; one with too many rows is refused. */
  lemma SheetReadsBack(rows: seq<seq<string>>)
    requires SheetFits(rows)
    ensures Read([], SheetTokens(rows)) == if |rows| > MAX_ROWS + 1 then None else Some(EscapedSheet(rows))
  {
    SheetFolds(rows);
  }
}
