/** The extracted fields, what their patterns capture, and the normal form of each value. */
module Fields {
  import opened Common
  import opened Text
  import Dates
  import Money

  /** The field names; `Other` is any name that is not one of them. */
  datatype Key =
    | DocumentNumber | IssueDate | SellerName | SellerTaxId | SellerBranch | BuyerName | BuyerTaxId
    | Currency | Subtotal | VatAmount | TotalAmount | Other(name: string)

  predicate Amount(key: Key) {
    key == Subtotal || key == VatAmount || key == TotalAmount
  }

  predicate TaxId(key: Key) {
    key == SellerTaxId || key == BuyerTaxId
  }

  predicate FreeText(key: Key) {
    key == DocumentNumber || key == SellerName || key == BuyerName
  }

  /** The fields that have a pattern. */
  const PATTERNS: set<Key> :=
    {DocumentNumber, IssueDate, SellerName, SellerTaxId, SellerBranch, BuyerName, BuyerTaxId, Subtotal, VatAmount, TotalAmount}
  const KEYS: set<Key> := PATTERNS + {Currency}

  function Ascii(c: char): char {
    if '\U{E50}' <= c <= '\U{E59}' then ((c as int - 0xE50) + '0' as int) as char else c
  }

  /** Thai digits replaced by ASCII ones. */
  function ToAscii(s: string): (t: string)
    ensures |t| == |s| && forall i :: 0 <= i < |s| ==> t[i] == Ascii(s[i])
  {
    seq(|s|, i requires 0 <= i < |s| => Ascii(s[i]))
  }

  predicate DateSeparator(c: char) {
    c == '/' || c == '.' || c == '-'
  }

  /** The nonempty stretches between date separators. */
  function DateParts(s: string, current: string): seq<string>
    decreases |s|
  {
    var finished := if current == "" then [] else [current];
    if s == "" then finished
    else if DateSeparator(s[0]) then finished + DateParts(s[1..], "")
    else DateParts(s[1..], current + [s[0]])
  }

  /** Years of the Buddhist era are moved to the common era. */
  function CommonEra(year: int): int {
    if 2400 <= year <= 2600 then year - 543 else year
  }

  function NormalizeDate(text: string): Option<string> {
    var parts := DateParts(text, "");
    if |parts| != 3 then None
    else
      var day, month, year := ParseInt(parts[0]), ParseInt(parts[1]), ParseInt(parts[2]);
      if day.None? || month.None? || year.None? then None
      else
        var date := Dates.Date(CommonEra(year.value), month.value, day.value);
        if date.year < 1900 || date.year > 9999 || !Dates.InCalendar(date) then None else Some(Dates.Format(date))
  }

  function Normalize(key: Key, raw: string): Option<string> {
    var text := ToAscii(raw);
    if key == IssueDate then NormalizeDate(text)
    else if Amount(key) then Money.Normalize(text)
    else if key == SellerBranch then
      if Bytes(text) != 5 || !AllDigits(text) then None else Some(text)
    else if TaxId(key) then
      var value := Without(text, {' ', '-'});
      if Bytes(value) != 13 then None else Some(value)
    else if raw == "" then None else Some(raw)
  }

  predicate PatternDigit(c: char) {
    Digit(Ascii(c))
  }

  predicate PatternDigits(s: string) {
    forall i :: 0 <= i < |s| ==> PatternDigit(s[i])
  }

  datatype DateParse = DateParse(day: string, s1: char, month: string, s2: char, year: string)

  /** Day, month and year in digits, with one separator between each. */
  predicate IsDateText(raw: string, p: DateParse) {
    && raw == p.day + [p.s1] + p.month + [p.s2] + p.year && DateSeparator(p.s1) && DateSeparator(p.s2)
    && PatternDigits(p.day) && 1 <= |p.day| <= 2 && PatternDigits(p.month) && 1 <= |p.month| <= 2
    && PatternDigits(p.year) && |p.year| == 4
  }

  ghost predicate DateText(raw: string) {
    exists p :: IsDateText(raw, p)
  }

  predicate AmountText(raw: string) {
    raw != "" && forall i :: 0 <= i < |raw| ==> PatternDigit(raw[i]) || raw[i] == ',' || raw[i] == '.'
  }

  predicate TaxIdText(raw: string) {
    |raw| <= 20 && forall i :: 0 <= i < |raw| ==> PatternDigit(raw[i]) || raw[i] == ' ' || raw[i] == '-'
  }

  /** What the pattern of each field can capture, once trimmed. */
  ghost predicate InLanguage(key: Key, raw: string) {
    if key == IssueDate then DateText(raw)
    else if Amount(key) then AmountText(raw)
    else if key == SellerBranch then |raw| == 5 && PatternDigits(raw)
    else if TaxId(key) then TaxIdText(raw)
    else Trimmed(raw)
  }
}
