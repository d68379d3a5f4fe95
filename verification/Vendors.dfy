/** Normalization of vendor contacts. */
module Vendors {
  import opened Common
  import opened Text

  /** Upper and lower case, character by character, as the Unicode tables give them. */
  datatype Casing = Casing(upper: char -> char, lower: char -> char)

  const REPLACEMENT := '\U{FFFD}'

  /** The facts about the case tables that normalization relies on. */
  ghost predicate Lawful(casing: Casing) {
    && (forall c :: casing.upper(casing.upper(c)) == casing.upper(c))
    && (forall c :: Space(casing.upper(c)) ==> Space(c))
    && (forall c :: casing.upper(c) == '\0' ==> c == '\0')
    && casing.upper(REPLACEMENT) == REPLACEMENT
    && (forall c :: 'A' <= c <= 'Z' ==> casing.upper(c) == c)
    && (forall c :: 'a' <= c <= 'z' || c == '_' ==> casing.lower(c) == c)
  }

  /** The facts can hold: the case mapping of ASCII has them. */
  lemma LawfulCasingsExist() returns (casing: Casing)
    ensures Lawful(casing)
  {
    casing := Casing(c => if 'a' <= c <= 'z' then (c as int - 32) as char else c,
                     c => if 'A' <= c <= 'Z' then (c as int + 32) as char else c);
  }

  function Each(f: char -> char, s: string): (t: string)
    ensures |t| == |s| && forall i :: 0 <= i < |s| ==> t[i] == f(s[i])
  {
    seq(|s|, i requires 0 <= i < |s| => f(s[i]))
  }

  predicate Gap(c: char) {
    Space(c) || c == '-'
  }

  function WithoutGaps(s: string): (t: string)
    ensures |t| <= |s| && Compact(t)
    ensures Compact(s) ==> t == s
    ensures forall c :: c in t ==> c in s
  {
    if s == "" then ""
    else if Gap(s[0]) then WithoutGaps(s[1..])
    else
      assert Compact(s) ==> Compact(s[1..]);
      [s[0]] + WithoutGaps(s[1..])
  }

  predicate Compact(s: string) {
    forall i :: 0 <= i < |s| ==> !Gap(s[i])
  }

  function WeightedSum(s: string, n: nat): int
    requires n <= |s|
  {
    if n == 0 then 0 else WeightedSum(s, n - 1) + (s[n - 1] as int - '0' as int) * (13 - (n - 1))
  }

  /** Thirteen digits whose last one is the check digit of the others. */
  predicate ThaiTaxId(value: string) {
    Bytes(value) == 13 && AllDigits(value) && |value| == 13 && value[12] as int - '0' as int == (11 - WeightedSum(value, 12) % 11) % 10
  }

  method ValidThaiTaxId(value: string) returns (valid: bool)
    ensures valid <==> ThaiTaxId(value)
  {
    if Bytes(value) != 13 || !AllDigits(value) {
      return false;
    }
    BytesOfDigits(value);
    var sum := 0;
    for index := 0 to 12
      invariant sum == WeightedSum(value, index)
    {
      sum := sum + (value[index] as int - '0' as int) * (13 - index);
    }
    valid := value[12] as int - '0' as int == (11 - sum % 11) % 10;
  }

  datatype Input = Input(displayName: string, contactCode: string, country: string, taxId: string, branchCode: string)

  datatype Contact = Contact(displayName: string, normalizedName: string, contactCode: string, country: string,
                             taxId: string, branchCode: string)

  predicate HasNul(input: Input) {
    '\0' in input.displayName || '\0' in input.contactCode || '\0' in input.country || '\0' in input.taxId || '\0' in input.branchCode
  }

  function Country(casing: Casing, text: string): string {
    var country := Each(casing.upper, TrimSpace(text));
    if country == "" then "TH" else country
  }

  function Branch(country: string, taxId: string, text: string): string {
    var branch := TrimSpace(text);
    if country == "TH" && taxId != "" && branch == "" then "00000" else branch
  }

  predicate ThaiIdentity(taxId: string, branch: string) {
    && (taxId == "" || ThaiTaxId(taxId))
    && (branch == "" || (Bytes(branch) == 5 && AllDigits(branch)))
  }

  /** The checks on the trimmed parts; the code's length is that of the untrimmed one. */
  function Assemble(casing: Casing, name: string, code: string, codeLength: nat, country: string, taxId: string, branch: string): Option<Contact> {
    if |name| < 1 || |name| > 240 then None
    else if Bytes(country) != 2 then None
    else if country == "TH" && !ThaiIdentity(taxId, branch) then None
    else if |taxId| > 64 || |branch| > 32 || codeLength > 64 then None
    else Some(Contact(name, Each(casing.lower, name), code, country, taxId, branch))
  }

  function NormalizeVendor(casing: Casing, input: Input): Option<Contact> {
    if HasNul(input) then None
    else
      var country := Country(casing, input.country);
      var taxId := WithoutGaps(TrimSpace(input.taxId));
      Assemble(casing, TrimSpace(input.displayName), TrimSpace(input.contactCode), |input.contactCode|,
               country, taxId, Branch(country, taxId, input.branchCode))
  }

  function InputOf(contact: Contact): Input {
    Input(contact.displayName, contact.contactCode, contact.country, contact.taxId, contact.branchCode)
  }

  /** What every stored contact satisfies. */
  ghost predicate Canonical(casing: Casing, c: Contact) {
    && Trimmed(c.displayName) && 1 <= |c.displayName| <= 240 && c.normalizedName == Each(casing.lower, c.displayName)
    && Trimmed(c.contactCode) && |c.contactCode| <= 64
    && Trimmed(c.country) && Bytes(c.country) == 2 && Each(casing.upper, c.country) == c.country
    && Compact(c.taxId) && |c.taxId| <= 64
    && Trimmed(c.branchCode) && |c.branchCode| <= 32
    && (c.country == "TH" ==> ThaiIdentity(c.taxId, c.branchCode) && (c.taxId != "" ==> c.branchCode != ""))
    && !HasNul(InputOf(c))
  }

  lemma TrimIsPart(s: string)
    ensures forall c :: c in TrimSpace(s) ==> c in s
  {
  }

  lemma TrimHasNoNul(s: string)
    requires '\0' !in s
    ensures '\0' !in TrimSpace(s) && Trimmed(TrimSpace(s)) && |TrimSpace(s)| <= |s|
  {
    TrimIsPart(s);
  }

  lemma TaxIdIsCompact(s: string)
    requires '\0' !in s
    ensures Compact(WithoutGaps(TrimSpace(s))) && '\0' !in WithoutGaps(TrimSpace(s))
  {
    TrimHasNoNul(s);
  }

  lemma CountryIsCanonical(casing: Casing, text: string)
    requires Lawful(casing) && '\0' !in text && Bytes(Country(casing, text)) == 2
    ensures var country := Country(casing, text);
      Trimmed(country) && Each(casing.upper, country) == country && '\0' !in country
  {
    var trimmed := TrimSpace(text);
    TrimIsPart(text);
    var country := Each(casing.upper, trimmed);
    if country == "" {
      assert "TH"[0] == 'T' && "TH"[1] == 'H';
    }
  }

  lemma ChosenBranch(country: string, taxId: string, trimmed: string, branch: string)
    requires Trimmed(trimmed) && '\0' !in trimmed
    requires branch == if country == "TH" && taxId != "" && trimmed == "" then "00000" else trimmed
    ensures Trimmed(branch) && '\0' !in branch && (country == "TH" && taxId != "" ==> branch != "")
  {
  }

  lemma BranchIsTrimmed(country: string, taxId: string, text: string)
    requires '\0' !in text
    ensures var branch := Branch(country, taxId, text);
      Trimmed(branch) && '\0' !in branch && (country == "TH" && taxId != "" ==> branch != "")
  {
    TrimHasNoNul(text);
    ChosenBranch(country, taxId, TrimSpace(text), Branch(country, taxId, text));
  }

  lemma BranchOfTrimmed(country: string, taxId: string, text: string)
    requires Trimmed(text)
    ensures Branch(country, taxId, text) == if country == "TH" && taxId != "" && text == "" then "00000" else text
  {
    assert TrimSpace(text) == text;
  }

  /** The shape of the parts before any check. */
  ghost predicate Shaped(casing: Casing, name: string, code: string, country: string, taxId: string, branch: string) {
    && Trimmed(name) && Trimmed(code) && Trimmed(country) && Each(casing.upper, country) == country
    && Compact(taxId) && Trimmed(branch) && (country == "TH" && taxId != "" ==> branch != "")
    && !HasNul(Input(name, code, country, taxId, branch))
  }

  lemma AssembledIsCanonical(casing: Casing, name: string, code: string, codeLength: nat, country: string, taxId: string, branch: string)
    requires |code| <= codeLength && Assemble(casing, name, code, codeLength, country, taxId, branch).Some?
    requires Shaped(casing, name, code, country, taxId, branch)
    ensures Canonical(casing, Assemble(casing, name, code, codeLength, country, taxId, branch).value)
  {
  }

  lemma CanonicalIsAssembled(casing: Casing, c: Contact)
    requires Canonical(casing, c)
    ensures Assemble(casing, c.displayName, c.contactCode, |c.contactCode|, c.country, c.taxId, c.branchCode) == Some(c)
  {
  }

  lemma PartsAreShaped(casing: Casing, input: Input, country: string, taxId: string)
    requires Lawful(casing) && !HasNul(input)
    requires country == Country(casing, input.country) && Bytes(country) == 2 && taxId == WithoutGaps(TrimSpace(input.taxId))
    ensures Shaped(casing, TrimSpace(input.displayName), TrimSpace(input.contactCode), country, taxId, Branch(country, taxId, input.branchCode))
  {
    TrimHasNoNul(input.displayName);
    TrimHasNoNul(input.contactCode);
    CountryIsCanonical(casing, input.country);
    TaxIdIsCompact(input.taxId);
    BranchIsTrimmed(country, taxId, input.branchCode);
  }

  /** Every normalized contact is canonical. */
  lemma NormalizedIsCanonical(casing: Casing, input: Input)
    requires Lawful(casing) && NormalizeVendor(casing, input).Some?
    ensures Canonical(casing, NormalizeVendor(casing, input).value)
  {
    var country := Country(casing, input.country);
    var taxId := WithoutGaps(TrimSpace(input.taxId));
    var branch := Branch(country, taxId, input.branchCode);
    PartsAreShaped(casing, input, country, taxId);
    TrimHasNoNul(input.contactCode);
    AssembledIsCanonical(casing, TrimSpace(input.displayName), TrimSpace(input.contactCode), |input.contactCode|, country, taxId, branch);
  }

  lemma CanonicalCountry(casing: Casing, country: string)
    requires Trimmed(country) && country != "" && Each(casing.upper, country) == country
    ensures Country(casing, country) == country
  {
  }

  lemma CanonicalIsFixed(casing: Casing, c: Contact)
    requires Canonical(casing, c)
    ensures NormalizeVendor(casing, InputOf(c)) == Some(c)
  {
    CanonicalCountry(casing, c.country);
    TrimTaxId(c.taxId);
    BranchOfTrimmed(c.country, c.taxId, c.branchCode);
    CanonicalIsAssembled(casing, c);
  }

  lemma TrimTaxId(taxId: string)
    requires Compact(taxId)
    ensures WithoutGaps(TrimSpace(taxId)) == taxId
  {
    assert taxId != "" ==> !Gap(taxId[0]) && !Gap(taxId[|taxId| - 1]);
  }

  /** Normalizing a contact again gives it back exactly when it is canonical: normalization is idempotent. */
  lemma CanonicalIffFixed(casing: Casing, c: Contact)
    requires Lawful(casing)
    ensures NormalizeVendor(casing, InputOf(c)) == Some(c) <==> Canonical(casing, c)
  {
    if Canonical(casing, c) {
      CanonicalIsFixed(casing, c);
    } else if NormalizeVendor(casing, InputOf(c)) == Some(c) {
      NormalizedIsCanonical(casing, InputOf(c));
    }
  }
}
