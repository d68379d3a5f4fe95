/**
 Category suggestions from mapping rules, and the rule-set version that stamps
 them. An approval handler evaluates the rules in one transaction and approves
 in a later one; the stamp is what makes the two agree.
 */
module Accounting {
  import opened Common

  // ----- Suggest -----

  datatype Rule = Rule(id: string, vendor: string, documentType: string, category: string, version: nat)

  datatype Basis = NoRule | RuleConflict | VendorDefault | VendorDocumentType | HumanReviewed

  datatype Warning = VendorUnmatched | CategoryUnmatched | ConflictingRules

  datatype Candidate = Candidate(category: string, ruleId: string, version: nat, basis: Basis, warnings: seq<Warning>)

  predicate Applies(rule: Rule, vendor: string, documentType: string) {
    rule.vendor == vendor && rule.category != "" && (rule.documentType == "" || rule.documentType == documentType)
  }

  /** A rule for one document type beats the vendor's default rule. */
  function Priority(rule: Rule): nat {
    if rule.documentType != "" then 2 else 1
  }

  ghost predicate Decisive(rule: Rule, rules: set<Rule>, vendor: string, documentType: string) {
    && rule in rules && Applies(rule, vendor, documentType)
    && forall other :: other in rules && Applies(other, vendor, documentType) ==> Priority(other) <= Priority(rule)
  }

  ghost predicate Disagree(rules: set<Rule>, vendor: string, documentType: string) {
    exists a, b :: Decisive(a, rules, vendor, documentType) && Decisive(b, rules, vendor, documentType) && a.category != b.category
  }

  /** What a suggestion must be, in terms of the set of rules alone. */
  ghost predicate Suggested(c: Candidate, vendor: string, documentType: string, rules: set<Rule>) {
    if vendor == "" then
      c == Candidate("", "", 0, NoRule, [VendorUnmatched, CategoryUnmatched])
    else if Disagree(rules, vendor, documentType) then
      c == Candidate("", "", 0, RuleConflict, [ConflictingRules])
    else if forall rule :: rule in rules ==> !Applies(rule, vendor, documentType) then
      c == Candidate("", "", 0, NoRule, [CategoryUnmatched])
    else exists rule ::
      && Decisive(rule, rules, vendor, documentType)
      && c == Candidate(rule.category, rule.id, rule.version, if rule.documentType != "" then VendorDocumentType else VendorDefault, [])
  }

  ghost function Elements<T>(items: seq<T>): set<T> {
    set x | x in items
  }

  method Suggest(vendor: string, documentType: string, rules: seq<Rule>) returns (c: Candidate)
    ensures Suggested(c, vendor, documentType, Elements(rules))
  {
    if vendor == "" {
      return Candidate("", "", 0, NoRule, [VendorUnmatched, CategoryUnmatched]);
    }
    var bestPriority, chosen, conflict := 0, Rule("", "", "", "", 0), false;
    for i := 0 to |rules|
      invariant bestPriority == 0 ==> !conflict && forall rule :: rule in rules[..i] ==> !Applies(rule, vendor, documentType)
      invariant bestPriority != 0 ==> Decisive(chosen, Elements(rules[..i]), vendor, documentType) && bestPriority == Priority(chosen)
      invariant conflict <==> exists rule :: Decisive(rule, Elements(rules[..i]), vendor, documentType) && rule.category != chosen.category
    {
      var rule := rules[i];
      ghost var seen, grown := Elements(rules[..i]), Elements(rules[..i + 1]);
      assert rules[..i + 1] == rules[..i] + [rule];
      assert grown == seen + {rule};
      if !Applies(rule, vendor, documentType) {
        assert forall r :: Decisive(r, grown, vendor, documentType) <==> Decisive(r, seen, vendor, documentType);
        continue;
      }
      var priority := Priority(rule);
      if priority > bestPriority {
        bestPriority, chosen, conflict := priority, rule, false;
      } else if priority == bestPriority && rule.category != chosen.category {
        assert Decisive(rule, grown, vendor, documentType);
        conflict := true;
      }
    }
    assert rules[..|rules|] == rules;
    if conflict {
      return Candidate("", "", 0, RuleConflict, [ConflictingRules]);
    }
    if bestPriority == 0 {
      return Candidate("", "", 0, NoRule, [CategoryUnmatched]);
    }
    return Candidate(chosen.category, chosen.id, chosen.version,
                     if bestPriority == 2 then VendorDocumentType else VendorDefault, []);
  }

  /** Every order of the same rules leads to the same category and basis. */
  lemma OrderDoesNotMatter(c1: Candidate, c2: Candidate, vendor: string, documentType: string, rules1: seq<Rule>, rules2: seq<Rule>)
    requires Elements(rules1) == Elements(rules2)
    requires Suggested(c1, vendor, documentType, Elements(rules1)) && Suggested(c2, vendor, documentType, Elements(rules2))
    ensures c1.category == c2.category && c1.basis == c2.basis && c1.warnings == c2.warnings
  {
    var rules := Elements(rules1);
    if vendor != "" && !Disagree(rules, vendor, documentType) && c1.basis != NoRule {
      var r1 :| Decisive(r1, rules, vendor, documentType) && c1.category == r1.category && c1.ruleId == r1.id;
      var r2 :| Decisive(r2, rules, vendor, documentType) && c2.category == r2.category && c2.ruleId == r2.id;
      assert r1.category == r2.category;
    }
  }

  // ----- The rule book of one organization and its version -----

  /** `key` is the lower-cased name that the active-name index compares. */
  datatype Category = Category(name: string, key: string, archived: bool)

  datatype StoredRule = StoredRule(rule: Rule, retired: bool)

  /** `stamp` is the rule-set row; readers take a missing row for version 0. */
  datatype Book = Book(categories: map<string, Category>, rules: map<string, StoredRule>, stamp: Option<nat>)

  datatype Change =
    | CreateCategory(id: string, name: string, key: string)
    | SetArchived(id: string, archived: bool)
    | Rename(id: string, name: string, key: string)
    | CreateRule(id: string, vendor: string, documentType: string, category: string, vendorActive: bool)
    | RetireRule(id: string)

  const DOCUMENT_TYPES := {"", "receipt", "invoice", "tax_invoice"}

  function Version(book: Book): nat {
    match book.stamp case None => 0 case Some(v) => v
  }

  function Bump(stamp: Option<nat>): Option<nat> {
    match stamp case None => Some(1) case Some(v) => Some(v + 1)
  }

  predicate Active(book: Book, category: string) {
    category in book.categories && !book.categories[category].archived
  }

  /** The active-name index: no other active category has this key. */
  predicate KeyFree(book: Book, id: string, key: string) {
    forall other :: other in book.categories && other != id && !book.categories[other].archived ==> book.categories[other].key != key
  }

  predicate LiveId(book: Book, id: string) {
    id in book.rules && !book.rules[id].retired && Active(book, book.rules[id].rule.category)
  }

  function Live(book: Book): set<Rule> {
    set id | id in book.rules && LiveId(book, id) :: book.rules[id].rule
  }

  /** The rules an evaluation reads for one vendor and document type. */
  ghost function Fitting(rules: set<Rule>, vendor: string, documentType: string): set<Rule> {
    set rule | rule in rules && rule.vendor == vendor && rule.documentType in {"", documentType}
  }

  /** Leaving out the rules that cannot apply does not change the suggestion. */
  lemma FittingRulesSuffice(c: Candidate, vendor: string, documentType: string, rules: set<Rule>)
    requires Suggested(c, vendor, documentType, Fitting(rules, vendor, documentType))
    ensures Suggested(c, vendor, documentType, rules)
  {
    var fitting := Fitting(rules, vendor, documentType);
    assert forall rule :: Decisive(rule, fitting, vendor, documentType) <==> Decisive(rule, rules, vendor, documentType) by {
      assert forall rule :: rule in fitting && Applies(rule, vendor, documentType) <==> rule in rules && Applies(rule, vendor, documentType);
    }
  }

  predicate ValidName(name: string) {
    0 < |name| <= 120
  }

  /** The book after one administrative request; a refused request changes nothing. */
  function Apply(book: Book, change: Change): Book {
    match change
    case CreateCategory(id, name, key) =>
      if id == "" || !ValidName(name) || id in book.categories || !KeyFree(book, id, key) then book
      else book.(categories := book.categories[id := Category(name, key, false)])
    case SetArchived(id, archived) =>
      if id !in book.categories || book.categories[id].archived == archived then book
      else if !archived && !KeyFree(book, id, book.categories[id].key) then book
      else book.(categories := book.categories[id := book.categories[id].(archived := archived)], stamp := Bump(book.stamp))
    case Rename(id, name, key) =>
      if !ValidName(name) || !Active(book, id) || book.categories[id].name == name || !KeyFree(book, id, key) then book
      else book.(categories := book.categories[id := Category(name, key, false)], stamp := Bump(book.stamp))
    case CreateRule(id, vendor, documentType, category, vendorActive) =>
      if id == "" || vendor == "" || category == "" || documentType !in DOCUMENT_TYPES then book
      else if !vendorActive || !Active(book, category) || id in book.rules then book
      else
        var version := Version(book) + 1;
        book.(rules := book.rules[id := StoredRule(Rule(id, vendor, documentType, category, version), false)], stamp := Some(version))
    case RetireRule(id) =>
      if id !in book.rules || book.rules[id].retired then book
      else book.(rules := book.rules[id := book.rules[id].(retired := true)],
                 stamp := if book.stamp.Some? then Bump(book.stamp) else None)
  }

  function Run(book: Book, changes: seq<Change>): Book
    decreases |changes|
  {
    if changes == [] then book else Run(Apply(book, changes[0]), changes[1..])
  }

  /** Every rule has its category, and a rule set that has rules has its version row. */
  ghost predicate Consistent(book: Book) {
    && (forall id :: id in book.rules ==>
          && book.rules[id].rule.id == id
          && book.rules[id].rule.category in book.categories
          && book.stamp.Some? && 0 < book.rules[id].rule.version <= book.stamp.value)
    && (forall a, b :: a in book.rules && b in book.rules && a != b ==> book.rules[a].rule.version != book.rules[b].rule.version)
  }

  /** Nothing that an evaluation reads differs, apart from categories it cannot have met. */
  ghost predicate SameRules(before: Book, after: Book) {
    && Live(after) == Live(before)
    && before.categories.Keys <= after.categories.Keys
    && forall id :: id in before.categories ==> after.categories[id] == before.categories[id]
  }

  /** Unchanged rules stay consistent with more categories and a later version. */
  lemma GrowthKeepsConsistency(book: Book, after: Book)
    requires Consistent(book) && after.rules == book.rules && book.categories.Keys <= after.categories.Keys
    requires book.stamp.Some? ==> after.stamp.Some? && book.stamp.value <= after.stamp.value
    ensures Consistent(after)
  {
  }

  lemma NewRuleKeepsConsistency(book: Book, rule: StoredRule)
    requires Consistent(book) && rule.rule.id !in book.rules && rule.rule.category in book.categories
    requires rule.rule.version == Version(book) + 1
    ensures Consistent(book.(rules := book.rules[rule.rule.id := rule], stamp := Some(rule.rule.version)))
  {
  }

  lemma RetirementKeepsConsistency(book: Book, id: string)
    requires Consistent(book) && id in book.rules
    ensures Consistent(book.(rules := book.rules[id := book.rules[id].(retired := true)], stamp := Bump(book.stamp)))
  {
    var after := book.rules[id := book.rules[id].(retired := true)];
    assert forall other :: other in book.rules ==> after[other].rule == book.rules[other].rule;
  }

  lemma ChangeKeepsConsistency(book: Book, change: Change)
    requires Consistent(book)
    ensures Consistent(Apply(book, change))
  {
    var after := Apply(book, change);
    if after != book {
      match change
      case CreateRule(id, vendor, documentType, category, _) =>
        NewRuleKeepsConsistency(book, StoredRule(Rule(id, vendor, documentType, category, Version(book) + 1), false));
      case RetireRule(id) => RetirementKeepsConsistency(book, id);
      case _ => GrowthKeepsConsistency(book, after);
    }
  }

  lemma UnstampedChangesKeepRules(book: Book, change: Change)
    requires Consistent(book)
    ensures Version(book) <= Version(Apply(book, change))
    ensures Version(book) == Version(Apply(book, change)) ==> SameRules(book, Apply(book, change))
  {
    var after := Apply(book, change);
    if Version(after) == Version(book) {
      assert change.CreateCategory? || after == book;
      assert forall id :: id in book.rules ==> LiveId(book, id) == LiveId(after, id);
      assert Live(after) == Live(book);
    }
  }

  /** The stamp never falls, and while it stands still the rules stand still. */
  lemma {:induction false} StampIsFaithfulOverRuns(book: Book, changes: seq<Change>)
    requires Consistent(book)
    ensures Consistent(Run(book, changes))
    ensures Version(book) <= Version(Run(book, changes))
    ensures Version(book) == Version(Run(book, changes)) ==> SameRules(book, Run(book, changes))
    decreases |changes|
  {
    if changes != [] {
      ChangeKeepsConsistency(book, changes[0]);
      UnstampedChangesKeepRules(book, changes[0]);
      StampIsFaithfulOverRuns(Apply(book, changes[0]), changes[1..]);
    }
  }

  // ----- The store and the approval handler -----

  /**
   Changes that others commit between two statements of an approval. While the
   approval has the rule-set row locked, a change that would write the row waits.
   There is nothing to lock while the organization has no such row.
   */
  function RunWaiting(book: Book, changes: seq<Change>, locked: bool): Book
    decreases |changes|
  {
    if changes == [] then book
    else
      var next := Apply(book, changes[0]);
      RunWaiting(if locked && next.stamp != book.stamp then book else next, changes[1..], locked)
  }

  lemma {:induction false} UnlockedRunIsRun(book: Book, changes: seq<Change>)
    ensures RunWaiting(book, changes, false) == Run(book, changes)
    decreases |changes|
  {
    if changes != [] {
      UnlockedRunIsRun(Apply(book, changes[0]), changes[1..]);
    }
  }

  /** The stamp is faithful over such runs too, and stands still under the lock. */
  lemma {:induction false} WaitingRunKeeps(book: Book, changes: seq<Change>, locked: bool)
    requires Consistent(book)
    ensures var after := RunWaiting(book, changes, locked);
      && Consistent(after) && Version(book) <= Version(after) && (locked ==> after.stamp == book.stamp)
      && (Version(book) == Version(after) ==> SameRules(book, after))
      && (book.stamp.Some? ==> after.stamp.Some?)
    decreases |changes|
  {
    if changes != [] {
      var next := if locked && Apply(book, changes[0]).stamp != book.stamp then book else Apply(book, changes[0]);
      ChangeKeepsConsistency(book, changes[0]);
      UnstampedChangesKeepRules(book, changes[0]);
      WaitingRunKeeps(next, changes[1..], locked);
    }
  }

  datatype ApproveInput = ApproveInput(category: string, vendor: string, unmatchedReason: string, ruleSetVersion: nat)

  /** The rule that an approval is credited to, if any. */
  datatype Credit = Credit(ruleId: string, version: nat, basis: Basis)

  const NO_CREDIT := Credit("", 0, HumanReviewed)

  datatype Approval =
    | Conflict
    | Invalid
    | Approved(category: string, categoryName: string, vendor: string, basis: Basis, ruleId: string, ruleVersion: nat)

  /** What an approval checks of its input alone. */
  predicate WellFormed(input: ApproveInput, credit: Credit) {
    && input.category != "" && |input.unmatchedReason| <= 240 && (input.vendor == "" ==> input.unmatchedReason != "")
    && (credit.ruleId != "" ==> credit.version >= 1 && input.vendor != "" && credit.basis in {VendorDefault, VendorDocumentType})
  }

  /** The credited rule is not retired, and is the one that the input and the credit describe. */
  predicate RuleStands(book: Book, input: ApproveInput, credit: Credit) {
    credit.ruleId == "" ||
    (credit.ruleId in book.rules && !book.rules[credit.ruleId].retired
     && var rule := book.rules[credit.ruleId].rule;
        rule.vendor == input.vendor && rule.category == input.category && rule.version == credit.version)
  }

  /** The statements of an approval: the version is read in one state, the category in a later one, the rule in a still later one. */
  predicate Approvable(input: ApproveInput, vendorActive: bool, credit: Credit, atVersion: Book, atCategory: Book, atRule: Book) {
    && WellFormed(input, credit) && Version(atVersion) == input.ruleSetVersion
    && Active(atCategory, input.category) && (input.vendor != "" ==> vendorActive) && RuleStands(atRule, input, credit)
  }

  function ApprovalOf(input: ApproveInput, credit: Credit, atCategory: Book): Approval
    requires input.category in atCategory.categories
  {
    Approved(input.category, atCategory.categories[input.category].name, input.vendor,
             if credit.ruleId == "" then HumanReviewed else credit.basis, credit.ruleId, if credit.ruleId == "" then 0 else credit.version)
  }

  /** What an approval shows of the state in which it commits. */
  ghost predicate TrueAt(book: Book, r: Approval)
    requires r.Approved?
  {
    && Active(book, r.category) && r.categoryName == book.categories[r.category].name
    && (r.ruleId != "" ==>
          && LiveId(book, r.ruleId) && book.rules[r.ruleId].rule.version == r.ruleVersion
          && book.rules[r.ruleId].rule.vendor == r.vendor && book.rules[r.ruleId].rule.category == r.category)
  }

  /** If the version has not moved since it was read, everything that was read on the way is still true. */
  lemma UnmovedApprovalIsTrue(input: ApproveInput, vendorActive: bool, credit: Credit, atVersion: Book, atCategory: Book, atRule: Book)
    requires Approvable(input, vendorActive, credit, atVersion, atCategory, atRule)
    requires Version(atCategory) == Version(atRule) ==> SameRules(atCategory, atRule)
    requires Version(atVersion) <= Version(atCategory) <= Version(atRule) == Version(atVersion)
    ensures TrueAt(atRule, ApprovalOf(input, credit, atCategory))
  {
    assert input.category in atCategory.categories;
  }

  class RuleStore {
    var categories: map<string, Category>
    var rules: map<string, StoredRule>
    var stamp: Option<nat>

    function State(): Book
      reads this
    {
      Book(categories, rules, stamp)
    }

    constructor ()
      ensures State() == Book(map[], map[], None) && Consistent(State())
    {
      categories, rules, stamp := map[], map[], None;
    }

    method CreateCategory(id: string, name: string, key: string)
      modifies this
      ensures State() == Apply(old(State()), Change.CreateCategory(id, name, key))
    {
      if id == "" || !ValidName(name) || id in categories || !KeyFree(State(), id, key) {
        return;
      }
      categories := categories[id := Category(name, key, false)];
    }

    method SetCategoryArchived(id: string, archived: bool)
      modifies this
      ensures State() == Apply(old(State()), SetArchived(id, archived))
    {
      if id !in categories || categories[id].archived == archived || (!archived && !KeyFree(State(), id, categories[id].key)) {
        return;
      }
      categories := categories[id := categories[id].(archived := archived)];
      stamp := Bump(stamp);
    }

    method RenameCategory(id: string, name: string, key: string)
      modifies this
      ensures State() == Apply(old(State()), Rename(id, name, key))
    {
      if !ValidName(name) || id !in categories || categories[id].archived || categories[id].name == name || !KeyFree(State(), id, key) {
        return;
      }
      categories := categories[id := Category(name, key, false)];
      stamp := Bump(stamp);
    }

    method CreateRule(id: string, vendor: string, documentType: string, category: string, vendorActive: bool)
      modifies this
      ensures State() == Apply(old(State()), Change.CreateRule(id, vendor, documentType, category, vendorActive))
    {
      if id == "" || vendor == "" || category == "" || documentType !in DOCUMENT_TYPES {
        return;
      }
      if !vendorActive || !Active(State(), category) || id in rules {
        return;
      }
      if stamp.None? {
        stamp := Some(0);
      }
      stamp := Some(stamp.value + 1);
      rules := rules[id := StoredRule(Rule(id, vendor, documentType, category, stamp.value), false)];
    }

    method RetireRule(id: string)
      modifies this
      ensures State() == Apply(old(State()), Change.RetireRule(id))
    {
      if id !in rules || rules[id].retired {
        return;
      }
      rules := rules[id := rules[id].(retired := true)];
      if stamp.Some? {
        stamp := Bump(stamp);
      }
    }

    /** Requests of other administrators, run to completion one after the other. */
    method Serve(changes: seq<Change>)
      modifies this
      ensures State() == Run(old(State()), changes)
      decreases |changes|
    {
      if changes == [] {
        return;
      }
      match changes[0] {
        case CreateCategory(id, name, key) => CreateCategory(id, name, key);
        case SetArchived(id, archived) => SetCategoryArchived(id, archived);
        case Rename(id, name, key) => RenameCategory(id, name, key);
        case CreateRule(id, vendor, documentType, category, vendorActive) => CreateRule(id, vendor, documentType, category, vendorActive);
        case RetireRule(id) => RetireRule(id);
      }
      Serve(changes[1..]);
    }

    /** The evaluation's rule query: the live rules of one vendor that fit the document type, in some order. */
    method VendorRules(vendor: string, documentType: string) returns (found: seq<Rule>)
      ensures Elements(found) == Fitting(Live(State()), vendor, documentType)
      ensures State() == old(State())
    {
      found := [];
      var todo := Live(State());
      while todo != {}
        invariant todo <= Live(State())
        invariant Elements(found) == Fitting(Live(State()) - todo, vendor, documentType)
      {
        var rule :| rule in todo;
        assert Live(State()) - (todo - {rule}) == Live(State()) - todo + {rule};
        assert Elements(found + [rule]) == Elements(found) + {rule};
        if rule.vendor == vendor && rule.documentType in {"", documentType} {
          found := found + [rule];
        }
        todo := todo - {rule};
      }
    }

    /** Requests of others between two statements of an approval. */
    method ServeWaiting(changes: seq<Change>, locked: bool)
      modifies this
      ensures State() == RunWaiting(old(State()), changes, locked)
      decreases |changes|
    {
      if changes == [] {
        return;
      }
      if !locked || Apply(State(), changes[0]).stamp == stamp {
        Serve([changes[0]]);
      }
      ServeWaiting(changes[1..], locked);
    }

    /**
     The rule checks of `Approve`, statement by statement: the version is read and
     its row locked if it is there, then the category, then the rule is read.
     `first` and `second` are what others commit in between.
     */
    method Approve(input: ApproveInput, vendorActive: bool, credit: Credit, first: seq<Change>, second: seq<Change>) returns (r: Approval)
      requires Consistent(State())
      modifies this
      ensures Consistent(State()) && Version(old(State())) <= Version(State()) && (old(stamp).Some? ==> stamp == old(stamp))
      ensures var locked := old(stamp).Some?;
        var atCategory := RunWaiting(old(State()), first, locked);
        var atRule := RunWaiting(atCategory, second, locked);
        && (r.Approved? <==> Approvable(input, vendorActive, credit, old(State()), atCategory, atRule))
        && (r.Approved? ==> State() == atRule && r == ApprovalOf(input, credit, atCategory))
      ensures r.Approved? && Version(State()) == input.ruleSetVersion ==> TrueAt(State(), r) && SameRules(old(State()), State())
    {
      if !WellFormed(input, credit) {
        return Invalid;
      }
      var locked := stamp.Some?;
      if Version(State()) != input.ruleSetVersion {
        return Conflict;
      }
      ghost var atVersion := State();
      ServeWaiting(first, locked);
      WaitingRunKeeps(atVersion, first, locked);
      ghost var atCategory := State();
      if !Active(State(), input.category) || (input.vendor != "" && !vendorActive) {
        return Invalid;
      }
      var name := categories[input.category].name;
      ServeWaiting(second, locked);
      WaitingRunKeeps(atCategory, second, locked);
      if !RuleStands(State(), input, credit) {
        return Conflict;
      }
      r := Approved(input.category, name, input.vendor,
                    if credit.ruleId == "" then HumanReviewed else credit.basis, credit.ruleId, if credit.ruleId == "" then 0 else credit.version);
      if Version(State()) == input.ruleSetVersion {
        UnmovedApprovalIsTrue(input, vendorActive, credit, atVersion, atCategory, State());
      }
    }

    /** `Evaluate`: the version is read, and the rules in a later statement. */
    method Evaluate(vendor: string, documentType: string, meanwhile: seq<Change>) returns (version: nat, found: nat, candidate: Candidate)
      requires Consistent(State())
      modifies this
      ensures State() == Run(old(State()), meanwhile) && Consistent(State()) && version == Version(old(State())) <= Version(State())
      ensures version == Version(State()) ==> SameRules(old(State()), State())
      ensures Suggested(candidate, vendor, documentType, Live(State())) && (candidate.ruleId != "" ==> stamp.Some?)
    {
      version := Version(State());
      ghost var start := State();
      Serve(meanwhile);
      StampIsFaithfulOverRuns(start, meanwhile);
      var rules := VendorRules(vendor, documentType);
      candidate := Suggest(vendor, documentType, rules);
      found := |rules|;
      FittingRulesSuffice(candidate, vendor, documentType, Live(State()));
      SuggestedRuleIsStamped(candidate, vendor, documentType, State());
    }

    /**
     The approval handler: read the version, read the rules in a later statement,
     suggest, then approve in a second transaction. Any requests may be served
     between these moments, and inside the second transaction as its lock allows.
     */
    method ApproveAccounting(input: ApproveInput, documentType: string, evaluatedVendor: string, alreadyApproved: bool, vendorActive: bool,
                             meanwhile: seq<Change>, later: seq<Change>, first: seq<Change>, second: seq<Change>)
      returns (r: Approval, candidate: Candidate)
      requires Consistent(State())
      modifies this
      ensures Consistent(State())
      ensures r.Approved? ==>
        var begun := Run(Run(old(State()), meanwhile), later);
        State() == RunWaiting(RunWaiting(begun, first, begun.stamp.Some?), second, begun.stamp.Some?)
      // The version has moved when the approval commits only if there was no row to lock, and then no rule is credited.
      ensures r.Approved? && (input.ruleSetVersion > 0 || r.ruleId != "") ==> Version(State()) == input.ruleSetVersion
      // If it has not, what was suggested is what the live rules suggest at that moment,
      ensures r.Approved? && Version(State()) == input.ruleSetVersion && !alreadyApproved ==>
        Suggested(candidate, evaluatedVendor, documentType, Live(State()))
      // and what the approval says of its category and rule is true at that moment, as it was when the version was read.
      ensures r.Approved? && Version(State()) == input.ruleSetVersion ==> TrueAt(State(), r) && SameRules(old(State()), State())
      // An approval credited to a rule carries the suggestion.
      ensures r.Approved? && r.ruleId != "" ==>
        && !alreadyApproved && r.vendor == evaluatedVendor
        && r.category == candidate.category && r.basis == candidate.basis && r.ruleId == candidate.ruleId
    {
      var version, found;
      version, found, candidate := Evaluate(evaluatedVendor, documentType, meanwhile);
      ghost var seen := State();
      if alreadyApproved {
        candidate := Candidate("", "", 0, HumanReviewed, []);
      }
      Serve(later);
      StampIsFaithfulOverRuns(seen, later);
      UnlockedRunIsRun(seen, later);
      WaitingRunKeeps(seen, later, false);
      if found > 100 {
        return Invalid, candidate;
      }
      if version != input.ruleSetVersion {
        return Conflict, candidate;
      }
      var credit := NO_CREDIT;
      if candidate.ruleId != "" && candidate.category == input.category && evaluatedVendor == input.vendor {
        credit := Credit(candidate.ruleId, candidate.version, candidate.basis);
      }
      r := Approve(input, vendorActive, credit, first, second);
    }
  }

  /**
   Without a version row nothing is locked: a first rename between the two reads
   is committed, and the approval records version 0 with a name that belongs to
   version 1; one after the category was read leaves it with a name that is gone.
   */
  method FirstRenameSlipsIn(beforeCategory: bool) returns (store: RuleStore, r: Approval)
    ensures fresh(store) && r.Approved? && Version(store.State()) == 1
    ensures r.category in store.categories && store.categories[r.category].name == "New"
    ensures r.categoryName == if beforeCategory then "New" else "Old"
  {
    store := new RuleStore();
    store.CreateCategory("c", "Old", "old");
    var rename := [Rename("c", "New", "new")];
    var input := ApproveInput("c", "", "one-off", 0);
    ghost var book := store.State();
    assert book == Book(map["c" := Category("Old", "old", false)], map[], None);
    var renamed := Book(map["c" := Category("New", "new", false)], map[], Some(1));
    assert Apply(book, rename[0]) == renamed;
    assert RunWaiting(book, rename, false) == renamed by {
      assert rename[1..] == [];
      assert RunWaiting(renamed, [], false) == renamed;
    }
    r := store.Approve(input, false, NO_CREDIT, if beforeCategory then rename else [], if beforeCategory then [] else rename);
  }

  /** A suggested rule comes from a rule set that has its version row. */
  lemma SuggestedRuleIsStamped(c: Candidate, vendor: string, documentType: string, book: Book)
    requires Consistent(book) && Suggested(c, vendor, documentType, Live(book))
    ensures c.ruleId != "" ==> book.stamp.Some?
  {
    if c.ruleId != "" {
      var rule :| Decisive(rule, Live(book), vendor, documentType);
      assert rule in Live(book);
    }
  }
}
