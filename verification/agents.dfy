/**
 * The five stage agents of document_processing/agents.py: the keyword
 * classifier, the extraction stage that reads the classification back from
 * the session, the action-item rules, the templated summary and the risk
 * rules.
 */
module Agents {
  import opened Wrappers
  import opened Text
  import opened Models
  import opened Tools
  import opened Session

  // ---------------------------------------------------------------------
  // DocumentClassifierAgent

  const InvoiceWords := ["invoice", "bill", "payment due"]
  const ContractWords := ["contract", "agreement", "terms and conditions"]
  const ReportWords := ["report", "analysis", "findings", "summary"]
  const ProposalWords := ["proposal", "quotation", "estimate"]

  /** Some keyword of the group occurs in the lower-cased text. */
  predicate MentionsAny(low: string, words: seq<string>) {
    exists w :: w in words && Contains(low, w)
  }

  /** One row of the classification rules: keywords, the type they signal, its confidence. */
  datatype Rule = Rule(words: seq<string>, docType: string, confidence: real)

  /** The rules in the order they are tried. */
  const Rules := [
    Rule(InvoiceWords, "Invoice", 0.95),
    Rule(ContractWords, "Contract", 0.90),
    Rule(ReportWords, "Report", 0.85),
    Rule(ProposalWords, "Proposal", 0.88)]

  /** The index of the first rule with a keyword in `low`, or |rules| when none has one. */
  function FirstRule(rules: seq<Rule>, low: string): (k: nat)
    ensures k <= |rules|
    ensures k < |rules| ==> MentionsAny(low, rules[k].words)
    ensures forall j :: 0 <= j < k ==> !MentionsAny(low, rules[j].words)
  {
    if rules == [] then 0
    else if MentionsAny(low, rules[0].words) then 0
    else 1 + FirstRule(rules[1..], low)
  }

  /** classify: the if/elif chain over the keyword groups of the lower-cased text. */
  function Classify(text: string): (r: (string, real))
    ensures r in {("Invoice", 0.95), ("Contract", 0.90), ("Report", 0.85), ("Proposal", 0.88), ("General Document", 0.70)}
    ensures r.0 == "Invoice" <==> MentionsAny(Lower(text), InvoiceWords)
    ensures r.0 == "General Document" <==>
      !MentionsAny(Lower(text), InvoiceWords) && !MentionsAny(Lower(text), ContractWords) &&
      !MentionsAny(Lower(text), ReportWords) && !MentionsAny(Lower(text), ProposalWords)
  {
    var low := Lower(text);
    if MentionsAny(low, InvoiceWords) then ("Invoice", 0.95)
    else if MentionsAny(low, ContractWords) then ("Contract", 0.90)
    else if MentionsAny(low, ReportWords) then ("Report", 0.85)
    else if MentionsAny(low, ProposalWords) then ("Proposal", 0.88)
    else ("General Document", 0.70)
  }

  /** The classification is that of the first rule, in table order, whose keywords occur; the fallback when none does. */
  lemma ClassifyFirstRule(text: string)
    ensures var k := FirstRule(Rules, Lower(text));
      Classify(text) == if k < |Rules| then (Rules[k].docType, Rules[k].confidence) else ("General Document", 0.70)
  {
    var low := Lower(text);
    var k := FirstRule(Rules, low);
    if k >= 1 {
      assert !MentionsAny(low, Rules[0].words);
    }
    if k >= 2 {
      assert !MentionsAny(low, Rules[1].words);
    }
    if k >= 3 {
      assert !MentionsAny(low, Rules[2].words);
    }
    if k >= 4 {
      assert !MentionsAny(low, Rules[3].words);
    }
  }

  /** The invoice group is tried first: a text mentioning both an invoice and a contract is an Invoice. */
  lemma InvoiceBeforeContract(text: string)
    requires Contains(Lower(text), "invoice")
    ensures Classify(text) == ("Invoice", 0.95)
  {
    assert "invoice" in InvoiceWords;
  }

  // ---------------------------------------------------------------------
  // InformationExtractionAgent

  /** `doc_type or "Unknown"` for what the session holds under "doc_type". */
  function StoredDocType(v: Option<Value>): (r: string)
    ensures r != ""
    ensures r == "Unknown" || v == Some(Str(r))
    ensures v.Some? && v.value.Str? && v.value.s != "" ==> r == v.value.s
  {
    match v
    case Some(Str(s)) => if s == "" then "Unknown" else s
    case _ => "Unknown"
  }

  /** `confidence or 0.0` for what the session holds under "confidence". */
  function StoredConfidence(v: Option<Value>): (r: real)
    ensures r == 0.0 || v == Some(Number(r))
    ensures v.Some? && v.value.Number? ==> r == v.value.x
  {
    match v
    case Some(Number(x)) => x
    case _ => 0.0
  }

  /** How many metadata entries of each kind the extraction keeps. */
  const MetadataLimit: nat := 5

  /** The distinct party candidates of a text. */
  function PartySet(text: string): set<string> {
    set p | p in PartyCandidates(text)
  }

  class ExtractionAgent {
    const sessionService: SessionService

    constructor(sessionService: SessionService)
      ensures this.sessionService == sessionService
    {
      this.sessionService := sessionService;
    }

    /**
     * extract: the type and confidence read back from the session (with
     * their fallbacks), and the first five dates, amounts, parties and
     * references the scanners find.
     */
    method Extract(text: string, sessionId: string) returns (m: Metadata)
      ensures m.docType == StoredDocType(sessionService.GetState(sessionId, "doc_type"))
      ensures m.confidence == StoredConfidence(sessionService.GetState(sessionId, "confidence"))
      ensures m.dates == Take(Dates(text), MetadataLimit)
      ensures m.amounts == Take(ExtractAmounts(text), MetadataLimit)
      ensures m.references == Take(References(text), MetadataLimit)
      ensures NoDuplicates(m.parties) && |m.parties| == Min(MetadataLimit, |PartySet(text)|)
      ensures forall p :: p in m.parties ==> p in PartyCandidates(text) && PartyOfText(text, p)
    {
      var docType := sessionService.GetState(sessionId, "doc_type");
      var confidence := sessionService.GetState(sessionId, "confidence");
      var dates := ExtractDates(text);
      var amounts := ExtractAmounts(text);
      var references := ExtractReferences(text);
      var parties := ExtractParties(text);
      var kept := Take(parties, MetadataLimit);
      assert forall i :: 0 <= i < |kept| ==> kept[i] == parties[i];
      m := Metadata(
        StoredDocType(docType),
        StoredConfidence(confidence),
        Take(dates, MetadataLimit),
        Take(amounts, MetadataLimit),
        kept,
        Take(references, MetadataLimit));
    }
  }

  // ---------------------------------------------------------------------
  // ActionItemsAgent

  const UrgentItem := ActionItem(High, "URGENT: Immediate attention required", "Management", None)
  const AccountingItem := ActionItem(Medium, "Update accounting system with invoice details", "Accounting", None)
  const LegalItem := ActionItem(High, "Legal review required before signing", "Legal Team", None)
  const NegotiateItem := ActionItem(Medium, "Negotiate terms if necessary", "Business Development", None)
  const ArchiveItem := ActionItem(Low, "Archive document in appropriate folder", "Admin", None)

  function PaymentItem(date: string): ActionItem {
    ActionItem(High, "Review and approve payment by " + date, "Finance Team", Some(date))
  }

  predicate IsUrgent(text: string) {
    Contains(Lower(text), "urgent") || Contains(Lower(text), "immediate")
  }

  /** The items the document type calls for. */
  function TypeActions(m: Metadata): seq<ActionItem> {
    if m.docType == "Invoice" then (if m.dates != [] then [PaymentItem(m.dates[0])] else []) + [AccountingItem]
    else if m.docType == "Contract" then [LegalItem, NegotiateItem]
    else []
  }

  /** The action list identify_actions builds: the urgent item first when called for, the type's items, then archiving. */
  function ExpectedActions(m: Metadata, text: string): seq<ActionItem> {
    (if IsUrgent(text) then [UrgentItem] else []) + TypeActions(m) + [ArchiveItem]
  }

  /** identify_actions: type items appended, the urgent item inserted at the front, the archive item appended last. */
  method IdentifyActions(m: Metadata, text: string) returns (actions: seq<ActionItem>)
    ensures actions == ExpectedActions(m, text)
  {
    actions := [];
    var low := Lower(text);
    if m.docType == "Invoice" {
      if m.dates != [] {
        actions := actions + [PaymentItem(m.dates[0])];
      }
      actions := actions + [AccountingItem];
    } else if m.docType == "Contract" {
      actions := actions + [LegalItem];
      actions := actions + [NegotiateItem];
    }
    if Contains(low, "urgent") || Contains(low, "immediate") {
      actions := [UrgentItem] + actions;
    }
    actions := actions + [ArchiveItem];
  }

  /** The list always ends with the archive item and holds one to four items. */
  lemma ActionsBounds(m: Metadata, text: string)
    ensures var a := ExpectedActions(m, text);
      1 <= |a| <= 4 && a[|a| - 1] == ArchiveItem && a[|a| - 1].priority == Low && a[|a| - 1].assignee == "Admin"
  {
  }

  /** Management is assigned an item exactly when the text is urgent, and then it is the first item. */
  lemma UrgentActions(m: Metadata, text: string)
    ensures var a := ExpectedActions(m, text);
      (exists i :: 0 <= i < |a| && a[i].assignee == "Management") <==> IsUrgent(text)
    ensures IsUrgent(text) ==> ExpectedActions(m, text)[0] == UrgentItem
  {
    var a := ExpectedActions(m, text);
    if IsUrgent(text) {
      assert a[0].assignee == "Management";
    } else {
      assert a == TypeActions(m) + [ArchiveItem];
    }
  }

  /**
   * The items after the urgent one: for an invoice with dates, a High
   * Finance Team item due on the first date, then the Accounting item; for
   * an invoice without dates only the Accounting item; for a contract the
   * Legal review then the Negotiate item; for any other type none.
   */
  lemma TypeSpecificActions(m: Metadata, text: string)
    ensures var a := ExpectedActions(m, text);
      var k := if IsUrgent(text) then 1 else 0;
      && (m.docType == "Invoice" && m.dates != [] ==>
            |a| == k + 3 && a[k].priority == High && a[k].assignee == "Finance Team" &&
            a[k].dueDate == Some(m.dates[0]) && a[k + 1] == AccountingItem)
      && (m.docType == "Invoice" && m.dates == [] ==> |a| == k + 2 && a[k] == AccountingItem)
      && (m.docType == "Contract" ==>
            |a| == k + 3 && a[k] == LegalItem && a[k].priority == High && a[k + 1] == NegotiateItem && a[k + 1].priority == Medium)
      && (m.docType != "Invoice" && m.docType != "Contract" ==> |a| == k + 1)
  {
  }

  // ---------------------------------------------------------------------
  // SummaryGenerationAgent

  /** The value of a string of decimal digits. */
  function DigitsValue(ds: string): nat
    requires AllIn(Digit, ds)
    decreases |ds|
  {
    if ds == [] then 0 else 10 * DigitsValue(ds[..|ds| - 1]) + (ds[|ds| - 1] as int - '0' as int)
  }

  /** Python's decimal rendering of a natural number: no leading zero, a single "0" for zero. */
  function NatToString(n: nat): (s: string)
    ensures |s| > 0 && AllIn(Digit, s)
    ensures s[0] == '0' ==> n == 0 && s == "0"
    ensures DigitsValue(s) == n
    decreases n
  {
    var last := [('0' as int + n % 10) as char];
    if n < 10 then last
    else
      var init := NatToString(n / 10);
      var s := init + last;
      assert s[..|s| - 1] == init;
      s
  }

  function HighCount(items: seq<ActionItem>): (n: nat)
    ensures n <= |items|
    ensures n == 0 <==> forall i :: 0 <= i < |items| ==> items[i].priority != High
  {
    if items == [] then 0 else HighCount(items[..|items| - 1]) + (if items[|items| - 1].priority == High then 1 else 0)
  }

  function PartiesClause(parties: seq<string>): string {
    if |parties| == 0 then ""
    else if |parties| == 1 then " from " + parties[0]
    else " involving " + parties[0] + " and " + parties[1]
  }

  function FinancialClause(amounts: seq<string>): string {
    if amounts == [] then "" else " Key financial values include " + Join(Take(amounts, 2), ", ") + "."
  }

  function DateClause(dates: seq<string>): string {
    if dates == [] then "" else " Important dates: " + dates[0] + "."
  }

  function ActionClause(highCount: nat): string {
    if highCount > 0 then " " + NatToString(highCount) + " high-priority actions require immediate attention." else ""
  }

  const ProcessedSentence := " has been processed and classified."
  const ClosingSentence := " The document has been categorized for appropriate workflow routing."

  /**
   * The pieces of the summary in order: the type, the party clause, the
   * fixed "processed" sentence, the financial, date and high-priority
   * clauses, and the closing sentence.
   */
  function SummaryParts(m: Metadata, items: seq<ActionItem>): (parts: seq<string>)
    ensures |parts| == 7
  {
    ["This " + Lower(m.docType), PartiesClause(m.parties), ProcessedSentence,
     FinancialClause(m.amounts), DateClause(m.dates), ActionClause(HighCount(items)), ClosingSentence]
  }

  /** generate_summary: the pieces concatenated; it opens with the lower-cased type and ends with the closing sentence. */
  function Summary(m: Metadata, items: seq<ActionItem>): (r: string)
    ensures |r| >= 5 + |m.docType| && r[..5 + |m.docType|] == "This " + Lower(m.docType)
    ensures |r| >= |ClosingSentence| && r[|r| - |ClosingSentence|..] == ClosingSentence
  {
    var parts := SummaryParts(m, items);
    ConcatHoldsPart(parts, 0);
    ConcatHoldsPart(parts, 6);
    assert parts[..0] == [];
    Concat(parts)
  }

  /**
   * The summary names the only party or the first two, the first date,
   * and the number of High items when there is one.
   */
  lemma SummaryMentions(m: Metadata, items: seq<ActionItem>)
    ensures |m.parties| == 1 ==> Contains(Summary(m, items), " from " + m.parties[0])
    ensures |m.parties| >= 2 ==> Contains(Summary(m, items), " involving " + m.parties[0] + " and " + m.parties[1])
    ensures m.dates != [] ==> Contains(Summary(m, items), " Important dates: " + m.dates[0] + ".")
    ensures HighCount(items) > 0 ==>
      Contains(Summary(m, items), " " + NatToString(HighCount(items)) + " high-priority actions require immediate attention.")
  {
    var parts := SummaryParts(m, items);
    ConcatHoldsPart(parts, 1);
    ConcatHoldsPart(parts, 4);
    ConcatHoldsPart(parts, 5);
  }

  /** The summary names the only amount, or the first two joined by a comma. */
  lemma SummaryMentionsAmounts(m: Metadata, items: seq<ActionItem>)
    ensures |m.amounts| == 1 ==> Contains(Summary(m, items), " Key financial values include " + m.amounts[0] + ".")
    ensures |m.amounts| >= 2 ==>
      Contains(Summary(m, items), " Key financial values include " + m.amounts[0] + ", " + m.amounts[1] + ".")
  {
    var parts := SummaryParts(m, items);
    ConcatHoldsPart(parts, 3);
    FinancialClauseText(m.amounts);
  }

  /** The financial sentence for one amount, and for two or more. */
  lemma FinancialClauseText(amounts: seq<string>)
    ensures |amounts| == 1 ==> FinancialClause(amounts) == " Key financial values include " + amounts[0] + "."
    ensures |amounts| >= 2 ==>
      FinancialClause(amounts) == " Key financial values include " + amounts[0] + ", " + amounts[1] + "."
  {
    var lead := " Key financial values include ";
    if |amounts| >= 2 {
      var two := Take(amounts, 2);
      assert two == [amounts[0], amounts[1]];
      assert Join(two[1..], ", ") == amounts[1];
      assert Join(two, ", ") == amounts[0] + ", " + amounts[1];
      assert lead + (amounts[0] + ", " + amounts[1]) + "." == lead + amounts[0] + ", " + amounts[1] + ".";
    } else if |amounts| == 1 {
      assert Take(amounts, 2) == [amounts[0]];
    }
  }

  /** Without a High item the action items leave no trace: the summary is that of no items. */
  lemma SummaryWithoutHigh(m: Metadata, items: seq<ActionItem>)
    requires HighCount(items) == 0
    ensures Summary(m, items) == Summary(m, [])
  {
    assert SummaryParts(m, items) == SummaryParts(m, []);
  }

  /** The high-priority count the summary reports for the action items of the same run. */
  lemma HighCountOfActions(m: Metadata, text: string)
    ensures HighCount(ExpectedActions(m, text)) ==
      (if IsUrgent(text) then 1 else 0) +
      (if m.docType == "Invoice" && m.dates != [] then 1 else 0) +
      (if m.docType == "Contract" then 1 else 0)
  {
    var u: seq<ActionItem> := if IsUrgent(text) then [UrgentItem] else [];
    var t := TypeActions(m);
    HighCountAppend(u, t);
    HighCountAppend(u + t, [ArchiveItem]);
    if m.docType == "Invoice" && m.dates != [] {
      HighCountAppend([PaymentItem(m.dates[0])], [AccountingItem]);
    } else if m.docType == "Contract" {
      HighCountAppend([LegalItem], [NegotiateItem]);
    }
  }

  lemma {:induction false} HighCountAppend(a: seq<ActionItem>, b: seq<ActionItem>)
    ensures HighCount(a + b) == HighCount(a) + HighCount(b)
    decreases |b|
  {
    if b != [] {
      var b' := b[..|b| - 1];
      assert (a + b)[..|a + b| - 1] == a + b';
      HighCountAppend(a, b');
    } else {
      assert a + b == a;
    }
  }

  // ---------------------------------------------------------------------
  // RiskAssessmentAgent

  const HighValueRisk := Risk(High, "High-value transaction requiring additional approval", "Obtain executive approval before proceeding")
  const CommitmentRisk := Risk(Medium, "Significant financial commitment", "Verify budget allocation and obtain manager approval")
  const ComplianceRisk := Risk(Medium, "Legal agreement requiring compliance review", "Complete legal checklist and obtain signatory approval")
  const DeadlineRisk := Risk(High, "Time-sensitive document with approaching deadline", "Fast-track through approval process")
  const VendorRisk := Risk(Medium, "New vendor relationship", "Complete vendor verification and due diligence")
  const StandardRisk := Risk(Low, "Standard document with no unusual risk factors", "Proceed with normal approval workflow")

  /** `a.replace("$", "").replace(",", "")`. */
  function Cleaned(a: string): (r: string)
    ensures '$' !in r && ',' !in r
    decreases |a|
  {
    if a == [] then []
    else (if a[0] == '$' || a[0] == ',' then [] else [a[0]]) + Cleaned(a[1..])
  }

  function Pow10(n: nat): (p: nat)
    ensures p > 0
  {
    if n == 0 then 1 else 10 * Pow10(n - 1)
  }

  /**
   * `float(s)` for the strings the amount scanner can leave: digits with at
   * most one point and at least one digit; anything else raises (None).
   */
  function ParseDecimal(s: string): (r: Option<real>)
    ensures r.Some? ==> r.value >= 0.0
  {
    var k := IndexOf(s, '.');
    var whole := s[..k];
    var frac := if k < |s| then s[k + 1..] else "";
    if AllIn(Digit, whole) && AllIn(Digit, frac) && |whole| + |frac| > 0 then
      Some(DecimalValue(whole, frac))
    else None
  }

  /** The number written by the digits before and after a decimal point. */
  function DecimalValue(whole: string, frac: string): (v: real)
    requires AllIn(Digit, whole) && AllIn(Digit, frac)
    ensures v >= 0.0
  {
    DigitsValue(whole) as real + DigitsValue(frac) as real / Pow10(|frac|) as real
  }

  function ParseAmount(a: string): (r: Option<real>)
    ensures r.Some? ==> r.value >= 0.0
  {
    ParseDecimal(Cleaned(a))
  }

  /** The parsed amounts, or None when any of them does not parse. */
  function ParseAll(amounts: seq<string>): (r: Option<seq<real>>)
    ensures r.Some? <==> forall i :: 0 <= i < |amounts| ==> ParseAmount(amounts[i]).Some?
    ensures r.Some? ==> |r.value| == |amounts| && forall i :: 0 <= i < |amounts| ==> r.value[i] == ParseAmount(amounts[i]).value
    decreases |amounts|
  {
    if amounts == [] then Some([])
    else match ParseAmount(amounts[0])
      case None => None
      case Some(x) =>
        match ParseAll(amounts[1..])
        case None => None
        case Some(xs) => Some([x] + xs)
  }

  function MaxOf(xs: seq<real>): (m: real)
    requires |xs| > 0
    ensures m in xs
    ensures forall x :: x in xs ==> x <= m
  {
    if |xs| == 1 then xs[0]
    else
      var rest := MaxOf(xs[1..]);
      assert forall x :: x in xs ==> x == xs[0] || x in xs[1..];
      if xs[0] >= rest then xs[0] else rest
  }

  /** The amount rule: above 50000 High, above 10000 Medium; skipped when there are no amounts or one fails to parse. */
  function AmountRisks(amounts: seq<string>): (r: seq<Risk>)
    ensures r == [] || r == [HighValueRisk] || r == [CommitmentRisk]
  {
    if amounts == [] then []
    else match ParseAll(amounts)
      case None => []
      case Some(xs) =>
        var top := MaxOf(xs);
        if top > 50000.0 then [HighValueRisk]
        else if top > 10000.0 then [CommitmentRisk]
        else []
  }

  /**
   * The amount rule's thresholds, strict on both sides: High when some
   * amount exceeds 50000, Medium when the largest exceeds 10000 but not
   * 50000; nothing when an amount fails to parse.
   */
  lemma AmountThresholds(amounts: seq<string>)
    ensures AmountRisks(amounts) == [HighValueRisk] <==>
      amounts != [] && ParseAll(amounts).Some? && exists x :: x in ParseAll(amounts).value && x > 50000.0
    ensures AmountRisks(amounts) == [CommitmentRisk] <==>
      amounts != [] && ParseAll(amounts).Some? &&
      (forall x :: x in ParseAll(amounts).value ==> x <= 50000.0) &&
      (exists x :: x in ParseAll(amounts).value && x > 10000.0)
    ensures ParseAll(amounts).None? ==> AmountRisks(amounts) == []
  {
    if amounts != [] && ParseAll(amounts).Some? {
      var xs := ParseAll(amounts).value;
      var top := MaxOf(xs);
      if exists x :: x in xs && x > 10000.0 {
        var x :| x in xs && x > 10000.0;
        assert top >= x;
      }
    }
  }

  function ContractRisks(m: Metadata): seq<Risk> {
    if m.docType == "Contract" then [ComplianceRisk] else []
  }

  /** Only "urgent" counts here, and only when there are dates. */
  function DeadlineRisks(m: Metadata, low: string): seq<Risk> {
    if m.dates != [] && Contains(low, "urgent") then [DeadlineRisk] else []
  }

  function VendorRisks(low: string): seq<Risk> {
    if Contains(low, "new vendor") || Contains(low, "first time") then [VendorRisk] else []
  }

  /** The flagged risks, in rule order, before the Low fallback. */
  function FlaggedRisks(m: Metadata, text: string): seq<Risk> {
    var low := Lower(text);
    AmountRisks(m.amounts) + ContractRisks(m) + DeadlineRisks(m, low) + VendorRisks(low)
  }

  /** The risk list assess_risks returns: the flagged risks, or the Low standard entry alone when there are none. */
  function ExpectedRisks(m: Metadata, text: string): seq<Risk> {
    var flagged := FlaggedRisks(m, text);
    if flagged == [] then [StandardRisk] else flagged
  }

  /** assess_risks: the rules append in order; the fallback is appended when nothing was flagged. */
  method AssessRisks(m: Metadata, text: string) returns (risks: seq<Risk>)
    ensures risks == ExpectedRisks(m, text)
  {
    risks := [];
    var low := Lower(text);
    ghost var amountRisks := AmountRisks(m.amounts);
    AmountRiskCases(m.amounts);
    if m.amounts != [] {
      var parsed := ParseAll(m.amounts);
      if parsed.Some? {
        var maxAmount := MaxOf(parsed.value);
        if maxAmount > 50000.0 {
          risks := risks + [HighValueRisk];
        } else if maxAmount > 10000.0 {
          risks := risks + [CommitmentRisk];
        }
      }
    }
    assert risks == amountRisks;
    if m.docType == "Contract" {
      risks := risks + [ComplianceRisk];
    }
    ghost var contractRisks := ContractRisks(m);
    assert risks == amountRisks + contractRisks;
    if m.dates != [] && Contains(low, "urgent") {
      risks := risks + [DeadlineRisk];
    }
    ghost var deadlineRisks := DeadlineRisks(m, low);
    assert risks == amountRisks + contractRisks + deadlineRisks;
    if Contains(low, "new vendor") || Contains(low, "first time") {
      risks := risks + [VendorRisk];
    }
    ghost var vendorRisks := VendorRisks(low);
    assert risks == amountRisks + contractRisks + deadlineRisks + vendorRisks;
    assert risks == FlaggedRisks(m, text);
    if risks == [] {
      risks := risks + [StandardRisk];
    }
  }

  /** The amount rule case by case, as assess_risks tests it. */
  lemma AmountRiskCases(amounts: seq<string>)
    ensures amounts == [] || ParseAll(amounts).None? ==> AmountRisks(amounts) == []
    ensures amounts != [] && ParseAll(amounts).Some? ==>
      var top := MaxOf(ParseAll(amounts).value);
      AmountRisks(amounts) == (if top > 50000.0 then [HighValueRisk] else if top > 10000.0 then [CommitmentRisk] else [])
  {
  }

  /** The risk list is never empty, and the standard Low entry only ever appears alone. */
  lemma RisksNonEmpty(m: Metadata, text: string)
    ensures |ExpectedRisks(m, text)| >= 1
    ensures StandardRisk in ExpectedRisks(m, text) ==> ExpectedRisks(m, text) == [StandardRisk]
    ensures |ExpectedRisks(m, text)| <= 4
  {
    FlaggedBounds(m, text);
  }

  /** Each rule flags at most one risk, and none of them is the standard entry. */
  lemma FlaggedBounds(m: Metadata, text: string)
    ensures |FlaggedRisks(m, text)| <= 4 && StandardRisk !in FlaggedRisks(m, text)
  {
    var low := Lower(text);
    var a := AmountRisks(m.amounts);
    var b := ContractRisks(m);
    var c := DeadlineRisks(m, low);
    var d := VendorRisks(low);
    assert FlaggedRisks(m, text) == a + b + c + d;
    assert |a| <= 1 && |b| <= 1 && |c| <= 1 && |d| <= 1;
    assert forall r :: r in a + b + c + d ==> r in a || r in b || r in c || r in d;
    assert forall r :: r in a || r in b || r in c || r in d ==> r.level != Low;
  }

  /** Every risk level is Low exactly when nothing was flagged. */
  lemma LowOnlyWhenUnflagged(m: Metadata, text: string)
    ensures (forall i :: 0 <= i < |ExpectedRisks(m, text)| ==> ExpectedRisks(m, text)[i].level == Low) <==>
      FlaggedRisks(m, text) == []
  {
    var flagged := FlaggedRisks(m, text);
    if flagged != [] {
      var a := AmountRisks(m.amounts);
      if a != [] {
        assert flagged[0] == a[0];
      }
      assert flagged[0].level != Low;
      assert ExpectedRisks(m, text)[0] == flagged[0];
    }
  }

  /** An amount the scanner finds fails to parse exactly when it holds no digit, like "$,". */
  lemma ScannedAmountParses(x: string)
    requires IsAmountText(x)
    ensures ParseAmount(x).None? <==> forall i :: 0 <= i < |x| ==> !IsDigit(x[i])
  {
    var tail := x[1..];
    assert Cleaned(x) == Cleaned(tail);
    DigitsInTail(x);
    if AllIn(DigitOrComma, tail) {
      WholeAmountParses(tail);
    } else {
      assert tail == x[1..|x| - 3] + x[|x| - 3..];
      FractionAmountParses(x[1..|x| - 3], x[|x| - 3..]);
      assert IsDigit(x[|x| - 1]);
    }
  }

  /** A text whose first character is no digit holds a digit exactly when the rest does. */
  lemma DigitsInTail(x: string)
    requires |x| > 0 && !IsDigit(x[0])
    ensures (forall i :: 0 <= i < |x| ==> !IsDigit(x[i])) <==> (forall i :: 0 <= i < |x[1..]| ==> !IsDigit(x[1..][i]))
  {
    if exists i :: 0 <= i < |x| && IsDigit(x[i]) {
      var i :| 0 <= i < |x| && IsDigit(x[i]);
      assert x[1..][i - 1] == x[i];
    }
  }

  /** A run of digits parses to the number it writes in decimal. */
  lemma DigitsParse(w: string)
    requires AllIn(Digit, w) && w != []
    ensures ParseDecimal(w) == Some(DigitsValue(w) as real)
  {
    assert IndexOf(w, '.') == |w|;
    assert w[..|w|] == w;
    assert DecimalValue(w, "") == DigitsValue(w) as real;
  }

  /** `$` and a run of digits is the amount the digits write. */
  lemma DollarDigitsValue(w: string)
    requires AllIn(Digit, w) && w != []
    ensures ParseAmount("$" + w) == Some(DigitsValue(w) as real)
  {
    assert forall i :: 0 <= i < |w| ==> w[i] != '$' && w[i] != ',' by {
      assert forall i :: 0 <= i < |w| ==> IsDigit(w[i]);
    }
    CleanedKeeps(w);
    CleanedConcat("$", w);
    assert Cleaned("$") == [];
    assert Cleaned("$" + w) == w;
    DigitsParse(w);
  }

  /** `$`, digits, a point and two cent digits is the amount plus the cents over 100. */
  lemma DollarCentsValue(w: string, cents: string)
    requires AllIn(Digit, w) && w != [] && AllIn(Digit, cents) && |cents| == 2
    ensures ParseAmount("$" + w + "." + cents) == Some(DecimalValue(w, cents))
    ensures DecimalValue(w, cents) == DigitsValue(w) as real + DigitsValue(cents) as real / 100.0
  {
    CleanedCents(w, cents);
    PointFractionParses(w, cents);
    CentsValue(w, cents);
  }

  /** Cleaning drops only the leading `$` of a dollars-and-cents text. */
  lemma CleanedCents(w: string, cents: string)
    requires AllIn(Digit, w) && AllIn(Digit, cents)
    ensures Cleaned("$" + w + "." + cents) == w + ['.'] + cents
  {
    var rest := w + ['.'] + cents;
    forall i | 0 <= i < |rest|
      ensures rest[i] != '$' && rest[i] != ','
    {
      if i < |w| {
        assert rest[i] == w[i];
      } else if i > |w| {
        assert rest[i] == cents[i - |w| - 1];
      }
    }
    CleanedKeeps(rest);
    var whole := "$" + w + "." + cents;
    assert whole == "$" + rest;
    assert whole[0] == '$' && whole[1..] == rest;
  }

  /** Two cent digits count as hundredths. */
  lemma CentsValue(w: string, cents: string)
    requires AllIn(Digit, w) && AllIn(Digit, cents) && |cents| == 2
    ensures DecimalValue(w, cents) == DigitsValue(w) as real + DigitsValue(cents) as real / 100.0
  {
    assert Pow10(|cents|) == 100;
  }

  /** Digits and commas with no fraction parse exactly when there is a digit. */
  lemma WholeAmountParses(a: string)
    requires AllIn(DigitOrComma, a)
    ensures ParseDecimal(Cleaned(a)).None? <==> forall i :: 0 <= i < |a| ==> !IsDigit(a[i])
  {
    CleanedDigits(a);
    var c := Cleaned(a);
    assert IndexOf(c, '.') == |c|;
  }

  /** Digits and commas followed by a point and two digits always parse. */
  lemma FractionAmountParses(a: string, tail: string)
    requires AllIn(DigitOrComma, a)
    requires |tail| == 3 && tail[0] == '.' && IsDigit(tail[1]) && IsDigit(tail[2])
    ensures ParseDecimal(Cleaned(a + tail)).Some?
  {
    var w := Cleaned(a);
    var f := tail[1..];
    CleanedConcat(a, tail);
    CleanedDigits(a);
    CleanedKeeps(tail);
    assert Cleaned(a + tail) == w + ['.'] + f by {
      assert tail == ['.'] + f;
    }
    PointFractionParses(w, f);
  }

  /** Digits, a point and at least one more digit parse to the whole part plus the fraction. */
  lemma PointFractionParses(whole: string, frac: string)
    requires AllIn(Digit, whole) && AllIn(Digit, frac) && |frac| > 0
    ensures ParseDecimal(whole + ['.'] + frac) == Some(DecimalValue(whole, frac))
  {
    var c := whole + ['.'] + frac;
    assert '.' !in whole by {
      assert forall i :: 0 <= i < |whole| ==> IsDigit(whole[i]);
    }
    assert c == whole + (['.'] + frac);
    IndexOfAfter(whole, ['.'] + frac, '.');
    assert c[..|whole|] == whole;
    assert c[|whole| + 1..] == frac;
  }

  lemma {:induction false} CleanedConcat(a: string, b: string)
    ensures Cleaned(a + b) == Cleaned(a) + Cleaned(b)
    decreases |a|
  {
    if a != [] {
      assert (a + b)[1..] == a[1..] + b;
      CleanedConcat(a[1..], b);
    } else {
      assert a + b == b;
    }
  }

  /** Cleaning a run of digits and commas leaves its digits, and leaves something exactly when it had a digit. */
  lemma {:induction false} CleanedDigits(a: string)
    requires AllIn(DigitOrComma, a)
    ensures AllIn(Digit, Cleaned(a))
    ensures |Cleaned(a)| > 0 <==> exists i :: 0 <= i < |a| && IsDigit(a[i])
    decreases |a|
  {
    if a != [] {
      CleanedDigits(a[1..]);
      if exists i :: 0 <= i < |a[1..]| && IsDigit(a[1..][i]) {
        var i :| 0 <= i < |a[1..]| && IsDigit(a[1..][i]);
        assert IsDigit(a[i + 1]);
      }
      if exists i :: 0 <= i < |a| && IsDigit(a[i]) {
        var i :| 0 <= i < |a| && IsDigit(a[i]);
        if i > 0 {
          assert IsDigit(a[1..][i - 1]);
        }
      }
    }
  }

  /** Cleaning a string without "$" and "," leaves it as it is. */
  lemma {:induction false} CleanedKeeps(a: string)
    requires forall i :: 0 <= i < |a| ==> a[i] != '$' && a[i] != ','
    ensures Cleaned(a) == a
    decreases |a|
  {
    if a != [] {
      CleanedKeeps(a[1..]);
    }
  }
}
