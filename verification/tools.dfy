/**
 * The text scanners of document_processing/tools.py.
 *
 * Each regular expression of the source is a case of `Regex`; `MatchAt`
 * gives the outcome of Python's backtracking matcher for that fixed pattern
 * at one position, and `FindFrom` repeats it left to right the way
 * `re.findall` does: leftmost match first, no overlaps, the scan resuming at
 * the end of the previous match. Each pattern needs at least one character,
 * so no empty match arises.
 */
module Tools {
  import opened Wrappers
  import opened Text

  datatype Regex =
    | IsoDate           // \d{4}-\d{2}-\d{2}
    | SlashDate         // \d{2}/\d{2}/\d{4}
    | MonthDate         // (?:Jan|...|Dec)[a-z]* \d{1,2},? \d{4}, ignoring case
    | Amount            // \$[\d,]+(?:\.\d{2})?
    | InvoiceRef        // (?:INV|Invoice)[-#]?\s*(\d+), ignoring case
    | PurchaseOrderRef  // (?:PO|Purchase Order)[-#]?\s*(\d+), ignoring case
    | GenericRef        // (?:REF|Reference)[-#]?\s*([A-Z0-9-]+), ignoring case

  /** A match ending before `end`; `found` is what findall reports: group 1 if the pattern has one, else the whole match. */
  datatype Match = Match(end: nat, found: string)

  /** `w` has the shape of `template`, where 'D' stands for any digit and every other character for itself. */
  predicate FitsTemplate(template: string, w: string) {
    |w| == |template| &&
    forall k :: 0 <= k < |w| ==> if template[k] == 'D' then IsDigit(w[k]) else w[k] == template[k]
  }

  const IsoTemplate := "DDDD-DD-DD"
  const SlashTemplate := "DD/DD/DDDD"
  const MonthPrefixes := ["jan", "feb", "mar", "apr", "may", "jun", "jul", "aug", "sep", "oct", "nov", "dec"]

  /** A pattern made only of digits and fixed characters. */
  function FixedAt(template: string, s: string, i: nat): (m: Option<Match>)
    requires i < |s|
    ensures m.Some? ==> m.value.end == i + |template| <= |s| && m.value.found == s[i..m.value.end]
  {
    if i + |template| <= |s| && FitsTemplate(template, s[i..i + |template|])
    then Some(Match(i + |template|, s[i..i + |template|]))
    else None
  }

  /**
   * The month-name date. `[a-z]*` (widened to all letters by IGNORECASE)
   * must be followed by a space, so only its longest run can succeed;
   * `\d{1,2}` followed by a comma or a space leaves no choice either.
   */
  function MonthDateAt(s: string, i: nat): (m: Option<Match>)
    requires i < |s|
    ensures m.Some? ==> i < m.value.end <= |s| && m.value.found == s[i..m.value.end]
  {
    if i + 3 <= |s| && Lower(s[i..i + 3]) in MonthPrefixes then
      var a := RunEnd(Letter, s, i + 3);
      if a + 1 < |s| && s[a] == ' ' && IsDigit(s[a + 1]) then
        var d := if a + 2 < |s| && IsDigit(s[a + 2]) then a + 3 else a + 2;
        var c := if d < |s| && s[d] == ',' then d + 1 else d;
        if c + 5 <= |s| && FitsTemplate(" DDDD", s[c..c + 5])
        then Some(Match(c + 5, s[i..c + 5]))
        else None
      else None
    else None
  }

  /** The amount: `$`, the longest run of digits and commas, then `.dd` if it follows. */
  function AmountAt(s: string, i: nat): (m: Option<Match>)
    requires i < |s|
    ensures m.Some? ==> i < m.value.end <= |s| && m.value.found == s[i..m.value.end]
  {
    if s[i] == '$' then
      var j := RunEnd(DigitOrComma, s, i + 1);
      if j == i + 1 then None
      else if j + 3 <= |s| && s[j] == '.' && IsDigit(s[j + 1]) && IsDigit(s[j + 2])
      then Some(Match(j + 3, s[i..j + 3]))
      else Some(Match(j, s[i..j]))
    else None
  }

  /**
   * `\s*(code+)` from position `j`. The code classes hold no whitespace, so
   * only the longest run of whitespace can be followed by a code character.
   */
  function CodeAt(code: CharClass, s: string, j: nat): (m: Option<Match>)
    requires j <= |s|
    ensures m.Some? ==> j < m.value.end <= |s| && IsCode(code, m.value.found)
    ensures m.Some? ==> |m.value.found| <= m.value.end - j && m.value.found == s[m.value.end - |m.value.found|..m.value.end]
  {
    var w := RunEnd(Space, s, j);
    if w < |s| && InClass(code, s[w]) then
      var e := RunEnd(code, s, w);
      Some(Match(e, s[w..e]))
    else None
  }

  /**
   * One prefix alternative, then `[-#]?`, then `\s*(code+)`. The optional
   * separator is tried taken first and, when that fails, not taken; only a
   * code class holding '-' can succeed the second way.
   */
  function RefAfterPrefix(prefix: string, code: CharClass, s: string, i: nat): (m: Option<Match>)
    requires i < |s|
    ensures m.Some? ==> i < m.value.end <= |s| && IsCode(code, m.value.found)
    ensures m.Some? ==> |m.value.found| <= m.value.end - i && m.value.found == s[m.value.end - |m.value.found|..m.value.end]
  {
    if |prefix| > 0 && i + |prefix| <= |s| && Lower(s[i..i + |prefix|]) == prefix then
      var j := i + |prefix|;
      if j < |s| && (s[j] == '-' || s[j] == '#') then
        match CodeAt(code, s, j + 1)
        case Some(m) => Some(m)
        case None => CodeAt(code, s, j)
      else CodeAt(code, s, j)
    else None
  }

  /** A reference pattern: the short prefix alternative is tried before the long one. */
  function RefAt(short: string, long: string, code: CharClass, s: string, i: nat): (m: Option<Match>)
    requires i < |s|
    ensures m.Some? ==> i < m.value.end <= |s| && IsCode(code, m.value.found)
    ensures m.Some? ==> |m.value.found| <= m.value.end - i && m.value.found == s[m.value.end - |m.value.found|..m.value.end]
  {
    match RefAfterPrefix(short, code, s, i)
    case Some(m) => Some(m)
    case None => RefAfterPrefix(long, code, s, i)
  }

  /** A pattern with a capture group: findall reports the group, not the whole match. */
  predicate HasGroup(r: Regex) {
    r.InvoiceRef? || r.PurchaseOrderRef? || r.GenericRef?
  }

  /** The match of `r` that starts at position `i`, if there is one. */
  function MatchAt(r: Regex, s: string, i: nat): (m: Option<Match>)
    requires i < |s|
    ensures m.Some? ==> i < m.value.end <= |s|
  {
    match r
    case IsoDate => FixedAt(IsoTemplate, s, i)
    case SlashDate => FixedAt(SlashTemplate, s, i)
    case MonthDate => MonthDateAt(s, i)
    case Amount => AmountAt(s, i)
    case InvoiceRef => RefAt("inv", "invoice", Digit, s, i)
    case PurchaseOrderRef => RefAt("po", "purchase order", Digit, s, i)
    case GenericRef => RefAt("ref", "reference", CodeChar, s, i)
  }

  /** `re.findall(r, s[i:])`, scanning left to right. */
  function FindFrom(r: Regex, s: string, i: nat): seq<string>
    requires i <= |s|
    decreases |s| - i
  {
    if i == |s| then []
    else match MatchAt(r, s, i)
      case Some(m) => [m.found] + FindFrom(r, s, m.end)
      case None => FindFrom(r, s, i + 1)
  }

  function FindAll(r: Regex, s: string): seq<string> {
    FindFrom(r, s, 0)
  }

  // ---------------------------------------------------------------------
  // What a match looks like

  /**
   * `x` splits at `a` and `d` into: three characters, letters up to `a`, a
   * space at `a`, one or two digits up to `d`, an optional comma at `d`,
   * then a space and four digits.
   */
  predicate MonthDateParts(x: string, a: nat, d: nat) {
    3 <= a && a + 2 <= d <= a + 3 && d + 5 <= |x| <= d + 6 &&
    AllIn(Letter, x[3..a]) && x[a] == ' ' && AllIn(Digit, x[a + 1..d]) &&
    (|x| == d + 6 ==> x[d] == ',') && FitsTemplate(" DDDD", x[|x| - 5..])
  }

  /** A month-name date: a month abbreviation, more letters, a space, a one- or two-digit day, an optional comma, a space and a four-digit year. */
  predicate IsMonthDateText(x: string) {
    |x| >= 3 && Lower(x[..3]) in MonthPrefixes && exists a: nat, d: nat | a < d < |x| :: MonthDateParts(x, a, d)
  }

  /** `$`, a non-empty run of digits and commas, and optionally `.` and two digits. */
  predicate IsAmountText(x: string) {
    |x| >= 2 && x[0] == '$' &&
    (AllIn(DigitOrComma, x[1..]) ||
     (|x| >= 5 && AllIn(DigitOrComma, x[1..|x| - 3]) && FitsTemplate(".DD", x[|x| - 3..])))
  }

  /** A captured reference code: a non-empty run of the pattern's code class. */
  predicate IsCode(code: CharClass, x: string) {
    |x| > 0 && AllIn(code, x)
  }

  predicate Shape(r: Regex, x: string) {
    match r
    case IsoDate => FitsTemplate(IsoTemplate, x)
    case SlashDate => FitsTemplate(SlashTemplate, x)
    case MonthDate => IsMonthDateText(x)
    case Amount => IsAmountText(x)
    case InvoiceRef => IsCode(Digit, x)
    case PurchaseOrderRef => IsCode(Digit, x)
    case GenericRef => IsCode(CodeChar, x)
  }

  lemma MonthDateAtShape(s: string, i: nat)
    requires i < |s|
    ensures MonthDateAt(s, i).Some? ==> IsMonthDateText(MonthDateAt(s, i).value.found)
  {
    var m := MonthDateAt(s, i);
    if m.Some? {
      var a := RunEnd(Letter, s, i + 3);
      var d := if a + 2 < |s| && IsDigit(s[a + 2]) then a + 3 else a + 2;
      var c := if d < |s| && s[d] == ',' then d + 1 else d;
      MonthDateAtPieces(s, i, a, d, c);
      SlicedMonthDate(s, i, a, d, c);
      var x := m.value.found;
      assert x[..3] == s[i..i + 3];
      assert MonthDateParts(x, a - i, d - i);
    }
  }

  /** The pieces MonthDateAt reads when it matches: letters, a space, the day digits, the optional comma, the year. */
  lemma MonthDateAtPieces(s: string, i: nat, a: nat, d: nat, c: nat)
    requires i < |s| && MonthDateAt(s, i).Some?
    requires a == RunEnd(Letter, s, i + 3)
    requires d == (if a + 2 < |s| && IsDigit(s[a + 2]) then a + 3 else a + 2)
    requires c == (if d < |s| && s[d] == ',' then d + 1 else d)
    ensures i + 3 <= a && a + 2 <= d <= a + 3 && d <= c <= d + 1 && c + 5 <= |s|
    ensures AllIn(Letter, s[i + 3..a]) && s[a] == ' ' && AllIn(Digit, s[a + 1..d])
    ensures c == d + 1 ==> s[d] == ','
    ensures FitsTemplate(" DDDD", s[c..c + 5])
    ensures MonthDateAt(s, i).value.found == s[i..c + 5]
  {
    var digits := s[a + 1..d];
    forall t | 0 <= t < |digits|
      ensures InClass(Digit, digits[t])
    {
      assert digits[t] == s[a + 1 + t];
    }
  }

  /** The month-date pieces found in `s` from `i` are those of the matched text. */
  lemma SlicedMonthDate(s: string, i: nat, a: nat, d: nat, c: nat)
    requires i + 3 <= a && a + 2 <= d <= a + 3 && d <= c <= d + 1 && c + 5 <= |s|
    requires AllIn(Letter, s[i + 3..a]) && s[a] == ' ' && AllIn(Digit, s[a + 1..d])
    requires c == d + 1 ==> s[d] == ','
    requires FitsTemplate(" DDDD", s[c..c + 5])
    ensures MonthDateParts(s[i..c + 5], a - i, d - i)
  {
    var x := s[i..c + 5];
    forall k | 3 <= k < a - i
      ensures InClass(Letter, x[k])
    {
      assert x[k] == s[i + 3..a][k - 3];
    }
    forall k | a - i + 1 <= k < d - i
      ensures InClass(Digit, x[k])
    {
      assert x[k] == s[a + 1..d][k - (a - i + 1)];
    }
    assert x[|x| - 5..] == s[c..c + 5];
  }

  lemma AmountAtShape(s: string, i: nat)
    requires i < |s|
    ensures AmountAt(s, i).Some? ==> IsAmountText(AmountAt(s, i).value.found)
  {
    var m := AmountAt(s, i);
    if m.Some? {
      var j := RunEnd(DigitOrComma, s, i + 1);
      var x := m.value.found;
      assert x[1..j - i] == s[i + 1..j];
    }
  }

  lemma MatchAtShape(r: Regex, s: string, i: nat)
    requires i < |s|
    ensures MatchAt(r, s, i).Some? ==> Shape(r, MatchAt(r, s, i).value.found)
  {
    match r
    case MonthDate => MonthDateAtShape(s, i);
    case Amount => AmountAtShape(s, i);
    case _ =>
  }

  /**
   * What findall reports for a match is a non-empty text ending where the
   * match ends: the whole match, or, for a pattern with a group, the group,
   * which closes the match.
   */
  lemma MatchAtReports(r: Regex, s: string, i: nat)
    requires i < |s| && MatchAt(r, s, i).Some?
    ensures var m := MatchAt(r, s, i).value;
      0 < |m.found| <= m.end - i && m.found == s[m.end - |m.found|..m.end] &&
      (!HasGroup(r) ==> m.found == s[i..m.end])
  {
    match r
    case IsoDate =>
    case SlashDate =>
    case MonthDate =>
    case Amount =>
    case _ =>
  }

  /** Everything findall reports for `r` has the shape `r` describes. */
  lemma {:induction false} FindFromShape(r: Regex, s: string, i: nat)
    requires i <= |s|
    ensures forall x :: x in FindFrom(r, s, i) ==> Shape(r, x)
    decreases |s| - i
  {
    if i < |s| {
      MatchAtShape(r, s, i);
      match MatchAt(r, s, i)
      case Some(m) => FindFromShape(r, s, m.end);
      case None => FindFromShape(r, s, i + 1);
    }
  }

  /**
   * Nothing before the first match is reported: the scan reports the match
   * at the first position where the pattern matches, then resumes at its end.
   */
  lemma {:induction false} FindFromFirst(r: Regex, s: string, i: nat, p: nat)
    requires i <= p < |s| && MatchAt(r, s, p).Some?
    requires forall q :: i <= q < p ==> MatchAt(r, s, q).None?
    ensures FindFrom(r, s, i) == [MatchAt(r, s, p).value.found] + FindFrom(r, s, MatchAt(r, s, p).value.end)
    decreases p - i
  {
    if i < p {
      FindFromFirst(r, s, i + 1, p);
    }
  }

  /** A pattern that matches somewhere at or after `i` makes the scan from `i` report something. */
  lemma {:induction false} FindFromReports(r: Regex, s: string, i: nat, p: nat)
    requires i <= p < |s| && MatchAt(r, s, p).Some?
    ensures FindFrom(r, s, i) != []
    decreases p - i
  {
    if MatchAt(r, s, i).None? {
      FindFromReports(r, s, i + 1, p);
    }
  }

  /** The run of class `k` from `i` ends at `e` when everything before `e` is in the class and `s[e]` is not. */
  lemma {:induction false} RunEndAt(k: CharClass, s: string, i: nat, e: nat)
    requires i <= e < |s| && AllIn(k, s[i..e]) && !InClass(k, s[e])
    ensures RunEnd(k, s, i) == e
    decreases e - i
  {
    if i < e {
      assert s[i..e][0] == s[i];
      var rest := s[i + 1..e];
      forall t | 0 <= t < |rest|
        ensures InClass(k, rest[t])
      {
        assert rest[t] == s[i..e][t + 1];
      }
      RunEndAt(k, s, i + 1, e);
    }
  }

  // ---------------------------------------------------------------------
  // DocumentParserTool

  const DatePatterns: seq<Regex> := [IsoDate, SlashDate, MonthDate]
  const ReferencePatterns: seq<Regex> := [InvoiceRef, PurchaseOrderRef, GenericRef]

  /** The findall results of each pattern in turn, concatenated. */
  function FindEach(rs: seq<Regex>, s: string): seq<string>
    decreases |rs|
  {
    if rs == [] then [] else FindEach(rs[..|rs| - 1], s) + FindAll(rs[|rs| - 1], s)
  }

  /** What extract_dates returns: every ISO date, then every slash date, then every month-name date. */
  function Dates(text: string): seq<string> {
    FindAll(IsoDate, text) + FindAll(SlashDate, text) + FindAll(MonthDate, text)
  }

  method ExtractDates(text: string) returns (dates: seq<string>)
    ensures dates == Dates(text)
  {
    dates := [];
    for k := 0 to |DatePatterns|
      invariant dates == FindEach(DatePatterns[..k], text)
    {
      assert DatePatterns[..k + 1][..k] == DatePatterns[..k];
      dates := dates + FindAll(DatePatterns[k], text);
    }
    assert DatePatterns[..3] == DatePatterns;
    FoundInTurn(text);
  }

  /** Going through the three date patterns in turn gives the dates of the text. */
  lemma FoundInTurn(text: string)
    ensures FindEach(DatePatterns, text) == Dates(text)
  {
    var rs := DatePatterns;
    var a := FindAll(IsoDate, text);
    var b := FindAll(SlashDate, text);
    assert FindEach(rs[..1], text) == a by {
      assert rs[..1][..0] == [];
    }
    assert FindEach(rs[..2], text) == a + b by {
      assert rs[..2][..1] == rs[..1];
    }
    assert rs[..2] == rs[..|rs| - 1];
  }

  /** Every date is one of the three shapes, group by group. */
  lemma DatesShape(text: string)
    ensures forall x :: x in FindAll(IsoDate, text) ==> FitsTemplate(IsoTemplate, x)
    ensures forall x :: x in FindAll(SlashDate, text) ==> FitsTemplate(SlashTemplate, x)
    ensures forall x :: x in FindAll(MonthDate, text) ==> IsMonthDateText(x)
  {
    FindFromShape(IsoDate, text, 0);
    FindFromShape(SlashDate, text, 0);
    FindFromShape(MonthDate, text, 0);
  }

  /** extract_amounts: a single findall of the amount pattern. */
  function ExtractAmounts(text: string): (amounts: seq<string>)
    ensures forall a :: a in amounts ==> IsAmountText(a)
  {
    FindFromShape(Amount, text, 0);
    FindAll(Amount, text)
  }

  /** Each captured code rewritten as `REF-<code>`. */
  function Prefixed(codes: seq<string>): (refs: seq<string>)
    ensures |refs| == |codes|
    ensures forall k :: 0 <= k < |codes| ==> refs[k] == "REF-" + codes[k]
  {
    seq(|codes|, k requires 0 <= k < |codes| => "REF-" + codes[k])
  }

  /** What extract_references returns: the INV/Invoice codes, then the PO/Purchase Order codes, then the REF/Reference codes. */
  function References(text: string): seq<string> {
    Prefixed(FindAll(InvoiceRef, text)) + Prefixed(FindAll(PurchaseOrderRef, text)) + Prefixed(FindAll(GenericRef, text))
  }

  /** The prefixed findall results of each pattern in turn, concatenated. */
  function FindEachPrefixed(rs: seq<Regex>, s: string): seq<string>
    decreases |rs|
  {
    if rs == [] then [] else FindEachPrefixed(rs[..|rs| - 1], s) + Prefixed(FindAll(rs[|rs| - 1], s))
  }

  method ExtractReferences(text: string) returns (references: seq<string>)
    ensures references == References(text)
  {
    references := [];
    for k := 0 to |ReferencePatterns|
      invariant references == FindEachPrefixed(ReferencePatterns[..k], text)
    {
      assert ReferencePatterns[..k + 1][..k] == ReferencePatterns[..k];
      var matches := FindAll(ReferencePatterns[k], text);
      references := references + Prefixed(matches);
    }
    assert ReferencePatterns[..3] == ReferencePatterns;
    PrefixedInTurn(text);
  }

  /** Going through the three reference patterns in turn gives the references of the text. */
  lemma PrefixedInTurn(text: string)
    ensures FindEachPrefixed(ReferencePatterns, text) == References(text)
  {
    var rs := ReferencePatterns;
    var a := Prefixed(FindAll(InvoiceRef, text));
    var b := Prefixed(FindAll(PurchaseOrderRef, text));
    var c := Prefixed(FindAll(GenericRef, text));
    assert FindEachPrefixed(rs[..1], text) == a by {
      assert rs[..1][..0] == [];
    }
    assert FindEachPrefixed(rs[..2], text) == a + b by {
      assert rs[..2][..1] == rs[..1];
    }
    assert rs[..2] == rs[..|rs| - 1];
  }

  /** Prefixing codes of one class gives "REF-" followed by that code. */
  lemma PrefixedCodes(codes: seq<string>, k: CharClass)
    requires forall x :: x in codes ==> IsCode(k, x)
    ensures forall x :: x in Prefixed(codes) ==> |x| > 4 && x[..4] == "REF-" && IsCode(k, x[4..])
  {
    forall x | x in Prefixed(codes)
      ensures |x| > 4 && x[..4] == "REF-" && IsCode(k, x[4..])
    {
      var i :| 0 <= i < |codes| && Prefixed(codes)[i] == x;
      assert x == "REF-" + codes[i];
      assert x[4..] == codes[i];
      assert codes[i] in codes;
    }
  }

  /** The codes a reference pattern captures: digits for the first two, letters, digits and hyphens for the third. */
  lemma CapturedCodes(r: Regex, text: string)
    requires r == InvoiceRef || r == PurchaseOrderRef || r == GenericRef
    ensures forall x :: x in FindAll(r, text) ==> IsCode(if r == GenericRef then CodeChar else Digit, x)
  {
    FindFromShape(r, text, 0);
  }

  lemma PrefixedGroups(a: seq<string>, b: seq<string>, c: seq<string>)
    requires forall x :: x in a ==> IsCode(Digit, x)
    requires forall x :: x in b ==> IsCode(Digit, x)
    requires forall x :: x in c ==> IsCode(CodeChar, x)
    ensures forall x :: x in Prefixed(a) + Prefixed(b) + Prefixed(c) ==> |x| > 4 && x[..4] == "REF-"
    ensures forall x :: x in Prefixed(a) + Prefixed(b) ==> IsCode(Digit, x[4..])
  {
    PrefixedCodes(a, Digit);
    PrefixedCodes(b, Digit);
    PrefixedCodes(c, CodeChar);
  }

  /**
   * Every reference starts with "REF-" and carries a non-empty code; the
   * references from the invoice and purchase-order patterns, which come
   * first, carry all-digit codes.
   */
  lemma ReferencesShape(text: string)
    ensures forall x :: x in References(text) ==> |x| > 4 && x[..4] == "REF-"
    ensures forall x :: x in Prefixed(FindAll(InvoiceRef, text)) + Prefixed(FindAll(PurchaseOrderRef, text)) ==>
      IsCode(Digit, x[4..])
  {
    CapturedCodes(InvoiceRef, text);
    CapturedCodes(PurchaseOrderRef, text);
    CapturedCodes(GenericRef, text);
    PrefixedGroups(FindAll(InvoiceRef, text), FindAll(PurchaseOrderRef, text), FindAll(GenericRef, text));
  }

  // Completeness of the scanners: what is in the text is reported

  /** An ISO date anywhere in the text makes extract_dates report something. */
  lemma IsoDateFound(text: string, p: nat)
    requires p + 10 <= |text| && FitsTemplate(IsoTemplate, text[p..p + 10])
    ensures MatchAt(IsoDate, text, p) == Some(Match(p + 10, text[p..p + 10]))
    ensures FindAll(IsoDate, text) != [] && Dates(text) != []
  {
    FindFromReports(IsoDate, text, 0, p);
  }

  /** A slash date anywhere in the text makes extract_dates report something. */
  lemma SlashDateFound(text: string, p: nat)
    requires p + 10 <= |text| && FitsTemplate(SlashTemplate, text[p..p + 10])
    ensures MatchAt(SlashDate, text, p) == Some(Match(p + 10, text[p..p + 10]))
    ensures FindAll(SlashDate, text) != [] && Dates(text) != []
  {
    FindFromReports(SlashDate, text, 0, p);
  }

  /**
   * Month-name dates round-trip: a month-date text starting at `p` is
   * exactly the match there, and makes extract_dates report something.
   */
  lemma MonthDateFound(text: string, p: nat, q: nat)
    requires p < q <= |text| && IsMonthDateText(text[p..q])
    ensures MatchAt(MonthDate, text, p) == Some(Match(q, text[p..q]))
    ensures FindAll(MonthDate, text) != [] && Dates(text) != []
  {
    MonthDateMatches(text, p, q);
    FindFromReports(MonthDate, text, 0, p);
  }

  lemma MonthDateMatches(text: string, p: nat, q: nat)
    requires p < q <= |text| && IsMonthDateText(text[p..q])
    ensures MonthDateAt(text, p) == Some(Match(q, text[p..q]))
  {
    var x := text[p..q];
    var a: nat, d: nat :| a < d < |x| && MonthDateParts(x, a, d);
    assert x[..3] == text[p..p + 3];
    MonthDateMatchesAt(text, p, q, a, d);
  }

  /** MonthDateMatches once the split points of the month-date text are chosen. */
  lemma MonthDateMatchesAt(text: string, p: nat, q: nat, a: nat, d: nat)
    requires p < q <= |text| && MonthDateParts(text[p..q], a, d)
    requires p + 3 <= |text| && Lower(text[p..p + 3]) in MonthPrefixes
    ensures MonthDateAt(text, p) == Some(Match(q, text[p..q]))
  {
    MonthDatePartsInText(text, p, q, a, d);
    RunEndAt(Letter, text, p + 3, p + a);
    var c := if text[p + d] == ',' then p + d + 1 else p + d;
    MonthDateAtFrom(text, p, p + a, p + d, c);
  }

  /** MonthDateAt read step by step, once the run of letters, the day and the comma are known. */
  lemma MonthDateAtFrom(s: string, i: nat, a: nat, d: nat, c: nat)
    requires i + 3 <= |s| && Lower(s[i..i + 3]) in MonthPrefixes
    requires RunEnd(Letter, s, i + 3) == a && a + 1 < |s| && s[a] == ' ' && IsDigit(s[a + 1])
    requires d == (if a + 2 < |s| && IsDigit(s[a + 2]) then a + 3 else a + 2)
    requires c == (if d < |s| && s[d] == ',' then d + 1 else d)
    requires c + 5 <= |s| && FitsTemplate(" DDDD", s[c..c + 5])
    ensures MonthDateAt(s, i) == Some(Match(c + 5, s[i..c + 5]))
  {
  }

  /** The pieces of a month-date text, read back at their places in the whole text. */
  lemma MonthDatePartsInText(text: string, p: nat, q: nat, a: nat, d: nat)
    requires p < q <= |text| && MonthDateParts(text[p..q], a, d)
    ensures AllIn(Letter, text[p + 3..p + a]) && text[p + a] == ' ' && IsDigit(text[p + a + 1])
    ensures d == a + 3 ==> IsDigit(text[p + a + 2])
    ensures d == a + 2 ==> !IsDigit(text[p + d])
    ensures text[p + d] == ',' <==> q == p + d + 6
    ensures FitsTemplate(" DDDD", text[q - 5..q])
  {
    var x := text[p..q];
    var letters := text[p + 3..p + a];
    forall k | 0 <= k < |letters|
      ensures InClass(Letter, letters[k])
    {
      assert x[3..a][k] == letters[k];
    }
    assert x[a + 1..d][0] == x[a + 1];
    assert d == a + 3 ==> x[a + 1..d][1] == x[a + 2];
    assert |x| == d + 5 ==> x[|x| - 5..][0] == x[d];
    assert text[q - 5..q] == x[|x| - 5..];
  }

  /** A dollar sign followed by a digit makes extract_amounts report something. */
  lemma AmountFound(text: string, p: nat)
    requires p + 1 < |text| && text[p] == '$' && IsDigit(text[p + 1])
    ensures MatchAt(Amount, text, p).Some?
    ensures ExtractAmounts(text) != []
  {
    var j := RunEnd(DigitOrComma, text, p + 1);
    assert j > p + 1;
    FindFromReports(Amount, text, 0, p);
  }

  /** A reference prefix followed by a code character matches there. */
  lemma RefAtFound(short: string, long: string, code: CharClass, s: string, p: nat)
    requires code == Digit || code == CodeChar
    requires |short| > 0 && p + |short| < |s| && Lower(s[p..p + |short|]) == short
    requires InClass(code, s[p + |short|])
    ensures RefAt(short, long, code, s, p).Some?
  {
    var j := p + |short|;
    assert !InClass(Space, s[j]);
    RunEndAt(Space, s, j, j);
    assert CodeAt(code, s, j).Some?;
  }

  /** "INV" or "Invoice", in any case, followed by a digit makes extract_references report something. */
  lemma InvoiceRefFound(text: string, p: nat)
    requires p + 3 < |text| && Lower(text[p..p + 3]) == "inv" && IsDigit(text[p + 3])
    ensures MatchAt(InvoiceRef, text, p).Some?
    ensures References(text) != []
  {
    RefAtFound("inv", "invoice", Digit, text, p);
    FindFromReports(InvoiceRef, text, 0, p);
  }

  /** "PO" or "Purchase Order", in any case, followed by a digit makes extract_references report something. */
  lemma PurchaseOrderRefFound(text: string, p: nat)
    requires p + 2 < |text| && Lower(text[p..p + 2]) == "po" && IsDigit(text[p + 2])
    ensures MatchAt(PurchaseOrderRef, text, p).Some?
    ensures References(text) != []
  {
    RefAtFound("po", "purchase order", Digit, text, p);
    FindFromReports(PurchaseOrderRef, text, 0, p);
  }

  /** "REF" or "Reference", in any case, followed by a letter, digit or hyphen makes extract_references report something. */
  lemma GenericRefFound(text: string, p: nat)
    requires p + 3 < |text| && Lower(text[p..p + 3]) == "ref" && InClass(CodeChar, text[p + 3])
    ensures MatchAt(GenericRef, text, p).Some?
    ensures References(text) != []
  {
    RefAtFound("ref", "reference", CodeChar, text, p);
    FindFromReports(GenericRef, text, 0, p);
  }

  // ---------------------------------------------------------------------
  // EntityExtractionTool

  const PartyKeywords := ["Inc", "LLC", "Corp", "Corporation", "Ltd", "Limited"]

  /** The index of the first word containing `kw`, or |words| when none does. */
  function FirstWordWith(words: seq<string>, kw: string): (i: nat)
    ensures i <= |words|
    ensures i < |words| ==> Contains(words[i], kw)
    ensures forall j :: 0 <= j < i ==> !Contains(words[j], kw)
  {
    if words == [] then 0
    else if Contains(words[0], kw) then 0
    else 1 + FirstWordWith(words[1..], kw)
  }

  /** The first word of the window that ends at word `i`: at most three words back. */
  function WindowStart(i: nat): (j: nat)
    ensures j <= i
    ensures i + 1 - j == Min(i + 1, 4)
  {
    if i >= 3 then i - 3 else 0
  }

  /** The candidate one keyword contributes for one line: none, or the window ending at the first word containing it. */
  function KeywordCandidate(line: string, kw: string): seq<string> {
    if Contains(line, kw) then
      var words := Words(line);
      var i := FirstWordWith(words, kw);
      if i < |words| then [Strip(Join(words[WindowStart(i)..i + 1], " "))] else []
    else []
  }

  function LineCandidates(line: string, kws: seq<string>): seq<string>
    decreases |kws|
  {
    if kws == [] then [] else LineCandidates(line, kws[..|kws| - 1]) + KeywordCandidate(line, kws[|kws| - 1])
  }

  function LinesCandidates(lines: seq<string>, kws: seq<string>): seq<string>
    decreases |lines|
  {
    if lines == [] then [] else LinesCandidates(lines[..|lines| - 1], kws) + LineCandidates(lines[|lines| - 1], kws)
  }

  /** The list extract_parties builds before removing duplicates. */
  function PartyCandidates(text: string): seq<string> {
    LinesCandidates(SplitOn(text, '\n'), PartyKeywords)
  }

  predicate NoDuplicates<T(==)>(xs: seq<T>) {
    forall i, j :: 0 <= i < j < |xs| ==> xs[i] != xs[j]
  }

  /**
   * extract_parties: for each line and each keyword in it, the window of up
   * to four words ending at the first word holding that keyword; then
   * `list(set(...))`, whose order is not specified.
   */
  method ExtractParties(text: string) returns (parties: seq<string>)
    ensures NoDuplicates(parties)
    ensures forall p :: p in parties <==> p in PartyCandidates(text)
    ensures forall p :: p in parties ==> PartyOfText(text, p)
    ensures |parties| == |set p | p in PartyCandidates(text)|
  {
    var lines := SplitOn(text, '\n');
    var found: seq<string> := [];
    for li := 0 to |lines|
      invariant found == LinesCandidates(lines[..li], PartyKeywords)
    {
      assert lines[..li + 1][..li] == lines[..li];
      var more := LineParties(lines[li], PartyKeywords);
      found := found + more;
    }
    assert lines[..|lines|] == lines;
    parties := Distinct(found);
    PartyCandidatesShape(text);
  }

  /** The keyword loop of extract_parties for one line. */
  method LineParties(line: string, keywords: seq<string>) returns (found: seq<string>)
    ensures found == LineCandidates(line, keywords)
  {
    found := [];
    for ki := 0 to |keywords|
      invariant found == LineCandidates(line, keywords[..ki])
    {
      LineCandidatesStep(line, keywords, ki);
      var more := KeywordParty(line, keywords[ki]);
      found := found + more;
    }
    assert keywords[..|keywords|] == keywords;
  }

  /** The word loop for one keyword: `break` at the first word holding it, so it gives at most one window. */
  method KeywordParty(line: string, keyword: string) returns (found: seq<string>)
    ensures found == KeywordCandidate(line, keyword)
  {
    found := [];
    if Contains(line, keyword) {
      var words := Words(line);
      var i := 0;
      while i < |words|
        invariant 0 <= i <= |words|
        invariant forall j :: 0 <= j < i ==> !Contains(words[j], keyword)
        invariant found == []
      {
        if Contains(words[i], keyword) {
          var company := Join(words[WindowStart(i)..i + 1], " ");
          found := found + [Strip(company)];
          KeywordCandidateAt(line, keyword, i);
          break;
        }
        i := i + 1;
      }
      if i == |words| {
        KeywordCandidateAt(line, keyword, i);
      }
    }
  }

  lemma KeywordCandidateAt(line: string, kw: string, i: nat)
    requires Contains(line, kw)
    requires i <= |Words(line)|
    requires forall j :: 0 <= j < i ==> !Contains(Words(line)[j], kw)
    requires i < |Words(line)| ==> Contains(Words(line)[i], kw)
    ensures i < |Words(line)| ==> KeywordCandidate(line, kw) == [Strip(Join(Words(line)[WindowStart(i)..i + 1], " "))]
    ensures i == |Words(line)| ==> KeywordCandidate(line, kw) == []
  {
    assert FirstWordWith(Words(line), kw) == i;
  }

  lemma LineCandidatesStep(line: string, kws: seq<string>, k: nat)
    requires k < |kws|
    ensures LineCandidates(line, kws[..k + 1]) == LineCandidates(line, kws[..k]) + KeywordCandidate(line, kws[k])
  {
    assert kws[..k + 1][..k] == kws[..k];
  }

  /** `list(set(xs))`: the distinct elements of `xs`, each once, in an order left open. */
  method Distinct(xs: seq<string>) returns (ys: seq<string>)
    ensures NoDuplicates(ys)
    ensures forall p :: p in ys <==> p in xs
    ensures |ys| == |set p | p in xs|
  {
    var pool := set p | p in xs;
    ys := [];
    ghost var seen: set<string> := {};
    while pool != {}
      invariant NoDuplicates(ys)
      invariant seen == set p | p in ys
      invariant |seen| == |ys|
      invariant seen !! pool
      invariant seen + pool == set p | p in xs
      decreases pool
    {
      var p :| p in pool;
      ys := ys + [p];
      seen := seen + {p};
      pool := pool - {p};
    }
    forall p
      ensures p in ys <==> p in xs
    {
      assert p in ys <==> p in seen;
      assert p in xs <==> p in set q | q in xs;
    }
  }

  // Properties of the party candidates

  /**
   * `p` is the window for keyword `kw` in `line`: the words of the line up
   * to and including the first word that contains `kw`, as many as there
   * are up to four, joined by single spaces.
   */
  predicate WindowFor(line: string, kw: string, p: string) {
    exists i :: 0 <= i < |Words(line)| && Contains(Words(line)[i], kw)
      && (forall j :: 0 <= j < i ==> !Contains(Words(line)[j], kw))
      && p == Join(Words(line)[WindowStart(i)..i + 1], " ")
  }

  /** `p` is the window, in one line of `text`, for one of the party keywords. */
  predicate PartyOfText(text: string, p: string) {
    exists l, kw :: 0 <= l < |SplitOn(text, '\n')| && kw in PartyKeywords && WindowFor(SplitOn(text, '\n')[l], kw, p)
  }

  /** The keywords of `kws` that occur in `line`, in order. */
  function Occurring(line: string, kws: seq<string>): seq<string>
    decreases |kws|
  {
    if kws == [] then []
    else Occurring(line, kws[..|kws| - 1]) + (if Contains(line, kws[|kws| - 1]) then [kws[|kws| - 1]] else [])
  }

  /** Every keyword is a single `str.split()` token. */
  lemma PartyKeywordsAreWords()
    ensures forall kw :: kw in PartyKeywords ==> IsWord(kw)
  {
    forall kw | kw in PartyKeywords
      ensures IsWord(kw)
    {
      assert kw == "Inc" || kw == "LLC" || kw == "Corp" || kw == "Corporation" || kw == "Ltd" || kw == "Limited";
    }
  }

  /**
   * A keyword that occurs in the line gives exactly one candidate, the
   * window ending at the first word holding it; one that does not, none.
   */
  lemma KeywordCandidateSpec(line: string, kw: string)
    requires IsWord(kw)
    ensures |KeywordCandidate(line, kw)| == if Contains(line, kw) then 1 else 0
    ensures forall p :: p in KeywordCandidate(line, kw) ==> WindowFor(line, kw, p)
  {
    if Contains(line, kw) {
      var words := Words(line);
      ContainedInSomeWord(line, kw);
      var i := FirstWordWith(words, kw);
      var window := words[WindowStart(i)..i + 1];
      StripJoinedWords(window);
      assert KeywordCandidate(line, kw) == [Join(window, " ")];
    }
  }

  /**
   * One line gives one candidate per keyword occurring in it, each the
   * window for one of the keywords.
   */
  lemma {:induction false} LineCandidatesSpec(line: string, kws: seq<string>)
    requires forall kw :: kw in kws ==> IsWord(kw)
    ensures |LineCandidates(line, kws)| == |Occurring(line, kws)|
    ensures forall p :: p in LineCandidates(line, kws) ==> exists kw :: kw in kws && WindowFor(line, kw, p)
    decreases |kws|
  {
    if kws != [] {
      var init := kws[..|kws| - 1];
      var last := kws[|kws| - 1];
      LineCandidatesSpec(line, init);
      KeywordCandidateSpec(line, last);
      forall p | p in LineCandidates(line, kws)
        ensures exists kw :: kw in kws && WindowFor(line, kw, p)
      {
        if p in LineCandidates(line, init) {
          var kw :| kw in init && WindowFor(line, kw, p);
          assert kw in kws;
        } else {
          assert p in KeywordCandidate(line, last);
        }
      }
    }
  }

  /** The candidates of a list of lines are those of its lines. */
  lemma LinesCandidatesMembers(lines: seq<string>, kws: seq<string>)
    ensures forall p :: p in LinesCandidates(lines, kws) <==>
      exists l :: 0 <= l < |lines| && p in LineCandidates(lines[l], kws)
  {
    forall p | p in LinesCandidates(lines, kws)
      ensures exists l :: 0 <= l < |lines| && p in LineCandidates(lines[l], kws)
    {
      CandidateFromLine(lines, kws, p);
    }
    forall p, l | 0 <= l < |lines| && p in LineCandidates(lines[l], kws)
      ensures p in LinesCandidates(lines, kws)
    {
      LineCandidateInLines(lines, kws, l, p);
    }
  }

  /** A candidate of a list of lines comes from one of its lines. */
  lemma {:induction false} CandidateFromLine(lines: seq<string>, kws: seq<string>, p: string)
    requires p in LinesCandidates(lines, kws)
    ensures exists l :: 0 <= l < |lines| && p in LineCandidates(lines[l], kws)
    decreases |lines|
  {
    var init := lines[..|lines| - 1];
    if p in LinesCandidates(init, kws) {
      CandidateFromLine(init, kws, p);
      var l :| 0 <= l < |init| && p in LineCandidates(init[l], kws);
      assert lines[l] == init[l];
    } else {
      assert p in LineCandidates(lines[|lines| - 1], kws);
    }
  }

  /** A candidate of one line is a candidate of any list of lines holding it. */
  lemma {:induction false} LineCandidateInLines(lines: seq<string>, kws: seq<string>, l: nat, p: string)
    requires l < |lines| && p in LineCandidates(lines[l], kws)
    ensures p in LinesCandidates(lines, kws)
    decreases |lines|
  {
    var init := lines[..|lines| - 1];
    var before := LinesCandidates(init, kws);
    var last := LineCandidates(lines[|lines| - 1], kws);
    assert LinesCandidates(lines, kws) == before + last;
    if l < |init| {
      assert init[l] == lines[l];
      LineCandidateInLines(init, kws, l, p);
      assert p in before;
    } else {
      assert l == |lines| - 1;
      assert p in last;
    }
  }

  /**
   * Every party candidate is the window, in one line of the text, for one
   * of the party keywords: one to four consecutive words ending at the
   * first word of that line that holds the keyword.
   */
  lemma PartyCandidatesShape(text: string)
    ensures forall p :: p in PartyCandidates(text) ==> PartyOfText(text, p)
  {
    var lines := SplitOn(text, '\n');
    LinesCandidatesMembers(lines, PartyKeywords);
    PartyKeywordsAreWords();
    forall p | p in PartyCandidates(text)
      ensures PartyOfText(text, p)
    {
      assert p in LinesCandidates(lines, PartyKeywords);
      var l :| 0 <= l < |lines| && p in LineCandidates(lines[l], PartyKeywords);
      LineCandidatesSpec(lines[l], PartyKeywords);
    }
  }

  /** A keyword that occurs in the line gives it a candidate. */
  lemma {:induction false} OccurringGivesCandidate(line: string, kws: seq<string>, kw: string)
    requires forall k :: k in kws ==> IsWord(k)
    requires kw in kws && Contains(line, kw)
    ensures LineCandidates(line, kws) != []
    decreases |kws|
  {
    var init := kws[..|kws| - 1];
    var last := kws[|kws| - 1];
    KeywordCandidateSpec(line, last);
    if kw != last {
      assert kw in init;
      OccurringGivesCandidate(line, init, kw);
    }
  }

  /** A keyword occurring anywhere in the text gives it a party candidate. */
  lemma KeywordGivesParty(text: string, kw: string)
    requires kw in PartyKeywords && Contains(text, kw)
    ensures PartyCandidates(text) != []
  {
    var lines := SplitOn(text, '\n');
    PartyKeywordsAreWords();
    assert '\n' !in kw by {
      assert IsWord(kw);
    }
    ContainedInSomePiece(text, '\n', kw);
    var l :| 0 <= l < |lines| && Contains(lines[l], kw);
    OccurringGivesCandidate(lines[l], PartyKeywords, kw);
    LinesCandidatesMembers(lines, PartyKeywords);
    assert LineCandidates(lines[l], PartyKeywords)[0] in PartyCandidates(text);
  }

  /** A line of the text holds no keyword the text does not hold. */
  lemma LineWithoutKeywords(text: string, l: nat)
    requires l < |SplitOn(text, '\n')|
    requires forall kw :: kw in PartyKeywords ==> !Contains(text, kw)
    ensures LineCandidates(SplitOn(text, '\n')[l], PartyKeywords) == []
  {
    var line := SplitOn(text, '\n')[l];
    SplitOnPiecesOccur(text, '\n', l);
    var q: nat :| q <= |text| && OccursAt(text, line, q);
    forall kw | kw in PartyKeywords
      ensures !Contains(line, kw)
    {
      if Contains(line, kw) {
        ContainsWithin(text, line, q, kw);
      }
    }
    NoneOccurring(line, PartyKeywords);
    PartyKeywordsAreWords();
    LineCandidatesSpec(line, PartyKeywords);
  }

  /** Text holding none of the keywords yields no party candidate. */
  lemma NoKeywordNoParties(text: string)
    requires forall kw :: kw in PartyKeywords ==> !Contains(text, kw)
    ensures PartyCandidates(text) == []
  {
    var lines := SplitOn(text, '\n');
    LinesCandidatesMembers(lines, PartyKeywords);
    if PartyCandidates(text) != [] {
      var p := PartyCandidates(text)[0];
      assert p in LinesCandidates(lines, PartyKeywords);
      var l :| 0 <= l < |lines| && p in LineCandidates(lines[l], PartyKeywords);
      LineWithoutKeywords(text, l);
    }
  }

  /** The text yields party candidates exactly when one of the keywords occurs in it. */
  lemma PartiesIffKeyword(text: string)
    ensures PartyCandidates(text) != [] <==> exists kw :: kw in PartyKeywords && Contains(text, kw)
  {
    if exists kw :: kw in PartyKeywords && Contains(text, kw) {
      var kw :| kw in PartyKeywords && Contains(text, kw);
      KeywordGivesParty(text, kw);
    } else {
      NoKeywordNoParties(text);
    }
  }

  lemma {:induction false} NoneOccurring(line: string, kws: seq<string>)
    requires forall kw :: kw in kws ==> !Contains(line, kw)
    ensures Occurring(line, kws) == []
    decreases |kws|
  {
    if kws != [] {
      NoneOccurring(line, kws[..|kws| - 1]);
    }
  }

  // Worked examples

  /** An ISO-shaped date is found whole. */
  lemma IsoDateExample()
    ensures FindAll(IsoDate, "2025-11-25") == ["2025-11-25"]
  {
    var s := "2025-11-25";
    assert s[0..10] == s;
    assert FitsTemplate(IsoTemplate, s[0..10]);
    assert MatchAt(IsoDate, s, 0) == Some(Match(10, s));
    assert FindFrom(IsoDate, s, 10) == [];
  }

  /** An amount with a two-digit fraction is found with its fraction. */
  lemma AmountWithCentsExample()
    ensures ExtractAmounts("$1,250.50") == ["$1,250.50"]
  {
    var s := "$1,250.50";
    assert RunEnd(DigitOrComma, s, 1) == 6;
    assert s[0..9] == s;
    assert AmountAt(s, 0) == Some(Match(9, s));
    assert MatchAt(Amount, s, 0) == Some(Match(9, s));
    assert FindFrom(Amount, s, 9) == [];
  }

  /** A one-digit fraction is left out of the match. */
  lemma ShortFractionExample()
    ensures ExtractAmounts("$1,250.5") == ["$1,250"]
  {
    var s := "$1,250.5";
    assert RunEnd(DigitOrComma, s, 1) == 6;
    assert s[0..6] == "$1,250";
    assert AmountAt(s, 0) == Some(Match(6, "$1,250"));
    assert MatchAt(Amount, s, 0) == Some(Match(6, "$1,250"));
    assert MatchAt(Amount, s, 6) == None;
    assert MatchAt(Amount, s, 7) == None;
    assert FindFrom(Amount, s, 8) == [];
  }

  /** The word "Reference" matches the "REF" alternative and captures the rest of the word. */
  lemma ReferenceWordExample()
    ensures FindAll(GenericRef, "Reference") == ["erence"]
  {
    var s := "Reference";
    assert Lower(s[0..3]) == "ref";
    assert RunEnd(Space, s, 3) == 3;
    assert RunEnd(CodeChar, s, 3) == 9;
    assert s[3..9] == "erence";
    assert CodeAt(CodeChar, s, 3) == Some(Match(9, "erence"));
    assert RefAfterPrefix("ref", CodeChar, s, 0) == Some(Match(9, "erence"));
    assert MatchAt(GenericRef, s, 0) == Some(Match(9, "erence"));
    assert FindFrom(GenericRef, s, 9) == [];
  }
}
