/** What the two PDF extractors (`src/services/extract_kredinor.mjs` and
    `src/services/extract_structured_debt.mjs`) share: the `\d{2}\.\d{2}\.\d{4}` date
    scanner, the dates that follow "Grunnlaget for saken", the raw case record they
    build, and the regular-expression field extractors, which are given as functions.

    Amounts are whole øre: every amount pattern of the extractors captures digits, a
    comma and exactly two decimals, and `parseFloat` of such a capture is that number
    of øre divided by 100. */
module PdfText {
  import opened Strings

  /** The heading after which a case's invoice and due dates are listed. */
  const Grunnlag: string := "Grunnlaget for saken"

  /** A date `DD.MM.YYYY` starts at index `i` of `s`. */
  predicate DateAt(s: string, i: nat) {
    i + 10 <= |s| &&
    IsDigit(s[i]) && IsDigit(s[i + 1]) && s[i + 2] == '.' &&
    IsDigit(s[i + 3]) && IsDigit(s[i + 4]) && s[i + 5] == '.' &&
    IsDigit(s[i + 6]) && IsDigit(s[i + 7]) && IsDigit(s[i + 8]) && IsDigit(s[i + 9])
  }

  /** No date starts at an index in `[a, b)`. */
  predicate NoDateIn(s: string, a: nat, b: nat) {
    forall p: nat :: a <= p < b ==> !DateAt(s, p)
  }

  /** The start indices of the matches of the global date pattern, scanning from `from`:
      each match is the leftmost date at or after the end of the previous one, as a
      JavaScript global regular expression finds them (`DatePositionsAreLeftmost`). */
  function DatePositionsFrom(s: string, from: nat): (r: seq<nat>)
    decreases |s| - from
    ensures forall k :: 0 <= k < |r| ==> from <= r[k] && r[k] + 10 <= |s|
    ensures forall k :: 0 <= k < |r| - 1 ==> r[k] + 10 <= r[k + 1]
  {
    if from + 10 > |s| then []
    else if DateAt(s, from) then
      var rest := DatePositionsFrom(s, from + 10);
      assert forall k :: 1 <= k < |[from] + rest| ==> ([from] + rest)[k] == rest[k - 1];
      [from] + rest
    else DatePositionsFrom(s, from + 1)
  }

  /** Every match is a date. */
  lemma {:induction false} DatePositionsAreDates(s: string, from: nat)
    decreases |s| - from
    ensures forall k :: 0 <= k < |DatePositionsFrom(s, from)| ==> DateAt(s, DatePositionsFrom(s, from)[k])
  {
    if from + 10 <= |s| {
      if DateAt(s, from) {
        DatePositionsAreDates(s, from + 10);
        var rest := DatePositionsFrom(s, from + 10);
        assert forall k :: 1 <= k < |[from] + rest| ==> ([from] + rest)[k] == rest[k - 1];
      } else {
        DatePositionsAreDates(s, from + 1);
      }
    }
  }

  /** There is no date before the first match, nor anywhere when there is no match. */
  lemma {:induction false} NoDateBeforeFirst(s: string, from: nat)
    decreases |s| - from
    ensures DatePositionsFrom(s, from) == [] ==> NoDateIn(s, from, |s|)
    ensures DatePositionsFrom(s, from) != [] ==> NoDateIn(s, from, DatePositionsFrom(s, from)[0])
  {
    if from + 10 <= |s| && !DateAt(s, from) {
      NoDateBeforeFirst(s, from + 1);
    }
  }

  /** There is no date after the end of the last match. */
  lemma {:induction false} NoDateAfterLast(s: string, from: nat)
    decreases |s| - from
    ensures var r := DatePositionsFrom(s, from); r != [] ==> NoDateIn(s, r[|r| - 1] + 10, |s|)
  {
    if from + 10 <= |s| {
      if DateAt(s, from) {
        var rest := DatePositionsFrom(s, from + 10);
        if rest == [] {
          NoDateBeforeFirst(s, from + 10);
        } else {
          NoDateAfterLast(s, from + 10);
          var r := DatePositionsFrom(s, from);
          assert r == [from] + rest;
          assert r[|r| - 1] == rest[|rest| - 1];
        }
      } else {
        NoDateAfterLast(s, from + 1);
      }
    }
  }

  /** There is no date between the end of match `k` and the start of match `k + 1`. */
  lemma {:induction false} NoDateBetween(s: string, from: nat, k: nat)
    requires k + 1 < |DatePositionsFrom(s, from)|
    decreases |s| - from
    ensures NoDateIn(s, DatePositionsFrom(s, from)[k] + 10, DatePositionsFrom(s, from)[k + 1])
  {
    var r := DatePositionsFrom(s, from);
    if DateAt(s, from) {
      var rest := DatePositionsFrom(s, from + 10);
      assert r == [from] + rest;
      if k == 0 {
        NoDateBeforeFirst(s, from + 10);
        assert r[0] == from && r[1] == rest[0];
      } else {
        NoDateBetween(s, from + 10, k - 1);
        assert r[k] == rest[k - 1] && r[k + 1] == rest[k];
      }
    } else {
      NoDateBetween(s, from + 1, k);
    }
  }

  /** No date is skipped: there is none before the first match, between two matches or
      after the last one. */
  lemma DatePositionsAreLeftmost(s: string, from: nat)
    ensures DatePositionsFrom(s, from) == [] ==> NoDateIn(s, from, |s|)
    ensures DatePositionsFrom(s, from) != [] ==> NoDateIn(s, from, DatePositionsFrom(s, from)[0])
    ensures DatePositionsFrom(s, from) != [] ==>
      NoDateIn(s, DatePositionsFrom(s, from)[|DatePositionsFrom(s, from)| - 1] + 10, |s|)
    ensures forall k :: 0 <= k < |DatePositionsFrom(s, from)| - 1 ==>
      NoDateIn(s, DatePositionsFrom(s, from)[k] + 10, DatePositionsFrom(s, from)[k + 1])
  {
    NoDateBeforeFirst(s, from);
    NoDateAfterLast(s, from);
    forall k | 0 <= k < |DatePositionsFrom(s, from)| - 1
      ensures NoDateIn(s, DatePositionsFrom(s, from)[k] + 10, DatePositionsFrom(s, from)[k + 1])
    {
      NoDateBetween(s, from, k);
    }
  }

  function DatePositions(s: string): seq<nat> {
    DatePositionsFrom(s, 0)
  }

  /** `s.match(/\d{2}\.\d{2}\.\d{4}/g)`, with the empty list for `null`. */
  function Dates(s: string): (r: seq<string>)
    ensures |r| == |DatePositions(s)|
    ensures forall k :: 0 <= k < |r| ==> |r[k]| == 10
    ensures forall k :: 0 <= k < |r| ==> r[k] == s[DatePositions(s)[k]..DatePositions(s)[k] + 10]
  {
    var ps := DatePositions(s);
    seq(|ps|, k requires 0 <= k < |ps| => s[ps[k]..ps[k] + 10])
  }

  /** Every date found is written `DD.MM.YYYY`. */
  lemma DatesAreDates(s: string)
    ensures forall k :: 0 <= k < |Dates(s)| ==> DateAt(Dates(s)[k], 0)
  {
    DatePositionsAreDates(s, 0);
    var ps := DatePositions(s);
    forall k | 0 <= k < |Dates(s)| ensures DateAt(Dates(s)[k], 0) {
      var d := Dates(s)[k];
      assert DateAt(s, ps[k]);
      assert forall m :: 0 <= m < 10 ==> d[m] == s[ps[k] + m];
    }
  }

  /** The text after the first "Grunnlaget for saken", if there is one. */
  function AfterGrunnlag(caseText: string): (r: Option<string>)
    ensures r.Some? <==> Contains(caseText, Grunnlag)
    ensures r.Some? ==> EndsWith(caseText, r.value)
  {
    IndexOfIsFirst(caseText, Grunnlag);
    match IndexOf(caseText, Grunnlag)
    case None => None
    case Some(i) => Some(caseText[i + |Grunnlag|..])
  }

  /** The invoice date and due date of a case: the first two dates after "Grunnlaget for
      saken"; both are absent when the heading is missing or fewer than two dates follow. */
  function CaseDates(caseText: string): (r: (Option<string>, Option<string>))
    ensures r.0.Some? <==> r.1.Some?
    ensures r.0.Some? <==> AfterGrunnlag(caseText).Some? && |Dates(AfterGrunnlag(caseText).value)| >= 2
    ensures r.0.Some? ==>
      var ds := Dates(AfterGrunnlag(caseText).value); r.0.value == ds[0] && r.1.value == ds[1]
  {
    match AfterGrunnlag(caseText)
    case None => (None, None)
    case Some(after) =>
      var ds := Dates(after);
      if |ds| >= 2 then (Some(ds[0]), Some(ds[1])) else (None, None)
  }

  /** `extractDatesFromCase(caseText)`, identical in both extractors. */
  method ExtractDatesFromCase(caseText: string) returns (fakturadato: Option<string>, forfallsdato: Option<string>)
    ensures (fakturadato, forfallsdato) == CaseDates(caseText)
  {
    fakturadato := None;
    forfallsdato := None;
    var grunnlagIdx := IndexOf(caseText, Grunnlag);
    if grunnlagIdx.Some? {
      var afterGrunnlag := caseText[grunnlagIdx.value + |Grunnlag|..];
      var dateMatches := Dates(afterGrunnlag);
      if |dateMatches| >= 2 {
        fakturadato := Some(dateMatches[0]);
        forfallsdato := Some(dateMatches[1]);
      }
    }
  }

  /** The dates the fallback case takes from the Totalbeløp page: the fourth (issue date)
      and the fifth (due date) date on it, each absent when the page has fewer dates. */
  function FallbackDates(pageText: string): (r: (Option<string>, Option<string>))
    ensures r.0.Some? <==> |Dates(pageText)| >= 4
    ensures r.1.Some? <==> |Dates(pageText)| >= 5
    ensures r.0.Some? ==> r.0.value == Dates(pageText)[3]
    ensures r.1.Some? ==> r.1.value == Dates(pageText)[4]
  {
    var dates := Dates(pageText);
    (if |dates| > 3 then Some(dates[3]) else None, if |dates| > 4 then Some(dates[4]) else None)
  }

  /** The amounts `extractFinancialFields` finds, `None` where a pattern does not match. */
  datatype Financial = Financial(
    restHovedstol: Option<nat>,
    renter: Option<nat>,
    gebyrer: Option<nat>,
    inkasso: Option<nat>,
    renterAvOmkostninger: Option<nat>,
    totalbelop: Option<nat>)

  /** `extractCreditorInfo`: current and original creditor names. */
  datatype CreditorInfo = CreditorInfo(oppdragsgiver: Option<string>, opprinneligOppdragsgiver: Option<string>)

  /** `extractCaseIdentifiers`: customer number and creditor's reference. */
  datatype Identifiers = Identifiers(kundenummer: Option<string>, referanse: Option<string>)

  /** One invoice found in a case's "Grunnlaget for saken" section. */
  datatype Invoice = Invoice(invoiceNumber: Option<string>, invoiceDate: string, dueDate: string, amount: Option<nat>)

  /** A match of the case-number pattern `(\d{5,}\/\d{2})`: the case number and its index. */
  datatype CaseMatch = CaseMatch(id: string, pos: nat)

  /** The regular-expression extractors, as given functions of the text they search. */
  datatype Extractors = Extractors(
    financial: string -> Financial,
    creditorInfo: string -> CreditorInfo,
    identifiers: string -> Identifiers,
    caseNumbers: string -> seq<CaseMatch>,
    /** The invoice number written just before an invoice date (the text before it is given). */
    invoiceNumberBefore: string -> Option<string>,
    /** The first amount written in the text after a due date. */
    amountIn: string -> Option<nat>)

  /** An entry of `allCases`: the grand total, or a case (a case from a case-number match
      has `saksnummer`, the fallback case from the Totalbeløp page has none). The raw
      record keeps the two differently spelt due-date keys apart: the per-case entries
      fill `forfallsdato`, the fallback fills `forfallsDato`. */
  datatype RawCase =
    | GrandTotal(total: nat)
    | Case(
        saksnummer: Option<string>,
        creditor: CreditorInfo,
        ids: Option<Identifiers>,
        fakturadato: Option<string>,
        forfallsdato: Option<string>,
        utstedetDato: Option<string>,
        forfallsDato: Option<string>,
        invoices: Option<seq<Invoice>>,
        fields: Financial)

  /** What the PDF layer hands to the case extraction: the page holding "Totalbeløp",
      its text and total, the page count, and the text of the pages after it. */
  datatype PdfInput = PdfInput(totalPage: nat, numPages: nat, totalPageText: string, grandTotal: nat, casesText: string)

  /** Case-number matches as a global scan yields them: increasing indices inside the text. */
  predicate Ordered(ms: seq<CaseMatch>, textLength: nat) {
    (forall k :: 0 <= k < |ms| ==> ms[k].pos <= textLength) &&
    (forall k :: 0 <= k < |ms| - 1 ==> ms[k].pos < ms[k + 1].pos)
  }

  /** `allCases.filter(c => c.type !== 'grandTotal')`: the cases, in order. */
  function CasesOnly(allCases: seq<RawCase>): (r: seq<RawCase>)
    ensures |r| <= |allCases|
    ensures forall k :: 0 <= k < |r| ==> r[k].Case?
  {
    if allCases == [] then []
    else
      var c := allCases[|allCases| - 1];
      CasesOnly(allCases[..|allCases| - 1]) + (if c.Case? then [c] else [])
  }

  lemma {:induction false} CasesOnlyOfCases(cs: seq<RawCase>)
    requires forall k :: 0 <= k < |cs| ==> cs[k].Case?
    ensures CasesOnly(cs) == cs
  {
    if cs != [] {
      CasesOnlyOfCases(cs[..|cs| - 1]);
      assert cs[..|cs| - 1] + [cs[|cs| - 1]] == cs;
    }
  }

  /** The grand total is dropped and every case is kept, in order. */
  lemma {:induction false} CasesOnlyDropsGrandTotal(total: nat, cs: seq<RawCase>)
    requires forall k :: 0 <= k < |cs| ==> cs[k].Case?
    ensures CasesOnly([GrandTotal(total)] + cs) == cs
    decreases |cs|
  {
    if cs == [] {
      assert [GrandTotal(total)] + cs == [GrandTotal(total)];
      assert [GrandTotal(total)][..0] == [];
    } else {
      var all := [GrandTotal(total)] + cs;
      assert all[..|all| - 1] == [GrandTotal(total)] + cs[..|cs| - 1];
      CasesOnlyDropsGrandTotal(total, cs[..|cs| - 1]);
      assert cs[..|cs| - 1] + [cs[|cs| - 1]] == cs;
    }
  }

  /** `x || 0` for an amount that may be null. */
  function OrZero(x: Option<nat>): nat {
    if x.Some? then x.value else 0
  }

  /** `x || undefined` for an amount: a zero amount is dropped too. */
  function NonZero(x: Option<nat>): (r: Option<nat>)
    ensures r.Some? <==> x.Some? && x.value != 0
    ensures r.Some? ==> r == x
  {
    if x.Some? && x.value != 0 then x else None
  }

  /** `s || undefined` for a text: an empty text is dropped too. */
  function NonEmpty(s: Option<string>): (r: Option<string>)
    ensures r.Some? <==> s.Some? && s.value != ""
    ensures r.Some? ==> r == s
  {
    if s.Some? && s.value != "" then s else None
  }

  /** The concatenation of `parts`. */
  function Concat(parts: seq<string>): string {
    if parts == [] then [] else parts[0] + Concat(parts[1..])
  }

  /** A date written `DD.MM.YYYY` is found as such. */
  lemma DateFound(d: string)
    requires DateAt(d, 0) && |d| == 10
    ensures Dates(d) == [d]
  {
    assert DatePositionsFrom(d, 10) == [];
    assert DatePositions(d) == [0];
    assert d[0..10] == d;
  }
}
