/** The Kredinor PDF extractor of `src/services/extract_kredinor.mjs`: the text after the
    Totalbeløp page is cut into one case per case-number match, a fallback case is read
    from the Totalbeløp page when there is no match, and the raw cases are mapped to
    debt records. */
module Kredinor {
  import opened Strings
  import opened PdfText

  /** Where case `i` ends: at the next match, the last case at the end of the text. */
  function SegmentEnd(text: string, ms: seq<CaseMatch>, i: nat): nat
    requires i < |ms|
  {
    if i < |ms| - 1 then ms[i + 1].pos else |text|
  }

  /** The text of case `i`. */
  function SegmentText(text: string, ms: seq<CaseMatch>, i: nat): string
    requires i < |ms|
  {
    Substring(text, ms[i].pos, SegmentEnd(text, ms, i))
  }

  /** The raw case read from the text of one case. */
  function CaseOf(saksnummer: string, caseText: string, ex: Extractors): RawCase {
    var dates := CaseDates(caseText);
    Case(Some(saksnummer), ex.creditorInfo(caseText), None, dates.0, dates.1, None, None, None, ex.financial(caseText))
  }

  /** The fallback case read from the Totalbeløp page: its due date goes to `forfallsDato`. */
  function FallbackCase(pageText: string, ex: Extractors): RawCase {
    var dates := FallbackDates(pageText);
    Case(None, ex.creditorInfo(pageText), None, None, None, dates.0, dates.1, None, ex.financial(pageText))
  }

  /** The case loop and fallback of `extractFields`: `allCases` starts with the grand
      total, then holds one case per case-number match, the text of case `i` running
      from match `i` to match `i + 1`; the fallback case is added only when there was no
      match and the Totalbeløp page is the last page. */
  method ExtractCases(input: PdfInput, ex: Extractors) returns (allCases: seq<RawCase>)
    ensures var ms := ex.caseNumbers(input.casesText);
      |ms| > 0 ==> |allCases| == 1 + |ms|
    ensures var ms := ex.caseNumbers(input.casesText);
      forall i :: 0 <= i < |ms| ==> allCases[i + 1] == CaseOf(ms[i].id, SegmentText(input.casesText, ms, i), ex)
    ensures |allCases| >= 1 && allCases[0] == GrandTotal(input.grandTotal)
    ensures forall k :: 1 <= k < |allCases| ==> allCases[k].Case?
    ensures ex.caseNumbers(input.casesText) == [] ==>
      allCases == [GrandTotal(input.grandTotal)] +
        (if input.totalPage == input.numPages then [FallbackCase(input.totalPageText, ex)] else [])
  {
    var casesText := input.casesText;
    var matches := ex.caseNumbers(casesText);
    allCases := [GrandTotal(input.grandTotal)];
    var i := 0;
    while i < |matches|
      invariant 0 <= i <= |matches|
      invariant |allCases| == 1 + i && allCases[0] == GrandTotal(input.grandTotal)
      invariant forall k :: 1 <= k < |allCases| ==> allCases[k].Case?
      invariant forall k :: 0 <= k < i ==> allCases[k + 1] == CaseOf(matches[k].id, SegmentText(casesText, matches, k), ex)
    {
      var saksnummer := matches[i].id;
      var startPos := matches[i].pos;
      var endPos := if i < |matches| - 1 then matches[i + 1].pos else |casesText|;
      var caseText := Substring(casesText, startPos, endPos);
      var fakturadato, forfallsdato := ExtractDatesFromCase(caseText);
      var fields := ex.financial(caseText);
      var creditor := ex.creditorInfo(caseText);
      allCases := allCases + [Case(Some(saksnummer), creditor, None, fakturadato, forfallsdato, None, None, None, fields)];
      i := i + 1;
    }
    if |allCases| == 1 && input.totalPage == input.numPages {
      var utstedetDato, forfallsDato := FallbackDates(input.totalPageText).0, FallbackDates(input.totalPageText).1;
      var fields := ex.financial(input.totalPageText);
      var creditor := ex.creditorInfo(input.totalPageText);
      allCases := allCases + [Case(None, creditor, None, None, None, utstedetDato, forfallsDato, None, fields)];
    }
  }

  /** When the matches come from a left-to-right scan, the case texts tile the text from
      the first match to the end: nothing is lost and nothing is read twice. */
  lemma SegmentsTile(text: string, ms: seq<CaseMatch>)
    requires Ordered(ms, |text|) && |ms| > 0
    ensures Concat(seq(|ms|, i requires 0 <= i < |ms| => SegmentText(text, ms, i))) == text[ms[0].pos..]
  {
    SegmentsTileFrom(text, ms, 0);
    assert seq(|ms| - 0, i requires 0 <= i < |ms| - 0 => SegmentText(text, ms, 0 + i)) ==
      seq(|ms|, i requires 0 <= i < |ms| => SegmentText(text, ms, i));
  }

  lemma {:induction false} SegmentsTileFrom(text: string, ms: seq<CaseMatch>, j: nat)
    requires Ordered(ms, |text|) && j < |ms|
    ensures Concat(seq(|ms| - j, i requires 0 <= i < |ms| - j => SegmentText(text, ms, j + i))) == text[ms[j].pos..]
    decreases |ms| - j
  {
    var parts := seq(|ms| - j, i requires 0 <= i < |ms| - j => SegmentText(text, ms, j + i));
    assert parts[0] == SegmentText(text, ms, j);
    if j == |ms| - 1 {
      assert parts[1..] == [];
    } else {
      SegmentsTileFrom(text, ms, j + 1);
      assert parts[1..] == seq(|ms| - (j + 1), i requires 0 <= i < |ms| - (j + 1) => SegmentText(text, ms, j + 1 + i));
      assert text[ms[j].pos..] == text[ms[j].pos..ms[j + 1].pos] + text[ms[j + 1].pos..];
    }
  }

  /** A debt record of the DebtSchema format (`debtType` and `comment` are always
      undefined). The due date is the text handed to `new Date`. */
  datatype Debt = Debt(
    caseID: string,
    totalAmount: nat,
    originalAmount: nat,
    interestAndFines: Option<nat>,
    originalDueDate: Option<string>,
    debtCollectorName: string,
    originalCreditorName: string)

  /** The sum of the present amounts. */
  function SumPresent(xs: seq<Option<nat>>): nat {
    if xs == [] then 0 else OrZero(xs[0]) + SumPresent(xs[1..])
  }

  lemma SumOfFour(a: Option<nat>, b: Option<nat>, c: Option<nat>, d: Option<nat>)
    ensures SumPresent([a, b, c, d]) == OrZero(a) + OrZero(b) + OrZero(c) + OrZero(d)
  {
    var xs: seq<Option<nat>> := [a, b, c, d];
    var t: seq<Option<nat>> := [];
    assert xs[1..] == [b, c, d] && xs[1..][1..] == [c, d] && xs[1..][1..][1..] == [d];
    assert xs[1..][1..][1..][1..] == t;
    assert SumPresent([d]) == OrZero(d) + SumPresent(t);
    assert SumPresent([c, d]) == OrZero(c) + SumPresent([d]);
    assert SumPresent([b, c, d]) == OrZero(b) + SumPresent([c, d]);
  }

  /** The `k`-th part of a split, `"undefined"` when there are fewer parts. */
  function Part(parts: seq<string>, k: nat): string {
    if k < |parts| then parts[k] else "undefined"
  }

  /** The text `${year}-${month}-${day}` built from a "DD.MM.YYYY" due date. */
  function ReorderDate(d: string): string {
    var parts := Split(d, '.');
    Part(parts, 2) + "-" + Part(parts, 1) + "-" + Part(parts, 0)
  }

  /** The map step of `transformToDebtSchema` for one case. */
  function ToDebt(c: RawCase): (r: Debt)
    requires c.Case?
    ensures r.debtCollectorName == "Kredinor"
    ensures r.interestAndFines.None? <==>
      OrZero(c.fields.renter) == 0 && OrZero(c.fields.gebyrer) == 0 &&
      OrZero(c.fields.inkasso) == 0 && OrZero(c.fields.renterAvOmkostninger) == 0
    ensures r.interestAndFines.Some? ==>
      r.interestAndFines.value ==
        OrZero(c.fields.renter) + OrZero(c.fields.gebyrer) + OrZero(c.fields.inkasso) + OrZero(c.fields.renterAvOmkostninger)
    ensures r.totalAmount == OrZero(c.fields.totalbelop)
    ensures r.originalAmount == OrZero(c.fields.restHovedstol)
    ensures r.originalDueDate.Some? <==> c.forfallsdato.Some? && c.forfallsdato.value != ""
    ensures r.originalDueDate.Some? ==> r.originalDueDate.value == ReorderDate(c.forfallsdato.value)
    ensures r.caseID == (if c.saksnummer.Some? then c.saksnummer.value else "")
    ensures r.originalCreditorName ==
      if c.creditor.opprinneligOppdragsgiver.Some? && c.creditor.opprinneligOppdragsgiver.value != "" then c.creditor.opprinneligOppdragsgiver.value
      else if c.creditor.oppdragsgiver.Some? then c.creditor.oppdragsgiver.value
      else ""
  {
    var f := c.fields;
    var amounts := [f.renter, f.gebyrer, f.inkasso, f.renterAvOmkostninger];
    var interestAndFines := SumPresent(amounts);
    SumOfFour(f.renter, f.gebyrer, f.inkasso, f.renterAvOmkostninger);
    var originalDueDate := if c.forfallsdato.Some? && c.forfallsdato.value != "" then Some(ReorderDate(c.forfallsdato.value)) else None;
    var opprinnelig := c.creditor.opprinneligOppdragsgiver;
    var oppdragsgiver := c.creditor.oppdragsgiver;
    Debt(
      if c.saksnummer.Some? then c.saksnummer.value else "",
      OrZero(f.totalbelop),
      OrZero(f.restHovedstol),
      if interestAndFines != 0 then Some(interestAndFines) else None,
      originalDueDate,
      "Kredinor",
      if opprinnelig.Some? && opprinnelig.value != "" then opprinnelig.value
      else if oppdragsgiver.Some? then oppdragsgiver.value
      else "")
  }

  /** `transformToDebtSchema(allCases)`: one debt per case, the grand total dropped. */
  function TransformToDebtSchema(allCases: seq<RawCase>): (r: seq<Debt>)
    ensures |r| == |CasesOnly(allCases)|
    ensures forall k :: 0 <= k < |r| ==> r[k].debtCollectorName == "Kredinor"
  {
    var cases := CasesOnly(allCases);
    seq(|cases|, k requires 0 <= k < |cases| => ToDebt(cases[k]))
  }

  /** A list made of the grand total followed by cases gives one debt per case, in order. */
  lemma TransformDropsGrandTotal(allCases: seq<RawCase>)
    requires |allCases| >= 1 && allCases[0].GrandTotal?
    requires forall k :: 1 <= k < |allCases| ==> allCases[k].Case?
    ensures |TransformToDebtSchema(allCases)| == |allCases| - 1
    ensures forall k :: 1 <= k < |allCases| ==> TransformToDebtSchema(allCases)[k - 1] == ToDebt(allCases[k])
  {
    var rest := allCases[1..];
    assert allCases == [GrandTotal(allCases[0].total)] + rest;
    CasesOnlyDropsGrandTotal(allCases[0].total, rest);
    forall k | 1 <= k < |allCases| ensures TransformToDebtSchema(allCases)[k - 1] == ToDebt(allCases[k]) {
      assert rest[k - 1] == allCases[k];
    }
  }

  /** The whole of `extractFields` after the PDF layer: the output has one debt per
      case-number match (or the single fallback debt), the grand total being dropped. */
  method ExtractFields(input: PdfInput, ex: Extractors) returns (debts: seq<Debt>)
    ensures var ms := ex.caseNumbers(input.casesText);
      |ms| > 0 ==> |debts| == |ms|
    ensures var ms := ex.caseNumbers(input.casesText);
      forall i :: 0 <= i < |ms| ==> i < |debts| && debts[i] == ToDebt(CaseOf(ms[i].id, SegmentText(input.casesText, ms, i), ex))
    ensures ex.caseNumbers(input.casesText) == [] ==>
      debts == (if input.totalPage == input.numPages then [ToDebt(FallbackCase(input.totalPageText, ex))] else [])
  {
    var allCases := ExtractCases(input, ex);
    debts := TransformToDebtSchema(allCases);
    TransformDropsGrandTotal(allCases);
  }

  /** The fallback case stores its due date under `forfallsDato`, while the transform
      reads `forfallsdato`: its debt never has a due date, whatever the page says. */
  lemma FallbackLosesDueDate(pageText: string, ex: Extractors)
    ensures ToDebt(FallbackCase(pageText, ex)).originalDueDate.None?
  {
  }

  /** Three dot-free parts joined by dots are reordered last, middle, first. */
  lemma ReorderParts(a: string, b: string, c: string)
    requires '.' !in a && '.' !in b && '.' !in c
    ensures ReorderDate(a + ['.'] + b + ['.'] + c) == c + "-" + b + "-" + a
  {
    assert a + ['.'] + b + ['.'] + c == a + ['.'] + (b + ['.'] + c);
    SplitAtFirst(a, b + ['.'] + c, '.');
    SplitAtFirst(b, c, '.');
  }

  lemma DigitsHaveNoDot(t: string)
    requires AllDigits(t)
    ensures '.' !in t
  {
  }

  /** A due date "DD.MM.YYYY" becomes "YYYY-MM-DD". */
  lemma ReorderDateOfDate(d: string)
    requires |d| == 10 && DateAt(d, 0)
    ensures ReorderDate(d) == d[6..10] + "-" + d[3..5] + "-" + d[0..2]
  {
    var day, month, year := d[0..2], d[3..5], d[6..10];
    assert d == day + ['.'] + month + ['.'] + year;
    DigitsHaveNoDot(day);
    DigitsHaveNoDot(month);
    DigitsHaveNoDot(year);
    ReorderParts(day, month, year);
  }

  /** A case whose due date is a "DD.MM.YYYY" date gets the debt due date "YYYY-MM-DD". */
  lemma DueDateReordered(c: RawCase, d: string)
    requires c.Case? && c.forfallsdato == Some(d) && |d| == 10 && DateAt(d, 0)
    ensures ToDebt(c).originalDueDate == Some(d[6..10] + "-" + d[3..5] + "-" + d[0..2])
  {
    ReorderDateOfDate(d);
  }

  /** A due date read from a case text is a date, so its debt carries it as "YYYY-MM-DD". */
  lemma CaseDueDateReordered(saksnummer: string, caseText: string, ex: Extractors)
    ensures var d := CaseDates(caseText).1;
      d.Some? ==>
        |d.value| == 10 &&
        ToDebt(CaseOf(saksnummer, caseText, ex)).originalDueDate ==
          Some(d.value[6..10] + "-" + d.value[3..5] + "-" + d.value[0..2])
  {
    var d := CaseDates(caseText).1;
    if d.Some? {
      var after := AfterGrunnlag(caseText).value;
      DatesAreDates(after);
      assert d.value == Dates(after)[1];
      DueDateReordered(CaseOf(saksnummer, caseText, ex), d.value);
    }
  }
}
