/** The structured-debt PDF extractor of `src/services/extract_structured_debt.mjs`: the
    text after the Totalbeløp page is cut into one case per run of equal consecutive case
    numbers (multi-page cases repeat their header), each case's invoices are read by
    pairing dates, and the cases are mapped to the structured document format. */
module StructuredDebt {
  import opened Strings
  import opened PdfText

  // ---------------------------------------------------------------------------------
  // Invoices

  const Referanse: string := "Referanse til saken"

  /** Invoice amounts outside (0, 1 000 000 000) kroner are discarded; in øre. */
  const AmountLimit: nat := 100_000_000_000

  /** The text searched for invoices: from "Referanse til saken" when it follows
      "Grunnlaget for saken", else everything after "Grunnlaget for saken". */
  function SearchText(caseText: string): (r: Option<string>)
    ensures r.Some? <==> Contains(caseText, Grunnlag)
    ensures r.Some? ==> EndsWith(caseText, r.value)
    ensures r.Some? && Contains(AfterGrunnlag(caseText).value, Referanse) ==> OccursAt(r.value, Referanse, 0)
    ensures r.Some? && !Contains(AfterGrunnlag(caseText).value, Referanse) ==> r == AfterGrunnlag(caseText)
  {
    match AfterGrunnlag(caseText)
    case None => None
    case Some(after) =>
      IndexOfIsFirst(after, Referanse);
      match IndexOf(after, Referanse)
      case None => Some(after)
      case Some(r) => Some(after[r..])
  }

  /** The invoice whose invoice date and due date are the dates at indices `at` and
      `dueAt` of `searchText`: its number is read from the text before the invoice date,
      its amount from the (at most) 200 characters after the due date, and kept only when
      it is within the limits. Every index here is inside the text, so JavaScript's
      clamping `substring` is a plain slice. */
  function InvoiceFor(searchText: string, at: nat, dueAt: nat, ex: Extractors): Invoice
    requires at + 10 <= |searchText| && dueAt + 10 <= |searchText|
  {
    var contextStart := dueAt + 10;
    var contextEnd := if |searchText| < contextStart + 200 then |searchText| else contextStart + 200;
    var parsed := ex.amountIn(searchText[contextStart..contextEnd]);
    var amount := if parsed.Some? && 0 < parsed.value < AmountLimit then parsed else None;
    Invoice(NonEmpty(ex.invoiceNumberBefore(searchText[..at])), searchText[at..at + 10],
      searchText[dueAt..dueAt + 10], amount)
  }

  /** An invoice carries the two dates it is made of, a non-empty number if any, and
      an amount within the limits if any. */
  lemma InvoiceForFields(searchText: string, at: nat, dueAt: nat, ex: Extractors)
    requires at + 10 <= |searchText| && dueAt + 10 <= |searchText|
    ensures InvoiceFor(searchText, at, dueAt, ex).invoiceDate == searchText[at..at + 10]
    ensures InvoiceFor(searchText, at, dueAt, ex).dueDate == searchText[dueAt..dueAt + 10]
    ensures InvoiceFor(searchText, at, dueAt, ex).amount.Some? ==>
      0 < InvoiceFor(searchText, at, dueAt, ex).amount.value < AmountLimit
    ensures InvoiceFor(searchText, at, dueAt, ex).invoiceNumber.Some? ==>
      InvoiceFor(searchText, at, dueAt, ex).invoiceNumber.value != ""
  {
  }

  /** The dates of `ps` lie inside a text of length `n`. */
  predicate InText(ps: seq<nat>, n: nat) {
    forall k :: 0 <= k < |ps| ==> ps[k] + 10 <= n
  }

  /** The invoices made of the date pairs (i, i + 1), (i + 2, i + 3), ... of `ps`. */
  function PairedFrom(searchText: string, ps: seq<nat>, i: nat, ex: Extractors): seq<Invoice>
    requires InText(ps, |searchText|)
    decreases |ps| - i
  {
    if i + 1 < |ps| then [InvoiceFor(searchText, ps[i], ps[i + 1], ex)] + PairedFrom(searchText, ps, i + 2, ex) else []
  }

  /** The invoices of a case (`InvoicesPairDates`). */
  function InvoicesOf(caseText: string, ex: Extractors): seq<Invoice> {
    match SearchText(caseText)
    case None => []
    case Some(st) => PairedFrom(st, DatePositions(st), 0, ex)
  }

  lemma PairedFromStep(searchText: string, ps: seq<nat>, i: nat, ex: Extractors)
    requires InText(ps, |searchText|)
    ensures i + 1 < |ps| ==>
              PairedFrom(searchText, ps, i, ex) ==
              [InvoiceFor(searchText, ps[i], ps[i + 1], ex)] + PairedFrom(searchText, ps, i + 2, ex)
    ensures i + 1 >= |ps| ==> PairedFrom(searchText, ps, i, ex) == [] && PairedFrom(searchText, ps, i + 2, ex) == []
  {
  }

  lemma {:induction false} PairedFromIndex(searchText: string, ps: seq<nat>, i: nat, ex: Extractors)
    requires i <= |ps| && InText(ps, |searchText|)
    decreases |ps| - i
    ensures 2 * |PairedFrom(searchText, ps, i, ex)| <= |ps| - i <= 2 * |PairedFrom(searchText, ps, i, ex)| + 1
    ensures forall k :: 0 <= k < |PairedFrom(searchText, ps, i, ex)| ==>
      PairedFrom(searchText, ps, i, ex)[k] == InvoiceFor(searchText, ps[i + 2 * k], ps[i + 2 * k + 1], ex)
  {
    if i + 1 < |ps| {
      PairedFromIndex(searchText, ps, i + 2, ex);
      var rest := PairedFrom(searchText, ps, i + 2, ex);
      var r := [InvoiceFor(searchText, ps[i], ps[i + 1], ex)] + rest;
      assert PairedFrom(searchText, ps, i, ex) == r;
      forall k | 1 <= k < |r| ensures r[k] == InvoiceFor(searchText, ps[i + 2 * k], ps[i + 2 * k + 1], ex) {
        assert r[k] == rest[k - 1];
        assert i + 2 + 2 * (k - 1) == i + 2 * k;
      }
    }
  }

  lemma HalfOf(n: nat, h: nat)
    requires 2 * h <= n <= 2 * h + 1
    ensures n / 2 == h
  {
  }

  /** Pairing the dates found in `searchText`: one invoice per two dates, made of dates
      2k and 2k + 1, every kept amount within the limits. */
  lemma PairedDates(searchText: string, ex: Extractors)
    ensures var r := PairedFrom(searchText, DatePositions(searchText), 0, ex);
      var dates := Dates(searchText);
      |r| == |dates| / 2 &&
      (forall k :: 0 <= k < |r| ==> r[k].invoiceDate == dates[2 * k] && r[k].dueDate == dates[2 * k + 1]) &&
      (forall k :: 0 <= k < |r| ==> r[k].amount.Some? ==> 0 < r[k].amount.value < AmountLimit)
  {
    var ps := DatePositions(searchText);
    var r := PairedFrom(searchText, ps, 0, ex);
    var dates := Dates(searchText);
    PairedFromIndex(searchText, ps, 0, ex);
    assert |dates| == |ps|;
    HalfOf(|ps|, |r|);
    forall k | 0 <= k < |r|
      ensures r[k].invoiceDate == dates[2 * k] && r[k].dueDate == dates[2 * k + 1]
      ensures r[k].amount.Some? ==> 0 < r[k].amount.value < AmountLimit
    {
      assert r[k] == InvoiceFor(searchText, ps[2 * k], ps[2 * k + 1], ex);
      assert dates[2 * k] == searchText[ps[2 * k]..ps[2 * k] + 10];
      assert dates[2 * k + 1] == searchText[ps[2 * k + 1]..ps[2 * k + 1] + 10];
      InvoiceForFields(searchText, ps[2 * k], ps[2 * k + 1], ex);
    }
  }

  /** Dates are paired (0, 1), (2, 3), ..., a last unpaired date being ignored; a case
      without "Grunnlaget for saken" has no invoices. */
  lemma InvoicesPairDates(caseText: string, ex: Extractors)
    ensures !Contains(caseText, Grunnlag) ==> InvoicesOf(caseText, ex) == []
    ensures SearchText(caseText).Some? ==>
      var r := InvoicesOf(caseText, ex);
      var dates := Dates(SearchText(caseText).value);
      |r| == |dates| / 2 &&
      (forall k :: 0 <= k < |r| ==> r[k].invoiceDate == dates[2 * k] && r[k].dueDate == dates[2 * k + 1]) &&
      (forall k :: 0 <= k < |r| ==> r[k].amount.Some? ==> 0 < r[k].amount.value < AmountLimit)
  {
    if SearchText(caseText).Some? {
      PairedDates(SearchText(caseText).value, ex);
    }
  }

  /** `extractInvoicesFromCase(caseText)`: a loop over the dates, two at a time. */
  method ExtractInvoicesFromCase(caseText: string, ex: Extractors) returns (invoices: seq<Invoice>)
    ensures invoices == InvoicesOf(caseText, ex)
  {
    invoices := [];
    var grunnlagIdx := IndexOf(caseText, Grunnlag);
    if grunnlagIdx.None? {
      return;
    }
    var afterGrunnlag := caseText[grunnlagIdx.value + |Grunnlag|..];
    var referanseIdx := IndexOf(afterGrunnlag, Referanse);
    var searchText := afterGrunnlag;
    if referanseIdx.Some? {
      searchText := afterGrunnlag[referanseIdx.value..];
    }
    assert SearchText(caseText) == Some(searchText);
    var dateMatches := DatePositions(searchText);
    var i := 0;
    while i < |dateMatches|
      invariant invoices + PairedFrom(searchText, dateMatches, i, ex) == PairedFrom(searchText, dateMatches, 0, ex)
    {
      PairedFromStep(searchText, dateMatches, i, ex);
      if i + 1 < |dateMatches| {
        var invoice := InvoiceFor(searchText, dateMatches[i], dateMatches[i + 1], ex);
        AppendAssoc(invoices, [invoice], PairedFrom(searchText, dateMatches, i + 2, ex));
        invoices := invoices + [invoice];
      }
      i := i + 2;
    }
  }

  // ---------------------------------------------------------------------------------
  // Debt collector

  /** The lower-cased text contains `name`. */
  predicate Mentions(text: string, name: string) {
    Contains(ToLower(text), name)
  }

  /** `detectDebtCollector(text)`: the first of the known collector names (in a fixed
      priority order) that the lower-cased text mentions. */
  function DetectDebtCollector(text: string): (r: string)
    ensures r == "Kredinor" <==> Mentions(text, "kredinor")
    ensures r == "Intrum" <==> !Mentions(text, "kredinor") && Mentions(text, "intrum")
    ensures r == "PRA Group" <==> !Mentions(text, "kredinor") && !Mentions(text, "intrum") && Mentions(text, "pra group")
    ensures r == "SI" <==> (!Mentions(text, "kredinor") && !Mentions(text, "intrum") && !Mentions(text, "pra group") &&
      Mentions(text, "statens innkrevingssentral"))
    ensures r == "Zolva AS" <==> (!Mentions(text, "kredinor") && !Mentions(text, "intrum") && !Mentions(text, "pra group") &&
      !Mentions(text, "statens innkrevingssentral") && Mentions(text, "zolva"))
    ensures r in {"Kredinor", "Intrum", "PRA Group", "SI", "Zolva AS", "Unknown Debt Collector"}
  {
    var lowerText := ToLower(text);
    if Contains(lowerText, "kredinor") then "Kredinor"
    else if Contains(lowerText, "intrum") then "Intrum"
    else if Contains(lowerText, "pra group") then "PRA Group"
    else if Contains(lowerText, "statens innkrevingssentral") then "SI"
    else if Contains(lowerText, "zolva") then "Zolva AS"
    else "Unknown Debt Collector"
  }

  /** Detection ignores letter case. */
  lemma DetectIgnoresCase(text: string)
    ensures DetectDebtCollector(ToLower(text)) == DetectDebtCollector(text)
  {
    ToLowerIdempotent(text);
  }

  /** An explicit `options.debtCollectorName` overrides detection unless it is empty. */
  function CollectorName(option: Option<string>, totalPageText: string): (r: string)
    ensures option.Some? && option.value != "" ==> r == option.value
    ensures option.None? || option.value == "" ==> r == DetectDebtCollector(totalPageText)
  {
    if option.Some? && option.value != "" then option.value else DetectDebtCollector(totalPageText)
  }

  // ---------------------------------------------------------------------------------
  // Case segmentation

  /** The text of one emitted case and its case number. */
  datatype Segment = Segment(id: string, text: string)

  /** The first index at or after `j` whose case number differs from that of match `i`. */
  function NextDifferent(ms: seq<CaseMatch>, i: nat, j: nat): (r: Option<nat>)
    requires i < |ms|
    decreases |ms| - j
    ensures r.Some? ==> j <= r.value < |ms| && ms[r.value].id != ms[i].id
    ensures r.Some? ==> forall k :: j <= k < r.value ==> ms[k].id == ms[i].id
    ensures r.None? ==> forall k :: j <= k < |ms| ==> ms[k].id == ms[i].id
  {
    if j >= |ms| then None
    else if ms[j].id != ms[i].id then Some(j)
    else NextDifferent(ms, i, j + 1)
  }

  /** Where the case starting at match `i` ends: at the next match with a different case
      number, or at the end of the text. */
  function EndPos(text: string, ms: seq<CaseMatch>, i: nat): nat
    requires i < |ms|
  {
    match NextDifferent(ms, i, i + 1)
    case Some(j) => ms[j].pos
    case None => |text|
  }

  /** Match `i` starts a run of equal case numbers. */
  predicate RunStart(ms: seq<CaseMatch>, i: nat)
    requires i < |ms|
  {
    i == 0 || ms[i - 1].id != ms[i].id
  }

  /** The cases emitted by the loop from match `i` on: a match that repeats the case
      number of the match before it is skipped. */
  function SegmentsFrom(text: string, ms: seq<CaseMatch>, i: nat): seq<Segment>
    decreases |ms| - i
  {
    if i >= |ms| then []
    else if !RunStart(ms, i) then SegmentsFrom(text, ms, i + 1)
    else [Segment(ms[i].id, Substring(text, ms[i].pos, EndPos(text, ms, i)))] + SegmentsFrom(text, ms, i + 1)
  }

  /** The raw case read from one case text. */
  function CaseOf(seg: Segment, ex: Extractors): RawCase {
    var t := seg.text;
    var dates := CaseDates(t);
    Case(Some(seg.id), ex.creditorInfo(t), Some(ex.identifiers(t)), dates.0, dates.1, None, None,
      Some(InvoicesOf(t, ex)), ex.financial(t))
  }

  function CasesOf(segs: seq<Segment>, ex: Extractors): (r: seq<RawCase>)
    ensures |r| == |segs|
  {
    seq(|segs|, k requires 0 <= k < |segs| => CaseOf(segs[k], ex))
  }

  /** The fallback case read from the Totalbeløp page (its due date under `forfallsDato`). */
  function FallbackCase(pageText: string, ex: Extractors): RawCase {
    var dates := FallbackDates(pageText);
    Case(None, ex.creditorInfo(pageText), Some(ex.identifiers(pageText)), None, None, dates.0, dates.1, None,
      ex.financial(pageText))
  }

  /** `allCases` as `extractStructuredDebt` builds it: the grand total, the emitted
      cases, and the fallback case when no case was emitted and the Totalbeløp page is
      the last page. */
  function AllCasesOf(input: PdfInput, ex: Extractors): seq<RawCase> {
    var segs := SegmentsFrom(input.casesText, ex.caseNumbers(input.casesText), 0);
    [GrandTotal(input.grandTotal)] + CasesOf(segs, ex) +
      (if segs == [] && input.totalPage == input.numPages then [FallbackCase(input.totalPageText, ex)] else [])
  }

  /** The inner loop of the case loop: the case starting at match `i` ends at the next
      match with a different case number, or at the end of the text. */
  method CaseEnd(casesText: string, matches: seq<CaseMatch>, i: nat) returns (endPos: nat)
    requires i < |matches|
    ensures endPos == EndPos(casesText, matches, i)
  {
    var saksnummer := matches[i].id;
    endPos := 0;
    var nextDifferentCaseIdx: int := -1;
    var j := i + 1;
    while j < |matches|
      invariant i + 1 <= j <= |matches|
      invariant nextDifferentCaseIdx == -1
      invariant NextDifferent(matches, i, i + 1) == NextDifferent(matches, i, j)
    {
      if matches[j].id != saksnummer {
        nextDifferentCaseIdx := j;
        endPos := matches[j].pos;
        break;
      }
      j := j + 1;
    }
    if nextDifferentCaseIdx == -1 {
      endPos := |casesText|;
    }
  }

  /** The case loop and fallback of `extractStructuredDebt`, with the nested search for
      the next different case number and the skip of repeated headers. */
  method CollectCases(input: PdfInput, ex: Extractors) returns (allCases: seq<RawCase>)
    ensures allCases == AllCasesOf(input, ex)
  {
    var casesText := input.casesText;
    var matches := ex.caseNumbers(casesText);
    allCases := [GrandTotal(input.grandTotal)];
    ghost var emitted: seq<Segment> := [];
    var i := 0;
    while i < |matches|
      invariant 0 <= i <= |matches|
      invariant emitted + SegmentsFrom(casesText, matches, i) == SegmentsFrom(casesText, matches, 0)
      invariant allCases == [GrandTotal(input.grandTotal)] + CasesOf(emitted, ex)
    {
      var saksnummer := matches[i].id;
      var startPos := matches[i].pos;
      var endPos := CaseEnd(casesText, matches, i);
      if i > 0 && matches[i - 1].id == saksnummer {
        assert SegmentsFrom(casesText, matches, i) == SegmentsFrom(casesText, matches, i + 1) by {
          SegmentsStep(casesText, matches, i);
        }
        i := i + 1;
        continue;
      }
      var caseText := Substring(casesText, startPos, endPos);
      var fakturadato, forfallsdato := ExtractDatesFromCase(caseText);
      var invoices := ExtractInvoicesFromCase(caseText, ex);
      var fields := ex.financial(caseText);
      var creditor := ex.creditorInfo(caseText);
      var identifiers := ex.identifiers(caseText);
      var seg := Segment(saksnummer, caseText);
      var c := Case(Some(saksnummer), creditor, Some(identifiers), fakturadato, forfallsdato, None, None,
        Some(invoices), fields);
      assert emitted + [seg] + SegmentsFrom(casesText, matches, i + 1) == SegmentsFrom(casesText, matches, 0) by {
        SegmentsStep(casesText, matches, i);
        AppendAssoc(emitted, [seg], SegmentsFrom(casesText, matches, i + 1));
      }
      assert allCases + [c] == [GrandTotal(input.grandTotal)] + CasesOf(emitted + [seg], ex) by {
        CaseOfParts(seg, ex, fakturadato, forfallsdato, invoices);
        CasesOfAppend(emitted, seg, ex);
        AppendAssoc([GrandTotal(input.grandTotal)], CasesOf(emitted, ex), [c]);
      }
      allCases := allCases + [c];
      emitted := emitted + [seg];
      i := i + 1;
    }
    assert emitted == SegmentsFrom(casesText, matches, 0);
    if |allCases| == 1 && input.totalPage == input.numPages {
      var dates := FallbackDates(input.totalPageText);
      var fields := ex.financial(input.totalPageText);
      var creditor := ex.creditorInfo(input.totalPageText);
      var identifiers := ex.identifiers(input.totalPageText);
      allCases := allCases + [Case(None, creditor, Some(identifiers), None, None, dates.0, dates.1, None, fields)];
    }
  }

  /** One step of the case loop: a run's first match emits its case, any other match
      nothing. */
  lemma SegmentsStep(text: string, ms: seq<CaseMatch>, i: nat)
    requires i < |ms|
    ensures RunStart(ms, i) ==>
              SegmentsFrom(text, ms, i) ==
              [Segment(ms[i].id, Substring(text, ms[i].pos, EndPos(text, ms, i)))] + SegmentsFrom(text, ms, i + 1)
    ensures !RunStart(ms, i) ==> SegmentsFrom(text, ms, i) == SegmentsFrom(text, ms, i + 1)
  {
  }

  /** The case the loop builds from the pieces it computes is `CaseOf` its segment. */
  lemma CaseOfParts(seg: Segment, ex: Extractors, fakturadato: Option<string>, forfallsdato: Option<string>,
                    invoices: seq<Invoice>)
    requires (fakturadato, forfallsdato) == CaseDates(seg.text) && invoices == InvoicesOf(seg.text, ex)
    ensures Case(Some(seg.id), ex.creditorInfo(seg.text), Some(ex.identifiers(seg.text)), fakturadato, forfallsdato,
                 None, None, Some(invoices), ex.financial(seg.text)) == CaseOf(seg, ex)
  {
  }

  lemma CasesOfAppend(segs: seq<Segment>, seg: Segment, ex: Extractors)
    ensures CasesOf(segs + [seg], ex) == CasesOf(segs, ex) + [CaseOf(seg, ex)]
  {
  }

  /** Inside a run of equal case numbers, the matches after its first one emit nothing. */
  lemma {:induction false} SkipRun(text: string, ms: seq<CaseMatch>, i: nat, k: nat, r: nat)
    requires i < k <= r <= |ms|
    requires forall m :: i <= m < r ==> ms[m].id == ms[i].id
    ensures SegmentsFrom(text, ms, k) == SegmentsFrom(text, ms, r)
    decreases r - k
  {
    if k < r {
      assert ms[k - 1].id == ms[k].id;
      SkipRun(text, ms, i, k + 1, r);
    }
  }

  function Texts(segs: seq<Segment>): seq<string> {
    seq(|segs|, k requires 0 <= k < |segs| => segs[k].text)
  }

  function SegmentIds(segs: seq<Segment>): seq<string> {
    seq(|segs|, k requires 0 <= k < |segs| => segs[k].id)
  }

  function MatchIds(ms: seq<CaseMatch>): seq<string> {
    seq(|ms|, k requires 0 <= k < |ms| => ms[k].id)
  }

  /** When the matches come from a left-to-right scan, the emitted case texts tile the
      text from the first match to the end. */
  lemma SegmentsTile(text: string, ms: seq<CaseMatch>)
    requires Ordered(ms, |text|) && |ms| > 0
    ensures Concat(Texts(SegmentsFrom(text, ms, 0))) == text[ms[0].pos..]
  {
    SegmentsTileFrom(text, ms, 0);
  }

  lemma {:induction false} SegmentsTileFrom(text: string, ms: seq<CaseMatch>, i: nat)
    requires Ordered(ms, |text|) && i < |ms| && RunStart(ms, i)
    ensures Concat(Texts(SegmentsFrom(text, ms, i))) == text[ms[i].pos..]
    decreases |ms| - i
  {
    match NextDifferent(ms, i, i + 1)
    case None =>
      TileLastRun(text, ms, i);
    case Some(r) =>
      assert ms[r - 1].id == ms[i].id;
      SegmentsTileFrom(text, ms, r);
      TileRun(text, ms, i, r);
  }

  /** The last run's case text runs to the end of the text. */
  lemma TileLastRun(text: string, ms: seq<CaseMatch>, i: nat)
    requires Ordered(ms, |text|) && i < |ms| && RunStart(ms, i) && NextDifferent(ms, i, i + 1).None?
    ensures Concat(Texts(SegmentsFrom(text, ms, i))) == text[ms[i].pos..]
  {
    assert ms[i].pos <= |text|;
    var seg := Segment(ms[i].id, Substring(text, ms[i].pos, |text|));
    assert SegmentsFrom(text, ms, i) == [seg] + [] by {
      SegmentsStep(text, ms, i);
      SkipRun(text, ms, i, i + 1, |ms|);
    }
    ConcatTile(seg, [], text, ms[i].pos, |text|);
  }

  /** A run's case text followed by the texts from the next run covers the text from the
      run's first match. */
  lemma TileRun(text: string, ms: seq<CaseMatch>, i: nat, r: nat)
    requires Ordered(ms, |text|) && i < |ms| && RunStart(ms, i) && NextDifferent(ms, i, i + 1) == Some(r)
    requires Concat(Texts(SegmentsFrom(text, ms, r))) == text[ms[r].pos..]
    ensures Concat(Texts(SegmentsFrom(text, ms, i))) == text[ms[i].pos..]
  {
    assert ms[i].pos < ms[r].pos <= |text| by {
      OrderedIncreasing(ms, |text|, i, r);
    }
    var seg := Segment(ms[i].id, Substring(text, ms[i].pos, ms[r].pos));
    RunSegments(text, ms, i, r);
    ConcatTile(seg, SegmentsFrom(text, ms, r), text, ms[i].pos, ms[r].pos);
  }

  /** A run followed by another gives one case up to the next run's first match. */
  lemma RunSegments(text: string, ms: seq<CaseMatch>, i: nat, r: nat)
    requires i < |ms| && RunStart(ms, i) && NextDifferent(ms, i, i + 1) == Some(r)
    ensures SegmentsFrom(text, ms, i) ==
      [Segment(ms[i].id, Substring(text, ms[i].pos, ms[r].pos))] + SegmentsFrom(text, ms, r)
  {
    SegmentsStep(text, ms, i);
    SkipRun(text, ms, i, i + 1, r);
  }

  /** A segment holding `whole[a..b]` followed by segments that concatenate to
      `whole[b..]` concatenates to `whole[a..]`. */
  lemma ConcatTile(seg: Segment, rest: seq<Segment>, whole: string, a: nat, b: nat)
    requires a <= b <= |whole| && seg.text == whole[a..b] && Concat(Texts(rest)) == whole[b..]
    ensures Concat(Texts([seg] + rest)) == whole[a..]
  {
    ConcatTexts(seg, rest);
    assert whole[a..] == whole[a..b] + whole[b..];
  }

  lemma ConcatTexts(seg: Segment, rest: seq<Segment>)
    ensures Concat(Texts([seg] + rest)) == seg.text + Concat(Texts(rest))
  {
    assert Texts([seg] + rest) == [seg.text] + Texts(rest);
  }

  lemma {:induction false} OrderedIncreasing(ms: seq<CaseMatch>, n: nat, i: nat, r: nat)
    requires Ordered(ms, n) && i < r < |ms|
    ensures ms[i].pos < ms[r].pos
    decreases r - i
  {
    if i + 1 < r {
      OrderedIncreasing(ms, n, i + 1, r);
    }
  }

  /** `ids` with adjacent repeats removed: the reference for what the loop emits. */
  function Compress(ids: seq<string>): (r: seq<string>)
    ensures ids != [] ==> r != [] && r[0] == ids[0]
    ensures |r| <= |ids|
  {
    if |ids| <= 1 then ids
    else if ids[0] == ids[1] then Compress(ids[1..])
    else [ids[0]] + Compress(ids[1..])
  }

  /** One case per run of equal consecutive case numbers: the emitted case numbers are
      the matched ones with adjacent repeats removed. */
  lemma CaseIdsAreRuns(text: string, ms: seq<CaseMatch>)
    ensures SegmentIds(SegmentsFrom(text, ms, 0)) == Compress(MatchIds(ms))
  {
    var xs := MatchIds(ms);
    if ms != [] {
      CaseIdsFrom(text, ms, 1);
      var rest := SegmentsFrom(text, ms, 1);
      var seg := Segment(ms[0].id, Substring(text, ms[0].pos, EndPos(text, ms, 0)));
      assert SegmentsFrom(text, ms, 0) == [seg] + rest;
      assert SegmentIds([seg] + rest) == [ms[0].id] + SegmentIds(rest);
      assert xs[0..] == xs;
      assert Compress(xs) == [xs[0]] + Compress(xs)[1..];
    }
  }

  lemma {:induction false} CaseIdsFrom(text: string, ms: seq<CaseMatch>, i: nat)
    requires 1 <= i <= |ms|
    ensures SegmentIds(SegmentsFrom(text, ms, i)) == Compress(MatchIds(ms)[i - 1..])[1..]
    decreases |ms| - i
  {
    var xs := MatchIds(ms);
    if i == |ms| {
      assert xs[i - 1..] == [xs[i - 1]];
      assert SegmentIds([]) == [];
    } else {
      CaseIdsFrom(text, ms, i + 1);
      var tail := xs[i - 1..];
      assert tail[1..] == xs[i..] && tail[0] == ms[i - 1].id && tail[1] == ms[i].id;
      assert xs[i..][0] == ms[i].id;
      if ms[i - 1].id == ms[i].id {
        assert SegmentsFrom(text, ms, i) == SegmentsFrom(text, ms, i + 1);
      } else {
        var seg := Segment(ms[i].id, Substring(text, ms[i].pos, EndPos(text, ms, i)));
        var rest := SegmentsFrom(text, ms, i + 1);
        assert SegmentsFrom(text, ms, i) == [seg] + rest;
        assert SegmentIds([seg] + rest) == [ms[i].id] + SegmentIds(rest);
        assert Compress(xs[i..]) == [xs[i..][0]] + Compress(xs[i..])[1..];
        assert Compress(tail) == [tail[0]] + Compress(xs[i..]);
      }
    }
  }

  /** Repeats that are not adjacent are separate cases: A, B, A gives three cases. */
  lemma NonAdjacentRepeatsKept()
    ensures Compress(["A", "B", "A"]) == ["A", "B", "A"]
    ensures Compress(["A", "A", "B"]) == ["A", "B"]
  {
    assert ["A", "B", "A"][1..] == ["B", "A"] && ["B", "A"][1..] == ["A"];
    assert ["A", "A", "B"][1..] == ["A", "B"] && ["A", "B"][1..] == ["B"];
  }

  // ---------------------------------------------------------------------------------
  // Output records

  datatype CaseIdentifiers = CaseIdentifiers(caseNumber: string, referenceNumber: Option<string>, customerNumber: Option<string>)

  datatype Amounts = Amounts(
    totalAmount: nat,
    principalAmount: nat,
    interest: Option<nat>,
    fees: Option<nat>,
    collectionFees: Option<nat>,
    interestOnCosts: Option<nat>)

  datatype DateFields = DateFields(invoiceDate: Option<string>, originalDueDate: Option<string>, issuedDate: Option<string>)

  datatype Parties = Parties(debtCollector: string, currentCreditor: Option<string>, originalCreditor: Option<string>)

  datatype Details = Details(basisForClaim: string, invoices: seq<Invoice>)

  datatype StructuredCase = StructuredCase(
    identifiers: CaseIdentifiers,
    amounts: Amounts,
    dates: DateFields,
    parties: Parties,
    details: Option<Details>)

  /** The map step of `transformToStructuredCases` for one case. */
  function ToStructured(c: RawCase, debtCollectorName: string): (r: StructuredCase)
    requires c.Case?
    ensures r.identifiers.caseNumber == (if c.saksnummer.Some? then c.saksnummer.value else "")
    ensures r.amounts.totalAmount == OrZero(c.fields.totalbelop)
    ensures r.amounts.principalAmount == OrZero(c.fields.restHovedstol)
    ensures r.parties.debtCollector == debtCollectorName
    ensures r.details.Some? <==> c.invoices.Some? && c.invoices.value != []
    ensures r.details.Some? ==> r.details.value == Details(Grunnlag, c.invoices.value)
    ensures r.dates.originalDueDate == NonEmpty(c.forfallsdato)
  {
    var ids := c.ids;
    var f := c.fields;
    StructuredCase(
      CaseIdentifiers(
        if c.saksnummer.Some? then c.saksnummer.value else "",
        if ids.Some? then NonEmpty(ids.value.referanse) else None,
        if ids.Some? then NonEmpty(ids.value.kundenummer) else None),
      Amounts(OrZero(f.totalbelop), OrZero(f.restHovedstol), NonZero(f.renter), NonZero(f.gebyrer),
        NonZero(f.inkasso), NonZero(f.renterAvOmkostninger)),
      DateFields(NonEmpty(c.fakturadato), NonEmpty(c.forfallsdato), NonEmpty(c.utstedetDato)),
      Parties(debtCollectorName, NonEmpty(c.creditor.oppdragsgiver), NonEmpty(c.creditor.opprinneligOppdragsgiver)),
      if c.invoices.Some? && |c.invoices.value| > 0 then Some(Details(Grunnlag, c.invoices.value)) else None)
  }

  /** `transformToStructuredCases(allCases, debtCollectorName)`. */
  function TransformToStructuredCases(allCases: seq<RawCase>, debtCollectorName: string): (r: seq<StructuredCase>)
    ensures |r| == |CasesOnly(allCases)|
    ensures forall k :: 0 <= k < |r| ==> r[k].parties.debtCollector == debtCollectorName
  {
    var cases := CasesOnly(allCases);
    seq(|cases|, k requires 0 <= k < |cases| => ToStructured(cases[k], debtCollectorName))
  }

  /** The structured document (its extraction date and absolute PDF path are left out). */
  datatype StructuredDocument = StructuredDocument(
    source: string,
    documentType: string,
    pdfLink: Option<string>,
    totalAmount: nat,
    numberOfCases: nat,
    debtCollector: string,
    cases: seq<StructuredCase>)

  datatype Options = Options(debtCollectorName: Option<string>, pdfLink: Option<string>)

  /** `extractStructuredDebt` after the PDF layer: the document holds one structured case
      per emitted case (or the single fallback case), its `numberOfCases` is their count,
      and it carries the grand total and the collector name. */
  method ExtractStructuredDebt(input: PdfInput, options: Options, ex: Extractors) returns (doc: StructuredDocument)
    ensures doc.numberOfCases == |doc.cases|
    ensures doc.totalAmount == input.grandTotal
    ensures doc.source == doc.debtCollector == CollectorName(options.debtCollectorName, input.totalPageText)
    ensures doc.documentType == "Debt Collection Statement"
    ensures var segs := SegmentsFrom(input.casesText, ex.caseNumbers(input.casesText), 0);
      |doc.cases| == |segs| + (if segs == [] && input.totalPage == input.numPages then 1 else 0)
    ensures var segs := SegmentsFrom(input.casesText, ex.caseNumbers(input.casesText), 0);
      forall k :: 0 <= k < |segs| ==> doc.cases[k] == ToStructured(CaseOf(segs[k], ex), doc.debtCollector)
    ensures var segs := SegmentsFrom(input.casesText, ex.caseNumbers(input.casesText), 0);
      segs == [] && input.totalPage == input.numPages ==>
        doc.cases == [ToStructured(FallbackCase(input.totalPageText, ex), doc.debtCollector)]
    ensures doc.pdfLink == NonEmpty(options.pdfLink)
  {
    var debtCollectorName := CollectorName(options.debtCollectorName, input.totalPageText);
    var allCases := CollectCases(input, ex);
    ghost var segs := SegmentsFrom(input.casesText, ex.caseNumbers(input.casesText), 0);
    ghost var cs := CasesOf(segs, ex) +
      (if segs == [] && input.totalPage == input.numPages then [FallbackCase(input.totalPageText, ex)] else []);
    assert allCases == [GrandTotal(input.grandTotal)] + cs;
    var structuredCases := TransformToStructuredCases(allCases, debtCollectorName);
    StructuredCasesOf(input.grandTotal, cs, debtCollectorName);
    doc := StructuredDocument(debtCollectorName, "Debt Collection Statement", NonEmpty(options.pdfLink),
      input.grandTotal, |structuredCases|, debtCollectorName, structuredCases);
  }

  /** After the grand total, each case is transformed in its place. */
  lemma StructuredCasesOf(total: nat, cs: seq<RawCase>, name: string)
    requires forall k :: 0 <= k < |cs| ==> cs[k].Case?
    ensures |TransformToStructuredCases([GrandTotal(total)] + cs, name)| == |cs|
    ensures forall k :: 0 <= k < |cs| ==> TransformToStructuredCases([GrandTotal(total)] + cs, name)[k] == ToStructured(cs[k], name)
  {
    CasesOnlyDropsGrandTotal(total, cs);
  }

  /** The fallback case keeps its issue date but loses its due date: it is stored under
      `forfallsDato` while the transform reads `forfallsdato`. It has no invoice details. */
  lemma FallbackLosesDueDate(pageText: string, ex: Extractors, name: string)
    ensures ToStructured(FallbackCase(pageText, ex), name).dates.originalDueDate == None
    ensures ToStructured(FallbackCase(pageText, ex), name).dates.issuedDate == NonEmpty(FallbackDates(pageText).0)
    ensures ToStructured(FallbackCase(pageText, ex), name).dates.invoiceDate == None
    ensures ToStructured(FallbackCase(pageText, ex), name).details == None
    ensures ToStructured(FallbackCase(pageText, ex), name).identifiers.caseNumber == ""
  {
  }
}
