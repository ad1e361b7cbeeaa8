/** `handleScrapingResult`: a scraper's result string is classified as a success or
    a failure; a failure shows an error notice; a DEBT_FOUND result reloads the saved
    debts; and the site's button is marked visited or failed. */
module ScrapingService {
  import opened Strings
  import opened Json
  import opened DebtReader
  import opened UiState
  import opened DataLoader

  /** The error notice a failing branch shows, with the site it names. */
  datatype Notice =
    | TimeoutNotice(site: string)
    | LockedOutNotice(site: string)
    | UnexpectedStateNotice(site: string)
    | GenericNotice(site: string)

  const Visited := "btn-visited"
  const VisitFailed := "btn-visit-failed"

  /** The cases of the `switch`; `Other` is any string it does not name. */
  datatype Outcome =
    | HandlerTimeout | DebtFound | NoDebtFound | MessagesProcessed
    | TooManyFailedAttempts | UnexpectedState | Other

  /** The case a result string selects (`===` on the case labels). */
  function Classify(result: string): (r: Outcome)
    ensures r == HandlerTimeout <==> result == "HANDLER_TIMEOUT"
    ensures r == DebtFound <==> result == "DEBT_FOUND"
    ensures r == NoDebtFound <==> result == "NO_DEBT_FOUND"
    ensures r == MessagesProcessed <==> result == "MESSAGES_PROCESSED"
    ensures r == TooManyFailedAttempts <==> result == "TOO_MANY_FAILED_ATTEMPTS"
    ensures r == UnexpectedState <==> result == "UNEXPECTED_STATE"
  {
    if result == "HANDLER_TIMEOUT" then HandlerTimeout
    else if result == "DEBT_FOUND" then DebtFound
    else if result == "NO_DEBT_FOUND" then NoDebtFound
    else if result == "MESSAGES_PROCESSED" then MessagesProcessed
    else if result == "TOO_MANY_FAILED_ATTEMPTS" then TooManyFailedAttempts
    else if result == "UNEXPECTED_STATE" then UnexpectedState
    else Other
  }

  /** The three results counted as a successful visit. */
  predicate IsSuccess(o: Outcome) {
    o == DebtFound || o == NoDebtFound || o == MessagesProcessed
  }

  /** A result is a success exactly when it is one of the three names. */
  lemma SuccessNames(result: string)
    ensures IsSuccess(Classify(result)) <==>
      result == "DEBT_FOUND" || result == "NO_DEBT_FOUND" || result == "MESSAGES_PROCESSED"
  {
  }

  /** The title passed to `showScrapeDebtError`. */
  function Title(n: Notice): string {
    match n
    case TimeoutNotice(_) => "Tidsavbrudd"
    case LockedOutNotice(_) => "For mange mislykkede påloggingsforsøk"
    case UnexpectedStateNotice(_) => "Uventet tilstand"
    case GenericNotice(_) => "Feil under innhenting"
  }

  /** The message passed to `showScrapeDebtError`: a fixed text around the site name. */
  function Message(n: Notice): string {
    MessageBefore(n) + n.site + MessageAfter(n)
  }

  function MessageBefore(n: Notice): string {
    match n
    case TimeoutNotice(_) => "Tidsavbrudd ved henting av gjeldsinformasjon fra "
    case LockedOutNotice(_) => "For mange mislykkede påloggingsforsøk fra "
    case UnexpectedStateNotice(_) => "Innhenting av gjeldsinformasjon fra "
    case GenericNotice(_) => "Noe gikk galt under innhenting av gjeldsinformasjon fra "
  }

  function MessageAfter(n: Notice): string {
    match n
    case UnexpectedStateNotice(_) =>
      " fullførte ikke siden programmet ikke fant et forventet element (\"Totalt skylder du ...\")"
    case _ => "."
  }

  /** Every message names the site it is about. */
  lemma MessageNamesSite(n: Notice)
    ensures Contains(Message(n), n.site)
  {
    InfixContained(MessageBefore(n), n.site, MessageAfter(n));
  }

  // ---------------------------------------------------------------------------
  // The button's class list, a DOMTokenList: an ordered list of distinct tokens

  /** `classList.remove(token)`: every occurrence goes, the rest keep their order. */
  function Without(cl: seq<string>, token: string): seq<string> {
    if cl == [] then [] else (if cl[0] == token then [] else [cl[0]]) + Without(cl[1..], token)
  }

  /** `classList.add(token)`: appended unless already present. */
  function Added(cl: seq<string>, token: string): seq<string> {
    if token in cl then cl else cl + [token]
  }

  /** The class list after the update at the end of `handleScrapingResult`. */
  function ClassesAfter(cl: seq<string>, isSuccessful: bool): seq<string> {
    if isSuccessful then Added(Without(cl, VisitFailed), Visited)
    else Added(Without(cl, Visited), VisitFailed)
  }

  lemma {:induction false} WithoutMembers(cl: seq<string>, token: string)
    ensures forall x :: x in Without(cl, token) <==> x in cl && x != token
  {
    if cl != [] {
      WithoutMembers(cl[1..], token);
      assert cl == [cl[0]] + cl[1..];
    }
  }

  lemma {:induction false} WithoutAppend(a: seq<string>, b: seq<string>, token: string)
    ensures Without(a + b, token) == Without(a, token) + Without(b, token)
  {
    if a != [] {
      assert (a + b)[1..] == a[1..] + b;
      WithoutAppend(a[1..], b, token);
    } else {
      assert a + b == b;
    }
  }

  lemma {:induction false} WithoutCommutes(cl: seq<string>, s: string, t: string)
    ensures Without(Without(cl, s), t) == Without(Without(cl, t), s)
  {
    if cl != [] {
      WithoutCommutes(cl[1..], s, t);
      var head := if cl[0] == s then [] else [cl[0]];
      WithoutAppend(head, Without(cl[1..], s), t);
      var head2 := if cl[0] == t then [] else [cl[0]];
      WithoutAppend(head2, Without(cl[1..], t), s);
    }
  }

  lemma {:induction false} WithoutIdempotent(cl: seq<string>, t: string)
    ensures Without(Without(cl, t), t) == Without(cl, t)
  {
    if cl != [] {
      WithoutIdempotent(cl[1..], t);
      var head := if cl[0] == t then [] else [cl[0]];
      WithoutAppend(head, Without(cl[1..], t), t);
    }
  }

  /** Removing a token after adding it is removing it. */
  lemma AddedThenWithout(cl: seq<string>, t: string)
    ensures Without(Added(cl, t), t) == Without(cl, t)
  {
    if t !in cl {
      WithoutAppend(cl, [t], t);
      assert Without([t], t) == [];
    }
  }

  /** Removing `other` and then adding `mine` leaves `mine` and not `other`, keeps every
      other class, and agrees with `cl` once both marks are removed. */
  lemma MarkSwap(cl: seq<string>, mine: string, other: string)
    requires mine != other
    ensures var r := Added(Without(cl, other), mine);
      mine in r && other !in r && forall x :: x != mine && x != other ==> (x in r <==> x in cl)
    ensures var r := Added(Without(cl, other), mine);
      Without(Without(r, mine), other) == Without(Without(cl, mine), other)
  {
    var stripped := Without(cl, other);
    WithoutMembers(cl, other);
    AddedThenWithout(stripped, mine);
    WithoutCommutes(cl, other, mine);
    WithoutIdempotent(Without(cl, mine), other);
  }

  /** After the update the button has exactly one of the two marks, the one matching
      the outcome, and every other class is kept, in its order. */
  lemma ClassesAfterMeans(cl: seq<string>, isSuccessful: bool)
    ensures var r := ClassesAfter(cl, isSuccessful);
      (Visited in r <==> isSuccessful) && (VisitFailed in r <==> !isSuccessful)
    ensures var r := ClassesAfter(cl, isSuccessful);
      forall x :: x != Visited && x != VisitFailed ==> (x in r <==> x in cl)
    ensures var r := ClassesAfter(cl, isSuccessful);
      Without(Without(r, Visited), VisitFailed) == Without(Without(cl, Visited), VisitFailed)
  {
    if isSuccessful {
      MarkSwap(cl, Visited, VisitFailed);
    } else {
      var r := ClassesAfter(cl, false);
      MarkSwap(cl, VisitFailed, Visited);
      WithoutCommutes(r, Visited, VisitFailed);
      WithoutCommutes(cl, Visited, VisitFailed);
    }
  }

  /** A button element: only its class list is modelled. */
  class Button {
    var classList: seq<string>

    constructor (classes: seq<string>)
      ensures classList == classes
    {
      classList := classes;
    }

    method Remove(token: string)
      modifies this
      ensures classList == Without(old(classList), token)
    {
      classList := Without(classList, token);
    }

    method Add(token: string)
      modifies this
      ensures classList == Added(old(classList), token)
    {
      if token !in classList {
        classList := classList + [token];
      }
    }
  }

  /** `personId && summaryDiv`: a non-empty ID and a summary container. */
  predicate LoadsSavedData(o: Outcome, personId: Option<string>, hasSummaryDiv: bool) {
    o == DebtFound && personId.Some? && personId.value != "" && hasSummaryDiv
  }

  /** `handleScrapingResult(result, siteName, buttonElement, personId, summaryDiv)`.
      The summary container is only tested for presence; `notice` is the error notice shown. */
  method HandleScrapingResult(app: AppState, result: string, siteName: string, buttonElement: Button?,
                              personId: Option<string>, hasSummaryDiv: bool, disk: Disk, env: Env)
    returns (isSuccessful: bool, notice: Option<Notice>)
    requires app.Valid()
    modifies app.foundUnpaidDebts, buttonElement
    ensures isSuccessful <==> IsSuccess(Classify(result))
    ensures notice.None? <==> isSuccessful
    ensures Classify(result) == HandlerTimeout ==> notice == Some(TimeoutNotice(siteName))
    ensures Classify(result) == TooManyFailedAttempts ==> notice == Some(LockedOutNotice(siteName))
    ensures Classify(result) == UnexpectedState ==> notice == Some(UnexpectedStateNotice(siteName))
    ensures Classify(result) == Other ==> notice == Some(GenericNotice(siteName))
    ensures LoadsSavedData(Classify(result), personId, hasSummaryDiv) ==>
      app.foundUnpaidDebts.Snapshot() == LoadOutcome(old(app.foundUnpaidDebts.Snapshot()), personId.value, disk, env)
    ensures !LoadsSavedData(Classify(result), personId, hasSummaryDiv) ==>
      app.foundUnpaidDebts.Snapshot() == old(app.foundUnpaidDebts.Snapshot())
    ensures buttonElement != null ==> buttonElement.classList == ClassesAfter(old(buttonElement.classList), isSuccessful)
  {
    isSuccessful := false;
    notice := None;
    var outcome := Classify(result);
    match outcome {
    case HandlerTimeout =>
      notice := Some(TimeoutNotice(siteName));
    case DebtFound =>
      isSuccessful := true;
      if personId.Some? && personId.value != "" && hasSummaryDiv {
        LoadSavedDebtData(app, personId.value, disk, env);
      }
    case NoDebtFound =>
      isSuccessful := true;
    case MessagesProcessed =>
      isSuccessful := true;
    case TooManyFailedAttempts =>
      notice := Some(LockedOutNotice(siteName));
    case UnexpectedState =>
      notice := Some(UnexpectedStateNotice(siteName));
    case Other =>
      notice := Some(GenericNotice(siteName));
    }
    if buttonElement != null {
      if isSuccessful {
        buttonElement.Remove(VisitFailed);
        buttonElement.Add(Visited);
      } else {
        buttonElement.Remove(Visited);
        buttonElement.Add(VisitFailed);
      }
    }
  }
}
