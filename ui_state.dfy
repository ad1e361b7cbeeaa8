/** The module-level state of the user interface: the scraping session, and the two
    trackers of unpaid and paid debts found so far, with their resets. */
module UiState {
  import opened Strings
  import opened Json
  import JsonReader

  /** One debt as the saved-data loader standardises it. */
  datatype LoadedDebt = LoadedDebt(
    caseID: Val, totalAmount: real, originalAmount: Val, interestAndFines: Val,
    originalDueDate: Val, debtCollectorName: string, originalCreditorName: Val)

  /** The collection the saved-data loader builds for one creditor. */
  datatype LoadedCollection = LoadedCollection(
    debtCollectorName: string, isCurrent: bool, totalAmount: real, debts: seq<LoadedDebt>)

  /** What a tracker stores under a creditor: a collection a scraper reported, or one
      rebuilt from saved data. */
  datatype Stored = Displayed(collection: JsonReader.DebtCollection) | Loaded(loaded: LoadedCollection)

  function StoredTotal(s: Stored): real {
    match s
    case Displayed(c) => c.totalAmount
    case Loaded(l) => l.totalAmount
  }

  /** The three fields of a tracker, as a value. */
  datatype Tracked = Tracked(creditors: seq<string>, total: real, debts: map<string, Stored>)

  const Empty := Tracked([], 0.0, map[])

  /** The totals of the collections stored under `cs`, in that order. */
  function SumStored(cs: seq<string>, m: map<string, Stored>): real {
    if cs == [] then 0.0 else (if cs[0] in m then StoredTotal(m[cs[0]]) else 0.0) + SumStored(cs[1..], m)
  }

  /** A tracker lists each creditor once, stores a collection for exactly the listed
      creditors, and its total is the sum of their totals. */
  ghost predicate Consistent(t: Tracked) {
    Distinct(t.creditors)
    && (forall c :: c in t.debts <==> c in t.creditors)
    && t.total == SumStored(t.creditors, t.debts)
  }

  lemma EmptyIsConsistent()
    ensures Consistent(Empty)
  {
  }

  lemma {:induction false} SumStoredAppend(cs: seq<string>, c: string, m: map<string, Stored>)
    ensures SumStored(cs + [c], m) == SumStored(cs, m) + (if c in m then StoredTotal(m[c]) else 0.0)
  {
    if cs != [] {
      assert (cs + [c])[1..] == cs[1..] + [c];
      SumStoredAppend(cs[1..], c, m);
    } else {
      assert [c][1..] == [];
    }
  }

  /** Storing under a key the list does not mention leaves the sum alone. */
  lemma {:induction false} SumStoredOutside(cs: seq<string>, m: map<string, Stored>, c: string, s: Stored)
    requires c !in cs
    ensures SumStored(cs, m[c := s]) == SumStored(cs, m)
  {
    if cs != [] {
      SumStoredOutside(cs[1..], m, c, s);
    }
  }

  /** `foundUnpaidDebts` / `foundPaidDebts`. */
  class DebtTracker {
    var foundCreditors: seq<string>
    var totalAmount: real
    var debts: map<string, Stored>

    function Snapshot(): Tracked
      reads this
    {
      Tracked(foundCreditors, totalAmount, debts)
    }

    constructor ()
      ensures Snapshot() == Empty
    {
      foundCreditors := [];
      totalAmount := 0.0;
      debts := map[];
    }

    /** The three assignments of `resetDebtState` for one tracker. */
    method Clear()
      modifies this
      ensures Snapshot() == Empty
    {
      foundCreditors := [];
      totalAmount := 0.0;
      debts := map[];
    }
  }

  /** A registered callback, known only by identity. */
  datatype Callback = Callback(id: nat)

  /** `sessionState`. */
  class SessionState {
    var currentWebsite: Option<string>
    var userName: Option<string>
    var totalDebtAmount: real
    var scrapingCompleteCallback: Option<Callback>
    var timedOutCallback: Option<Callback>

    constructor ()
      ensures currentWebsite == None && userName == None && totalDebtAmount == 0.0
      ensures scrapingCompleteCallback == None && timedOutCallback == None
    {
      currentWebsite := None;
      userName := None;
      totalDebtAmount := 0.0;
      scrapingCompleteCallback := None;
      timedOutCallback := None;
    }
  }

  /** The state objects of the interface module, created once when it loads. */
  class AppState {
    const session: SessionState
    const foundUnpaidDebts: DebtTracker
    const foundPaidDebts: DebtTracker

    /** The two trackers are different objects. */
    ghost predicate Valid()
      reads this
    {
      foundUnpaidDebts != foundPaidDebts
    }

    constructor ()
      ensures Valid() && fresh(session) && fresh(foundUnpaidDebts) && fresh(foundPaidDebts)
      ensures foundUnpaidDebts.Snapshot() == Empty && foundPaidDebts.Snapshot() == Empty
      ensures session.currentWebsite == None && session.userName == None && session.totalDebtAmount == 0.0
      ensures session.scrapingCompleteCallback == None && session.timedOutCallback == None
    {
      session := new SessionState();
      foundUnpaidDebts := new DebtTracker();
      foundPaidDebts := new DebtTracker();
    }

    /** `resetDebtState`: both trackers emptied and the session total zeroed; the
        rest of the session is kept. */
    method ResetDebtState()
      requires Valid()
      modifies foundUnpaidDebts, foundPaidDebts, session
      ensures foundUnpaidDebts.Snapshot() == Empty && foundPaidDebts.Snapshot() == Empty
      ensures session.totalDebtAmount == 0.0
      ensures session.currentWebsite == old(session.currentWebsite)
      ensures session.userName == old(session.userName)
      ensures session.scrapingCompleteCallback == old(session.scrapingCompleteCallback)
      ensures session.timedOutCallback == old(session.timedOutCallback)
    {
      foundUnpaidDebts.Clear();
      foundPaidDebts.Clear();
      session.totalDebtAmount := 0.0;
    }

    /** `resetSessionState`: the site, the user and both callbacks are forgotten; the
        session total and the trackers are kept. */
    method ResetSessionState()
      modifies session
      ensures session.currentWebsite == None && session.userName == None
      ensures session.scrapingCompleteCallback == None && session.timedOutCallback == None
      ensures session.totalDebtAmount == old(session.totalDebtAmount)
      ensures unchanged(foundUnpaidDebts) && unchanged(foundPaidDebts)
    {
      session.currentWebsite := None;
      session.userName := None;
      session.scrapingCompleteCallback := None;
      session.timedOutCallback := None;
    }
  }
}
