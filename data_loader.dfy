/** `loadSavedDebtData`: when an 11-character national ID is entered, the debts saved
    for that person are read back (through the debt reader) and the unpaid tracker is
    rebuilt from them, one standardised collection per creditor. Drawing the
    collections and logging are not modelled. */
module DataLoader {
  import opened Strings
  import opened Json
  import opened DebtReader
  import opened UiState

  // Properties of a detailed debt that some of its shapes lack (they read as undefined)

  function CaseIdOf(d: DetailedDebt): Val {
    if d.CaseDebt? then d.caseID else Undefined
  }

  function OriginalAmountOf(d: DetailedDebt): Val {
    if d.LegacyKredinorDebt? then Undefined else d.originalAmount
  }

  function InterestAndFinesOf(d: DetailedDebt): Val {
    if d.LegacyKredinorDebt? then Undefined else d.interestAndFines
  }

  function OriginalDueDateOf(d: DetailedDebt): Val {
    if d.LegacyKredinorDebt? then Undefined else d.originalDueDate
  }

  function OriginalCreditorNameOf(d: DetailedDebt): Val {
    if d.LegacyKredinorDebt? then Undefined else d.originalCreditorName
  }

  /** The object literal of the `map` callback: a falsy case ID becomes `'Unknown'`,
      missing amounts and dates become null, a missing original creditor becomes the
      creditor itself. */
  function Standardize(d: DetailedDebt, creditor: string): LoadedDebt {
    LoadedDebt(
      OrElse(CaseIdOf(d), JString("Unknown")),
      d.amount,
      Coalesce(OriginalAmountOf(d), JNull),
      Coalesce(InterestAndFinesOf(d), JNull),
      Coalesce(OriginalDueDateOf(d), JNull),
      creditor,
      Coalesce(OriginalCreditorNameOf(d), JString(creditor)))
  }

  /** `??` and `||` never leave a standardised field undefined, and the defaults are the
      ones the loader names. */
  lemma StandardizedIsDefined(d: DetailedDebt, creditor: string)
    ensures var s := Standardize(d, creditor);
      s.caseID.Defined? && s.originalAmount.Defined? && s.interestAndFines.Defined?
      && s.originalDueDate.Defined? && s.originalCreditorName.Defined?
    ensures !Truthy(CaseIdOf(d)) ==> Standardize(d, creditor).caseID == Defined(JString("Unknown"))
    ensures Truthy(CaseIdOf(d)) ==> Standardize(d, creditor).caseID == CaseIdOf(d)
    ensures ReadThrows(OriginalCreditorNameOf(d)) ==>
      Standardize(d, creditor).originalCreditorName == Defined(JString(creditor))
    ensures !ReadThrows(OriginalCreditorNameOf(d)) ==>
      Standardize(d, creditor).originalCreditorName == OriginalCreditorNameOf(d)
    ensures Standardize(d, creditor).totalAmount == d.amount
  {
  }

  /** `detailedDebts.filter(d => d.creditor === creditor)`. */
  function OfCreditor(ds: seq<DetailedDebt>, c: string): seq<DetailedDebt> {
    if ds == [] then []
    else OfCreditor(ds[..|ds| - 1], c) + (if ds[|ds| - 1].creditor == c then [ds[|ds| - 1]] else [])
  }

  /** The filter keeps exactly the debts of `c`. */
  lemma {:induction false} OfCreditorIsFilter(ds: seq<DetailedDebt>, c: string)
    ensures forall d :: d in OfCreditor(ds, c) <==> d in ds && d.creditor == c
  {
    if ds != [] {
      var init := ds[..|ds| - 1];
      OfCreditorIsFilter(init, c);
      assert ds == init + [ds[|ds| - 1]];
    }
  }

  /** `creditorDebts.map(...)`: one standardised debt per debt, in order. */
  function StandardizeAll(ds: seq<DetailedDebt>, creditor: string): (r: seq<LoadedDebt>)
    ensures |r| == |ds|
    ensures forall k :: 0 <= k < |ds| ==> r[k] == Standardize(ds[k], creditor)
  {
    if ds == [] then []
    else StandardizeAll(ds[..|ds| - 1], creditor) + [Standardize(ds[|ds| - 1], creditor)]
  }

  /** The collection the loader stores for creditor `c`. */
  function CollectionFor(ds: seq<DetailedDebt>, c: string): LoadedCollection
    requires c in ByCreditor(ds)
  {
    LoadedCollection(c, true, ByCreditor(ds)[c], StandardizeAll(OfCreditor(ds, c), c))
  }

  /** The collections of the creditors `cs`, by creditor. */
  function LoadedMap(ds: seq<DetailedDebt>, cs: seq<string>): map<string, Stored>
    requires forall c :: c in cs ==> c in ByCreditor(ds)
  {
    map c | c in cs :: Loaded(CollectionFor(ds, c))
  }

  lemma LoadedMapStep(ds: seq<DetailedDebt>, cs: seq<string>, i: nat)
    requires i < |cs| && forall c :: c in cs ==> c in ByCreditor(ds)
    ensures LoadedMap(ds, cs[..i])[cs[i] := Loaded(CollectionFor(ds, cs[i]))] == LoadedMap(ds, cs[..i + 1])
  {
    assert cs[..i + 1] == cs[..i] + [cs[i]];
  }

  /** The tracker the loader builds from the detailed debts `ds`. */
  function LoadedState(ds: seq<DetailedDebt>): Tracked {
    CreditorOrderIsKeys(ds);
    Tracked(CreditorOrder(ds), Total(ds), LoadedMap(ds, CreditorOrder(ds)))
  }

  /** The unpaid tracker after `loadSavedDebtData(personId)`: untouched unless the ID
      has 11 characters and the saved debts total more than zero. */
  function LoadOutcome(t: Tracked, personId: string, disk: Disk, env: Env): Tracked {
    if |personId| != 11 then t
    else
      var ds := PersonDebts(disk, personId, env);
      if Total(ds) > 0.0 then LoadedState(ds) else t
  }

  // ---------------------------------------------------------------------------
  // The rebuilt tracker balances

  /** Summing stored totals equals summing the reader's per-creditor sums when the two
      maps agree on every listed creditor. */
  lemma {:induction false} SumStoredMatches(cs: seq<string>, m: map<string, Stored>, sums: map<string, real>)
    requires forall c :: c in cs ==> (c in m <==> c in sums)
    requires forall c :: c in cs && c in m && c in sums ==> StoredTotal(m[c]) == sums[c]
    ensures SumStored(cs, m) == SumInOrder(cs, sums)
  {
    if cs != [] {
      SumStoredMatches(cs[1..], m, sums);
    }
  }

  /** The debts kept for a creditor add up to the amount stored for it. */
  function LoadedSum(ls: seq<LoadedDebt>): real {
    if ls == [] then 0.0 else LoadedSum(ls[..|ls| - 1]) + ls[|ls| - 1].totalAmount
  }

  lemma {:induction false} StandardizedSum(ds: seq<DetailedDebt>, c: string)
    ensures LoadedSum(StandardizeAll(ds, c)) == Total(ds)
  {
    if ds != [] {
      var r := StandardizeAll(ds, c);
      assert r[..|r| - 1] == StandardizeAll(ds[..|ds| - 1], c);
      StandardizedSum(ds[..|ds| - 1], c);
    }
  }

  lemma {:induction false} FilteredSum(ds: seq<DetailedDebt>, c: string)
    ensures Total(OfCreditor(ds, c)) == CreditorTotal(ds, c)
  {
    if ds != [] {
      var init := ds[..|ds| - 1];
      FilteredSum(init, c);
      var d := ds[|ds| - 1];
      var r := OfCreditor(ds, c);
      if d.creditor == c {
        assert r == OfCreditor(init, c) + [d];
        assert r[..|r| - 1] == OfCreditor(init, c);
        assert Total(r) == Total(OfCreditor(init, c)) + d.amount;
      } else {
        assert r == OfCreditor(init, c);
      }
    }
  }

  /** Each stored collection's debts add up to its `totalAmount`, which is the
      reader's sum for that creditor. */
  lemma CollectionAddsUp(ds: seq<DetailedDebt>, c: string)
    requires c in ByCreditor(ds)
    ensures LoadedSum(CollectionFor(ds, c).debts) == CollectionFor(ds, c).totalAmount
    ensures CollectionFor(ds, c).totalAmount == CreditorTotal(ds, c)
  {
    Conservation(ds);
    StandardizedSum(OfCreditor(ds, c), c);
    FilteredSum(ds, c);
  }

  /** The rebuilt tracker lists each creditor once, stores exactly their collections,
      and its total equals the sum of the stored totals. */
  lemma LoadedStateConsistent(ds: seq<DetailedDebt>)
    ensures Consistent(LoadedState(ds))
  {
    CreditorOrderIsKeys(ds);
    Conservation(ds);
    var t := LoadedState(ds);
    SumStoredMatches(t.creditors, t.debts, ByCreditor(ds));
  }

  /** Loading keeps a consistent tracker consistent. */
  lemma LoadKeepsConsistent(t: Tracked, personId: string, disk: Disk, env: Env)
    requires Consistent(t)
    ensures Consistent(LoadOutcome(t, personId, disk, env))
  {
    LoadedStateConsistent(PersonDebts(disk, personId, env));
  }

  // ---------------------------------------------------------------------------
  // The loader

  /** The body of the `if`: the tracker is reset to the reader's total, then each
      creditor, in key order, is listed and given its standardised collection. */
  method Rebuild(unpaid: DebtTracker, debtData: DebtResult)
    requires debtData.Valid()
    modifies unpaid
    ensures unpaid.Snapshot() == LoadedState(debtData.detailedDebts)
  {
    unpaid.foundCreditors := [];
    unpaid.totalAmount := debtData.totalDebt;
    unpaid.debts := map[];
    var detailed, byCreditor, creditors := debtData.detailedDebts, debtData.debtsByCreditor, debtData.creditors;
    CreditorOrderIsKeys(detailed);
    var i := 0;
    while i < |creditors|
      invariant 0 <= i <= |creditors|
      invariant unpaid.foundCreditors == creditors[..i]
      invariant unpaid.totalAmount == Total(detailed)
      invariant unpaid.debts == LoadedMap(detailed, creditors[..i])
    {
      var creditor := creditors[i];
      var creditorDebts := OfCreditor(detailed, creditor);
      var debtCollection := LoadedCollection(creditor, true, byCreditor[creditor],
                                             StandardizeAll(creditorDebts, creditor));
      assert creditors[..i + 1] == creditors[..i] + [creditor];
      unpaid.foundCreditors := unpaid.foundCreditors + [creditor];
      unpaid.debts := unpaid.debts[creditor := Loaded(debtCollection)];
      LoadedMapStep(detailed, creditors, i);
      i := i + 1;
    }
    assert creditors[..i] == creditors;
  }

  /** `loadSavedDebtData(personId, summaryDiv)`, on the unpaid tracker. */
  method LoadSavedDebtData(app: AppState, personId: string, disk: Disk, env: Env)
    requires app.Valid()
    modifies app.foundUnpaidDebts
    ensures app.foundUnpaidDebts.Snapshot() == LoadOutcome(old(app.foundUnpaidDebts.Snapshot()), personId, disk, env)
  {
    if |personId| != 11 {
      return;
    }
    var debtData := ReadAllDebtForPerson(disk, personId, env);
    if debtData.totalDebt > 0.0 {
      Rebuild(app.foundUnpaidDebts, debtData);
    }
  }
}
