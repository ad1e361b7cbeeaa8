/** The state update of `displayDebtData`: a reported collection is added to the
    unpaid tracker when it is current and to the paid tracker when it is not, once per
    site. Drawing it on the page is not modelled. */
module UiNotifications {
  import opened Strings
  import JsonReader
  import opened UiState

  /** A tracker after it has been shown `d`: a site it has not listed yet is listed,
      its collection stored and its amount added; a listed site changes nothing. */
  function Record(t: Tracked, d: JsonReader.DebtCollection): Tracked {
    if d.creditSite in t.creditors then t
    else Tracked(t.creditors + [d.creditSite], t.total + d.totalAmount, t.debts[d.creditSite := Displayed(d)])
  }

  /** Recording keeps a tracker consistent, adds a new site's amount exactly once, and
      recording the same collection again changes nothing. */
  lemma RecordKeepsConsistent(t: Tracked, d: JsonReader.DebtCollection)
    requires Consistent(t)
    ensures Consistent(Record(t, d))
    ensures d.creditSite in Record(t, d).creditors
    ensures d.creditSite !in t.creditors ==>
      Record(t, d).total == t.total + d.totalAmount && Record(t, d).debts[d.creditSite] == Displayed(d)
    ensures Record(Record(t, d), d) == Record(t, d)
  {
    if d.creditSite !in t.creditors {
      var c := d.creditSite;
      var m := t.debts[c := Displayed(d)];
      SumStoredOutside(t.creditors, t.debts, c, Displayed(d));
      SumStoredAppend(t.creditors, c, m);
      assert Distinct(t.creditors + [c]) by {
        forall i, j | 0 <= i < j < |t.creditors + [c]| ensures (t.creditors + [c])[i] != (t.creditors + [c])[j] {
          if j == |t.creditors| {
            assert (t.creditors + [c])[i] == t.creditors[i];
          }
        }
      }
    }
  }

  /** `displayDebtData`: an empty or negative collection is ignored; otherwise the
      tracker that matches its `isCurrent` flag records it and the other is untouched. */
  method DisplayDebtData(app: AppState, debtData: JsonReader.DebtCollection)
    requires app.Valid()
    modifies app.foundUnpaidDebts, app.foundPaidDebts
    ensures debtData.totalAmount <= 0.0 ==>
      app.foundUnpaidDebts.Snapshot() == old(app.foundUnpaidDebts.Snapshot())
      && app.foundPaidDebts.Snapshot() == old(app.foundPaidDebts.Snapshot())
    ensures debtData.totalAmount > 0.0 && debtData.isCurrent ==>
      app.foundUnpaidDebts.Snapshot() == Record(old(app.foundUnpaidDebts.Snapshot()), debtData)
      && app.foundPaidDebts.Snapshot() == old(app.foundPaidDebts.Snapshot())
    ensures debtData.totalAmount > 0.0 && !debtData.isCurrent ==>
      app.foundPaidDebts.Snapshot() == Record(old(app.foundPaidDebts.Snapshot()), debtData)
      && app.foundUnpaidDebts.Snapshot() == old(app.foundUnpaidDebts.Snapshot())
  {
    if debtData.totalAmount <= 0.0 {
      return;
    }
    var unpaid := app.foundUnpaidDebts;
    var paid := app.foundPaidDebts;
    if debtData.creditSite !in unpaid.foundCreditors && debtData.isCurrent {
      unpaid.foundCreditors := unpaid.foundCreditors + [debtData.creditSite];
      unpaid.totalAmount := unpaid.totalAmount + debtData.totalAmount;
      unpaid.debts := unpaid.debts[debtData.creditSite := Displayed(debtData)];
    }
    if debtData.creditSite !in paid.foundCreditors && !debtData.isCurrent {
      paid.foundCreditors := paid.foundCreditors + [debtData.creditSite];
      paid.totalAmount := paid.totalAmount + debtData.totalAmount;
      paid.debts := paid.debts[debtData.creditSite := Displayed(debtData)];
    }
  }

  /** What a sequence of reports does to a tracker that sees every one of them. */
  function RecordAll(t: Tracked, ds: seq<JsonReader.DebtCollection>): Tracked
    decreases |ds|
  {
    if ds == [] then t else RecordAll(Record(t, ds[0]), ds[1..])
  }

  /** However many reports arrive after a reset, the tracker stays consistent: no site
      twice, and a total equal to the sum of the stored collections. */
  lemma {:induction false} RecordAllKeepsConsistent(t: Tracked, ds: seq<JsonReader.DebtCollection>)
    requires Consistent(t)
    ensures Consistent(RecordAll(t, ds))
    decreases |ds|
  {
    if ds != [] {
      RecordKeepsConsistent(t, ds[0]);
      RecordAllKeepsConsistent(Record(t, ds[0]), ds[1..]);
    }
  }
}
