/** `read_json`: the claims (`krav`) of a saved Statens innkrevingssentral response
    folded into one `DebtCollection` of already settled debts. The claims are the
    input; loading the file is not modelled. */
module JsonReader {
  import opened Strings
  import opened Json

  /** One claim as the loop reads it. `belop` is a number; `forfall` is the list of
      due dates, of which only the first is read. */
  datatype Krav = Krav(identifikator: Val, belop: real, forfall: seq<Json>, kravtype: Val, kravtypetekst: Val)

  /** A `Debt` of the collection (the `Debt` typedef). */
  datatype Debt = Debt(id: Val, amount: real, dueDate: Val, kind: Val, kindText: Val)

  /** A `DebtCollection`: the debts found at one site, current or settled. */
  datatype DebtCollection = DebtCollection(creditSite: string, isCurrent: bool, totalAmount: real, debts: seq<Debt>)

  /** `element.forfall[0].forfallsdato` can be read: the list has a first entry and it
      is not null. */
  predicate DueDateReadable(k: Krav) {
    k.forfall != [] && !k.forfall[0].JNull?
  }

  /** The TypeError the read raises otherwise. */
  function DueDateError(k: Krav): string
    requires !DueDateReadable(k)
  {
    "Cannot read properties of " + (if k.forfall == [] then "undefined" else "null") + " (reading 'forfallsdato')"
  }

  function KravDebt(k: Krav): Debt
    requires DueDateReadable(k)
  {
    Debt(k.identifikator, k.belop, Prop(Defined(k.forfall[0]), "forfallsdato"), k.kravtype, k.kravtypetekst)
  }

  /** The sum of every claim's `belop`. */
  function SumBelop(krav: seq<Krav>): real {
    if krav == [] then 0.0 else SumBelop(krav[..|krav| - 1]) + krav[|krav| - 1].belop
  }

  lemma SumBelopStep(krav: seq<Krav>, i: nat)
    requires i < |krav|
    ensures SumBelop(krav[..i + 1]) == SumBelop(krav[..i]) + krav[i].belop
  {
    assert krav[..i + 1][..i] == krav[..i];
  }

  /** The index of the first claim whose due date cannot be read. */
  function FirstUnreadable(krav: seq<Krav>): (i: nat)
    requires exists j :: 0 <= j < |krav| && !DueDateReadable(krav[j])
    ensures i < |krav| && !DueDateReadable(krav[i])
    ensures forall j :: 0 <= j < i ==> DueDateReadable(krav[j])
  {
    if !DueDateReadable(krav[0]) then 0
    else
      assert exists j :: 0 <= j < |krav[1..]| && !DueDateReadable(krav[1..][j]) by {
        var j :| 0 <= j < |krav| && !DueDateReadable(krav[j]);
        assert krav[1..][j - 1] == krav[j];
      }
      1 + FirstUnreadable(krav[1..])
  }

  /** `read_json(creditSite)` for the claims `krav`. It throws at the first claim
      without a readable due date; otherwise the collection is not current, belongs to
      `creditSite`, totals every `belop` and holds one debt per claim, in order. */
  method ReadJson(creditSite: string, krav: seq<Krav>) returns (r: Result<DebtCollection>)
    ensures r.Ok? <==> forall j :: 0 <= j < |krav| ==> DueDateReadable(krav[j])
    ensures r.Err? ==> r.message == DueDateError(krav[FirstUnreadable(krav)])
    ensures r.Ok? ==> r.value.creditSite == creditSite && !r.value.isCurrent
    ensures r.Ok? ==> r.value.totalAmount == SumBelop(krav)
    ensures r.Ok? ==> |r.value.debts| == |krav|
    ensures r.Ok? ==> forall j :: 0 <= j < |krav| ==> r.value.debts[j] == KravDebt(krav[j])
  {
    var outData := DebtCollection(creditSite, false, 0.0, []);
    var i := 0;
    while i < |krav|
      invariant 0 <= i <= |krav|
      invariant forall j :: 0 <= j < i ==> DueDateReadable(krav[j])
      invariant outData.creditSite == creditSite && !outData.isCurrent
      invariant outData.totalAmount == SumBelop(krav[..i])
      invariant |outData.debts| == i
      invariant forall j :: 0 <= j < i ==> outData.debts[j] == KravDebt(krav[j])
    {
      var element := krav[i];
      if !DueDateReadable(element) {
        assert FirstUnreadable(krav) == i;
        return Err(DueDateError(element));
      }
      SumBelopStep(krav, i);
      outData := outData.(totalAmount := outData.totalAmount + element.belop,
                          debts := outData.debts + [KravDebt(element)]);
      i := i + 1;
    }
    assert krav[..i] == krav;
    return Ok(outData);
  }

  /** The total is the sum of the amounts of the debts the collection holds. */
  function DebtsTotal(ds: seq<Debt>): real {
    if ds == [] then 0.0 else DebtsTotal(ds[..|ds| - 1]) + ds[|ds| - 1].amount
  }

  lemma {:induction false} TotalIsSumOfDebts(krav: seq<Krav>, ds: seq<Debt>)
    requires |ds| == |krav|
    requires forall j :: 0 <= j < |krav| ==> DueDateReadable(krav[j]) && ds[j] == KravDebt(krav[j])
    ensures DebtsTotal(ds) == SumBelop(krav)
  {
    if krav != [] {
      TotalIsSumOfDebts(krav[..|krav| - 1], ds[..|ds| - 1]);
    }
  }
}
