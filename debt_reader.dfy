/** The debt reader: it aggregates the debts recorded in a person's latest
    `extracted_data/<person>/<date>/` folder into one result holding the total debt,
    the sum per creditor and the list of detailed debts. Each file is offered to the
    four creditor-specific processors (SI, Intrum, Kredinor, PRA Group) in turn.

    The file system is a parameter (`Disk`); parsed JSON arrives as `Json` values and
    `parseFloat` / `Number` / number-to-string through `Env`. */
module DebtReader {
  import opened Strings
  import opened Json

  /** The suffix of the files the reader collects. */
  const ExtractedSuffix := "_extracted_data.json"

  /** One entry of `detailedDebts`. The three object shapes the processors push:
      SI, Intrum and PRA Group use `CaseDebt`, Kredinor's current format `KredinorDebt`
      and Kredinor's old format `LegacyKredinorDebt`. Fields the source copies from the
      input unchanged keep the JavaScript value (`Undefined` for a missing property). */
  datatype DetailedDebt =
    | CaseDebt(creditor: string, amount: real, caseID: Val, totalAmount: real,
               originalAmount: Val, interestAndFines: Val, originalDueDate: Val,
               debtCollectorName: Val, originalCreditorName: Val, source: string)
    | KredinorDebt(creditor: string, amount: real, id: Val,
                   originalAmount: Val, interestAndFines: Val, originalDueDate: Val,
                   debtCollectorName: Val, originalCreditorName: Val, source: string)
    | LegacyKredinorDebt(creditor: string, amount: real, id: Val, kind: Val, kindText: Val,
                         source: string)

  // ---------------------------------------------------------------------------
  // The aggregate as a function of the detailed debts

  /** The sum of all amounts. */
  function Total(ds: seq<DetailedDebt>): real {
    if ds == [] then 0.0 else Total(ds[..|ds| - 1]) + ds[|ds| - 1].amount
  }

  /** `debtsByCreditor` after pushing `ds` in order onto an empty result. */
  function ByCreditor(ds: seq<DetailedDebt>): map<string, real> {
    if ds == [] then map[]
    else
      var m := ByCreditor(ds[..|ds| - 1]);
      var d := ds[|ds| - 1];
      m[d.creditor := (if d.creditor in m then m[d.creditor] else 0.0) + d.amount]
  }

  /** The key order of `debtsByCreditor`: creditors in the order they first appear. */
  function CreditorOrder(ds: seq<DetailedDebt>): seq<string> {
    if ds == [] then []
    else
      var o := CreditorOrder(ds[..|ds| - 1]);
      var c := ds[|ds| - 1].creditor;
      if c in o then o else o + [c]
  }

  /** The sum of the amounts of the debts of creditor `c`. */
  function CreditorTotal(ds: seq<DetailedDebt>, c: string): real {
    if ds == [] then 0.0
    else CreditorTotal(ds[..|ds| - 1], c) + (if ds[|ds| - 1].creditor == c then ds[|ds| - 1].amount else 0.0)
  }

  /** The values of `m` summed over the keys `cs`, in that order. */
  function SumInOrder(cs: seq<string>, m: map<string, real>): real {
    if cs == [] then 0.0 else (if cs[0] in m then m[cs[0]] else 0.0) + SumInOrder(cs[1..], m)
  }

  /** The key order lists every creditor with a debt exactly once, and only those. */
  lemma {:induction false} CreditorOrderIsKeys(ds: seq<DetailedDebt>)
    ensures Distinct(CreditorOrder(ds))
    ensures forall c :: c in CreditorOrder(ds) <==> c in ByCreditor(ds)
    ensures forall c :: c in ByCreditor(ds) <==> exists k :: 0 <= k < |ds| && ds[k].creditor == c
  {
    if ds != [] {
      var init := ds[..|ds| - 1];
      CreditorOrderIsKeys(init);
      forall c | c in ByCreditor(ds) ensures exists k :: 0 <= k < |ds| && ds[k].creditor == c {
        if c != ds[|ds| - 1].creditor {
          assert c in ByCreditor(init);
          var k :| 0 <= k < |init| && init[k].creditor == c;
          assert ds[k] == init[k];
        }
      }
      forall c | exists k :: 0 <= k < |ds| && ds[k].creditor == c ensures c in ByCreditor(ds) {
        var k :| 0 <= k < |ds| && ds[k].creditor == c;
        if k < |init| {
          assert init[k] == ds[k];
        }
      }
    }
  }

  /** Each creditor's entry in `debtsByCreditor` is the sum of that creditor's debts. */
  lemma {:induction false} ByCreditorIsCreditorTotal(ds: seq<DetailedDebt>, c: string)
    requires c in ByCreditor(ds)
    ensures ByCreditor(ds)[c] == CreditorTotal(ds, c)
  {
    var init := ds[..|ds| - 1];
    if c in ByCreditor(init) {
      ByCreditorIsCreditorTotal(init, c);
    } else {
      CreditorTotalAbsent(init, c);
    }
  }

  lemma {:induction false} CreditorTotalAbsent(ds: seq<DetailedDebt>, c: string)
    requires c !in ByCreditor(ds)
    ensures CreditorTotal(ds, c) == 0.0
  {
    if ds != [] {
      CreditorTotalAbsent(ds[..|ds| - 1], c);
    }
  }

  lemma {:induction false} SumInOrderAppend(cs: seq<string>, c: string, m: map<string, real>)
    ensures SumInOrder(cs + [c], m) == SumInOrder(cs, m) + (if c in m then m[c] else 0.0)
  {
    if cs != [] {
      assert (cs + [c])[1..] == cs[1..] + [c];
      SumInOrderAppend(cs[1..], c, m);
    }
  }

  /** Changing the value of a key outside `cs` does not change the sum over `cs`. */
  lemma {:induction false} SumInOrderOutside(cs: seq<string>, m: map<string, real>, c: string, v: real)
    requires c !in cs
    ensures SumInOrder(cs, m[c := v]) == SumInOrder(cs, m)
  {
    if cs != [] {
      SumInOrderOutside(cs[1..], m, c, v);
    }
  }

  /** Adding `a` to the value of a key that occurs once in `cs` adds `a` to the sum. */
  lemma {:induction false} SumInOrderInside(cs: seq<string>, m: map<string, real>, c: string, a: real)
    requires Distinct(cs) && c in cs && c in m
    ensures SumInOrder(cs, m[c := m[c] + a]) == SumInOrder(cs, m) + a
  {
    if cs[0] == c {
      assert c !in cs[1..];
      SumInOrderOutside(cs[1..], m, c, m[c] + a);
    } else {
      SumInOrderInside(cs[1..], m, c, a);
    }
  }

  /** Conservation: the per-creditor sums, taken over the creditors in key order, add up
      to the total of the detailed debts. */
  lemma {:induction false} CreditorSumsAddUp(ds: seq<DetailedDebt>)
    ensures SumInOrder(CreditorOrder(ds), ByCreditor(ds)) == Total(ds)
  {
    if ds != [] {
      var init := ds[..|ds| - 1];
      var d := ds[|ds| - 1];
      var o := CreditorOrder(init);
      var m := ByCreditor(init);
      CreditorSumsAddUp(init);
      CreditorOrderIsKeys(init);
      if d.creditor in o {
        SumInOrderInside(o, m, d.creditor, d.amount);
      } else {
        SumInOrderAppend(o, d.creditor, m[d.creditor := d.amount]);
        SumInOrderOutside(o, m, d.creditor, d.amount);
      }
    }
  }

  /** The result object `{ totalDebt, debtsByCreditor, detailedDebts }`; `creditors` is
      the key order of `debtsByCreditor`. */
  class DebtResult {
    var totalDebt: real
    var creditors: seq<string>
    var debtsByCreditor: map<string, real>
    var detailedDebts: seq<DetailedDebt>

    /** Every field is determined by the detailed debts, so the three views agree. */
    ghost predicate Valid()
      reads this
    {
      totalDebt == Total(detailedDebts)
      && debtsByCreditor == ByCreditor(detailedDebts)
      && creditors == CreditorOrder(detailedDebts)
    }

    constructor ()
      ensures Valid() && detailedDebts == []
    {
      totalDebt := 0.0;
      creditors := [];
      debtsByCreditor := map[];
      detailedDebts := [];
    }

    /** The three updates each processor makes for an accepted debt: add to the total,
        add to the creditor's sum (creating the key at the end), push the record. */
    method Record(d: DetailedDebt)
      requires Valid()
      modifies this
      ensures Valid() && detailedDebts == old(detailedDebts) + [d]
    {
      CreditorOrderIsKeys(detailedDebts);
      var ds := detailedDebts + [d];
      assert ds[..|ds| - 1] == detailedDebts;
      totalDebt := totalDebt + d.amount;
      if d.creditor !in debtsByCreditor {
        creditors := creditors + [d.creditor];
      }
      debtsByCreditor := debtsByCreditor[d.creditor := (if d.creditor in debtsByCreditor then debtsByCreditor[d.creditor] else 0.0) + d.amount];
      detailedDebts := ds;
    }

    /** `processSIData`: each krav whose `forfall` scan finds an outstanding remainder is
        recorded; a null krav or forfall entry throws. */
    method ProcessSIData(data: Json, filePath: string, env: Env) returns (threw: bool)
      requires Valid() && !data.JNull?
      modifies this
      ensures Valid()
      ensures detailedDebts == old(detailedDebts) + SIOutcome(data, filePath, env).debts
      ensures threw == SIOutcome(data, filePath, env).threw
    {
      var krav := Prop(Defined(data), "krav");
      if !IsArray(krav) {
        return false;
      }
      var kravs := krav.value.items;
      ghost var added: seq<DetailedDebt> := [];
      assert kravs[0..] == kravs;
      var i := 0;
      while i < |kravs|
        invariant 0 <= i <= |kravs|
        invariant Valid()
        invariant detailedDebts == old(detailedDebts) + added
        invariant SIFrom(kravs, filePath, env).debts == added + SIFrom(kravs[i..], filePath, env).debts
        invariant SIFrom(kravs, filePath, env).threw == SIFrom(kravs[i..], filePath, env).threw
      {
        var k := kravs[i];
        SIFromStep(kravs, i, filePath, env);
        if k.JNull? {
          return true;
        }
        var unpaid := RecordKrav(k, filePath, env);
        if unpaid.None? {
          return true;
        }
        ghost var own := if unpaid.value then [SIDebt(k, filePath)] else [];
        AppendAssoc(added, own, SIFrom(kravs[i + 1..], filePath, env).debts);
        AppendAssoc(old(detailedDebts), added, own);
        added := added + own;
        i := i + 1;
      }
      return false;
    }

    /** One krav of `processSIData`: recorded when it is unpaid; `None` when its scan
        throws. */
    method RecordKrav(krav: Json, filePath: string, env: Env) returns (unpaid: Option<bool>)
      requires Valid() && !krav.JNull?
      modifies this
      ensures Valid()
      ensures unpaid == KravUnpaid(krav, env)
      ensures detailedDebts == old(detailedDebts) + (if unpaid == Some(true) then [SIDebt(krav, filePath)] else [])
    {
      var forfall := Prop(Defined(krav), "forfall");
      unpaid := Some(false);
      if IsArray(forfall) {
        unpaid := ScanRemainders(forfall.value.items, env);
      }
      if unpaid == Some(true) {
        Record(SIDebt(krav, filePath));
      }
    }

    /** The `forEach` with a `seen` set shared by the Intrum and Kredinor processors. */
    method RecordFirstOfEachKey(es: seq<Entry>) returns (threw: bool)
      requires Valid()
      modifies this
      ensures Valid()
      ensures detailedDebts == old(detailedDebts) + Dedup(es, {}).debts
      ensures threw == Dedup(es, {}).threw
    {
      var seen: set<string> := {};
      ghost var added: seq<DetailedDebt> := [];
      var i := 0;
      while i < |es|
        invariant 0 <= i <= |es|
        invariant Valid()
        invariant detailedDebts == old(detailedDebts) + added
        invariant Dedup(es, {}).debts == added + Dedup(es[i..], seen).debts
        invariant Dedup(es, {}).threw == Dedup(es[i..], seen).threw
      {
        assert es[i..][1..] == es[i + 1..];
        match es[i] {
          case Unreadable =>
            return true;
          case Unkeyed =>
          case Keyed(key, effect) =>
            if key !in seen {
              seen := seen + {key};
              match effect {
                case Throws =>
                  return true;
                case Drop =>
                case Keep(d) =>
                  Record(d);
                  AppendAssoc(added, [d], Dedup(es[i + 1..], seen).debts);
                  added := added + [d];
              }
            }
        }
        i := i + 1;
      }
      return false;
    }

    /** `processIntrumData`. */
    method ProcessIntrumData(data: Json, filePath: string, env: Env) returns (threw: bool)
      requires Valid() && !data.JNull?
      modifies this
      ensures Valid()
      ensures detailedDebts == old(detailedDebts) + IntrumOutcome(data, filePath, env).debts
      ensures threw == IntrumOutcome(data, filePath, env).threw
    {
      var cases := Prop(Defined(data), "debtCases");
      if !IsArray(cases) {
        return false;
      }
      threw := RecordFirstOfEachKey(IntrumEntries(cases.value.items, filePath, env));
    }

    /** `processKredinorData`. */
    method ProcessKredinorData(data: Json, filePath: string, env: Env) returns (threw: bool)
      requires Valid() && !data.JNull?
      modifies this
      ensures Valid()
      ensures detailedDebts == old(detailedDebts) + KredinorOutcome(data, filePath, env).debts
      ensures threw == KredinorOutcome(data, filePath, env).threw
    {
      var items := KredinorItems(data);
      if items.None? {
        return false;
      }
      threw := RecordFirstOfEachKey(KredinorEntries(items.value, filePath, env));
    }

    /** `processPRAGroupData`. */
    method ProcessPRAGroupData(data: Json, filePath: string, env: Env)
      requires Valid() && !data.JNull?
      modifies this
      ensures Valid()
      ensures detailedDebts == old(detailedDebts) + PRAOutcome(data, filePath, env)
    {
      var v := Defined(data);
      var reference := Prop(v, "accountReference");
      var number := Prop(v, "amountNumber");
      if !Truthy(reference) || !Truthy(number) {
        return;
      }
      var amount := env.parseFloat(JsString(number, env));
      if amount.Some? && amount.value > 0.0 {
        Record(CaseDebt("PRA Group", amount.value, reference, amount.value, Defined(JNull), Defined(JNull),
                        Defined(JNull), Defined(JString("PRA Group")),
                        OrElse(OptionalProp(Prop(v, "accountDetails"), "Tidligere eier"), JString("PRA Group")),
                        filePath));
      }
    }

    /** The `jsonFiles.forEach`: read and parse each file, then process it. */
    method ProcessFiles(files: seq<string>, disk: Disk, env: Env)
      requires Valid()
      modifies this
      ensures Valid()
      ensures detailedDebts == old(detailedDebts) + FilesDebts(files, disk, env)
    {
      assert files[..0] == [];
      var i := 0;
      while i < |files|
        invariant 0 <= i <= |files|
        invariant Valid()
        invariant detailedDebts == old(detailedDebts) + FilesDebts(files[..i], disk, env)
      {
        ghost var prev := FilesDebts(files[..i], disk, env);
        var content := disk.contents(files[i]);
        if content.Some? {
          ProcessFile(content.value, files[i], env);
        }
        assert detailedDebts == old(detailedDebts) + FilesDebts(files[..i + 1], disk, env) by {
          FilesDebtsStep(files, i, disk, env);
          AppendAssoc(old(detailedDebts), prev, PathDebts(files[i], disk, env));
        }
        i := i + 1;
      }
      assert files[..i] == files;
    }

    /** The body of the `try` for one parsed file. */
    method ProcessFile(data: Json, filePath: string, env: Env)
      requires Valid()
      modifies this
      ensures Valid()
      ensures detailedDebts == old(detailedDebts) + FileDebts(data, filePath, env)
    {
      if data.JNull? {
        return;
      }
      var si := SIOutcome(data, filePath, env).debts;
      var intrum := IntrumOutcome(data, filePath, env).debts;
      var kredinor := KredinorOutcome(data, filePath, env).debts;
      var threw := ProcessSIData(data, filePath, env);
      if threw {
        return;
      }
      threw := ProcessIntrumData(data, filePath, env);
      AppendAssoc(old(detailedDebts), si, intrum);
      if threw {
        return;
      }
      threw := ProcessKredinorData(data, filePath, env);
      AppendAssoc(old(detailedDebts), si + intrum, kredinor);
      if threw {
        return;
      }
      ProcessPRAGroupData(data, filePath, env);
      AppendAssoc(old(detailedDebts), si + intrum + kredinor, PRAOutcome(data, filePath, env));
    }
  }

  /** The `for ... of krav.forfall` loop, which breaks at the first outstanding
      remainder; `None` stands for the TypeError of a null entry. */
  method ScanRemainders(fs: seq<Json>, env: Env) returns (r: Option<bool>)
    ensures r == ScanForfall(fs, env)
  {
    var isPaid := true;
    var j := 0;
    while j < |fs|
      invariant 0 <= j <= |fs|
      invariant isPaid
      invariant ScanForfall(fs[j..], env) == ScanForfall(fs, env)
    {
      if fs[j].JNull? {
        return None;
      }
      if Outstanding(Remainder(fs[j]), env) {
        isPaid := false;
        break;
      }
      assert fs[j..][1..] == fs[j + 1..];
      j := j + 1;
    }
    return Some(!isPaid);
  }

  /** A valid result balances: the total is the sum of the detailed amounts, each
      creditor's entry is the sum of that creditor's debts, and the entries add up to
      the total. */
  lemma Conservation(ds: seq<DetailedDebt>)
    ensures SumInOrder(CreditorOrder(ds), ByCreditor(ds)) == Total(ds)
    ensures forall c :: c in ByCreditor(ds) ==> ByCreditor(ds)[c] == CreditorTotal(ds, c)
  {
    CreditorSumsAddUp(ds);
    forall c | c in ByCreditor(ds) ensures ByCreditor(ds)[c] == CreditorTotal(ds, c) {
      ByCreditorIsCreditorTotal(ds, c);
    }
  }

  // ---------------------------------------------------------------------------
  // JavaScript operators on values read from JSON

  /** `v ?? d`. */
  function Coalesce(v: Val, d: Json): Val {
    if ReadThrows(v) then Defined(d) else v
  }

  /** `v || d`. */
  function OrElse(v: Val, d: Json): Val {
    if Truthy(v) then v else Defined(d)
  }

  /** `v?.[key]`. */
  function OptionalProp(v: Val, key: string): Val {
    if ReadThrows(v) then Undefined else Prop(v, key)
  }

  /** `v[0]`. On a non-empty string this is a one-character string, whose properties
      are all undefined; the model returns `Undefined` for it directly. */
  function First(j: Json): Val {
    match j
    case JArray(items) => if items == [] then Undefined else Defined(items[0])
    case JObject(ms) => Lookup(ms, "0")
    case _ => Undefined
  }

  /** `j == 0` under JavaScript's loose equality: strings, arrays and objects are
      converted to a number through their string form. */
  predicate LooselyZero(j: Json, env: Env) {
    match j
    case JNull => false
    case JBool(b) => !b
    case JNumber(n) => n == 0.0
    case _ => env.toNumber(JsonString(j, env)) == Some(0.0)
  }

  /** The key of the de-duplication sets: `${a}-${b}`. */
  function CaseKey(a: Val, b: Val, env: Env): string {
    JsString(a, env) + "-" + JsString(b, env)
  }

  /** What one processor did: the debts it pushed, and whether it stopped on a
      TypeError (reading a property of a null element, or calling `replace` on a
      value that is not a string). */
  datatype Outcome = Outcome(debts: seq<DetailedDebt>, threw: bool)

  // ---------------------------------------------------------------------------
  // SI: `data.krav`

  /** `forfall.gjenstaaendeBeloep && forfall.gjenstaaendeBeloep != 0`. */
  predicate Outstanding(v: Val, env: Env) {
    Truthy(v) && !LooselyZero(v.value, env)
  }

  function Remainder(f: Json): Val
    requires !f.JNull?
  {
    Prop(Defined(f), "gjenstaaendeBeloep")
  }

  /** The scan of `krav.forfall`: `Some(true)` once an entry with an outstanding
      remainder is met (the loop breaks there), `Some(false)` when there is none, and
      `None` when an earlier entry is null, whose property read throws. */
  function ScanForfall(fs: seq<Json>, env: Env): Option<bool> {
    if fs == [] then Some(false)
    else if fs[0].JNull? then None
    else if Outstanding(Remainder(fs[0]), env) then Some(true)
    else ScanForfall(fs[1..], env)
  }

  /** The first `k` entries are readable and have nothing outstanding. */
  predicate SettledBefore(fs: seq<Json>, k: nat, env: Env)
    requires k <= |fs|
  {
    forall j :: 0 <= j < k ==> !fs[j].JNull? && !Outstanding(Remainder(fs[j]), env)
  }

  /** A krav is unpaid exactly when some entry has an outstanding remainder and every
      entry before it is readable; the scan throws exactly when a null entry comes
      before any outstanding one; otherwise the krav is paid. */
  lemma {:induction false} ScanForfallMeans(fs: seq<Json>, env: Env)
    ensures ScanForfall(fs, env) == Some(true) <==>
      (exists k :: 0 <= k < |fs| && SettledBefore(fs, k, env) && !fs[k].JNull? && Outstanding(Remainder(fs[k]), env))
    ensures ScanForfall(fs, env) == None <==>
      (exists k :: 0 <= k < |fs| && SettledBefore(fs, k, env) && fs[k].JNull?)
    ensures ScanForfall(fs, env) == Some(false) <==> SettledBefore(fs, |fs|, env)
  {
    if fs != [] {
      var tail := fs[1..];
      ScanForfallMeans(tail, env);
      forall k | 0 < k <= |fs| ensures SettledBefore(fs, k, env) <==> SettledBefore(fs, 1, env) && SettledBefore(tail, k - 1, env) {
        if SettledBefore(fs, 1, env) && SettledBefore(tail, k - 1, env) {
          forall j | 0 <= j < k ensures !fs[j].JNull? && !Outstanding(Remainder(fs[j]), env) {
            if j > 0 {
              assert fs[j] == tail[j - 1];
            }
          }
        }
        if SettledBefore(fs, k, env) {
          forall j | 0 <= j < k - 1 ensures !tail[j].JNull? && !Outstanding(Remainder(tail[j]), env) {
            assert tail[j] == fs[j + 1];
          }
        }
      }
      assert SettledBefore(fs, 0, env);
      if !fs[0].JNull? && !Outstanding(Remainder(fs[0]), env) {
        assert SettledBefore(fs, 1, env);
        if ScanForfall(fs, env) == Some(true) {
          var k :| 0 <= k < |tail| && SettledBefore(tail, k, env) && !tail[k].JNull? && Outstanding(Remainder(tail[k]), env);
          assert fs[k + 1] == tail[k];
        }
        if ScanForfall(fs, env) == None {
          var k :| 0 <= k < |tail| && SettledBefore(tail, k, env) && tail[k].JNull?;
          assert fs[k + 1] == tail[k];
        }
        forall k | 0 < k < |fs| && SettledBefore(fs, k, env) ensures SettledBefore(tail, k - 1, env) && fs[k] == tail[k - 1] {
        }
      } else {
        assert !SettledBefore(fs, |fs|, env);
        forall k | 0 < k < |fs| ensures !SettledBefore(fs, k, env) {
          assert !SettledBefore(fs, 1, env);
        }
      }
    }
  }

  /** `krav.belop || 0`, for a numeric `belop`. */
  function NumberOr0(v: Val): real {
    if Truthy(v) && v.value.JNumber? then v.value.n else 0.0
  }

  /** `krav.forfall && krav.forfall[0]?.forfallsdato ? krav.forfall[0].forfallsdato : null`. */
  function FirstDueDate(krav: Json): Val
    requires !krav.JNull?
  {
    var f := Prop(Defined(krav), "forfall");
    if !Truthy(f) then Defined(JNull)
    else
      var due := OptionalProp(First(f.value), "forfallsdato");
      if Truthy(due) then due else Defined(JNull)
  }

  function SIDebt(krav: Json, source: string): DetailedDebt
    requires !krav.JNull?
  {
    var k := Defined(krav);
    var amount := NumberOr0(Prop(k, "belop"));
    CaseDebt("SI", amount, Prop(k, "identifikator"), amount, Defined(JNull), Defined(JNull),
             FirstDueDate(krav), Defined(JString("SI")),
             OrElse(Prop(k, "opprinneligKreditor"), JString("SI")), source)
  }

  /** Whether a krav is unpaid; the scan only runs when `forfall` is an array. */
  function KravUnpaid(krav: Json, env: Env): Option<bool>
    requires !krav.JNull?
  {
    var f := Prop(Defined(krav), "forfall");
    if IsArray(f) then ScanForfall(f.value.items, env) else Some(false)
  }

  function SIFrom(kravs: seq<Json>, source: string, env: Env): Outcome {
    if kravs == [] then Outcome([], false)
    else if kravs[0].JNull? then Outcome([], true)
    else
      match KravUnpaid(kravs[0], env)
      case None => Outcome([], true)
      case Some(unpaid) =>
        var rest := SIFrom(kravs[1..], source, env);
        Outcome((if unpaid then [SIDebt(kravs[0], source)] else []) + rest.debts, rest.threw)
  }

  /** One krav of the `forEach`. */
  lemma SIFromStep(kravs: seq<Json>, i: nat, source: string, env: Env)
    requires i < |kravs|
    ensures kravs[i].JNull? ==> SIFrom(kravs[i..], source, env) == Outcome([], true)
    ensures !kravs[i].JNull? && KravUnpaid(kravs[i], env).None? ==> SIFrom(kravs[i..], source, env) == Outcome([], true)
    ensures !kravs[i].JNull? && KravUnpaid(kravs[i], env).Some? ==>
      var rest := SIFrom(kravs[i + 1..], source, env);
      SIFrom(kravs[i..], source, env)
        == Outcome((if KravUnpaid(kravs[i], env).value then [SIDebt(kravs[i], source)] else []) + rest.debts, rest.threw)
  {
    assert kravs[i..][0] == kravs[i];
    assert kravs[i..][1..] == kravs[i + 1..];
  }

  /** `processSIData` on an object that is not null. */
  function SIOutcome(data: Json, source: string, env: Env): Outcome
    requires !data.JNull?
  {
    var k := Prop(Defined(data), "krav");
    if IsArray(k) then SIFrom(k.value.items, source, env) else Outcome([], false)
  }

  /** Every SI debt comes from an unpaid krav, in krav order, under creditor "SI", with
      its `totalAmount` equal to its amount and `belop || 0` as that amount. */
  lemma {:induction false} SIDebtsAreUnpaidKravs(kravs: seq<Json>, source: string, env: Env)
    ensures |SIFrom(kravs, source, env).debts| <= |kravs|
    ensures forall d :: d in SIFrom(kravs, source, env).debts ==>
      exists k :: 0 <= k < |kravs| && !kravs[k].JNull? && KravUnpaid(kravs[k], env) == Some(true) && d == SIDebt(kravs[k], source)
    ensures forall d :: d in SIFrom(kravs, source, env).debts ==>
      d.CaseDebt? && d.creditor == "SI" && d.totalAmount == d.amount && d.debtCollectorName == Defined(JString("SI"))
  {
    if kravs != [] && !kravs[0].JNull? && KravUnpaid(kravs[0], env).Some? {
      var tail := kravs[1..];
      SIDebtsAreUnpaidKravs(tail, source, env);
      forall d | d in SIFrom(tail, source, env).debts
        ensures exists k :: 0 <= k < |kravs| && !kravs[k].JNull? && KravUnpaid(kravs[k], env) == Some(true) && d == SIDebt(kravs[k], source)
      {
        var k :| 0 <= k < |tail| && !tail[k].JNull? && KravUnpaid(tail[k], env) == Some(true) && d == SIDebt(tail[k], source);
        assert kravs[k + 1] == tail[k];
      }
    }
  }

  // ---------------------------------------------------------------------------
  // De-duplicated processing (Intrum and Kredinor)

  /** What an element's handler does with the per-call `Set` of seen keys. */
  datatype Effect = Throws | Drop | Keep(debt: DetailedDebt)
  datatype Entry =
    | Unreadable             // the element is null: the first property read throws
    | Unkeyed                // the element fails the guard and is ignored
    | Keyed(key: string, effect: Effect)

  datatype Pass = Pass(debts: seq<DetailedDebt>, threw: bool, seen: set<string>)

  /** A `forEach` over the classified elements with the `seen` set: an element whose
      key is already in the set is skipped; otherwise the key is added before the
      element is parsed, so an element that parses to NaN still blocks its key. */
  function Dedup(es: seq<Entry>, seen: set<string>): Pass {
    if es == [] then Pass([], false, seen)
    else
      match es[0]
      case Unreadable => Pass([], true, seen)
      case Unkeyed => Dedup(es[1..], seen)
      case Keyed(key, effect) =>
        if key in seen then Dedup(es[1..], seen)
        else
          match effect
          case Throws => Pass([], true, seen + {key})
          case Drop => Dedup(es[1..], seen + {key})
          case Keep(d) =>
            var r := Dedup(es[1..], seen + {key});
            Pass([d] + r.debts, r.threw, r.seen)
  }

  /** The keys recorded in the set only grow. */
  lemma {:induction false} DedupSeenGrows(es: seq<Entry>, seen: set<string>)
    ensures seen <= Dedup(es, seen).seen
  {
    if es != [] {
      match es[0]
      case Unreadable =>
      case Unkeyed => DedupSeenGrows(es[1..], seen);
      case Keyed(key, effect) =>
        if key in seen {
          DedupSeenGrows(es[1..], seen);
        } else if !effect.Throws? {
          DedupSeenGrows(es[1..], seen + {key});
        }
    }
  }

  /** Processing `a + b` is processing `a`, then `b` with the set `a` left behind. */
  lemma {:induction false} DedupAppend(a: seq<Entry>, b: seq<Entry>, seen: set<string>)
    requires !Dedup(a, seen).threw
    ensures var ra := Dedup(a, seen); var rb := Dedup(b, ra.seen);
      Dedup(a + b, seen) == Pass(ra.debts + rb.debts, rb.threw, rb.seen)
  {
    if a != [] {
      assert (a + b)[1..] == a[1..] + b;
      assert (a + b)[0] == a[0];
      match a[0]
      case Unreadable =>
      case Unkeyed => DedupAppend(a[1..], b, seen);
      case Keyed(key, effect) =>
        if key in seen {
          DedupAppend(a[1..], b, seen);
        } else if !effect.Throws? {
          DedupAppend(a[1..], b, seen + {key});
          if effect.Keep? {
            var r := Dedup(a[1..], seen + {key});
            AppendAssoc([effect.debt], r.debts, Dedup(b, r.seen).debts);
          }
        }
    } else {
      assert a + b == b;
    }
  }

  /** Once every key of `es` is in the set, processing `es` again does nothing. */
  lemma {:induction false} DedupCovered(es: seq<Entry>, seen: set<string>, later: set<string>)
    requires !Dedup(es, seen).threw && Dedup(es, seen).seen <= later
    ensures Dedup(es, later) == Pass([], false, later)
  {
    if es != [] {
      match es[0]
      case Unreadable =>
      case Unkeyed => DedupCovered(es[1..], seen, later);
      case Keyed(key, effect) =>
        if key in seen {
          DedupSeenGrows(es[1..], seen);
          DedupCovered(es[1..], seen, later);
        } else {
          DedupSeenGrows(es[1..], seen + {key});
          DedupCovered(es[1..], seen + {key}, later);
        }
    }
  }

  /** De-duplication: a list followed by a copy of itself yields the debts of the list
      once. */
  lemma RepeatedListCountsOnce(es: seq<Entry>)
    requires !Dedup(es, {}).threw
    ensures Dedup(es + es, {}).debts == Dedup(es, {}).debts
    ensures !Dedup(es + es, {}).threw
  {
    var r := Dedup(es, {});
    DedupAppend(es, es, {});
    DedupCovered(es, {}, r.seen);
  }

  // ---------------------------------------------------------------------------
  // Intrum: `data.debtCases`

  /** One element of `debtCases`: it needs a truthy `caseNumber`, `totalAmount` and
      `creditorName`; the amount is `parseFloat` of `totalAmount` with its first comma
      made a point, and `replace` throws when `totalAmount` is not a string. */
  function IntrumEntry(c: Json, source: string, env: Env): Entry {
    if c.JNull? then Unreadable
    else
      var v := Defined(c);
      var number := Prop(v, "caseNumber");
      var total := Prop(v, "totalAmount");
      var name := Prop(v, "creditorName");
      if !(Truthy(number) && Truthy(total) && Truthy(name)) then Unkeyed
      else
        Keyed(CaseKey(number, total, env),
          if !total.value.JString? then Throws
          else
            match env.parseFloat(ReplaceFirst(total.value.s, ",", "."))
            case None => Drop
            case Some(amount) =>
              Keep(CaseDebt("Intrum", amount, number, amount,
                            Coalesce(Prop(v, "originalAmount"), JNull),
                            Coalesce(Prop(v, "interestAndFines"), JNull),
                            Coalesce(Prop(v, "originalDueDate"), JNull),
                            Defined(JString("Intrum")), Coalesce(name, JString("Intrum")), source)))
  }

  function IntrumEntries(cases: seq<Json>, source: string, env: Env): (r: seq<Entry>)
    ensures |r| == |cases|
    ensures forall k :: 0 <= k < |cases| ==> r[k] == IntrumEntry(cases[k], source, env)
  {
    seq(|cases|, k requires 0 <= k < |cases| => IntrumEntry(cases[k], source, env))
  }

  /** `processIntrumData` on an object that is not null. */
  function IntrumOutcome(data: Json, source: string, env: Env): Pass
    requires !data.JNull?
  {
    var cs := Prop(Defined(data), "debtCases");
    if IsArray(cs) then Dedup(IntrumEntries(cs.value.items, source, env), {}) else Pass([], false, {})
  }

  // ---------------------------------------------------------------------------
  // Kredinor: an array, or an object whose `value` is an array

  /** The elements processed: `data` itself when it is an array, else `data.value` when
      that is one. */
  function KredinorItems(data: Json): Option<seq<Json>>
    requires !data.JNull?
  {
    if data.JArray? then Some(data.items)
    else
      var v := Prop(Defined(data), "value");
      if IsArray(v) then Some(v.value.items) else None
  }

  /** One Kredinor element. The current format needs a truthy `caseID` and a defined
      `totalAmount`; otherwise the old format needs a `type` other than "grandTotal"
      and a truthy `totalbeløp` and `saksnummer`. Both share one key set, and both keep
      only amounts that parse to a number above zero. */
  function KredinorEntry(item: Json, source: string, env: Env): Entry {
    if item.JNull? then Unreadable
    else
      var v := Defined(item);
      var id := Prop(v, "caseID");
      var total := Prop(v, "totalAmount");
      if Truthy(id) && total.Defined? then
        var amount := env.parseFloat(JsString(total, env));
        var collector := Prop(v, "debtCollectorName");
        Keyed(CaseKey(id, total, env),
          if amount.Some? && amount.value > 0.0 then
            Keep(KredinorDebt(if Truthy(collector) then JsString(collector, env) else "Kredinor",
                              amount.value, id, Prop(v, "originalAmount"), Prop(v, "interestAndFines"),
                              Prop(v, "originalDueDate"), collector, Prop(v, "originalCreditorName"), source))
          else Drop)
      else
        var number := Prop(v, "saksnummer");
        var total := Prop(v, "totalbeløp");
        if Prop(v, "type") != Defined(JString("grandTotal")) && Truthy(total) && Truthy(number) then
          var amount := env.parseFloat(JsString(total, env));
          Keyed(CaseKey(number, total, env),
            if amount.Some? && amount.value > 0.0 then
              Keep(LegacyKredinorDebt("Kredinor", amount.value, number,
                                      OrElse(Prop(v, "oppdragsgiver"), JString("Unknown")),
                                      Prop(v, "opprinneligOppdragsgiver"), source))
            else Drop)
        else Unkeyed
  }

  function KredinorEntries(items: seq<Json>, source: string, env: Env): (r: seq<Entry>)
    ensures |r| == |items|
    ensures forall k :: 0 <= k < |items| ==> r[k] == KredinorEntry(items[k], source, env)
  {
    seq(|items|, k requires 0 <= k < |items| => KredinorEntry(items[k], source, env))
  }

  /** `processKredinorData` on a value that is not null. */
  function KredinorOutcome(data: Json, source: string, env: Env): Pass
    requires !data.JNull?
  {
    match KredinorItems(data)
    case None => Pass([], false, {})
    case Some(items) => Dedup(KredinorEntries(items, source, env), {})
  }

  /** The bare array and the `{ value: [...] }` wrapper are processed alike. */
  lemma KredinorWrapperIsTransparent(items: seq<Json>, rest: seq<(string, Json)>, source: string, env: Env)
    ensures KredinorOutcome(JObject([("value", JArray(items))] + rest), source, env)
         == KredinorOutcome(JArray(items), source, env)
  {
    assert Lookup([("value", JArray(items))] + rest, "value") == Defined(JArray(items));
  }

  /** Every Kredinor debt has a positive amount, and a creditor: the debt collector's
      name when one is given, "Kredinor" otherwise. */
  lemma {:induction false} KredinorAmountsPositive(items: seq<Json>, source: string, env: Env, seen: set<string>)
    ensures forall d :: d in Dedup(KredinorEntries(items, source, env), seen).debts ==>
      d.amount > 0.0 && (d.LegacyKredinorDebt? ==> d.creditor == "Kredinor")
      && (d.KredinorDebt? ==> d.creditor == (if Truthy(d.debtCollectorName) then JsString(d.debtCollectorName, env) else "Kredinor"))
  {
    DedupKeepsPositive(KredinorEntries(items, source, env), seen, env);
  }

  /** The debts a positive-amount stream keeps are positive. */
  predicate KredinorShaped(e: Entry, env: Env) {
    e.Keyed? && e.effect.Keep? ==>
      var d := e.effect.debt;
      d.amount > 0.0 && (d.LegacyKredinorDebt? ==> d.creditor == "Kredinor")
      && (d.KredinorDebt? ==> d.creditor == (if Truthy(d.debtCollectorName) then JsString(d.debtCollectorName, env) else "Kredinor"))
  }

  lemma {:induction false} DedupKeepsPositive(es: seq<Entry>, seen: set<string>, env: Env)
    requires forall k :: 0 <= k < |es| ==> KredinorShaped(es[k], env)
    ensures forall d :: d in Dedup(es, seen).debts ==>
      d.amount > 0.0 && (d.LegacyKredinorDebt? ==> d.creditor == "Kredinor")
      && (d.KredinorDebt? ==> d.creditor == (if Truthy(d.debtCollectorName) then JsString(d.debtCollectorName, env) else "Kredinor"))
  {
    if es != [] {
      assert KredinorShaped(es[0], env);
      var tail := es[1..];
      assert forall k :: 0 <= k < |tail| ==> tail[k] == es[k + 1];
      match es[0]
      case Unreadable =>
      case Unkeyed => DedupKeepsPositive(tail, seen, env);
      case Keyed(key, effect) =>
        if key in seen {
          DedupKeepsPositive(tail, seen, env);
        } else {
          DedupKeepsPositive(tail, seen + {key}, env);
        }
    }
  }

  // ---------------------------------------------------------------------------
  // PRA Group: one account per file

  /** `processPRAGroupData` on an object that is not null: at most one debt, with a
      positive amount, under creditor "PRA Group". */
  function PRAOutcome(data: Json, source: string, env: Env): (r: seq<DetailedDebt>)
    requires !data.JNull?
    ensures |r| <= 1
    ensures forall d :: d in r ==> d.amount > 0.0 && d.creditor == "PRA Group" && d.CaseDebt? && d.totalAmount == d.amount
    ensures r != [] ==> Truthy(Prop(Defined(data), "accountReference")) && Truthy(Prop(Defined(data), "amountNumber"))
  {
    var v := Defined(data);
    var reference := Prop(v, "accountReference");
    var number := Prop(v, "amountNumber");
    if !Truthy(reference) || !Truthy(number) then []
    else
      match env.parseFloat(JsString(number, env))
      case None => []
      case Some(amount) =>
        if amount > 0.0 then
          [CaseDebt("PRA Group", amount, reference, amount, Defined(JNull), Defined(JNull), Defined(JNull),
                    Defined(JString("PRA Group")),
                    OrElse(OptionalProp(Prop(v, "accountDetails"), "Tidligere eier"), JString("PRA Group")), source)]
        else []
  }

  // ---------------------------------------------------------------------------
  // One file, and the person's latest folder

  /** The debts one parsed file contributes. `data.krav` throws on `null`, and a
      processor that throws ends the file's processing (the `try` around the four
      calls); what was pushed before stays. */
  function FileDebts(data: Json, source: string, env: Env): seq<DetailedDebt> {
    if data.JNull? then []
    else
      var si := SIOutcome(data, source, env);
      if si.threw then si.debts
      else
        var intrum := IntrumOutcome(data, source, env);
        if intrum.threw then si.debts + intrum.debts
        else
          var kredinor := KredinorOutcome(data, source, env);
          if kredinor.threw then si.debts + intrum.debts + kredinor.debts
          else si.debts + intrum.debts + kredinor.debts + PRAOutcome(data, source, env)
  }

  /** The file system as the reader sees it. `filesBelow` lists the regular files of a
      directory tree in the order the recursive walk visits them; `contents` is `None`
      for a file that cannot be read or is not JSON. */
  datatype Disk = Disk(
    present: string -> bool,
    isDirectory: string -> bool,
    entries: string -> seq<string>,
    filesBelow: string -> seq<string>,
    contents: string -> Option<Json>)

  /** One file inside the `try`: nothing when it cannot be read or parsed. */
  function PathDebts(p: string, disk: Disk, env: Env): seq<DetailedDebt> {
    match disk.contents(p)
    case None => []
    case Some(data) => FileDebts(data, p, env)
  }

  function FilesDebts(paths: seq<string>, disk: Disk, env: Env): seq<DetailedDebt> {
    if paths == [] then []
    else FilesDebts(paths[..|paths| - 1], disk, env) + PathDebts(paths[|paths| - 1], disk, env)
  }

  lemma FilesDebtsStep(paths: seq<string>, i: nat, disk: Disk, env: Env)
    requires i < |paths|
    ensures FilesDebts(paths[..i + 1], disk, env) == FilesDebts(paths[..i], disk, env) + PathDebts(paths[i], disk, env)
  {
    assert paths[..i + 1][..i] == paths[..i];
  }

  /** Files are independent: each processor call starts with fresh `seen` sets, so the
      debts of a list of files are the debts of its parts, one after the other. */
  lemma {:induction false} FilesDebtsAppend(a: seq<string>, b: seq<string>, disk: Disk, env: Env)
    ensures FilesDebts(a + b, disk, env) == FilesDebts(a, disk, env) + FilesDebts(b, disk, env)
  {
    if b == [] {
      assert a + b == a;
    } else {
      var init := b[..|b| - 1];
      assert (a + b)[..|a + b| - 1] == a + init;
      FilesDebtsAppend(a, init, disk, env);
      AppendAssoc(FilesDebts(a, disk, env), FilesDebts(init, disk, env), PathDebts(b[|b| - 1], disk, env));
    }
  }

  /** `/^\d{4}_\d{2}_\d{2}$/`. */
  predicate IsDateName(s: string) {
    |s| == 10 && s[4] == '_' && s[7] == '_'
    && IsDigit(s[0]) && IsDigit(s[1]) && IsDigit(s[2]) && IsDigit(s[3])
    && IsDigit(s[5]) && IsDigit(s[6]) && IsDigit(s[8]) && IsDigit(s[9])
  }

  /** The default order of `Array.prototype.sort`: lexicographic by character. */
  predicate StrLess(a: string, b: string) {
    if a == [] then b != []
    else if b == [] then false
    else if a[0] != b[0] then a[0] < b[0]
    else StrLess(a[1..], b[1..])
  }

  lemma {:induction false} StrLessTotal(a: string, b: string)
    ensures a == b || StrLess(a, b) || StrLess(b, a)
  {
    if a != [] && b != [] && a[0] == b[0] {
      StrLessTotal(a[1..], b[1..]);
      if a[1..] == b[1..] {
        assert a == [a[0]] + a[1..] && b == [b[0]] + b[1..];
      }
    }
  }

  lemma {:induction false} StrLessTrans(a: string, b: string, c: string)
    requires StrLess(a, b) && StrLess(b, c)
    ensures StrLess(a, c)
  {
    if a != [] && a[0] == b[0] && b[0] == c[0] {
      StrLessTrans(a[1..], b[1..], c[1..]);
    }
  }

  /** The entries of `dir` that are directories named like a date. */
  function DateFolders(names: seq<string>, dir: string, disk: Disk): (r: seq<string>)
    ensures |r| <= |names|
  {
    if names == [] then []
    else
      var rest := DateFolders(names[1..], dir, disk);
      if disk.isDirectory(dir + "/" + names[0]) && IsDateName(names[0]) then [names[0]] + rest else rest
  }

  /** Exactly the directories with a date name are candidates. */
  lemma {:induction false} DateFoldersFilter(names: seq<string>, dir: string, disk: Disk)
    ensures forall n :: n in DateFolders(names, dir, disk) <==> n in names && disk.isDirectory(dir + "/" + n) && IsDateName(n)
  {
    if names != [] {
      DateFoldersFilter(names[1..], dir, disk);
      assert names == [names[0]] + names[1..];
    }
  }

  /** `names.sort().reverse()[0]`, or `None` for an empty list. */
  function Latest(names: seq<string>): (r: Option<string>)
    ensures r.None? <==> names == []
    ensures r.Some? ==> r.value in names
  {
    if names == [] then None
    else
      match Latest(names[1..])
      case None => Some(names[0])
      case Some(m) => if StrLess(names[0], m) then Some(m) else Some(names[0])
  }

  /** The folder chosen is the greatest name. */
  lemma {:induction false} LatestIsGreatest(names: seq<string>)
    requires names != []
    ensures forall n :: n in names ==> !StrLess(Latest(names).value, n)
  {
    if |names| > 1 {
      var rest := names[1..];
      LatestIsGreatest(rest);
      var m := Latest(rest).value;
      var x := names[0];
      StrLessTotal(x, m);
      StrLessIrreflexive(x);
      StrLessIrreflexive(m);
      forall n | n in names ensures !StrLess(Latest(names).value, n) {
        if StrLess(Latest(names).value, n) {
          if n in rest {
            if !StrLess(x, m) && x != m {
              StrLessTrans(m, x, n);
            }
          } else {
            assert n == x;
            if StrLess(x, m) {
              StrLessTrans(m, x, m);
            }
          }
          assert false;
        }
      }
    } else {
      StrLessIrreflexive(names[0]);
    }
  }

  lemma {:induction false} StrLessIrreflexive(a: string)
    ensures !StrLess(a, a)
  {
    if a != [] {
      StrLessIrreflexive(a[1..]);
    }
  }

  /** The files `findExtractedDataFiles` keeps. */
  function ExtractedDataFiles(paths: seq<string>): (r: seq<string>)
    ensures |r| <= |paths|
  {
    if paths == [] then []
    else
      var rest := ExtractedDataFiles(paths[1..]);
      if EndsWith(paths[0], ExtractedSuffix) then [paths[0]] + rest else rest
  }

  /** Exactly the files whose name ends in `_extracted_data.json` are read. */
  lemma {:induction false} ExtractedDataFilesFilter(paths: seq<string>)
    ensures forall p :: p in ExtractedDataFiles(paths) <==> p in paths && EndsWith(p, ExtractedSuffix)
  {
    if paths != [] {
      ExtractedDataFilesFilter(paths[1..]);
      assert paths == [paths[0]] + paths[1..];
    }
  }

  /** `path.join('./extracted_data', personId)`. */
  function PersonDir(personId: string): string {
    "extracted_data/" + personId
  }

  /** The detailed debts `readAllDebtForPerson` collects. */
  function PersonDebts(disk: Disk, personId: string, env: Env): seq<DetailedDebt> {
    var dir := PersonDir(personId);
    if !disk.present(dir) then []
    else
      match Latest(DateFolders(disk.entries(dir), dir, disk))
      case None => []
      case Some(folder) => FilesDebts(ExtractedDataFiles(disk.filesBelow(dir + "/" + folder)), disk, env)
  }

  /** `readAllDebtForPerson`: the files of the latest date folder, each through the four
      processors, into a fresh result. */
  method ReadAllDebtForPerson(disk: Disk, personId: string, env: Env) returns (result: DebtResult)
    ensures fresh(result) && result.Valid()
    ensures result.detailedDebts == PersonDebts(disk, personId, env)
  {
    result := new DebtResult();
    var dir := PersonDir(personId);
    if !disk.present(dir) {
      return;
    }
    var latest := Latest(DateFolders(disk.entries(dir), dir, disk));
    if latest.None? {
      return;
    }
    result.ProcessFiles(ExtractedDataFiles(disk.filesBelow(dir + "/" + latest.value)), disk, env);
  }
}
