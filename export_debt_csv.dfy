/** The CSV export of a person's detailed debts: a header made of every key that
    occurs in any debt, in the order the keys are first met, then one line per debt
    with one field per header key. String fields are quoted with inner quotes doubled;
    null and missing values are empty fields. */
module ExportDebtCsv {
  import opened Strings
  import opened Json
  import opened DebtReader

  /** A JavaScript object as `Object.keys` sees it: its own keys with their values, in
      insertion order. A key whose value is `undefined` is still a key. */
  type Record = seq<(string, Val)>

  /** The object literal each processor pushes, key by key. */
  function DebtFields(d: DetailedDebt): Record {
    match d
    case CaseDebt(creditor, amount, caseID, totalAmount, originalAmount, interestAndFines,
                  originalDueDate, debtCollectorName, originalCreditorName, source) =>
      [("creditor", Defined(JString(creditor))), ("amount", Defined(JNumber(amount))),
       ("caseID", caseID), ("totalAmount", Defined(JNumber(totalAmount))),
       ("originalAmount", originalAmount), ("interestAndFines", interestAndFines),
       ("originalDueDate", originalDueDate), ("debtCollectorName", debtCollectorName),
       ("originalCreditorName", originalCreditorName), ("source", Defined(JString(source)))]
    case KredinorDebt(creditor, amount, id, originalAmount, interestAndFines, originalDueDate,
                      debtCollectorName, originalCreditorName, source) =>
      [("creditor", Defined(JString(creditor))), ("amount", Defined(JNumber(amount))), ("id", id),
       ("originalAmount", originalAmount), ("interestAndFines", interestAndFines),
       ("originalDueDate", originalDueDate), ("debtCollectorName", debtCollectorName),
       ("originalCreditorName", originalCreditorName), ("source", Defined(JString(source)))]
    case LegacyKredinorDebt(creditor, amount, id, kind, kindText, source) =>
      [("creditor", Defined(JString(creditor))), ("amount", Defined(JNumber(amount))), ("id", id),
       ("type", kind), ("typeText", kindText), ("source", Defined(JString(source)))]
  }

  function Records(debts: seq<DetailedDebt>): (r: seq<Record>)
    ensures |r| == |debts|
    ensures forall k :: 0 <= k < |debts| ==> r[k] == DebtFields(debts[k])
  {
    seq(|debts|, k requires 0 <= k < |debts| => DebtFields(debts[k]))
  }

  function Keys(r: Record): (ks: seq<string>)
    ensures |ks| == |r|
    ensures forall k :: 0 <= k < |r| ==> ks[k] == r[k].0
  {
    seq(|r|, k requires 0 <= k < |r| => r[k].0)
  }

  /** `records.flatMap(r => Object.keys(r))`. */
  function AllKeys(rs: seq<Record>): seq<string> {
    if rs == [] then [] else AllKeys(rs[..|rs| - 1]) + Keys(rs[|rs| - 1])
  }

  /** `Array.from(new Set(ks))`: each key once, where it first occurs. */
  function FirstSeen(ks: seq<string>): seq<string> {
    if ks == [] then []
    else
      var h := FirstSeen(ks[..|ks| - 1]);
      if ks[|ks| - 1] in h then h else h + [ks[|ks| - 1]]
  }

  /** The position of the first occurrence of `k` in `ks`. */
  function FirstIndex(ks: seq<string>, k: string): (i: nat)
    requires k in ks
    ensures i < |ks| && ks[i] == k && k !in ks[..i]
  {
    if ks[0] == k then 0 else 1 + FirstIndex(ks[1..], k)
  }

  lemma {:induction false} FirstIndexOfPrefix(ks: seq<string>, x: string, k: string)
    requires k in ks
    ensures FirstIndex(ks + [x], k) == FirstIndex(ks, k)
  {
    assert (ks + [x])[0] == ks[0];
    if ks[0] != k {
      assert (ks + [x])[1..] == ks[1..] + [x];
      FirstIndexOfPrefix(ks[1..], x, k);
    }
  }

  /** The header holds every key exactly once, and only keys that occur, ordered by
      where each key first occurs. */
  lemma {:induction false} FirstSeenIsHeader(ks: seq<string>)
    ensures Distinct(FirstSeen(ks))
    ensures forall k :: k in FirstSeen(ks) <==> k in ks
    ensures forall i, j :: 0 <= i < j < |FirstSeen(ks)| ==>
      FirstIndex(ks, FirstSeen(ks)[i]) < FirstIndex(ks, FirstSeen(ks)[j])
  {
    if ks != [] {
      var init := ks[..|ks| - 1];
      var x := ks[|ks| - 1];
      var h := FirstSeen(init);
      FirstSeenIsHeader(init);
      assert ks == init + [x];
      forall k | k in init {
        FirstIndexOfPrefix(init, x, k);
      }
      if x !in h {
        var n := FirstSeen(ks);
        forall i, j | 0 <= i < j < |n| ensures FirstIndex(ks, n[i]) < FirstIndex(ks, n[j]) {
          if j == |h| {
            FirstIndexOfPrefix(init, x, n[i]);
            assert n[i] == h[i];
            assert x !in init;
            assert FirstIndex(ks, x) == |init|;
          } else {
            assert n[i] == h[i] && n[j] == h[j];
          }
        }
      }
    }
  }

  /** `debt[key]`. */
  function Get(r: Record, key: string): Val {
    if r == [] then Undefined
    else if r[0].0 == key then r[0].1
    else Get(r[1..], key)
  }

  /** `s.replace(/"/g, '""')`. */
  function Escape(s: string): string {
    if s == [] then []
    else (if s[0] == '"' then "\"\"" else [s[0]]) + Escape(s[1..])
  }

  /** The inverse of `Escape`: doubled quotes become one; a lone quote is malformed. */
  function Unescape(t: string): Option<string> {
    if t == [] then Some([])
    else if t[0] != '"' then
      match Unescape(t[1..])
      case None => None
      case Some(rest) => Some([t[0]] + rest)
    else if |t| >= 2 && t[1] == '"' then
      match Unescape(t[2..])
      case None => None
      case Some(rest) => Some("\"" + rest)
    else None
  }

  /** A string field: `'"' + val.replace(/"/g, '""') + '"'`. */
  function Quote(s: string): string {
    "\"" + Escape(s) + "\""
  }

  /** Reading a quoted field back. */
  function Unquote(t: string): Option<string> {
    if |t| >= 2 && t[0] == '"' && t[|t| - 1] == '"' then Unescape(t[1..|t| - 1]) else None
  }

  lemma {:induction false} UnescapeEscape(s: string)
    ensures Unescape(Escape(s)) == Some(s)
  {
    if s != [] {
      UnescapeEscape(s[1..]);
      var t := Escape(s);
      if s[0] == '"' {
        assert t == "\"\"" + Escape(s[1..]);
        assert t[2..] == Escape(s[1..]);
      } else {
        assert t == [s[0]] + Escape(s[1..]);
        assert t[1..] == Escape(s[1..]);
      }
      assert s == [s[0]] + s[1..];
    }
  }

  /** Quoting is undone by reading the field back. */
  lemma QuoteRoundTrip(s: string)
    ensures Unquote(Quote(s)) == Some(s)
  {
    var q := Quote(s);
    assert q[1..|q| - 1] == Escape(s);
    UnescapeEscape(s);
  }

  /** One field: a string is quoted, `null` and `undefined` are empty (`val ?? ""`),
      anything else is what `join` makes of it. */
  function Cell(v: Val, env: Env): string {
    if v.Defined? && v.value.JString? then Quote(v.value.s)
    else if ReadThrows(v) then ""
    else JsonString(v.value, env)
  }

  /** `keys.map(key => ...)` for one record. */
  function Cells(r: Record, keys: seq<string>, env: Env): (cs: seq<string>)
    ensures |cs| == |keys|
    ensures forall i :: 0 <= i < |keys| ==> cs[i] == Cell(Get(r, keys[i]), env)
  {
    seq(|keys|, i requires 0 <= i < |keys| => Cell(Get(r, keys[i]), env))
  }

  /** Every field appears once per header key and in header order: a missing key or a
      null value leaves an empty field, and a string field reads back as the string. */
  lemma FieldsFollowHeader(r: Record, keys: seq<string>, env: Env, i: nat)
    requires i < |keys|
    ensures Get(r, keys[i]).Undefined? ==> Cells(r, keys, env)[i] == ""
    ensures Get(r, keys[i]) == Defined(JNull) ==> Cells(r, keys, env)[i] == ""
    ensures Get(r, keys[i]).Defined? && Get(r, keys[i]).value.JString? ==>
      Unquote(Cells(r, keys, env)[i]) == Some(Get(r, keys[i]).value.s)
  {
    if Get(r, keys[i]).Defined? && Get(r, keys[i]).value.JString? {
      QuoteRoundTrip(Get(r, keys[i]).value.s);
    }
  }

  /** The lines of the file: the header, then one line per record in input order. */
  function CsvLines(rs: seq<Record>, env: Env): (lines: seq<string>)
  {
    var header := FirstSeen(AllKeys(rs));
    [Join(header, ",")] + seq(|rs|, k requires 0 <= k < |rs| => Join(Cells(rs[k], header, env), ","))
  }

  /** The `for (const debt of allDebts)` loop pushing into `csvRows`. */
  method BuildRows(rs: seq<Record>, env: Env) returns (csvRows: seq<string>)
    ensures csvRows == CsvLines(rs, env)
    ensures |csvRows| == 1 + |rs|
  {
    var keys := FirstSeen(AllKeys(rs));
    csvRows := [Join(keys, ",")];
    var i := 0;
    while i < |rs|
      invariant 0 <= i <= |rs|
      invariant |csvRows| == 1 + i
      invariant csvRows[0] == Join(keys, ",")
      invariant forall k :: 0 <= k < i ==> csvRows[k + 1] == Join(Cells(rs[k], keys, env), ",")
    {
      var row := Cells(rs[i], keys, env);
      csvRows := csvRows + [Join(row, ",")];
      i := i + 1;
    }
  }

  /** `exportDebtsAsCSV` up to the write: an empty debt list is an error, otherwise the
      text written is the lines joined with newlines. */
  method ExportDebtsAsCsv(debts: seq<DetailedDebt>, personId: string, env: Env) returns (r: Result<string>)
    ensures r.Err? <==> debts == []
    ensures r.Err? ==> r.message == "Ingen gjeld funnet for " + personId
    ensures r.Ok? ==> r.value == Join(CsvLines(Records(debts), env), "\n")
  {
    if |debts| == 0 {
      return Err("Ingen gjeld funnet for " + personId);
    }
    var csvRows := BuildRows(Records(debts), env);
    return Ok(Join(csvRows, "\n"));
  }
}
