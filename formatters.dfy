/** `parseNorwegianAmount`: an amount as the Norwegian pages print it ("1 234,56 kr")
    turned into a number. Currency labels and white space are removed, the first
    decimal comma becomes a point, and `Number` reads what is left; NaN becomes 0.

    `Number` is modelled exactly on plain decimal literals (an optional sign, digits
    and at most one point) and on text containing a character no JavaScript numeric
    literal can contain; what remains (exponents, hexadecimal, "Infinity") is the
    runtime's `toNumber`. */
module Formatters {
  import opened Strings
  import opened Json

  /** ASCII letters folded to lower case, as the `i` flag of a regular expression
      compares them; no other character folds onto an ASCII letter. */
  function Fold(c: char): char {
    if 'A' <= c <= 'Z' then (c as int + 32) as char else c
  }

  /** `kr` or `NOK`, in any letter case, starts `s`. */
  predicate KrAt(s: string) {
    |s| >= 2 && Fold(s[0]) == 'k' && Fold(s[1]) == 'r'
  }

  predicate NokAt(s: string) {
    |s| >= 3 && Fold(s[0]) == 'n' && Fold(s[1]) == 'o' && Fold(s[2]) == 'k'
  }

  /** `.replace(/kr|NOK/gi, "")`: one left-to-right pass that removes each match and
      resumes after it; "kr" is tried before "NOK" at every position. */
  function RemoveCurrency(s: string): (r: string)
    ensures |r| <= |s|
  {
    if s == [] then []
    else if KrAt(s) then RemoveCurrency(s[2..])
    else if NokAt(s) then RemoveCurrency(s[3..])
    else [s[0]] + RemoveCurrency(s[1..])
  }

  /** Text in which no label starts is kept as it is, wherever it stands; every label
      that starts after it is still found. */
  lemma {:induction false} LabelFreePrefix(a: string, b: string)
    requires forall i :: 0 <= i < |a| ==> !KrAt((a + b)[i..]) && !NokAt((a + b)[i..])
    ensures RemoveCurrency(a + b) == a + RemoveCurrency(b)
  {
    if a != [] {
      var s := a + b;
      assert s[0..] == s;
      assert s[1..] == a[1..] + b;
      forall i | 0 <= i < |a[1..]|
        ensures !KrAt((a[1..] + b)[i..]) && !NokAt((a[1..] + b)[i..])
      {
        assert (a[1..] + b)[i..] == s[i + 1..];
      }
      LabelFreePrefix(a[1..], b);
      assert s[0] == a[0];
      assert a == [a[0]] + a[1..];
    } else {
      assert a + b == b;
    }
  }

  /** The pass removes only what it matches: text where neither letter that starts a
      label occurs is left unchanged. */
  lemma NoLabelLetters(s: string)
    requires forall k :: 0 <= k < |s| ==> Fold(s[k]) != 'k' && Fold(s[k]) != 'n'
    ensures RemoveCurrency(s) == s
  {
    forall i | 0 <= i < |s| ensures !KrAt((s + [])[i..]) && !NokAt((s + [])[i..]) {
      assert (s + [])[i..][0] == s[i];
    }
    LabelFreePrefix(s, []);
    assert s + [] == s;
  }

  /** The pass is single: a label that only forms once an inner one is gone survives. */
  lemma SinglePassLeavesLabel()
    ensures RemoveCurrency("kkrr") == "kr"
    ensures KrAt(RemoveCurrency("kkrr"))
  {
    assert !KrAt("kkrr") && !NokAt("kkrr");
    assert "kkrr"[1..] == "krr";
    assert KrAt("krr");
    assert "krr"[2..] == "r";
    assert RemoveCurrency("r") == "r" by {
      assert "r"[1..] == [];
    }
  }

  /** `.replace(/\s/g, "")`. */
  function RemoveSpaces(s: string): (r: string)
    ensures |r| <= |s|
    ensures forall k :: 0 <= k < |r| ==> !IsJsSpace(r[k])
  {
    if s == [] then []
    else if IsJsSpace(s[0]) then RemoveSpaces(s[1..])
    else [s[0]] + RemoveSpaces(s[1..])
  }

  /** Only white space is removed: text without any is unchanged. */
  lemma {:induction false} SpacelessUnchanged(s: string)
    requires forall k :: 0 <= k < |s| ==> !IsJsSpace(s[k])
    ensures RemoveSpaces(s) == s
  {
    if s != [] {
      SpacelessUnchanged(s[1..]);
      assert s == [s[0]] + s[1..];
    }
  }

  /** `trim()` leaves text without white space alone. */
  lemma TrimSpaceless(s: string)
    requires forall k :: 0 <= k < |s| ==> !IsJsSpace(s[k])
    ensures TrimJs(s) == s
  {
    assert TrimStart(s, IsJsSpace) == s;
    assert TrimEnd(s, IsJsSpace) == s;
  }

  /** The cleaned text that is handed to `Number`. */
  function Cleaned(s: string): string {
    TrimJs(ReplaceFirst(RemoveSpaces(RemoveCurrency(s)), ",", "."))
  }

  /** A one-character pattern is found at the first occurrence of that character. */
  lemma IndexOfChar(s: string, c: char)
    ensures c !in s ==> !Contains(s, [c])
    ensures c in s ==> IndexOf(s, [c]) == Some(FirstIndexOfChar(s, c))
  {
    IndexOfIsFirst(s, [c]);
    if c !in s {
      forall i: nat | i <= |s| ensures !OccursAt(s, [c], i) {
        if i + 1 <= |s| {
          assert s[i..i + 1] == [s[i]];
        }
      }
    } else {
      var j := FirstIndexOfChar(s, c);
      assert OccursAt(s, [c], j);
      var r := IndexOf(s, [c]).value;
      assert s[r..r + 1][0] == s[r];
    }
  }

  /** The cleaned text holds no white space, and only the first comma became a point:
      the text before it is untouched and so is every later comma. */
  lemma CleanedShape(s: string)
    ensures var t := RemoveSpaces(RemoveCurrency(s));
      var c := Cleaned(s);
      (forall k :: 0 <= k < |c| ==> !IsJsSpace(c[k]))
      && (',' !in t ==> c == t)
      && (',' in t ==> c == t[..FirstIndexOfChar(t, ',')] + "." + t[FirstIndexOfChar(t, ',') + 1..])
  {
    CommaReplacedInSpaceless(RemoveSpaces(RemoveCurrency(s)));
  }

  /** In text without white space, turning the first comma into a point and trimming
      changes nothing else. */
  lemma CommaReplacedInSpaceless(t: string)
    requires forall k :: 0 <= k < |t| ==> !IsJsSpace(t[k])
    ensures var c := TrimJs(ReplaceFirst(t, ",", "."));
      (forall k :: 0 <= k < |c| ==> !IsJsSpace(c[k]))
      && (',' !in t ==> c == t)
      && (',' in t ==> c == t[..FirstIndexOfChar(t, ',')] + "." + t[FirstIndexOfChar(t, ',') + 1..])
  {
    IndexOfChar(t, ',');
    var u := ReplaceFirst(t, ",", ".");
    if ',' in t {
      var i := FirstIndexOfChar(t, ',');
      assert u == t[..i] + "." + t[i + 1..];
      forall k | 0 <= k < |u| ensures !IsJsSpace(u[k]) {
        if k < i {
          assert u[k] == t[k];
        } else if k > i {
          assert u[k] == t[k];
        }
      }
    }
    TrimSpaceless(u);
  }

  // ---------------------------------------------------------------------------
  // Number

  function Pow10(n: nat): (r: nat)
    ensures r >= 1
  {
    if n == 0 then 1 else 10 * Pow10(n - 1)
  }

  /** The characters that can occur in the text of a JavaScript numeric literal
      without white space: digits, signs, the point, exponents, the 0x/0o/0b prefixes,
      hexadecimal digits and the letters of "Infinity". */
  predicate IsNumericChar(c: char) {
    IsDigit(c) || c in "+-.eExXoObB" || ('a' <= c <= 'f') || ('A' <= c <= 'F') || c in "Infinity"
  }

  /** The unsigned part of a plain decimal literal: digits and at most one point, with
      at least one digit. */
  predicate IsUnsignedDecimal(b: string) {
    if '.' in b then
      var i := FirstIndexOfChar(b, '.');
      AllDigits(b[..i]) && AllDigits(b[i + 1..]) && |b| >= 2
    else
      b != [] && AllDigits(b)
  }

  predicate HasSign(s: string) {
    s != [] && (s[0] == '+' || s[0] == '-')
  }

  function Unsigned(s: string): string {
    if HasSign(s) then s[1..] else s
  }

  predicate IsDecimal(s: string) {
    IsUnsignedDecimal(Unsigned(s))
  }

  function UnsignedValue(b: string): real
    requires IsUnsignedDecimal(b)
  {
    if '.' in b then
      var i := FirstIndexOfChar(b, '.');
      DigitsValue(b[..i]) as real + DigitsValue(b[i + 1..]) as real / Pow10(|b| - i - 1) as real
    else DigitsValue(b) as real
  }

  function DecimalValue(s: string): real
    requires IsDecimal(s)
  {
    if s[0] == '-' then -UnsignedValue(Unsigned(s)) else UnsignedValue(Unsigned(s))
  }

  /** A plain decimal literal is made of numeric characters only. */
  lemma DecimalIsNumeric(s: string)
    requires IsDecimal(s)
    ensures forall k :: 0 <= k < |s| ==> IsNumericChar(s[k])
  {
    var b := Unsigned(s);
    forall k | 0 <= k < |b| ensures IsNumericChar(b[k]) {
      if '.' in b {
        var i := FirstIndexOfChar(b, '.');
        if k < i {
          assert b[..i][k] == b[k];
        } else if k > i {
          assert b[i + 1..][k - i - 1] == b[k];
        }
      }
    }
    forall k | 0 <= k < |s| ensures IsNumericChar(s[k]) {
      if HasSign(s) && k > 0 {
        assert s[k] == b[k - 1];
      }
    }
  }

  /** `Number(s)` for text without white space; `None` is NaN. */
  function Number(s: string, env: Env): Option<real> {
    if s == [] then Some(0.0)
    else if IsDecimal(s) then Some(DecimalValue(s))
    else if exists k :: 0 <= k < |s| && !IsNumericChar(s[k]) then None
    else env.toNumber(s)
  }

  /** `parseNorwegianAmount`. */
  function ParseNorwegianAmount(val: Val, env: Env): (r: real)
    ensures val.Undefined? || val == Defined(JNull) || val == Defined(JString("")) ==> r == 0.0
    ensures val.Defined? && val.value.JNumber? ==> r == val.value.n
  {
    if val.Undefined? || val == Defined(JNull) || val == Defined(JString("")) then 0.0
    else if val.value.JNumber? then val.value.n
    else
      match Number(Cleaned(JsonString(val.value, env)), env)
      case None => 0.0
      case Some(n) => n
  }

  /** What cannot be a number reads as 0: text whose cleaned form holds a character
      no numeric literal has, and text that cleans to nothing ("kr"). */
  lemma UnparseableIsZero(s: string, env: Env)
    requires s != ""
    requires Cleaned(s) == [] || exists k :: 0 <= k < |Cleaned(s)| && !IsNumericChar(Cleaned(s)[k])
    ensures ParseNorwegianAmount(Defined(JString(s)), env) == 0.0
  {
    if Cleaned(s) != [] && IsDecimal(Cleaned(s)) {
      DecimalIsNumeric(Cleaned(s));
    }
  }

  /** A plain decimal literal is read as its exact value: "0.5", "-12", "+3.25". */
  lemma DecimalLiteralIsRead(s: string, env: Env)
    requires IsDecimal(s)
    requires forall k :: 0 <= k < |s| ==> Fold(s[k]) != 'k' && Fold(s[k]) != 'n' && !IsJsSpace(s[k]) && s[k] != ','
    ensures ParseNorwegianAmount(Defined(JString(s)), env) == DecimalValue(s)
  {
    NoLabelLetters(s);
    SpacelessUnchanged(s);
    IndexOfChar(s, ',');
    TrimSpaceless(s);
  }

  /** Digits, spaces and commas hold neither currency label. */
  lemma AmountTextLabelFree(s: string)
    requires AmountText(s)
    ensures RemoveCurrency(s) == s
  {
    NoLabelLetters(s);
  }

  lemma {:induction false} RemoveSpacesAppend(a: string, b: string)
    ensures RemoveSpaces(a + b) == RemoveSpaces(a) + RemoveSpaces(b)
  {
    if a == [] {
      assert a + b == b;
    } else {
      assert (a + b)[1..] == a[1..] + b;
      RemoveSpacesAppend(a[1..], b);
    }
  }

  /** The first occurrence of a character after text without it is where it stands. */
  lemma FirstIndexAfter(p: string, c: char, q: string)
    requires c !in p
    ensures FirstIndexOfChar(p + [c] + q, c) == |p|
  {
    var s := p + [c] + q;
    var i := FirstIndexOfChar(s, c);
    assert s[|p|] == c;
  }

  /** `replace` with a one-character pattern acts at its first occurrence. */
  lemma ReplaceFirstChar(p: string, c: char, q: string, rep: string)
    requires c !in p
    ensures ReplaceFirst(p + [c] + q, [c], rep) == p + rep + q
  {
    var s := p + [c] + q;
    FirstIndexAfter(p, c, q);
    IndexOfChar(s, c);
    assert s[..|p|] == p && s[|p| + 1..] == q;
  }

  /** Digits, a point and digits form a plain decimal literal worth the integer part
      plus the fraction. */
  lemma PointDecimal(p: string, f: string)
    requires p != [] && AllDigits(p) && AllDigits(f)
    ensures IsDecimal(p + "." + f)
    ensures DecimalValue(p + "." + f) == DigitsValue(p) as real + DigitsValue(f) as real / Pow10(|f|) as real
  {
    PointSplit(p, f);
  }

  /** The point after digits is the first one, with the digits on either side of it. */
  lemma PointSplit(p: string, f: string)
    requires p != [] && AllDigits(p)
    ensures var b := p + "." + f;
      Unsigned(b) == b && b[0] != '-' && '.' in b && FirstIndexOfChar(b, '.') == |p|
      && b[..|p|] == p && b[|p| + 1..] == f
  {
    var b := p + "." + f;
    assert b[0] == p[0];
    FirstIndexAfter(p, '.', f);
  }

  /** Text that cleans to a plain decimal literal reads as that literal's value. */
  lemma CleanedDecimalIsRead(s: string, env: Env)
    requires s != "" && IsDecimal(Cleaned(s))
    ensures ParseNorwegianAmount(Defined(JString(s)), env) == DecimalValue(Cleaned(s))
  {
    assert JsonString(JString(s), env) == s;
    assert Number(Cleaned(s), env) == Some(DecimalValue(Cleaned(s)));
  }

  /** An amount grouped with a space and written with a decimal comma, with or without
      " kr" after it, reads as the number with the space dropped and a point for the
      comma. */
  lemma GroupedAmount(a: string, b: string, c: string, env: Env)
    requires a != [] && AllDigits(a) && AllDigits(b) && AllDigits(c)
    ensures Cleaned(a + " " + b + "," + c) == a + b + "." + c
    ensures Cleaned(a + " " + b + "," + c + " kr") == a + b + "." + c
    ensures ParseNorwegianAmount(Defined(JString(a + " " + b + "," + c)), env)
         == DigitsValue(a + b) as real + DigitsValue(c) as real / Pow10(|c|) as real
    ensures ParseNorwegianAmount(Defined(JString(a + " " + b + "," + c + " kr")), env)
         == DigitsValue(a + b) as real + DigitsValue(c) as real / Pow10(|c|) as real
  {
    var x := a + " " + b + "," + c;
    GroupedIsAmountText(a, b, c);
    CleanedKr(x);
    CleanedGrouped(a, b, c);
    DigitsConcat(a, b);
    PointDecimal(a + b, c);
    CleanedDecimalIsRead(x, env);
    CleanedDecimalIsRead(x + " kr", env);
  }

  lemma DigitsConcat(a: string, b: string)
    requires AllDigits(a) && AllDigits(b)
    ensures AllDigits(a + b)
  {
    assert forall k :: 0 <= k < |a + b| ==> (a + b)[k] == (if k < |a| then a[k] else b[k - |a|]);
  }

  /** Cleaning the grouped text leaves the digits with a point for the comma. */
  lemma CleanedGrouped(a: string, b: string, c: string)
    requires AllDigits(a) && AllDigits(b) && AllDigits(c)
    ensures Cleaned(a + " " + b + "," + c) == a + b + "." + c
  {
    var t := a + b;
    DigitsConcat(a, b);
    GroupedIsAmountText(a, b, c);
    AmountTextLabelFree(a + " " + b + "," + c);
    GroupedDespaced(a, b, c);
    assert ',' !in t;
    ReplaceFirstChar(t, ',', c, ".");
    SpacelessDecimal(t, c);
  }

  /** Digits, a point and digits hold no white space, so `trim()` keeps them. */
  lemma SpacelessDecimal(t: string, c: string)
    requires AllDigits(t) && AllDigits(c)
    ensures TrimJs(t + "." + c) == t + "." + c
  {
    var u := t + "." + c;
    assert forall k :: 0 <= k < |u| ==> u[k] == (if k < |t| then t[k] else if k == |t| then '.' else c[k - |t| - 1]);
    TrimSpaceless(u);
  }

  lemma GroupedIsAmountText(a: string, b: string, c: string)
    requires AllDigits(a) && AllDigits(b) && AllDigits(c)
    ensures AmountText(a + " " + b + "," + c)
  {
    var bc := b + "," + c;
    var x := a + " " + b + "," + c;
    assert x == a + (" " + bc);
    assert AmountText(bc) by {
      assert forall k :: 0 <= k < |bc| ==> bc[k] == (if k < |b| then b[k] else if k == |b| then ',' else c[k - |b| - 1]);
    }
    assert forall k :: 0 <= k < |x| ==> x[k] == (if k < |a| then a[k] else if k == |a| then ' ' else bc[k - |a| - 1]);
  }

  /** Removing the spaces of the grouped text drops its one space. */
  lemma GroupedDespaced(a: string, b: string, c: string)
    requires AllDigits(a) && AllDigits(b) && AllDigits(c)
    ensures RemoveSpaces(a + " " + b + "," + c) == a + b + [','] + c
  {
    var bc := b + "," + c;
    AppendAssoc(a + " ", b, ",");
    AppendAssoc(a + " ", b + ",", c);
    AppendAssoc(a, " ", bc);
    RemoveSpacesAppend(a, " " + bc);
    SpacelessUnchanged(a);
    assert (" " + bc)[1..] == bc;
    Spaceless2(b, c);
    AppendAssoc(a, b + ",", c);
    AppendAssoc(a, b, ",");
  }

  lemma Spaceless2(b: string, c: string)
    requires AllDigits(b) && AllDigits(c)
    ensures RemoveSpaces(b + "," + c) == b + "," + c
  {
    var bc := b + "," + c;
    assert forall k :: 0 <= k < |bc| ==> bc[k] == (if k < |b| then b[k] else if k == |b| then ',' else c[k - |b| - 1]);
    SpacelessUnchanged(bc);
  }

  /** Text made of digits, spaces and commas. */
  predicate AmountText(x: string) {
    forall k :: 0 <= k < |x| ==> IsDigit(x[k]) || x[k] == ' ' || x[k] == ','
  }

  /** A trailing " kr" after label-free text is removed together with the space. */
  lemma CleanedKr(x: string)
    requires AmountText(x)
    ensures Cleaned(x + " kr") == Cleaned(x)
  {
    var y := x + " ";
    assert RemoveCurrency(x + " kr") == y by {
      forall i | 0 <= i < |y| ensures !KrAt((y + "kr")[i..]) && !NokAt((y + "kr")[i..]) {
        assert (y + "kr")[i..][0] == y[i];
      }
      LabelFreePrefix(y, "kr");
      assert RemoveCurrency("kr") == "" by {
        assert "kr"[2..] == [];
      }
      assert y + "kr" == x + " kr";
    }
    assert RemoveSpaces(y) == RemoveSpaces(RemoveCurrency(x)) by {
      AmountTextLabelFree(x);
      RemoveSpacesAppend(x, " ");
      assert RemoveSpaces(" ") == [] by {
        assert " "[1..] == [];
      }
    }
  }

}
