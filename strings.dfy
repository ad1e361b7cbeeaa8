/** Character and string primitives of the JavaScript and Python runtimes that the
    scraper's code relies on: first-occurrence search, suffix tests, trimming,
    lower-casing, splitting and joining. */
module Strings {

  datatype Option<+T> = None | Some(value: T)

  /** The outcome of an operation that may throw an `Error` with a message. */
  datatype Result<+T> = Ok(value: T) | Err(message: string)

  /** No element occurs twice. */
  predicate Distinct<T(==)>(s: seq<T>) {
    forall i, j :: 0 <= i < j < |s| ==> s[i] != s[j]
  }

  /** `pat` occurs in `s` starting at index `i`. */
  predicate OccursAt(s: string, pat: string, i: nat) {
    i + |pat| <= |s| && s[i..i + |pat|] == pat
  }

  /** `s.includes(pat)` / Python `pat in s`. */
  predicate Contains(s: string, pat: string) {
    exists i: nat :: i <= |s| && OccursAt(s, pat, i)
  }

  /** `s.endsWith(suffix)`. */
  predicate EndsWith(s: string, suffix: string) {
    |suffix| <= |s| && s[|s| - |suffix|..] == suffix
  }

  /** Index of the first occurrence of `pat` in `s` at or after `from`
      (`IndexFromIsFirst`). */
  function IndexFrom(s: string, pat: string, from: nat): (r: Option<nat>)
    decreases |s| - from
    ensures r.Some? ==> from <= r.value && OccursAt(s, pat, r.value)
  {
    if from + |pat| > |s| then None
    else if s[from..from + |pat|] == pat then Some(from)
    else IndexFrom(s, pat, from + 1)
  }

  /** No occurrence at or after `from` is skipped. */
  lemma {:induction false} IndexFromIsFirst(s: string, pat: string, from: nat)
    decreases |s| - from
    ensures IndexFrom(s, pat, from).Some? ==> forall k: nat :: from <= k < IndexFrom(s, pat, from).value ==> !OccursAt(s, pat, k)
    ensures IndexFrom(s, pat, from).None? ==> forall k: nat :: from <= k ==> !OccursAt(s, pat, k)
  {
    if from + |pat| <= |s| && s[from..from + |pat|] != pat {
      IndexFromIsFirst(s, pat, from + 1);
    }
  }

  /** `s.indexOf(pat)`, with `None` for -1 (`IndexOfIsFirst`). */
  function IndexOf(s: string, pat: string): (r: Option<nat>)
    ensures r.Some? ==> OccursAt(s, pat, r.value)
  {
    IndexFrom(s, pat, 0)
  }

  /** `indexOf` finds an occurrence exactly when there is one, and the first one. */
  lemma IndexOfIsFirst(s: string, pat: string)
    ensures IndexOf(s, pat).Some? <==> Contains(s, pat)
    ensures IndexOf(s, pat).Some? ==> forall k: nat :: k < IndexOf(s, pat).value ==> !OccursAt(s, pat, k)
  {
    IndexFromIsFirst(s, pat, 0);
    var r := IndexOf(s, pat);
    if r.Some? {
      assert r.value <= |s| && OccursAt(s, pat, r.value);
    }
  }

  /** `s.replace(pat, rep)` with a string pattern: only the first occurrence is replaced. */
  function ReplaceFirst(s: string, pat: string, rep: string): (r: string)
    ensures !Contains(s, pat) ==> r == s
    ensures IndexOf(s, pat).Some? ==>
      var i := IndexOf(s, pat).value; r == s[..i] + rep + s[i + |pat|..]
  {
    IndexOfIsFirst(s, pat);
    match IndexOf(s, pat)
    case None => s
    case Some(i) => s[..i] + rep + s[i + |pat|..]
  }

  /** `s.substring(a, b)` for non-negative indices: both are clamped to the length and
      swapped when `a > b`. */
  function Substring(s: string, a: nat, b: nat): (r: string)
    ensures a <= b <= |s| ==> r == s[a..b]
    ensures |r| <= |s|
  {
    var lo := if a < b then a else b;
    var hi := if a < b then b else a;
    var lo' := if lo < |s| then lo else |s|;
    var hi' := if hi < |s| then hi else |s|;
    s[lo'..hi']
  }

  /** ECMAScript white space and line terminators: the set `\s` matches and `trim()` removes. */
  predicate IsJsSpace(c: char) {
    c == '\t' || c == '\n' || c == '\U{000B}' || c == '\U{000C}' || c == '\r' || c == ' ' ||
    c == '\U{00A0}' || c == '\U{1680}' || ('\U{2000}' <= c <= '\U{200A}') || c == '\U{2028}' ||
    c == '\U{2029}' || c == '\U{202F}' || c == '\U{205F}' || c == '\U{3000}' || c == '\U{FEFF}'
  }

  /** Characters for which Python's `str.isspace()` holds: the set `str.strip()` removes. */
  predicate IsPySpace(c: char) {
    ('\t' <= c <= '\r') || ('\U{001C}' <= c <= '\U{001F}') || c == ' ' || c == '\U{0085}' ||
    c == '\U{00A0}' || c == '\U{1680}' || ('\U{2000}' <= c <= '\U{200A}') || c == '\U{2028}' ||
    c == '\U{2029}' || c == '\U{202F}' || c == '\U{205F}' || c == '\U{3000}'
  }

  /** `s` without its leading characters that satisfy `ws`. */
  function TrimStart(s: string, ws: char -> bool): string {
    if s != [] && ws(s[0]) then TrimStart(s[1..], ws) else s
  }

  /** `s` without its trailing characters that satisfy `ws`. */
  function TrimEnd(s: string, ws: char -> bool): string {
    if s != [] && ws(s[|s| - 1]) then TrimEnd(s[..|s| - 1], ws) else s
  }

  function Trim(s: string, ws: char -> bool): string {
    TrimEnd(TrimStart(s, ws), ws)
  }

  /** JavaScript `s.trim()`. */
  function TrimJs(s: string): string {
    Trim(s, IsJsSpace)
  }

  /** Python `s.strip()`. */
  function StripPy(s: string): string {
    Trim(s, IsPySpace)
  }

  /** What `TrimStart` keeps is a suffix of `s` that starts with a kept character. */
  lemma {:induction false} TrimStartIsSuffix(s: string, ws: char -> bool)
    ensures |TrimStart(s, ws)| <= |s| && TrimStart(s, ws) == s[|s| - |TrimStart(s, ws)|..]
    ensures TrimStart(s, ws) == [] || !ws(TrimStart(s, ws)[0])
  {
    if s != [] && ws(s[0]) {
      TrimStartIsSuffix(s[1..], ws);
    }
  }

  /** What `TrimStart` removes is made of `ws` characters. */
  lemma {:induction false} TrimStartDropsOnlyWs(s: string, ws: char -> bool)
    ensures forall k :: 0 <= k < |s| - |TrimStart(s, ws)| ==> ws(s[k])
  {
    if s != [] && ws(s[0]) {
      var t := s[1..];
      TrimStartDropsOnlyWs(t, ws);
      forall k | 0 <= k < |s| - |TrimStart(s, ws)| ensures ws(s[k]) {
        if k > 0 {
          assert s[k] == t[k - 1];
        }
      }
    }
  }

  /** `TrimStart` removes a prefix made of `ws` characters, and stops at the first other one. */
  lemma TrimStartRemovesPrefix(s: string, ws: char -> bool)
    ensures var r := TrimStart(s, ws);
      |r| <= |s| && r == s[|s| - |r|..] && (r == [] || !ws(r[0])) &&
      forall k :: 0 <= k < |s| - |r| ==> ws(s[k])
  {
    TrimStartIsSuffix(s, ws);
    TrimStartDropsOnlyWs(s, ws);
  }

  /** `TrimEnd` removes a suffix made of `ws` characters, and stops at the last other one. */
  lemma {:induction false} TrimEndRemovesSuffix(s: string, ws: char -> bool)
    ensures var r := TrimEnd(s, ws);
      r <= s && (r == [] || !ws(r[|r| - 1])) && forall k :: |r| <= k < |s| ==> ws(s[k])
  {
    if s != [] && ws(s[|s| - 1]) {
      TrimEndRemovesSuffix(s[..|s| - 1], ws);
    }
  }

  /** The trimmed string is a factor of `s` starting and ending with a kept character. */
  lemma TrimBounds(s: string, ws: char -> bool)
    ensures var r := Trim(s, ws); |r| <= |s| && (r == [] || (!ws(r[0]) && !ws(r[|r| - 1])))
  {
    var t := TrimStart(s, ws);
    TrimStartRemovesPrefix(s, ws);
    TrimEndRemovesSuffix(t, ws);
  }

  lemma {:induction false} TrimIdempotent(s: string, ws: char -> bool)
    ensures Trim(Trim(s, ws), ws) == Trim(s, ws)
  {
    var t := Trim(s, ws);
    TrimBounds(s, ws);
    assert TrimStart(t, ws) == t;
    assert TrimEnd(t, ws) == t;
  }

  /** JavaScript `toLowerCase` on ASCII and on the Latin-1 capitals (which include Æ, Ø and Å). */
  function LowerChar(c: char): (r: char)
    ensures r == c || r as int == c as int + 32
  {
    if 'A' <= c <= 'Z' then (c as int + 32) as char
    else if '\U{00C0}' <= c <= '\U{00DE}' && c != '\U{00D7}' then (c as int + 32) as char
    else c
  }

  function ToLower(s: string): (r: string)
    ensures |r| == |s|
    ensures forall k :: 0 <= k < |s| ==> r[k] == LowerChar(s[k])
  {
    if s == [] then [] else [LowerChar(s[0])] + ToLower(s[1..])
  }

  lemma LowerCharIdempotent(c: char)
    ensures LowerChar(LowerChar(c)) == LowerChar(c)
  {
  }

  lemma ToLowerIdempotent(s: string)
    ensures ToLower(ToLower(s)) == ToLower(s)
  {
    var l := ToLower(s);
    forall k | 0 <= k < |s| ensures ToLower(l)[k] == l[k] {
      LowerCharIdempotent(s[k]);
    }
  }

  /** `parts.join(sep)`. */
  function Join(parts: seq<string>, sep: string): string {
    if parts == [] then ""
    else if |parts| == 1 then parts[0]
    else Join(parts[..|parts| - 1], sep) + sep + parts[|parts| - 1]
  }

  /** `s.split(sep)` for a one-character separator. */
  function Split(s: string, sep: char): (r: seq<string>)
    ensures |r| >= 1
    ensures forall k :: 0 <= k < |r| ==> sep !in r[k]
  {
    if sep !in s then [s]
    else
      var i := FirstIndexOfChar(s, sep);
      [s[..i]] + Split(s[i + 1..], sep)
  }

  /** Splitting at the first separator: the part before it comes first. */
  lemma SplitAtFirst(a: string, b: string, sep: char)
    requires sep !in a
    ensures Split(a + [sep] + b, sep) == [a] + Split(b, sep)
  {
    var s := a + [sep] + b;
    assert s[|a|] == sep;
    var i := FirstIndexOfChar(s, sep);
    assert s[..i] == a && s[i + 1..] == b;
  }

  function FirstIndexOfChar(s: string, c: char): (i: nat)
    requires c in s
    ensures i < |s| && s[i] == c && c !in s[..i]
  {
    if s[0] == c then 0 else 1 + FirstIndexOfChar(s[1..], c)
  }

  /** Decimal digits '0'..'9' (the class `\d` of a JavaScript regular expression). */
  predicate IsDigit(c: char) {
    '0' <= c <= '9'
  }

  predicate AllDigits(s: string) {
    forall k :: 0 <= k < |s| ==> IsDigit(s[k])
  }

  /** Value of a string of decimal digits. */
  function DigitsValue(s: string): nat
    requires AllDigits(s)
  {
    if s == [] then 0 else 10 * DigitsValue(s[..|s| - 1]) + (s[|s| - 1] - '0') as nat
  }

  /** A string is contained in anything built around it. */
  lemma InfixContained(a: string, b: string, c: string)
    ensures Contains(a + b + c, b)
  {
    assert (a + b + c)[|a|..|a| + |b|] == b;
    assert OccursAt(a + b + c, b, |a|);
  }

  /** A string ends with whatever was appended last. */
  lemma EndsWithConcat(a: string, b: string)
    ensures EndsWith(a + b, b)
  {
    assert (a + b)[|a + b| - |b|..] == b;
  }

  /** Concatenation regrouped, for proofs where the solver would rather not. */
  lemma AppendAssoc<T>(a: seq<T>, b: seq<T>, c: seq<T>)
    ensures a + b + c == a + (b + c)
  {
  }
}
