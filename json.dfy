/** Parsed JSON values, and the few JavaScript semantics the scraper's code applies
    to them: property reads, truthiness, `Array.isArray` and `String(...)`.

    An object is the sequence of its members in iteration order, so that the order
    in which the field finders visit them is explicit. */
module Json {
  import opened Strings

  datatype Json =
    | JNull
    | JBool(b: bool)
    | JNumber(n: real)
    | JString(s: string)
    | JArray(items: seq<Json>)
    | JObject(members: seq<(string, Json)>)

  /** A JavaScript value read out of parsed JSON: a missing property reads as `undefined`. */
  datatype Val = Undefined | Defined(value: Json)

  /** The value stored under `key` among `members` (the first member with that key). */
  function Lookup(members: seq<(string, Json)>, key: string): (r: Val)
    ensures r.Defined? ==> (key, r.value) in members
    ensures r.Undefined? ==> forall k :: 0 <= k < |members| ==> members[k].0 != key
  {
    if members == [] then Undefined
    else if members[0].0 == key then Defined(members[0].1)
    else Lookup(members[1..], key)
  }

  /** Reading `v[key]` throws a TypeError exactly when `v` is null or undefined. */
  predicate ReadThrows(v: Val) {
    v.Undefined? || v.value.JNull?
  }

  /** `v[key]` for a value that is neither null nor undefined: only objects have the
      properties the scraper reads; on numbers, strings, booleans and arrays they are undefined. */
  function Prop(v: Val, key: string): Val
    requires !ReadThrows(v)
  {
    match v.value
    case JObject(ms) => Lookup(ms, key)
    case _ => Undefined
  }

  /** JavaScript truthiness. */
  predicate Truthy(v: Val) {
    match v
    case Undefined => false
    case Defined(j) =>
      match j
      case JNull => false
      case JBool(b) => b
      case JNumber(n) => n != 0.0
      case JString(s) => s != ""
      case _ => true
  }

  /** `Array.isArray(v)`. */
  predicate IsArray(v: Val) {
    v.Defined? && v.value.JArray?
  }

  /** The number-valued primitives of the JavaScript runtime that the model does not
      define itself: `parseFloat`, `Number(...)` on a string and number-to-string
      conversion. `None` stands for NaN. */
  datatype Env = Env(
    parseFloat: string -> Option<real>,
    toNumber: string -> Option<real>,
    numberToString: real -> string)

  /** `String(v)`: arrays join their elements with "," (null elements becoming ""),
      objects print as "[object Object]". */
  function JsString(v: Val, env: Env): string {
    match v
    case Undefined => "undefined"
    case Defined(j) => JsonString(j, env)
  }

  function JsonString(j: Json, env: Env): string
    decreases j, 1
  {
    match j
    case JNull => "null"
    case JBool(b) => if b then "true" else "false"
    case JNumber(n) => env.numberToString(n)
    case JString(s) => s
    case JArray(items) => ItemsString(items, env)
    case JObject(_) => "[object Object]"
  }

  function ItemsString(items: seq<Json>, env: Env): string
    decreases items, 0
  {
    if items == [] then ""
    else
      var last := items[|items| - 1];
      var text := if last.JNull? then "" else JsonString(last, env);
      if |items| == 1 then text else ItemsString(items[..|items| - 1], env) + "," + text
  }

  /** Every member (key, value) of every object in `j`, in pre-order: a member comes
      before the members nested inside its value, objects in member order, arrays in
      index order. This is the independent reference for both field finders. */
  function Members(j: Json): seq<(string, Json)>
    decreases j
  {
    match j
    case JObject(ms) => MembersOfPairs(ms)
    case JArray(items) => MembersOfItems(items)
    case _ => []
  }

  function MembersOfPairs(ms: seq<(string, Json)>): seq<(string, Json)>
    decreases ms
  {
    if ms == [] then []
    else
      var p := ms[|ms| - 1];
      assert p.1 < p;
      MembersOfPairs(ms[..|ms| - 1]) + [p] + Members(p.1)
  }

  function MembersOfItems(items: seq<Json>): seq<(string, Json)>
    decreases items
  {
    if items == [] then [] else MembersOfItems(items[..|items| - 1]) + Members(items[|items| - 1])
  }

  /** The values of the members in `ps` whose key is `key`, in order. */
  function Select(ps: seq<(string, Json)>, key: string): (r: seq<Json>)
    ensures |r| <= |ps|
  {
    if ps == [] then []
    else Select(ps[..|ps| - 1], key) + (if ps[|ps| - 1].0 == key then [ps[|ps| - 1].1] else [])
  }

  /** The strings among `vs`, in order. */
  function StringsOf(vs: seq<Json>): (r: seq<string>)
    ensures |r| <= |vs|
  {
    if vs == [] then []
    else StringsOf(vs[..|vs| - 1]) + (if vs[|vs| - 1].JString? then [vs[|vs| - 1].s] else [])
  }

  lemma {:induction false} SelectAppend(a: seq<(string, Json)>, b: seq<(string, Json)>, key: string)
    ensures Select(a + b, key) == Select(a, key) + Select(b, key)
    decreases |b|
  {
    if b != [] {
      assert (a + b)[..|a + b| - 1] == a + b[..|b| - 1];
      SelectAppend(a, b[..|b| - 1], key);
    } else {
      assert a + b == a;
    }
  }

  lemma {:induction false} StringsOfAppend(a: seq<Json>, b: seq<Json>)
    ensures StringsOf(a + b) == StringsOf(a) + StringsOf(b)
    decreases |b|
  {
    if b != [] {
      assert (a + b)[..|a + b| - 1] == a + b[..|b| - 1];
      StringsOfAppend(a, b[..|b| - 1]);
    } else {
      assert a + b == a;
    }
  }

  /** Decoding of a file's (already trimmed) text: the text is parsed, and when the
      root is a string, that string is parsed once more. `parse` is the JSON parser,
      `None` standing for a syntax error. */
  function UnwrapOnce(parse: string -> Option<Json>, text: string): (r: Option<Json>)
    ensures parse(text).None? ==> r.None?
    ensures parse(text).Some? && !parse(text).value.JString? ==> r == parse(text)
    ensures parse(text).Some? && parse(text).value.JString? ==> r == parse(parse(text).value.s)
  {
    match parse(text)
    case None => None
    case Some(j) => if j.JString? then parse(j.s) else Some(j)
  }

  /** The unwrapping happens exactly once: a doubly string-encoded document decodes to a string. */
  lemma UnwrapNeverTwice(parse: string -> Option<Json>, text: string, inner: string, innermost: string)
    requires parse(text) == Some(JString(inner)) && parse(inner) == Some(JString(innermost))
    ensures UnwrapOnce(parse, text) == Some(JString(innermost))
  {
  }
}
