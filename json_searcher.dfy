/** The JavaScript field finder of `src/json-searcher.mjs`: `findField` collects every
    value, of any type, stored under a given key, and keeps searching inside the values it
    collected; `extractFieldFromJsonFiles` splices array-valued hits one level deep. */
module JsonSearcher {
  import opened Strings
  import opened Json
  import FieldFinder

  /** The values `findField` pushes for `j`, in order: for each object member, the value
      itself when its key is `field`, followed by the hits inside that value. */
  function JsFound(j: Json, field: string): seq<Json>
    decreases j
  {
    match j
    case JObject(ms) => JsFoundInMembers(ms, field)
    case JArray(items) => JsFoundInItems(items, field)
    case _ => []
  }

  function JsFoundInMembers(ms: seq<(string, Json)>, field: string): seq<Json>
    decreases ms
  {
    if ms == [] then []
    else
      var p := ms[|ms| - 1];
      assert p.1 < p;
      JsFoundInMembers(ms[..|ms| - 1], field) + (if p.0 == field then [p.1] else []) + JsFound(p.1, field)
  }

  function JsFoundInItems(items: seq<Json>, field: string): seq<Json>
    decreases items
  {
    if items == [] then [] else JsFoundInItems(items[..|items| - 1], field) + JsFound(items[|items| - 1], field)
  }

  /** `findField(obj, fieldName, results)`, the accumulator defaulting to a fresh array:
      the returned array is the accumulator extended by the hits in `obj`, in order. */
  method FindField(obj: Json, fieldName: string, results: Option<seq<Json>>) returns (out: seq<Json>)
    ensures out == (if results.None? then [] else results.value) + JsFound(obj, fieldName)
    decreases obj, 1
  {
    out := if results.None? then [] else results.value;
    match obj
    case JArray(items) =>
      out := FindInItems(obj, items, fieldName, out);
    case JObject(ms) =>
      out := FindInMembers(obj, ms, fieldName, out);
    case _ =>
  }

  /** The `for` loop of `findField` over an array's elements. */
  method FindInItems(ghost parent: Json, items: seq<Json>, fieldName: string, results: seq<Json>)
    returns (out: seq<Json>)
    requires parent == JArray(items)
    ensures out == results + JsFoundInItems(items, fieldName)
    decreases parent, 0
  {
    out := results;
    var i := 0;
    while i < |items|
      invariant 0 <= i <= |items|
      invariant out == results + JsFoundInItems(items[..i], fieldName)
    {
      JsFoundInItemsStep(items, i, fieldName);
      AppendAssoc(results, JsFoundInItems(items[..i], fieldName), JsFound(items[i], fieldName));
      out := FindField(items[i], fieldName, Some(out));
      i := i + 1;
    }
    assert items[..i] == items;
  }

  /** The `for ... in` loop of `findField` over an object's members: a matching key
      pushes its value, and every value is searched. */
  method FindInMembers(ghost parent: Json, ms: seq<(string, Json)>, fieldName: string, results: seq<Json>)
    returns (out: seq<Json>)
    requires parent == JObject(ms)
    ensures out == results + JsFoundInMembers(ms, fieldName)
    decreases parent, 0
  {
    out := results;
    var i := 0;
    while i < |ms|
      invariant 0 <= i <= |ms|
      invariant out == results + JsFoundInMembers(ms[..i], fieldName)
    {
      var key, value := ms[i].0, ms[i].1;
      assert value < parent by { assert ms[i].1 < ms[i]; }
      JsFoundInMembersStep(ms, i, fieldName);
      var own := if key == fieldName then [value] else [];
      AppendAssoc(results, JsFoundInMembers(ms[..i], fieldName), own);
      AppendAssoc(results, JsFoundInMembers(ms[..i], fieldName) + own, JsFound(value, fieldName));
      if key == fieldName {
        out := out + [value];
      }
      out := FindField(value, fieldName, Some(out));
      i := i + 1;
    }
    assert ms[..i] == ms;
  }

  lemma JsFoundInMembersStep(ms: seq<(string, Json)>, i: nat, field: string)
    requires i < |ms|
    ensures JsFoundInMembers(ms[..i + 1], field) == JsFoundInMembers(ms[..i], field) +
      (if ms[i].0 == field then [ms[i].1] else []) + JsFound(ms[i].1, field)
  {
    assert ms[..i + 1][..i] == ms[..i];
  }

  lemma JsFoundInItemsStep(items: seq<Json>, i: nat, field: string)
    requires i < |items|
    ensures JsFoundInItems(items[..i + 1], field) == JsFoundInItems(items[..i], field) + JsFound(items[i], field)
  {
    assert items[..i + 1][..i] == items[..i];
  }

  /** Against the pre-order list of all members: `findField` returns exactly the values
      of the members whose key is `field`, in pre-order, so a hit nested inside a hit
      comes right after it. */
  lemma {:induction false} JsFoundIsValuesUnderKey(j: Json, field: string)
    ensures JsFound(j, field) == Select(Members(j), field)
    decreases j
  {
    match j
    case JObject(ms) => JsFoundInMembersIsValuesUnderKey(ms, field);
    case JArray(items) => JsFoundInItemsIsValuesUnderKey(items, field);
    case _ =>
  }

  lemma {:induction false} JsFoundInMembersIsValuesUnderKey(ms: seq<(string, Json)>, field: string)
    ensures JsFoundInMembers(ms, field) == Select(MembersOfPairs(ms), field)
    decreases ms
  {
    if ms != [] {
      var front := ms[..|ms| - 1];
      var p := ms[|ms| - 1];
      assert p.1 < p;
      JsFoundInMembersIsValuesUnderKey(front, field);
      JsFoundIsValuesUnderKey(p.1, field);
      SelectAppend(MembersOfPairs(front) + [p], Members(p.1), field);
      SelectAppend(MembersOfPairs(front), [p], field);
      assert Select([p], field) == Select([], field) + (if p.0 == field then [p.1] else []);
    }
  }

  lemma {:induction false} JsFoundInItemsIsValuesUnderKey(items: seq<Json>, field: string)
    ensures JsFoundInItems(items, field) == Select(MembersOfItems(items), field)
    decreases items
  {
    if items != [] {
      var front := items[..|items| - 1];
      JsFoundInItemsIsValuesUnderKey(front, field);
      JsFoundIsValuesUnderKey(items[|items| - 1], field);
      SelectAppend(MembersOfItems(front), Members(items[|items| - 1]), field);
    }
  }

  /** How the two finders differ: the Python finder's hits are exactly the strings among
      the JavaScript finder's hits, in the same order. */
  lemma PythonHitsAreStringHits(j: Json, field: string)
    ensures FieldFinder.Found(j, field) == StringsOf(JsFound(j, field))
  {
    FieldFinder.FoundIsStringsUnderKey(j, field);
    JsFoundIsValuesUnderKey(j, field);
  }

  /** The values appended for a list of hits: an array hit contributes its elements, any
      other hit itself. */
  function Flatten(vs: seq<Json>): seq<Json> {
    if vs == [] then []
    else
      var v := vs[|vs| - 1];
      Flatten(vs[..|vs| - 1]) + (if v.JArray? then v.items else [v])
  }

  lemma {:induction false} FlattenAppend(a: seq<Json>, b: seq<Json>)
    ensures Flatten(a + b) == Flatten(a) + Flatten(b)
    decreases |b|
  {
    if b == [] {
      assert a + b == a;
    } else {
      var init, v := b[..|b| - 1], b[|b| - 1];
      var tail := if v.JArray? then v.items else [v];
      assert (a + b)[..|a + b| - 1] == a + init;
      assert Flatten(a + b) == Flatten(a + init) + tail;
      assert Flatten(b) == Flatten(init) + tail;
      FlattenAppend(a, init);
      AppendAssoc(Flatten(a), Flatten(init), tail);
    }
  }

  /** Hits that are not arrays are kept as they are, in order. */
  lemma {:induction false} FlattenWithoutArrays(vs: seq<Json>)
    requires forall k :: 0 <= k < |vs| ==> !vs[k].JArray?
    ensures Flatten(vs) == vs
  {
    if vs != [] {
      FlattenWithoutArrays(vs[..|vs| - 1]);
      assert vs[..|vs| - 1] + [vs[|vs| - 1]] == vs;
    }
  }

  /** Splicing goes one level deep only: an array hit holding an array contributes that
      inner array as one value. */
  lemma FlattenOneLevel(inner: seq<Json>)
    ensures Flatten([JArray([JArray(inner)])]) == [JArray(inner)]
  {
    assert [JArray([JArray(inner)])][..0] == [];
  }

  /** An entry of the scanned directory's listing: its name and its text, `None` when it
      cannot be read (a sub-directory, say). */
  datatype DirEntry = DirEntry(name: string, content: Option<string>)

  /** The entries whose name ends in ".json", in listing order (`JsonFilesFilter`). */
  function JsonFiles(entries: seq<DirEntry>): (r: seq<DirEntry>)
    ensures |r| <= |entries|
  {
    if entries == [] then []
    else
      var e := entries[|entries| - 1];
      JsonFiles(entries[..|entries| - 1]) + (if EndsWith(e.name, ".json") then [e] else [])
  }

  /** Only entries named "*.json" are read, and all of them are. */
  lemma {:induction false} JsonFilesFilter(entries: seq<DirEntry>)
    ensures forall k :: 0 <= k < |JsonFiles(entries)| ==>
      EndsWith(JsonFiles(entries)[k].name, ".json") && JsonFiles(entries)[k] in entries
    ensures forall e :: e in entries && EndsWith(e.name, ".json") ==> e in JsonFiles(entries)
  {
    if entries != [] {
      var front := entries[..|entries| - 1];
      var e := entries[|entries| - 1];
      JsonFilesFilter(front);
      assert entries == front + [e];
    }
  }

  /** The hits in one file; a file that cannot be read or parsed contributes none. */
  function FileValues(e: DirEntry, field: string, parse: string -> Option<Json>): seq<Json> {
    match e.content
    case None => []
    case Some(text) =>
      match UnwrapOnce(parse, TrimJs(text))
      case None => []
      case Some(data) => JsFound(data, field)
  }

  /** All values gathered from `files`: each file's hits, flattened, file after file. */
  function Gathered(files: seq<DirEntry>, field: string, parse: string -> Option<Json>): seq<Json> {
    if files == [] then []
    else Gathered(files[..|files| - 1], field, parse) + Flatten(FileValues(files[|files| - 1], field, parse))
  }

  /** `extractFieldFromJsonFiles(fieldName, directory)`, with the directory given as its
      top-level listing (`None` when it does not exist). */
  method ExtractFieldFromJsonFiles(fieldName: string, directory: Option<seq<DirEntry>>, parse: string -> Option<Json>)
    returns (allValues: seq<Json>)
    ensures directory.None? ==> allValues == []
    ensures directory.Some? ==> allValues == Gathered(JsonFiles(directory.value), fieldName, parse)
  {
    allValues := [];
    if directory.None? {
      return;
    }
    var jsonFiles := JsonFiles(directory.value);
    var i := 0;
    assert jsonFiles[..0] == [];
    while i < |jsonFiles|
      invariant 0 <= i <= |jsonFiles|
      invariant allValues == Gathered(jsonFiles[..i], fieldName, parse)
    {
      var fieldValues: seq<Json> := [];
      var content := jsonFiles[i].content;
      if content.Some? {
        var data := UnwrapOnce(parse, TrimJs(content.value));
        if data.Some? {
          fieldValues := FindField(data.value, fieldName, None);
        }
      }
      assert fieldValues == FileValues(jsonFiles[i], fieldName, parse);
      ghost var before := allValues;
      var k := 0;
      assert fieldValues[..0] == [] && before + [] == before;
      while k < |fieldValues|
        invariant 0 <= k <= |fieldValues|
        invariant allValues == before + Flatten(fieldValues[..k])
      {
        var value := fieldValues[k];
        var added := if value.JArray? then value.items else [value];
        FlattenStep(fieldValues, k);
        AppendAssoc(before, Flatten(fieldValues[..k]), added);
        allValues := allValues + added;
        assert allValues == before + Flatten(fieldValues[..k + 1]);
        k := k + 1;
      }
      assert fieldValues[..k] == fieldValues;
      GatheredStep(jsonFiles, i, fieldName, parse);
      assert allValues == Gathered(jsonFiles[..i + 1], fieldName, parse);
      i := i + 1;
    }
    assert jsonFiles[..i] == jsonFiles;
  }

  lemma FlattenStep(vs: seq<Json>, k: nat)
    requires k < |vs|
    ensures Flatten(vs[..k + 1]) == Flatten(vs[..k]) + (if vs[k].JArray? then vs[k].items else [vs[k]])
  {
    assert vs[..k + 1][..k] == vs[..k];
  }

  lemma GatheredStep(files: seq<DirEntry>, i: nat, field: string, parse: string -> Option<Json>)
    requires i < |files|
    ensures Gathered(files[..i + 1], field, parse) == Gathered(files[..i], field, parse) + Flatten(FileValues(files[i], field, parse))
  {
    assert files[..i + 1][..i] == files[..i];
  }

  /** Files contribute independently: what one file yields, or fails to yield, leaves
      the values gathered from the other files unchanged. */
  lemma {:induction false} GatheredAppend(a: seq<DirEntry>, b: seq<DirEntry>, field: string, parse: string -> Option<Json>)
    ensures Gathered(a + b, field, parse) == Gathered(a, field, parse) + Gathered(b, field, parse)
    decreases |b|
  {
    if b == [] {
      assert a + b == a;
    } else {
      var last := b[|b| - 1];
      var init := b[..|b| - 1];
      var tail := Flatten(FileValues(last, field, parse));
      assert (a + b)[..|a + b| - 1] == a + init;
      assert Gathered(a + b, field, parse) == Gathered(a + init, field, parse) + tail;
      assert Gathered(b, field, parse) == Gathered(init, field, parse) + tail;
      GatheredAppend(a, init, field, parse);
      AppendAssoc(Gathered(a, field, parse), Gathered(init, field, parse), tail);
    }
  }

  /** An entry not ending in ".json" is never read. */
  lemma NonJsonEntryIgnored(entries: seq<DirEntry>, e: DirEntry)
    requires !EndsWith(e.name, ".json")
    ensures JsonFiles(entries + [e]) == JsonFiles(entries)
  {
    assert (entries + [e])[..|entries|] == entries;
  }
}
