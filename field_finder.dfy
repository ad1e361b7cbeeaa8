/** The field finder of `test.py`: `find_field` collects every string stored under a
    given key anywhere in a JSON tree, and `extract_field_from_json_files` runs it over
    the JSON files of a directory, keeping one record per file that had a hit. */
module FieldFinder {
  import opened Strings
  import opened Json

  /** The strings `find_field` collects from `j`, in traversal order: an object member
      whose key is `field` and whose value is a string contributes that string; any other
      member is searched recursively; arrays are searched element by element. */
  function Found(j: Json, field: string): seq<string>
    decreases j
  {
    match j
    case JObject(ms) => FoundInMembers(ms, field)
    case JArray(items) => FoundInItems(items, field)
    case _ => []
  }

  function FoundInMembers(ms: seq<(string, Json)>, field: string): seq<string>
    decreases ms
  {
    if ms == [] then []
    else
      var p := ms[|ms| - 1];
      assert p.1 < p;
      FoundInMembers(ms[..|ms| - 1], field) +
        (if p.0 == field && p.1.JString? then [p.1.s] else Found(p.1, field))
  }

  function FoundInItems(items: seq<Json>, field: string): seq<string>
    decreases items
  {
    if items == [] then [] else FoundInItems(items[..|items| - 1], field) + Found(items[|items| - 1], field)
  }

  /** `find_field(obj, field_name, results)`: the list it returns is `results` (a fresh
      list when `None` is passed) extended by the hits in `obj`, in traversal order. */
  method FindField(obj: Json, fieldName: string, results: Option<seq<string>>) returns (out: seq<string>)
    ensures out == (if results.None? then [] else results.value) + Found(obj, fieldName)
    decreases obj
  {
    out := if results.None? then [] else results.value;
    ghost var start := out;
    match obj
    case JObject(ms) =>
      var i := 0;
      while i < |ms|
        invariant 0 <= i <= |ms|
        invariant out == start + FoundInMembers(ms[..i], fieldName)
      {
        var key, value := ms[i].0, ms[i].1;
        assert value < obj by { assert ms[i].1 < ms[i]; }
        FoundInMembersStep(ms, i, fieldName);
        AppendAssoc(start, FoundInMembers(ms[..i], fieldName),
          if key == fieldName && value.JString? then [value.s] else Found(value, fieldName));
        if key == fieldName && value.JString? {
          out := out + [value.s];
        } else {
          out := FindField(value, fieldName, Some(out));
        }
        i := i + 1;
      }
      assert ms[..i] == ms;
    case JArray(items) =>
      var i := 0;
      while i < |items|
        invariant 0 <= i <= |items|
        invariant out == start + FoundInItems(items[..i], fieldName)
      {
        FoundInItemsStep(items, i, fieldName);
        AppendAssoc(start, FoundInItems(items[..i], fieldName), Found(items[i], fieldName));
        out := FindField(items[i], fieldName, Some(out));
        i := i + 1;
      }
      assert items[..i] == items;
    case _ =>
  }

  lemma FoundInMembersStep(ms: seq<(string, Json)>, i: nat, field: string)
    requires i < |ms|
    ensures FoundInMembers(ms[..i + 1], field) == FoundInMembers(ms[..i], field) +
      (if ms[i].0 == field && ms[i].1.JString? then [ms[i].1.s] else Found(ms[i].1, field))
  {
    assert ms[..i + 1][..i] == ms[..i];
  }

  lemma FoundInItemsStep(items: seq<Json>, i: nat, field: string)
    requires i < |items|
    ensures FoundInItems(items[..i + 1], field) == FoundInItems(items[..i], field) + Found(items[i], field)
  {
    assert items[..i + 1][..i] == items[..i];
  }

  /** Against the pre-order list of all members: `find_field` returns exactly the string
      values of the members whose key is `field`, in pre-order. A matched string is not
      searched further, which loses nothing because a string has no members. */
  lemma {:induction false} FoundIsStringsUnderKey(j: Json, field: string)
    ensures Found(j, field) == StringsOf(Select(Members(j), field))
    decreases j
  {
    match j
    case JObject(ms) => FoundInMembersIsStringsUnderKey(ms, field);
    case JArray(items) => FoundInItemsIsStringsUnderKey(items, field);
    case _ =>
  }

  lemma {:induction false} FoundInMembersIsStringsUnderKey(ms: seq<(string, Json)>, field: string)
    ensures FoundInMembers(ms, field) == StringsOf(Select(MembersOfPairs(ms), field))
    decreases ms
  {
    if ms != [] {
      var front := ms[..|ms| - 1];
      var p := ms[|ms| - 1];
      assert p.1 < p;
      FoundInMembersIsStringsUnderKey(front, field);
      FoundIsStringsUnderKey(p.1, field);
      var a := Select(MembersOfPairs(front), field);
      var own := Select([p], field);
      var b := Select(Members(p.1), field);
      SelectAppend(MembersOfPairs(front) + [p], Members(p.1), field);
      SelectAppend(MembersOfPairs(front), [p], field);
      StringsOfAppend(a + own, b);
      StringsOfAppend(a, own);
      MemberContribution(p, field);
      AppendAssoc(StringsOf(a), StringsOf(own), StringsOf(b));
    }
  }

  /** What one member adds, against the pre-order list: the string under a matching key
      (whose own members are none), or the strings found inside the value. */
  lemma MemberContribution(p: (string, Json), field: string)
    requires Found(p.1, field) == StringsOf(Select(Members(p.1), field))
    ensures (if p.0 == field && p.1.JString? then [p.1.s] else Found(p.1, field)) ==
      StringsOf(Select([p], field)) + StringsOf(Select(Members(p.1), field))
  {
    var own := Select([p], field);
    assert own == Select([], field) + (if p.0 == field then [p.1] else []);
    if p.0 == field && p.1.JString? {
      assert StringsOf(own) == StringsOf([]) + [p.1.s];
      assert Members(p.1) == [];
    } else if p.0 == field {
      assert StringsOf(own) == StringsOf([]) + [];
    }
  }

  lemma {:induction false} FoundInItemsIsStringsUnderKey(items: seq<Json>, field: string)
    ensures FoundInItems(items, field) == StringsOf(Select(MembersOfItems(items), field))
    decreases items
  {
    if items != [] {
      var front := items[..|items| - 1];
      var last := items[|items| - 1];
      FoundInItemsIsStringsUnderKey(front, field);
      FoundIsStringsUnderKey(last, field);
      SelectAppend(MembersOfItems(front), Members(last), field);
      StringsOfAppend(Select(MembersOfItems(front), field), Select(Members(last), field));
    }
  }

  /** A scalar, null or string root yields no hits. */
  lemma ScalarRootFindsNothing(j: Json, field: string)
    requires !j.JObject? && !j.JArray?
    ensures Found(j, field) == []
  {
  }

  /** A file of the scanned directory: its path and its text, `None` when reading fails. */
  datatype JsonFile = JsonFile(path: string, content: Option<string>)

  /** A result record `{'file': ..., 'values': ...}`. */
  datatype Record = Record(file: string, values: seq<string>)

  /** The hits in one file; a file that cannot be read or parsed contributes none. The
      text is stripped, parsed, and parsed once more when it encodes a string. */
  function FileValues(f: JsonFile, field: string, parse: string -> Option<Json>): seq<string> {
    match f.content
    case None => []
    case Some(text) =>
      match UnwrapOnce(parse, StripPy(text))
      case None => []
      case Some(data) => Found(data, field)
  }

  /** The records for `files`, in order: one per file with at least one hit. */
  function Scan(files: seq<JsonFile>, field: string, parse: string -> Option<Json>): seq<Record> {
    if files == [] then []
    else
      var f := files[|files| - 1];
      var vs := FileValues(f, field, parse);
      Scan(files[..|files| - 1], field, parse) + (if vs != [] then [Record(f.path, vs)] else [])
  }

  /** `extract_field_from_json_files(field_name, directory)`, with the directory given as
      the list of the JSON files under it (`None` when it does not exist). */
  method ExtractFieldFromJsonFiles(fieldName: string, directory: Option<seq<JsonFile>>, parse: string -> Option<Json>)
    returns (results: seq<Record>)
    ensures directory.None? ==> results == []
    ensures directory.Some? ==> results == Scan(directory.value, fieldName, parse)
  {
    results := [];
    if directory.None? {
      return;
    }
    var files := directory.value;
    var i := 0;
    while i < |files|
      invariant 0 <= i <= |files|
      invariant results == Scan(files[..i], fieldName, parse)
    {
      var values: seq<string> := [];
      var content := files[i].content;
      if content.Some? {
        var data := UnwrapOnce(parse, StripPy(content.value));
        if data.Some? {
          values := FindField(data.value, fieldName, None);
        }
      }
      assert values == FileValues(files[i], fieldName, parse);
      if values != [] {
        results := results + [Record(files[i].path, values)];
      }
      assert files[..i + 1][..i] == files[..i];
      i := i + 1;
    }
    assert files[..i] == files;
  }

  /** Files are processed independently: the records for a concatenation of file lists
      are the records of each part, so a failing file leaves the others' records intact. */
  lemma {:induction false} ScanAppend(a: seq<JsonFile>, b: seq<JsonFile>, field: string, parse: string -> Option<Json>)
    ensures Scan(a + b, field, parse) == Scan(a, field, parse) + Scan(b, field, parse)
    decreases |b|
  {
    if b == [] {
      assert a + b == a;
    } else {
      assert (a + b)[..|a + b| - 1] == a + b[..|b| - 1];
      ScanAppend(a, b[..|b| - 1], field, parse);
    }
  }

  /** Every record names a scanned file and carries exactly that file's hits, which are
      never empty. */
  lemma {:induction false} ScanSound(files: seq<JsonFile>, field: string, parse: string -> Option<Json>, r: Record)
    requires r in Scan(files, field, parse)
    ensures r.values != []
    ensures exists k :: 0 <= k < |files| && files[k].path == r.file && FileValues(files[k], field, parse) == r.values
  {
    var f := files[|files| - 1];
    var vs := FileValues(f, field, parse);
    if r in Scan(files[..|files| - 1], field, parse) {
      ScanSound(files[..|files| - 1], field, parse, r);
      var k :| 0 <= k < |files| - 1 && files[..|files| - 1][k].path == r.file &&
        FileValues(files[..|files| - 1][k], field, parse) == r.values;
      assert files[k] == files[..|files| - 1][k];
    } else {
      assert r == Record(f.path, vs);
      assert files[|files| - 1] == f;
    }
  }

  /** Every file with at least one hit has its record, pairing its path with its hits. */
  lemma {:induction false} ScanComplete(files: seq<JsonFile>, field: string, parse: string -> Option<Json>, k: nat)
    requires k < |files| && FileValues(files[k], field, parse) != []
    ensures Record(files[k].path, FileValues(files[k], field, parse)) in Scan(files, field, parse)
  {
    if k < |files| - 1 {
      ScanComplete(files[..|files| - 1], field, parse, k);
      assert files[..|files| - 1][k] == files[k];
    }
  }

  /** Hits at every depth, in traversal order; a matching key with a non-string value is
      searched into rather than collected. */
  lemma DeepHits()
    ensures Found(JObject([("a", JObject([("linkText", JString("x"))])),
                           ("linkText", JObject([("linkText", JString("y"))])),
                           ("b", JArray([JNumber(1.0), JObject([("linkText", JString("z"))])]))]), "linkText")
      == ["x", "y", "z"]
  {
    var x := JObject([("linkText", JString("x"))]);
    var y := JObject([("linkText", JString("y"))]);
    var z := JObject([("linkText", JString("z"))]);
    var b := [JNumber(1.0), z];
    var ms := [("a", x), ("linkText", y), ("b", JArray(b))];
    assert Found(x, "linkText") == ["x"] by { assert x.members[..0] == []; }
    assert Found(y, "linkText") == ["y"] by { assert y.members[..0] == []; }
    assert Found(z, "linkText") == ["z"] by { assert z.members[..0] == []; }
    assert FoundInItems(b, "linkText") == ["z"] by {
      assert b[..1][..0] == [] && b[..1] == [JNumber(1.0)];
      assert FoundInItems(b[..1], "linkText") == [] + Found(JNumber(1.0), "linkText") == [];
      assert b[|b| - 1] == z;
    }
    assert ms[..2][..1][..0] == [] && ms[..2][..1] == [("a", x)] && ms[..2] == [("a", x), ("linkText", y)];
  }
}
