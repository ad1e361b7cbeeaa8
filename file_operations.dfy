/** Where the scraper writes what it captures: the page filter, the `YYYY_MM_DD` date
    folder, the export path built from a response URL, and the extracted-data path the
    debt reader later reads back. The date is a parameter and the directories are not
    created (the `mkdirSync` calls are left out). */
module FileOperations {
  import opened Strings
  import DebtReader

  /** `savePage`: every page except the BankID and ID-porten login pages is saved. */
  function SavePage(pageName: Option<string>): (r: bool)
    ensures !r <==> pageName == Some("bankid") || pageName == Some("id-porten")
  {
    !(pageName.Some? && pageName.value in ["bankid", "id-porten"])
  }

  // ---------------------------------------------------------------------------
  // The date folder

  /** The UTC fields `new Date()` would supply: `month` is 0-based as `getUTCMonth`. */
  datatype Date = Date(year: nat, month: nat, day: nat)

  /** A date the clock can produce, with a four-digit year. */
  predicate ValidDate(d: Date) {
    1000 <= d.year <= 9999 && d.month < 12 && 1 <= d.day <= 31
  }

  function DigitChar(n: nat): char
    requires n < 10
  {
    ('0' as int + n) as char
  }

  /** `n.toString()`. */
  function NatString(n: nat): (r: string)
    ensures |r| >= 1 && AllDigits(r)
    ensures n < 10 ==> |r| == 1
    ensures n >= 10 ==> |r| == |NatString(n / 10)| + 1
  {
    if n < 10 then [DigitChar(n)] else NatString(n / 10) + [DigitChar(n % 10)]
  }

  lemma {:induction false} NatStringValue(n: nat)
    ensures DigitsValue(NatString(n)) == n
  {
    if n >= 10 {
      NatStringValue(n / 10);
      var s := NatString(n);
      assert s[..|s| - 1] == NatString(n / 10);
    }
  }

  /** `s.padStart(2, "0")`. */
  function Pad2(s: string): string {
    if |s| >= 2 then s else seq(2 - |s|, _ => '0') + s
  }

  /** Month and day are always two digits, and read back as the number written. */
  lemma TwoDigits(n: nat)
    requires n < 100
    ensures |Pad2(NatString(n))| == 2 && AllDigits(Pad2(NatString(n)))
    ensures DigitsValue(Pad2(NatString(n))) == n
  {
    NatStringValue(n);
    var s := NatString(n);
    if n < 10 {
      var p := Pad2(s);
      assert p == ['0'] + s;
      assert p[..1] == ['0'];
      assert DigitsValue(['0']) == 0 by {
        assert ['0'][..0] == [];
      }
    } else {
      assert |NatString(n / 10)| == 1;
    }
  }

  /** `getDateString`: `${year}_${month}_${day}` with a 1-based, zero-padded month and
      a zero-padded day. */
  function DateString(d: Date): string {
    NatString(d.year) + MonthDay(d)
  }

  lemma YearDigits(y: nat)
    requires 1000 <= y <= 9999
    ensures |NatString(y)| == 4
  {
    assert |NatString(y / 1000)| == 1;
    assert y / 1000 == y / 10 / 10 / 10;
  }

  /** The folder name of a valid date is one the debt reader accepts as a date folder,
      and its three fields read back as year, 1-based month and day. */
  lemma DateStringIsDateName(d: Date)
    requires ValidDate(d)
    ensures DebtReader.IsDateName(DateString(d))
    ensures DigitsValue(DateString(d)[..4]) == d.year
    ensures DigitsValue(DateString(d)[5..7]) == d.month + 1
    ensures DigitsValue(DateString(d)[8..]) == d.day
  {
    YearDigits(d.year);
    NatStringValue(d.year);
    TwoDigits(d.month + 1);
    TwoDigits(d.day);
    var s := DateString(d);
    assert s[..4] == NatString(d.year);
    assert s[5..7] == Pad2(NatString(d.month + 1));
    assert s[8..] == Pad2(NatString(d.day));
  }

  /** Calendar order of valid dates. */
  predicate Before(a: Date, b: Date) {
    a.year < b.year || (a.year == b.year && (a.month < b.month || (a.month == b.month && a.day < b.day)))
  }

  /** The string order the reader uses to pick the latest folder is calendar order, so
      the folder it picks is the most recent date. */
  lemma DateOrderIsStringOrder(a: Date, b: Date)
    requires ValidDate(a) && ValidDate(b)
    ensures DebtReader.StrLess(DateString(a), DateString(b)) <==> Before(a, b)
  {
    YearDigits(a.year);
    YearDigits(b.year);
    NatStringValue(a.year);
    NatStringValue(b.year);
    var ya, yb := NatString(a.year), NatString(b.year);
    DigitsOrder(ya, yb);
    var ta, tb := MonthDay(a), MonthDay(b);
    MonthDayOrder(a, b);
    StrLessConcat(ya, ta, yb, tb);
  }

  /** The part of `DateString` after the year. */
  function MonthDay(d: Date): string {
    "_" + (Pad2(NatString(d.month + 1)) + ("_" + Pad2(NatString(d.day))))
  }

  /** After equal years, the string order is the order of month, then day. */
  lemma MonthDayOrder(a: Date, b: Date)
    requires ValidDate(a) && ValidDate(b)
    ensures DebtReader.StrLess(MonthDay(a), MonthDay(b)) <==>
      (a.month < b.month || (a.month == b.month && a.day < b.day))
  {
    TwoDigits(a.month + 1);
    TwoDigits(b.month + 1);
    TwoDigits(a.day);
    TwoDigits(b.day);
    var ma, mb := Pad2(NatString(a.month + 1)), Pad2(NatString(b.month + 1));
    var da, db := Pad2(NatString(a.day)), Pad2(NatString(b.day));
    DigitsOrder(ma, mb);
    DigitsOrder(da, db);
    SeparatedOrder(ma, da, mb, db);
  }

  /** Comparing `_m_d` strings with two-character parts. */
  lemma SeparatedOrder(ma: string, da: string, mb: string, db: string)
    requires |ma| == |mb|
    ensures DebtReader.StrLess("_" + (ma + ("_" + da)), "_" + (mb + ("_" + db))) <==>
      (DebtReader.StrLess(ma, mb) || (ma == mb && DebtReader.StrLess(da, db)))
  {
    StrLessConcat("_", ma + ("_" + da), "_", mb + ("_" + db));
    StrLessConcat(ma, "_" + da, mb, "_" + db);
    StrLessConcat("_", da, "_", db);
    DebtReader.StrLessIrreflexive("_");
  }

  /** Comparing two strings whose first parts have equal length compares the first
      parts, and the rest only when those are equal. */
  lemma {:induction false} StrLessConcat(x1: string, x2: string, y1: string, y2: string)
    requires |x1| == |y1|
    ensures DebtReader.StrLess(x1 + x2, y1 + y2) <==>
      (DebtReader.StrLess(x1, y1) || (x1 == y1 && DebtReader.StrLess(x2, y2)))
  {
    if x1 != [] {
      assert (x1 + x2)[0] == x1[0] && (y1 + y2)[0] == y1[0];
      assert (x1 + x2)[1..] == x1[1..] + x2 && (y1 + y2)[1..] == y1[1..] + y2;
      StrLessConcat(x1[1..], x2, y1[1..], y2);
      if x1[0] == y1[0] && x1[1..] == y1[1..] {
        assert x1 == [x1[0]] + x1[1..] && y1 == [y1[0]] + y1[1..];
      }
    } else {
      assert x1 + x2 == x2 && y1 + y2 == y2;
    }
  }

  /** Comparing the last characters of two strings of equal length. */
  lemma {:induction false} StrLessSnoc(a: string, b: string)
    requires |a| == |b| && |a| > 0
    ensures DebtReader.StrLess(a, b) <==>
      (DebtReader.StrLess(a[..|a| - 1], b[..|b| - 1]) || (a[..|a| - 1] == b[..|b| - 1] && a[|a| - 1] < b[|b| - 1]))
  {
    StrLessConcat(a[..|a| - 1], [a[|a| - 1]], b[..|b| - 1], [b[|b| - 1]]);
    assert a == a[..|a| - 1] + [a[|a| - 1]] && b == b[..|b| - 1] + [b[|b| - 1]];
  }

  /** Equal-length digit strings compare as the numbers they spell. */
  lemma {:induction false} DigitsOrder(a: string, b: string)
    requires |a| == |b| && AllDigits(a) && AllDigits(b)
    ensures DebtReader.StrLess(a, b) <==> DigitsValue(a) < DigitsValue(b)
    ensures a == b <==> DigitsValue(a) == DigitsValue(b)
  {
    if a != [] {
      var ia, ib := a[..|a| - 1], b[..|b| - 1];
      DigitsOrder(ia, ib);
      StrLessSnoc(a, b);
      if ia == ib && a[|a| - 1] == b[|b| - 1] {
        assert a == ia + [a[|a| - 1]] && b == ib + [b[|b| - 1]];
      }
    }
  }

  // ---------------------------------------------------------------------------
  // Paths

  /** `if (!x) x = d` for an optional string parameter. */
  function Defaulted(x: Option<string>, d: string): (r: string)
    ensures x.Some? && x.value != "" ==> r == x.value
    ensures (x.None? || x.value == "") ==> r == d
  {
    if x.Some? && x.value != "" then x.value else d
  }

  predicate IsAsciiAlnumOrDot(c: char) {
    'a' <= c <= 'z' || 'A' <= c <= 'Z' || '0' <= c <= '9' || c == '.'
  }

  /** `.replace(/[^a-zA-Z0-9.]/g, "_")`. */
  function Underscored(s: string): (r: string)
    ensures |r| == |s|
    ensures forall k :: 0 <= k < |s| ==> r[k] == (if IsAsciiAlnumOrDot(s[k]) then s[k] else '_')
  {
    if s == [] then [] else [if IsAsciiAlnumOrDot(s[0]) then s[0] else '_'] + Underscored(s[1..])
  }

  /** The characters a file-name stem is made of. */
  predicate IsStemChar(c: char) {
    'a' <= c <= 'z' || '0' <= c <= '9' || c == '.' || c == '_'
  }

  /** The file-name stem of a captured URL: the first "https://" and the first ".json"
      removed, every other character outside `[A-Za-z0-9.]` made "_", then lower-cased. */
  function UrlStem(url: string): (r: string)
    ensures forall k :: 0 <= k < |r| ==> IsStemChar(r[k])
  {
    var u := Underscored(ReplaceFirst(ReplaceFirst(url, "https://", ""), ".json", ""));
    ToLower(u)
  }

  /** The path `createFoldersAndGetName` returns. */
  function ExportPath(pageName: Option<string>, name: Option<string>, website: Option<string>,
                      url: string, isJsonFile: bool, date: Date): string
  {
    var base := "./exports/" + Defaulted(name, "Unknown") + "/" + DateString(date) + "/"
              + Defaulted(website, "Unknown") + "/" + Defaulted(pageName, "no_page_name");
    base + "/" + (if isJsonFile then UrlStem(url) + ".json" else "not_json/" + UrlStem(url) + ".txt")
  }

  /** `createFoldersAndGetName`, without the directory creation: the parameters are
      defaulted in place and the path is built with `+=`. */
  method CreateFoldersAndGetName(pageName: Option<string>, name: Option<string>, currentWebsite: Option<string>,
                                 url: string, isJsonFile: bool, date: Date) returns (dirname: string)
    ensures dirname == ExportPath(pageName, name, currentWebsite, url, isJsonFile, date)
  {
    var newDate := DateString(date);
    var page := if pageName.Some? then pageName.value else "";
    var user := if name.Some? then name.value else "";
    var site := if currentWebsite.Some? then currentWebsite.value else "";
    if page == "" {
      page := "no_page_name";
    }
    if user == "" {
      user := "Unknown";
    }
    if site == "" {
      site := "Unknown";
    }
    var baseDir := "./exports/" + user + "/" + newDate + "/" + site + "/" + page;
    var urlName := UrlStem(url);
    dirname := baseDir + "/";
    dirname := dirname + (if isJsonFile then urlName + ".json" else "not_json/" + urlName + ".txt");
  }

  /** A JSON capture lands directly in the page folder under its stem with ".json";
      anything else lands in the `not_json` sub-folder with ".txt". */
  lemma ExportPathShape(pageName: Option<string>, name: Option<string>, website: Option<string>,
                        url: string, isJsonFile: bool, date: Date)
    ensures var p := ExportPath(pageName, name, website, url, isJsonFile, date);
      var base := "./exports/" + Defaulted(name, "Unknown") + "/" + DateString(date) + "/"
                + Defaulted(website, "Unknown") + "/" + Defaulted(pageName, "no_page_name") + "/";
      (isJsonFile ==> p == base + UrlStem(url) + ".json" && EndsWith(p, ".json"))
      && (!isJsonFile ==> p == base + "not_json/" + UrlStem(url) + ".txt" && EndsWith(p, ".txt"))
  {
    var p := ExportPath(pageName, name, website, url, isJsonFile, date);
    var base := "./exports/" + Defaulted(name, "Unknown") + "/" + DateString(date) + "/"
              + Defaulted(website, "Unknown") + "/" + Defaulted(pageName, "no_page_name");
    if isJsonFile {
      assert p == base + "/" + (UrlStem(url) + ".json");
      AppendAssoc(base + "/", UrlStem(url), ".json");
      EndsWithConcat(base + "/" + UrlStem(url), ".json");
    } else {
      assert p == base + "/" + ("not_json/" + UrlStem(url) + ".txt");
      AppendAssoc(base + "/", "not_json/" + UrlStem(url), ".txt");
      AppendAssoc(base + "/", "not_json/", UrlStem(url));
      EndsWithConcat(base + "/" + "not_json/" + UrlStem(url), ".txt");
    }
  }

  /** `createExtractedFoldersAndGetName`. */
  function ExtractedPath(currentWebsite: Option<string>, name: Option<string>, date: Date): string {
    "./extracted_data/" + Defaulted(name, "Unknown") + "/" + DateString(date) + "/"
      + Defaulted(currentWebsite, "no_page_name") + "_extracted_data.json"
  }

  /** The extracted-data file is written where the debt reader looks: inside the
      person's folder, in a date folder it accepts, with the suffix it collects. */
  lemma ExtractedPathIsRead(currentWebsite: Option<string>, name: Option<string>, date: Date)
    requires ValidDate(date)
    ensures var p := ExtractedPath(currentWebsite, name, date);
      p == "./" + DebtReader.PersonDir(Defaulted(name, "Unknown")) + "/" + DateString(date) + "/"
             + Defaulted(currentWebsite, "no_page_name") + DebtReader.ExtractedSuffix
      && EndsWith(p, DebtReader.ExtractedSuffix)
      && DebtReader.IsDateName(DateString(date))
  {
    DateStringIsDateName(date);
    PathRegroup(Defaulted(name, "Unknown"), DateString(date), Defaulted(currentWebsite, "no_page_name"));
  }

  lemma PathRegroup(user: string, day: string, site: string)
    ensures "./extracted_data/" + user + "/" + day + "/" + site + "_extracted_data.json"
      == "./" + DebtReader.PersonDir(user) + "/" + day + "/" + site + DebtReader.ExtractedSuffix
    ensures EndsWith("./extracted_data/" + user + "/" + day + "/" + site + "_extracted_data.json",
                     DebtReader.ExtractedSuffix)
  {
    var front := "./extracted_data/" + user + "/" + day + "/" + site;
    assert "./" + "extracted_data/" == "./extracted_data/";
    AppendAssoc("./", "extracted_data/", user);
    assert "./extracted_data/" + user == "./" + DebtReader.PersonDir(user);
    EndsWithConcat(front, DebtReader.ExtractedSuffix);
  }

  /** The name of the saved "om meg" response, which holds the user's name. */
  const BasisInfoFile := "skatt.skatteetaten.no_api_mii_skyldnerportal_om_meg_api_v1_basisinfo.json"

  /** `fileKnownToContainName`. */
  predicate FileKnownToContainName(name: string) {
    Contains(name, BasisInfoFile)
  }

  /** A name that contains the file name is known, and so is any path that ends in it. */
  lemma KnownNameInPath(prefix: string)
    ensures FileKnownToContainName(prefix + BasisInfoFile)
  {
    assert OccursAt(prefix + BasisInfoFile, BasisInfoFile, |prefix|);
  }
}
