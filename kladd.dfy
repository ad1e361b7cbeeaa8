/** Two URL helpers of the response recorder: dropping the query string, and the
    filter that decides which captured responses are not worth saving. */
module Kladd {
  import opened Strings
  import opened Json

  /** `url.split("?")[0]`. */
  function ShortenUrl(url: string): (r: string)
    ensures '?' !in r
  {
    Split(url, '?')[0]
  }

  /** The shortened URL is the part before the first '?', or the whole URL when it has
      none; it never contains a '?', and shortening it again changes nothing. */
  lemma ShortenUrlIsPath(url: string)
    ensures var r := ShortenUrl(url);
      r <= url && '?' !in r
      && ('?' in url ==> url[|r|] == '?')
      && ('?' !in url ==> r == url)
      && ShortenUrl(r) == r
  {
    var r := ShortenUrl(url);
    if '?' in url {
      var i := FirstIndexOfChar(url, '?');
      assert r == url[..i];
    }
  }

  /** The suffixes of scripts, style sheets, pages, images, fonts and text files. */
  const ExcludedSuffixes: seq<string> := [
    ".js", ".mjs", ".css", ".html", "/js", "/css", ".php", ".svg", ".png", ".jpg",
    ".woff", ".woff2", ".webp", ".ttf", ".gif", ".txt", "jsx-runtime"]

  /** The tests in the order they are made: the first suffix that matches decides. */
  function EndsWithAny(url: string, suffixes: seq<string>): (r: bool)
    ensures r ==> exists i :: 0 <= i < |suffixes| && EndsWith(url, suffixes[i])
  {
    if suffixes == [] then false
    else if EndsWith(url, suffixes[0]) then true
    else EndsWithAny(url, suffixes[1..])
  }

  lemma {:induction false} EndsWithAnyMeans(url: string, suffixes: seq<string>)
    ensures EndsWithAny(url, suffixes) <==> exists i :: 0 <= i < |suffixes| && EndsWith(url, suffixes[i])
  {
    if suffixes != [] {
      EndsWithAnyMeans(url, suffixes[1..]);
      if EndsWith(url, suffixes[0]) {
        assert EndsWith(url, suffixes[0]);
      } else {
        forall i | 1 <= i < |suffixes| && EndsWith(url, suffixes[i])
          ensures EndsWith(url, suffixes[1..][i - 1])
        {
        }
      }
    }
  }

  /** `excludeUrl`: anything but a string is excluded, and so is a string with one of
      the suffixes, one mentioning google-analytics, and the empty string. */
  function ExcludeUrl(url: Val): (r: bool)
    ensures !(url.Defined? && url.value.JString?) ==> r
    ensures url.Defined? && url.value.JString? && url.value.s == "" ==> r
  {
    if !(url.Defined? && url.value.JString?) then true
    else
      var u := url.value.s;
      if EndsWithAny(u, ExcludedSuffixes) then true
      else if Contains(u, "google-analytics") then true
      else |u| == 0
  }

  /** A URL is excluded exactly when it is not a string, ends with a listed suffix,
      mentions google-analytics or is empty. */
  lemma ExcludeUrlMeans(url: Val)
    ensures ExcludeUrl(url) <==>
      !(url.Defined? && url.value.JString?)
      || (exists i :: 0 <= i < |ExcludedSuffixes| && EndsWith(url.value.s, ExcludedSuffixes[i]))
      || Contains(url.value.s, "google-analytics")
      || url.value.s == ""
  {
    if url.Defined? && url.value.JString? {
      EndsWithAnyMeans(url.value.s, ExcludedSuffixes);
    }
  }

  /** Every listed suffix but ".woff2" ends in something other than a digit. */
  lemma SuffixesEndInNonDigits()
    ensures forall i :: 0 <= i < |ExcludedSuffixes| ==>
      ExcludedSuffixes[i] == ".woff2" || (ExcludedSuffixes[i] != [] && !IsDigit(ExcludedSuffixes[i][|ExcludedSuffixes[i]| - 1]))
  {
  }

  lemma LastCharDiffers(u: string, x: string)
    requires u != [] && x != [] && x[|x| - 1] != u[|u| - 1]
    ensures !EndsWith(u, x)
  {
  }

  /** A non-empty API URL ending in a digit (a query parameter or a numeric id) that is
      not a ".woff2" font and does not mention google-analytics is kept. */
  lemma NumericEndingIsKept(u: string)
    requires u != [] && IsDigit(u[|u| - 1]) && !EndsWith(u, ".woff2")
    requires !Contains(u, "google-analytics")
    ensures !ExcludeUrl(Defined(JString(u)))
  {
    EndsWithAnyMeans(u, ExcludedSuffixes);
    SuffixesEndInNonDigits();
    forall i | 0 <= i < |ExcludedSuffixes| ensures !EndsWith(u, ExcludedSuffixes[i]) {
      if ExcludedSuffixes[i] != ".woff2" {
        LastCharDiffers(u, ExcludedSuffixes[i]);
      }
    }
  }
}
