/** `waitForNewDownloadedFile`: the download directory is listed once before a
    download and then polled a bounded number of times; the first listed name that is
    not a partial download and is new, or modified since the first listing, is
    returned. The directory listings are inputs (one per poll); the waits between
    polls are not modelled. */
module PageHelpers {
  import opened Strings

  /** `FILE_DOWNLOAD_MAX_ATTEMPTS`, the default number of polls. */
  const FileDownloadMaxAttempts := 30

  /** The directory as one look at it finds it: missing, or its names in listing order
      with the modification time `stat` reports for each (a name without one is a
      file whose `stat` fails). */
  datatype Listing = Missing | Present(files: seq<string>, mtime: map<string, real>)

  /** How the call settles: a file name, null, or a rejection from a `stat` that failed
      on the named file during a poll. */
  datatype Download = NewFile(name: string) | NoFile | StatFailed(name: string)

  /** `.tmp`, `.crdownload` and `.part` files are downloads still in progress. */
  predicate IsTemporary(f: string) {
    EndsWith(f, ".tmp") || EndsWith(f, ".crdownload") || EndsWith(f, ".part")
  }

  // ---------------------------------------------------------------------------
  // The first listing

  /** `filesBefore`: the names, or none when the directory is missing. */
  function FilesBefore(before: Listing): seq<string> {
    if before.Missing? then [] else before.files
  }

  /** `timestampsBefore`, filled by the `forEach`: each name whose `stat` succeeds
      gets its modification time; failures are skipped. */
  method RecordTimestamps(filesBefore: seq<string>, mtime: map<string, real>) returns (ts: map<string, real>)
    ensures forall f :: f in ts <==> f in filesBefore && f in mtime
    ensures forall f :: f in ts ==> ts[f] == mtime[f]
  {
    ts := map[];
    var i := 0;
    while i < |filesBefore|
      invariant 0 <= i <= |filesBefore|
      invariant forall f :: f in ts <==> f in filesBefore[..i] && f in mtime
      invariant forall f :: f in ts ==> ts[f] == mtime[f]
    {
      var file := filesBefore[i];
      if file in mtime {
        ts := ts[file := mtime[file]];
      }
      assert filesBefore[..i + 1] == filesBefore[..i] + [file];
      i := i + 1;
    }
    assert filesBefore[..i] == filesBefore;
  }

  /** The timestamps as a value: the modification time of each name listed before. */
  function Timestamps(before: Listing): map<string, real> {
    if before.Missing? then map[] else map f | f in before.files && f in before.mtime :: before.mtime[f]
  }

  // ---------------------------------------------------------------------------
  // One poll

  /** The filter reads the current modification time of `f`: a name listed before
      with a truthy (non-zero) recorded time. */
  predicate NeedsStat(f: string, filesBefore: seq<string>, ts: map<string, real>) {
    !IsTemporary(f) && f in filesBefore && f in ts && ts[f] != 0.0
  }

  /** The filter keeps `f`: not temporary, and new, or listed before with a truthy
      recorded time and a strictly later current one. */
  predicate Qualifies(f: string, filesBefore: seq<string>, ts: map<string, real>, mtime: map<string, real>) {
    !IsTemporary(f)
    && (f !in filesBefore || (f in ts && ts[f] != 0.0 && f in mtime && mtime[f] > ts[f]))
  }

  /** What the `filter` over one listing produces: the kept names in listing order, or
      the failure of the first `stat` it needs and cannot get. */
  datatype Scan = Kept(names: seq<string>) | Throws(name: string)

  function NewFiles(files: seq<string>, filesBefore: seq<string>, ts: map<string, real>, mtime: map<string, real>): Scan {
    if files == [] then Kept([])
    else
      var f := files[0];
      if NeedsStat(f, filesBefore, ts) && f !in mtime then Throws(f)
      else
        match NewFiles(files[1..], filesBefore, ts, mtime)
        case Throws(g) => Throws(g)
        case Kept(rest) => Kept((if Qualifies(f, filesBefore, ts, mtime) then [f] else []) + rest)
  }

  /** The filter fails exactly when some listed name needs a `stat` that fails. */
  lemma {:induction false} NewFilesThrows(files: seq<string>, filesBefore: seq<string>, ts: map<string, real>, mtime: map<string, real>)
    ensures NewFiles(files, filesBefore, ts, mtime).Kept? <==>
      forall k :: 0 <= k < |files| ==> !(NeedsStat(files[k], filesBefore, ts) && files[k] !in mtime)
  {
    if files != [] {
      var tail := files[1..];
      NewFilesThrows(tail, filesBefore, ts, mtime);
      assert forall k :: 0 < k < |files| ==> files[k] == tail[k - 1];
    }
  }

  /** Otherwise it keeps exactly the qualifying names. */
  lemma {:induction false} NewFilesKeeps(files: seq<string>, filesBefore: seq<string>, ts: map<string, real>, mtime: map<string, real>)
    ensures var s := NewFiles(files, filesBefore, ts, mtime);
      s.Kept? ==> forall x :: x in s.names <==> x in files && Qualifies(x, filesBefore, ts, mtime)
  {
    if files != [] {
      var tail := files[1..];
      NewFilesKeeps(tail, filesBefore, ts, mtime);
      assert files == [files[0]] + tail;
    }
  }

  /** The first kept name is the first qualifying name in listing order. */
  lemma {:induction false} NewFilesFirst(files: seq<string>, filesBefore: seq<string>, ts: map<string, real>, mtime: map<string, real>)
    ensures var s := NewFiles(files, filesBefore, ts, mtime);
      s.Kept? && s.names != [] ==>
        exists k :: 0 <= k < |files| && files[k] == s.names[0]
          && forall j :: 0 <= j < k ==> !Qualifies(files[j], filesBefore, ts, mtime)
  {
    if files != [] {
      var f := files[0];
      var tail := files[1..];
      var s := NewFiles(files, filesBefore, ts, mtime);
      if s.Kept? && s.names != [] {
        if Qualifies(f, filesBefore, ts, mtime) {
          assert files[0] == s.names[0];
        } else {
          NewFilesFirst(tail, filesBefore, ts, mtime);
          var st := NewFiles(tail, filesBefore, ts, mtime);
          var k :| 0 <= k < |tail| && tail[k] == st.names[0]
            && forall j :: 0 <= j < k ==> !Qualifies(tail[j], filesBefore, ts, mtime);
          assert files[k + 1] == s.names[0];
          forall j | 0 <= j < k + 1 ensures !Qualifies(files[j], filesBefore, ts, mtime) {
            if j > 0 {
              assert files[j] == tail[j - 1];
            }
          }
        }
      }
    }
  }

  /** Temporary names are never kept. */
  lemma TemporaryNeverKept(f: string, files: seq<string>, filesBefore: seq<string>, ts: map<string, real>, mtime: map<string, real>)
    requires IsTemporary(f)
    ensures var s := NewFiles(files, filesBefore, ts, mtime); s.Kept? ==> f !in s.names
  {
    NewFilesKeeps(files, filesBefore, ts, mtime);
  }

  // ---------------------------------------------------------------------------
  // The polling loop

  /** The outcome of the polls numbered `attempt` up to `maxAttempts - 1`. */
  function PollFrom(filesBefore: seq<string>, ts: map<string, real>, polls: nat -> Listing,
                    maxAttempts: int, attempt: nat): Download
    decreases maxAttempts - attempt
  {
    if attempt >= maxAttempts then NoFile
    else
      match polls(attempt)
      case Missing => PollFrom(filesBefore, ts, polls, maxAttempts, attempt + 1)
      case Present(files, mtime) =>
        match NewFiles(files, filesBefore, ts, mtime)
        case Throws(name) => StatFailed(name)
        case Kept(names) =>
          if names != [] then NewFile(names[0]) else PollFrom(filesBefore, ts, polls, maxAttempts, attempt + 1)
  }

  /** A poll that finds the directory and no `stat` failure yields its first kept name,
      if it has one. */
  predicate Yields(filesBefore: seq<string>, ts: map<string, real>, l: Listing, name: string) {
    l.Present? && NewFiles(l.files, filesBefore, ts, l.mtime).Kept?
    && NewFiles(l.files, filesBefore, ts, l.mtime).names != []
    && NewFiles(l.files, filesBefore, ts, l.mtime).names[0] == name
  }

  /** A poll that lets the loop go on: a missing directory, or no kept name and no
      failure. */
  predicate Empty(filesBefore: seq<string>, ts: map<string, real>, l: Listing) {
    l.Missing? || NewFiles(l.files, filesBefore, ts, l.mtime) == Kept([])
  }

  /** A name is returned only when some poll within the bound yielded it after every
      earlier poll came up empty; null only when every poll within the bound was
      empty. */
  lemma {:induction false} PollFromMeans(filesBefore: seq<string>, ts: map<string, real>, polls: nat -> Listing,
                                        maxAttempts: int, attempt: nat)
    ensures var r := PollFrom(filesBefore, ts, polls, maxAttempts, attempt);
      r.NewFile? ==> (exists k :: attempt <= k < maxAttempts && Yields(filesBefore, ts, polls(k), r.name)
                                  && forall j :: attempt <= j < k ==> Empty(filesBefore, ts, polls(j)))
    ensures PollFrom(filesBefore, ts, polls, maxAttempts, attempt).NoFile? <==>
      forall j :: attempt <= j < maxAttempts ==> Empty(filesBefore, ts, polls(j))
    decreases maxAttempts - attempt
  {
    if attempt < maxAttempts {
      PollFromMeans(filesBefore, ts, polls, maxAttempts, attempt + 1);
    }
  }

  /** `waitForNewDownloadedFile(downloadPath, maxAttempts)`: `before` is the first look
      at the directory and `polls(k)` the look of poll `k`; `polled` counts the polls
      made. */
  method WaitForNewDownloadedFile(before: Listing, polls: nat -> Listing, maxAttempts: int)
    returns (r: Download, polled: nat)
    ensures r == PollFrom(FilesBefore(before), Timestamps(before), polls, maxAttempts, 0)
    ensures polled <= (if maxAttempts < 0 then 0 else maxAttempts)
  {
    var filesBefore := FilesBefore(before);
    var timestampsBefore: map<string, real> := map[];
    if before.Present? {
      timestampsBefore := RecordTimestamps(filesBefore, before.mtime);
    }
    assert timestampsBefore == Timestamps(before);
    polled := 0;
    var attempt := 0;
    while attempt < maxAttempts
      invariant 0 <= attempt && polled == attempt
      invariant maxAttempts >= 0 ==> attempt <= maxAttempts
      invariant maxAttempts < 0 ==> attempt == 0
      invariant PollFrom(filesBefore, timestampsBefore, polls, maxAttempts, 0)
             == PollFrom(filesBefore, timestampsBefore, polls, maxAttempts, attempt)
      decreases maxAttempts - attempt
    {
      var listing := polls(attempt);
      polled := polled + 1;
      if listing.Missing? {
        attempt := attempt + 1;
        continue;
      }
      var newFiles := NewFiles(listing.files, filesBefore, timestampsBefore, listing.mtime);
      if newFiles.Throws? {
        return StatFailed(newFiles.name), polled;
      }
      if newFiles.names != [] {
        return NewFile(newFiles.names[0]), polled;
      }
      attempt := attempt + 1;
    }
    r := NoFile;
  }

  /** What the call returns is a name some poll within the bound listed: never a
      partial download, and new since the first listing or modified after it. */
  lemma ReturnedQualifies(before: Listing, polls: nat -> Listing, maxAttempts: int)
    ensures var r := PollFrom(FilesBefore(before), Timestamps(before), polls, maxAttempts, 0);
      r.NewFile? ==> (!IsTemporary(r.name)
        && exists k :: 0 <= k < maxAttempts && polls(k).Present? && r.name in polls(k).files
             && Qualifies(r.name, FilesBefore(before), Timestamps(before), polls(k).mtime))
  {
    var fb, ts := FilesBefore(before), Timestamps(before);
    var r := PollFrom(fb, ts, polls, maxAttempts, 0);
    PollFromMeans(fb, ts, polls, maxAttempts, 0);
    if r.NewFile? {
      var k :| 0 <= k < maxAttempts && Yields(fb, ts, polls(k), r.name)
        && forall j :: 0 <= j < k ==> Empty(fb, ts, polls(j));
      var l := polls(k);
      NewFilesKeeps(l.files, fb, ts, l.mtime);
      assert r.name in NewFiles(l.files, fb, ts, l.mtime).names;
    }
  }

  /** A first poll that sees a non-temporary name absent from the first listing, with
      no `stat` failure, returns a name. */
  lemma NewNameIsFound(before: Listing, polls: nat -> Listing, maxAttempts: int, f: string)
    requires 1 <= maxAttempts && polls(0).Present?
    requires f in polls(0).files && !IsTemporary(f) && f !in FilesBefore(before)
    requires NewFiles(polls(0).files, FilesBefore(before), Timestamps(before), polls(0).mtime).Kept?
    ensures PollFrom(FilesBefore(before), Timestamps(before), polls, maxAttempts, 0).NewFile?
  {
    NewFilesKeeps(polls(0).files, FilesBefore(before), Timestamps(before), polls(0).mtime);
  }
}
