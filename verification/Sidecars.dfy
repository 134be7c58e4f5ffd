/**
 * Write-ahead files of src/sidecar_queue.cpp: one file per pending payload, in one directory per
 * kind, over an abstract directory. A file operation succeeds or fails as a whole.
 */
module Sidecars {
  import opened Base

  datatype Kind = Crash | BugReport | Event

  datatype File = File(kind: Kind, body: string)

  datatype Record = Record(kind: Kind, path: Path, body: string)

  /** Names a file; the empty path names none. */
  type Path = string

  type Directory = map<Path, File>

  const NO_PATH: Path := ""
  const MAX_FILES_PER_KIND := 64

  function OfKind(files: Directory, kind: Kind): set<Path> { set p | p in files && files[p].kind == kind }

  /**
   * A name the next write may draw: in use by no file. None stands for a file that cannot be opened.
   */
  predicate Drawable(files: Directory, name: Option<Path>) {
    name.Some? ==> name.value != NO_PATH && name.value !in files
  }

  /** The path a write returns: the drawn name, or none when it cannot or must not persist. */
  function Written(files: Directory, configured: bool, kind: Kind, name: Option<Path>): Path {
    if configured && |OfKind(files, kind)| < MAX_FILES_PER_KIND then name.GetOr(NO_PATH) else NO_PATH
  }

  function AfterWrite(files: Directory, path: Path, kind: Kind, body: string): Directory {
    if path == NO_PATH then files else files[path := File(kind, body)]
  }

  /** `works` is false when the file system refuses; the file then stays for the next launch. */
  function AfterRemove(files: Directory, path: Path, works: bool): Directory {
    if path == NO_PATH || !works then files else files - {path}
  }

  predicate Distinct(listing: seq<Path>) { forall i, j :: 0 <= i < j < |listing| ==> listing[i] != listing[j] }

  /** A directory iteration: every file once, in whatever order. */
  ghost predicate Lists(files: Directory, listing: seq<Path>) {
    Distinct(listing) && forall p :: p in listing <==> p in files
  }

  /** The files of one kind that hold a body, in listing order. */
  function Records(files: Directory, listing: seq<Path>, kind: Kind): seq<Record> {
    if listing == [] then []
    else
      var rest, p := Records(files, listing[..|listing| - 1], kind), listing[|listing| - 1];
      if p in files && files[p].kind == kind && files[p].body != "" then rest + [Record(kind, p, files[p].body)]
      else rest
  }

  function Scanned(files: Directory, configured: bool, listing: seq<Path>): seq<Record> {
    if !configured then []
    else Records(files, listing, Crash) + Records(files, listing, BugReport) + Records(files, listing, Event)
  }

  class SidecarQueue {
    var files: Directory
    var configured: bool

    constructor (stored: Directory, usable: bool)
      ensures files == stored && configured == usable
    {
      files, configured := stored, usable;
    }

    method CountFiles(kind: Kind) returns (count: nat)
      ensures count == |OfKind(files, kind)|
    {
      count := |set p | p in files && files[p].kind == kind|;
    }

    method Write(kind: Kind, body: string, name: Option<Path>) returns (path: Path)
      requires Drawable(files, name)
      modifies this
      ensures path == Written(old(files), configured, kind, name)
      ensures files == AfterWrite(old(files), path, kind, body) && configured == old(configured)
    {
      if !configured {
        return NO_PATH;
      }
      var count := CountFiles(kind);
      if count >= MAX_FILES_PER_KIND {
        return NO_PATH;
      }
      match name {
        case None => path := NO_PATH;
        case Some(file) =>
          files := files[file := File(kind, body)];
          path := file;
      }
    }

    method Remove(path: Path, works: bool)
      modifies this
      ensures files == AfterRemove(old(files), path, works) && configured == old(configured)
    {
      if path == NO_PATH {
        return;
      }
      if works {
        files := files - {path};
      }
    }

    method ScanKind(kind: Kind, listing: seq<Path>) returns (out: seq<Record>)
      ensures out == Records(files, listing, kind)
    {
      out := [];
      for i := 0 to |listing|
        invariant out == Records(files, listing[..i], kind)
      {
        var p := listing[i];
        assert listing[..i + 1][..i] == listing[..i];
        if p in files && files[p].kind == kind && files[p].body != "" {
          out := out + [Record(kind, p, files[p].body)];
        }
      }
      assert listing[..|listing|] == listing;
    }

    method Scan(listing: seq<Path>) returns (out: seq<Record>)
      requires Lists(files, listing)
      ensures out == Scanned(files, configured, listing)
    {
      if !configured {
        return [];
      }
      var crashes := ScanKind(Crash, listing);
      var bugs := ScanKind(BugReport, listing);
      var events := ScanKind(Event, listing);
      out := crashes + bugs + events;
    }
  }

  // ------------------------------------------------- what a scan finds

  predicate Faithful(files: Directory, rs: seq<Record>) {
    forall i :: 0 <= i < |rs| ==>
      && rs[i].path in files && files[rs[i].path] == File(rs[i].kind, rs[i].body) && rs[i].body != ""
  }

  predicate DistinctPaths(rs: seq<Record>) { forall i, j :: 0 <= i < j < |rs| ==> rs[i].path != rs[j].path }

  predicate Finds(rs: seq<Record>, p: Path) { exists i :: 0 <= i < |rs| && rs[i].path == p }

  lemma {:induction false} RecordsAreFiles(files: Directory, listing: seq<Path>, kind: Kind)
    ensures var rs := Records(files, listing, kind);
            Faithful(files, rs) && forall i :: 0 <= i < |rs| ==> rs[i].kind == kind && rs[i].path in listing
  {
    if listing != [] {
      RecordsAreFiles(files, listing[..|listing| - 1], kind);
    }
  }

  lemma {:induction false} RecordsAreDistinct(files: Directory, listing: seq<Path>, kind: Kind)
    requires Distinct(listing)
    ensures DistinctPaths(Records(files, listing, kind))
  {
    if listing != [] {
      var n := |listing| - 1;
      RecordsAreDistinct(files, listing[..n], kind);
      RecordsAreFiles(files, listing[..n], kind);
      assert listing[n] !in listing[..n];
    }
  }

  lemma {:induction false} RecordsAreAll(files: Directory, listing: seq<Path>, kind: Kind, p: Path)
    requires p in listing && p in files && files[p].kind == kind && files[p].body != ""
    ensures Finds(Records(files, listing, kind), p)
  {
    var n := |listing| - 1;
    var rs, all := Records(files, listing[..n], kind), Records(files, listing, kind);
    if listing[n] == p {
      assert all[|rs|].path == p;
    } else {
      assert listing == listing[..n] + [listing[n]];
      RecordsAreAll(files, listing[..n], kind, p);
      var i :| 0 <= i < |rs| && rs[i].path == p;
      assert all[i].path == p;
    }
  }

  lemma RecordsOfKind(files: Directory, listing: seq<Path>, kind: Kind)
    requires Distinct(listing)
    ensures var rs := Records(files, listing, kind);
            && Faithful(files, rs) && DistinctPaths(rs)
            && (forall i :: 0 <= i < |rs| ==> rs[i].kind == kind && rs[i].path in listing)
    ensures forall p :: p in listing && p in files && files[p].kind == kind && files[p].body != ""
                        ==> Finds(Records(files, listing, kind), p)
  {
    RecordsAreFiles(files, listing, kind);
    RecordsAreDistinct(files, listing, kind);
    forall p | p in listing && p in files && files[p].kind == kind && files[p].body != ""
      ensures Finds(Records(files, listing, kind), p)
    {
      RecordsAreAll(files, listing, kind, p);
    }
  }

  lemma {:induction false} RecordsKeepOrder(files: Directory, listing: seq<Path>, kind: Kind, i: nat, j: nat, a: nat, b: nat)
    requires Distinct(listing) && i < j < |Records(files, listing, kind)| && a < |listing| && b < |listing|
    requires Records(files, listing, kind)[i].path == listing[a] && Records(files, listing, kind)[j].path == listing[b]
    ensures a < b
  {
    var n := |listing| - 1;
    var front := listing[..n];
    var rs := Records(files, front, kind);
    RecordsAreFiles(files, front, kind);
    assert rs[i].path in front;
    if j < |rs| {
      assert rs[j].path in front && front[a] == listing[a] && front[b] == listing[b];
      RecordsKeepOrder(files, front, kind, i, j, a, b);
    }
  }

  /** Which listing by kind a scanned record comes from, and where it stands there. */
  lemma ScannedFrom(files: Directory, listing: seq<Path>, i: nat) returns (kind: Kind, at: nat)
    requires i < |Scanned(files, true, listing)|
    ensures at < |Records(files, listing, kind)| && Records(files, listing, kind)[at] == Scanned(files, true, listing)[i]
    ensures var c, b := |Records(files, listing, Crash)|, |Records(files, listing, BugReport)|;
            && (kind == if i < c then Crash else if i < c + b then BugReport else Event)
            && at == if i < c then i else if i < c + b then i - c else i - c - b
    ensures var p := Scanned(files, true, listing)[i].path; p in files && files[p].kind == kind
  {
    hide Records;
    var c, b := |Records(files, listing, Crash)|, |Records(files, listing, BugReport)|;
    kind := if i < c then Crash else if i < c + b then BugReport else Event;
    at := if i < c then i else if i < c + b then i - c else i - c - b;
    RecordsAreFiles(files, listing, kind);
  }

  /** Crashes come first, then bug reports, then events, and each kind in the order of the listing. */
  lemma ScanKeepsOrder(files: Directory, listing: seq<Path>, i: nat, j: nat, a: nat, b: nat)
    requires Lists(files, listing) && i < j < |Scanned(files, true, listing)| && a < |listing| && b < |listing|
    requires var rs := Scanned(files, true, listing); rs[i].path == listing[a] && rs[j].path == listing[b]
    ensures var first, second := files[listing[a]].kind, files[listing[b]].kind;
            if first == second then a < b else first == Crash || second == Event
  {
    hide Records, Scanned;
    var first, k := ScannedFrom(files, listing, i);
    var second, l := ScannedFrom(files, listing, j);
    if first == second {
      RecordsKeepOrder(files, listing, first, k, l, a, b);
    }
  }

  predicate Disjoint(a: seq<Record>, b: seq<Record>) {
    forall i, j :: 0 <= i < |a| && 0 <= j < |b| ==> a[i].path != b[j].path
  }

  lemma JoinRecords(files: Directory, a: seq<Record>, b: seq<Record>)
    requires Faithful(files, a) && Faithful(files, b) && DistinctPaths(a) && DistinctPaths(b) && Disjoint(a, b)
    ensures Faithful(files, a + b) && DistinctPaths(a + b)
  {
  }

  lemma FindsInEither(a: seq<Record>, b: seq<Record>, p: Path)
    requires Finds(a, p) || Finds(b, p)
    ensures Finds(a + b, p)
  {
    if Finds(a, p) {
      var i :| 0 <= i < |a| && a[i].path == p;
      assert (a + b)[i].path == p;
    } else {
      var i :| 0 <= i < |b| && b[i].path == p;
      assert (a + b)[|a| + i].path == p;
    }
  }

  /** A scan finds every stored payload exactly once, with its kind and exact body, and nothing else. */
  lemma ScanIsComplete(files: Directory, listing: seq<Path>)
    requires Lists(files, listing)
    ensures Faithful(files, Scanned(files, true, listing)) && DistinctPaths(Scanned(files, true, listing))
    ensures forall p :: p in files && files[p].body != "" ==> Finds(Scanned(files, true, listing), p)
  {
    RecordsOfKind(files, listing, Crash);
    RecordsOfKind(files, listing, BugReport);
    RecordsOfKind(files, listing, Event);
    var a, b, c := Records(files, listing, Crash), Records(files, listing, BugReport), Records(files, listing, Event);
    JoinRecords(files, a, b);
    JoinRecords(files, a + b, c);
    forall p | p in files && files[p].body != ""
      ensures Finds(a + b + c, p)
    {
      FindsOfKind(a, b, c, p);
    }
  }

  lemma FindsOfKind(a: seq<Record>, b: seq<Record>, c: seq<Record>, p: Path)
    requires Finds(a, p) || Finds(b, p) || Finds(c, p)
    ensures Finds(a + b + c, p)
  {
    if Finds(a, p) || Finds(b, p) {
      FindsInEither(a, b, p);
    }
    FindsInEither(a + b, c, p);
  }

  predicate WithinBound(files: Directory) { forall k: Kind :: |OfKind(files, k)| <= 64 }

  /** A payload gets a file exactly when storage is usable, its kind has fewer than 64 files, and one can be opened. */
  lemma WrittenExactly(files: Directory, configured: bool, kind: Kind, name: Option<Path>, body: string)
    requires Drawable(files, name)
    ensures var path := Written(files, configured, kind, name);
            && (path != NO_PATH <==> configured && |OfKind(files, kind)| < 64 && name.Some?)
            && AfterWrite(files, path, kind, body) == if path != NO_PATH then files[name.value := File(kind, body)] else files
  {
  }

  /** No write takes a kind past its bound. */
  lemma WriteKeepsBound(files: Directory, configured: bool, kind: Kind, name: Option<Path>, body: string)
    requires WithinBound(files) && Drawable(files, name)
    ensures WithinBound(AfterWrite(files, Written(files, configured, kind, name), kind, body))
  {
    var path := Written(files, configured, kind, name);
    if path != NO_PATH {
      forall k: Kind
        ensures |OfKind(AfterWrite(files, path, kind, body), k)| <= MAX_FILES_PER_KIND
      {
        AddFile(files, path, File(kind, body), k);
      }
    }
  }

  lemma AddFile(files: Directory, path: Path, file: File, k: Kind)
    requires path !in files
    ensures |OfKind(files[path := file], k)| == |OfKind(files, k)| + if k == file.kind then 1 else 0
  {
    if k == file.kind {
      assert OfKind(files[path := file], k) == OfKind(files, k) + {path};
    } else {
      assert OfKind(files[path := file], k) == OfKind(files, k);
    }
  }

  lemma RemoveKeepsBound(files: Directory, path: Path, works: bool)
    requires WithinBound(files)
    ensures WithinBound(AfterRemove(files, path, works))
  {
    var after := AfterRemove(files, path, works);
    forall k: Kind
      ensures |OfKind(after, k)| <= MAX_FILES_PER_KIND
    {
      Subset(OfKind(after, k), OfKind(files, k));
    }
  }

  lemma {:induction false} Subset<T>(a: set<T>, b: set<T>)
    requires a <= b
    ensures |a| <= |b|
    decreases |a|
  {
    if a != {} {
      var x :| x in a;
      Subset(a - {x}, b - {x});
    }
  }
}
