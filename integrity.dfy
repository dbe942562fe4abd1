/** backend/security/integrity.py: checking a list of files against a
    baseline of SHA-256 hashes, and building such a baseline. The file system
    is a value: a path that is absent does not exist, a path mapped to
    `Unreadable` exists but hashing it or reading its modification time
    fails, and a readable file carries the hex digest of its contents and its
    modification time in whole seconds. */
module Integrity {
  import opened Wrappers
  import opened Risk

  datatype FileState = Readable(digest: string, mtime: int) | Unreadable

  type FileSystem = map<string, FileState>

  /** The `status` of a check; `Intact` is the status the source writes as 'safe'. */
  datatype FileStatus = Intact | Modified | Missing | Error

  /** One row of `scan_file_integrity`. */
  datatype FileCheck = FileCheck(
    path: string,
    currentHash: Option<string>,
    expectedHash: Option<string>,
    lastModified: Option<int>,
    status: FileStatus,
    risk: RiskLevel)

  function RiskOf(f: FileCheck): RiskLevel { f.risk }

  /** The string `calculate_sha256` returns for a digest. */
  function HashOf(digest: string): (h: string)
    ensures |h| == 7 + |digest| && h[..7] == "sha256:" && h[7..] == digest
  {
    "sha256:" + digest
  }

  lemma HashOfInjective(d0: string, d1: string)
    requires HashOf(d0) == HashOf(d1)
    ensures d0 == d1
  {
    assert d0 == HashOf(d0)[7..];
  }

  /** `baseline.get(filepath) if baseline else None`: an empty baseline and
      no baseline both give None. */
  function Expected(path: string, baseline: map<string, string>): (e: Option<string>)
    ensures e.Some? <==> path in baseline
    ensures e.Some? ==> e.value == baseline[path]
  {
    if path in baseline then Some(baseline[path]) else None
  }

  /** The result `scan_file_integrity` records for one path. A file counts as
      modified only when the baseline has a non-empty hash for it that
      differs from the current one. */
  function CheckFile(path: string, fs: FileSystem, baseline: map<string, string>): (c: FileCheck)
    ensures c.path == path
    ensures c.status == Missing <==> path !in fs
    ensures c.status == Error <==> path in fs && fs[path].Unreadable?
    ensures c.status == Modified <==>
              && path in fs && fs[path].Readable? && path in baseline
              && baseline[path] != "" && baseline[path] != HashOf(fs[path].digest)
    ensures c.risk == match c.status
                      case Intact => Safe
                      case Modified => High
                      case Missing => High
                      case Error => Medium
    ensures c.currentHash.Some? <==> c.status in {Intact, Modified}
    ensures c.status in {Intact, Modified} ==> c.currentHash == Some(HashOf(fs[path].digest))
    ensures c.status != Error ==> c.expectedHash == Expected(path, baseline)
    ensures c.status == Error ==> c.expectedHash.None?
    ensures c.status in {Intact, Modified} ==> c.lastModified == Some(fs[path].mtime)
    ensures c.status in {Missing, Error} ==> c.lastModified.None?
  {
    if path !in fs then
      FileCheck(path, None, Expected(path, baseline), None, Missing, High)
    else match fs[path]
      case Unreadable =>
        FileCheck(path, None, None, None, Error, Medium)
      case Readable(digest, mtime) =>
        var current := HashOf(digest);
        var expected := Expected(path, baseline);
        if expected.Some? && expected.value != "" && current != expected.value then
          FileCheck(path, Some(current), expected, Some(mtime), Modified, High)
        else
          FileCheck(path, Some(current), expected, Some(mtime), Intact, Safe)
  }

  /** `scan_file_integrity`: one result per requested path, in order. */
  method ScanFileIntegrity(paths: seq<string>, fs: FileSystem, baseline: map<string, string>)
    returns (results: seq<FileCheck>)
    ensures |results| == |paths|
    ensures forall i :: 0 <= i < |paths| ==> results[i] == CheckFile(paths[i], fs, baseline)
  {
    results := [];
    for i := 0 to |paths|
      invariant |results| == i
      invariant forall j :: 0 <= j < i ==> results[j] == CheckFile(paths[j], fs, baseline)
    {
      var path := paths[i];
      var check: FileCheck;
      if path in fs {
        match fs[path]
        case Readable(digest, mtime) =>
          var current := HashOf(digest);
          var expected := Expected(path, baseline);
          var status, risk := Intact, Safe;
          if expected.Some? && expected.value != "" && current != expected.value {
            status, risk := Modified, High;
          }
          check := FileCheck(path, Some(current), expected, Some(mtime), status, risk);
        case Unreadable =>
          check := FileCheck(path, None, None, None, Error, Medium);
      } else {
        check := FileCheck(path, None, Expected(path, baseline), None, Missing, High);
      }
      results := results + [check];
    }
  }

  /** `baseline` holds the current hash of exactly those listed files that
      exist and can be hashed. */
  ghost predicate IsSnapshot(baseline: map<string, string>, paths: seq<string>, fs: FileSystem)
  {
    && (forall p :: p in baseline <==> p in paths && p in fs && fs[p].Readable?)
    && (forall p :: p in baseline ==> p in fs && fs[p].Readable? && baseline[p] == HashOf(fs[p].digest))
  }

  /** `create_baseline`: files that are missing or cannot be hashed are skipped. */
  method CreateBaseline(paths: seq<string>, fs: FileSystem) returns (baseline: map<string, string>)
    ensures IsSnapshot(baseline, paths, fs)
  {
    baseline := map[];
    for i := 0 to |paths|
      invariant forall p :: p in baseline <==> p in paths[..i] && p in fs && fs[p].Readable?
      invariant forall p :: p in baseline ==> p in fs && fs[p].Readable? && baseline[p] == HashOf(fs[p].digest)
    {
      var path := paths[i];
      assert paths[..i + 1] == paths[..i] + [path];
      if path in fs && fs[path].Readable? {
        baseline := baseline[path := HashOf(fs[path].digest)];
      }
    }
    assert paths[..|paths|] == paths;
  }

  /** Checked against a baseline taken of the same file system, no file is
      reported modified: every file that can be hashed is intact. */
  lemma SnapshotReportsNoChange(baseline: map<string, string>, paths: seq<string>, fs: FileSystem, p: string)
    requires IsSnapshot(baseline, paths, fs)
    requires p in paths
    ensures CheckFile(p, fs, baseline).status != Modified
    ensures p in fs && fs[p].Readable? ==> CheckFile(p, fs, baseline).status == Intact
  {
  }

  /** A file whose contents changed after the baseline was taken is reported
      modified and high risk, with both hashes in the result. */
  lemma ChangedFileIsModified(baseline: map<string, string>, paths: seq<string>, fs: FileSystem,
                              fs': FileSystem, p: string)
    requires IsSnapshot(baseline, paths, fs)
    requires p in paths && p in fs && fs[p].Readable?
    requires p in fs' && fs'[p].Readable? && fs'[p].digest != fs[p].digest
    ensures CheckFile(p, fs', baseline).status == Modified
    ensures CheckFile(p, fs', baseline).risk == High
    ensures CheckFile(p, fs', baseline).expectedHash == Some(HashOf(fs[p].digest))
    ensures CheckFile(p, fs', baseline).currentHash == Some(HashOf(fs'[p].digest))
  {
    if baseline[p] == HashOf(fs'[p].digest) {
      HashOfInjective(fs[p].digest, fs'[p].digest);
    }
  }

  /** A file that disappeared after the baseline was taken is reported
      missing and high risk, with its recorded hash kept. */
  lemma DeletedFileIsMissing(baseline: map<string, string>, paths: seq<string>, fs: FileSystem,
                             fs': FileSystem, p: string)
    requires IsSnapshot(baseline, paths, fs)
    requires p in paths && p in fs && fs[p].Readable? && p !in fs'
    ensures CheckFile(p, fs', baseline).status == Missing
    ensures CheckFile(p, fs', baseline).risk == High
    ensures CheckFile(p, fs', baseline).expectedHash == Some(HashOf(fs[p].digest))
  {
  }

  /** Without a baseline nothing can be reported modified; files are intact,
      missing or unreadable. */
  lemma NoBaselineNoModification(p: string, fs: FileSystem)
    ensures CheckFile(p, fs, map[]).status != Modified
    ensures CheckFile(p, fs, map[]).expectedHash.None?
  {
  }

  /** An empty expected hash is falsy in the source, so it never flags the
      file, whatever its current hash. */
  lemma EmptyExpectedHashNeverFlags(p: string, fs: FileSystem, baseline: map<string, string>)
    requires p in baseline && baseline[p] == ""
    ensures CheckFile(p, fs, baseline).status != Modified
  {
  }
}
