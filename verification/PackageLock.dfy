/** The package lock and the file integrity manifest over a plugin's files. */
module PackageLock {
  import opened Prelude
  import opened Text

  // ---------- Paths ----------

  function JoinSlash(parts: seq<string>): string {
    if parts == [] then [] else if |parts| == 1 then parts[0] else parts[0] + "/" + JoinSlash(parts[1..])
  }

  function Solid(parts: seq<string>): (r: seq<string>)
    ensures forall p :: p in r <==> p in parts && p != "" && p != "."
  {
    if parts == [] then []
    else if parts[0] == "" || parts[0] == "." then Solid(parts[1..]) else [parts[0]] + Solid(parts[1..])
  }

  /** The components of a POSIX path: empty ones and "." are dropped. */
  function Parts(path: string): seq<string> {
    Solid(Split(path, '/'))
  }

  function ForwardSlashes(path: string): (r: string)
    ensures |r| == |path| && forall i :: 0 <= i < |r| ==> r[i] == if path[i] == '\\' then '/' else path[i]
  {
    seq(|path|, i requires 0 <= i < |path| => if path[i] == '\\' then '/' else path[i])
  }

  /** `normalize_archive_path`; None where it raises. */
  function NormalizeArchivePath(path: string): Option<string> {
    var p := ForwardSlashes(path);
    var parts := Parts(p);
    if (p != [] && p[0] == '/') || ".." in parts then None
    else Some(if parts == [] then "." else JoinSlash(parts))
  }

  /** A relative path as a directory walk reports it. */
  predicate Walked(path: string) {
    forall p :: p in Split(path, '/') ==> p != "" && p != "." && p != ".."
  }

  lemma {:induction false} JoinSplit(s: string)
    ensures JoinSlash(Split(s, '/')) == s
  {
    var i := FirstIndex(s, '/');
    if i < |s| {
      JoinSplit(s[i + 1..]);
      assert s == s[..i] + "/" + s[i + 1..];
    }
  }

  lemma {:induction false} SolidAll(parts: seq<string>)
    requires forall p :: p in parts ==> p != "" && p != "."
    ensures Solid(parts) == parts
  {
    if parts != [] {
      assert parts[0] in parts && forall p :: p in parts[1..] ==> p in parts;
      SolidAll(parts[1..]);
      assert parts == [parts[0]] + parts[1..];
    }
  }

  lemma WalkedIsRelative(path: string)
    requires Walked(path)
    ensures path != [] && path[0] != '/'
  {
    assert Split(path, '/')[0] in Split(path, '/');
    assert path != [] ==> (path[0] == '/' ==> FirstIndex(path, '/') == 0);
  }

  lemma {:induction false} JoinHasNoBackslash(parts: seq<string>)
    requires forall p, i :: p in parts && 0 <= i < |p| ==> p[i] != '\\'
    ensures '\\' !in JoinSlash(parts)
  {
    if |parts| > 1 {
      assert parts[0] in parts;
      JoinHasNoBackslash(parts[1..]);
    }
  }

  lemma {:induction false} SplitHasNoBackslash(s: string)
    requires '\\' !in s
    ensures forall p, i :: p in Split(s, '/') && 0 <= i < |p| ==> p[i] != '\\'
  {
    var i := FirstIndex(s, '/');
    if i < |s| {
      SplitHasNoBackslash(s[i + 1..]);
    }
  }

  /** A walked path is its own normal form exactly if it has no backslash. */
  lemma WalkedIsNormalIff(path: string)
    requires Walked(path)
    ensures NormalizeArchivePath(path) == Some(path) <==> '\\' !in path
  {
    var p := ForwardSlashes(path);
    if '\\' !in path {
      assert p == path;
      WalkedIsRelative(path);
      SolidAll(Split(path, '/'));
      JoinSplit(path);
    } else {
      assert '\\' !in p by {
        assert forall i :: 0 <= i < |p| ==> p[i] != '\\';
      }
      SplitHasNoBackslash(p);
      JoinHasNoBackslash(Parts(p));
    }
  }

  // ---------- What is covered ----------

  const MANIFEST_FILE := ".plugin-install.json"
  const CONFIG_FILE := ".plugin-config.json"
  const DEPS_FILE := ".plugin-deps.json"
  const PACKAGE_LOCK_FILE := "manifest.lock"

  predicate EndsWith(s: string, suffix: string) {
    |s| >= |suffix| && s[|s| - |suffix|..] == suffix
  }

  /** `integrity_path_excluded`. */
  predicate Excluded(path: string) {
    var parts := Parts(path);
    || parts == []
    || parts[0] == ".venv" || parts[0] == "__pycache__" || parts[0] == "data"
    || parts[|parts| - 1] == MANIFEST_FILE || parts[|parts| - 1] == CONFIG_FILE || parts[|parts| - 1] == DEPS_FILE
    || EndsWith(parts[|parts| - 1], ".pyc") || EndsWith(parts[|parts| - 1], ".pyo")
  }

  predicate Lockable(path: string) {
    path != PACKAGE_LOCK_FILE && !Excluded(path)
  }

  /** A file's content. */
  type Content = string

  type Tree = map<string, Content>

  datatype Digest = Digest(sha256: string, size: nat)

  function DigestOf(hash: Content -> string, content: Content): Digest {
    Digest(hash(content), |content|)
  }

  function IntegrityFiles(hash: Content -> string, tree: Tree): map<string, Digest> {
    map path | path in tree && !Excluded(path) :: DigestOf(hash, tree[path])
  }

  function LockFiles(hash: Content -> string, tree: Tree): map<string, Digest> {
    map path | path in tree && Lockable(path) :: DigestOf(hash, tree[path])
  }

  method BuildFileIntegrityManifest(hash: Content -> string, tree: Tree) returns (files: map<string, Digest>)
    ensures files == IntegrityFiles(hash, tree)
  {
    files := map[];
    var pending := tree.Keys;
    while pending != {}
      invariant pending <= tree.Keys
      invariant files == map path | path in tree && path !in pending && !Excluded(path) :: DigestOf(hash, tree[path])
    {
      var path :| path in pending;
      if !Excluded(path) {
        files := files[path := DigestOf(hash, tree[path])];
      }
      pending := pending - {path};
    }
  }

  method BuildPackageLock(hash: Content -> string, tree: Tree) returns (files: map<string, Digest>)
    ensures files == LockFiles(hash, tree)
  {
    files := map[];
    var pending := tree.Keys;
    while pending != {}
      invariant pending <= tree.Keys
      invariant files == map path | path in tree && path !in pending && Lockable(path) :: DigestOf(hash, tree[path])
    {
      var path :| path in pending;
      pending := pending - {path};
      if path == PACKAGE_LOCK_FILE { continue; }
      if Excluded(path) { continue; }
      files := files[path := DigestOf(hash, tree[path])];
    }
  }

  // ---------- Verifying ----------

  /** An entry of a lock that was read: perhaps no object, perhaps without a hash or a size. */
  datatype LockEntry = NotAnObject | LockEntry(sha256: Option<string>, size: Option<nat>)

  datatype LockedFiles = NoFiles | LockedFiles(files: map<string, LockEntry>)

  datatype Lock = Lock(version: int, algorithm: string, content: LockedFiles)

  function AsEntry(d: Digest): LockEntry {
    LockEntry(Some(d.sha256), Some(d.size))
  }

  function BuiltLock(hash: Content -> string, tree: Tree): Lock {
    Lock(1, "sha256", LockedFiles(map path | path in LockFiles(hash, tree) :: AsEntry(LockFiles(hash, tree)[path])))
  }

  predicate InvalidEntry(path: string, entry: LockEntry) {
    NormalizeArchivePath(path) != Some(path) || path == PACKAGE_LOCK_FILE || entry.NotAnObject?
  }

  /** The lock agrees with the files: what `verify_package_lock` accepts. */
  ghost predicate Accepted(hash: Content -> string, tree: Tree, lock: Lock) {
    && lock.version == 1 && lock.algorithm == "sha256"
    && lock.content.LockedFiles? && lock.content.files.Keys != {}
    && (forall path :: path in lock.content.files ==> NormalizeArchivePath(path) == Some(path))
    && lock.content.files == BuiltLock(hash, tree).content.files
  }

  /** The paths of the lock with an invalid entry, and those whose entry disagrees. */
  method CheckEntries(files: map<string, LockEntry>, actual: map<string, Digest>)
    returns (invalid: set<string>, changed: set<string>)
    ensures invalid == set path | path in files && InvalidEntry(path, files[path])
    ensures changed == set path | path in files && !InvalidEntry(path, files[path]) && path in actual
                                  && files[path] != AsEntry(actual[path])
  {
    hide NormalizeArchivePath;
    invalid, changed := {}, {};
    var pending := files.Keys;
    while pending != {}
      invariant pending <= files.Keys
      invariant invalid == set path | path in files && path !in pending && InvalidEntry(path, files[path])
      invariant changed == set path | path in files && path !in pending && !InvalidEntry(path, files[path])
                                      && path in actual && files[path] != AsEntry(actual[path])
    {
      var path :| path in pending;
      pending := pending - {path};
      if InvalidEntry(path, files[path]) {
        invalid := invalid + {path};
      } else if path in actual {
        if files[path].sha256 != Some(actual[path].sha256) || files[path].size != Some(actual[path].size) {
          changed := changed + {path};
        }
      }
    }
  }

  /** `verify_package_lock`: false where it raises. */
  method VerifyPackageLock(hash: Content -> string, tree: Tree, lock: Lock) returns (ok: bool)
    ensures ok <==> Accepted(hash, tree, lock)
  {
    if lock.version != 1 || lock.algorithm != "sha256" { return false; }
    if lock.content.NoFiles? || lock.content.files.Keys == {} { return false; }
    var files := lock.content.files;
    var actual := BuildPackageLock(hash, tree);
    var invalid, changed := CheckEntries(files, actual);
    var missing, extra := files.Keys - actual.Keys, actual.Keys - files.Keys;
    ok := invalid == {} && missing == {} && extra == {} && changed == {};
    AcceptedIff(files, actual, missing, extra, invalid, changed);
  }

  /** The four sets are empty exactly if the two maps agree and the paths are normal. */
  lemma AcceptedIff(files: map<string, LockEntry>, actual: map<string, Digest>,
                    missing: set<string>, extra: set<string>, invalid: set<string>, changed: set<string>)
    requires missing == files.Keys - actual.Keys && extra == actual.Keys - files.Keys
    requires invalid == set path | path in files && InvalidEntry(path, files[path])
    requires changed == set path | path in files && !InvalidEntry(path, files[path]) && path in actual
                                   && files[path] != AsEntry(actual[path])
    requires PACKAGE_LOCK_FILE !in actual
    ensures invalid == {} && missing == {} && extra == {} && changed == {} <==>
            && (forall path :: path in files ==> NormalizeArchivePath(path) == Some(path))
            && files == map path | path in actual :: AsEntry(actual[path])
  {
    var expected := map path | path in actual :: AsEntry(actual[path]);
    if invalid == {} && missing == {} && extra == {} && changed == {} {
      forall path | path in files ensures path in actual && files[path] == AsEntry(actual[path]) && !InvalidEntry(path, files[path]) {
        assert path !in invalid && path !in changed && path !in missing;
      }
      forall path | path in actual ensures path in files {
        assert path !in extra;
      }
      assert files == expected;
    }
    if (forall path :: path in files ==> NormalizeArchivePath(path) == Some(path)) && files == expected {
      forall path ensures path !in invalid && path !in changed && path !in missing && path !in extra {
        assert path in files <==> path in actual;
      }
    }
  }

  // ---------- What the lock and the manifest hold ----------

  /** A built lock is accepted exactly if something is covered and no covered path has a backslash. */
  lemma BuiltLockAcceptedIff(hash: Content -> string, tree: Tree)
    requires forall path :: path in tree ==> Walked(path)
    ensures Accepted(hash, tree, BuiltLock(hash, tree)) <==>
              && (exists path :: path in tree && Lockable(path))
              && (forall path :: path in tree && Lockable(path) ==> '\\' !in path)
  {
    var files := BuiltLock(hash, tree).content.files;
    forall path | path in tree ensures path in files <==> Lockable(path) {
    }
    forall path | path in files ensures NormalizeArchivePath(path) == Some(path) <==> '\\' !in path {
      WalkedIsNormalIff(path);
    }
    assert files.Keys != {} <==> exists path :: path in tree && Lockable(path) by {
      assert files.Keys == set path | path in tree && Lockable(path);
      if exists path :: path in tree && Lockable(path) {
        var path :| path in tree && Lockable(path);
        assert path in files.Keys;
      }
    }
  }

  /** Two contents the hash and the size do not tell apart. */
  ghost predicate Collision(hash: Content -> string, a: Content, b: Content) {
    a != b && hash(a) == hash(b) && |a| == |b|
  }

  /** A tree that a lock of another tree accepts has the same covered files with the same contents, or
      a collision of the hash is at hand. */
  lemma AcceptedMeansUnchanged(hash: Content -> string, locked: Tree, now: Tree)
    requires Accepted(hash, now, BuiltLock(hash, locked))
    ensures || (forall path :: Lockable(path) ==> (path in locked <==> path in now) && (path in locked ==> locked[path] == now[path]))
            || (exists path :: path in locked && path in now && Collision(hash, locked[path], now[path]))
  {
    var was, after := BuiltLock(hash, locked).content.files, BuiltLock(hash, now).content.files;
    forall path | Lockable(path) ensures path in locked <==> path in now {
      assert path in was <==> path in after;
    }
    if !exists path :: path in locked && path in now && Collision(hash, locked[path], now[path]) {
      forall path | Lockable(path) && path in locked ensures locked[path] == now[path] {
        assert was[path] == after[path];
        assert !Collision(hash, locked[path], now[path]);
      }
    }
  }

  // ---------- Writes at run time ----------

  /** A plugin directory: its files, and what the install manifest records about their integrity. */
  datatype Directory = Directory(tree: Tree, integrity: Option<map<string, Digest>>)

  /** What the running system writes into a plugin directory. */
  datatype Write =
    | DataWrite(relative: string, content: Content)
    | PersistManifest(content: Content)
    | WriteConfig(content: Content)
    | WriteDependencies(content: Content)

  /** The gateway's data path: relative, without "..", and below `data`. */
  predicate SafeDataPath(relative: string) {
    (relative == [] || relative[0] != '/') && ".." !in Parts(relative) && Parts(relative) != []
  }

  /** A write the gateway refuses changes nothing; persisting the manifest keeps its integrity part. */
  function Apply(d: Directory, w: Write): Directory {
    match w
    case DataWrite(relative, content) =>
      if SafeDataPath(relative) then d.(tree := d.tree["data/" + JoinSlash(Parts(relative)) := content]) else d
    case PersistManifest(content) => d.(tree := d.tree[MANIFEST_FILE := content])
    case WriteConfig(content) => d.(tree := d.tree[CONFIG_FILE := content])
    case WriteDependencies(content) => d.(tree := d.tree[DEPS_FILE := content])
  }

  function ApplyAll(d: Directory, writes: seq<Write>): Directory
    decreases |writes|
  {
    if writes == [] then d else ApplyAll(Apply(d, writes[0]), writes[1..])
  }

  datatype Report = Skipped | Success(checked: nat) | Violated

  /** `verify_integrity` on the recorded manifest. */
  method VerifyIntegrity(hash: Content -> string, d: Directory) returns (r: Report)
    ensures r == IntegrityReport(hash, d)
  {
    if d.integrity.None? { return Skipped; }
    var expected := d.integrity.value;
    var actual := BuildFileIntegrityManifest(hash, d.tree);
    var missing, extra := expected.Keys - actual.Keys, actual.Keys - expected.Keys;
    var changed := set path | path in expected.Keys * actual.Keys && expected[path] != actual[path];
    SameMapIff(expected, actual, missing, extra, changed);
    if missing != {} || extra != {} || changed != {} { return Violated; }
    return Success(|expected|);
  }

  function IntegrityReport(hash: Content -> string, d: Directory): Report {
    if d.integrity.None? then Skipped
    else if d.integrity.value == IntegrityFiles(hash, d.tree) then Success(|d.integrity.value|)
    else Violated
  }

  lemma SameMapIff(expected: map<string, Digest>, actual: map<string, Digest>,
                   missing: set<string>, extra: set<string>, changed: set<string>)
    requires missing == expected.Keys - actual.Keys && extra == actual.Keys - expected.Keys
    requires changed == set path | path in expected.Keys * actual.Keys && expected[path] != actual[path]
    ensures missing == {} && extra == {} && changed == {} <==> expected == actual
  {
    if missing == {} && extra == {} && changed == {} {
      forall path | path in expected ensures path in actual && expected[path] == actual[path] {
        assert path !in missing && path !in changed;
      }
      forall path | path in actual ensures path in expected {
        assert path !in extra;
      }
    }
    if expected == actual {
      forall path ensures path !in missing && path !in extra && path !in changed {
      }
    }
  }

  lemma DataIsExcluded(rest: string)
    ensures Excluded("data/" + rest)
  {
    assert "data/" + rest == "data" + ['/'] + rest;
    SplitJoin("data", '/', rest);
    assert Parts("data/" + rest)[0] == "data";
  }

  lemma SinglePart(name: string)
    requires '/' !in name && name != "" && name != "."
    ensures Parts(name) == [name]
  {
    SplitJoin(name, '/', []);
    assert Solid([name]) == [name] + Solid([name][1..]);
  }

  lemma RecordsAreExcluded()
    ensures Excluded(MANIFEST_FILE) && Excluded(CONFIG_FILE) && Excluded(DEPS_FILE)
  {
    hide Parts;
    SinglePart(MANIFEST_FILE);
    SinglePart(CONFIG_FILE);
    SinglePart(DEPS_FILE);
  }

  lemma ExcludedWrite(hash: Content -> string, tree: Tree, path: string, content: Content)
    requires Excluded(path)
    ensures IntegrityFiles(hash, tree[path := content]) == IntegrityFiles(hash, tree)
    ensures LockFiles(hash, tree[path := content]) == LockFiles(hash, tree)
  {
    hide Excluded;
  }

  lemma WriteKeepsCovered(hash: Content -> string, d: Directory, w: Write)
    ensures var e := Apply(d, w);
            && IntegrityFiles(hash, e.tree) == IntegrityFiles(hash, d.tree)
            && LockFiles(hash, e.tree) == LockFiles(hash, d.tree)
            && e.integrity == d.integrity
  {
    hide Excluded, IntegrityFiles, LockFiles, Parts, JoinSlash;
    RecordsAreExcluded();
    match w
    case DataWrite(relative, content) =>
      DataIsExcluded(JoinSlash(Parts(relative)));
      ExcludedWrite(hash, d.tree, "data/" + JoinSlash(Parts(relative)), content);
    case PersistManifest(content) => ExcludedWrite(hash, d.tree, MANIFEST_FILE, content);
    case WriteConfig(content) => ExcludedWrite(hash, d.tree, CONFIG_FILE, content);
    case WriteDependencies(content) => ExcludedWrite(hash, d.tree, DEPS_FILE, content);
  }

  /** No sequence of gateway data writes and of manifest, configuration and dependency records ever
      changes the outcome of the integrity check or of the package lock. */
  lemma {:induction false} RuntimeWritesKeepSeals(hash: Content -> string, d: Directory, writes: seq<Write>, lock: Lock)
    ensures IntegrityReport(hash, ApplyAll(d, writes)) == IntegrityReport(hash, d)
    ensures Accepted(hash, ApplyAll(d, writes).tree, lock) <==> Accepted(hash, d.tree, lock)
    decreases |writes|
  {
    if writes != [] {
      WriteKeepsCovered(hash, d, writes[0]);
      RuntimeWritesKeepSeals(hash, Apply(d, writes[0]), writes[1..], lock);
    }
  }
}
