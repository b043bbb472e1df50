/** Registry installs: the anti-rollback rule over whole runs, on the plugins directory as the loader
    reads and writes it, with the loader's other operations in between. */
module RegistryInstalls {
  import opened Prelude
  import opened Text
  import opened RegistryVersions
  import L = PluginLifecycle

  // ---------- Operations ----------

  /** The plugins directory and its revoked versions.  `trees` is the model's own, and no operation
      looks at it: the content hash of the package whose tree each plugin directory holds. */
  datatype Directory = Directory(disk: map<string, L.DiskEntry>, revoked: seq<(string, string)>, trees: map<string, string>)

  const EMPTY: Directory := Directory(map[], [], map[])

  /** What is asked for, the package behind the entry of the index, and what the host does. */
  datatype Request = Request(
    entries: seq<Entry>,
    revoked: set<(string, string)>,
    name: string,
    version: Option<string>,
    package: L.Package,
    allowDowngrade: bool,
    allowSameVersion: bool,
    installDependencies: bool,
    production: bool,
    fault: L.Fault)

  /** `_assert_registry_install_not_rollback`; false where it raises. */
  predicate NotRollback(held: L.InstalledPlugin, entry: Entry, allowDowngrade: bool, allowSameVersion: bool) {
    var current, requested := SortKey(held.metadata.version), SortKey(entry.version);
    && current.Some? && requested.Some?
    && (KeyLess(requested.value, current.value) ==> allowDowngrade)
    && (requested.value == current.value && held.packageHash != Some(entry.sha256) ==> allowSameVersion)
  }

  /** The loader that every registry install makes for itself. */
  function Opened(d: Directory): L.Loader {
    L.Discover(L.Loader(map[], d.disk, d.revoked))
  }

  function Options(r: Request): L.InstallOptions {
    L.InstallOptions(true, r.installDependencies, r.production, r.fault)
  }

  predicate Delivers(package: L.Package, entry: Entry) {
    && package.Package?
    && package.metadata.name == entry.name && package.metadata.version == entry.version
    && package.hash == entry.sha256
  }

  /** Every check before the tree swap accepts. */
  predicate Accepted(d: Directory, r: Request, entry: Entry) {
    && (entry.name, entry.version) !in r.revoked
    && Delivers(r.package, entry)
    && L.DiscoveryEnds(d.disk)
    && (entry.name in Opened(d).installed ==>
          NotRollback(Opened(d).installed[entry.name], entry, r.allowDowngrade, r.allowSameVersion))
    && L.ReachesSwap(Opened(d), r.package, Options(r))
  }

  function RegistryInstall(d: Directory, r: Request): Directory {
    match Find(r.entries, r.name, r.version)
    case Err(_) => d
    case Ok(entry) =>
      if !Accepted(d, r, entry) then d
      else d.(disk := L.Install(Opened(d), r.package, Options(r)).0.disk, trees := d.trees[entry.name := entry.sha256])
  }

  /** What happens to the directory: a registry install, or one of the loader's other operations. */
  datatype Change = Registry(request: Request) | Operation(step: L.Step)

  /** Each change is made by a loader of its own. */
  function Changed(d: Directory, c: Change): Directory {
    match c
    case Registry(r) => RegistryInstall(d, r)
    case Operation(step) =>
      var s := L.Apply(Opened(d), step).0;
      d.(disk := s.disk, revoked := s.revoked)
  }

  function ChangeAll(d: Directory, changes: seq<Change>): Directory
    decreases |changes|
  {
    if changes == [] then d else ChangeAll(Changed(d, changes[0]), changes[1..])
  }

  /** Registry installs have both overrides off, and there are no others. */
  predicate Careful(c: Change) {
    match c
    case Registry(r) => !r.allowDowngrade && !r.allowSameVersion
    case Operation(step) => !step.DoInstall?
  }

  // ---------- What is promised ----------

  ghost predicate WellFormed(d: Directory) {
    d.trees.Keys == d.disk.Keys
  }

  function Recorded(file: L.ManifestFile): Option<string> {
    if file.Readable? then file.fields.packageHash else None
  }

  /** From `d` to `e` the key of plugin `n` does not fall, and where it stays, the package stays and the
      recorded hash stays or is lost.  A version without a key is never replaced. */
  ghost predicate Kept(d: Directory, e: Directory, n: string)
    requires n in d.disk && WellFormed(d) && WellFormed(e)
  {
    && n in e.disk
    && var before, after := SortKey(d.disk[n].metadata.version), SortKey(e.disk[n].metadata.version);
       var same := e.trees[n] == d.trees[n] &&
                   (Recorded(e.disk[n].manifest) == Recorded(d.disk[n].manifest) || Recorded(e.disk[n].manifest) == None);
       if before.None? then same && e.disk[n].metadata.version == d.disk[n].metadata.version
       else after.Some? && !KeyLess(after.value, before.value) && (after == before ==> same)
  }

  /** The install fails after the swap and leaves a manifest that hides the plugin from the loader or
      names the hash of another package. */
  predicate Forges(d: Directory, c: Change, n: string) {
    c.Registry? &&
    var r := c.request;
    match Find(r.entries, r.name, r.version)
    case Err(_) => false
    case Ok(entry) =>
      && entry.name == n
      && Accepted(d, r, entry)
      && L.FailsAfterSwap(r.package, Options(r))
      && var left := L.LeftBehind(r.package, Options(r));
         left.Directory? || left.Undecodable? || (Recorded(left).Some? && Recorded(left) != Some(r.package.hash))
  }

  ghost predicate HonestRun(d: Directory, changes: seq<Change>, n: string)
    decreases |changes|
  {
    changes == [] ||
    (Careful(changes[0]) && !Forges(d, changes[0], n) && HonestRun(Changed(d, changes[0]), changes[1..], n))
  }

  /** What the directory holds of `n` is kept by every honest run from here. */
  ghost predicate NeverRolledBack(d: Directory, n: string)
    requires WellFormed(d)
  {
    n in d.disk ==>
      forall later :: HonestRun(d, later, n) ==> WellFormed(ChangeAll(d, later)) && Kept(d, ChangeAll(d, later), n)
  }

  /** The loader sees the plugin and records for it no hash but that of its package, unless it can
      read no directory at all, or the version has no key. */
  ghost predicate Sealed(d: Directory, n: string)
    requires WellFormed(d)
  {
    n in d.disk && L.DiscoveryEnds(d.disk) ==>
      && !L.Skipped(d.disk[n])
      && (SortKey(d.disk[n].metadata.version).Some? ==>
            var hash := Recorded(d.disk[n].manifest);
            hash == None || hash == Some(d.trees[n]))
  }

  // ---------- What one install does ----------

  lemma InstallShape(d: Directory, r: Request)
    requires WellFormed(d)
    ensures WellFormed(RegistryInstall(d, r)) && RegistryInstall(d, r).revoked == d.revoked
    ensures match Find(r.entries, r.name, r.version)
            case Err(_) => RegistryInstall(d, r) == d
            case Ok(entry) =>
              if !Accepted(d, r, entry) then RegistryInstall(d, r) == d
              else
                && Delivers(r.package, entry)
                && RegistryInstall(d, r).trees == d.trees[entry.name := r.package.hash]
                && exists file ::
                     && RegistryInstall(d, r).disk == d.disk[entry.name := L.DiskEntry(r.package.metadata, file)]
                     && if L.FailsAfterSwap(r.package, Options(r)) then file == L.LeftBehind(r.package, Options(r))
                        else file.Readable? && Recorded(file) == Some(r.package.hash)
  {
    assert Opened(d).disk == d.disk;
    hide SortKey, Find, L.Discover, L.Install, L.FailsAfterSwap, L.LeftBehind, L.DiscoveryEnds, NotRollback, L.ReachesSwap;
    var found := Find(r.entries, r.name, r.version);
    if found.Ok? && Accepted(d, r, found.value) {
      var _ := L.SwappedTree(Opened(d), r.package, Options(r));
    }
  }

  /** How the loader sees a directory when every directory can be read. */
  lemma Seen(d: Directory, n: string)
    requires n in d.disk && L.DiscoveryEnds(d.disk)
    ensures n in Opened(d).installed <==> !L.Skipped(d.disk[n])
    ensures n in Opened(d).installed ==>
              && Opened(d).installed[n].metadata == d.disk[n].metadata
              && Opened(d).installed[n].packageHash == Recorded(d.disk[n].manifest)
  {
    assert L.Reached(d.disk, n);
  }

  lemma KeptRefl(d: Directory, n: string)
    requires WellFormed(d) && n in d.disk
    ensures Kept(d, d, n)
  {
    var key := SortKey(d.disk[n].metadata.version);
    if key.Some? { KeyLessTotal(key.value, key.value); }
  }

  lemma KeptTrans(d: Directory, e: Directory, f: Directory, n: string)
    requires WellFormed(d) && WellFormed(e) && WellFormed(f) && n in d.disk
    requires Kept(d, e, n) && Kept(e, f, n)
    ensures Kept(d, f, n)
  {
    hide SortKey, KeyLess;
    var x, y, z := SortKey(d.disk[n].metadata.version), SortKey(e.disk[n].metadata.version), SortKey(f.disk[n].metadata.version);
    if x.Some? {
      NotLessTrans(x.value, y.value, z.value);
      KeyLessTotal(x.value, y.value);
      KeyLessTotal(y.value, z.value);
    }
  }

  lemma FoundIsKeyed(r: Request)
    requires Find(r.entries, r.name, r.version).Ok?
    ensures SortKey(Find(r.entries, r.name, r.version).value.version).Some?
  {
    FindGivesTheNewest(r.entries, r.name, r.version);
    hide Find, SortKey;
    var matches := Matching(r.entries, r.name, r.version);
    var k: nat :| FirstNewest(matches, k) && Find(r.entries, r.name, r.version).value == matches[k];
    assert matches[k] in matches;
  }

  /** What an accepted install makes of its directory, before anything is said of the manifest. */
  lemma OwnKept(d: Directory, e: Directory, r: Request, entry: Entry, file: L.ManifestFile)
    requires WellFormed(d) && WellFormed(e) && Sealed(d, entry.name) && Careful(Registry(r)) && entry.name in d.disk
    requires Accepted(d, r, entry) && SortKey(entry.version).Some?
    requires e.trees == d.trees[entry.name := r.package.hash]
    requires e.disk == d.disk[entry.name := L.DiskEntry(r.package.metadata, file)]
    requires Recorded(file) == None || Recorded(file) == Some(r.package.hash)
    ensures Kept(d, e, entry.name)
  {
    Seen(d, entry.name);
    var before, after := SortKey(d.disk[entry.name].metadata.version), SortKey(entry.version);
    KeyLessTotal(after.value, after.value);
    hide SortKey, KeyLess, Opened, L.ReachesSwap, L.FailsAfterSwap, L.DiscoveryEnds;
  }

  lemma OwnSealed(d: Directory, e: Directory, n: string, m: L.PluginMetadata, hash: string, file: L.ManifestFile)
    requires WellFormed(d) && WellFormed(e) && L.DiscoveryEnds(d.disk) && SortKey(m.version).Some?
    requires e.trees == d.trees[n := hash] && e.disk == d.disk[n := L.DiskEntry(m, file)]
    ensures Sealed(e, n) <==>
              !(file.Directory? || file.Undecodable? || (Recorded(file).Some? && Recorded(file) != Some(hash)))
  {
    hide SortKey;
    assert L.DiscoveryEnds(e.disk) <==> !L.StopsDiscovery(e.disk[n]);
  }

  /** An accepted install in the plugin's own directory. */
  lemma OwnInstall(d: Directory, r: Request, entry: Entry)
    requires WellFormed(d) && Sealed(d, entry.name) && Careful(Registry(r))
    requires Find(r.entries, r.name, r.version) == Ok(entry) && Accepted(d, r, entry)
    ensures var e := RegistryInstall(d, r);
            && WellFormed(e)
            && (entry.name in d.disk && !Forges(d, Registry(r), entry.name) ==> Kept(d, e, entry.name))
            && (Sealed(e, entry.name) <==> !Forges(d, Registry(r), entry.name))
  {
    InstallShape(d, r);
    FoundIsKeyed(r);
    var e := RegistryInstall(d, r);
    var file := e.disk[entry.name].manifest;
    hide SortKey, Find, RegistryInstall, L.Install, L.ReachesSwap, L.FailsAfterSwap, L.LeftBehind, NotRollback, Sealed, Kept, L.Discover, L.DiscoveryEnds;
    OwnSealed(d, e, entry.name, r.package.metadata, r.package.hash, file);
    if entry.name in d.disk && !Forges(d, Registry(r), entry.name) {
      OwnKept(d, e, r, entry, file);
    }
  }

  /** One install with both overrides off keeps what a sealed directory holds, and leaves it sealed
      exactly if it does not forge; a first install seals a plugin in the same way. */
  lemma InstallAdvances(d: Directory, r: Request, n: string)
    requires WellFormed(d) && Sealed(d, n) && Careful(Registry(r))
    ensures WellFormed(RegistryInstall(d, r))
    ensures n in d.disk && !Forges(d, Registry(r), n) ==> Kept(d, RegistryInstall(d, r), n)
    ensures Sealed(RegistryInstall(d, r), n) <==> !Forges(d, Registry(r), n)
  {
    InstallShape(d, r);
    if n in d.disk { KeptRefl(d, n); }
    var found := Find(r.entries, r.name, r.version);
    if found.Ok? && Accepted(d, r, found.value) {
      hide SortKey, KeyLess, Find, Opened, RegistryInstall, L.ReachesSwap, L.FailsAfterSwap, L.LeftBehind;
      if found.value.name == n {
        OwnInstall(d, r, found.value);
      }
    }
  }

  // ---------- What the loader's other operations do ----------

  /** The same plugins at the same versions, each manifest as good for reading as before and with the same
      package hash. */
  ghost predicate SameHoldings(d: Directory, e: Directory) {
    && e.trees == d.trees && e.disk.Keys == d.disk.Keys
    && forall n :: n in d.disk ==> SameEntry(d.disk[n], e.disk[n])
  }

  ghost predicate SameEntry(x: L.DiskEntry, y: L.DiskEntry) {
    && y.metadata == x.metadata && Recorded(y.manifest) == Recorded(x.manifest)
    && L.Skipped(y) == L.Skipped(x) && L.StopsDiscovery(y) == L.StopsDiscovery(x)
  }

  /** A loader fresh from the directory. */
  lemma OpenedRecord(d: Directory, n: string)
    ensures L.Located(Opened(d), n) == Opened(d)
    ensures L.Found(Opened(d), n) <==> n in Opened(d).installed
    ensures n in Opened(d).installed ==>
              && n in d.disk && L.Updatable(Opened(d), n) && !L.StopsDiscovery(d.disk[n])
              && Opened(d).installed[n].metadata == d.disk[n].metadata
              && Opened(d).installed[n].packageHash == Recorded(d.disk[n].manifest)
  {
    TextLessTotal(n, n);
  }

  lemma PersistedHoldings(d: Directory, n: string, p: L.InstalledPlugin)
    requires n in Opened(d).installed && p.packageHash == Opened(d).installed[n].packageHash
    ensures SameHoldings(d, d.(disk := L.Persisted(Opened(d), n, p).disk))
  {
    OpenedRecord(d, n);
    assert Opened(d).disk == d.disk;
    hide L.Discover;
  }

  lemma UpdateHoldings(d: Directory, n: string, change: L.InstalledPlugin -> Option<L.InstalledPlugin>)
    requires forall p: L.InstalledPlugin :: change(p).Some? ==> change(p).value.packageHash == p.packageHash
    ensures SameHoldings(d, d.(disk := L.Update(Opened(d), n, change).0.disk))
    ensures L.Update(Opened(d), n, change).0.revoked == d.revoked
  {
    OpenedRecord(d, n);
    var s := Opened(d);
    assert s.disk == d.disk && s.revoked == d.revoked;
    hide L.Discover, L.Located, L.Found, Opened;
    if n in s.installed && change(s.installed[n]).Some? {
      PersistedHoldings(d, n, change(s.installed[n]).value);
    }
  }

  lemma RevokeHoldings(d: Directory, n: string)
    ensures SameHoldings(d, d.(disk := L.RevokePlugin(Opened(d), n).0.disk))
    ensures L.RevokePlugin(Opened(d), n).0.revoked == d.revoked
  {
    OpenedRecord(d, n);
    var s := Opened(d);
    assert s.disk == d.disk && s.revoked == d.revoked;
    hide L.Discover, L.Located, L.Found, Opened;
    if n in s.installed {
      PersistedHoldings(d, n, s.installed[n].(granted := [], status := L.Revoked));
    }
  }

  lemma OperationHoldings(d: Directory, step: L.Step)
    requires !step.DoInstall?
    ensures SameHoldings(d, Changed(d, Operation(step)))
  {
    hide SameHoldings, Opened;
    match step
    case DoGrant(name, permissions) => UpdateHoldings(d, name, p => L.Granting(p, permissions));
    case DoEnable(name) => UpdateHoldings(d, name, p => L.Enabling(p));
    case DoDisable(name) => UpdateHoldings(d, name, p => L.Transitioning(p, L.Disabled));
    case DoQuarantine(name) => UpdateHoldings(d, name, p => L.Transitioning(p, L.Quarantined));
    case DoTransition(name, target) => UpdateHoldings(d, name, p => L.Transitioning(p, target));
    case DoRevoke(name) => RevokeHoldings(d, name);
    case DoRevokeVersion(name, version) => RevokeVersionHoldings(d, name, version);
    case Restart => RestartHoldings(d);
  }

  lemma RestartHoldings(d: Directory)
    ensures SameHoldings(d, Changed(d, Operation(L.Restart)))
  {
  }

  lemma RevokeVersionHoldings(d: Directory, n: string, version: string)
    ensures SameHoldings(d, Changed(d, Operation(L.DoRevokeVersion(n, version))))
  {
    var listed := if (n, version) in d.revoked then d else d.(revoked := d.revoked + [(n, version)]);
    RevokeHoldings(listed, n);
    assert Opened(listed) == Opened(d).(revoked := listed.revoked);
    hide L.RevokePlugin, L.Discover;
  }

  lemma OperationAdvances(d: Directory, e: Directory, n: string)
    requires WellFormed(d) && SameHoldings(d, e)
    ensures WellFormed(e) && (Sealed(d, n) ==> Sealed(e, n)) && (n in d.disk ==> Kept(d, e, n))
  {
    hide SortKey, KeyLess;
    if n in d.disk {
      assert SameEntry(d.disk[n], e.disk[n]);
      var key := SortKey(d.disk[n].metadata.version);
      if key.Some? { KeyLessTotal(key.value, key.value); }
    }
    assert L.DiscoveryEnds(e.disk) ==> L.DiscoveryEnds(d.disk);
  }

  /** The same of any careful change: only an install can forge. */
  lemma ChangeAdvances(d: Directory, c: Change, n: string)
    requires WellFormed(d) && Sealed(d, n) && Careful(c)
    ensures WellFormed(Changed(d, c))
    ensures n in d.disk && !Forges(d, c, n) ==> Kept(d, Changed(d, c), n)
    ensures Sealed(Changed(d, c), n) <==> !Forges(d, c, n)
  {
    hide SameHoldings, Sealed, Kept, Forges;
    match c
    case Registry(r) => InstallAdvances(d, r, n);
    case Operation(step) =>
      OperationHoldings(d, step);
      OperationAdvances(d, Changed(d, c), n);
      assert !Forges(d, c, n) by { OnlyInstallsForge(d, step, n); }
  }

  lemma OnlyInstallsForge(d: Directory, step: L.Step, n: string)
    ensures !Forges(d, Operation(step), n)
  {
  }

  // ---------- Runs ----------

  /** Over every honest run from a sealed directory, of registry installs that end well, are rejected or
      fail after the swap, and the loader's other operations: the held key never falls, no key is ever held
      with two packages or two recorded hashes, and the directory stays sealed. */
  lemma {:induction false} NoRollback(d: Directory, changes: seq<Change>, n: string)
    requires WellFormed(d) && Sealed(d, n) && HonestRun(d, changes, n)
    ensures var e := ChangeAll(d, changes);
            WellFormed(e) && Sealed(e, n) && (n in d.disk ==> Kept(d, e, n))
    decreases |changes|
  {
    hide Kept, Sealed, Forges, Changed;
    if changes == [] {
      if n in d.disk { KeptRefl(d, n); }
    } else {
      var next := Changed(d, changes[0]);
      ChangeAdvances(d, changes[0], n);
      NoRollback(next, changes[1..], n);
      if n in d.disk {
        KeptStays(d, next, n);
        KeptTrans(d, next, ChangeAll(next, changes[1..]), n);
      }
    }
  }

  lemma KeptStays(d: Directory, e: Directory, n: string)
    requires n in d.disk && WellFormed(d) && WellFormed(e) && Kept(d, e, n)
    ensures n in e.disk
  {
  }

  // ---------- What an unsealed directory lets happen ----------

  function Padded(version: string, zeros: nat): (r: string)
    ensures |r| == |version| + zeros
  {
    if zeros == 0 then version else "0" + Padded(version, zeros - 1)
  }

  lemma {:induction false} ValueAfterZero(s: string)
    requires IsNumber(s)
    ensures IsNumber("0" + s) && Value("0" + s) == Value(s)
  {
    var t := "0" + s;
    assert t[..|t| - 1] == "0" + s[..|s| - 1];
    if |s| > 1 {
      ValueAfterZero(s[..|s| - 1]);
    } else {
      assert t[..1] == "0" && s[..0] == [] && Value("0") == 0;
    }
  }

  lemma SlicesAfterZero(s: string, k: nat)
    requires k <= |s|
    ensures ("0" + s)[..k + 1] == "0" + s[..k] && ("0" + s)[k + 1..] == s[k..]
  {
  }

  lemma ZeroInFront(version: string)
    ensures var padded, i := "0" + version, FirstIndex(version, '-');
            && FirstIndex(padded, '-') == i + 1 && padded[..i + 1] == "0" + version[..i]
            && (i < |version| ==> padded[i + 2..] == version[i + 1..])
  {
    var padded, i := "0" + version, FirstIndex(version, '-');
    SlicesAfterZero(version, 0);
    assert FirstIndex(padded, '-') == i + 1 by {
      assert padded[0] == '0' && padded[1..] == version;
    }
    hide FirstIndex;
    SlicesAfterZero(version, i);
    if i < |version| { SlicesAfterZero(version, i + 1); }
  }

  lemma ZeroInParts(core: string)
    ensures var parts := Split(core, '.');
            Split("0" + core, '.') == ["0" + parts[0]] + parts[1..]
  {
    SplitFirst("0" + core);
    assert ("0" + core)[1..] == core;
    hide Split;
    assert ['0'] == "0";
  }

  /** A leading zero changes the text of a version and not its key. */
  lemma ZeroKeepsKey(version: string)
    requires SortKey(version).Some?
    ensures SortKey("0" + version) == SortKey(version)
  {
    ZeroInFront(version);
    var core := version[..FirstIndex(version, '-')];
    ZeroInParts(core);
    KeyedParts(version);
    hide Split, FirstIndex, Value, IsNumber;
    var parts := Split(core, '.');
    assert IsNumber(parts[0]);
    ValueAfterZero(parts[0]);
  }

  lemma {:induction false} PaddingKeepsKey(version: string, zeros: nat)
    requires SortKey(version).Some?
    ensures SortKey(Padded(version, zeros)) == SortKey(version)
  {
    if zeros > 0 {
      PaddingKeepsKey(version, zeros - 1);
      ZeroKeepsKey(Padded(version, zeros - 1));
    }
  }

  /** The list of revoked versions does not have all texts of one key. */
  lemma {:induction false} SomeTextIsNotRevoked(revoked: seq<(string, string)>, name: string, version: string) returns (zeros: nat)
    ensures forall k: nat :: k >= zeros ==> (name, Padded(version, k)) !in revoked
  {
    if revoked == [] {
      zeros := 0;
    } else {
      var rest := SomeTextIsNotRevoked(revoked[1..], name, version);
      zeros := rest + |revoked[0].1| + 1;
      forall k: nat | k >= zeros ensures (name, Padded(version, k)) !in revoked {
        assert revoked == [revoked[0]] + revoked[1..];
        assert |Padded(version, k)| > |revoked[0].1|;
      }
    }
  }

  function InPlaceOf(name: string, version: string, hash: string): Request {
    var m := L.PluginMetadata(name, version, L.ThirdParty, L.SubProcess, [L.Decl("compute", [])], [], 1, 1, false);
    Request([Entry(name, version, hash)], {}, name, None,
            L.Package(m, hash, L.NoneDeclared, L.NoConfig, L.Absent), false, false, false, false, L.NoFault)
  }

  lemma FindsTheOnly(entry: Entry)
    requires SortKey(entry.version).Some?
    ensures Find([entry], entry.name, None) == Ok(entry)
  {
    hide SortKey;
    assert [entry][1..] == [] && Matching([], entry.name, None) == [];
    assert Matching([entry], entry.name, None) == [entry];
    assert Sorted([]) == [];
  }

  /** A careful install in place of a package with the hash the loader reads, or with any hash where the
      loader does not see the plugin. */
  lemma InPlace(d: Directory, n: string, version: string, hash: string)
    requires WellFormed(d) && n in d.disk && L.DiscoveryEnds(d.disk)
    requires SortKey(version).Some? && (n, version) !in d.revoked
    requires L.Skipped(d.disk[n]) ||
             (SortKey(version) == SortKey(d.disk[n].metadata.version) && Recorded(d.disk[n].manifest) == Some(hash))
    ensures var r := InPlaceOf(n, version, hash);
            var e := RegistryInstall(d, r);
            && HonestRun(d, [Registry(r)], n) && ChangeAll(d, [Registry(r)]) == e
            && WellFormed(e) && n in e.disk && e.trees[n] == hash && e.disk[n].metadata.version == version
  {
    var r := InPlaceOf(n, version, hash);
    FindsTheOnly(r.entries[0]);
    Seen(d, n);
    KeyLessTotal(SortKey(version).value, SortKey(version).value);
    InstallShape(d, r);
    hide SortKey, KeyLess, Find, Sealed, Kept;
    assert L.ValidMetadata(r.package.metadata);
    assert Accepted(d, r, r.entries[0]);
    var e := RegistryInstall(d, r);
    assert [Registry(r)][1..] == [] && ChangeAll(e, []) == e && HonestRun(e, [], n);
  }

  /** What is held of a plugin is kept by every honest run exactly if the directory is sealed for it. */
  lemma SealedIff(d: Directory, n: string)
    requires WellFormed(d)
    ensures NeverRolledBack(d, n) <==> Sealed(d, n)
  {
    if Sealed(d, n) {
      forall later | HonestRun(d, later, n) && n in d.disk
        ensures WellFormed(ChangeAll(d, later)) && Kept(d, ChangeAll(d, later), n)
      {
        NoRollback(d, later, n);
      }
    } else {
      CanBeReplaced(d, n);
    }
  }

  /** A version text of the same key, if there is one, that is not revoked. */
  lemma AnotherText(revoked: seq<(string, string)>, n: string, held: string) returns (text: string)
    ensures SortKey(text).Some? && (n, text) !in revoked
    ensures SortKey(held).Some? ==> SortKey(text) == SortKey(held)
  {
    SmallKey();
    var version := if SortKey(held).Some? then held else "0.0.0";
    var zeros := SomeTextIsNotRevoked(revoked, n, version);
    PaddingKeepsKey(version, zeros);
    text := Padded(version, zeros);
  }

  lemma CanBeReplaced(d: Directory, n: string)
    requires WellFormed(d) && !Sealed(d, n)
    ensures !NeverRolledBack(d, n)
  {
    hide SortKey, KeyLess, HonestRun, ChangeAll, L.DiscoveryEnds, Kept;
    var file := d.disk[n].manifest;
    var text := AnotherText(d.revoked, n, d.disk[n].metadata.version);
    var hash := if Recorded(file).Some? then Recorded(file).value else d.trees[n] + "x";
    assert |d.trees[n] + "x"| != |d.trees[n]|;
    InPlace(d, n, text, hash);
    OtherTreeIsNotKept(d, ChangeAll(d, [Registry(InPlaceOf(n, text, hash))]), n);
  }

  lemma OtherTreeIsNotKept(d: Directory, e: Directory, n: string)
    requires WellFormed(d) && WellFormed(e) && n in d.disk && n in e.disk && e.trees[n] != d.trees[n]
    requires SortKey(d.disk[n].metadata.version).Some? ==>
               SortKey(e.disk[n].metadata.version) == SortKey(d.disk[n].metadata.version)
    ensures !Kept(d, e, n)
  {
  }

  lemma SmallKey()
    ensures SortKey("0.0.0").Some?
  {
    KeyOfText(Version("0", "0", "0", Release));
    assert Written(Version("0", "0", "0", Release)) == "0.0.0";
  }

  /** Exactly when no run can roll a plugin back: at every moment of a run of careful changes, what is held
      is kept by all honest runs from there, if and only if no install of the run forged. */
  lemma {:induction false} NoRollbackIff(d: Directory, changes: seq<Change>, n: string)
    requires WellFormed(d) && Sealed(d, n)
    requires forall i :: 0 <= i < |changes| ==> Careful(changes[i])
    ensures HonestRun(d, changes, n) <==>
              forall i :: 0 <= i <= |changes| ==>
                WellFormed(ChangeAll(d, changes[..i])) && NeverRolledBack(ChangeAll(d, changes[..i]), n)
    decreases |changes|
  {
    hide NeverRolledBack, Sealed, Forges, Changed;
    SealedIff(d, n);
    assert changes[..0] == [] && ChangeAll(d, []) == d;
    if changes != [] {
      var next, rest := Changed(d, changes[0]), changes[1..];
      ChangeAdvances(d, changes[0], n);
      SealedIff(next, n);
      forall i | 0 <= i <= |rest| ensures ChangeAll(d, changes[..i + 1]) == ChangeAll(next, rest[..i]) {
        assert changes[..i + 1][0] == changes[0] && changes[..i + 1][1..] == rest[..i];
      }
      assert rest[..0] == [] && ChangeAll(next, rest[..0]) == next;
      if Forges(d, changes[0], n) {
        assert !NeverRolledBack(ChangeAll(d, changes[..0 + 1]), n);
      } else {
        NoRollbackIff(next, rest, n);
        forall i | 0 < i <= |changes| ensures ChangeAll(d, changes[..i]) == ChangeAll(next, rest[..i - 1]) {
          assert changes[..(i - 1) + 1] == changes[..i];
        }
      }
    }
  }

  // ---------- A run that forges ----------

  /** A third-party package with content hash `hash` that declares a dependency, ships neither lock nor
      wheels, and ships a manifest that names the hash `named`. */
  function Misleading(name: string, version: string, hash: string, named: string, dependencies: bool): Request {
    var m := L.PluginMetadata(name, version, L.ThirdParty, L.SubProcess, [L.Decl("compute", [])], [], 1, 1, false);
    Request([Entry(name, version, hash)], {}, name, None,
            L.Package(m, hash, L.Declared(false, L.NoLock, L.NoWheels, true), L.NoConfig,
                      L.Readable(L.Manifest(Some(named), None, [], None))),
            false, false, dependencies, false, L.NoFault)
  }

  /** Only an install with its dependencies fails, after the swap. */
  lemma MisleadingInstall(d: Directory, n: string, version: string, hash: string, named: string, dependencies: bool)
    requires WellFormed(d) && L.DiscoveryEnds(d.disk) && SortKey(version).Some? && (n, version) !in d.revoked
    requires n in d.disk ==> d.disk[n].metadata.version == version && Recorded(d.disk[n].manifest) == Some(hash)
    ensures var r := Misleading(n, version, hash, named, dependencies);
            var e := RegistryInstall(d, r);
            && WellFormed(e) && e.revoked == d.revoked && L.DiscoveryEnds(e.disk)
            && n in e.disk && e.trees[n] == hash && e.disk[n].metadata.version == version
            && Recorded(e.disk[n].manifest) == Some(if dependencies then named else hash)
            && (Forges(d, Registry(r), n) <==> dependencies && named != hash)
  {
    var r := Misleading(n, version, hash, named, dependencies);
    MisleadingAccepted(d, n, version, hash, named, dependencies);
    FindsTheOnly(r.entries[0]);
    InstallShape(d, r);
    hide SortKey, KeyLess, Find, L.Discover, Accepted, RegistryInstall;
  }

  lemma MisleadingAccepted(d: Directory, n: string, version: string, hash: string, named: string, dependencies: bool)
    requires L.DiscoveryEnds(d.disk) && SortKey(version).Some? && (n, version) !in d.revoked
    requires n in d.disk ==> d.disk[n].metadata.version == version && Recorded(d.disk[n].manifest) == Some(hash)
    ensures Accepted(d, Misleading(n, version, hash, named, dependencies), Entry(n, version, hash))
  {
    var r := Misleading(n, version, hash, named, dependencies);
    if n in d.disk { Seen(d, n); }
    NothingElseIsSeen(d, n);
    KeyLessTotal(SortKey(version).value, SortKey(version).value);
    assert Opened(d).revoked == d.revoked;
    hide SortKey, KeyLess, L.Discover, L.DiscoveryEnds, Opened;
    assert L.ValidMetadata(r.package.metadata);
  }

  lemma NothingElseIsSeen(d: Directory, n: string)
    ensures n in Opened(d).installed ==> n in d.disk
  {
  }

  /** Three careful installs: of a package with hash `a`, of the same package with its dependencies, which
      fails after the swap, and of another package with hash `b` at the same version.  The third is
      accepted, because the first package ships a manifest that names `b`. */
  lemma ShippedHashIsBelieved(d: Directory, n: string, version: string, a: string, b: string)
    requires WellFormed(d) && L.DiscoveryEnds(d.disk) && n !in d.disk && a != b
    requires SortKey(version).Some? && (n, version) !in d.revoked
    ensures var first, second, third := Misleading(n, version, a, b, false), Misleading(n, version, a, b, true), InPlaceOf(n, version, b);
            var d1 := RegistryInstall(d, first);
            var d2 := RegistryInstall(d1, second);
            var d3 := RegistryInstall(d2, third);
            && Careful(Registry(first)) && Careful(Registry(second)) && Careful(Registry(third))
            && !Forges(d, Registry(first), n) && Forges(d1, Registry(second), n) && !Forges(d2, Registry(third), n)
            && n in d1.disk && n in d2.disk && n in d3.disk
            && d1.disk[n].metadata.version == d2.disk[n].metadata.version == d3.disk[n].metadata.version == version
            && Recorded(d1.disk[n].manifest) == Some(a) && Recorded(d2.disk[n].manifest) == Some(b)
            && WellFormed(d1) && WellFormed(d2) && WellFormed(d3)
            && d1.trees[n] == d2.trees[n] == a && d3.trees[n] == b
  {
    hide RegistryInstall, Forges, SortKey, L.DiscoveryEnds;
    MisleadingInstall(d, n, version, a, b, false);
    var d1 := RegistryInstall(d, Misleading(n, version, a, b, false));
    MisleadingInstall(d1, n, version, a, b, true);
    var d2 := RegistryInstall(d1, Misleading(n, version, a, b, true));
    InPlace(d2, n, version, b);
  }
}
