/** The plugin loader's bookkeeping: statuses, grants, permission review, the persisted manifest and
    the list of revoked versions, over every run of its operations and restarts. */
module PluginLifecycle {
  import opened Prelude
  import opened Text

  // ---------- Data model ----------

  datatype Trust = Official | Trusted | ThirdParty

  datatype RunMode = InProcess | SubProcess

  datatype Status =
    | Discovered | Verified | Installed | Configured | PendingApproval | PermissionPending | Enabled
    | Running | Suspended | Disabled | Quarantined | Revoked | Uninstalled

  /** A permission declaration: one permission name with its opaque value. */
  datatype Decl = Decl(name: string, value: string)

  /** A declaration as handed in by a caller, before validation. */
  datatype RawDecl = NotSingleKey | Single(name: string, value: string)

  datatype PluginMetadata = PluginMetadata(
    name: string,
    version: string,
    trust: Trust,
    mode: RunMode,
    permissions: seq<Decl>,
    events: seq<string>,
    maxConcurrency: nat,
    failureThreshold: nat,
    disableOnThreshold: bool)

  const PERMISSIONS: set<string> :=
    {"compute", "memory.read", "config.read", "network.outbound", "fs.read", "fs.write", "memory.write", "output.send"}

  /** What the metadata validators establish. */
  predicate ValidMetadata(m: PluginMetadata) {
    && m.permissions != []
    && (forall d :: d in m.permissions ==> d.name in PERMISSIONS)
    && 1 <= m.maxConcurrency <= 64
    && 1 <= m.failureThreshold <= 100
    && (m.trust == ThirdParty ==> m.mode == SubProcess)
    && (forall i, j :: 0 <= i < j < |m.events| ==> m.events[i] != m.events[j])
    && "*" !in m.events
  }

  datatype InstalledPlugin = InstalledPlugin(
    metadata: PluginMetadata,
    packageHash: Option<string>,
    status: Status,
    granted: seq<Decl>,
    reviewRequired: bool)

  /** The fields of an install manifest; those a file lacks, or leaves empty, read as their defaults. */
  datatype Manifest = Manifest(
    packageHash: Option<string>,
    status: Option<Status>,
    granted: seq<Decl>,
    reviewRequired: Option<bool>)

  /** A `.plugin-install.json`: missing or not JSON, a directory of that name, not even text, JSON but no
      object, an object whose status is unknown or whose grants cannot be listed, or readable. */
  datatype ManifestFile = Absent | Directory | Undecodable | NotAnObject | BadFields | Readable(fields: Manifest)

  /** One plugin directory: its `plugin.yaml` and its install manifest. */
  datatype DiskEntry = DiskEntry(metadata: PluginMetadata, manifest: ManifestFile)

  datatype Loader = Loader(
    installed: map<string, InstalledPlugin>,
    disk: map<string, DiskEntry>,
    revoked: seq<(string, string)>)

  const EMPTY: Loader := Loader(map[], map[], [])

  /** The transition table. */
  predicate Allowed(from: Status, to: Status) {
    match from
    case Discovered => to.Verified? || to.Uninstalled?
    case Verified => to.Installed? || to.Revoked? || to.Uninstalled?
    case Installed => to.Configured? || to.PendingApproval? || to.PermissionPending? || to.Enabled? || Retires(to)
    case Configured => to.PendingApproval? || to.PermissionPending? || to.Enabled? || Retires(to)
    case PendingApproval => to.PermissionPending? || to.Enabled? || Retires(to)
    case PermissionPending => to.PendingApproval? || to.Enabled? || Retires(to)
    case Enabled => to.Running? || to.Suspended? || Retires(to)
    case Running => to.Enabled? || to.Suspended? || Retires(to)
    case Suspended => to.Enabled? || Retires(to)
    case Disabled => to.Enabled? || to.Quarantined? || OutOfService(to)
    case Quarantined => OutOfService(to)
    case Revoked => to.Uninstalled?
    case Uninstalled => false
  }

  predicate Retires(status: Status) {
    status.Disabled? || status.Quarantined? || OutOfService(status)
  }

  predicate OutOfService(status: Status) {
    status.Revoked? || status.Uninstalled?
  }

  /** The statuses from which neither a grant nor an enable is accepted. */
  predicate Locked(status: Status) {
    status.Quarantined? || OutOfService(status)
  }

  /** The statuses an install never leads to. */
  predicate Preinstall(status: Status) {
    status.Discovered? || status.Verified? || status.Installed? || status.Configured?
  }

  /** The statuses the named operations move between. */
  predicate Everyday(status: Status) {
    status.PendingApproval? || status.Enabled? || status.Disabled? || status.Quarantined? || status.Revoked?
  }

  // ---------- Defaults, names and reviews ----------

  function DefaultStatus(m: PluginMetadata): Status {
    if m.trust == ThirdParty then PendingApproval else Enabled
  }

  function DefaultGranted(m: PluginMetadata): seq<Decl> {
    if m.trust == ThirdParty then [] else m.permissions
  }

  function Names(decls: seq<Decl>): set<string> {
    set d | d in decls :: d.name
  }

  /** The value the last declaration of each name gives. */
  function PermissionMap(decls: seq<Decl>): map<string, string> {
    if decls == [] then map[]
    else PermissionMap(decls[..|decls| - 1])[decls[|decls| - 1].name := decls[|decls| - 1].value]
  }

  function Preserved(granted: seq<Decl>, requested: set<string>): (r: seq<Decl>)
    ensures forall d :: d in r <==> d in granted && d.name in requested
  {
    if granted == [] then []
    else if granted[0].name in requested then [granted[0]] + Preserved(granted[1..], requested)
    else Preserved(granted[1..], requested)
  }

  /** A third-party upgrade that adds a permission or changes a value needs review. */
  predicate UpgradeNeedsReview(previous: seq<Decl>, m: PluginMetadata) {
    var before, after := PermissionMap(previous), PermissionMap(m.permissions);
    && m.trust == ThirdParty
    && (exists n :: n in after.Keys && (n !in before.Keys || before[n] != after[n]))
  }

  function Validated(raw: seq<RawDecl>): Option<seq<Decl>> {
    if raw == [] then Some([])
    else
      var last := raw[|raw| - 1];
      match Validated(raw[..|raw| - 1])
      case None => None
      case Some(front) =>
        if last.Single? && last.name in PERMISSIONS then Some(front + [Decl(last.name, last.value)]) else None
  }

  // ---------- The operations, as functions on the loader's state ----------
  // Each returns the new state and whether the call returned normally.

  /** What a manifest leaves open comes from the package; a directory without a review record gets one
      from the legacy rule. */
  function LoadEntry(d: DiskEntry): InstalledPlugin {
    var m := if d.manifest.Readable? then d.manifest.fields else Manifest(None, None, [], None);
    var status := if m.status.Some? then m.status.value else DefaultStatus(d.metadata);
    var granted := if m.granted != [] then m.granted else DefaultGranted(d.metadata);
    var review := if m.reviewRequired.Some? then m.reviewRequired.value
                  else status != Enabled && granted == [] && d.metadata.trust == ThirdParty;
    InstalledPlugin(d.metadata, m.packageHash, status, granted, review)
  }

  /** Reading such a directory raises out of the whole discovery. */
  predicate StopsDiscovery(d: DiskEntry) {
    d.manifest.NotAnObject? || d.manifest.BadFields?
  }

  /** Discovery passes over such a directory. */
  predicate Skipped(d: DiskEntry) {
    d.manifest.Directory? || d.manifest.Undecodable?
  }

  predicate DiscoveryEnds(disk: map<string, DiskEntry>) {
    forall n :: n in disk ==> !StopsDiscovery(disk[n])
  }

  /** Directories are read in the order of their names, up to the first that raises. */
  predicate Reached(disk: map<string, DiskEntry>, n: string) {
    forall m :: m in disk && StopsDiscovery(disk[m]) ==> TextLess(n, m)
  }

  function Discover(s: Loader): Loader {
    s.(installed := map n | n in s.disk && Reached(s.disk, n) && !Skipped(s.disk[n]) :: LoadEntry(s.disk[n]))
  }

  /** `_installed_or_raise` looks on disk once before giving up. */
  function Located(s: Loader, name: string): Loader {
    if name in s.installed then s else Discover(s)
  }

  predicate Found(s: Loader, name: string) {
    name in s.installed || (DiscoveryEnds(s.disk) && name in Discover(s).installed)
  }

  function ManifestOf(p: InstalledPlugin): Manifest {
    Manifest(p.packageHash, Some(p.status), p.granted, Some(p.reviewRequired))
  }

  /** Whether the plugin's manifest can be read back and updated. */
  predicate Updatable(s: Loader, name: string) {
    name in s.disk ==> !Skipped(s.disk[name]) && !s.disk[name].manifest.NotAnObject?
  }

  /** The record in memory changes first; the call raises if the manifest cannot be updated. */
  function Persisted(s: Loader, name: string, p: InstalledPlugin): Loader {
    var tree := if name in s.disk then s.disk[name].metadata else p.metadata;
    s.(installed := s.installed[name := p],
       disk := if Updatable(s, name) then s.disk[name := DiskEntry(tree, Readable(ManifestOf(p)))] else s.disk)
  }

  // What an operation makes of one plugin's record, or None where it raises.

  function Granting(p: InstalledPlugin, permissions: Option<seq<RawDecl>>): Option<InstalledPlugin> {
    var granted := if permissions.None? then Some(p.metadata.permissions) else Validated(permissions.value);
    if granted.None? then None
    else if !(Names(granted.value) <= Names(p.metadata.permissions)) then None
    else if Locked(p.status) then None
    else Some(p.(granted := granted.value, reviewRequired := false, status := Enabled))
  }

  function Transitioning(p: InstalledPlugin, target: Status): Option<InstalledPlugin> {
    if target != p.status && !Allowed(p.status, target) then None
    else Some(p.(status := target))
  }

  function Enabling(p: InstalledPlugin): Option<InstalledPlugin> {
    if p.granted == [] || p.reviewRequired || Locked(p.status) then None
    else Transitioning(p, Enabled)
  }

  /** Looks the plugin up and replaces its record in memory and in its manifest. */
  function Update(s0: Loader, name: string, change: InstalledPlugin -> Option<InstalledPlugin>): (Loader, bool) {
    var s := Located(s0, name);
    if !Found(s0, name) then (s, false)
    else
      match change(s.installed[name])
      case None => (s, false)
      case Some(p) => (Persisted(s, name, p), Updatable(s, name))
  }

  function GrantPermissions(s: Loader, name: string, permissions: Option<seq<RawDecl>>): (Loader, bool) {
    Update(s, name, p => Granting(p, permissions))
  }

  function TransitionStatus(s: Loader, name: string, target: Status): (Loader, bool) {
    Update(s, name, p => Transitioning(p, target))
  }

  function EnablePlugin(s: Loader, name: string): (Loader, bool) {
    Update(s, name, p => Enabling(p))
  }

  /** Grants are dropped in memory before the transition is attempted. */
  function RevokePlugin(s0: Loader, name: string): (Loader, bool) {
    var s := Located(s0, name);
    if !Found(s0, name) then (s, false)
    else
      var p := s.installed[name].(granted := []);
      match Transitioning(p, Revoked)
      case None => (s.(installed := s.installed[name := p]), false)
      case Some(revoked) => (Persisted(s, name, revoked), Updatable(s, name))
  }

  function RevokeVersion(s: Loader, name: string, version: string): (Loader, bool) {
    var s1 := if (name, version) in s.revoked then s else s.(revoked := s.revoked + [(name, version)]);
    if name in s1.installed && s1.installed[name].metadata.version == version then RevokePlugin(s1, name)
    else (s1, true)
  }

  /** What a package ships of its Python dependencies.  A lock or a wheelhouse is bad if one of the
      checks on it fails; the record of the environment cannot be written if a directory has its name. */
  datatype LockFile = NoLock | BadLock | GoodLock

  datatype Wheels = NoWheels | BadWheels | GoodWheels

  datatype Dependencies = NoneDeclared | Declared(buildHooks: bool, lock: LockFile, wheels: Wheels, recordable: bool)

  /** What a package ships of its configuration: it is bad if there are values without a schema, the
      schema is unusable, the values, or their absence, do not fit it, or the outcome cannot be written. */
  datatype Configuration = NoConfig | BadConfig | GoodConfig

  /** A package: unreadable or invalid, or metadata with a content hash.  An archive may ship a file in
      the place of the install manifest, which no check covers. */
  datatype Package =
    | BadPackage
    | Package(metadata: PluginMetadata, hash: string, dependencies: Dependencies, config: Configuration, shipped: ManifestFile)

  /** Where an install is made to fail by the host or by a guard outside the bookkeeping: the archive,
      signature, package lock and policy checks before the tree swap, building the environment or
      writing files after it, or half-way through writing the manifest. */
  datatype Fault = NoFault | BeforeSwap | AfterSwap | WhileRecording

  /** The caller's flags, the loader's mode, and what the host does. */
  datatype InstallOptions = InstallOptions(replace: bool, installDependencies: bool, production: bool, fault: Fault)

  /** `validate_dependency_policy`, before the tree swap. */
  predicate DependencyPolicyAccepts(package: Package, production: bool)
    requires package.Package?
  {
    match package.dependencies
    case NoneDeclared => true
    case Declared(buildHooks, lock, wheels, _) =>
      && !buildHooks
      && !(package.metadata.trust == ThirdParty && production && lock == NoLock)
      && (lock != NoLock ==> lock == GoodLock && wheels != BadWheels)
  }

  /** `prepare`, after the tree swap, asks for a lock file and for vendored wheels that the policy
      before the swap did not ask for. */
  predicate LacksVendoredDependencies(package: Package, options: InstallOptions) {
    && package.Package?
    && package.metadata.trust == ThirdParty
    && options.installDependencies
    && package.dependencies.Declared?
    && (package.dependencies.lock == NoLock || package.dependencies.wheels == NoWheels)
  }

  /** The configuration is checked after the swap, and nothing of it before. */
  predicate HasBadConfig(package: Package) {
    package.Package? && package.config == BadConfig
  }

  /** A directory has the name of a file that the loader writes after the swap. */
  predicate Obstructs(package: Package) {
    package.Package? && (package.shipped.Directory? || (package.dependencies.Declared? && !package.dependencies.recordable))
  }

  /** What makes an install fail after the swap whatever the host does. */
  predicate ContentFails(package: Package, options: InstallOptions) {
    LacksVendoredDependencies(package, options) || HasBadConfig(package) || Obstructs(package)
  }

  predicate FailsAfterSwap(package: Package, options: InstallOptions) {
    options.fault == AfterSwap || options.fault == WhileRecording || ContentFails(package, options)
  }

  /** The manifest a failed install leaves in the new tree: the one the package ships, unless the
      loader had begun to overwrite it. */
  function LeftBehind(package: Package, options: InstallOptions): ManifestFile
    requires package.Package?
  {
    if options.fault == WhileRecording && !ContentFails(package, options) then Absent else package.shipped
  }

  function InstalledRecord(s: Loader, package: Package): InstalledPlugin
    requires package.Package?
  {
    var m := package.metadata;
    if m.name in s.installed then
      var previous := s.installed[m.name];
      var review := UpgradeNeedsReview(previous.metadata.permissions, m);
      InstalledPlugin(m, Some(package.hash),
                      if review && previous.status != Revoked then PendingApproval else previous.status,
                      Preserved(previous.granted, Names(m.permissions)), review)
    else
      InstalledPlugin(m, Some(package.hash), DefaultStatus(m), DefaultGranted(m), m.trust == ThirdParty)
  }

  predicate ReachesSwap(s: Loader, package: Package, options: InstallOptions) {
    && package.Package?
    && ValidMetadata(package.metadata)
    && (package.metadata.name, package.metadata.version) !in s.revoked
    && DependencyPolicyAccepts(package, options.production)
    && options.fault != BeforeSwap
    && (package.metadata.name in s.installed ==> options.replace)
  }

  function Install(s: Loader, package: Package, options: InstallOptions): (Loader, bool) {
    if !ReachesSwap(s, package, options) then (s, false)
    else
      var m := package.metadata;
      if FailsAfterSwap(package, options) then (s.(disk := s.disk[m.name := DiskEntry(m, LeftBehind(package, options))]), false)
      else
        var p := InstalledRecord(s, package);
        (s.(installed := s.installed[m.name := p],
            disk := s.disk[m.name := DiskEntry(m, Readable(ManifestOf(p)))]), true)
  }

  datatype Step =
    | DoInstall(package: Package, options: InstallOptions)
    | DoGrant(name: string, permissions: Option<seq<RawDecl>>)
    | DoEnable(name: string)
    | DoDisable(name: string)
    | DoQuarantine(name: string)
    | DoRevoke(name: string)
    | DoRevokeVersion(name: string, version: string)
    | DoTransition(name: string, target: Status)
    | Restart

  function Apply(s: Loader, step: Step): (Loader, bool) {
    match step
    case DoInstall(package, options) => Install(s, package, options)
    case DoGrant(name, permissions) => GrantPermissions(s, name, permissions)
    case DoEnable(name) => EnablePlugin(s, name)
    case DoDisable(name) => TransitionStatus(s, name, Disabled)
    case DoQuarantine(name) => TransitionStatus(s, name, Quarantined)
    case DoRevoke(name) => RevokePlugin(s, name)
    case DoRevokeVersion(name, version) => RevokeVersion(s, name, version)
    case DoTransition(name, target) => TransitionStatus(s, name, target)
    case Restart => (Discover(s), true)
  }

  function Run(s: Loader, steps: seq<Step>): Loader
    decreases |steps|
  {
    if steps == [] then s else Run(Apply(s, steps[0]).0, steps[1..])
  }

  /** No install fails between the tree swap and the writing of its manifest. */
  predicate Ordinary(step: Step) {
    step.DoInstall? ==> !FailsAfterSwap(step.package, step.options)
  }

  /** Ordinary, and statuses are only changed by the named operations. */
  predicate Governed(step: Step) {
    Ordinary(step) && !step.DoTransition?
  }

  // ---------- The loader as the object the source mutates ----------

  lemma {:induction false} HasFirstName(names: set<string>)
    requires names != {}
    ensures exists n :: n in names && forall m :: m in names && m != n ==> TextLess(n, m)
    decreases |names|
  {
    var k :| k in names;
    var rest := names - {k};
    if rest == {} {
      assert names == rest + {k};
    } else {
      HasFirstName(rest);
      var n :| n in rest && forall m :: m in rest && m != n ==> TextLess(n, m);
      TextLessTotal(k, n);
      if TextLess(k, n) {
        forall m | m in names && m != k ensures TextLess(k, m) {
          if m != n { TextLessTrans(k, n, m); }
        }
      } else {
        assert forall m :: m in names && m != n ==> TextLess(n, m);
      }
    }
  }

  method FirstName(names: set<string>) returns (n: string)
    requires names != {}
    ensures n in names && forall m :: m in names && m != n ==> TextLess(n, m)
  {
    HasFirstName(names);
    n :| n in names && forall m :: m in names && m != n ==> TextLess(n, m);
  }

  /** What discovery has read when `pending` is left: directories in order, none of which raised. */
  ghost predicate ReadSoFar(disk: map<string, DiskEntry>, pending: set<string>, installed: map<string, InstalledPlugin>) {
    && pending <= disk.Keys
    && (forall n :: n in disk && n !in pending ==> !StopsDiscovery(disk[n]))
    && (forall n, m :: n in disk && n !in pending && m in pending ==> TextLess(n, m))
    && installed == map n | n in disk && n !in pending && !Skipped(disk[n]) :: LoadEntry(disk[n])
  }

  lemma ReadFrom(s: Loader)
    requires s.installed == map[]
    ensures ReadSoFar(s.disk, s.disk.Keys, s.installed)
  {
  }

  /** Where discovery stops, just the names before have been reached. */
  lemma ReadNext(s: Loader, pending: set<string>, name: string)
    requires ReadSoFar(s.disk, pending, s.installed)
    requires name in pending && forall m :: m in pending && m != name ==> TextLess(name, m)
    ensures name in s.disk
    ensures StopsDiscovery(s.disk[name]) ==> s == Discover(s) && !DiscoveryEnds(s.disk)
    ensures !StopsDiscovery(s.disk[name]) ==>
              ReadSoFar(s.disk, pending - {name},
                        if Skipped(s.disk[name]) then s.installed
                        else s.installed[name := LoadEntry(s.disk[name])])
  {
    hide LoadEntry, TextLess;
    if StopsDiscovery(s.disk[name]) {
      forall n | n in s.disk ensures Reached(s.disk, n) <==> n !in pending {
        TextLessTotal(n, name);
      }
      assert s.installed == Discover(s).installed;
    }
  }

  lemma DiscoverForgets(s: Loader, t: Loader)
    requires s.disk == t.disk && s.revoked == t.revoked
    ensures Discover(s) == Discover(t)
  {
  }

  lemma ReadAll(s: Loader)
    requires ReadSoFar(s.disk, {}, s.installed)
    ensures s == Discover(s) && DiscoveryEnds(s.disk)
  {
    hide LoadEntry, StopsDiscovery;
    assert forall n :: n in s.disk ==> Reached(s.disk, n);
    assert s.installed == Discover(s).installed;
  }

  class PluginLoader {
    var installed: map<string, InstalledPlugin>
    var disk: map<string, DiskEntry>
    var revoked: seq<(string, string)>

    function State(): Loader
      reads this
    {
      Loader(installed, disk, revoked)
    }

    /** Starting over an existing plugins directory. */
    constructor (disk: map<string, DiskEntry>, revoked: seq<(string, string)>)
      ensures State() == Discover(Loader(map[], disk, revoked))
    {
      this.disk, this.revoked, installed := disk, revoked, map[];
      new;
      var _ := DiscoverInstalled();
    }

    method DiscoverInstalled() returns (ok: bool)
      modifies this
      ensures State() == Discover(old(State()))
      ensures ok == DiscoveryEnds(disk)
    {
      hide ReadSoFar, Discover, DiscoveryEnds;
      installed := map[];
      var pending := disk.Keys;
      ReadFrom(State());
      while pending != {}
        invariant disk == old(disk) && revoked == old(revoked)
        invariant ReadSoFar(disk, pending, installed)
      {
        var name := FirstName(pending);
        ReadNext(State(), pending, name);
        if StopsDiscovery(disk[name]) {
          DiscoverForgets(old(State()), State());
          return false;
        }
        if !Skipped(disk[name]) {
          installed := installed[name := LoadEntry(disk[name])];
        }
        pending := pending - {name};
      }
      ReadAll(State());
      DiscoverForgets(old(State()), State());
      ok := true;
    }

    method Find(name: string) returns (found: bool)
      modifies this
      ensures State() == Located(old(State()), name)
      ensures found == Found(old(State()), name)
    {
      var ok := true;
      if name !in installed {
        ok := DiscoverInstalled();
      }
      found := ok && name in installed;
    }

    method PersistInstalled(name: string, plugin: InstalledPlugin) returns (ok: bool)
      modifies this
      ensures State() == Persisted(old(State()), name, plugin)
      ensures ok == Updatable(old(State()), name)
    {
      installed := installed[name := plugin];
      if name in disk && (Skipped(disk[name]) || disk[name].manifest.NotAnObject?) { return false; }
      var tree := if name in disk then disk[name].metadata else plugin.metadata;
      disk := disk[name := DiskEntry(tree, Readable(ManifestOf(plugin)))];
      ok := true;
    }

    method ValidateDecls(raw: seq<RawDecl>) returns (r: Option<seq<Decl>>)
      ensures r == Validated(raw)
      ensures r.Some? <==> forall d :: d in raw ==> d.Single? && d.name in PERMISSIONS
      ensures r.Some? ==> |r.value| == |raw|
                          && forall i :: 0 <= i < |raw| ==> raw[i] == Single(r.value[i].name, r.value[i].value)
    {
      var normalized: seq<Decl> := [];
      var n := 0;
      while n < |raw|
        invariant 0 <= n <= |raw|
        invariant Validated(raw[..n]) == Some(normalized)
        invariant |normalized| == n
        invariant forall i :: 0 <= i < n ==> raw[i] == Single(normalized[i].name, normalized[i].value)
        invariant forall d :: d in raw[..n] ==> d.Single? && d.name in PERMISSIONS
      {
        assert raw[..n + 1][..n] == raw[..n];
        if !raw[n].Single? || raw[n].name !in PERMISSIONS {
          InvalidSticks(raw[..n + 1], raw[n + 1..]);
          assert raw[..n + 1] + raw[n + 1..] == raw;
          return None;
        }
        normalized := normalized + [Decl(raw[n].name, raw[n].value)];
        n := n + 1;
      }
      assert raw[..n] == raw;
      r := Some(normalized);
    }

    method Grant(name: string, permissions: Option<seq<RawDecl>>) returns (ok: bool)
      modifies this
      ensures (State(), ok) == GrantPermissions(old(State()), name, permissions)
      ensures old(Inv(State())) ==> Inv(State())
      ensures ok ==> name in installed && installed[name].status == Enabled && !installed[name].reviewRequired
      ensures ok ==> Names(installed[name].granted) <= Names(installed[name].metadata.permissions)
    {
      hide Inv, Coherent;
      if Inv(State()) { StepKeepsInv(State(), DoGrant(name, permissions)); }
      var found := Find(name);
      if !found { return false; }
      var plugin := installed[name];
      var granted := Some(plugin.metadata.permissions);
      if permissions.Some? {
        granted := ValidateDecls(permissions.value);
      }
      if granted.None? { return false; }
      if !(Names(granted.value) <= Names(plugin.metadata.permissions)) { return false; }
      if Locked(plugin.status) { return false; }
      plugin := plugin.(granted := granted.value);
      plugin := plugin.(reviewRequired := false);
      plugin := plugin.(status := Enabled);
      ok := PersistInstalled(name, plugin);
    }

    method SetStatus(name: string, target: Status) returns (ok: bool)
      modifies this
      ensures (State(), ok) == TransitionStatus(old(State()), name, target)
      ensures old(Inv(State())) ==> Inv(State())
      ensures ok ==> name in installed && installed[name].status == target
    {
      hide Inv, Coherent;
      if Inv(State()) { TransitionKeepsInv(State(), name, target); }
      var found := Find(name);
      if !found { return false; }
      var plugin := installed[name];
      if target != plugin.status && !Allowed(plugin.status, target) { return false; }
      ok := PersistInstalled(name, plugin.(status := target));
    }

    method Enable(name: string) returns (ok: bool)
      modifies this
      ensures (State(), ok) == EnablePlugin(old(State()), name)
      ensures old(Inv(State())) ==> Inv(State())
      ensures ok ==> name in installed && installed[name].status == Enabled
      ensures ok ==> installed[name].granted != [] && !installed[name].reviewRequired
    {
      if Inv(State()) { StepKeepsInv(State(), DoEnable(name)); }
      var found := Find(name);
      if !found { return false; }
      var plugin := installed[name];
      if plugin.granted == [] { return false; }
      if plugin.reviewRequired { return false; }
      if Locked(plugin.status) { return false; }
      ok := SetStatus(name, Enabled);
    }

    method Revoke(name: string) returns (ok: bool)
      modifies this
      ensures (State(), ok) == RevokePlugin(old(State()), name)
      ensures old(Inv(State())) ==> Inv(State())
      ensures ok ==> name in installed && installed[name].status == Revoked && installed[name].granted == []
      ensures ok ==> LoadEntry(disk[name]).status == Revoked
    {
      hide Inv, Coherent, Discover, DiscoveryEnds;
      if Inv(State()) { StepKeepsInv(State(), DoRevoke(name)); }
      var found := Find(name);
      if !found { return false; }
      ghost var s := State();
      var plugin := installed[name].(granted := []);
      installed := installed[name := plugin];
      PersistAgain(s, name, plugin, plugin.(status := Revoked));
      if plugin.status != Revoked {
        ok := SetStatus(name, Revoked);
        if !ok { return; }
      }
      ok := PersistInstalled(name, plugin.(status := Revoked));
    }

    method RevokePluginVersion(name: string, version: string) returns (ok: bool)
      modifies this
      ensures (State(), ok) == RevokeVersion(old(State()), name, version)
      ensures old(Inv(State())) ==> Inv(State())
      ensures (name, version) in revoked
    {
      hide Inv, Coherent;
      if Inv(State()) { StepKeepsInv(State(), DoRevokeVersion(name, version)); }
      if (name, version) !in revoked {
        revoked := revoked + [(name, version)];
      }
      ok := true;
      if name in installed && installed[name].metadata.version == version {
        ok := Revoke(name);
      }
    }

    method InstallPackage(package: Package, options: InstallOptions) returns (ok: bool)
      modifies this
      ensures (State(), ok) == Install(old(State()), package, options)
      ensures old(Inv(State())) && !FailsAfterSwap(package, options) ==> Inv(State())
      ensures ok ==> package.Package? && (package.metadata.name, package.metadata.version) !in revoked
      ensures ok ==> package.metadata.name in installed && installed[package.metadata.name].metadata == package.metadata
    {
      if Inv(State()) && !FailsAfterSwap(package, options) { InstallKeepsInv(State(), package, options); }
      if package.BadPackage? || !ValidMetadata(package.metadata) { return false; }
      var m := package.metadata;
      if (m.name, m.version) in revoked { return false; }
      if !DependencyPolicyAccepts(package, options.production) || options.fault == BeforeSwap { return false; }
      var status := DefaultStatus(m);
      var granted := DefaultGranted(m);
      var review := m.trust == ThirdParty;
      if m.name in installed {
        if !options.replace { return false; }
        var previous := installed[m.name];
        status := previous.status;
        granted := Preserved(previous.granted, Names(m.permissions));
        review := UpgradeNeedsReview(previous.metadata.permissions, m);
        if review && previous.status != Revoked {
          status := PendingApproval;
        }
      }
      ghost var before := disk;
      disk := disk[m.name := DiskEntry(m, LeftBehind(package, options))];
      if FailsAfterSwap(package, options) { return false; }
      var plugin := InstalledPlugin(m, Some(package.hash), status, granted, review);
      assert plugin == InstalledRecord(old(State()), package);
      assert disk[m.name := DiskEntry(m, Readable(ManifestOf(plugin)))] == before[m.name := DiskEntry(m, Readable(ManifestOf(plugin)))];
      disk := disk[m.name := DiskEntry(m, Readable(ManifestOf(plugin)))];
      installed := installed[m.name := plugin];
      ok := true;
    }
  }

  /** Persisting overwrites what was in memory and in the manifest before. */
  lemma PersistAgain(s: Loader, n: string, p: InstalledPlugin, q: InstalledPlugin)
    ensures var t := s.(installed := s.installed[n := p]);
            && Persisted(t, n, q) == Persisted(s, n, q)
            && Persisted(Persisted(t, n, q), n, q) == Persisted(s, n, q)
  {
    var t := s.(installed := s.installed[n := p]);
    assert t.installed[n := q] == s.installed[n := q];
    var u := Persisted(t, n, q);
    assert u.installed[n := q] == u.installed;
    assert Persisted(u, n, q).disk == u.disk;
  }

  lemma {:induction false} InvalidSticks(raw: seq<RawDecl>, more: seq<RawDecl>)
    requires Validated(raw).None?
    ensures Validated(raw + more).None?
  {
    if more == [] {
      assert raw + more == raw;
    } else {
      InvalidSticks(raw, more[..|more| - 1]);
      assert (raw + more)[..|raw + more| - 1] == raw + more[..|more| - 1];
    }
  }

  // ---------- Invariants of every run ----------

  /** Memory and disk describe the same plugin, up to the grants. */
  ghost predicate Coherent(n: string, p: InstalledPlugin, d: DiskEntry) {
    && p.metadata == d.metadata
    && p.metadata.name == n
    && d.manifest.Readable?
    && d.manifest.fields.status == Some(p.status)
    && d.manifest.fields.reviewRequired == Some(p.reviewRequired)
    && d.manifest.fields.packageHash == p.packageHash
    && Names(p.granted) <= Names(p.metadata.permissions)
    && Names(d.manifest.fields.granted) <= Names(p.metadata.permissions)
    && !Preinstall(p.status)
  }

  /** A plugin at a revoked version is out of service. */
  ghost predicate RevokedVersionsOut(s: Loader) {
    forall n :: n in s.installed && (n, s.installed[n].metadata.version) in s.revoked ==>
                OutOfService(s.installed[n].status)
  }

  ghost predicate Inv(s: Loader) {
    && s.installed.Keys == s.disk.Keys
    && (forall n :: n in s.installed ==> Coherent(n, s.installed[n], s.disk[n]))
    && RevokedVersionsOut(s)
  }

  /** The statuses the named operations move between, and: enabled means reviewed. */
  ghost predicate GovernedInv(s: Loader) {
    && Inv(s)
    && (forall n :: n in s.installed ==>
          && Everyday(s.installed[n].status)
          && (s.installed[n].status == Enabled ==> !s.installed[n].reviewRequired))
  }

  /** Under the invariant every manifest is readable, discovery reads all of them, and looking on disk
      finds nothing new. */
  lemma AllRead(s: Loader)
    requires Inv(s)
    ensures DiscoveryEnds(s.disk)
    ensures Discover(s).installed == map n | n in s.disk :: LoadEntry(s.disk[n])
    ensures forall n :: Updatable(s, n) && (Found(s, n) <==> n in s.installed)
  {
    forall n | n in s.disk ensures s.disk[n].manifest.Readable? {
      assert Coherent(n, s.installed[n], s.disk[n]);
    }
    hide LoadEntry, TextLess;
  }

  lemma KnownAreFound(s: Loader, n: string)
    requires GovernedInv(s)
    ensures Updatable(s, n) && (Found(s, n) <==> n in s.installed) && (Found(s, n) <==> n in Located(s, n).installed)
  {
    AllRead(s);
  }

  lemma DiscoverKeepsInv(s: Loader)
    requires Inv(s)
    ensures Inv(Discover(s))
    ensures forall n :: n in s.installed ==>
              && Discover(s).installed[n].status == s.installed[n].status
              && Discover(s).installed[n].metadata == s.installed[n].metadata
              && Discover(s).installed[n].reviewRequired == s.installed[n].reviewRequired
  {
    AllRead(s);
    hide DiscoveryEnds, Reached, Skipped, Found, Updatable;
    var t := Discover(s);
    forall n | n in s.disk ensures Coherent(n, t.installed[n], t.disk[n]) {
      assert Coherent(n, s.installed[n], s.disk[n]);
    }
  }

  lemma LocatedIsSame(s: Loader, name: string)
    requires Inv(s)
    ensures name in s.installed ==> Located(s, name) == s
    ensures name !in s.installed ==> name !in Located(s, name).installed
    ensures Inv(Located(s, name))
  {
    DiscoverKeepsInv(s);
  }

  /** A record that may replace the one of plugin `n`. */
  ghost predicate SafeRecord(s: Loader, n: string, p: InstalledPlugin) {
    && n in s.installed
    && p.metadata == s.installed[n].metadata
    && Names(p.granted) <= Names(p.metadata.permissions)
    && !Preinstall(p.status)
    && ((n, p.metadata.version) in s.revoked ==> OutOfService(p.status))
  }

  /** Coherent, and revoked versions are out of service but perhaps for plugin `n`. */
  ghost predicate InvExcept(s: Loader, n: string) {
    && s.installed.Keys == s.disk.Keys
    && (forall m :: m in s.installed ==> Coherent(m, s.installed[m], s.disk[m]))
    && (forall m :: m in s.installed && m != n && (m, s.installed[m].metadata.version) in s.revoked ==>
          OutOfService(s.installed[m].status))
  }

  lemma PersistedKeepsInv(s: Loader, n: string, p: InstalledPlugin)
    requires InvExcept(s, n) && SafeRecord(s, n, p)
    ensures Inv(Persisted(s, n, p))
  {
    assert Coherent(n, s.installed[n], s.disk[n]);
    var t := Persisted(s, n, p);
    forall m | m in t.installed ensures Coherent(m, t.installed[m], t.disk[m]) {
      assert Coherent(m, s.installed[m], s.disk[m]);
    }
  }

  lemma UpdateKeepsInv(s: Loader, n: string, change: InstalledPlugin -> Option<InstalledPlugin>)
    requires Inv(s)
    requires n in s.installed && change(s.installed[n]).Some? ==> SafeRecord(s, n, change(s.installed[n]).value)
    ensures Inv(Update(s, n, change).0)
    ensures Update(s, n, change).0.revoked == s.revoked
  {
    LocatedIsSame(s, n);
    if n in s.installed && change(s.installed[n]).Some? {
      PersistedKeepsInv(s, n, change(s.installed[n]).value);
    }
  }

  /** What granting and enabling guarantee, whatever the plugin. */
  lemma RecordChanges(s: Loader, n: string, permissions: Option<seq<RawDecl>>)
    requires Inv(s) && n in s.installed
    ensures var p := s.installed[n];
            && (Granting(p, permissions).Some? ==> SafeRecord(s, n, Granting(p, permissions).value))
            && (Enabling(p).Some? ==> SafeRecord(s, n, Enabling(p).value))
  {
    assert Coherent(n, s.installed[n], s.disk[n]);
  }

  lemma TransitionSafe(s: Loader, n: string, target: Status)
    requires Inv(s) && n in s.installed
    ensures Transitioning(s.installed[n], target).Some? ==>
              SafeRecord(s, n, Transitioning(s.installed[n], target).value)
  {
    assert Coherent(n, s.installed[n], s.disk[n]);
  }

  /** Dropping a plugin's grants in memory alone. */
  lemma GrantsDroppedKeepsInv(s: Loader, n: string)
    requires InvExcept(s, n) && n in s.installed && OutOfService(s.installed[n].status)
    ensures Inv(s.(installed := s.installed[n := s.installed[n].(granted := [])]))
  {
    var t := s.(installed := s.installed[n := s.installed[n].(granted := [])]);
    assert Coherent(n, s.installed[n], s.disk[n]);
    assert Coherent(n, t.installed[n], t.disk[n]);
    hide Coherent;
  }

  lemma RevokeKeepsInv(s: Loader, n: string)
    requires InvExcept(s, n) && n in s.installed
    ensures Inv(RevokePlugin(s, n).0)
    ensures RevokePlugin(s, n).0.revoked == s.revoked
    ensures OutOfService(RevokePlugin(s, n).0.installed[n].status)
  {
    var p := s.installed[n].(granted := []);
    assert Coherent(n, s.installed[n], s.disk[n]);
    hide Inv, InvExcept, Coherent;
    if Transitioning(p, Revoked).Some? {
      PersistedKeepsInv(s, n, p.(status := Revoked));
    } else {
      GrantsDroppedKeepsInv(s, n);
    }
  }

  /** The one operation that is briefly outside the invariant: the list grows before the plugin is
      revoked.  From UNINSTALLED the revocation raises, and the plugin is out of service anyway. */
  lemma RevokeVersionKeepsInv(s: Loader, name: string, version: string)
    requires Inv(s)
    ensures Inv(RevokeVersion(s, name, version).0)
    ensures (name, version) in RevokeVersion(s, name, version).0.revoked
    ensures forall e :: e in s.revoked ==> e in RevokeVersion(s, name, version).0.revoked
  {
    var s1 := if (name, version) in s.revoked then s else s.(revoked := s.revoked + [(name, version)]);
    if name in s.installed && s.installed[name].metadata.version == version {
      RevokeKeepsInv(s1, name);
    }
  }

  /** What an install that gets to swap the trees leaves on disk. */
  lemma SwappedTree(s: Loader, package: Package, options: InstallOptions) returns (file: ManifestFile)
    requires ReachesSwap(s, package, options)
    ensures Install(s, package, options).0.disk == s.disk[package.metadata.name := DiskEntry(package.metadata, file)]
    ensures if FailsAfterSwap(package, options) then file == LeftBehind(package, options)
            else file.Readable? && file.fields.packageHash == Some(package.hash)
  {
    file := Install(s, package, options).0.disk[package.metadata.name].manifest;
  }

  lemma InstallKeepsInv(s: Loader, package: Package, options: InstallOptions)
    requires Inv(s) && !FailsAfterSwap(package, options)
    ensures Inv(Install(s, package, options).0)
    ensures Install(s, package, options).0.revoked == s.revoked
  {
    var t := Install(s, package, options).0;
    if ReachesSwap(s, package, options) {
      forall m | m in t.installed ensures Coherent(m, t.installed[m], t.disk[m]) {
        assert m in s.installed ==> Coherent(m, s.installed[m], s.disk[m]);
      }
    }
  }

  /** Every ordinary operation, restart included, keeps memory and disk coherent, grants within the
      requested permissions and revoked versions out of service, whether or not it raises. */
  lemma StepKeepsInv(s: Loader, step: Step)
    requires Inv(s) && Ordinary(step)
    ensures Inv(Apply(s, step).0)
    ensures forall e :: e in s.revoked ==> e in Apply(s, step).0.revoked
  {
    match step
    case DoInstall(package, options) => InstallKeepsInv(s, package, options);
    case DoGrant(name, permissions) =>
      if name in s.installed { RecordChanges(s, name, permissions); }
      UpdateKeepsInv(s, name, p => Granting(p, permissions));
    case DoEnable(name) =>
      if name in s.installed { RecordChanges(s, name, None); }
      UpdateKeepsInv(s, name, p => Enabling(p));
    case DoDisable(name) => TransitionKeepsInv(s, name, Disabled);
    case DoQuarantine(name) => TransitionKeepsInv(s, name, Quarantined);
    case DoRevoke(name) =>
      LocatedIsSame(s, name);
      if name in s.installed { RevokeKeepsInv(s, name); }
    case DoRevokeVersion(name, version) => RevokeVersionKeepsInv(s, name, version);
    case DoTransition(name, target) => TransitionKeepsInv(s, name, target);
    case Restart => DiscoverKeepsInv(s);
  }

  lemma TransitionKeepsInv(s: Loader, name: string, target: Status)
    requires Inv(s)
    ensures Inv(TransitionStatus(s, name, target).0)
    ensures TransitionStatus(s, name, target).0.revoked == s.revoked
  {
    if name in s.installed { TransitionSafe(s, name, target); }
    UpdateKeepsInv(s, name, p => Transitioning(p, target));
  }

  /** The two records describe the plugin alike, apart from its grants. */
  ghost predicate SameButGrants(p: InstalledPlugin, q: InstalledPlugin) {
    p == q.(granted := p.granted)
  }

  lemma DiscoverEffect(s: Loader)
    requires Inv(s)
    ensures Discover(s).installed.Keys == s.installed.Keys
    ensures forall m :: m in s.installed ==> SameButGrants(Discover(s).installed[m], s.installed[m])
  {
    AllRead(s);
    hide DiscoveryEnds, Reached, Skipped, Found, Updatable;
    forall m | m in s.installed ensures SameButGrants(Discover(s).installed[m], s.installed[m]) {
      assert Coherent(m, s.installed[m], s.disk[m]);
    }
  }

  /** An update touches one plugin's record, and that one only if the change succeeds. */
  lemma UpdateEffect(s: Loader, n: string, change: InstalledPlugin -> Option<InstalledPlugin>)
    requires Inv(s)
    ensures var t := Update(s, n, change).0;
            && t.installed.Keys == s.installed.Keys
            && (forall m :: m in s.installed && m != n ==> SameButGrants(t.installed[m], s.installed[m]))
            && (n in s.installed ==>
                  t.installed[n] == if change(s.installed[n]).Some? then change(s.installed[n]).value else s.installed[n])
  {
    DiscoverEffect(s);
  }

  lemma RevokeInstalledEffect(s: Loader, n: string)
    requires n in s.installed
    ensures var t, p := RevokePlugin(s, n).0, s.installed[n].(granted := []);
            t.installed == s.installed[n := if Transitioning(p, Revoked).Some? then p.(status := Revoked) else p]
  {
  }

  lemma RevokeEffect(s: Loader, n: string)
    requires Inv(s)
    ensures var t := RevokePlugin(s, n).0;
            && t.installed.Keys == s.installed.Keys
            && (forall m :: m in s.installed && m != n ==> SameButGrants(t.installed[m], s.installed[m]))
            && (n in s.installed ==>
                  var p := s.installed[n].(granted := []);
                  t.installed[n] == if Transitioning(p, Revoked).Some? then p.(status := Revoked) else p)
  {
    DiscoverEffect(s);
    if n in s.installed {
      hide RevokePlugin;
      RevokeInstalledEffect(s, n);
    }
  }

  lemma RevokeVersionEffect(s: Loader, n: string, version: string)
    requires Inv(s)
    ensures var t := RevokeVersion(s, n, version).0;
            && t.installed.Keys == s.installed.Keys
            && (forall m :: m in s.installed && m != n ==> t.installed[m] == s.installed[m])
            && (n in s.installed ==>
                  var p := s.installed[n].(granted := []);
                  || t.installed[n] == s.installed[n]
                  || t.installed[n] == if Transitioning(p, Revoked).Some? then p.(status := Revoked) else p)
  {
    hide RevokePlugin, Inv, Transitioning;
    var s1 := if (n, version) in s.revoked then s else s.(revoked := s.revoked + [(n, version)]);
    if n in s1.installed {
      RevokeInstalledEffect(s1, n);
    }
  }

  lemma TransitionEffect(s: Loader, n: string, target: Status)
    requires Inv(s)
    ensures var t := TransitionStatus(s, n, target).0;
            && t.installed.Keys == s.installed.Keys
            && (forall m :: m in s.installed && m != n ==> SameButGrants(t.installed[m], s.installed[m]))
            && (n in s.installed ==>
                  var p := s.installed[n];
                  t.installed[n] == if Transitioning(p, target).Some? then p.(status := target) else p)
  {
    UpdateEffect(s, n, p => Transitioning(p, target));
  }

  /** An upgrade that needs review sends any status but REVOKED back to PENDING_APPROVAL. */
  ghost predicate UpgradeEdge(s: Loader, step: Step, n: string)
    requires n in s.installed
  {
    && step.DoInstall? && step.package.Package? && step.package.metadata.name == n
    && UpgradeNeedsReview(s.installed[n].metadata.permissions, step.package.metadata)
    && s.installed[n].status != Revoked
  }

  /** A status change along an edge of the transition table, within the everyday statuses. */
  ghost predicate EdgeChange(before: InstalledPlugin, after: InstalledPlugin) {
    && (after.status == before.status || Allowed(before.status, after.status))
    && (before.status == Revoked ==> after.status == Revoked)
    && Everyday(after.status)
    && (after.status == Enabled ==> !after.reviewRequired)
  }

  /** How one governed operation may change the record of plugin `n`. */
  ghost predicate GovernedChange(s: Loader, step: Step, n: string, after: InstalledPlugin)
    requires n in s.installed
  {
    || EdgeChange(s.installed[n], after)
    || (UpgradeEdge(s, step, n) && after.status == PendingApproval)
  }

  /** What the record functions do to a plugin in one of the everyday statuses. */
  lemma RecordEdges(p: InstalledPlugin, permissions: Option<seq<RawDecl>>, target: Status)
    requires Everyday(p.status) && (p.status == Enabled ==> !p.reviewRequired)
    requires target.Disabled? || target.Quarantined? || target.Revoked?
    ensures forall q :: SameButGrants(p, q) ==> EdgeChange(p, q)
    ensures Granting(p, permissions).Some? ==> EdgeChange(p, Granting(p, permissions).value)
    ensures Enabling(p).Some? ==> EdgeChange(p, Enabling(p).value)
    ensures Transitioning(p, target).Some? ==> EdgeChange(p, p.(status := target))
    ensures Transitioning(p.(granted := []), target).Some? ==> EdgeChange(p, p.(granted := [], status := target))
  {
  }

  /** Every status change of a governed operation is an edge of the transition table, except the
      upgrade edge; nothing leaves REVOKED; and a plugin is enabled only once reviewed. */
  lemma StatusChangesAreEdges(s: Loader, step: Step, n: string)
    requires GovernedInv(s) && Governed(step) && n in s.installed
    ensures n in Apply(s, step).0.installed
    ensures GovernedChange(s, step, n, Apply(s, step).0.installed[n])
  {
    hide Inv, Install, UpgradeEdge, EdgeChange, Granting, Enabling, Transitioning, Everyday;
    var target := if step.DoDisable? then Disabled else if step.DoQuarantine? then Quarantined else Revoked;
    RecordEdges(s.installed[n], if step.DoGrant? then step.permissions else None, target);
    match step
    case DoInstall(package, options) => InstallEdges(s, package, options, n);
    case DoGrant(name, permissions) => UpdateEffect(s, name, p => Granting(p, permissions));
    case DoEnable(name) => UpdateEffect(s, name, p => Enabling(p));
    case DoDisable(name) => TransitionEffect(s, name, Disabled);
    case DoQuarantine(name) => TransitionEffect(s, name, Quarantined);
    case DoRevoke(name) => RevokeEffect(s, name);
    case DoRevokeVersion(name, version) => RevokeVersionEffect(s, name, version);
    case Restart => DiscoverEffect(s);
  }

  lemma InstallEdges(s: Loader, package: Package, options: InstallOptions, n: string)
    requires GovernedInv(s) && !FailsAfterSwap(package, options) && n in s.installed
    ensures n in Install(s, package, options).0.installed
    ensures GovernedChange(s, DoInstall(package, options), n, Install(s, package, options).0.installed[n])
  {
    hide Inv;
  }

  lemma NewPluginStatus(s: Loader, step: Step, n: string)
    requires Inv(s) && Ordinary(step) && n !in s.installed && n in Apply(s, step).0.installed
    ensures step.DoInstall? && step.package.Package? && n == step.package.metadata.name
    ensures Apply(s, step).0.installed[n] == InstalledRecord(s, step.package)
  {
    match step
    case DoInstall(package, options) =>
    case DoGrant(name, permissions) => UpdateEffect(s, name, p => Granting(p, permissions));
    case DoEnable(name) => UpdateEffect(s, name, p => Enabling(p));
    case DoDisable(name) => TransitionEffect(s, name, Disabled);
    case DoQuarantine(name) => TransitionEffect(s, name, Quarantined);
    case DoRevoke(name) => RevokeEffect(s, name);
    case DoRevokeVersion(name, version) => RevokeVersionEffect(s, name, version);
    case DoTransition(name, target) => TransitionEffect(s, name, target);
    case Restart => DiscoverEffect(s);
  }

  lemma GovernedStepKeepsInv(s: Loader, step: Step)
    requires GovernedInv(s) && Governed(step)
    ensures GovernedInv(Apply(s, step).0)
  {
    StepKeepsInv(s, step);
    var t := Apply(s, step).0;
    forall n | n in t.installed
      ensures Everyday(t.installed[n].status)
      ensures t.installed[n].status == Enabled ==> !t.installed[n].reviewRequired
    {
      if n in s.installed {
        StatusChangesAreEdges(s, step, n);
      } else {
        NewPluginStatus(s, step, n);
      }
    }
  }

  /** Over every ordinary run: coherence, grants within requests, and the revoked list only grows
      and is respected. */
  lemma {:induction false} RunKeepsInv(s: Loader, steps: seq<Step>)
    requires Inv(s)
    requires forall i :: 0 <= i < |steps| ==> Ordinary(steps[i])
    ensures Inv(Run(s, steps))
    ensures forall e :: e in s.revoked ==> e in Run(s, steps).revoked
    decreases |steps|
  {
    if steps != [] {
      StepKeepsInv(s, steps[0]);
      RunKeepsInv(Apply(s, steps[0]).0, steps[1..]);
    }
  }

  /** Once revoked, always revoked, over every governed run; and enabled implies reviewed. */
  lemma {:induction false} RevokedIsPermanent(s: Loader, steps: seq<Step>)
    requires GovernedInv(s)
    requires forall i :: 0 <= i < |steps| ==> Governed(steps[i])
    ensures GovernedInv(Run(s, steps))
    ensures forall n :: n in s.installed ==> n in Run(s, steps).installed
    ensures forall n :: n in s.installed && s.installed[n].status == Revoked ==>
              Run(s, steps).installed[n].status == Revoked
    decreases |steps|
  {
    if steps != [] {
      GovernedStepKeepsInv(s, steps[0]);
      forall n | n in s.installed
        ensures n in Apply(s, steps[0]).0.installed
        ensures s.installed[n].status == Revoked ==> Apply(s, steps[0]).0.installed[n].status == Revoked
      {
        StatusChangesAreEdges(s, steps[0], n);
      }
      RevokedIsPermanent(Apply(s, steps[0]).0, steps[1..]);
    }
  }

  /** A revoked version stays out of service for the rest of every ordinary run, as long as the
      plugin's version is not changed by an upgrade; the revoking call itself may raise. */
  lemma VersionRevocationHolds(s: Loader, name: string, version: string, steps: seq<Step>)
    requires Inv(s)
    requires forall i :: 0 <= i < |steps| ==> Ordinary(steps[i])
    ensures var t := Run(RevokeVersion(s, name, version).0, steps);
            && (name, version) in t.revoked
            && (name in t.installed && t.installed[name].metadata.version == version ==>
                  OutOfService(t.installed[name].status))
  {
    RevokeVersionKeepsInv(s, name, version);
    RunKeepsInv(RevokeVersion(s, name, version).0, steps);
  }

  // ---------- Where grants come from ----------

  /** What the operator has granted so far, and which plugins ever had a trusted package. */
  datatype History = History(approved: map<string, set<Decl>>, trusted: set<string>)

  function Approved(h: History, name: string): set<Decl> {
    if name in h.approved then h.approved[name] else {}
  }

  function Remember(h: History, s: Loader, step: Step): History {
    var (after, ok) := Apply(s, step);
    match step
    case DoGrant(name, _) =>
      if ok && name in after.installed then
        h.(approved := h.approved[name := Approved(h, name) + (set d | d in after.installed[name].granted)])
      else h
    case DoInstall(package, _) =>
      if package.Package? && package.metadata.trust != ThirdParty then h.(trusted := h.trusted + {package.metadata.name})
      else h
    case _ => h
  }

  function RunWithHistory(s: Loader, h: History, steps: seq<Step>): (Loader, History)
    decreases |steps|
  {
    if steps == [] then (s, h) else RunWithHistory(Apply(s, steps[0]).0, Remember(h, s, steps[0]), steps[1..])
  }

  ghost predicate WithinApproved(granted: seq<Decl>, approved: set<Decl>) {
    forall d :: d in granted ==> d in approved
  }

  /** Every pair an always-third-party plugin holds, in memory or on disk, was approved. */
  ghost predicate GrantsApproved(s: Loader, h: History) {
    forall n :: n in s.installed && n !in h.trusted ==> PluginApproved(s, h, n)
  }

  ghost predicate PluginApproved(s: Loader, h: History, n: string) {
    && n in s.installed && n in s.disk && s.disk[n].manifest.Readable?
    && s.installed[n].metadata.trust == ThirdParty
    && WithinApproved(s.installed[n].granted, Approved(h, n))
    && WithinApproved(s.disk[n].manifest.fields.granted, Approved(h, n))
  }

  lemma DiscoverKeepsApproved(s: Loader, h: History)
    requires Inv(s) && GrantsApproved(s, h)
    ensures GrantsApproved(Discover(s), h)
  {
    forall n | n in Discover(s).installed && n !in h.trusted ensures PluginApproved(Discover(s), h, n) {
      assert PluginApproved(s, h, n) && Coherent(n, s.installed[n], s.disk[n]);
    }
  }

  /** An update keeps the property when what it puts in place is within the new approvals. */
  lemma UpdateKeepsApproved(s: Loader, h: History, n: string,
                            change: InstalledPlugin -> Option<InstalledPlugin>, h': History)
    requires Inv(s) && GrantsApproved(s, h)
    requires h'.trusted == h.trusted
    requires forall m :: Approved(h, m) <= Approved(h', m)
    requires n in s.installed && change(s.installed[n]).Some? ==>
               var p := change(s.installed[n]).value;
               && p.metadata == s.installed[n].metadata
               && (n !in h.trusted ==> WithinApproved(p.granted, Approved(h', n)))
    ensures GrantsApproved(Update(s, n, change).0, h')
  {
    DiscoverKeepsApproved(s, h);
    var t := Update(s, n, change).0;
    forall m | m in t.installed && m !in h'.trusted ensures PluginApproved(t, h', m) {
      assert PluginApproved(if n in s.installed then s else Discover(s), h, m);
    }
  }

  lemma RevokeInstalledKeepsApproved(s: Loader, h: History, n: string)
    requires n in s.installed && GrantsApproved(s, h)
    ensures GrantsApproved(RevokePlugin(s, n).0, h)
  {
    var t := RevokePlugin(s, n).0;
    forall m | m in t.installed && m !in h.trusted ensures PluginApproved(t, h, m) {
      assert PluginApproved(s, h, m);
    }
  }

  lemma RevokeKeepsApproved(s: Loader, h: History, n: string)
    requires Inv(s) && GrantsApproved(s, h)
    ensures GrantsApproved(RevokePlugin(s, n).0, h)
  {
    LocatedIsSame(s, n);
    DiscoverKeepsApproved(s, h);
    hide Inv, GrantsApproved, Discover;
    if n in s.installed {
      RevokeInstalledKeepsApproved(s, h, n);
    }
  }

  lemma RevokeVersionKeepsApproved(s: Loader, h: History, n: string, version: string)
    requires GrantsApproved(s, h)
    ensures GrantsApproved(RevokeVersion(s, n, version).0, h)
  {
    var s1 := if (n, version) in s.revoked then s else s.(revoked := s.revoked + [(n, version)]);
    assert forall m :: PluginApproved(s, h, m) ==> PluginApproved(s1, h, m);
    hide PluginApproved, RevokePlugin;
    if n in s1.installed {
      RevokeInstalledKeepsApproved(s1, h, n);
    }
  }

  lemma InstallKeepsApproved(s: Loader, h: History, package: Package, options: InstallOptions)
    requires Inv(s) && GrantsApproved(s, h) && !FailsAfterSwap(package, options)
    ensures GrantsApproved(Install(s, package, options).0, Remember(h, s, DoInstall(package, options)))
  {
    var step := DoInstall(package, options);
    var t, h' := Install(s, package, options).0, Remember(h, s, step);
    forall n | n in t.installed && n !in h'.trusted ensures PluginApproved(t, h', n) {
      assert n in s.installed ==> PluginApproved(s, h, n);
    }
  }

  lemma StepKeepsGrantsApproved(s: Loader, h: History, step: Step)
    requires Inv(s) && Ordinary(step) && GrantsApproved(s, h)
    ensures GrantsApproved(Apply(s, step).0, Remember(h, s, step))
  {
    hide Discover, DiscoveryEnds, Inv;
    match step
    case DoInstall(package, options) => InstallKeepsApproved(s, h, package, options);
    case DoGrant(name, permissions) =>
      UpdateEffect(s, name, p => Granting(p, permissions));
      UpdateKeepsApproved(s, h, name, p => Granting(p, permissions), Remember(h, s, step));
    case DoEnable(name) => UpdateKeepsApproved(s, h, name, p => Enabling(p), h);
      UpdateEffect(s, name, p => Enabling(p));
    case DoDisable(name) => UpdateKeepsApproved(s, h, name, p => Transitioning(p, Disabled), h);
    case DoQuarantine(name) => UpdateKeepsApproved(s, h, name, p => Transitioning(p, Quarantined), h);
    case DoRevoke(name) => RevokeKeepsApproved(s, h, name);
    case DoRevokeVersion(name, version) => RevokeVersionKeepsApproved(s, h, name, version);
    case DoTransition(name, target) => UpdateKeepsApproved(s, h, name, p => Transitioning(p, target), h);
    case Restart => DiscoverKeepsApproved(s, h);
  }

  /** Over every ordinary run from an empty directory, each permission pair held by a plugin that
      never had a trusted package was passed to, or defaulted by, an explicit grant of that run. */
  lemma {:induction false} GrantsComeFromApprovals(s: Loader, h: History, steps: seq<Step>)
    requires Inv(s) && GrantsApproved(s, h)
    requires forall i :: 0 <= i < |steps| ==> Ordinary(steps[i])
    ensures RunWithHistory(s, h, steps).0 == Run(s, steps)
    ensures Inv(Run(s, steps))
    ensures GrantsApproved(Run(s, steps), RunWithHistory(s, h, steps).1)
    decreases |steps|
  {
    if steps != [] {
      StepKeepsInv(s, steps[0]);
      StepKeepsGrantsApproved(s, h, steps[0]);
      GrantsComeFromApprovals(Apply(s, steps[0]).0, Remember(h, s, steps[0]), steps[1..]);
    }
  }

  /** All of the above from an empty plugins directory. */
  lemma RunsFromEmpty(steps: seq<Step>)
    requires forall i :: 0 <= i < |steps| ==> Governed(steps[i])
    ensures var t, h := Run(EMPTY, steps), RunWithHistory(EMPTY, History(map[], {}), steps).1;
            && GovernedInv(t) && GrantsApproved(t, h)
            && (forall n :: n in t.installed ==> Names(t.installed[n].granted) <= Names(t.installed[n].metadata.permissions))
  {
    RevokedIsPermanent(EMPTY, steps);
    GrantsComeFromApprovals(EMPTY, History(map[], {}), steps);
    var t := Run(EMPTY, steps);
    assert forall n :: n in t.installed ==> Coherent(n, t.installed[n], t.disk[n]);
  }

  /** The value a list of declarations gives a name: that of its last declaration. */
  ghost predicate Gives(decls: seq<Decl>, name: string, value: string) {
    exists i :: 0 <= i < |decls| && decls[i] == Decl(name, value) && forall j :: i < j < |decls| ==> decls[j].name != name
  }

  lemma {:induction false} PermissionMapGives(decls: seq<Decl>, name: string, value: string)
    ensures Gives(decls, name, value) <==> name in PermissionMap(decls) && PermissionMap(decls)[name] == value
  {
    if decls != [] {
      var front, last := decls[..|decls| - 1], decls[|decls| - 1];
      PermissionMapGives(front, name, value);
      if last.name == name {
        assert decls[|decls| - 1] == last;
      } else {
        if Gives(front, name, value) {
          var i :| 0 <= i < |front| && front[i] == Decl(name, value) && forall j :: i < j < |front| ==> front[j].name != name;
          assert decls[i] == Decl(name, value);
        }
        if Gives(decls, name, value) {
          var i :| 0 <= i < |decls| && decls[i] == Decl(name, value) && forall j :: i < j < |decls| ==> decls[j].name != name;
          assert front[i] == Decl(name, value);
        }
      }
    }
  }

  /** A review is needed exactly of a third-party package that gives some name a value its predecessor
      did not give it. */
  lemma ReviewNeededIff(previous: seq<Decl>, m: PluginMetadata)
    ensures UpgradeNeedsReview(previous, m) <==>
              m.trust == ThirdParty && exists n, v :: Gives(m.permissions, n, v) && !Gives(previous, n, v)
  {
    forall n, v
      ensures Gives(m.permissions, n, v) <==> n in PermissionMap(m.permissions) && PermissionMap(m.permissions)[n] == v
      ensures Gives(previous, n, v) <==> n in PermissionMap(previous) && PermissionMap(previous)[n] == v
    {
      PermissionMapGives(m.permissions, n, v);
      PermissionMapGives(previous, n, v);
    }
    hide PermissionMap, Gives;
    var before, after := PermissionMap(previous), PermissionMap(m.permissions);
    if UpgradeNeedsReview(previous, m) {
      var n :| n in after.Keys && (n !in before.Keys || before[n] != after[n]);
      assert Gives(m.permissions, n, after[n]) && !Gives(previous, n, after[n]);
    }
  }

  /** No run of installs ever adds a granted pair to a plugin or enables one that was not enabled.  And
      if the packages installed under its name were all third-party and it is still enabled at the end,
      then every permission value they gave it is one it had been given before. */
  lemma {:induction false} UpgradesNeverAddAuthority(s: Loader, n: string, steps: seq<Step>)
    requires GovernedInv(s) && n in s.installed
    requires forall i :: 0 <= i < |steps| ==> Governed(steps[i]) && steps[i].DoInstall?
    ensures var t := Run(s, steps);
            && n in t.installed
            && (forall d :: d in t.installed[n].granted ==> d in s.installed[n].granted)
            && (t.installed[n].status == Enabled ==> s.installed[n].status == Enabled)
            && (t.installed[n].status == Enabled && (forall i :: 0 <= i < |steps| ==> ThirdPartyPackage(steps[i], n)) ==>
                  forall k, v :: Gives(t.installed[n].metadata.permissions, k, v) ==>
                    Gives(s.installed[n].metadata.permissions, k, v))
    decreases |steps|
  {
    if steps != [] {
      var u := Apply(s, steps[0]).0;
      GovernedStepKeepsInv(s, steps[0]);
      UpgradeStep(s, n, steps[0]);
      UpgradesNeverAddAuthority(u, n, steps[1..]);
    }
  }

  ghost predicate ThirdPartyPackage(step: Step, n: string) {
    step.DoInstall? && (step.package.Package? && step.package.metadata.name == n ==> step.package.metadata.trust == ThirdParty)
  }

  lemma UpgradeStep(s: Loader, n: string, step: Step)
    requires n in s.installed && Governed(step) && step.DoInstall?
    ensures var u := Apply(s, step).0;
            && n in u.installed
            && (forall d :: d in u.installed[n].granted ==> d in s.installed[n].granted)
            && (u.installed[n].status == Enabled ==> s.installed[n].status == Enabled)
            && (u.installed[n].status == Enabled && ThirdPartyPackage(step, n) ==>
                  forall k, v :: Gives(u.installed[n].metadata.permissions, k, v) ==>
                    Gives(s.installed[n].metadata.permissions, k, v))
  {
    if step.package.Package? {
      ReviewNeededIff(s.installed[n].metadata.permissions, step.package.metadata);
    }
    hide Gives, UpgradeNeedsReview;
  }

  /** What an upgrade that goes through does: the granted pairs whose names are still requested are
      kept, and the status changes exactly if the package gives a name a new value. */
  lemma UpgradeKeepsOnlyRequestedGrants(s: Loader, package: Package, options: InstallOptions)
    requires package.Package? && package.metadata.name in s.installed
    requires ReachesSwap(s, package, options) && !FailsAfterSwap(package, options)
    ensures var n := package.metadata.name;
            var before, after := s.installed[n], Install(s, package, options).0.installed[n];
            var asksMore := package.metadata.trust == ThirdParty &&
              exists k, v :: Gives(package.metadata.permissions, k, v) && !Gives(before.metadata.permissions, k, v);
            && (forall d :: d in after.granted <==> d in before.granted && d.name in Names(package.metadata.permissions))
            && (after.reviewRequired <==> asksMore)
            && after.status == (if asksMore && before.status != Revoked then PendingApproval else before.status)
  {
    ReviewNeededIff(s.installed[package.metadata.name].metadata.permissions, package.metadata);
    hide Gives, UpgradeNeedsReview;
  }

  // ---------- Why the runs above exclude a failure after the swap ----------

  /** The upgrade, a restart, and an approval by the operator. */
  function UpgradeThenApprove(s: Loader, package: Package, options: InstallOptions): Loader
    requires package.Package?
  {
    Run(s, [DoInstall(package, options), Restart, DoGrant(package.metadata.name, None)])
  }

  lemma UpgradeThenApproveIs(s: Loader, package: Package, options: InstallOptions)
    requires package.Package?
    ensures UpgradeThenApprove(s, package, options) ==
            GrantPermissions(Discover(Install(s, package, options).0), package.metadata.name, None).0
  {
    var install, restart, grant := DoInstall(package, options), Restart, DoGrant(package.metadata.name, None);
    var steps := [install, restart, grant];
    assert steps[1..] == [restart, grant] && [restart, grant][1..] == [grant] && [grant][1..] == [];
    hide Install, Discover, GrantPermissions;
    assert Run(s, steps) == Run(Apply(s, install).0, [restart, grant]);
    assert Run(Apply(s, install).0, [restart, grant]) == Run(Discover(Install(s, package, options).0), [grant]);
  }

  lemma TwoSteps(s: Loader, first: Step, second: Step)
    ensures Run(s, [first, second]) == Apply(Apply(s, first).0, second).0
  {
    hide Apply;
    assert [first, second][1..] == [second] && [second][1..] == [];
    assert Run(s, [first, second]) == Run(Apply(s, first).0, [second]);
  }

  ghost predicate HoldsRevoked(s: Loader, n: string) {
    n in s.installed && s.installed[n].status == Revoked
  }

  /** The install swaps the trees, fails after it, and leaves a manifest that does not say REVOKED. */
  predicate LosesRevocation(s: Loader, package: Package, options: InstallOptions)
    requires package.Package?
  {
    && ReachesSwap(s, package, options) && FailsAfterSwap(package, options)
    && var left := LeftBehind(package, options);
       !(left.Readable? && left.fields.status == Some(Revoked))
  }

  /** Revoked in memory and on disk, where every manifest can be read; no more is asked of the state. */
  ghost predicate RevokedOnDisk(s: Loader, n: string) {
    && HoldsRevoked(s, n)
    && n in s.disk
    && (forall m :: m in s.disk ==> s.disk[m].manifest.Readable?)
    && s.disk[n].manifest.fields.status == Some(Revoked)
  }

  lemma DiscoverKeepsRevoked(s: Loader, n: string)
    requires RevokedOnDisk(s, n)
    ensures RevokedOnDisk(Discover(s), n) && DiscoveryEnds(s.disk)
  {
  }

  lemma UpdateKeepsRevoked(s: Loader, n: string, name: string, change: InstalledPlugin -> Option<InstalledPlugin>)
    requires RevokedOnDisk(s, n)
    requires forall p: InstalledPlugin :: p.status == Revoked && change(p).Some? ==> change(p).value.status == Revoked
    ensures RevokedOnDisk(Update(s, name, change).0, n)
  {
    DiscoverKeepsRevoked(s, n);
    hide Discover, DiscoveryEnds;
  }

  lemma RevokeKeepsRevoked(s: Loader, n: string, name: string)
    requires RevokedOnDisk(s, n)
    ensures RevokedOnDisk(RevokePlugin(s, name).0, n)
  {
    DiscoverKeepsRevoked(s, n);
    hide Discover, DiscoveryEnds;
  }

  lemma StepKeepsRevoked(s: Loader, n: string, step: Step)
    requires RevokedOnDisk(s, n) && Governed(step)
    ensures RevokedOnDisk(Apply(s, step).0, n)
  {
    match step
    case DoInstall(_, _) =>
    case DoGrant(name, permissions) => UpdateKeepsRevoked(s, n, name, p => Granting(p, permissions));
    case DoEnable(name) => UpdateKeepsRevoked(s, n, name, p => Enabling(p));
    case DoDisable(name) => UpdateKeepsRevoked(s, n, name, p => Transitioning(p, Disabled));
    case DoQuarantine(name) => UpdateKeepsRevoked(s, n, name, p => Transitioning(p, Quarantined));
    case DoRevoke(name) => RevokeKeepsRevoked(s, n, name);
    case DoRevokeVersion(name, version) =>
      var s1 := if (name, version) in s.revoked then s else s.(revoked := s.revoked + [(name, version)]);
      RevokeKeepsRevoked(s1, n, name);
    case Restart => DiscoverKeepsRevoked(s, n);
  }

  lemma {:induction false} RunKeepsRevoked(s: Loader, n: string, steps: seq<Step>)
    requires RevokedOnDisk(s, n)
    requires forall i :: 0 <= i < |steps| ==> Governed(steps[i])
    ensures RevokedOnDisk(Run(s, steps), n)
    decreases |steps|
  {
    if steps != [] {
      StepKeepsRevoked(s, n, steps[0]);
      RunKeepsRevoked(Apply(s, steps[0]).0, n, steps[1..]);
    }
  }

  /** An install that does not lose it leaves the revocation in memory and on disk. */
  lemma InstallKeepsRevoked(s: Loader, package: Package, options: InstallOptions)
    requires Inv(s) && package.Package? && HoldsRevoked(s, package.metadata.name)
    requires !LosesRevocation(s, package, options)
    ensures RevokedOnDisk(Install(s, package, options).0, package.metadata.name)
  {
    forall m | m in s.disk ensures s.disk[m].manifest.Readable? {
      assert Coherent(m, s.installed[m], s.disk[m]);
    }
    assert Coherent(package.metadata.name, s.installed[package.metadata.name], s.disk[package.metadata.name]);
  }

  /** A tree left without REVOKED in its manifest is loaded with another status or not at all. */
  lemma LostStaysLost(s: Loader, package: Package, options: InstallOptions)
    requires package.Package? && LosesRevocation(s, package, options)
    ensures !HoldsRevoked(UpgradeThenApprove(s, package, options), package.metadata.name)
  {
    UpgradeThenApproveIs(s, package, options);
    var n, s1 := package.metadata.name, Install(s, package, options).0;
    assert s1.disk[n] == DiskEntry(package.metadata, LeftBehind(package, options));
    assert !HoldsRevoked(Discover(s1), n);
  }

  lemma RevokedHeld(s: Loader, n: string)
    requires RevokedOnDisk(s, n)
    ensures HoldsRevoked(s, n)
  {
  }

  lemma KeptStaysKept(s: Loader, package: Package, options: InstallOptions)
    requires Inv(s) && package.Package? && HoldsRevoked(s, package.metadata.name)
    requires !LosesRevocation(s, package, options)
    ensures RevokedOnDisk(UpgradeThenApprove(s, package, options), package.metadata.name)
  {
    hide Install, Discover, GrantPermissions, Inv, LosesRevocation, RevokedOnDisk, HoldsRevoked;
    var n, u := package.metadata.name, Install(s, package, options).0;
    InstallKeepsRevoked(s, package, options);
    UpgradeThenApproveIs(s, package, options);
    RunKeepsRevoked(u, n, [Restart, DoGrant(n, None)]);
    TwoSteps(u, Restart, DoGrant(n, None));
  }

  /** The revocation of a plugin survives an upgrade and a restart, against an operator's grant and over
      every governed run from there, exactly if the upgrade does not fail after the tree swap and leave
      a manifest that does not say REVOKED.  The upgrade fails there if the package lacks the vendored
      dependencies it is to be installed with, has a bad configuration or obstructs the loader's own
      files, or if the host fails. */
  lemma RevocationSurvivesUpgradeIff(s: Loader, package: Package, options: InstallOptions, later: seq<Step>)
    requires GovernedInv(s) && package.Package? && HoldsRevoked(s, package.metadata.name)
    requires forall i :: 0 <= i < |later| ==> Governed(later[i])
    ensures var n, t := package.metadata.name, UpgradeThenApprove(s, package, options);
            && (HoldsRevoked(t, n) <==> !LosesRevocation(s, package, options))
            && (HoldsRevoked(t, n) ==> HoldsRevoked(Run(t, later), n))
  {
    if LosesRevocation(s, package, options) {
      LostStaysLost(s, package, options);
    } else {
      KeptStaysKept(s, package, options);
      hide RevokedOnDisk, GovernedInv, LosesRevocation, ReachesSwap, FailsAfterSwap;
      RunKeepsRevoked(UpgradeThenApprove(s, package, options), package.metadata.name, later);
      RevokedHeld(UpgradeThenApprove(s, package, options), package.metadata.name);
      RevokedHeld(Run(UpgradeThenApprove(s, package, options), later), package.metadata.name);
    }
  }

  /** What a restart makes of the plugin after such an install, with no operator involved: it is enabled
      exactly if what is left behind says so, or leaves it to a package that is not third-party. */
  lemma EnabledByRestartIff(s: Loader, package: Package, options: InstallOptions)
    requires GovernedInv(s) && package.Package? && HoldsRevoked(s, package.metadata.name)
    ensures var n, t := package.metadata.name, Run(s, [DoInstall(package, options), Restart]);
            (n in t.installed && t.installed[n].status == Enabled) <==>
              && ReachesSwap(s, package, options) && FailsAfterSwap(package, options)
              && var left := LeftBehind(package, options);
                 || (left.Readable? && left.fields.status == Some(Enabled))
                 || ((left.Absent? || (left.Readable? && left.fields.status == None)) && package.metadata.trust != ThirdParty)
  {
    hide Install, Discover, ReachesSwap, FailsAfterSwap, LeftBehind, Inv;
    var n, u := package.metadata.name, Install(s, package, options).0;
    TwoSteps(s, DoInstall(package, options), Restart);
    if LosesRevocation(s, package, options) {
      LoadedAfterLoss(s, package, options);
    } else {
      InstallKeepsRevoked(s, package, options);
      DiscoverKeepsRevoked(u, n);
    }
  }

  /** How a tree left behind is loaded by a restart, where the other manifests can be read. */
  lemma LoadedAfterLoss(s: Loader, package: Package, options: InstallOptions)
    requires Inv(s) && package.Package? && ReachesSwap(s, package, options) && FailsAfterSwap(package, options)
    ensures var n, d := package.metadata.name, DiskEntry(package.metadata, LeftBehind(package, options));
            var t := Discover(Install(s, package, options).0);
            && (n in t.installed <==> d.manifest.Absent? || d.manifest.Readable?)
            && (n in t.installed ==> t.installed[n] == LoadEntry(d))
  {
    hide LoadEntry, ReachesSwap, FailsAfterSwap, LeftBehind;
    var n, u := package.metadata.name, Install(s, package, options).0;
    assert u.disk == s.disk[n := DiskEntry(package.metadata, LeftBehind(package, options))];
    forall m | m in s.disk ensures s.disk[m].manifest.Readable? {
      assert Coherent(m, s.installed[m], s.disk[m]);
    }
    TextLessTotal(n, n);
  }

  /** Three packages that undo the revocation of a plugin, one for each cause: a third-party package that
      declares dependencies and ships neither lock nor wheels, granted after a restart; a trusted package
      with a bad configuration, enabled by the restart; and a third-party one that ships, besides, a
      manifest that says enabled. */
  lemma RevocationCanBeLost(s: Loader, m: PluginMetadata, hash: string)
    requires GovernedInv(s) && ValidMetadata(m) && HoldsRevoked(s, m.name) && (m.name, m.version) !in s.revoked
    ensures m.trust == ThirdParty ==>
              var package := Package(m, hash, Declared(false, NoLock, NoWheels, true), NoConfig, Absent);
              var t := UpgradeThenApprove(s, package, InstallOptions(true, true, false, NoFault));
              m.name in t.installed && t.installed[m.name].status == Enabled
    ensures m.trust != ThirdParty ==>
              var package := Package(m, hash, NoneDeclared, BadConfig, Absent);
              var t := Run(s, [DoInstall(package, InstallOptions(true, false, false, NoFault)), Restart]);
              m.name in t.installed && t.installed[m.name].status == Enabled
    ensures var package := Package(m, hash, NoneDeclared, BadConfig, Readable(Manifest(None, Some(Enabled), [], None)));
            var t := Run(s, [DoInstall(package, InstallOptions(true, false, false, NoFault)), Restart]);
            m.name in t.installed && t.installed[m.name].status == Enabled
  {
    var options := InstallOptions(true, false, false, NoFault);
    if m.trust == ThirdParty {
      LostManifestIsGranted(s, Package(m, hash, Declared(false, NoLock, NoWheels, true), NoConfig, Absent), InstallOptions(true, true, false, NoFault));
    } else {
      EnabledByRestartIff(s, Package(m, hash, NoneDeclared, BadConfig, Absent), options);
    }
    EnabledByRestartIff(s, Package(m, hash, NoneDeclared, BadConfig, Readable(Manifest(None, Some(Enabled), [], None))), options);
  }

  /** Without a manifest, the default status can be granted like any other after a restart. */
  lemma LostManifestIsGranted(s: Loader, package: Package, options: InstallOptions)
    requires Inv(s) && package.Package? && ReachesSwap(s, package, options) && FailsAfterSwap(package, options)
    requires LeftBehind(package, options).Absent?
    ensures var t := UpgradeThenApprove(s, package, options);
            package.metadata.name in t.installed && t.installed[package.metadata.name].status == Enabled
  {
    var n, s1 := package.metadata.name, Install(s, package, options).0;
    UpgradeThenApproveIs(s, package, options);
    LoadedAfterLoss(s, package, options);
    hide Install, Discover, Inv;
    assert Granting(Discover(s1).installed[n], None).Some?;
  }
}
