/** Whole runs of operator commands: what holds between two commands, whatever the plugins do. */
module EngineRuns {
  import opened Prelude
  import opened PluginEvents
  import opened EngineModel
  import opened EngineInvariants
  import L = PluginLifecycle

  // ---------- Between two commands ----------

  /** No dispatch is going on and every permit is free. */
  ghost predicate Idle(e: Engine) {
    && e.depth == 0
    && e.running == multiset{}
    && (forall p :: p in Installed(e) ==> Free(e, p) == Limit(e, p))
  }

  ghost predicate Quiet(e: Engine) {
    && Inv(e)
    && Idle(e)
    && (forall p :: !Hot(e, p))
  }

  ghost predicate Keeps(e: Engine, f: Engine) {
    && Quiet(f)
    && e.log <= f.log
    && (forall p :: Fenced(e, f, p))
  }

  lemma KeepsRefl(e: Engine)
    requires Quiet(e)
    ensures Keeps(e, e)
  {
  }

  lemma KeepsTrans(e: Engine, f: Engine, g: Engine)
    requires Keeps(e, f) && Keeps(f, g)
    ensures Keeps(e, g)
  {
    hide Quiet;
    forall p ensures Fenced(e, g, p) {
      FencedTrans(e, f, g, p);
    }
  }

  /** The components of the invariant, for lemmas that each need a few of them. */
  lemma InvParts(e: Engine)
    requires Inv(e)
    ensures LoaderOk(e.loader) && Tables(e) && CallbacksOk(e) && Agreed(e)
    ensures Conserved(e) && Counters(e) && Bounded(e)
    ensures forall p :: p in e.sandboxes ==> Calm(e, p)
  {
    hide LoaderOk, Tables, CallbacksOk, Agreed, Conserved, Counters, Bounded, Calm;
  }

  lemma InvFromParts(e: Engine)
    requires LoaderOk(e.loader) && Tables(e) && CallbacksOk(e) && Agreed(e)
    requires Conserved(e) && Counters(e) && Bounded(e)
    requires forall p :: p in e.sandboxes ==> Calm(e, p)
    ensures Inv(e)
  {
    hide LoaderOk, Tables, CallbacksOk, Agreed, Conserved, Counters, Bounded, Calm;
  }

  lemma EvolvesFenced(e: Engine, f: Engine, p: string)
    requires Evolves(e, f)
    ensures Fenced(e, f, p)
  {
    if IsRevoked(e, p) {
      assert StatusKept(Installed(e)[p], Installed(f)[p]);
      forall i | |e.log| <= i < |f.log| ensures f.log[i] != Launched(p) {
      }
    }
  }

  lemma IdleAfter(e: Engine, f: Engine)
    requires Idle(e) && Balanced(e, f) && SamePermits(e, f)
    ensures Idle(f)
  {
    forall p | p in Installed(f) ensures Free(f, p) == Limit(f, p) {
      assert Free(f, p) == FreeMap(f)[p] == FreeMap(e)[p] == Free(e, p);
    }
  }

  /** Nested dispatches leave the engine as quiet as they found it. */
  lemma QuietAfter(e: Engine, f: Engine)
    requires Quiet(e) && Good(e, f) && SamePermits(e, f)
    ensures Keeps(e, f)
  {
    hide InvBut, Inv, Evolves, SamePermits, Idle, Fenced, Hot;
    IdleAfter(e, f);
    EvolvesFenced(e, f, "");
    forall p ensures Fenced(e, f, p) {
      EvolvesFenced(e, f, p);
    }
  }

  lemma PublishQuiet(code: Code, e: Engine, event: string)
    requires Quiet(e)
    ensures Keeps(e, Publish(code, e, event))
  {
    PublishKeeps(code, e, event);
    QuietAfter(e, Publish(code, e, event));
  }

  lemma StopQuiet(code: Code, e: Engine, p: string)
    requires Quiet(e)
    ensures Keeps(e, Stop(code, e, p)) && p !in Stop(code, e, p).sandboxes
    ensures SameMetadata(e, Stop(code, e, p))
  {
    StopKeeps(code, e, p);
    QuietAfter(e, Stop(code, e, p));
  }

  // ---------- Loader operations ----------

  /** The same plugin as far as the engine and the gateway can tell. */
  ghost predicate Alike(p: L.InstalledPlugin, q: L.InstalledPlugin) {
    && p.metadata == q.metadata
    && p.status == q.status
    && (p.metadata.trust == L.ThirdParty ==> p.granted == q.granted)
  }

  /** What an operation about plugin `n` may do to the loader. */
  ghost predicate Adopted(l: L.Loader, m: L.Loader, n: string, ok: bool) {
    && LoaderOk(m)
    && m.installed.Keys == l.installed.Keys
    && (ok ==> n in m.installed)
    && (forall k :: k in l.installed && (k != n || !ok) ==> Alike(l.installed[k], m.installed[k]))
    && (n in l.installed ==> n in m.installed && m.installed[n].metadata == l.installed[n].metadata
                             && (l.installed[n].status == L.Revoked ==> m.installed[n].status == L.Revoked))
  }

  lemma DiscoverAlike(l: L.Loader)
    requires LoaderOk(l)
    ensures LoaderOk(L.Discover(l))
    ensures L.Discover(l).installed.Keys == l.installed.Keys
    ensures forall k :: k in l.installed ==> Alike(l.installed[k], L.Discover(l).installed[k])
  {
    L.DiscoverEffect(l);
    L.GovernedStepKeepsInv(l, L.Restart);
    assert L.Apply(l, L.Restart).0 == L.Discover(l);
    forall k | k in l.installed
      ensures RecordOk(L.Discover(l), k) && Alike(l.installed[k], L.Discover(l).installed[k])
    {
      assert L.Coherent(k, l.installed[k], l.disk[k]) && RecordOk(l, k);
    }
  }

  lemma LocatedAlike(l: L.Loader, n: string)
    requires LoaderOk(l)
    ensures LoaderOk(L.Located(l, n))
    ensures L.Located(l, n).installed.Keys == l.installed.Keys
    ensures forall k :: k in l.installed ==> Alike(l.installed[k], L.Located(l, n).installed[k])
  {
    DiscoverAlike(l);
  }

  /** Replacing one plugin's record in memory and in its manifest. */
  lemma PersistedAdopts(l: L.Loader, n: string, p: L.InstalledPlugin)
    requires n in l.installed && p.metadata == l.installed[n].metadata
    requires forall k :: k in l.installed ==> RecordOk(l, k)
    requires L.GovernedInv(L.Persisted(l, n, p))
    requires l.installed[n].status == L.Revoked ==> p.status == L.Revoked
    ensures Adopted(l, L.Persisted(l, n, p), n, true)
  {
    hide L.GovernedInv;
    var m := L.Persisted(l, n, p);
    forall k | k in m.installed ensures RecordOk(m, k) {
      assert RecordOk(l, k);
    }
  }

  lemma UpdateAdopts(l: L.Loader, n: string, change: L.InstalledPlugin -> Option<L.InstalledPlugin>, step: L.Step)
    requires LoaderOk(l) && L.Governed(step) && L.Apply(l, step) == L.Update(l, n, change)
    requires forall p :: change(p).Some? ==> change(p).value.metadata == p.metadata
    ensures Adopted(l, L.Update(l, n, change).0, n, L.Update(l, n, change).1)
  {
    L.KnownAreFound(l, n);
    hide L.GovernedInv, L.Apply, RecordOk, L.Discover, L.Found, L.Updatable;
    LocatedAlike(l, n);
    if n in l.installed && change(l.installed[n]).Some? {
      L.GovernedStepKeepsInv(l, step);
      L.StatusChangesAreEdges(l, step, n);
      PersistedAdopts(l, n, change(l.installed[n]).value);
    }
  }

  lemma GrantAdopts(l: L.Loader, n: string, permissions: Option<seq<L.RawDecl>>)
    requires LoaderOk(l)
    ensures var (m, ok) := L.GrantPermissions(l, n, permissions);
            Adopted(l, m, n, ok) && (ok ==> m.installed[n].status == L.Enabled)
  {
    hide LoaderOk, L.Discover, Adopted;
    UpdateAdopts(l, n, p => L.Granting(p, permissions), L.DoGrant(n, permissions));
  }

  lemma EnableAdopts(l: L.Loader, n: string)
    requires LoaderOk(l)
    ensures var (m, ok) := L.EnablePlugin(l, n);
            Adopted(l, m, n, ok) && (ok ==> m.installed[n].status == L.Enabled)
  {
    UpdateAdopts(l, n, p => L.Enabling(p), L.DoEnable(n));
  }

  lemma TransitionAdopts(l: L.Loader, n: string, target: L.Status)
    requires LoaderOk(l) && (target == L.Disabled || target == L.Quarantined)
    ensures var (m, ok) := L.TransitionStatus(l, n, target);
            Adopted(l, m, n, ok) && (ok ==> m.installed[n].status == target)
  {
    hide LoaderOk, L.Discover, Adopted;
    UpdateAdopts(l, n, p => L.Transitioning(p, target),
                 if target == L.Disabled then L.DoDisable(n) else L.DoQuarantine(n));
  }

  lemma RevokeShape(l: L.Loader, n: string)
    requires n in l.installed && L.Everyday(l.installed[n].status)
    ensures L.RevokePlugin(l, n) ==
              (L.Persisted(l, n, l.installed[n].(granted := [], status := L.Revoked)), L.Updatable(l, n))
  {
  }

  lemma RevokeAdopts(l: L.Loader, n: string)
    requires LoaderOk(l)
    ensures var (m, ok) := L.RevokePlugin(l, n);
            Adopted(l, m, n, ok) && (ok ==> m.installed[n].status == L.Revoked)
  {
    LocatedAlike(l, n);
    if n in l.installed {
      RevokeShape(l, n);
      assert L.Apply(l, L.DoRevoke(n)) == L.RevokePlugin(l, n);
      L.GovernedStepKeepsInv(l, L.DoRevoke(n));
      PersistedAdopts(l, n, l.installed[n].(granted := [], status := L.Revoked));
    }
  }

  lemma SameRecords(l: L.Loader, s: L.Loader)
    requires s == l.(revoked := s.revoked) && LoaderOk(l)
    ensures forall k :: k in l.installed ==> RecordOk(s, k) && L.Everyday(l.installed[k].status)
  {
    forall k | k in l.installed ensures RecordOk(s, k) {
      assert RecordOk(l, k);
    }
  }

  lemma RevokeVersionAdopts(l: L.Loader, n: string, version: string)
    requires LoaderOk(l)
    ensures var (m, ok) := L.RevokeVersion(l, n, version);
            var hit := n in l.installed && l.installed[n].metadata.version == version;
            && ok
            && Adopted(l, m, n, hit)
            && (hit ==> m.installed[n].status == L.Revoked)
  {
    var m := L.RevokeVersion(l, n, version).0;
    var s := if (n, version) in l.revoked then l else l.(revoked := l.revoked + [(n, version)]);
    assert L.Apply(l, L.DoRevokeVersion(n, version)).0 == m;
    L.GovernedStepKeepsInv(l, L.DoRevokeVersion(n, version));
    SameRecords(l, s);
    L.KnownAreFound(l, n);
    assert L.Updatable(s, n) == L.Updatable(l, n);
    hide RecordOk, L.GovernedInv, L.RevokePlugin, L.Everyday, L.Updatable, L.Found, L.Discover;
    if n in l.installed && l.installed[n].metadata.version == version {
      RevokeShape(s, n);
      PersistedAdopts(s, n, s.installed[n].(granted := [], status := L.Revoked));
    }
  }

  // ---------- The engine with another loader state ----------

  /** Only the loader and the gateway's records differ, and only about plugin `n`: which keeps its
      metadata unless the gateway does not know it, stays enabled while it runs, stays revoked, and
      is only enabled afresh with a clean slate. */
  ghost predicate Swapped(e: Engine, f: Engine, n: string) {
    && f == e.(loader := f.loader, registered := f.registered)
    && LoaderOk(f.loader)
    && Installed(e).Keys <= Installed(f).Keys <= Installed(e).Keys + {n}
    && (forall p :: p in Installed(e) && p != n ==> Alike(Installed(e)[p], Installed(f)[p]))
    && (n in Installed(e) && n in e.registered ==> Installed(f)[n].metadata == Installed(e)[n].metadata)
    && (n in e.sandboxes ==> IsEnabled(f, n))
    && (IsRevoked(e, n) ==> IsRevoked(f, n))
    && (IsEnabled(f, n) && !IsEnabled(e, n) && n in e.registered ==> Recent(e.log, n) == 0)
  }

  lemma SwappedFree(e: Engine, f: Engine, n: string)
    requires Idle(e) && Swapped(e, f, n) && e.runtime.Keys <= e.registered.Keys <= Installed(e).Keys
    ensures Idle(f) && Conserved(f)
  {
    hide LoaderOk, Recent;
    forall p | p in Installed(f) ensures Free(f, p) == Limit(f, p) {
      if p in e.runtime {
        assert Installed(f)[p].metadata == Installed(e)[p].metadata;
        assert Free(f, p) == Free(e, p);
      }
    }
    assert FreeMap(f) == LimitMap(f);
  }

  lemma SwappedBooks(e: Engine, f: Engine, n: string, p: string)
    requires Bounded(e) && Agreed(e) && !Hot(e, p) && Swapped(e, f, n)
    ensures Guarded(f, p) ==>
              && Recent(f.log, p) + f.running[p] < Threshold(f, p) + Limit(f, p)
              && LongestStreak(f.log, p) < Threshold(f, p) + Limit(f, p)
    ensures !Hot(f, p)
  {
    RecentWithinLongest(e.log, p);
    if p in Installed(f) {
      RecordLimits(f.loader, p);
      hide LoaderOk;
      if p in e.registered {
        assert Installed(f)[p].metadata == Installed(e)[p].metadata;
        assert Guarded(f, p) <==> Guarded(e, p);
      }
    }
  }

  lemma RecordLimits(l: L.Loader, p: string)
    requires LoaderOk(l) && p in l.installed
    ensures 1 <= l.installed[p].metadata.maxConcurrency && 1 <= l.installed[p].metadata.failureThreshold
  {
    assert RecordOk(l, p);
  }

  lemma SwappedBounded(e: Engine, f: Engine, n: string)
    requires Bounded(e) && Agreed(e) && Swapped(e, f, n)
    requires forall p :: !Hot(e, p)
    ensures Bounded(f)
    ensures forall p :: !Hot(f, p)
  {
    hide LoaderOk, Hot, Recent, LongestStreak, Swapped, Agreed;
    forall p
      ensures Guarded(f, p) ==>
                && Recent(f.log, p) + f.running[p] < Threshold(f, p) + Limit(f, p)
                && LongestStreak(f.log, p) < Threshold(f, p) + Limit(f, p)
      ensures !Hot(f, p)
    {
      SwappedBooks(e, f, n, p);
    }
  }

  lemma SwappedKeeps(e: Engine, f: Engine, n: string)
    requires Quiet(e) && Swapped(e, f, n) && Agreed(f)
    ensures Keeps(e, f)
  {
    hide InvBut, Inv, LoaderOk, Hot, CallbacksOk, Bounded, Counters, Conserved, Idle, Fenced, Recent, LongestStreak;
    InvParts(e);
    SwappedTables(e, f, n);
    SwappedFree(e, f, n);
    CallbacksSame(e, f);
    SwappedBounded(e, f, n);
    hide Tables, Agreed, Swapped;
    NotHotCalm(f);
    InvFromParts(f);
  }

  lemma NotHotCalm(e: Engine)
    requires Tables(e) && forall p :: !Hot(e, p)
    ensures forall p :: p in e.sandboxes ==> Calm(e, p)
  {
    hide Calm;
    forall p | p in e.sandboxes ensures Calm(e, p) {
      assert !Hot(e, p);
    }
  }

  lemma SwappedTables(e: Engine, f: Engine, n: string)
    requires Tables(e) && Swapped(e, f, n)
    ensures Tables(f)
    ensures Counters(e) ==> Counters(f)
    ensures forall p :: Fenced(e, f, p)
  {
    hide LoaderOk, FailSuffix, Recent;
  }

  lemma RegisteredAgreed(e: Engine, m: L.Loader, n: string)
    requires Agreed(e) && Adopted(e.loader, m, n, true)
    ensures Agreed(Register(e.(loader := m), n))
  {
    hide LoaderOk, LongestStreak;
  }

  lemma UnreportedAgreed(e: Engine, m: L.Loader, n: string)
    requires Agreed(e) && Adopted(e.loader, m, n, false)
    ensures Agreed(e.(loader := m))
  {
    hide LoaderOk, LongestStreak;
  }

  /** Reporting a plugin as the loader has it. */
  lemma ReportedAgreed(e: Engine, n: string)
    requires Agreed(e)
    ensures Agreed(Register(e, n))
  {
    hide LongestStreak;
  }

  lemma AdoptedSwapped(e: Engine, m: L.Loader, registered: map<string, GatewayRecord>, n: string, ok: bool)
    requires Tables(e) && Adopted(e.loader, m, n, ok)
    requires ok && n in e.sandboxes ==> m.installed[n].status == L.Enabled
    requires ok && m.installed[n].status == L.Enabled && !IsEnabled(e, n) ==> Recent(e.log, n) == 0
    ensures Swapped(e, e.(loader := m, registered := registered), n)
  {
    hide LoaderOk, Recent;
  }

  /** Adopting a loader operation's outcome and reporting the plugin to the gateway. */
  lemma ReportKeeps(e: Engine, m: L.Loader, n: string)
    requires Quiet(e) && Adopted(e.loader, m, n, true)
    requires n in e.sandboxes ==> m.installed[n].status == L.Enabled
    requires m.installed[n].status == L.Enabled && !IsEnabled(e, n) ==> Recent(e.log, n) == 0
    ensures Keeps(e, Register(e.(loader := m), n))
  {
    hide Keeps, InvBut, Inv, LoaderOk, Hot, Recent, Swapped, Agreed, Tables;
    var f := Register(e.(loader := m), n);
    InvParts(e);
    RegisteredAgreed(e, m, n);
    AdoptedSwapped(e, m, f.registered, n, true);
    SwappedKeeps(e, f, n);
  }

  /** The outcome of an operation that changed nothing the engine looks at. */
  lemma UnreportedKeeps(e: Engine, m: L.Loader, n: string)
    requires Quiet(e) && Adopted(e.loader, m, n, false)
    ensures Keeps(e, e.(loader := m)) && Keeps(e, Register(e.(loader := m), n))
    ensures SameMetadata(e, e.(loader := m))
  {
    hide Keeps, InvBut, Inv, LoaderOk, Hot, Recent, Swapped, Agreed, Tables;
    InvParts(e);
    var f, g := e.(loader := m), Register(e.(loader := m), n);
    UnreportedAgreed(e, m, n);
    ReportedAgreed(f, n);
    AdoptedSwapped(e, m, f.registered, n, false);
    AdoptedSwapped(e, m, g.registered, n, false);
    SwappedKeeps(e, f, n);
    SwappedKeeps(e, g, n);
  }

  /** An operator's approval starts a new streak. */
  lemma ArmKeeps(e: Engine, p: string)
    requires Quiet(e)
    ensures Keeps(e, Arm(e, p)) && Recent(Arm(e, p).log, p) == 0
  {
    hide InvBut, Inv, LoaderOk, CallbacksOk, Hot, Recent, LongestStreak, FailSuffix, Conserved;
    var f := Arm(e, p);
    InvParts(e);
    ArmStreaks(e.log, p);
    CallbacksSame(e, f);
    ArmConserved(e, f);
    ArmBounded(e, f);
    ArmAgreed(e, f);
    InvFromParts(f);
    forall q ensures !Hot(f, q) {
      ArmHot(e, f, q);
    }
  }

  lemma ArmStreaks(log: seq<Mark>, p: string)
    ensures Recent(log + [Armed(p)], p) == 0
    ensures forall q :: FailSuffix(log + [Armed(p)], q) == FailSuffix(log, q)
    ensures forall q :: Recent(log + [Armed(p)], q) <= Recent(log, q)
    ensures forall q :: LongestStreak(log + [Armed(p)], q) == LongestStreak(log, q)
  {
    forall q
      ensures FailSuffix(log + [Armed(p)], q) == FailSuffix(log, q)
      ensures Recent(log + [Armed(p)], q) <= Recent(log, q)
      ensures LongestStreak(log + [Armed(p)], q) == LongestStreak(log, q)
    {
      RecentWithinLongest(log, q);
      SuffixStep(log, Armed(p), q);
    }
    SuffixStep(log, Armed(p), p);
  }

  lemma ArmConserved(e: Engine, f: Engine)
    requires Conserved(e) && Idle(e) && f == e.(log := f.log)
    ensures Conserved(f) && Idle(f)
  {
    assert FreeMap(f) == FreeMap(e) && LimitMap(f) == LimitMap(e);
    forall p | p in Installed(f) ensures Free(f, p) == Limit(f, p) && Limit(f, p) == Limit(e, p) {
      assert Free(f, p) == Free(e, p);
    }
  }

  lemma ArmAgreed(e: Engine, f: Engine)
    requires Agreed(e) && f == e.(log := f.log)
    requires forall q :: LongestStreak(f.log, q) == LongestStreak(e.log, q)
    ensures Agreed(f)
  {
    hide LongestStreak;
  }

  lemma ArmHot(e: Engine, f: Engine, q: string)
    requires !Hot(e, q) && f == e.(log := f.log) && Recent(f.log, q) <= Recent(e.log, q)
    ensures !Hot(f, q)
  {
    hide Recent;
  }

  lemma ArmBounded(e: Engine, f: Engine)
    requires Bounded(e) && f == e.(log := f.log)
    requires forall q :: Recent(f.log, q) <= Recent(e.log, q)
    requires forall q :: LongestStreak(f.log, q) == LongestStreak(e.log, q)
    ensures Bounded(f)
    ensures forall q :: Calm(e, q) ==> Calm(f, q)
  {
    hide Recent, LongestStreak;
    forall q | Guarded(f, q)
      ensures Recent(f.log, q) + f.running[q] < Threshold(f, q) + Limit(f, q)
      ensures LongestStreak(f.log, q) < Threshold(f, q) + Limit(f, q)
    {
      assert Guarded(e, q);
    }
  }

  // ---------- Install ----------

  lemma InstalledOk(l: L.Loader, package: L.Package, options: L.InstallOptions)
    requires LoaderOk(l) && !L.FailsAfterSwap(package, options)
    ensures LoaderOk(L.Install(l, package, options).0)
  {
    var m := L.Install(l, package, options).0;
    L.GovernedStepKeepsInv(l, L.DoInstall(package, options));
    assert L.Apply(l, L.DoInstall(package, options)).0 == m;
    hide L.GovernedInv;
    forall k | k in m.installed ensures RecordOk(m, k) {
      assert k in l.installed ==> RecordOk(l, k);
    }
  }

  lemma InstalledSwapped(e: Engine, package: L.Package, options: L.InstallOptions)
    requires L.ReachesSwap(e.loader, package, options) && !L.FailsAfterSwap(package, options)
    requires LoaderOk(L.Install(e.loader, package, options).0)
    requires package.metadata.name !in e.registered
    requires Agreed(e)
    ensures var f := e.(loader := L.Install(e.loader, package, options).0);
            Swapped(e, f, package.metadata.name) && Agreed(f)
  {
    hide LoaderOk, Recent, LongestStreak;
  }

  /** Installing over a plugin the gateway does not know. */
  lemma InstallQuiet(e: Engine, package: L.Package, options: L.InstallOptions)
    requires Quiet(e) && !L.FailsAfterSwap(package, options)
    requires package.Package? ==> package.metadata.name !in e.registered
    ensures Keeps(e, e.(loader := L.Install(e.loader, package, options).0))
  {
    hide InvBut, Inv, Keeps, LoaderOk, Hot, Idle, Agreed, Swapped;
    if L.ReachesSwap(e.loader, package, options) {
      InvParts(e);
      InstalledOk(e.loader, package, options);
      InstalledSwapped(e, package, options);
      SwappedKeeps(e, e.(loader := L.Install(e.loader, package, options).0), package.metadata.name);
    } else {
      KeepsRefl(e);
    }
  }

  // ---------- Start ----------

  lemma StartedFresh(e: Engine, n: string)
    requires CallbacksOk(e) && n in Installed(e)
    ensures Fresh(e.bus, Subscriptions(n, Installed(e)[n].metadata.events, e.nextId))
  {
    var subscriptions := Subscriptions(n, Installed(e)[n].metadata.events, e.nextId);
    forall i, ev | 0 <= i < |subscriptions| ensures subscriptions[i].callback !in Listeners(e.bus, ev) {
      assert ListOk(e, ev, Listeners(e.bus, ev));
    }
  }

  /** Starting appends the plugin's new callbacks to the lists of its events. */
  lemma StartedLists(e: Engine, n: string, ev: string)
    requires CallbacksOk(e) && n in Installed(e)
    ensures var subscriptions := Subscriptions(n, Installed(e)[n].metadata.events, e.nextId);
            Listeners(Started(e, n).bus, ev) == Listeners(e.bus, ev) + Added(subscriptions, ev)
  {
    StartedFresh(e, n);
    SubscribeAllAppends(e.bus, Subscriptions(n, Installed(e)[n].metadata.events, e.nextId), ev);
  }

  lemma StartedListOk(e: Engine, n: string, ev: string)
    requires CallbacksOk(e) && n in Installed(e) && n !in e.callbacks
    ensures ListOk(Started(e, n), ev, Listeners(Started(e, n).bus, ev))
  {
    var subscriptions := Subscriptions(n, Installed(e)[n].metadata.events, e.nextId);
    var was, added := Listeners(e.bus, ev), Added(subscriptions, ev);
    StartedLists(e, n, ev);
    AddedMembers(subscriptions, ev);
    AddedDistinct(subscriptions, ev);
    assert ListOk(e, ev, was);
    hide CallbacksOk;
    forall i, j | 0 <= i < j < |was + added| ensures (was + added)[i] != (was + added)[j] {
      if i < |was| <= j {
        assert was[i] in was && added[j - |was|] in added;
      }
    }
  }

  lemma StartedCallbacks(e: Engine, n: string)
    requires CallbacksOk(e) && n in Installed(e) && n !in e.callbacks
    ensures CallbacksOk(Started(e, n))
  {
    forall ev ensures ListOk(Started(e, n), ev, Listeners(Started(e, n).bus, ev)) {
      StartedListOk(e, n, ev);
    }
  }

  lemma StartedTables(e: Engine, n: string)
    requires Tables(e) && Agreed(e) && IsEnabled(e, n)
    ensures Tables(Started(e, n)) && Agreed(Started(e, n))
  {
    hide LongestStreak;
  }

  lemma StartedBooks(e: Engine, n: string)
    requires Conserved(e) && Counters(e) && Bounded(e) && Idle(e) && n in Installed(e)
    ensures var f := Started(e, n);
            Conserved(f) && Counters(f) && Bounded(f) && Idle(f)
    ensures forall p :: Hot(Started(e, n), p) <==> Hot(e, p)
  {
    hide Recent, FailSuffix, LongestStreak;
    var f := Started(e, n);
    assert FreeMap(f) == FreeMap(e);
    hide Conserved, Counters, Bounded;
    BooksKept(e, f);
    IdleAfter(e, f);
  }

  /** Starting an enabled plugin that is not running. */
  lemma StartedQuiet(e: Engine, n: string)
    requires Quiet(e) && IsEnabled(e, n) && n !in e.sandboxes
    ensures Keeps(e, Started(e, n))
  {
    hide InvBut, Inv, LoaderOk, CallbacksOk, Agreed, Conserved, Counters, Bounded, Hot, Idle;
    var f := Started(e, n);
    InvParts(e);
    assert n !in e.callbacks;
    StartedCallbacks(e, n);
    StartedTables(e, n);
    StartedBooks(e, n);
    NotHotCalm(f);
    InvFromParts(f);
  }

  /** The loader's look on disk before a start. */
  lemma LocatedQuiet(e: Engine, n: string)
    requires Quiet(e)
    ensures Keeps(e, e.(loader := L.Located(e.loader, n)))
    ensures Keeps(e, Register(e.(loader := L.Located(e.loader, n)), n))
  {
    hide InvBut, Inv, Keeps, LoaderOk, Hot, Idle;
    InvParts(e);
    LocatedAlike(e.loader, n);
    UnreportedKeeps(e, L.Located(e.loader, n), n);
  }

  lemma StartQuiet(code: Code, e0: Engine, n: string, admitted: bool, launch: Launch)
    requires Quiet(e0) && n !in e0.sandboxes
    ensures Keeps(e0, StartPlugin(code, e0, n, admitted, launch).0)
  {
    hide InvBut, Inv, Keeps, LoaderOk, Hot, Idle, Fenced;
    var e := e0.(loader := L.Located(e0.loader, n));
    LocatedQuiet(e0, n);
    KeepsQuiet(e0, e);
    if IsEnabled(e, n) && admitted && launch == Launches {
      StartedQuiet(e, n);
      KeepsQuiet(e, Started(e, n));
      PublishQuiet(code, Started(e, n), "plugin.started");
      KeepsTrans(e, Started(e, n), Publish(code, Started(e, n), "plugin.started"));
      KeepsTrans(e0, e, Publish(code, Started(e, n), "plugin.started"));
    }
  }

  lemma KeepsQuiet(e: Engine, f: Engine)
    requires Keeps(e, f)
    ensures Quiet(f)
  {
  }

  // ---------- The other commands ----------

  lemma AnnounceQuiet(code: Code, e: Engine, m: L.Loader, n: string, event: string)
    requires Quiet(e) && Keeps(e, Register(e.(loader := m), n))
    ensures Keeps(e, Announce(code, e, m, n, event))
  {
    hide Quiet, Fenced;
    var f := Register(e.(loader := m), n);
    PublishQuiet(code, f, event);
    KeepsTrans(e, f, Announce(code, e, m, n, event));
  }

  /** Granting and enabling: an approval, then a status that may become ENABLED. */
  lemma ApproveQuiet(code: Code, e: Engine, m: L.Loader, n: string, ok: bool, event: string)
    requires Quiet(e) && Adopted(e.loader, m, n, ok)
    requires ok ==> m.installed[n].status == L.Enabled
    ensures Keeps(e, if ok then Announce(code, Arm(e, n), m, n, event) else e.(loader := m))
  {
    hide Quiet, Fenced, Keeps, LoaderOk, Recent;
    if ok {
      ArmKeeps(e, n);
      KeepsQuiet(e, Arm(e, n));
      ReportKeeps(Arm(e, n), m, n);
      AnnounceQuiet(code, Arm(e, n), m, n, event);
      KeepsTrans(e, Arm(e, n), Announce(code, Arm(e, n), m, n, event));
    } else {
      UnreportedKeeps(e, m, n);
    }
  }

  /** Disabling, quarantining and revoking: a stop, then a status other than ENABLED. */
  lemma WithdrawQuiet(code: Code, e: Engine, m: L.Loader, n: string, ok: bool, event: string)
    requires Quiet(e) && n !in e.sandboxes && Adopted(e.loader, m, n, ok)
    requires ok ==> m.installed[n].status != L.Enabled
    ensures Keeps(e, if ok then Announce(code, e, m, n, event) else e.(loader := m))
  {
    hide Quiet, Fenced, Keeps, LoaderOk, Recent;
    if ok {
      ReportKeeps(e, m, n);
      AnnounceQuiet(code, e, m, n, event);
    } else {
      UnreportedKeeps(e, m, n);
    }
  }

  lemma QuietLoader(e: Engine)
    requires Quiet(e)
    ensures LoaderOk(e.loader)
  {
    hide LoaderOk, Tables, CallbacksOk, Agreed, Conserved, Counters, Bounded;
  }

  lemma RetireQuiet(code: Code, e: Engine, n: string, target: L.Status, event: string)
    requires Quiet(e) && (target == L.Disabled || target == L.Quarantined)
    ensures Keeps(e, Retire(code, e, n, target, event))
  {
    hide Quiet, Fenced, Keeps, LoaderOk;
    var e1 := Stop(code, e, n);
    StopQuiet(code, e, n);
    KeepsQuiet(e, e1);
    QuietLoader(e1);
    TransitionAdopts(e1.loader, n, target);
    var (m, ok) := L.TransitionStatus(e1.loader, n, target);
    WithdrawQuiet(code, e1, m, n, ok, event);
    KeepsTrans(e, e1, Retire(code, e, n, target, event));
  }

  lemma RevokeQuiet(code: Code, e: Engine, n: string)
    requires Quiet(e)
    ensures Keeps(e, Execute(code, e, Revoke(n)))
  {
    hide Quiet, Fenced, Keeps, LoaderOk;
    var e1 := Stop(code, e, n);
    StopQuiet(code, e, n);
    KeepsQuiet(e, e1);
    QuietLoader(e1);
    RevokeAdopts(e1.loader, n);
    var (m, ok) := L.RevokePlugin(e1.loader, n);
    WithdrawQuiet(code, e1, m, n, ok, "plugin.revoked");
    KeepsTrans(e, e1, Execute(code, e, Revoke(n)));
  }

  lemma RevokeVersionQuiet(code: Code, e: Engine, n: string, version: string)
    requires Quiet(e)
    ensures Keeps(e, Execute(code, e, RevokeVersion(n, version)))
  {
    hide Quiet, Fenced, Keeps, LoaderOk;
    var hit := n in Installed(e) && Installed(e)[n].metadata.version == version;
    var e1 := if hit then Stop(code, e, n) else e;
    if hit {
      StopQuiet(code, e, n);
      KeepsQuiet(e, e1);
    } else {
      KeepsRefl(e);
    }
    QuietLoader(e1);
    RevokeVersionAdopts(e1.loader, n, version);
    var m := L.RevokeVersion(e1.loader, n, version).0;
    if hit {
      ReportKeeps(e1, m, n);
    } else {
      UnreportedKeeps(e1, m, n);
    }
    AnnounceQuiet(code, e1, m, n, "plugin.version_revoked");
    KeepsTrans(e, e1, Execute(code, e, RevokeVersion(n, version)));
  }

  lemma DispatchQuiet(code: Code, e: Engine, n: string, action: string)
    requires Quiet(e) && n in e.sandboxes
    ensures Keeps(e, Dispatch(code, e, n, action).0)
  {
    DispatchKeeps(code, e, n, action);
    QuietAfter(e, Dispatch(code, e, n, action).0);
  }

  lemma CallQuiet(code: Code, e: Engine, n: string, action: string, admitted: bool, launch: Launch)
    requires Quiet(e)
    ensures Keeps(e, CallTool(code, e, n, action, admitted, launch))
  {
    hide Quiet, Fenced, Keeps;
    var (e1, ok) := if n in e.sandboxes then (e, true) else StartPlugin(code, e, n, admitted, launch);
    if n in e.sandboxes {
      KeepsRefl(e);
    } else {
      StartQuiet(code, e, n, admitted, launch);
      KeepsQuiet(e, e1);
    }
    if ok && n in e1.sandboxes {
      DispatchQuiet(code, e1, n, action);
      KeepsTrans(e, e1, Dispatch(code, e1, n, action).0);
    }
  }

  /** Restarting over the same plugins directory. */
  lemma RebootQuiet(e: Engine)
    requires Quiet(e)
    ensures Keeps(e, Reboot(e))
  {
    hide InvBut, Inv, LoaderOk, Hot, CallbacksOk, Idle, L.Discover;
    var f := Reboot(e);
    QuietLoader(e);
    DiscoverAlike(e.loader);
    RebootStreaks(e.log);
    RebootFree(f);
    RebootBounded(f);
    NoCallbacks(f);
    hide Recent, LongestStreak, FailSuffix, Bounded;
    NotHotCalm(f);
    InvFromParts(f);
  }

  lemma RebootStreaks(log: seq<Mark>)
    ensures forall p :: Recent(log + [Rebooted], p) == 0 && LongestStreak(log + [Rebooted], p) == 0
  {
    forall p ensures Recent(log + [Rebooted], p) == 0 && LongestStreak(log + [Rebooted], p) == 0 {
      SuffixStep(log, Rebooted, p);
    }
  }

  lemma RebootFree(e: Engine)
    requires e.runtime == map[] && e.depth == 0 && e.running == multiset{}
    ensures Idle(e) && Conserved(e)
  {
    assert FreeMap(e) == LimitMap(e);
  }

  lemma RebootBounded(e: Engine)
    requires LoaderOk(e.loader) && e.running == multiset{}
    requires forall p :: Recent(e.log, p) == 0 && LongestStreak(e.log, p) == 0
    ensures Bounded(e) && forall p :: !Hot(e, p)
  {
    forall p | p in Installed(e) ensures 1 <= Limit(e, p) && 1 <= Threshold(e, p) {
      RecordLimits(e.loader, p);
    }
    hide LoaderOk, Recent, LongestStreak;
  }

  lemma NoCallbacks(e: Engine)
    requires e.bus == Bus(map[], []) && e.callbacks == map[]
    ensures CallbacksOk(e)
  {
  }

  // ---------- Runs ----------

  /** Start only stopped plugins, install only over plugins the gateway does not know, and no install
      fails after the tree swap. */
  ghost predicate Permitted(e: Engine, c: Command) {
    match c
    case Start(name, _, _) => name !in e.sandboxes
    case Install(package, options) =>
      !L.FailsAfterSwap(package, options) && (package.Package? ==> package.metadata.name !in e.registered)
    case _ => true
  }

  ghost predicate PermittedRun(code: Code, e: Engine, commands: seq<Command>)
    decreases |commands|
  {
    commands == [] || (Permitted(e, commands[0]) && PermittedRun(code, Execute(code, e, commands[0]), commands[1..]))
  }

  /** Every permitted command leaves the engine quiet, whether or not it succeeds. */
  lemma ExecuteKeeps(code: Code, e: Engine, c: Command)
    requires Quiet(e) && Permitted(e, c)
    ensures Keeps(e, Execute(code, e, c))
  {
    hide Quiet, Fenced, Keeps, LoaderOk;
    QuietLoader(e);
    match c
    case Install(package, options) =>
      var (m, ok) := L.Install(e.loader, package, options);
      InstallQuiet(e, package, options);
      KeepsQuiet(e, e.(loader := m));
      PublishQuiet(code, e.(loader := m), "plugin.installed");
      KeepsTrans(e, e.(loader := m), Publish(code, e.(loader := m), "plugin.installed"));
    case Grant(name, permissions) =>
      GrantAdopts(e.loader, name, permissions);
      var (m, ok) := L.GrantPermissions(e.loader, name, permissions);
      ApproveQuiet(code, e, m, name, ok, "plugin.permissions_granted");
    case EnablePlugin(name, admitted) =>
      EnableAdopts(e.loader, name);
      KeepsRefl(e);
      var (m, ok) := L.EnablePlugin(e.loader, name);
      ApproveQuiet(code, e, m, name, ok, "plugin.enabled");
    case DisablePlugin(name) => RetireQuiet(code, e, name, L.Disabled, "plugin.disabled");
    case Quarantine(name) => RetireQuiet(code, e, name, L.Quarantined, "plugin.quarantined");
    case Revoke(name) => RevokeQuiet(code, e, name);
    case RevokeVersion(name, version) => RevokeVersionQuiet(code, e, name, version);
    case Start(name, admitted, launch) => StartQuiet(code, e, name, admitted, launch);
    case StopPlugin(name) => StopQuiet(code, e, name);
    case Call(name, action, admitted, launch) => CallQuiet(code, e, name, action, admitted, launch);
    case PublishEvent(event) => PublishQuiet(code, e, event);
    case Restart => RebootQuiet(e);
  }

  /** Every permitted run keeps the whole invariant, and bars revoked plugins. */
  lemma {:induction false} RunKeeps(code: Code, e: Engine, commands: seq<Command>)
    requires Quiet(e) && PermittedRun(code, e, commands)
    ensures Keeps(e, ExecuteAll(code, e, commands))
    decreases |commands|
  {
    hide Quiet, Fenced, Keeps, Execute;
    if commands == [] {
      KeepsRefl(e);
    } else {
      var f := Execute(code, e, commands[0]);
      ExecuteKeeps(code, e, commands[0]);
      KeepsQuiet(e, f);
      RunKeeps(code, f, commands[1..]);
      KeepsTrans(e, f, ExecuteAll(code, f, commands[1..]));
    }
  }

  // ---------- What the invariant says ----------

  /** An engine over a loader, before anything was started. */
  function NewEngine(l: L.Loader): Engine {
    Engine(l, {}, {}, map[], map[], map[], Bus(map[], []), 0, 0, 0, multiset{}, [])
  }

  lemma NewEngineQuiet(l: L.Loader)
    requires LoaderOk(l)
    ensures Quiet(NewEngine(l))
  {
    hide InvBut, Inv, LoaderOk, Hot, CallbacksOk, Idle;
    var e := NewEngine(l);
    assert forall p :: Recent(e.log, p) == 0 && LongestStreak(e.log, p) == 0;
    RebootFree(e);
    RebootBounded(e);
    NoCallbacks(e);
    hide Recent, LongestStreak, FailSuffix, Bounded;
    NotHotCalm(e);
    InvFromParts(e);
  }

  /** Every permitted run over an empty plugins directory stays quiet throughout. */
  lemma RunsFromScratch(code: Code, commands: seq<Command>)
    requires PermittedRun(code, NewEngine(L.EMPTY), commands)
    ensures Quiet(NewEngine(L.EMPTY))
    ensures Quiet(ExecuteAll(code, NewEngine(L.EMPTY), commands))
  {
    hide Quiet, Fenced, ExecuteAll, PermittedRun;
    assert LoaderOk(L.EMPTY);
    NewEngineQuiet(L.EMPTY);
    RunKeeps(code, NewEngine(L.EMPTY), commands);
    KeepsQuiet(NewEngine(L.EMPTY), ExecuteAll(code, NewEngine(L.EMPTY), commands));
  }

  /** After every permitted run: the sandbox, gateway and callback tables have the same keys, what runs
      is enabled and known to the gateway, and the gateway's record of a third-party plugin is the
      loader's. */
  lemma TablesAgree(code: Code, e: Engine, commands: seq<Command>)
    requires Quiet(e) && PermittedRun(code, e, commands)
    ensures var f := ExecuteAll(code, e, commands);
            && f.sandboxes == f.active == f.callbacks.Keys
            && (forall p :: p in f.sandboxes ==> IsEnabled(f, p) && p in f.registered)
            && (forall p :: p in f.registered ==> p in Installed(f))
            && (forall p :: p in f.registered && Installed(f)[p].metadata.trust == L.ThirdParty ==>
                  f.registered[p] == GatewayRecord(Installed(f)[p].status, Installed(f)[p].granted))
  {
    hide InvBut, Inv, Bounded, Counters, Conserved, CallbacksOk, LoaderOk, ExecuteAll, PermittedRun, LongestStreak, Idle, Hot;
    RunKeeps(code, e, commands);
    InvParts(ExecuteAll(code, e, commands));
  }

  /** The failure counter is the length of the failing suffix of completed runs, after every run. */
  lemma CounterIsFailingSuffix(code: Code, e: Engine, commands: seq<Command>, p: string)
    requires Quiet(e) && PermittedRun(code, e, commands)
    requires p in ExecuteAll(code, e, commands).runtime
    ensures var f := ExecuteAll(code, e, commands);
            f.runtime[p].failures == FailSuffix(f.log, p)
  {
    RunKeeps(code, e, commands);
    InvParts(ExecuteAll(code, e, commands));
  }

  /** With the breaker on, once the failures since the operator's last approval reach the threshold
      the plugin is disabled and closed; and at no moment since the last restart did they reach the
      threshold plus the plugin's concurrency: with one permit, they never exceed the threshold. */
  lemma BreakerHolds(code: Code, e: Engine, commands: seq<Command>, p: string)
    requires Quiet(e) && PermittedRun(code, e, commands)
    requires Guarded(ExecuteAll(code, e, commands), p)
    ensures var f := ExecuteAll(code, e, commands);
            && (Recent(f.log, p) >= Threshold(f, p) ==> !IsEnabled(f, p) && p !in f.sandboxes)
            && LongestStreak(f.log, p) < Threshold(f, p) + Limit(f, p)
            && (Limit(f, p) == 1 ==> LongestStreak(f.log, p) <= Threshold(f, p))
  {
    var f := ExecuteAll(code, e, commands);
    RunKeeps(code, e, commands);
    InvParts(f);
    assert !Hot(f, p);
  }

  /** A dispatch gives back every permit, by whichever way it ends, and however its plugin's code
      re-enters the engine the nesting never exceeds the sum of the concurrency limits. */
  lemma DispatchNesting(code: Code, e: Engine, p: string, action: string)
    requires Quiet(e) && p in e.sandboxes
    ensures var f := Dispatch(code, e, p, action).0;
            && f.depth == 0 && f.running == multiset{}
            && (forall q :: q in Installed(f) ==> Free(f, q) == Limit(f, q))
            && (f.peak <= e.peak || f.peak <= Capacity(e))
  {
    hide InvBut, Inv;
    DispatchKeeps(code, e, p, action);
    DispatchQuiet(code, e, p, action);
  }

  /** Starting a stopped plugin and stopping it again leaves every listener list as it was, less the
      callbacks of plugins whose own circuit opened meanwhile. */
  lemma StartStopRestores(code: Code, e: Engine, n: string, ev: string)
    requires Quiet(e) && IsEnabled(e, n) && n !in e.sandboxes
    ensures var g := Stop(code, StartPlugin(code, e, n, true, Launches).0, n);
            && g.sandboxes <= e.sandboxes
            && Listeners(g.bus, ev) == Live(Listeners(e.bus, ev), g.sandboxes)
            && (g.sandboxes == e.sandboxes ==> Listeners(g.bus, ev) == Listeners(e.bus, ev))
  {
    hide InvBut, Inv, Hot, Idle, Started, Evolves, CallbacksOk, Publish, Stop, Live, Listeners;
    var s := Started(e, n);
    var f := Publish(code, s, "plugin.started");
    var g := Stop(code, f, n);
    assert L.Located(e.loader, n) == e.loader;
    assert StartPlugin(code, e, n, true, Launches).0 == f;
    InvParts(e);
    StartedQuiet(e, n);
    PublishKeeps(code, s, "plugin.started");
    InvBarely(f, n);
    StopKeeps(code, f, n);
    StartStopLists(e, s, f, g, n, ev);
  }

  lemma InvBarely(e: Engine, n: string)
    requires Inv(e)
    ensures InvBut(e, {n})
  {
    hide LoaderOk, Tables, CallbacksOk, Agreed, Conserved, Counters, Bounded, Calm;
  }

  lemma StartStopLists(e: Engine, s: Engine, f: Engine, g: Engine, n: string, ev: string)
    requires Tables(e) && CallbacksOk(e) && n in Installed(e) && n !in e.sandboxes
    requires s == Started(e, n) && Evolves(s, f) && Evolves(f, g) && n !in g.sandboxes
    ensures g.sandboxes <= e.sandboxes
    ensures Listeners(g.bus, ev) == Live(Listeners(e.bus, ev), g.sandboxes)
    ensures g.sandboxes == e.sandboxes ==> Listeners(g.bus, ev) == Listeners(e.bus, ev)
  {
    var was, added := Listeners(e.bus, ev), Added(Subscriptions(n, Installed(e)[n].metadata.events, e.nextId), ev);
    StartedLists(e, n, ev);
    AddedMembers(Subscriptions(n, Installed(e)[n].metadata.events, e.nextId), ev);
    LiveTwice(was + added, f.sandboxes, g.sandboxes);
    LiveWithout(was, added, n, g.sandboxes);
    EvolvesRefl(e);
  }

  lemma {:induction false} LiveWithout(was: seq<Callback>, added: seq<Callback>, n: string, live: set<string>)
    requires n !in live && forall cb :: cb in added ==> cb.owner == Some(n)
    ensures Live(was + added, live) == Live(was, live)
  {
    if added == [] {
      assert was + added == was;
    } else {
      var front, last := added[..|added| - 1], added[|added| - 1];
      LiveWithout(was, front, n, live);
      LiveAppend(was + front, last, live);
      assert was + added == was + front + [last];
    }
  }

  /** Why a second start is excluded: it forgets the callbacks of the first, which a stop then leaves
      on the bus although their plugin is closed. */
  lemma DoubleStartLeaks(e: Engine, n: string)
    requires Quiet(e) && IsEnabled(e, n) && n !in e.sandboxes && Installed(e)[n].metadata.events != []
    ensures var f := Started(Started(e, n), n);
            var g := Closed(Unregistered(f, n), n);
            var ev := Installed(e)[n].metadata.events[0];
            n !in g.sandboxes && Callback(e.nextId, Some(n)) in Listeners(g.bus, ev)
  {
    hide InvBut, Inv, Hot, Idle, Agreed, Conserved, Counters, Bounded, Without;
    var s := Started(e, n);
    var events := Installed(e)[n].metadata.events;
    var first, second := Subscriptions(n, events, e.nextId), Subscriptions(n, events, s.nextId);
    StartedQuiet(e, n);
    InvParts(e);
    InvParts(s);
    StartedLists(e, n, events[0]);
    AddedMembers(first, events[0]);
    assert first[0] == Subscription(events[0], Callback(e.nextId, Some(n)));
    SecondStartLeaks(s, n, Callback(e.nextId, Some(n)), events[0]);
  }

  /** Stopping after another start removes the second set of callbacks only. */
  lemma SecondStartLeaks(s: Engine, n: string, cb: Callback, ev: string)
    requires CallbacksOk(s) && n in Installed(s) && cb in Listeners(s.bus, ev) && cb.id < s.nextId
    ensures cb in Listeners(Closed(Unregistered(Started(s, n), n), n).bus, ev)
  {
    var second := Subscriptions(n, Installed(s)[n].metadata.events, s.nextId);
    var f := Started(s, n);
    StartedLists(s, n, ev);
    DoubleStartLists(s, n, ev);
    hide CallbacksOk;
    assert f.callbacks[n] == second;
    UnsubscribeAllRemoves(f.bus, second, ev);
    assert Subscription(ev, cb) !in second;
  }

  lemma DoubleStartLists(s: Engine, n: string, ev: string)
    requires CallbacksOk(s) && n in Installed(s)
    ensures NoDuplicates(Listeners(Started(s, n).bus, ev))
  {
    var second := Subscriptions(n, Installed(s)[n].metadata.events, s.nextId);
    var was, added := Listeners(s.bus, ev), Added(second, ev);
    StartedLists(s, n, ev);
    AddedMembers(second, ev);
    AddedDistinct(second, ev);
    assert ListOk(s, ev, was);
    forall i, j | 0 <= i < j < |was + added| ensures (was + added)[i] != (was + added)[j] {
      if i < |was| <= j {
        assert was[i] in was && added[j - |was|] in added;
      }
    }
  }

  /** While a plugin has as many runs going as its limit, a further dispatch of it is rejected without
      running it: with one permit, its sandbox has a single user at a time. */
  lemma NoMoreThanLimit(code: Code, e: Engine, p: string, action: string)
    requires Inv(e) && p in Installed(e) && e.running[p] == Limit(e, p)
    ensures var (f, answer) := Dispatch(code, e, p, action);
            && !answer.Replied?
            && f.running == e.running && f.sandboxes == e.sandboxes
            && (forall i :: |e.log| <= i < |f.log| ==> !f.log[i].Launched?)
  {
    PluginFacts(e, {}, p);
    hide InvBut, Inv;
    if IsEnabled(e, p) {
      assert FreeMap(RuntimeFor(e, p))[p] == FreeMap(e)[p] == 0;
    }
  }
}
