/** What every dispatch, event and circuit trip keeps, however deeply plugin code re-enters the
    engine. */
module EngineInvariants {
  import opened Prelude
  import opened PluginEvents
  import opened EngineModel
  import L = PluginLifecycle

  // ---------- Reading the history ----------

  /** The length of the failing suffix of the plugin's completed runs since its runtime state was
      created. */
  ghost function FailSuffix(log: seq<Mark>, p: string): nat {
    if log == [] then 0
    else
      var front, last := log[..|log| - 1], log[|log| - 1];
      if last == Completed(p, Failure) then FailSuffix(front, p) + 1
      else if last == Completed(p, Success) || last == Reset(p) || last == Rebooted then 0
      else FailSuffix(front, p)
  }

  /** The same, counted since the operator last granted or enabled the plugin. */
  ghost function Recent(log: seq<Mark>, p: string): nat {
    if log == [] then 0
    else
      var front, last := log[..|log| - 1], log[|log| - 1];
      if last == Completed(p, Failure) then Recent(front, p) + 1
      else if last == Completed(p, Success) || last == Reset(p) || last == Armed(p) || last == Rebooted then 0
      else Recent(front, p)
  }

  /** The longest such streak at any moment since the last restart. */
  ghost function LongestStreak(log: seq<Mark>, p: string): nat {
    if log == [] || log[|log| - 1] == Rebooted then 0
    else
      var before := LongestStreak(log[..|log| - 1], p);
      if Recent(log, p) > before then Recent(log, p) else before
  }

  lemma SuffixStep(log: seq<Mark>, m: Mark, p: string)
    ensures FailSuffix(log + [m], p) ==
              if m == Completed(p, Failure) then FailSuffix(log, p) + 1
              else if m == Completed(p, Success) || m == Reset(p) || m == Rebooted then 0 else FailSuffix(log, p)
    ensures Recent(log + [m], p) ==
              if m == Completed(p, Failure) then Recent(log, p) + 1
              else if m == Completed(p, Success) || m == Reset(p) || m == Armed(p) || m == Rebooted then 0 else Recent(log, p)
    ensures LongestStreak(log + [m], p) ==
              if m == Rebooted then 0
              else if Recent(log + [m], p) > LongestStreak(log, p) then Recent(log + [m], p) else LongestStreak(log, p)
  {
    assert (log + [m])[..|log|] == log;
  }

  lemma {:induction false} RecentWithinLongest(log: seq<Mark>, p: string)
    ensures Recent(log, p) <= LongestStreak(log, p)
  {
  }

  lemma {:induction false} RecentWithinSuffix(log: seq<Mark>, p: string)
    ensures Recent(log, p) <= FailSuffix(log, p)
  {
    if log != [] { RecentWithinSuffix(log[..|log| - 1], p); }
  }

  // ---------- The invariant ----------

  ghost function Limit(e: Engine, p: string): nat
    requires p in Installed(e)
  {
    Installed(e)[p].metadata.maxConcurrency
  }

  ghost function LimitMap(e: Engine): map<string, nat> {
    map p | p in Installed(e) :: Limit(e, p)
  }

  ghost function Capacity(e: Engine): nat {
    Sum(LimitMap(e))
  }

  /** Third-party grants in memory are those on disk; metadata passed validation. */
  ghost predicate LoaderOk(l: L.Loader) {
    && L.GovernedInv(l)
    && (forall n :: n in l.installed ==> RecordOk(l, n))
  }

  ghost predicate RecordOk(l: L.Loader, n: string)
    requires n in l.installed
  {
    var p := l.installed[n];
    && 1 <= p.metadata.maxConcurrency && 1 <= p.metadata.failureThreshold
    && (forall i, j :: 0 <= i < j < |p.metadata.events| ==> p.metadata.events[i] != p.metadata.events[j])
    && (p.metadata.trust == L.ThirdParty ==>
          n in l.disk && l.disk[n].manifest.Readable? && l.disk[n].manifest.fields.granted == p.granted)
  }

  /** The sandbox table, the gateway's table and the callback table agree, and what runs is enabled. */
  ghost predicate Tables(e: Engine) {
    && e.active == e.sandboxes
    && e.callbacks.Keys == e.sandboxes
    && (forall p :: p in e.sandboxes ==> IsEnabled(e, p))
  }

  /** The bus holds a plugin's callback exactly where the callback table says. */
  ghost predicate CallbacksOk(e: Engine) {
    && (forall ev :: ListOk(e, ev, Listeners(e.bus, ev)))
    && (forall p, s :: p in e.callbacks && s in e.callbacks[p] ==> s.callback.owner == Some(p))
  }

  ghost predicate ListOk(e: Engine, ev: string, cbs: seq<Callback>) {
    && NoDuplicates(cbs)
    && (forall cb :: cb in cbs && cb.owner.Some? ==>
          cb.id < e.nextId && cb.owner.value in e.callbacks && Subscription(ev, cb) in e.callbacks[cb.owner.value])
  }

  /** The gateway's record of a third-party plugin is the loader's. */
  ghost predicate Agreed(e: Engine) {
    && e.sandboxes <= e.registered.Keys
    && e.runtime.Keys <= e.registered.Keys
    && (forall p :: p in e.registered ==> p in Installed(e))
    && (forall p :: p in e.registered && Installed(e)[p].metadata.trust == L.ThirdParty ==>
          e.registered[p] == RecordOf(Installed(e)[p]))
    && (forall p :: p !in e.registered ==> LongestStreak(e.log, p) == 0 && e.running[p] == 0)
  }

  /** Every permit is either free or held by one level of nesting. */
  ghost predicate Conserved(e: Engine) {
    && e.depth + Sum(FreeMap(e)) == Capacity(e)
    && (forall p :: p in Installed(e) ==> e.running[p] + Free(e, p) <= Limit(e, p))
  }

  /** The failure counter is the failing suffix of the history. */
  ghost predicate Counters(e: Engine) {
    forall p :: p in e.runtime ==> e.runtime[p].failures == FailSuffix(e.log, p)
  }

  ghost predicate Guarded(e: Engine, p: string) {
    p in Installed(e) && Installed(e)[p].metadata.disableOnThreshold
  }

  ghost function Threshold(e: Engine, p: string): nat
    requires p in Installed(e)
  {
    Installed(e)[p].metadata.failureThreshold
  }

  ghost predicate Calm(e: Engine, p: string) {
    Guarded(e, p) ==> Recent(e.log, p) < Threshold(e, p)
  }

  /** Recent failures plus runs still going never exceed the threshold by the plugin's concurrency. */
  ghost predicate Bounded(e: Engine) {
    forall p :: Guarded(e, p) ==>
      && Recent(e.log, p) + e.running[p] < Threshold(e, p) + Limit(e, p)
      && LongestStreak(e.log, p) < Threshold(e, p) + Limit(e, p)
  }

  /** Everything but the calm of plugin `except`, which the breaker is about to close. */
  ghost predicate InvBut(e: Engine, except: set<string>) {
    && LoaderOk(e.loader)
    && Tables(e)
    && CallbacksOk(e)
    && Agreed(e)
    && Conserved(e)
    && Counters(e)
    && Bounded(e)
    && (forall p :: p in e.sandboxes - except ==> Calm(e, p))
  }

  ghost predicate Inv(e: Engine) {
    InvBut(e, {})
  }

  /** An enabled plugin that has used up its failures: only while its circuit is being opened. */
  ghost predicate Hot(e: Engine, p: string) {
    IsEnabled(e, p) && !Calm(e, p)
  }

  // ---------- How the engine may change below the operator ----------

  ghost predicate StatusKept(p: L.InstalledPlugin, q: L.InstalledPlugin) {
    q == p || (p.status == L.Enabled && q == p.(status := L.Disabled))
  }

  ghost predicate SameMetadata(e: Engine, f: Engine) {
    && Installed(f).Keys == Installed(e).Keys
    && (forall p :: p in Installed(e) ==> Installed(f)[p].metadata == Installed(e)[p].metadata)
  }

  /** Plugins may be disabled and closed, never the reverse; listeners of closed plugins disappear
      and nothing else does; only enabled plugins are launched; nesting stays within capacity. */
  ghost predicate Evolves(e: Engine, f: Engine) {
    && SameMetadata(e, f)
    && (forall p :: p in Installed(e) ==> p in Installed(f) && StatusKept(Installed(e)[p], Installed(f)[p]))
    && f.loader.revoked == e.loader.revoked
    && f.sandboxes <= e.sandboxes
    && (forall ev :: Listeners(f.bus, ev) == Live(Listeners(e.bus, ev), f.sandboxes))
    && f.nextId == e.nextId
    && f.registered.Keys == e.registered.Keys
    && e.log <= f.log
    && (forall i :: |e.log| <= i < |f.log| && f.log[i].Launched? ==> IsEnabled(e, f.log[i].plugin))
    && e.peak <= f.peak
    && (f.peak <= e.peak || f.peak <= Capacity(e))
  }

  ghost predicate Balanced(e: Engine, f: Engine) {
    f.depth == e.depth && f.running == e.running
  }

  ghost predicate NoNewHot(e: Engine, f: Engine) {
    forall p :: Hot(f, p) ==> Hot(e, p)
  }

  lemma SameCapacity(e: Engine, f: Engine)
    requires SameMetadata(e, f)
    ensures LimitMap(f) == LimitMap(e) && Capacity(f) == Capacity(e)
  {
  }

  lemma EvolvesRefl(e: Engine)
    requires Tables(e) && CallbacksOk(e)
    ensures Evolves(e, e)
  {
    forall ev ensures Listeners(e.bus, ev) == Live(Listeners(e.bus, ev), e.sandboxes) {
      assert ListOk(e, ev, Listeners(e.bus, ev));
      LiveAll(Listeners(e.bus, ev), e.sandboxes);
    }
  }

  lemma EvolvesTrans(e: Engine, f: Engine, g: Engine)
    requires Evolves(e, f) && Evolves(f, g)
    ensures Evolves(e, g)
  {
    SameCapacity(e, f);
    forall ev ensures Listeners(g.bus, ev) == Live(Listeners(e.bus, ev), g.sandboxes) {
      LiveTwice(Listeners(e.bus, ev), f.sandboxes, g.sandboxes);
    }
    forall i | |e.log| <= i < |g.log| && g.log[i].Launched? ensures IsEnabled(e, g.log[i].plugin) {
      if i < |f.log| {
        assert g.log[i] == f.log[i];
      }
    }
  }

  // ---------- Single steps ----------

  /** The listener clause for a step that does not touch the bus or the tables. */
  lemma SameBus(e: Engine, f: Engine)
    requires Tables(e) && CallbacksOk(e)
    requires f.bus == e.bus && f.sandboxes == e.sandboxes
    ensures forall ev :: Listeners(f.bus, ev) == Live(Listeners(e.bus, ev), f.sandboxes)
  {
    EvolvesRefl(e);
  }

  lemma CallbacksSame(e: Engine, f: Engine)
    requires CallbacksOk(e)
    requires f.bus == e.bus && f.callbacks == e.callbacks && f.nextId >= e.nextId
    ensures CallbacksOk(f)
  {
    forall ev ensures ListOk(f, ev, Listeners(f.bus, ev)) {
      assert ListOk(e, ev, Listeners(e.bus, ev));
    }
  }

  /** Only the permits, counters and history differ. */
  ghost predicate SameTables(e: Engine, f: Engine) {
    && f.loader == e.loader
    && f.sandboxes == e.sandboxes
    && f.active == e.active
    && f.callbacks == e.callbacks
    && f.registered == e.registered
    && f.bus == e.bus
    && f.nextId == e.nextId
  }

  /** One mark about plugin `p` enters the history. */
  ghost predicate Accounted(e: Engine, f: Engine, p: string, m: Mark) {
    && SameTables(e, f)
    && p in e.registered
    && !m.Rebooted? && m.plugin == p
    && f.log == e.log + [m]
    && p in f.runtime
    && f.runtime.Keys == e.runtime.Keys + {p}
    && (forall q :: q != p ==> f.running[q] == e.running[q])
    && (forall q :: q != p && q in e.runtime ==> f.runtime[q] == e.runtime[q])
  }

  lemma OthersUnaffected(e: Engine, f: Engine, p: string, m: Mark, q: string)
    requires Accounted(e, f, p, m) && q != p
    ensures Recent(f.log, q) == Recent(e.log, q)
    ensures FailSuffix(f.log, q) == FailSuffix(e.log, q)
    ensures LongestStreak(f.log, q) == LongestStreak(e.log, q)
    ensures q in Installed(e) ==> Free(f, q) == Free(e, q)
  {
    RecentWithinLongest(e.log, q);
    SuffixStep(e.log, m, q);
  }

  lemma AgreedStep(e: Engine, f: Engine, p: string, m: Mark)
    requires Agreed(e) && Accounted(e, f, p, m)
    ensures Agreed(f)
  {
    forall q | q !in f.registered ensures LongestStreak(f.log, q) == 0 && f.running[q] == 0 {
      OthersUnaffected(e, f, p, m, q);
    }
  }

  lemma CountersStep(e: Engine, f: Engine, p: string, m: Mark)
    requires Counters(e) && Accounted(e, f, p, m)
    requires f.runtime[p].failures == FailSuffix(f.log, p)
    ensures Counters(f)
  {
    forall q | q in f.runtime && q != p ensures f.runtime[q].failures == FailSuffix(f.log, q) {
      OthersUnaffected(e, f, p, m, q);
    }
  }

  lemma ConservedStep(e: Engine, f: Engine, p: string, m: Mark)
    requires Conserved(e) && Accounted(e, f, p, m)
    requires f.depth + Sum(FreeMap(f)) == e.depth + Sum(FreeMap(e))
    requires p in Installed(f) ==> f.running[p] + Free(f, p) <= Limit(f, p)
    ensures Conserved(f)
  {
    assert LimitMap(f) == LimitMap(e);
    forall q | q in Installed(f) && q != p ensures f.running[q] + Free(f, q) <= Limit(f, q) {
      OthersUnaffected(e, f, p, m, q);
    }
  }

  lemma BoundedStep(e: Engine, f: Engine, p: string, m: Mark)
    requires Bounded(e) && Accounted(e, f, p, m)
    requires Guarded(f, p) ==> Recent(f.log, p) + f.running[p] < Threshold(f, p) + Limit(f, p)
    ensures Bounded(f)
  {
    SuffixStep(e.log, m, p);
    forall q | Guarded(f, q) && q != p
      ensures Recent(f.log, q) + f.running[q] < Threshold(f, q) + Limit(f, q)
      ensures LongestStreak(f.log, q) < Threshold(f, q) + Limit(f, q)
    {
      OthersUnaffected(e, f, p, m, q);
    }
    assert Guarded(f, p) ==> Guarded(e, p);
  }

  lemma CalmStep(e: Engine, f: Engine, p: string, m: Mark, q: string)
    requires Accounted(e, f, p, m) && q != p
    ensures Calm(f, q) <==> Calm(e, q)
    ensures Hot(f, q) <==> Hot(e, q)
  {
    OthersUnaffected(e, f, p, m, q);
  }

  /** What remains to be shown of an accounting step, about plugin `p` alone. */
  lemma AccountingStep(e: Engine, f: Engine, p: string, m: Mark, before: set<string>, after: set<string>)
    requires InvBut(e, before) && Accounted(e, f, p, m)
    requires before <= after
    requires f.runtime[p].failures == FailSuffix(f.log, p)
    requires f.depth + Sum(FreeMap(f)) == e.depth + Sum(FreeMap(e))
    requires p in Installed(f) ==> f.running[p] + Free(f, p) <= Limit(f, p)
    requires Guarded(f, p) ==> Recent(f.log, p) + f.running[p] < Threshold(f, p) + Limit(f, p)
    requires p in f.sandboxes - after ==> Calm(f, p)
    ensures InvBut(f, after)
    ensures forall q :: q != p && Hot(f, q) ==> Hot(e, q)
  {
    CallbacksSame(e, f);
    AgreedStep(e, f, p, m);
    CountersStep(e, f, p, m);
    ConservedStep(e, f, p, m);
    BoundedStep(e, f, p, m);
    forall q | q != p
      ensures q in f.sandboxes - after ==> Calm(f, q)
      ensures Hot(f, q) ==> Hot(e, q)
    {
      CalmStep(e, f, p, m, q);
    }
  }

  /** An accounting step that starts no plugin but an enabled one changes nothing else. */
  lemma AccountingEvolves(e: Engine, f: Engine, p: string, m: Mark)
    requires Tables(e) && CallbacksOk(e) && Accounted(e, f, p, m)
    requires m.Launched? ==> IsEnabled(e, p)
    requires e.peak <= f.peak && (f.peak <= e.peak || f.peak <= Capacity(e))
    ensures Evolves(e, f)
  {
    SameBus(e, f);
  }

  lemma RuntimeAccounted(e: Engine, p: string)
    requires p in Installed(e) && p in e.registered && !Ready(e, p)
    ensures var f := RuntimeFor(e, p);
            && Accounted(e, f, p, Reset(p))
            && f.runtime[p].failures == FailSuffix(f.log, p) == 0
            && Recent(f.log, p) == 0
            && Free(f, p) == Free(e, p)
            && f.running == e.running && f.depth == e.depth && f.peak == e.peak
  {
    SuffixStep(e.log, Reset(p), p);
  }

  lemma AcquireAccounted(e: Engine, p: string)
    requires Ready(e, p) && e.runtime[p].free > 0 && p in e.registered
    ensures var f := Acquire(e, p);
            && Accounted(e, f, p, Launched(p))
            && f.runtime[p].failures == e.runtime[p].failures
            && FailSuffix(f.log, p) == FailSuffix(e.log, p)
            && Recent(f.log, p) == Recent(e.log, p)
            && Free(f, p) == Free(e, p) - 1
            && f.running == e.running + multiset{p}
            && f.depth == e.depth + 1
            && f.peak == (if e.depth + 1 > e.peak then e.depth + 1 else e.peak)
  {
    SuffixStep(e.log, Launched(p), p);
  }

  lemma CompleteAccounted(e: Engine, p: string, reply: Reply, failures: nat)
    requires Ready(e, p) && p in e.registered
    requires e.runtime[p].failures == FailSuffix(e.log, p)
    requires failures == match reply case Success => 0 case Failure => e.runtime[p].failures + 1
                                     case Raises => e.runtime[p].failures
    ensures var f := Complete(e, p, reply, failures);
            && Accounted(e, f, p, Completed(p, reply))
            && f.runtime[p].failures == FailSuffix(f.log, p) == failures
            && Recent(f.log, p) ==
                 (match reply case Success => 0 case Failure => Recent(e.log, p) + 1 case Raises => Recent(e.log, p))
            && Free(f, p) == Free(e, p)
            && f.running == e.running - multiset{p} && f.depth == e.depth && f.peak == e.peak
  {
    SuffixStep(e.log, Completed(p, reply), p);
  }

  /** The numeric facts about one plugin. */
  lemma PluginFacts(e: Engine, except: set<string>, p: string)
    requires InvBut(e, except) && p in Installed(e)
    ensures e.running[p] + Free(e, p) <= Limit(e, p)
    ensures 1 <= Threshold(e, p)
    ensures Guarded(e, p) ==> Recent(e.log, p) + e.running[p] < Threshold(e, p) + Limit(e, p)
    ensures p in e.sandboxes - except ==> Calm(e, p)
    ensures p in e.runtime ==> e.runtime[p].failures == FailSuffix(e.log, p)
    ensures p in e.sandboxes ==> p in e.registered && IsEnabled(e, p)
    ensures e.depth + Sum(FreeMap(e)) == Capacity(e)
  {
    assert RecordOk(e.loader, p);
  }

  lemma RuntimeStep(e: Engine, p: string)
    requires Inv(e) && p in e.sandboxes
    ensures var f := RuntimeFor(e, p);
            Inv(f) && Evolves(e, f) && Balanced(e, f) && NoNewHot(e, f)
  {
    var f := RuntimeFor(e, p);
    if Ready(e, p) {
      EvolvesRefl(e);
    } else {
      assert IsEnabled(e, p);
      PluginFacts(e, {}, p);
      RuntimeAccounted(e, p);
      AccountingStep(e, f, p, Reset(p), {}, {});
      AccountingEvolves(e, f, p, Reset(p));
    }
  }

  lemma AcquireStep(e: Engine, p: string)
    requires Inv(e) && p in e.sandboxes && Ready(e, p) && e.runtime[p].free > 0
    ensures var f := Acquire(e, p);
            && Inv(f)
            && Accounted(e, f, p, Launched(p))
            && f.depth == e.depth + 1 && f.running == e.running + multiset{p}
            && e.peak <= f.peak && (f.peak <= e.peak || f.peak <= Capacity(e))
            && NoNewHot(e, f)
  {
    var f := Acquire(e, p);
    PluginFacts(e, {}, p);
    AcquireAccounted(e, p);
    AccountingStep(e, f, p, Launched(p), {}, {});
  }

  lemma CompleteStep(e: Engine, p: string, reply: Reply, failures: nat)
    requires Inv(e) && Ready(e, p) && p in e.registered && e.running[p] >= 1
    requires failures == match reply case Success => 0 case Failure => e.runtime[p].failures + 1
                                     case Raises => e.runtime[p].failures
    ensures var f := Complete(e, p, reply, failures);
            && InvBut(f, if reply == Failure && Trips(f, p) then {p} else {})
            && Evolves(e, f)
            && f.depth == e.depth && f.running == e.running - multiset{p}
            && (forall q :: q != p && Hot(f, q) ==> Hot(e, q))
            && (!(reply == Failure && Trips(f, p)) ==> Hot(f, p) ==> Hot(e, p))
  {
    var f := Complete(e, p, reply, failures);
    var after := if reply == Failure && Trips(f, p) then {p} else {};
    PluginFacts(e, {}, p);
    CompleteAccounted(e, p, reply, failures);
    RecentWithinSuffix(f.log, p);
    AccountingStep(e, f, p, Completed(p, reply), {}, after);
    AccountingEvolves(e, f, p, Completed(p, reply));
  }

  /** The same history, counters and metadata: nothing the books say changes. */
  ghost predicate SameBooks(e: Engine, f: Engine) {
    && Installed(f).Keys == Installed(e).Keys
    && (forall p :: p in Installed(e) ==> Installed(f)[p].metadata == Installed(e)[p].metadata)
    && f.log == e.log
    && f.running == e.running
    && f.runtime.Keys == e.runtime.Keys
    && (forall p :: p in e.runtime ==> f.runtime[p].failures == e.runtime[p].failures)
  }

  lemma BooksCalm(e: Engine, f: Engine, p: string)
    requires SameBooks(e, f)
    ensures Calm(f, p) <==> Calm(e, p)
  {
  }

  lemma BooksBounded(e: Engine, f: Engine)
    requires SameBooks(e, f) && Bounded(e)
    ensures Bounded(f)
  {
    forall p | Guarded(f, p)
      ensures Recent(f.log, p) + f.running[p] < Threshold(f, p) + Limit(f, p)
      ensures LongestStreak(f.log, p) < Threshold(f, p) + Limit(f, p)
    {
      assert Guarded(e, p);
    }
  }

  lemma BooksCounters(e: Engine, f: Engine)
    requires SameBooks(e, f) && Counters(e)
    ensures Counters(f)
  {
  }

  lemma BooksConserved(e: Engine, f: Engine)
    requires SamePermits(e, f) && SameBooks(e, f) && f.depth == e.depth && Conserved(e)
    ensures Conserved(f)
  {
    SameCapacity(e, f);
    forall p | p in Installed(f) ensures f.running[p] + Free(f, p) <= Limit(f, p) {
      assert Free(f, p) == FreeMap(f)[p] == FreeMap(e)[p] == Free(e, p);
    }
  }

  lemma SameTablesKept(e: Engine, f: Engine)
    requires SameTables(e, f) && SameBooks(e, f) && Inv(e) && Conserved(f)
    ensures Inv(f)
    ensures forall q :: Hot(f, q) <==> Hot(e, q)
  {
    CallbacksSame(e, f);
    BooksBounded(e, f);
    BooksCounters(e, f);
    forall q ensures Calm(f, q) <==> Calm(e, q) {
      BooksCalm(e, f, q);
    }
  }

  lemma ReleaseShape(e: Engine, p: string)
    requires Ready(e, p) && e.depth > 0
    ensures var f := Release(e, p);
            && SameTables(e, f) && SameBooks(e, f)
            && f.depth == e.depth - 1 && f.peak == e.peak
  {
  }

  lemma ReleaseStep(e: Engine, p: string)
    requires Inv(e) && Ready(e, p) && e.depth > 0
    requires e.running[p] + Free(e, p) < Limit(e, p)
    ensures var f := Release(e, p);
            && Inv(f) && SameTables(e, f)
            && f.depth == e.depth - 1 && f.running == e.running && f.log == e.log && f.peak == e.peak
            && (forall q :: Hot(f, q) <==> Hot(e, q))
  {
    ReleaseShape(e, p);
    ReleaseConserved(e, p);
    SameTablesKept(e, Release(e, p));
  }

  lemma ReleaseConserved(e: Engine, p: string)
    requires Conserved(e) && Ready(e, p) && e.depth > 0
    requires e.running[p] + Free(e, p) < Limit(e, p)
    ensures Conserved(Release(e, p))
  {
    var f := Release(e, p);
    ReleaseShape(e, p);
    SumUpdate(FreeMap(e), p, Free(e, p) + 1);
    hide Release, Ready, SameTables;
    assert LimitMap(f) == LimitMap(e);
    forall q | q in Installed(e) ensures f.running[q] + Free(f, q) <= Limit(f, q) {
      assert Free(f, q) == FreeMap(f)[q] == if q == p then Free(e, p) + 1 else FreeMap(e)[q];
    }
  }

  // ---------- Closing a sandbox ----------

  lemma ClosedLists(e: Engine, p: string, ev: string)
    requires Tables(e) && CallbacksOk(e) && p in e.sandboxes
    ensures var f := Closed(Unregistered(e, p), p);
            && Listeners(f.bus, ev) == Live(Listeners(e.bus, ev), f.sandboxes)
            && ListOk(f, ev, Listeners(f.bus, ev))
  {
    var cbs := Listeners(e.bus, ev);
    assert ListOk(e, ev, cbs);
    UnsubscribeAllRemoves(e.bus, e.callbacks[p], ev);
    WithoutIsLive(cbs, ev, e.callbacks[p], e.sandboxes - {p});
  }

  lemma ClosedCallbacks(e: Engine, p: string)
    requires Tables(e) && CallbacksOk(e) && p in e.sandboxes
    ensures var f := Closed(Unregistered(e, p), p);
            && CallbacksOk(f)
            && (forall ev :: Listeners(f.bus, ev) == Live(Listeners(e.bus, ev), f.sandboxes))
  {
    var f := Closed(Unregistered(e, p), p);
    forall ev
      ensures Listeners(f.bus, ev) == Live(Listeners(e.bus, ev), f.sandboxes)
      ensures ListOk(f, ev, Listeners(f.bus, ev))
    {
      ClosedLists(e, p, ev);
    }
  }

  lemma ClosedShape(e: Engine, p: string)
    ensures var f := Closed(Unregistered(e, p), p);
            && SameBooks(e, f) && Balanced(e, f)
            && f.loader == e.loader && f.registered == e.registered && f.runtime == e.runtime
            && f.nextId == e.nextId && f.peak == e.peak
            && f.sandboxes == e.sandboxes - {p} && f.active == e.active - {p}
            && f.callbacks.Keys == e.callbacks.Keys - {p}
  {
  }

  /** The parts of the invariant that closing `p` and retiring a closed plugin have in common. */
  lemma BooksKept(e: Engine, f: Engine)
    requires Conserved(e) && Counters(e) && Bounded(e)
    requires SamePermits(e, f) && SameBooks(e, f) && f.depth == e.depth
    ensures Conserved(f) && Counters(f) && Bounded(f)
    ensures forall q :: Calm(f, q) <==> Calm(e, q)
  {
    BooksBounded(e, f);
    BooksCounters(e, f);
    BooksConserved(e, f);
    forall q ensures Calm(f, q) <==> Calm(e, q) {
      BooksCalm(e, f, q);
    }
  }

  /** Closing a plugin removes it from all three tables and its callbacks from every list. */
  lemma CloseStep(e: Engine, p: string)
    requires InvBut(e, {p}) && p in e.sandboxes
    ensures var f := Closed(Unregistered(e, p), p);
            && Inv(f) && Evolves(e, f) && Balanced(e, f)
            && (forall q :: Hot(f, q) <==> Hot(e, q))
            && p !in f.sandboxes
  {
    ClosedCallbacks(e, p);
    ClosedShape(e, p);
    var f := Closed(Unregistered(e, p), p);
    CloseAssembled(e, f, p);
  }

  lemma CloseAssembled(e: Engine, f: Engine, p: string)
    requires InvBut(e, {p})
    requires SamePermits(e, f) && SameBooks(e, f) && Balanced(e, f)
    requires f.loader == e.loader && f.registered == e.registered && f.runtime == e.runtime
    requires f.nextId == e.nextId && f.peak == e.peak
    requires f.sandboxes == e.sandboxes - {p} && f.active == e.active - {p}
    requires f.callbacks.Keys == e.callbacks.Keys - {p}
    requires CallbacksOk(f)
    requires forall ev :: Listeners(f.bus, ev) == Live(Listeners(e.bus, ev), f.sandboxes)
    ensures Inv(f) && Evolves(e, f)
    ensures forall q :: Hot(f, q) <==> Hot(e, q)
  {
    BooksKept(e, f);
  }

  // ---------- Disabling in the loader ----------

  lemma DisableInLoader(l: L.Loader, p: string)
    requires LoaderOk(l) && p in l.installed
    requires l.installed[p].status == L.Enabled || l.installed[p].status == L.Disabled
    ensures var (m, ok) := L.TransitionStatus(l, p, L.Disabled);
            && ok && LoaderOk(m)
            && m.installed == l.installed[p := l.installed[p].(status := L.Disabled)]
            && m.revoked == l.revoked
  {
    var (m, ok) := L.TransitionStatus(l, p, L.Disabled);
    L.GovernedStepKeepsInv(l, L.DoDisable(p));
    assert L.Apply(l, L.DoDisable(p)) == (m, ok);
    forall n | n in m.installed ensures RecordOk(m, n) {
      assert RecordOk(l, n);
      assert L.Coherent(n, l.installed[n], l.disk[n]);
    }
  }

  /** `f` is `e` with the closed plugin `p` disabled in the loader and the gateway. */
  ghost predicate DisabledIn(e: Engine, f: Engine, p: string) {
    && p in Installed(e) && p !in e.sandboxes && p in e.registered
    && Installed(f) == Installed(e)[p := Installed(e)[p].(status := L.Disabled)]
    && f.loader.revoked == e.loader.revoked
    && f.registered == e.registered[p := RecordOf(Installed(f)[p])]
    && f.sandboxes == e.sandboxes && f.active == e.active && f.callbacks == e.callbacks && f.bus == e.bus
    && f.nextId == e.nextId && f.peak == e.peak && f.depth == e.depth
    && SameBooks(e, f) && SamePermits(e, f)
  }

  lemma RetireShape(e: Engine, p: string)
    requires LoaderOk(e.loader) && p in Installed(e) && p in e.registered && p !in e.sandboxes
    requires Installed(e)[p].status == L.Enabled || Installed(e)[p].status == L.Disabled
    ensures var (f, ok) := Retired(e, p, L.Disabled);
            ok && LoaderOk(f.loader) && DisabledIn(e, f, p)
  {
    DisableInLoader(e.loader, p);
  }

  lemma RetireStep(e: Engine, p: string)
    requires Inv(e) && p in Installed(e) && p !in e.sandboxes && p in e.registered
    requires Installed(e)[p].status == L.Enabled || Installed(e)[p].status == L.Disabled
    ensures var (f, ok) := Retired(e, p, L.Disabled);
            && ok && Inv(f) && Evolves(e, f) && Balanced(e, f) && NoNewHot(e, f) && !IsEnabled(f, p)
  {
    RetireShape(e, p);
    var f := Retired(e, p, L.Disabled).0;
    RetireTables(e, f, p);
    CallbacksSame(e, f);
    BooksKept(e, f);
    RetireEvolves(e, f, p);
  }

  lemma RetireEvolves(e: Engine, f: Engine, p: string)
    requires Tables(e) && CallbacksOk(e) && DisabledIn(e, f, p)
    requires Installed(e)[p].status == L.Enabled || Installed(e)[p].status == L.Disabled
    ensures Evolves(e, f)
  {
    SameBus(e, f);
  }

  lemma RetireTables(e: Engine, f: Engine, p: string)
    requires Agreed(e) && Tables(e) && DisabledIn(e, f, p)
    ensures Agreed(f) && Tables(f)
  {
  }

  // ---------- Everything below the operator ----------

  /** What any number of nested dispatches, events and circuit trips leaves behind. */
  ghost predicate Good(e: Engine, f: Engine) {
    Inv(f) && Evolves(e, f) && Balanced(e, f) && NoNewHot(e, f)
  }

  lemma GoodRefl(e: Engine)
    requires Inv(e)
    ensures Good(e, e)
  {
    EvolvesRefl(e);
  }

  lemma GoodTrans(e: Engine, f: Engine, g: Engine)
    requires Good(e, f) && Good(f, g)
    ensures Good(e, g)
  {
    EvolvesTrans(e, f, g);
  }

  /** The accepted path of a dispatch. */
  lemma DispatchPath(code: Code, e: Engine, p: string, action: string)
    requires IsEnabled(e, p) && RuntimeFor(e, p).runtime[p].free > 0
    ensures var e1 := RuntimeFor(e, p);
            var done := RunAndRecord(code, Acquire(e1, p), p, code(p, action, |e1.log|));
            && SamePermits(Acquire(e1, p), done)
            && Ready(done, p)
            && Dispatch(code, e, p, action).0 == Release(done, p)
  {
    var e1 := RuntimeFor(e, p);
    PermitReturned(e1, Acquire(e1, p), RunAndRecord(code, Acquire(e1, p), p, code(p, action, |e1.log|)), p);
  }

  lemma {:induction false} DispatchKeeps(code: Code, e: Engine, p: string, action: string)
    requires Inv(e) && p in e.sandboxes
    ensures Good(e, Dispatch(code, e, p, action).0)
    decreases Sum(FreeMap(e)), 0, 0
  {
    hide NoNewHot, Evolves, CallbacksOk, LoaderOk, Conserved, Counters, Bounded, Agreed, FreeMap;
    assert IsEnabled(e, p);
    var e1 := RuntimeFor(e, p);
    RuntimeStep(e, p);
    if e1.runtime[p].free > 0 {
      DispatchPath(code, e, p, action);
      AcceptedKeeps(code, e1, p, code(p, action, |e1.log|));
      GoodTrans(e, e1, Dispatch(code, e, p, action).0);
    }
  }

  lemma {:induction false} AcceptedKeeps(code: Code, e: Engine, p: string, script: Script)
    requires Inv(e) && p in e.sandboxes && Ready(e, p) && e.runtime[p].free > 0
    requires Ready(RunAndRecord(code, Acquire(e, p), p, script), p)
    requires SamePermits(Acquire(e, p), RunAndRecord(code, Acquire(e, p), p, script))
    ensures Good(e, Release(RunAndRecord(code, Acquire(e, p), p, script), p))
    decreases Sum(FreeMap(Acquire(e, p))), 9, 0
  {
    var taken := Acquire(e, p);
    AcquireStep(e, p);
    RunAndRecordKeeps(code, taken, p, script);
    DispatchAssembled(e, taken, RunAndRecord(code, taken, p, script), p);
  }

  lemma InvTables(e: Engine)
    requires Inv(e)
    ensures Tables(e) && CallbacksOk(e)
    ensures forall p :: p in e.sandboxes ==> IsEnabled(e, p) && p in e.registered
  {
  }

  /** Take a permit, run, give it back. */
  lemma DispatchAssembled(e: Engine, taken: Engine, done: Engine, p: string)
    requires Inv(e) && p in e.sandboxes && Ready(e, p) && e.runtime[p].free > 0
    requires taken == Acquire(e, p) && Accounted(e, taken, p, Launched(p))
    requires Inv(done) && Evolves(taken, done) && NoNewHot(taken, done)
    requires done.depth == taken.depth && done.running == taken.running - multiset{p}
    requires SamePermits(taken, done) && Ready(done, p)
    ensures Good(e, Release(done, p))
  {
    hide InvBut, Evolves, Calm, FreeMap;
    InvTables(e);
    InvTables(done);
    AcquireStep(e, p);
    PluginFacts(e, {}, p);
    ReleaseFits(e, taken, done, p);
    ReleaseStep(done, p);
    DispatchEvolves(e, taken, done, p);
  }

  lemma DispatchEvolves(e: Engine, taken: Engine, done: Engine, p: string)
    requires Tables(e) && CallbacksOk(e) && IsEnabled(e, p) && Accounted(e, taken, p, Launched(p))
    requires e.peak <= taken.peak && (taken.peak <= e.peak || taken.peak <= Capacity(e))
    requires Evolves(taken, done)
    requires Tables(done) && CallbacksOk(done) && Ready(done, p)
    ensures Evolves(e, Release(done, p))
  {
    AccountingEvolves(e, taken, p, Launched(p));
    EvolvesTrans(e, taken, done);
    ReleaseEvolves(done, Release(done, p));
    EvolvesTrans(e, done, Release(done, p));
  }

  lemma ReleaseFits(e: Engine, taken: Engine, done: Engine, p: string)
    requires Ready(e, p) && e.runtime[p].free > 0 && taken == Acquire(e, p)
    requires SamePermits(taken, done)
    requires done.running == taken.running - multiset{p}
    requires e.running[p] + Free(e, p) <= Limit(e, p)
    ensures p in Installed(done) && done.running == e.running
    ensures done.running[p] + Free(done, p) < Limit(done, p)
  {
    assert Free(done, p) == FreeMap(done)[p] == FreeMap(taken)[p] == Free(e, p) - 1;
  }

  lemma ReleaseEvolves(e: Engine, f: Engine)
    requires Tables(e) && CallbacksOk(e) && SameTables(e, f) && f.log == e.log && f.peak == e.peak
    ensures Evolves(e, f)
  {
    SameBus(e, f);
  }

  lemma {:induction false} DeliverKeeps(code: Code, e: Engine, cb: Callback, event: string)
    requires Inv(e)
    ensures Good(e, Deliver(code, e, cb, event))
    decreases Sum(FreeMap(e)), 1, 0
  {
    if cb.owner.None? || cb.owner.value !in e.sandboxes {
      GoodRefl(e);
    } else {
      DispatchKeeps(code, e, cb.owner.value, event);
    }
  }

  lemma {:induction false} DeliverAllKeeps(code: Code, e: Engine, cbs: seq<Callback>, event: string)
    requires Inv(e)
    ensures Good(e, DeliverAll(code, e, cbs, event))
    decreases Sum(FreeMap(e)), 2, |cbs|
  {
    if cbs == [] {
      GoodRefl(e);
    } else {
      var f := Deliver(code, e, cbs[0], event);
      DeliverKeeps(code, e, cbs[0], event);
      DeliverAllKeeps(code, f, cbs[1..], event);
      GoodTrans(e, f, DeliverAll(code, f, cbs[1..], event));
    }
  }

  lemma {:induction false} PublishKeeps(code: Code, e: Engine, event: string)
    requires Inv(e)
    ensures Good(e, Publish(code, e, event))
    decreases Sum(FreeMap(e)), 3, 0
  {
    DeliverAllKeeps(code, e, Snapshot(e.bus, event), event);
  }

  lemma {:induction false} RunScriptKeeps(code: Code, e: Engine, p: string, publishes: seq<string>)
    requires Inv(e) && p in Installed(e)
    ensures Good(e, RunScript(code, e, p, publishes))
    decreases Sum(FreeMap(e)), 4, |publishes|
  {
    if publishes == [] {
      GoodRefl(e);
    } else {
      var f := if MayPublish(e, p) then Publish(code, e, publishes[0]) else e;
      if MayPublish(e, p) {
        PublishKeeps(code, e, publishes[0]);
      } else {
        GoodRefl(e);
      }
      RunScriptKeeps(code, f, p, publishes[1..]);
      GoodTrans(e, f, RunScript(code, f, p, publishes[1..]));
    }
  }

  /** Stopping a plugin, even one whose failures are about to close its circuit. */
  lemma {:induction false} StopKeeps(code: Code, e: Engine, p: string)
    requires InvBut(e, {p})
    ensures var f := Stop(code, e, p);
            && Good(e, f) && p !in f.sandboxes
    decreases Sum(FreeMap(e)), 5, 0
  {
    if p in e.sandboxes {
      CloseStep(e, p);
      var f := Closed(Unregistered(e, p), p);
      PublishKeeps(code, f, "plugin.stopped");
      EvolvesTrans(e, f, Publish(code, f, "plugin.stopped"));
    } else {
      assert Unregistered(e, p) == e;
      GoodRefl(e);
    }
  }

  lemma {:induction false} DisableKeeps(code: Code, e: Engine, p: string)
    requires InvBut(e, {p}) && p in Installed(e) && p in e.registered
    requires Installed(e)[p].status == L.Enabled || Installed(e)[p].status == L.Disabled
    ensures var (f, ok) := Disable(code, e, p);
            ok && Good(e, f) && !IsEnabled(f, p) && p !in f.sandboxes
    decreases Sum(FreeMap(e)), 6, 0
  {
    hide Inv, NoNewHot, Evolves, CallbacksOk, LoaderOk, Conserved, Counters, Bounded, FreeMap;
    var e1 := Stop(code, e, p);
    StopKeeps(code, e, p);
    EvolvesFacts(e, e1, p);
    RetireStep(e1, p);
    DisableRest(code, e1, p);
    var f := Publish(code, Retired(e1, p, L.Disabled).0, "plugin.disabled");
    assert Disable(code, e, p) == (f, true);
    GoodTrans(e, e1, f);
  }

  /** What `Evolves` says of one plugin. */
  lemma EvolvesFacts(e: Engine, f: Engine, p: string)
    requires Evolves(e, f) && p in Installed(e)
    ensures p in Installed(f) && Installed(f)[p].metadata == Installed(e)[p].metadata
    ensures StatusKept(Installed(e)[p], Installed(f)[p])
    ensures f.registered.Keys == e.registered.Keys
    ensures f.sandboxes <= e.sandboxes
  {
  }

  lemma {:induction false} DisableRest(code: Code, e: Engine, p: string)
    requires Inv(e) && p in Installed(e) && p !in e.sandboxes
    requires var (f, ok) := Retired(e, p, L.Disabled); ok && Good(e, f) && !IsEnabled(f, p)
    ensures var g := Publish(code, Retired(e, p, L.Disabled).0, "plugin.disabled");
            Good(e, g) && !IsEnabled(g, p) && p !in g.sandboxes
    decreases Sum(FreeMap(e)), 4, 0
  {
    var f := Retired(e, p, L.Disabled).0;
    var g := Publish(code, f, "plugin.disabled");
    EvolvesFacts(e, f, p);
    PublishKeeps(code, f, "plugin.disabled");
    EvolvesFacts(f, g, p);
    GoodTrans(e, f, g);
  }

  /** At the threshold the plugin ends disabled and closed; below it nothing is disabled. */
  lemma {:induction false} RecordFailureKeeps(code: Code, e: Engine, p: string)
    requires Inv(e) && Ready(e, p) && p in e.registered && e.running[p] >= 1
    requires Installed(e)[p].status == L.Enabled || Installed(e)[p].status == L.Disabled
    ensures var f := RecordFailure(code, e, p);
            && Inv(f) && Evolves(e, f) && NoNewHot(e, f)
            && f.depth == e.depth && f.running == e.running - multiset{p}
            && (Trips(Complete(e, p, Failure, e.runtime[p].failures + 1), p) ==>
                  !IsEnabled(f, p) && p !in f.sandboxes)
    decreases Sum(FreeMap(e)), 7, 0
  {
    hide InvBut, Evolves, Calm, FreeMap, Disable, Stop, Publish, Dispatch, Retired;
    var e1 := Complete(e, p, Failure, e.runtime[p].failures + 1);
    CompleteStep(e, p, Failure, e.runtime[p].failures + 1);
    if Trips(e1, p) {
      EvolvesFacts(e, e1, p);
      TripKeeps(code, e, e1, p);
      assert RecordFailure(code, e, p) == Disable(code, e1, p).0;
    } else {
      assert RecordFailure(code, e, p) == e1;
    }
  }

  lemma {:induction false} TripKeeps(code: Code, e: Engine, e1: Engine, p: string)
    requires InvBut(e1, {p}) && p in Installed(e1) && p in e1.registered
    requires Installed(e1)[p].status == L.Enabled || Installed(e1)[p].status == L.Disabled
    requires Evolves(e, e1)
    requires forall q :: q != p && Hot(e1, q) ==> Hot(e, q)
    ensures var f := Disable(code, e1, p).0;
            && Inv(f) && Evolves(e, f) && NoNewHot(e, f) && Balanced(e1, f)
            && !IsEnabled(f, p) && p !in f.sandboxes
    decreases Sum(FreeMap(e1)), 6, 1
  {
    DisableKeeps(code, e1, p);
    CircuitOpened(e, e1, Disable(code, e1, p).0, p);
  }

  lemma CircuitOpened(e: Engine, e1: Engine, f: Engine, p: string)
    requires Evolves(e, e1) && Good(e1, f) && !IsEnabled(f, p)
    requires forall q :: q != p && Hot(e1, q) ==> Hot(e, q)
    ensures Evolves(e, f) && NoNewHot(e, f)
  {
    EvolvesTrans(e, e1, f);
    forall q | Hot(f, q) ensures Hot(e, q) {
      assert q != p && Hot(e1, q);
    }
  }

  lemma {:induction false} RunAndRecordKeeps(code: Code, e: Engine, p: string, script: Script)
    requires Inv(e) && Ready(e, p) && p in e.registered && e.running[p] >= 1 && IsEnabled(e, p)
    ensures var f := RunAndRecord(code, e, p, script);
            && Inv(f) && Evolves(e, f) && NoNewHot(e, f)
            && f.depth == e.depth && f.running == e.running - multiset{p}
    decreases Sum(FreeMap(e)), 8, 0
  {
    var e1 := RunScript(code, e, p, script.publishes);
    RunScriptKeeps(code, e, p, script.publishes);
    EvolvesFacts(e, e1, p);
    RecordKeeps(code, e1, p, script.reply);
    RecordAfter(e, e1, RunAndRecord(code, e, p, script));
  }

  lemma RecordAfter(e: Engine, f: Engine, g: Engine)
    requires Good(e, f) && Evolves(f, g) && NoNewHot(f, g)
    ensures Evolves(e, g) && NoNewHot(e, g)
  {
    EvolvesTrans(e, f, g);
  }

  lemma {:induction false} RecordKeeps(code: Code, e: Engine, p: string, reply: Reply)
    requires Inv(e) && Ready(e, p) && p in e.registered && e.running[p] >= 1
    requires Installed(e)[p].status == L.Enabled || Installed(e)[p].status == L.Disabled
    ensures var f := (match reply case Success => Complete(e, p, Success, 0)
                                  case Failure => RecordFailure(code, e, p)
                                  case Raises => Complete(e, p, Raises, e.runtime[p].failures));
            && Inv(f) && Evolves(e, f) && NoNewHot(e, f)
            && f.depth == e.depth && f.running == e.running - multiset{p}
    decreases Sum(FreeMap(e)), 7, 1
  {
    match reply {
      case Success => CompleteStep(e, p, Success, 0);
      case Failure => RecordFailureKeeps(code, e, p);
      case Raises => CompleteStep(e, p, Raises, e.runtime[p].failures);
    }
  }
}
