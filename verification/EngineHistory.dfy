/** What the history of every run of engine commands says, under no condition on the commands but that
    no install fails after the tree swap: revoked plugins are never run, and the runs of a plugin that
    are open at any moment never exceed its permits. */
module EngineHistory {
  import opened Prelude
  import opened PluginEvents
  import opened EngineModel
  import opened EngineRefinement
  import L = PluginLifecycle

  // ---------- Reading the history ----------

  /** Launches less completions of plugin `q`. */
  ghost function Open(log: seq<Mark>, q: string): int {
    if log == [] then 0
    else
      var last := log[|log| - 1];
      Open(log[..|log| - 1], q)
      + if last == Launched(q) then 1 else if last.Completed? && last.plugin == q then -1 else 0
  }

  lemma OpenStep(log: seq<Mark>, m: Mark, q: string)
    ensures Open(log + [m], q) ==
              Open(log, q) + if m == Launched(q) then 1 else if m.Completed? && m.plugin == q then -1 else 0
  {
    assert (log + [m])[..|log|] == log;
  }

  /** At every moment from `e` to `f` the open runs of `q` are at most `m` more than in `e`; at the end
      they are as in `e`, less `owed` runs begun before. */
  ghost predicate Metered(e: Engine, f: Engine, q: string, m: int, owed: nat) {
    && e.log <= f.log
    && Open(f.log, q) == Open(e.log, q) - owed
    && (forall k :: |e.log| <= k <= |f.log| ==> Open(e.log, q) - owed <= Open(f.log[..k], q) <= Open(e.log, q) + m)
  }

  ghost function FreeOrNone(e: Engine, q: string): nat {
    if q in Installed(e) then Free(e, q) else 0
  }

  ghost function LimitOrNone(e: Engine, q: string): nat {
    if q in Installed(e) then Installed(e)[q].metadata.maxConcurrency else 0
  }

  /** A runtime state is the one in use, or was there before. */
  ghost predicate RuntimeKept(e: Engine, f: Engine, q: string) {
    q in f.runtime ==> Ready(f, q) || (q in e.runtime && f.runtime[q] == e.runtime[q])
  }

  /** What any part of a dispatch does to the history of `q`. */
  ghost predicate Within(e: Engine, f: Engine, q: string, owed: nat) {
    && SamePermits(e, f)
    && Fenced(e, f, q)
    && RuntimeKept(e, f, q)
    && Metered(e, f, q, FreeOrNone(e, q), owed)
  }

  lemma SameFree(e: Engine, f: Engine, q: string)
    requires SamePermits(e, f)
    ensures FreeOrNone(f, q) == FreeOrNone(e, q) && LimitOrNone(f, q) == LimitOrNone(e, q)
  {
    if q in Installed(e) {
      assert FreeMap(f)[q] == FreeMap(e)[q];
    }
  }

  lemma MeteredTrans(e: Engine, f: Engine, g: Engine, q: string, m: int, a: nat, b: nat)
    requires Metered(e, f, q, m, a) && Metered(f, g, q, m, b)
    ensures Metered(e, g, q, m, a + b)
  {
    forall k | |e.log| <= k <= |g.log|
      ensures Open(e.log, q) - (a + b) <= Open(g.log[..k], q) <= Open(e.log, q) + m
    {
      if k <= |f.log| {
        assert g.log[..k] == f.log[..k];
      }
    }
  }

  lemma WithinTrans(e: Engine, f: Engine, g: Engine, q: string, a: nat, b: nat)
    requires Within(e, f, q, a) && Within(f, g, q, b)
    ensures Within(e, g, q, a + b)
  {
    SameFree(e, f, q);
    FencedTrans(e, f, g, q);
    MeteredTrans(e, f, g, q, FreeOrNone(e, q), a, b);
    hide Fenced, Metered, FreeMap, Free;
  }

  /** Nothing about `q` enters the history. */
  lemma QuietStep(e: Engine, f: Engine, q: string)
    requires SamePermits(e, f) && f.log == e.log && RuntimeKept(e, f, q)
    requires IsRevoked(e, q) ==> IsRevoked(f, q)
    ensures Within(e, f, q, 0)
  {
    assert f.log[..|f.log|] == f.log;
  }

  /** One mark that opens no run enters the history. */
  lemma MarkStep(e: Engine, f: Engine, q: string, m: Mark)
    requires SamePermits(e, f) && f.log == e.log + [m] && RuntimeKept(e, f, q)
    requires IsRevoked(e, q) ==> IsRevoked(f, q)
    requires !m.Launched?
    ensures Within(e, f, q, if m.Completed? && m.plugin == q then 1 else 0)
  {
    OpenStep(e.log, m, q);
    forall k | |e.log| <= k <= |f.log| ensures f.log[..k] == e.log || f.log[..k] == f.log {
    }
  }

  // ---------- Below the operator ----------

  lemma RuntimeWithin(e: Engine, p: string, q: string)
    requires p in Installed(e)
    ensures Within(e, RuntimeFor(e, p), q, 0)
  {
    if Ready(e, p) {
      QuietStep(e, e, q);
    } else {
      MarkStep(e, RuntimeFor(e, p), q, Reset(p));
    }
  }

  lemma CompleteWithin(e: Engine, p: string, reply: Reply, failures: nat, q: string)
    requires Ready(e, p)
    ensures Within(e, Complete(e, p, reply, failures), q, if p == q then 1 else 0)
  {
    MarkStep(e, Complete(e, p, reply, failures), q, Completed(p, reply));
  }

  /** Taking a permit, running, recording the end and giving the permit back. */
  lemma BracketWithin(e: Engine, done: Engine, p: string, q: string)
    requires Ready(e, p) && e.runtime[p].free > 0 && IsEnabled(e, p)
    requires Within(Acquire(e, p), done, q, if p == q then 1 else 0)
    requires Ready(done, p) && SamePermits(e, Release(done, p))
    ensures Within(e, Release(done, p), q, 0)
  {
    var taken, f := Acquire(e, p), Release(done, p);
    BracketFenced(e, done, p, q);
    BracketMetered(e, done, p, q);
    BracketRuntime(e, done, p, q);
    hide Fenced, Metered, RuntimeKept, SamePermits, Release, Acquire;
  }

  lemma BracketFenced(e: Engine, done: Engine, p: string, q: string)
    requires Ready(e, p) && e.runtime[p].free > 0 && IsEnabled(e, p)
    requires Fenced(Acquire(e, p), done, q) && Ready(done, p)
    ensures Fenced(e, Release(done, p), q)
  {
    var taken := Acquire(e, p);
    forall i | IsRevoked(e, q) && |e.log| <= i < |done.log| ensures done.log[i] != Launched(q) {
      if i < |taken.log| {
        assert done.log[i] == taken.log[i] == Launched(p);
      }
    }
  }

  lemma BracketMetered(e: Engine, done: Engine, p: string, q: string)
    requires Ready(e, p) && e.runtime[p].free > 0
    requires Metered(Acquire(e, p), done, q, FreeOrNone(Acquire(e, p), q), if p == q then 1 else 0)
    requires Ready(done, p)
    ensures Metered(e, Release(done, p), q, FreeOrNone(e, q), 0)
  {
    var taken, f := Acquire(e, p), Release(done, p);
    OpenStep(e.log, Launched(p), q);
    assert FreeOrNone(taken, q) == FreeOrNone(e, q) - if p == q then 1 else 0 by {
      if q in Installed(e) {
        assert FreeMap(taken)[q] == FreeMap(e)[p := Free(e, p) - 1][q];
      }
    }
    forall k | |e.log| <= k <= |f.log|
      ensures Open(e.log, q) <= Open(f.log[..k], q) <= Open(e.log, q) + FreeOrNone(e, q)
    {
      if k == |e.log| {
        assert f.log[..k] == taken.log[..k] == e.log;
      } else {
        assert f.log[..k] == done.log[..k];
      }
    }
  }

  lemma BracketRuntime(e: Engine, done: Engine, p: string, q: string)
    requires Ready(e, p) && e.runtime[p].free > 0
    requires RuntimeKept(Acquire(e, p), done, q) && Ready(done, p)
    ensures RuntimeKept(e, Release(done, p), q)
  {
  }

  lemma {:induction false} DispatchWithin(code: Code, e: Engine, p: string, action: string, q: string)
    ensures Within(e, Dispatch(code, e, p, action).0, q, 0)
    decreases Sum(FreeMap(e)), 0, 0
  {
    if !IsEnabled(e, p) {
      QuietStep(e, e, q);
    } else {
      var e1 := RuntimeFor(e, p);
      RuntimeWithin(e, p, q);
      if e1.runtime[p].free > 0 {
        DispatchUnfolds(code, e, p, action);
        AcceptedWithin(code, e, p, action, q);
      }
    }
  }

  lemma {:induction false} AcceptedWithin(code: Code, e: Engine, p: string, action: string, q: string)
    requires IsEnabled(e, p) && RuntimeFor(e, p).runtime[p].free > 0
    requires Within(e, RuntimeFor(e, p), q, 0)
    requires Sum(FreeMap(Acquire(RuntimeFor(e, p), p))) < Sum(FreeMap(e))
    ensures Within(e, Dispatch(code, e, p, action).0, q, 0)
    decreases Sum(FreeMap(Acquire(RuntimeFor(e, p), p))), 9, 0
  {
    hide Within, FreeMap, IsEnabled, RunAndRecord;
    var e1 := RuntimeFor(e, p);
    var taken := Acquire(e1, p);
    var script := code(p, action, |e1.log|);
    var done := RunAndRecord(code, taken, p, script);
    PermitReturned(e1, taken, done, p);
    RunAndRecordWithin(code, taken, p, script, q);
    EnabledStill(e, p);
    BracketWithin(e1, done, p, q);
    WithinTrans(e, e1, Release(done, p), q, 0, 0);
    DispatchIs(code, e, p, action);
  }

  lemma EnabledStill(e: Engine, p: string)
    requires p in Installed(e)
    ensures IsEnabled(RuntimeFor(e, p), p) <==> IsEnabled(e, p)
  {
  }

  lemma DispatchIs(code: Code, e: Engine, p: string, action: string)
    requires IsEnabled(e, p) && RuntimeFor(e, p).runtime[p].free > 0
    ensures var e1 := RuntimeFor(e, p);
            var done := RunAndRecord(code, Acquire(e1, p), p, code(p, action, |e1.log|));
            Ready(done, p) && Dispatch(code, e, p, action).0 == Release(done, p)
  {
    var e1 := RuntimeFor(e, p);
    PermitReturned(e1, Acquire(e1, p), RunAndRecord(code, Acquire(e1, p), p, code(p, action, |e1.log|)), p);
  }

  lemma {:induction false} RunAndRecordWithin(code: Code, e: Engine, p: string, script: Script, q: string)
    requires Ready(e, p)
    ensures Within(e, RunAndRecord(code, e, p, script), q, if p == q then 1 else 0)
    decreases Sum(FreeMap(e)), 8, 0
  {
    hide Within;
    var e1 := RunScript(code, e, p, script.publishes);
    RunScriptWithin(code, e, p, script.publishes, q);
    match script.reply {
      case Success => CompleteWithin(e1, p, Success, 0, q);
      case Failure => RecordFailureWithin(code, e1, p, q);
      case Raises => CompleteWithin(e1, p, Raises, e1.runtime[p].failures, q);
    }
    WithinTrans(e, e1, RunAndRecord(code, e, p, script), q, 0, if p == q then 1 else 0);
  }

  lemma {:induction false} DeliverWithin(code: Code, e: Engine, cb: Callback, event: string, q: string)
    ensures Within(e, Deliver(code, e, cb, event), q, 0)
    decreases Sum(FreeMap(e)), 1, 0
  {
    QuietStep(e, e, q);
    if cb.owner.Some? {
      hide Within;
      DispatchWithin(code, e, cb.owner.value, event, q);
    }
  }

  lemma {:induction false} DeliverAllWithin(code: Code, e: Engine, cbs: seq<Callback>, event: string, q: string)
    ensures Within(e, DeliverAll(code, e, cbs, event), q, 0)
    decreases Sum(FreeMap(e)), 2, |cbs|
  {
    if cbs == [] {
      QuietStep(e, e, q);
    } else {
      hide Within;
      var f := Deliver(code, e, cbs[0], event);
      DeliverWithin(code, e, cbs[0], event, q);
      DeliverAllWithin(code, f, cbs[1..], event, q);
      WithinTrans(e, f, DeliverAll(code, f, cbs[1..], event), q, 0, 0);
    }
  }

  lemma {:induction false} PublishWithin(code: Code, e: Engine, event: string, q: string)
    ensures Within(e, Publish(code, e, event), q, 0)
    decreases Sum(FreeMap(e)), 3, 0
  {
    hide Within;
    DeliverAllWithin(code, e, Snapshot(e.bus, event), event, q);
  }

  lemma {:induction false} RunScriptWithin(code: Code, e: Engine, p: string, publishes: seq<string>, q: string)
    requires p in Installed(e)
    ensures Within(e, RunScript(code, e, p, publishes), q, 0)
    decreases Sum(FreeMap(e)), 4, |publishes|
  {
    QuietStep(e, e, q);
    if publishes != [] {
      hide Within;
      var f := if MayPublish(e, p) then Publish(code, e, publishes[0]) else e;
      if MayPublish(e, p) {
        PublishWithin(code, e, publishes[0], q);
      }
      RunScriptWithin(code, f, p, publishes[1..], q);
      WithinTrans(e, f, RunScript(code, f, p, publishes[1..]), q, 0, 0);
    }
  }

  lemma ClosedWithin(e: Engine, p: string, q: string)
    ensures Within(e, Unregistered(e, p), q, 0)
    ensures Within(e, Closed(Unregistered(e, p), p), q, 0)
  {
    QuietStep(e, Unregistered(e, p), q);
    QuietStep(e, Closed(Unregistered(e, p), p), q);
  }

  lemma {:induction false} StopWithin(code: Code, e: Engine, p: string, q: string)
    ensures Within(e, Stop(code, e, p), q, 0)
    decreases Sum(FreeMap(e)), 5, 0
  {
    hide Within;
    ClosedWithin(e, p, q);
    if p in e.sandboxes {
      var f := Closed(Unregistered(e, p), p);
      PublishWithin(code, f, "plugin.stopped", q);
      WithinTrans(e, f, Publish(code, f, "plugin.stopped"), q, 0, 0);
    }
  }

  /** A revoked plugin is not disabled: the transition raises. */
  lemma RetiredWithin(e: Engine, p: string, q: string)
    requires p in Installed(e)
    ensures Within(e, Retired(e, p, L.Disabled).0, q, 0)
  {
    QuietStep(e, Retired(e, p, L.Disabled).0, q);
  }

  lemma {:induction false} DisableWithin(code: Code, e: Engine, p: string, q: string)
    requires p in Installed(e)
    ensures Within(e, Disable(code, e, p).0, q, 0)
    decreases Sum(FreeMap(e)), 6, 0
  {
    hide Within, FreeMap, Stop, Publish, Retired;
    var e1 := Stop(code, e, p);
    var e2 := Retired(e1, p, L.Disabled).0;
    StopWithin(code, e, p, q);
    RetiredWithin(e1, p, q);
    PublishWithin(code, e2, "plugin.disabled", q);
    WithinTrans(e, e1, e2, q, 0, 0);
    WithinTrans(e, e2, Publish(code, e2, "plugin.disabled"), q, 0, 0);
  }

  lemma {:induction false} RecordFailureWithin(code: Code, e: Engine, p: string, q: string)
    requires Ready(e, p)
    ensures Within(e, RecordFailure(code, e, p), q, if p == q then 1 else 0)
    decreases Sum(FreeMap(e)), 7, 0
  {
    hide Within, FreeMap, Disable, Stop, Publish, Dispatch;
    var e1 := Complete(e, p, Failure, e.runtime[p].failures + 1);
    CompleteWithin(e, p, Failure, e.runtime[p].failures + 1, q);
    if Trips(e1, p) {
      DisableWithin(code, e1, p, q);
      WithinTrans(e, e1, Disable(code, e1, p).0, q, if p == q then 1 else 0, 0);
    }
  }

  // ---------- Commands ----------

  ghost predicate RuntimeSound(e: Engine, q: string) {
    q in e.runtime ==> e.runtime[q].free <= e.runtime[q].limit
  }

  /** What a command, or a part of one, does to the history of `q`, whose limit stays within `m`. */
  ghost predicate Stage(e: Engine, f: Engine, q: string, m: nat) {
    && L.GovernedInv(f.loader)
    && Fenced(e, f, q)
    && (RuntimeSound(e, q) ==> RuntimeSound(f, q) && Metered(e, f, q, m, 0))
  }

  lemma StageTrans(e: Engine, f: Engine, g: Engine, q: string, m: nat)
    requires Stage(e, f, q, m) && Stage(f, g, q, m)
    ensures Stage(e, g, q, m)
  {
    hide L.GovernedInv;
    FencedTrans(e, f, g, q);
    if RuntimeSound(e, q) {
      MeteredTrans(e, f, g, q, m, 0, 0);
    }
  }

  lemma LeadsKeeps(l: L.Loader, m: L.Loader)
    requires L.GovernedInv(l) && Leads(l, m)
    ensures L.GovernedInv(m)
  {
    var steps :| AllGoverned(steps) && m == L.Run(l, steps);
    L.RevokedIsPermanent(l, steps);
  }

  lemma WithinStage(e: Engine, f: Engine, q: string, m: nat)
    requires Within(e, f, q, 0) && L.GovernedInv(e.loader) && Leads(e.loader, f.loader)
    requires LimitOrNone(e, q) <= m
    ensures Stage(e, f, q, m)
  {
    LeadsKeeps(e.loader, f.loader);
    hide L.GovernedInv, Leads, Fenced;
    if RuntimeSound(e, q) {
      SameFree(e, f, q);
      assert RuntimeSound(f, q);
    }
  }

  /** At most one mark that is neither a launch nor a completion. */
  ghost predicate SmallStep(e: Engine, f: Engine) {
    || f.log == e.log
    || f.log == e.log + [Rebooted]
    || exists p :: f.log == e.log + [Armed(p)]
  }

  lemma SmallStepMetered(e: Engine, f: Engine, q: string, m: nat)
    requires SmallStep(e, f)
    ensures e.log <= f.log && Metered(e, f, q, m, 0)
    ensures forall i :: |e.log| <= i < |f.log| ==> f.log[i] != Launched(q)
  {
    if f.log != e.log {
      assert f.log == e.log + [f.log[|e.log|]];
      OpenStep(e.log, f.log[|e.log|], q);
    }
    forall k | |e.log| <= k <= |f.log| ensures f.log[..k] == e.log || f.log[..k] == f.log {
    }
  }

  /** An operation of the loader, before anything is announced. */
  lemma OperationOnly(e: Engine, f: Engine, step: L.Step, q: string, m: nat)
    requires L.GovernedInv(e.loader) && L.Governed(step)
    requires f.loader == L.Apply(e.loader, step).0
    requires SmallStep(e, f)
    requires f.runtime == e.runtime || f.runtime == map[]
    ensures Stage(e, f, q, m)
  {
    hide SmallStep, Metered, L.Governed, L.Install, L.Discover, L.Update, L.RevokePlugin, L.RevokeVersion;
    L.GovernedStepKeepsInv(e.loader, step);
    SmallStepMetered(e, f, q, m);
    if IsRevoked(e, q) {
      L.StatusChangesAreEdges(e.loader, step, q);
    }
    hide L.GovernedInv, L.Apply, L.Governed;
  }

  lemma StageRefl(e: Engine, q: string, m: nat)
    requires L.GovernedInv(e.loader)
    ensures Stage(e, e, q, m)
  {
    hide L.GovernedInv;
    SmallStepMetered(e, e, q, m);
  }

  lemma PublishStage(code: Code, e: Engine, event: string, q: string, m: nat)
    requires L.GovernedInv(e.loader) && LimitOrNone(Publish(code, e, event), q) <= m
    ensures Stage(e, Publish(code, e, event), q, m)
  {
    hide L.GovernedInv, Leads, Within, Stage;
    PublishWithin(code, e, event, q);
    PublishLeads(code, e, event);
    SameFree(e, Publish(code, e, event), q);
    WithinStage(e, Publish(code, e, event), q, m);
  }

  lemma StopStage(code: Code, e: Engine, name: string, q: string, m: nat)
    requires L.GovernedInv(e.loader) && LimitOrNone(e, q) <= m
    ensures Stage(e, Stop(code, e, name), q, m)
  {
    hide L.GovernedInv, Leads, Within, Stage;
    StopWithin(code, e, name, q);
    StopLeads(code, e, name);
    WithinStage(e, Stop(code, e, name), q, m);
  }

  lemma DispatchStage(code: Code, e: Engine, p: string, action: string, q: string, m: nat)
    requires L.GovernedInv(e.loader) && LimitOrNone(Dispatch(code, e, p, action).0, q) <= m
    ensures Stage(e, Dispatch(code, e, p, action).0, q, m)
  {
    hide L.GovernedInv, Leads, Within, Stage;
    DispatchWithin(code, e, p, action, q);
    DispatchLeads(code, e, p, action);
    SameFree(e, Dispatch(code, e, p, action).0, q);
    WithinStage(e, Dispatch(code, e, p, action).0, q, m);
  }

  lemma StageGoverned(e: Engine, f: Engine, q: string, m: nat)
    requires Stage(e, f, q, m)
    ensures L.GovernedInv(f.loader)
  {
  }

  /** An operation of the loader, then its announcement if it succeeded. */
  lemma OperationStage(code: Code, e: Engine, f: Engine, step: L.Step, name: string, event: string, q: string, m: nat)
    requires L.GovernedInv(e.loader) && L.Governed(step)
    requires f == e || f == Arm(e, name)
    requires var (l, ok) := L.Apply(e.loader, step);
             LimitOrNone(if ok then Announce(code, f, l, name, event) else e.(loader := l), q) <= m
    ensures var (l, ok) := L.Apply(e.loader, step);
            Stage(e, if ok then Announce(code, f, l, name, event) else e.(loader := l), q, m)
  {
    hide L.GovernedInv, L.Apply, L.Governed, Stage, LimitOrNone, Publish;
    var (l, ok) := L.Apply(e.loader, step);
    if ok {
      var f1 := Register(f.(loader := l), name);
      OperationOnly(e, f1, step, q, m);
      StageGoverned(e, f1, q, m);
      PublishStage(code, f1, event, q, m);
      StageTrans(e, f1, Publish(code, f1, event), q, m);
    } else {
      OperationOnly(e, e.(loader := l), step, q, m);
    }
  }

  lemma InstallStage(code: Code, e: Engine, package: L.Package, options: L.InstallOptions, q: string, m: nat)
    requires L.GovernedInv(e.loader) && !L.FailsAfterSwap(package, options)
    requires LimitOrNone(Execute(code, e, Install(package, options)), q) <= m
    ensures Stage(e, Execute(code, e, Install(package, options)), q, m)
  {
    var (l, ok) := L.Install(e.loader, package, options);
    assert L.Apply(e.loader, L.DoInstall(package, options)) == (l, ok);
    hide L.GovernedInv, L.Apply, L.Install, Stage, LimitOrNone, Publish;
    var f := e.(loader := l);
    OperationOnly(e, f, L.DoInstall(package, options), q, m);
    if ok {
      StageGoverned(e, f, q, m);
      PublishStage(code, f, "plugin.installed", q, m);
      StageTrans(e, f, Publish(code, f, "plugin.installed"), q, m);
    }
  }

  lemma RetireStage(code: Code, e: Engine, name: string, target: L.Status, event: string, q: string, m: nat)
    requires L.GovernedInv(e.loader) && (target == L.Disabled || target == L.Quarantined)
    requires LimitOrNone(e, q) <= m && LimitOrNone(Retire(code, e, name, target, event), q) <= m
    ensures Stage(e, Retire(code, e, name, target, event), q, m)
  {
    hide L.GovernedInv, Stage, LimitOrNone, Publish, Stop, L.TransitionStatus;
    var e1 := Stop(code, e, name);
    StopStage(code, e, name, q, m);
    StageGoverned(e, e1, q, m);
    OperationStage(code, e1, e1, if target == L.Disabled then L.DoDisable(name) else L.DoQuarantine(name), name, event, q, m);
    StageTrans(e, e1, Retire(code, e, name, target, event), q, m);
  }

  lemma RevokeStage(code: Code, e: Engine, name: string, q: string, m: nat)
    requires L.GovernedInv(e.loader)
    requires LimitOrNone(e, q) <= m && LimitOrNone(Execute(code, e, Revoke(name)), q) <= m
    ensures Stage(e, Execute(code, e, Revoke(name)), q, m)
  {
    hide L.GovernedInv, Stage, LimitOrNone, Publish, Stop, L.RevokePlugin;
    var e1 := Stop(code, e, name);
    StopStage(code, e, name, q, m);
    StageGoverned(e, e1, q, m);
    OperationStage(code, e1, e1, L.DoRevoke(name), name, "plugin.revoked", q, m);
    StageTrans(e, e1, Execute(code, e, Revoke(name)), q, m);
  }

  lemma RevokeVersionStage(code: Code, e: Engine, name: string, version: string, q: string, m: nat)
    requires L.GovernedInv(e.loader)
    requires LimitOrNone(e, q) <= m && LimitOrNone(Execute(code, e, RevokeVersion(name, version)), q) <= m
    ensures Stage(e, Execute(code, e, RevokeVersion(name, version)), q, m)
  {
    hide L.GovernedInv, Stage, LimitOrNone, Publish, Stop, L.RevokeVersion;
    var hit := name in Installed(e) && Installed(e)[name].metadata.version == version;
    var e1 := if hit then Stop(code, e, name) else e;
    if hit {
      StopStage(code, e, name, q, m);
      StageGoverned(e, e1, q, m);
    }
    OperationStage(code, e1, e1, L.DoRevokeVersion(name, version), name, "plugin.version_revoked", q, m);
    if hit {
      StageTrans(e, e1, Execute(code, e, RevokeVersion(name, version)), q, m);
    }
  }

  /** Looking on disk, as a restart of the loader or not at all. */
  lemma LocatedStage(e: Engine, name: string, f: Engine, q: string, m: nat)
    requires L.GovernedInv(e.loader) && f.loader == L.Located(e.loader, name)
    requires f.log == e.log && f.runtime == e.runtime
    ensures Stage(e, f, q, m)
  {
    if name in e.loader.installed {
      hide L.GovernedInv;
      SmallStepMetered(e, f, q, m);
    } else {
      assert L.Apply(e.loader, L.Restart).0 == L.Discover(e.loader);
      OperationOnly(e, f, L.Restart, q, m);
    }
  }

  lemma StartStage(code: Code, e0: Engine, name: string, admitted: bool, launch: Launch, q: string, m: nat)
    requires L.GovernedInv(e0.loader)
    requires LimitOrNone(StartPlugin(code, e0, name, admitted, launch).0, q) <= m
    ensures Stage(e0, StartPlugin(code, e0, name, admitted, launch).0, q, m)
  {
    L.KnownAreFound(e0.loader, name);
    hide L.GovernedInv, Stage, LimitOrNone, Publish, L.Located, L.Found;
    var e := e0.(loader := L.Located(e0.loader, name));
    LocatedStage(e0, name, e, q, m);
    if IsEnabled(e, name) && admitted && launch == Launches {
      var f := Started(e, name);
      LocatedStage(e0, name, f, q, m);
      StageGoverned(e0, f, q, m);
      PublishStage(code, f, "plugin.started", q, m);
      StageTrans(e0, f, Publish(code, f, "plugin.started"), q, m);
    } else {
      LocatedStage(e0, name, StartPlugin(code, e0, name, admitted, launch).0, q, m);
    }
  }

  lemma CallStage(code: Code, e: Engine, name: string, action: string, admitted: bool, launch: Launch, q: string, m: nat)
    requires L.GovernedInv(e.loader)
    requires LimitOrNone(CallTool(code, e, name, action, admitted, launch), q) <= m
    ensures Stage(e, CallTool(code, e, name, action, admitted, launch), q, m)
  {
    hide L.GovernedInv, Stage, LimitOrNone, StartPlugin, Dispatch;
    var (e1, ok) := if name in e.sandboxes then (e, true) else StartPlugin(code, e, name, admitted, launch);
    if ok && name in e1.sandboxes {
      SameFree(e1, Dispatch(code, e1, name, action).0, q);
    }
    if name !in e.sandboxes {
      StartStage(code, e, name, admitted, launch, q, m);
      StageGoverned(e, e1, q, m);
    }
    if ok && name in e1.sandboxes {
      DispatchStage(code, e1, name, action, q, m);
      if name !in e.sandboxes {
        StageTrans(e, e1, Dispatch(code, e1, name, action).0, q, m);
      }
    }
  }

  lemma RebootStage(e: Engine, q: string, m: nat)
    requires L.GovernedInv(e.loader)
    ensures Stage(e, Reboot(e), q, m)
  {
    assert L.Apply(e.loader, L.Restart).0 == L.Discover(e.loader);
    hide L.GovernedInv, Stage, L.Discover;
    OperationOnly(e, Reboot(e), L.Restart, q, m);
  }

  lemma CommandStage(code: Code, e: Engine, c: Command, q: string, m: nat)
    requires L.GovernedInv(e.loader) && SafeInstalls(c)
    requires LimitOrNone(e, q) <= m && LimitOrNone(Execute(code, e, c), q) <= m
    ensures Stage(e, Execute(code, e, c), q, m)
  {
    hide L.GovernedInv, Stage, LimitOrNone, Publish, Stop, Dispatch;
    match c
    case Install(package, options) => InstallStage(code, e, package, options, q, m);
    case Grant(name, permissions) =>
      OperationStage(code, e, Arm(e, name), L.DoGrant(name, permissions), name, "plugin.permissions_granted", q, m);
    case EnablePlugin(name, admitted) =>
      if name in Installed(e) && !admitted {
        StageRefl(e, q, m);
      } else {
        OperationStage(code, e, Arm(e, name), L.DoEnable(name), name, "plugin.enabled", q, m);
      }
    case DisablePlugin(name) => RetireStage(code, e, name, L.Disabled, "plugin.disabled", q, m);
    case Quarantine(name) => RetireStage(code, e, name, L.Quarantined, "plugin.quarantined", q, m);
    case Revoke(name) => RevokeStage(code, e, name, q, m);
    case RevokeVersion(name, version) => RevokeVersionStage(code, e, name, version, q, m);
    case Start(name, admitted, launch) => StartStage(code, e, name, admitted, launch, q, m);
    case StopPlugin(name) => StopStage(code, e, name, q, m);
    case Call(name, action, admitted, launch) => CallStage(code, e, name, action, admitted, launch, q, m);
    case PublishEvent(event) => PublishStage(code, e, event, q, m);
    case Restart => RebootStage(e, q, m);
  }

  // ---------- Runs ----------

  ghost predicate AllSafe(commands: seq<Command>) {
    forall i :: 0 <= i < |commands| ==> SafeInstalls(commands[i])
  }

  /** The largest limit the plugin has before, between and after the commands. */
  ghost function MostPermits(code: Code, e: Engine, commands: seq<Command>, q: string): (m: nat)
    ensures LimitOrNone(e, q) <= m
    decreases |commands|
  {
    var now := LimitOrNone(e, q);
    if commands == [] then now
    else
      var later := MostPermits(code, Execute(code, e, commands[0]), commands[1..], q);
      if later > now then later else now
  }

  lemma {:induction false} RunStage(code: Code, e: Engine, commands: seq<Command>, q: string, m: nat)
    requires L.GovernedInv(e.loader) && AllSafe(commands)
    requires MostPermits(code, e, commands, q) <= m
    ensures Stage(e, ExecuteAll(code, e, commands), q, m)
    decreases |commands|
  {
    if commands == [] {
      StageRefl(e, q, m);
    } else {
      hide L.GovernedInv, Stage, Execute, LimitOrNone;
      var f := Execute(code, e, commands[0]);
      CommandStage(code, e, commands[0], q, m);
      StageGoverned(e, f, q, m);
      RunStage(code, f, commands[1..], q, m);
      StageTrans(e, f, ExecuteAll(code, f, commands[1..]), q, m);
    }
  }

  /** In every run of commands whose installs do not fail after the tree swap, double starts, installs
      over running plugins and restarts included, REVOKED is permanent and no runner is ever started
      again for that plugin, whatever the other plugins do. */
  lemma RevokedNeverRuns(code: Code, e: Engine, commands: seq<Command>, p: string)
    requires L.GovernedInv(e.loader) && AllSafe(commands) && IsRevoked(e, p)
    ensures var f := ExecuteAll(code, e, commands);
            && IsRevoked(f, p)
            && e.log <= f.log
            && (forall i :: |e.log| <= i < |f.log| ==> f.log[i] != Launched(p))
  {
    RunStage(code, e, commands, p, MostPermits(code, e, commands, p));
    hide L.GovernedInv;
  }

  /** In every such run, at every moment, the open runs of a plugin are no more than its permits, and
      between commands there are none. */
  lemma OpenRunsWithinPermits(code: Code, e: Engine, commands: seq<Command>, q: string)
    requires L.GovernedInv(e.loader) && AllSafe(commands) && RuntimeSound(e, q) && Open(e.log, q) == 0
    ensures var f := ExecuteAll(code, e, commands);
            && e.log <= f.log && Open(f.log, q) == 0
            && (forall k :: |e.log| <= k <= |f.log| ==> 0 <= Open(f.log[..k], q) <= MostPermits(code, e, commands, q))
  {
    RunStage(code, e, commands, q, MostPermits(code, e, commands, q));
    hide L.GovernedInv;
  }

  // ---------- One permit: launches and completions alternate ----------

  /** The launches (true) and completions (false) of a plugin, in order. */
  ghost function Uses(log: seq<Mark>, q: string): seq<bool> {
    if log == [] then []
    else
      var last := log[|log| - 1];
      Uses(log[..|log| - 1], q)
      + if last == Launched(q) then [true] else if last.Completed? && last.plugin == q then [false] else []
  }

  lemma {:induction false} AlternatesFrom(log: seq<Mark>, q: string)
    requires forall k :: 0 <= k <= |log| ==> 0 <= Open(log[..k], q) <= 1
    ensures forall i :: 0 <= i < |Uses(log, q)| ==> Uses(log, q)[i] == (i % 2 == 0)
    ensures |Uses(log, q)| % 2 == Open(log, q)
  {
    if log != [] {
      var front := log[..|log| - 1];
      forall k | 0 <= k <= |front| ensures 0 <= Open(front[..k], q) <= 1 {
        assert front[..k] == log[..k];
      }
      assert log[..|log|] == log;
      AlternatesFrom(front, q);
    }
  }

  /** From a fresh history, a plugin that never has more than one permit is launched, completed,
      launched, completed, and so on, through every event that re-enters the engine. */
  lemma LaunchesAlternate(code: Code, e: Engine, commands: seq<Command>, q: string)
    requires L.GovernedInv(e.loader) && AllSafe(commands) && RuntimeSound(e, q) && e.log == []
    requires MostPermits(code, e, commands, q) <= 1
    ensures var uses := Uses(ExecuteAll(code, e, commands).log, q);
            |uses| % 2 == 0 && forall i :: 0 <= i < |uses| ==> uses[i] == (i % 2 == 0)
  {
    OpenRunsWithinPermits(code, e, commands, q);
    AlternatesFrom(ExecuteAll(code, e, commands).log, q);
  }
}
