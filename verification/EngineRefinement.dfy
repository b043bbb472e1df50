/** Whatever plugins do and however they re-enter the engine, a run of engine commands acts on the
    loader as a run of the loader's own governed operations, so what holds of every such run of the
    loader holds of every run of the engine. */
module EngineRefinement {
  import opened Prelude
  import opened PluginEvents
  import opened EngineModel
  import L = PluginLifecycle

  ghost predicate AllGoverned(steps: seq<L.Step>) {
    forall i :: 0 <= i < |steps| ==> L.Governed(steps[i])
  }

  /** Some run of governed operations leads from `l` to `m`. */
  ghost predicate Leads(l: L.Loader, m: L.Loader) {
    exists steps :: AllGoverned(steps) && m == L.Run(l, steps)
  }

  lemma {:induction false} RunAppend(l: L.Loader, a: seq<L.Step>, b: seq<L.Step>)
    ensures L.Run(l, a + b) == L.Run(L.Run(l, a), b)
    decreases |a|
  {
    if a == [] {
      assert a + b == b;
    } else {
      assert (a + b)[1..] == a[1..] + b;
      RunAppend(L.Apply(l, a[0]).0, a[1..], b);
    }
  }

  lemma LeadsRefl(l: L.Loader)
    ensures Leads(l, l)
  {
    assert AllGoverned([]) && L.Run(l, []) == l;
  }

  lemma LeadsTrans(l: L.Loader, m: L.Loader, n: L.Loader)
    requires Leads(l, m) && Leads(m, n)
    ensures Leads(l, n)
  {
    var a :| AllGoverned(a) && m == L.Run(l, a);
    var b :| AllGoverned(b) && n == L.Run(m, b);
    RunAppend(l, a, b);
    assert AllGoverned(a + b);
  }

  lemma LeadsStep(l: L.Loader, step: L.Step)
    requires L.Governed(step)
    ensures Leads(l, L.Apply(l, step).0)
  {
    var m := L.Apply(l, step).0;
    assert [step][1..] == [];
    assert L.Run(l, [step]) == L.Run(m, []) == m;
    assert AllGoverned([step]);
  }

  // ---------- Below the operator ----------

  lemma RetiredLeads(e: Engine, p: string)
    requires p in Installed(e)
    ensures Leads(e.loader, Retired(e, p, L.Disabled).0.loader)
  {
    LeadsRefl(e.loader);
    LeadsStep(e.loader, L.DoDisable(p));
    assert L.Apply(e.loader, L.DoDisable(p)) == L.TransitionStatus(e.loader, p, L.Disabled);
    hide L.Apply, L.TransitionStatus, Leads;
  }

  lemma DispatchUnfolds(code: Code, e: Engine, p: string, action: string)
    requires IsEnabled(e, p) && RuntimeFor(e, p).runtime[p].free > 0
    ensures var e1 := RuntimeFor(e, p);
            var taken := Acquire(e1, p);
            && Ready(taken, p)
            && Sum(FreeMap(taken)) < Sum(FreeMap(e))
            && taken.loader == e.loader
            && Dispatch(code, e, p, action).0.loader == RunAndRecord(code, taken, p, code(p, action, |e1.log|)).loader
  {
    var e1 := RuntimeFor(e, p);
    var taken := Acquire(e1, p);
    assert FreeMap(e1) == FreeMap(e);
    PermitReturned(e1, taken, RunAndRecord(code, taken, p, code(p, action, |e1.log|)), p);
  }

  lemma {:induction false} DispatchLeads(code: Code, e: Engine, p: string, action: string)
    ensures Leads(e.loader, Dispatch(code, e, p, action).0.loader)
    decreases Sum(FreeMap(e)), 0, 0
  {
    LeadsRefl(e.loader);
    if IsEnabled(e, p) {
      var e1 := RuntimeFor(e, p);
      if e1.runtime[p].free > 0 {
        DispatchUnfolds(code, e, p, action);
        hide Leads, FreeMap, Dispatch, Ready, Acquire;
        RunAndRecordLeads(code, Acquire(e1, p), p, code(p, action, |e1.log|));
      }
    }
  }

  lemma {:induction false} RunAndRecordLeads(code: Code, e: Engine, p: string, script: Script)
    requires Ready(e, p)
    ensures Leads(e.loader, RunAndRecord(code, e, p, script).loader)
    decreases Sum(FreeMap(e)), 8, 0
  {
    hide Leads;
    var e1 := RunScript(code, e, p, script.publishes);
    RunScriptLeads(code, e, p, script.publishes);
    if script.reply == Failure {
      RecordFailureLeads(code, e1, p);
      LeadsTrans(e.loader, e1.loader, RecordFailure(code, e1, p).loader);
    }
  }

  lemma {:induction false} DeliverLeads(code: Code, e: Engine, cb: Callback, event: string)
    ensures Leads(e.loader, Deliver(code, e, cb, event).loader)
    decreases Sum(FreeMap(e)), 1, 0
  {
    hide Leads;
    LeadsRefl(e.loader);
    if cb.owner.Some? {
      DispatchLeads(code, e, cb.owner.value, event);
    }
  }

  lemma {:induction false} DeliverAllLeads(code: Code, e: Engine, cbs: seq<Callback>, event: string)
    ensures Leads(e.loader, DeliverAll(code, e, cbs, event).loader)
    decreases Sum(FreeMap(e)), 2, |cbs|
  {
    hide Leads;
    if cbs == [] {
      LeadsRefl(e.loader);
    } else {
      var f := Deliver(code, e, cbs[0], event);
      DeliverLeads(code, e, cbs[0], event);
      DeliverAllLeads(code, f, cbs[1..], event);
      LeadsTrans(e.loader, f.loader, DeliverAll(code, f, cbs[1..], event).loader);
    }
  }

  lemma {:induction false} PublishLeads(code: Code, e: Engine, event: string)
    ensures Leads(e.loader, Publish(code, e, event).loader)
    decreases Sum(FreeMap(e)), 3, 0
  {
    DeliverAllLeads(code, e, Snapshot(e.bus, event), event);
  }

  lemma {:induction false} RunScriptLeads(code: Code, e: Engine, p: string, publishes: seq<string>)
    requires p in Installed(e)
    ensures Leads(e.loader, RunScript(code, e, p, publishes).loader)
    decreases Sum(FreeMap(e)), 4, |publishes|
  {
    hide Leads;
    LeadsRefl(e.loader);
    if publishes != [] {
      var f := if MayPublish(e, p) then Publish(code, e, publishes[0]) else e;
      if MayPublish(e, p) {
        PublishLeads(code, e, publishes[0]);
      }
      RunScriptLeads(code, f, p, publishes[1..]);
      LeadsTrans(e.loader, f.loader, RunScript(code, f, p, publishes[1..]).loader);
    }
  }

  lemma {:induction false} StopLeads(code: Code, e: Engine, p: string)
    ensures Leads(e.loader, Stop(code, e, p).loader)
    decreases Sum(FreeMap(e)), 5, 0
  {
    hide Leads;
    LeadsRefl(e.loader);
    if p in e.sandboxes {
      PublishLeads(code, Closed(Unregistered(e, p), p), "plugin.stopped");
    }
  }

  lemma {:induction false} DisableLeads(code: Code, e: Engine, p: string)
    requires p in Installed(e)
    ensures Leads(e.loader, Disable(code, e, p).0.loader)
    decreases Sum(FreeMap(e)), 6, 0
  {
    hide Leads;
    var e1 := Stop(code, e, p);
    var e2 := Retired(e1, p, L.Disabled).0;
    StopLeads(code, e, p);
    RetiredLeads(e1, p);
    PublishLeads(code, e2, "plugin.disabled");
    LeadsTrans(e.loader, e1.loader, e2.loader);
    LeadsTrans(e.loader, e2.loader, Publish(code, e2, "plugin.disabled").loader);
  }

  lemma {:induction false} RecordFailureLeads(code: Code, e: Engine, p: string)
    requires Ready(e, p)
    ensures Leads(e.loader, RecordFailure(code, e, p).loader)
    decreases Sum(FreeMap(e)), 7, 0
  {
    hide Leads, FreeMap, Disable, Stop, Publish, Dispatch;
    LeadsRefl(e.loader);
    var e1 := Complete(e, p, Failure, e.runtime[p].failures + 1);
    if Trips(e1, p) {
      DisableLeads(code, e1, p);
    }
  }

  // ---------- Commands ----------

  predicate SafeInstalls(c: Command) {
    c.Install? ==> !L.FailsAfterSwap(c.package, c.options)
  }

  lemma AnnounceLeads(code: Code, e: Engine, l: L.Loader, name: string, event: string)
    ensures Leads(l, Announce(code, e, l, name, event).loader)
  {
    PublishLeads(code, Register(e.(loader := l), name), event);
  }

  /** An operation of the loader, then its announcement if it succeeded. */
  lemma OperationLeads(code: Code, e: Engine, f: Engine, step: L.Step, name: string, event: string)
    requires L.Governed(step) && f.loader == e.loader
    ensures var (l, ok) := L.Apply(e.loader, step);
            Leads(e.loader, (if ok then Announce(code, f, l, name, event) else e.(loader := l)).loader)
  {
    hide Leads, L.Apply;
    var (l, ok) := L.Apply(e.loader, step);
    LeadsStep(e.loader, step);
    if ok {
      AnnounceLeads(code, f, l, name, event);
      LeadsTrans(e.loader, l, Announce(code, f, l, name, event).loader);
    }
  }

  lemma RetireLeads(code: Code, e: Engine, name: string, target: L.Status, event: string)
    requires target == L.Disabled || target == L.Quarantined
    ensures Leads(e.loader, Retire(code, e, name, target, event).loader)
  {
    hide Leads;
    var e1 := Stop(code, e, name);
    StopLeads(code, e, name);
    OperationLeads(code, e1, e1, if target == L.Disabled then L.DoDisable(name) else L.DoQuarantine(name), name, event);
    LeadsTrans(e.loader, e1.loader, Retire(code, e, name, target, event).loader);
  }

  lemma StartLeads(code: Code, e0: Engine, name: string, admitted: bool, launch: Launch)
    ensures Leads(e0.loader, StartPlugin(code, e0, name, admitted, launch).0.loader)
  {
    var e := e0.(loader := L.Located(e0.loader, name));
    LeadsRefl(e0.loader);
    LeadsStep(e0.loader, L.Restart);
    assert L.Apply(e0.loader, L.Restart).0 == L.Discover(e0.loader);
    hide Leads, L.Apply, L.Discover;
    if IsEnabled(e, name) && admitted && launch == Launches {
      PublishLeads(code, Started(e, name), "plugin.started");
      LeadsTrans(e0.loader, e.loader, Publish(code, Started(e, name), "plugin.started").loader);
    }
  }

  lemma CallLeads(code: Code, e: Engine, name: string, action: string, admitted: bool, launch: Launch)
    ensures Leads(e.loader, CallTool(code, e, name, action, admitted, launch).loader)
  {
    hide Leads, StartPlugin, Dispatch;
    LeadsRefl(e.loader);
    StartLeads(code, e, name, admitted, launch);
    var (e1, ok) := if name in e.sandboxes then (e, true) else StartPlugin(code, e, name, admitted, launch);
    DispatchLeads(code, e1, name, action);
    LeadsTrans(e.loader, e1.loader, Dispatch(code, e1, name, action).0.loader);
  }

  lemma InstallLeads(code: Code, e: Engine, package: L.Package, options: L.InstallOptions)
    requires !L.FailsAfterSwap(package, options)
    ensures Leads(e.loader, Execute(code, e, Install(package, options)).loader)
  {
    var (l, ok) := L.Install(e.loader, package, options);
    assert L.Apply(e.loader, L.DoInstall(package, options)) == (l, ok);
    LeadsStep(e.loader, L.DoInstall(package, options));
    hide Leads, L.Apply, L.Install;
    PublishLeads(code, e.(loader := l), "plugin.installed");
    LeadsTrans(e.loader, l, Publish(code, e.(loader := l), "plugin.installed").loader);
  }

  lemma RevokeLeads(code: Code, e: Engine, name: string)
    ensures Leads(e.loader, Execute(code, e, Revoke(name)).loader)
  {
    hide Leads, Stop, Publish;
    var e1 := Stop(code, e, name);
    StopLeads(code, e, name);
    OperationLeads(code, e1, e1, L.DoRevoke(name), name, "plugin.revoked");
    LeadsTrans(e.loader, e1.loader, Execute(code, e, Revoke(name)).loader);
  }

  lemma RevokeVersionLeads(code: Code, e: Engine, name: string, version: string)
    ensures Leads(e.loader, Execute(code, e, RevokeVersion(name, version)).loader)
  {
    hide Leads, Stop, Publish;
    LeadsRefl(e.loader);
    StopLeads(code, e, name);
    var hit := name in Installed(e) && Installed(e)[name].metadata.version == version;
    var e1 := if hit then Stop(code, e, name) else e;
    OperationLeads(code, e1, e1, L.DoRevokeVersion(name, version), name, "plugin.version_revoked");
    LeadsTrans(e.loader, e1.loader, Execute(code, e, RevokeVersion(name, version)).loader);
  }

  lemma RebootLeads(e: Engine)
    ensures Leads(e.loader, Reboot(e).loader)
  {
    LeadsStep(e.loader, L.Restart);
    assert L.Apply(e.loader, L.Restart).0 == L.Discover(e.loader);
  }

  lemma CommandLeads(code: Code, e: Engine, c: Command)
    requires SafeInstalls(c)
    ensures Leads(e.loader, Execute(code, e, c).loader)
  {
    hide Leads;
    match c
    case Install(package, options) => InstallLeads(code, e, package, options);
    case Grant(name, permissions) =>
      OperationLeads(code, e, Arm(e, name), L.DoGrant(name, permissions), name, "plugin.permissions_granted");
    case EnablePlugin(name, admitted) =>
      LeadsRefl(e.loader);
      OperationLeads(code, e, Arm(e, name), L.DoEnable(name), name, "plugin.enabled");
    case DisablePlugin(name) => RetireLeads(code, e, name, L.Disabled, "plugin.disabled");
    case Quarantine(name) => RetireLeads(code, e, name, L.Quarantined, "plugin.quarantined");
    case Revoke(name) => RevokeLeads(code, e, name);
    case RevokeVersion(name, version) => RevokeVersionLeads(code, e, name, version);
    case Start(name, admitted, launch) => StartLeads(code, e, name, admitted, launch);
    case StopPlugin(name) => StopLeads(code, e, name);
    case Call(name, action, admitted, launch) => CallLeads(code, e, name, action, admitted, launch);
    case PublishEvent(event) => PublishLeads(code, e, event);
    case Restart => RebootLeads(e);
  }

  /** Every run of engine commands acts on the loader as some run of governed operations. */
  lemma {:induction false} EngineRunsAreLoaderRuns(code: Code, e: Engine, commands: seq<Command>)
    requires forall i :: 0 <= i < |commands| ==> SafeInstalls(commands[i])
    ensures Leads(e.loader, ExecuteAll(code, e, commands).loader)
    decreases |commands|
  {
    hide Leads, Execute;
    LeadsRefl(e.loader);
    if commands != [] {
      var f := Execute(code, e, commands[0]);
      CommandLeads(code, e, commands[0]);
      EngineRunsAreLoaderRuns(code, f, commands[1..]);
      LeadsTrans(e.loader, f.loader, ExecuteAll(code, f, commands[1..]).loader);
    }
  }

  /** So, over every run of engine commands, double starts and upgrades of running plugins included:
      grants stay within requests, revoked versions stay out of service and listed, REVOKED is
      permanent, and an enabled plugin has no review outstanding. */
  lemma EngineKeepsLifecycle(code: Code, e: Engine, commands: seq<Command>)
    requires L.GovernedInv(e.loader)
    requires forall i :: 0 <= i < |commands| ==> SafeInstalls(commands[i])
    ensures var m := ExecuteAll(code, e, commands).loader;
            && L.GovernedInv(m)
            && (forall r :: r in e.loader.revoked ==> r in m.revoked)
            && (forall n :: n in e.loader.installed ==> n in m.installed)
            && (forall n :: n in e.loader.installed && e.loader.installed[n].status == L.Revoked ==>
                  m.installed[n].status == L.Revoked)
  {
    EngineRunsAreLoaderRuns(code, e, commands);
    var l, m := e.loader, ExecuteAll(code, e, commands).loader;
    var steps :| AllGoverned(steps) && m == L.Run(l, steps);
    L.RevokedIsPermanent(l, steps);
    L.RunKeepsInv(l, steps);
  }
}
