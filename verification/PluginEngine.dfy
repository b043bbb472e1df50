/** The engine as the object the source mutates.  Every method is proved to compute the corresponding
    function of `EngineModel` on the engine's state, so what is proved of those functions holds of it. */
module PluginEngine {
  import opened Prelude
  import opened PluginEvents
  import opened EngineModel
  import opened EngineInvariants
  import L = PluginLifecycle

  /** What plugin code can do to an engine from inside one call, whatever it publishes and however deep. */
  ghost predicate Contained(e: EngineModel.Engine, f: EngineModel.Engine) {
    && SamePermits(e, f)
    && (Inv(e) ==> Good(e, f))
  }

  lemma DispatchContained(code: Code, e: EngineModel.Engine, p: string, action: string)
    requires p in e.sandboxes
    ensures Contained(e, Dispatch(code, e, p, action).0)
  {
    if Inv(e) { DispatchKeeps(code, e, p, action); }
  }

  lemma PublishContained(code: Code, e: EngineModel.Engine, event: string)
    ensures Contained(e, Publish(code, e, event))
  {
    if Inv(e) { PublishKeeps(code, e, event); }
  }

  lemma StopContained(code: Code, e: EngineModel.Engine, name: string)
    ensures Contained(e, Stop(code, e, name))
  {
    hide CallbacksOk, LoaderOk, Conserved, Counters, Bounded, Agreed, FreeMap, Evolves, Balanced, NoNewHot, Calm;
    if Inv(e) { StopKeeps(code, e, name); }
  }

  lemma StopCloses(code: Code, e: EngineModel.Engine, name: string)
    requires Inv(e)
    ensures var f := Stop(code, e, name); name !in f.sandboxes && name !in f.active && name !in f.callbacks
  {
    hide CallbacksOk, LoaderOk, Conserved, Counters, Bounded, Agreed, FreeMap, Evolves, Balanced, NoNewHot, Calm;
    StopKeeps(code, e, name);
  }

  class Engine {
    const loader: L.PluginLoader
    const bus: EventBus
    var sandboxes: set<string>
    var active: set<string>
    var callbacks: map<string, seq<Subscription>>
    var registered: map<string, GatewayRecord>
    var runtime: map<string, Runtime>
    var nextId: nat
    var log: seq<Mark>
    ghost var depth: nat
    ghost var peak: nat
    ghost var running: multiset<string>

    ghost function State(): EngineModel.Engine
      reads this, loader, bus
    {
      EngineModel.Engine(loader.State(), sandboxes, active, callbacks, registered, runtime, bus.State(), nextId,
                         depth, peak, running, log)
    }

    constructor (loader: L.PluginLoader, bus: EventBus)
      ensures this.loader == loader && this.bus == bus
      ensures State() == EngineModel.Engine(loader.State(), {}, {}, map[], map[], map[], bus.State(), 0, 0, 0, multiset{}, [])
    {
      this.loader, this.bus := loader, bus;
      sandboxes, active, callbacks, registered, runtime, nextId, log := {}, {}, map[], map[], map[], 0, [];
      depth, peak, running := 0, 0, multiset{};
    }

    /** A new process over the plugins directory of the previous one. */
    constructor Restarted(previous: Engine)
      ensures fresh(loader) && fresh(bus)
      ensures State() == Reboot(old(previous.State()))
    {
      var newLoader := new L.PluginLoader(previous.loader.disk, previous.loader.revoked);
      var newBus := new EventBus();
      loader, bus := newLoader, newBus;
      sandboxes, active, callbacks, registered, runtime := {}, {}, map[], map[], map[];
      nextId, log := previous.nextId, previous.log + [Rebooted];
      depth, peak, running := 0, previous.peak, multiset{};
    }

    // ---------- The gateway's records ----------

    method RegisterPlugin(name: string)
      modifies this
      ensures State() == Register(old(State()), name)
    {
      if name in loader.installed {
        var p := loader.installed[name];
        registered := registered[name := GatewayRecord(p.status, p.granted)];
      }
    }

    // ---------- Permits ----------

    method RuntimeStateFor(p: string)
      requires p in loader.installed
      modifies this
      ensures State() == RuntimeFor(old(State()), p)
    {
      var limit := loader.installed[p].metadata.maxConcurrency;
      if p in runtime && runtime[p].limit == limit { return; }
      runtime := runtime[p := Runtime(limit, limit, 0)];
      log := log + [Reset(p)];
    }

    method TakePermit(p: string)
      requires Ready(State(), p) && runtime[p].free > 0
      modifies this
      ensures State() == Acquire(old(State()), p)
    {
      hide FreeMap, Sum, Free;
      runtime := runtime[p := runtime[p].(free := runtime[p].free - 1)];
      log := log + [Launched(p)];
      depth := depth + 1;
      peak := if depth > peak then depth else peak;
      running := running + multiset{p};
    }

    method GivePermit(p: string)
      requires Ready(State(), p)
      modifies this
      ensures State() == Release(old(State()), p)
    {
      runtime := runtime[p := runtime[p].(free := runtime[p].free + 1)];
      depth := if depth > 0 then depth - 1 else 0;
    }

    method SetFailures(p: string, reply: Reply, failures: nat)
      requires Ready(State(), p)
      modifies this
      ensures State() == Complete(old(State()), p, reply, failures)
    {
      runtime := runtime[p := runtime[p].(failures := failures)];
      log := log + [Completed(p, reply)];
      running := running - multiset{p};
    }

    // ---------- Dispatch, events and the circuit breaker ----------

    method ExecutePluginAction(code: Code, p: string, action: string) returns (answer: Answer)
      modifies this, loader, bus
      ensures (State(), answer) == Dispatch(code, old(State()), p, action)
      ensures old(p in sandboxes) ==> Contained(old(State()), State())
      decreases Sum(FreeMap(State())), 0, 0
    {
      hide Contained;
      if p in sandboxes { DispatchContained(code, State(), p, action); }
      if p !in loader.installed || loader.installed[p].status != L.Enabled { return NotEnabled; }
      RuntimeStateFor(p);
      if runtime[p].free == 0 { return LimitExceeded; }
      var script := code(p, action, |log|);
      ghost var before := State();
      TakePermit(p);
      ghost var taken := State();
      RunScriptAndRecord(code, p, script);
      PermitReturned(before, taken, State(), p);
      GivePermit(p);
      answer := Replied(script.reply);
    }

    method RunScriptAndRecord(code: Code, p: string, script: Script)
      requires Ready(State(), p)
      modifies this, loader, bus
      ensures State() == RunAndRecord(code, old(State()), p, script)
      decreases Sum(FreeMap(State())), 8, 0
    {
      RunPublishes(code, p, script.publishes);
      match script.reply {
        case Success => SetFailures(p, Success, 0);
        case Failure => RecordPluginFailure(code, p);
        case Raises => SetFailures(p, Raises, runtime[p].failures);
      }
    }

    method RunPublishes(code: Code, p: string, publishes: seq<string>)
      requires p in loader.installed
      modifies this, loader, bus
      ensures State() == RunScript(code, old(State()), p, publishes)
      decreases Sum(FreeMap(State())), 4, |publishes|
    {
      ghost var e := State();
      var i := 0;
      while i < |publishes|
        invariant 0 <= i <= |publishes|
        invariant SamePermits(e, State()) && p in loader.installed
        invariant RunScript(code, State(), p, publishes[i..]) == RunScript(code, e, p, publishes)
      {
        assert publishes[i..][1..] == publishes[i + 1..];
        var p0 := loader.installed[p];
        if p0.metadata.mode == L.InProcess || (p in registered && registered[p].status == L.Enabled) {
          PublishEvent(code, publishes[i]);
        }
        i := i + 1;
      }
    }

    /** The callbacks are those subscribed when publishing begins. */
    method PublishEvent(code: Code, event: string)
      modifies this, loader, bus
      ensures State() == Publish(code, old(State()), event)
      ensures Contained(old(State()), State())
      decreases Sum(FreeMap(State())), 3, 0
    {
      hide FreeMap, Ready, Deliver, Contained;
      ghost var e := State();
      PublishContained(code, e, event);
      var cbs := (if event in bus.listeners then bus.listeners[event] else []) + bus.wildcard;
      var i := 0;
      while i < |cbs|
        invariant 0 <= i <= |cbs|
        invariant SamePermits(e, State())
        invariant DeliverAll(code, State(), cbs[i..], event) == DeliverAll(code, e, cbs, event)
      {
        assert cbs[i..][1..] == cbs[i + 1..];
        CallBack(code, cbs[i], event);
        i := i + 1;
      }
    }

    method CallBack(code: Code, cb: Callback, event: string)
      modifies this, loader, bus
      ensures State() == Deliver(code, old(State()), cb, event)
      decreases Sum(FreeMap(State())), 1, 0
    {
      if cb.owner.Some? && cb.owner.value in sandboxes {
        var _ := ExecutePluginAction(code, cb.owner.value, event);
      }
    }

    method RecordPluginFailure(code: Code, p: string)
      requires Ready(State(), p)
      modifies this, loader, bus
      ensures State() == RecordFailure(code, old(State()), p)
      decreases Sum(FreeMap(State())), 7, 0
    {
      SetFailures(p, Failure, runtime[p].failures + 1);
      var m := loader.installed[p].metadata;
      if !m.disableOnThreshold { return; }
      if runtime[p].failures < m.failureThreshold { return; }
      var _ := DisablePlugin(code, p);
    }

    method UnregisterEventListeners(name: string)
      modifies this, bus
      ensures State() == Unregistered(old(State()), name)
    {
      if name !in callbacks { return; }
      var subscriptions := callbacks[name];
      callbacks := callbacks - {name};
      var i := 0;
      while i < |subscriptions|
        invariant 0 <= i <= |subscriptions|
        invariant bus.State() == UnsubscribeAll(old(bus.State()), subscriptions[..i])
        invariant State() == old(State()).(bus := bus.State(), callbacks := old(callbacks) - {name})
      {
        assert subscriptions[..i + 1][..i] == subscriptions[..i];
        bus.Remove(subscriptions[i].event, subscriptions[i].callback);
        i := i + 1;
      }
      assert subscriptions[..i] == subscriptions;
    }

    method StopPlugin(code: Code, name: string)
      modifies this, loader, bus
      ensures State() == Stop(code, old(State()), name)
      ensures Contained(old(State()), State())
      ensures old(Inv(State())) ==> name !in sandboxes && name !in active && name !in callbacks
      decreases Sum(FreeMap(State())), 5, 0
    {
      hide Contained, Inv, FreeMap, Ready, Publish, Dispatch;
      StopContained(code, State(), name);
      if Inv(State()) { StopCloses(code, State(), name); }
      UnregisterEventListeners(name);
      if name !in sandboxes { return; }
      sandboxes := sandboxes - {name};
      active := active - {name};
      assert State() == Closed(Unregistered(old(State()), name), name);
      PublishEvent(code, "plugin.stopped");
    }

    method DisablePlugin(code: Code, name: string) returns (ok: bool)
      requires name in loader.installed
      modifies this, loader, bus
      ensures (State(), ok) == Disable(code, old(State()), name)
      decreases Sum(FreeMap(State())), 6, 0
    {
      StopPlugin(code, name);
      ghost var e := State();
      ok := loader.SetStatus(name, L.Disabled);
      if !ok { return; }
      RegisterPlugin(name);
      assert State() == Retired(e, name, L.Disabled).0;
      PublishEvent(code, "plugin.disabled");
    }

    // ---------- Operator commands ----------

    method Announced(code: Code, ghost before: EngineModel.Engine, name: string, event: string)
      requires State() == before.(loader := loader.State())
      modifies this, loader, bus
      ensures State() == Announce(code, before, old(loader.State()), name, event)
    {
      RegisterPlugin(name);
      PublishEvent(code, event);
    }

    method InstallPackage(code: Code, package: L.Package, options: L.InstallOptions)
      modifies this, loader, bus
      ensures State() == Execute(code, old(State()), Install(package, options))
    {
      var ok := loader.InstallPackage(package, options);
      if ok {
        PublishEvent(code, "plugin.installed");
      }
    }

    method GrantPermissions(code: Code, name: string, permissions: Option<seq<L.RawDecl>>)
      modifies this, loader, bus
      ensures State() == Execute(code, old(State()), Grant(name, permissions))
    {
      var ok := loader.Grant(name, permissions);
      if ok {
        log := log + [Armed(name)];
        Announced(code, Arm(old(State()), name), name, "plugin.permissions_granted");
      }
    }

    method Enable(code: Code, name: string, admitted: bool)
      modifies this, loader, bus
      ensures State() == Execute(code, old(State()), EnablePlugin(name, admitted))
    {
      if name in loader.installed && !admitted { return; }
      var ok := loader.Enable(name);
      if ok {
        log := log + [Armed(name)];
        Announced(code, Arm(old(State()), name), name, "plugin.enabled");
      }
    }

    /** `disable_plugin` and `quarantine_plugin`, for any name. */
    method RetirePlugin(code: Code, name: string, target: L.Status, event: string)
      modifies this, loader, bus
      ensures State() == Retire(code, old(State()), name, target, event)
    {
      StopPlugin(code, name);
      ghost var e := State();
      var ok := loader.SetStatus(name, target);
      if ok {
        Announced(code, e, name, event);
      }
    }

    method RevokePlugin(code: Code, name: string)
      modifies this, loader, bus
      ensures State() == Execute(code, old(State()), Revoke(name))
    {
      hide FreeMap, Sum, Stop, Publish, Contained, Inv, L.Inv, L.RevokePlugin;
      StopPlugin(code, name);
      ghost var e := State();
      var ok := loader.Revoke(name);
      if ok {
        Announced(code, e, name, "plugin.revoked");
      }
    }

    method RevokePluginVersion(code: Code, name: string, version: string)
      modifies this, loader, bus
      ensures State() == Execute(code, old(State()), RevokeVersion(name, version))
    {
      hide FreeMap, Sum, Stop, Publish, Contained, Inv, L.Inv, L.RevokeVersion;
      if name in loader.installed && loader.installed[name].metadata.version == version {
        StopPlugin(code, name);
      }
      ghost var e := State();
      var ok := loader.RevokePluginVersion(name, version);
      if ok {
        Announced(code, e, name, "plugin.version_revoked");
      }
    }

    /** One new callback for each event the plugin declares. */
    method RegisterEventListeners(name: string, events: seq<string>)
      modifies this, bus
      ensures var subscriptions := Subscriptions(name, events, old(nextId));
              State() == old(State()).(callbacks := old(callbacks)[name := subscriptions],
                                       bus := SubscribeAll(old(bus.State()), subscriptions),
                                       nextId := old(nextId) + |events|)
    {
      ghost var all := Subscriptions(name, events, nextId);
      var added: seq<Subscription> := [];
      var i := 0;
      while i < |events|
        invariant 0 <= i <= |events| && added == all[..i]
        invariant State() == old(State()).(bus := SubscribeAll(old(bus.State()), added), nextId := old(nextId) + i)
      {
        var callback := Callback(nextId, Some(name));
        nextId := nextId + 1;
        bus.Add(events[i], callback);
        added := added + [Subscription(events[i], callback)];
        assert added[..i] == all[..i];
        i := i + 1;
      }
      assert added == all;
      callbacks := callbacks[name := added];
    }

    method PutInService(code: Code, name: string)
      requires name in loader.installed
      modifies this, loader, bus
      ensures State() == Publish(code, Started(old(State()), name), "plugin.started")
    {
      RegisterPlugin(name);
      sandboxes := sandboxes + {name};
      active := active + {name};
      RegisterEventListeners(name, loader.installed[name].metadata.events);
      assert State() == Started(old(State()), name);
      PublishEvent(code, "plugin.started");
    }

    method Start(code: Code, name: string, admitted: bool, launch: Launch) returns (ok: bool)
      modifies this, loader, bus
      ensures (State(), ok) == StartPlugin(code, old(State()), name, admitted, launch)
    {
      var found := loader.Find(name);
      if !found || loader.installed[name].status != L.Enabled || !admitted { return false; }
      match launch {
        case ScanFails => ok := false;
        case LaunchFails =>
          RegisterPlugin(name);
          ok := false;
        case Launches =>
          PutInService(code, name);
          ok := true;
      }
    }

    method Call(code: Code, name: string, action: string, admitted: bool, launch: Launch)
      modifies this, loader, bus
      ensures State() == CallTool(code, old(State()), name, action, admitted, launch)
    {
      if name !in sandboxes {
        var ok := Start(code, name, admitted, launch);
        if !ok { return; }
      }
      if name in sandboxes {
        var _ := ExecutePluginAction(code, name, action);
      }
    }
  }
}
