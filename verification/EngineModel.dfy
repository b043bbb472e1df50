/** The engine's state and operations as functions: the dispatcher that takes a permit, runs plugin
    code and records the outcome; the events that re-enter it; and the operator commands around it.

    Plugin code is an arbitrary function `code`: each time a plugin is run it is asked, with the
    plugin, the action and the history so far, for the events it publishes and how it ends.  The
    measure of all recursion is the sum of the free permits. */
module EngineModel {
  import opened Prelude
  import opened PluginEvents
  import L = PluginLifecycle

  // ---------- State ----------

  /** The runtime state of one plugin: its semaphore, created with `limit` permits, and the counter. */
  datatype Runtime = Runtime(limit: nat, free: nat, failures: nat)

  /** What the gateway knows of a plugin. */
  datatype GatewayRecord = GatewayRecord(status: L.Status, granted: seq<L.Decl>)

  datatype Reply = Success | Failure | Raises

  datatype Script = Script(publishes: seq<string>, reply: Reply)

  type Code = (string, string, nat) -> Script

  /** What happened, in order: runners started, runners completed, runtime states created, the
      operator's successful grants and enables, and restarts of the whole process. */
  datatype Mark =
    | Launched(plugin: string)
    | Completed(plugin: string, reply: Reply)
    | Reset(plugin: string)
    | Armed(plugin: string)
    | Rebooted

  datatype Engine = Engine(
    loader: L.Loader,
    sandboxes: set<string>,
    active: set<string>,
    callbacks: map<string, seq<Subscription>>,
    registered: map<string, GatewayRecord>,
    runtime: map<string, Runtime>,
    bus: Bus,
    nextId: nat,
    // history, not looked at by the operations except as the argument of `code`
    depth: nat,
    peak: nat,
    running: multiset<string>,
    log: seq<Mark>)

  function Installed(e: Engine): map<string, L.InstalledPlugin> {
    e.loader.installed
  }

  predicate IsEnabled(e: Engine, p: string) {
    p in Installed(e) && Installed(e)[p].status == L.Enabled
  }

  function RecordOf(p: L.InstalledPlugin): GatewayRecord {
    GatewayRecord(p.status, p.granted)
  }

  function Register(e: Engine, p: string): Engine {
    if p in Installed(e) then e.(registered := e.registered[p := RecordOf(Installed(e)[p])]) else e
  }

  // ---------- Permits ----------

  /** Whether the plugin's runtime state is the one its next dispatch will use. */
  predicate Ready(e: Engine, p: string) {
    && p in Installed(e)
    && p in e.runtime
    && e.runtime[p].limit == Installed(e)[p].metadata.maxConcurrency
  }

  function Free(e: Engine, p: string): nat
    requires p in Installed(e)
  {
    if Ready(e, p) then e.runtime[p].free else Installed(e)[p].metadata.maxConcurrency
  }

  function FreeMap(e: Engine): map<string, nat> {
    map p | p in Installed(e) :: Free(e, p)
  }

  ghost function Sum(m: map<string, nat>): nat {
    if m == map[] then 0
    else
      var k :| k in m;
      m[k] + Sum(m - {k})
  }

  lemma {:induction false} SumSplit(m: map<string, nat>, k: string)
    requires k in m
    ensures Sum(m) == m[k] + Sum(m - {k})
    decreases |m|
  {
    var j :| j in m && Sum(m) == m[j] + Sum(m - {j});
    if j != k {
      SumSplit(m - {j}, k);
      SumSplit(m - {k}, j);
      assert m - {j} - {k} == m - {k} - {j};
    }
  }

  lemma SumUpdate(m: map<string, nat>, k: string, v: nat)
    requires k in m
    ensures Sum(m[k := v]) == Sum(m) - m[k] + v
  {
    SumSplit(m, k);
    SumSplit(m[k := v], k);
    assert m[k := v] - {k} == m - {k};
  }

  /** The same plugins with the same metadata and the same free permits. */
  ghost predicate SamePermits(e: Engine, f: Engine) {
    && Installed(f).Keys == Installed(e).Keys
    && (forall p :: p in Installed(e) ==> Installed(f)[p].metadata == Installed(e)[p].metadata)
    && FreeMap(f) == FreeMap(e)
    && (forall p :: Ready(e, p) ==> Ready(f, p))
  }

  /** `_runtime_state_for`: a new semaphore and counter unless the limit is unchanged. */
  function RuntimeFor(e: Engine, p: string): (f: Engine)
    requires p in Installed(e)
    ensures SamePermits(e, f) && Ready(f, p)
  {
    if Ready(e, p) then e
    else
      var limit := Installed(e)[p].metadata.maxConcurrency;
      e.(runtime := e.runtime[p := Runtime(limit, limit, 0)], log := e.log + [Reset(p)])
  }

  function Acquire(e: Engine, p: string): (f: Engine)
    requires Ready(e, p) && e.runtime[p].free > 0
    ensures FreeMap(f) == FreeMap(e)[p := Free(e, p) - 1]
    ensures Sum(FreeMap(f)) == Sum(FreeMap(e)) - 1
    ensures forall q :: Ready(e, q) <==> Ready(f, q)
  {
    var r := e.runtime[p];
    var taken := e.(runtime := e.runtime[p := r.(free := r.free - 1)],
                    depth := e.depth + 1,
                    peak := if e.depth + 1 > e.peak then e.depth + 1 else e.peak,
                    running := e.running + multiset{p},
                    log := e.log + [Launched(p)]);
    PermitTaken(e, taken, p);
    taken
  }

  lemma PermitTaken(e: Engine, f: Engine, p: string)
    requires Ready(e, p) && e.runtime[p].free > 0
    requires f.loader == e.loader && f.runtime == e.runtime[p := e.runtime[p].(free := e.runtime[p].free - 1)]
    ensures FreeMap(f) == FreeMap(e)[p := Free(e, p) - 1]
    ensures Sum(FreeMap(f)) == Sum(FreeMap(e)) - 1
    ensures forall q :: Ready(e, q) <==> Ready(f, q)
  {
    hide Sum;
    SumUpdate(FreeMap(e), p, Free(e, p) - 1);
  }

  function Release(e: Engine, p: string): (f: Engine)
    requires Ready(e, p)
    ensures FreeMap(f) == FreeMap(e)[p := Free(e, p) + 1]
    ensures forall q :: Ready(e, q) <==> Ready(f, q)
  {
    var r := e.runtime[p];
    e.(runtime := e.runtime[p := r.(free := r.free + 1)], depth := if e.depth > 0 then e.depth - 1 else 0)
  }

  /** The runner is over: the outcome enters the history. */
  function Complete(e: Engine, p: string, reply: Reply, failures: nat): (f: Engine)
    requires Ready(e, p)
    ensures SamePermits(e, f)
  {
    e.(runtime := e.runtime[p := e.runtime[p].(failures := failures)],
       running := e.running - multiset{p},
       log := e.log + [Completed(p, reply)])
  }

  // ---------- Dispatch, events and the circuit breaker ----------

  datatype Answer = NotEnabled | LimitExceeded | Replied(reply: Reply)

  /** `_execute_plugin_action`: check the status, take a permit without waiting, run, record, and give
      the permit back whatever happened. */
  function Dispatch(code: Code, e: Engine, p: string, action: string): (r: (Engine, Answer))
    ensures SamePermits(e, r.0)
    decreases Sum(FreeMap(e)), 0, 0
  {
    if !IsEnabled(e, p) then (e, NotEnabled)
    else
      var e1 := RuntimeFor(e, p);
      if e1.runtime[p].free == 0 then (e1, LimitExceeded)
      else
        var script := code(p, action, |e1.log|);
        var e2 := RunAndRecord(code, Acquire(e1, p), p, script);
        PermitReturned(e1, Acquire(e1, p), e2, p);
        (Release(e2, p), Replied(script.reply))
  }

  /** Giving back the permit that was taken restores every count. */
  lemma PermitReturned(e: Engine, taken: Engine, done: Engine, p: string)
    requires Ready(e, p) && e.runtime[p].free > 0
    requires taken == Acquire(e, p)
    requires SamePermits(taken, done)
    ensures Ready(done, p) && SamePermits(e, Release(done, p))
  {
    assert Ready(taken, p);
    assert FreeMap(done)[p] == FreeMap(taken)[p] == Free(e, p) - 1;
    assert FreeMap(e)[p := Free(e, p)] == FreeMap(e);
    assert FreeMap(Release(done, p)) == FreeMap(e)[p := Free(e, p)];
  }

  /** The plugin's code runs, holding its permit, and its outcome is recorded. */
  function RunAndRecord(code: Code, e: Engine, p: string, script: Script): (r: Engine)
    requires Ready(e, p)
    ensures SamePermits(e, r)
    decreases Sum(FreeMap(e)), 8, 0
  {
    var e1 := RunScript(code, e, p, script.publishes);
    match script.reply
    case Success => Complete(e1, p, Success, 0)
    case Failure => RecordFailure(code, e1, p)
    case Raises => Complete(e1, p, Raises, e1.runtime[p].failures)
  }

  /** A plugin's callback answers "not active" without dispatching when its sandbox is gone. */
  function Deliver(code: Code, e: Engine, cb: Callback, event: string): (r: Engine)
    ensures SamePermits(e, r)
    decreases Sum(FreeMap(e)), 1, 0
  {
    if cb.owner.None? || cb.owner.value !in e.sandboxes then e
    else Dispatch(code, e, cb.owner.value, event).0
  }

  function DeliverAll(code: Code, e: Engine, cbs: seq<Callback>, event: string): (r: Engine)
    ensures SamePermits(e, r)
    decreases Sum(FreeMap(e)), 2, |cbs|
  {
    if cbs == [] then e
    else DeliverAll(code, Deliver(code, e, cbs[0], event), cbs[1..], event)
  }

  function Publish(code: Code, e: Engine, event: string): (r: Engine)
    ensures SamePermits(e, r)
    decreases Sum(FreeMap(e)), 3, 0
  {
    DeliverAll(code, e, Snapshot(e.bus, event), event)
  }

  /** A sub-process plugin publishes through the gateway, which refuses unless the plugin is enabled;
      an in-process plugin reaches the bus directly. */
  predicate MayPublish(e: Engine, p: string)
    requires p in Installed(e)
  {
    Installed(e)[p].metadata.mode == L.InProcess || (p in e.registered && e.registered[p].status == L.Enabled)
  }

  function RunScript(code: Code, e: Engine, p: string, publishes: seq<string>): (r: Engine)
    requires p in Installed(e)
    ensures SamePermits(e, r)
    decreases Sum(FreeMap(e)), 4, |publishes|
  {
    if publishes == [] then e
    else
      var next := if MayPublish(e, p) then Publish(code, e, publishes[0]) else e;
      RunScript(code, next, p, publishes[1..])
  }

  function Unregistered(e: Engine, p: string): (r: Engine)
    ensures SamePermits(e, r)
  {
    if p in e.callbacks then
      e.(bus := UnsubscribeAll(e.bus, e.callbacks[p]), callbacks := e.callbacks - {p})
    else e
  }

  function Closed(e: Engine, p: string): (r: Engine)
    ensures SamePermits(e, r)
  {
    e.(sandboxes := e.sandboxes - {p}, active := e.active - {p})
  }

  /** `stop_plugin`. */
  function Stop(code: Code, e: Engine, p: string): (r: Engine)
    ensures SamePermits(e, r)
    decreases Sum(FreeMap(e)), 5, 0
  {
    var e1 := Unregistered(e, p);
    if p !in e.sandboxes then e1
    else Publish(code, Closed(e1, p), "plugin.stopped")
  }

  /** The state after a status change through the loader and its report to the gateway. */
  function Retired(e: Engine, p: string, target: L.Status): (r: (Engine, bool))
    requires p in Installed(e)
    ensures SamePermits(e, r.0)
  {
    var (loader, ok) := L.TransitionStatus(e.loader, p, target);
    if ok then (Register(e.(loader := loader), p), true) else (e.(loader := loader), false)
  }

  /** `disable_plugin`, for an installed plugin. */
  function Disable(code: Code, e: Engine, p: string): (r: (Engine, bool))
    requires p in Installed(e)
    ensures SamePermits(e, r.0)
    decreases Sum(FreeMap(e)), 6, 0
  {
    var (e1, ok) := Retired(Stop(code, e, p), p, L.Disabled);
    if ok then (Publish(code, e1, "plugin.disabled"), true) else (e1, false)
  }

  predicate Trips(e: Engine, p: string)
    requires Ready(e, p)
  {
    var m := Installed(e)[p].metadata;
    m.disableOnThreshold && e.runtime[p].failures >= m.failureThreshold
  }

  /** Counts the failure and, at the threshold, opens the circuit. */
  function RecordFailure(code: Code, e: Engine, p: string): (r: Engine)
    requires Ready(e, p)
    ensures SamePermits(e, r)
    decreases Sum(FreeMap(e)), 7, 0
  {
    var e1 := Complete(e, p, Failure, e.runtime[p].failures + 1);
    if Trips(e1, p) then Disable(code, e1, p).0 else e1
  }

  // ---------- Operator commands ----------

  datatype Launch = ScanFails | LaunchFails | Launches

  datatype Command =
    | Install(package: L.Package, options: L.InstallOptions)
    | Grant(name: string, permissions: Option<seq<L.RawDecl>>)
    | EnablePlugin(name: string, admitted: bool)
    | DisablePlugin(name: string)
    | Quarantine(name: string)
    | Revoke(name: string)
    | RevokeVersion(name: string, version: string)
    | Start(name: string, admitted: bool, launch: Launch)
    | StopPlugin(name: string)
    | Call(name: string, action: string, admitted: bool, launch: Launch)
    | PublishEvent(event: string)
    | Restart

  function Arm(e: Engine, p: string): Engine {
    e.(log := e.log + [Armed(p)])
  }

  /** A successful loader operation is reported to the gateway and announced. */
  function Announce(code: Code, e: Engine, loader: L.Loader, name: string, event: string): Engine {
    Publish(code, Register(e.(loader := loader), name), event)
  }

  function Retire(code: Code, e: Engine, name: string, target: L.Status, event: string): Engine {
    var e1 := Stop(code, e, name);
    var (loader, ok) := L.TransitionStatus(e1.loader, name, target);
    if ok then Announce(code, e1, loader, name, event) else e1.(loader := loader)
  }

  function Subscriptions(name: string, events: seq<string>, firstId: nat): (r: seq<Subscription>)
    ensures |r| == |events|
    ensures forall i :: 0 <= i < |r| ==> r[i] == Subscription(events[i], Callback(firstId + i, Some(name)))
  {
    seq(|events|, i requires 0 <= i < |events| => Subscription(events[i], Callback(firstId + i, Some(name))))
  }

  /** The tables after a successful start, before it is announced. */
  function Started(e: Engine, name: string): Engine
    requires name in Installed(e)
  {
    var events := Installed(e)[name].metadata.events;
    var subscriptions := Subscriptions(name, events, e.nextId);
    Register(e, name).(
      sandboxes := e.sandboxes + {name},
      active := e.active + {name},
      callbacks := e.callbacks[name := subscriptions],
      bus := SubscribeAll(e.bus, subscriptions),
      nextId := e.nextId + |events|)
  }

  /** `start_plugin`; false where it raises. */
  function StartPlugin(code: Code, e0: Engine, name: string, admitted: bool, launch: Launch): (Engine, bool) {
    var e := e0.(loader := L.Located(e0.loader, name));
    if !L.Found(e0.loader, name) || !IsEnabled(e, name) || !admitted then (e, false)
    else
      match launch
      case ScanFails => (e, false)
      case LaunchFails => (Register(e, name), false)
      case Launches => (Publish(code, Started(e, name), "plugin.started"), true)
  }

  function CallTool(code: Code, e: Engine, name: string, action: string, admitted: bool, launch: Launch): Engine {
    var (e1, ok) := if name in e.sandboxes then (e, true) else StartPlugin(code, e, name, admitted, launch);
    if ok && name in e1.sandboxes then Dispatch(code, e1, name, action).0 else e1
  }

  /** A new process over the same plugins directory: only the disk and the history are left.  Where the
      discovery raises there is no new engine, but the plugins read until then. */
  function Reboot(e: Engine): Engine {
    Engine(L.Discover(e.loader), {}, {}, map[], map[], map[], Bus(map[], []), e.nextId, 0, e.peak, multiset{},
           e.log + [Rebooted])
  }

  function Execute(code: Code, e: Engine, c: Command): Engine {
    match c
    case Install(package, options) =>
      var (loader, ok) := L.Install(e.loader, package, options);
      var e1 := e.(loader := loader);
      if ok then Publish(code, e1, "plugin.installed") else e1
    case Grant(name, permissions) =>
      var (loader, ok) := L.GrantPermissions(e.loader, name, permissions);
      if ok then Announce(code, Arm(e, name), loader, name, "plugin.permissions_granted") else e.(loader := loader)
    case EnablePlugin(name, admitted) =>
      if name in Installed(e) && !admitted then e
      else
        var (loader, ok) := L.EnablePlugin(e.loader, name);
        if ok then Announce(code, Arm(e, name), loader, name, "plugin.enabled") else e.(loader := loader)
    case DisablePlugin(name) => Retire(code, e, name, L.Disabled, "plugin.disabled")
    case Quarantine(name) => Retire(code, e, name, L.Quarantined, "plugin.quarantined")
    case Revoke(name) =>
      var e1 := Stop(code, e, name);
      var (loader, ok) := L.RevokePlugin(e1.loader, name);
      if ok then Announce(code, e1, loader, name, "plugin.revoked") else e1.(loader := loader)
    case RevokeVersion(name, version) =>
      var hit := name in Installed(e) && Installed(e)[name].metadata.version == version;
      var e1 := if hit then Stop(code, e, name) else e;
      var (loader, ok) := L.RevokeVersion(e1.loader, name, version);
      if ok then Announce(code, e1, loader, name, "plugin.version_revoked") else e1.(loader := loader)
    case Start(name, admitted, launch) => StartPlugin(code, e, name, admitted, launch).0
    case StopPlugin(name) => Stop(code, e, name)
    case Call(name, action, admitted, launch) => CallTool(code, e, name, action, admitted, launch)
    case PublishEvent(event) => Publish(code, e, event)
    case Restart => Reboot(e)
  }

  function ExecuteAll(code: Code, e: Engine, commands: seq<Command>): Engine
    decreases |commands|
  {
    if commands == [] then e else ExecuteAll(code, Execute(code, e, commands[0]), commands[1..])
  }

  // ---------- Revoked plugins ----------

  ghost predicate IsRevoked(e: Engine, q: string) {
    q in Installed(e) && Installed(e)[q].status == L.Revoked
  }

  /** From `e` to `f` a revoked plugin stays revoked and is not launched. */
  ghost predicate Fenced(e: Engine, f: Engine, q: string) {
    && e.log <= f.log
    && (IsRevoked(e, q) ==>
          && IsRevoked(f, q)
          && forall i :: |e.log| <= i < |f.log| ==> f.log[i] != Launched(q))
  }

  lemma FencedTrans(e: Engine, f: Engine, g: Engine, q: string)
    requires Fenced(e, f, q) && Fenced(f, g, q)
    ensures Fenced(e, g, q)
  {
    forall i | IsRevoked(e, q) && |e.log| <= i < |g.log| ensures g.log[i] != Launched(q) {
      if i < |f.log| {
        assert g.log[i] == f.log[i];
      }
    }
  }
}
