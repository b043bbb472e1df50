/** What a start and a stop leave on the event bus, whatever plugin code does in between: a callback that
    the callback table has forgotten stays on the bus. */
module EngineListeners {
  import opened Prelude
  import opened PluginEvents
  import opened EngineModel
  import opened EngineInvariants
  import opened EngineRuns
  import L = PluginLifecycle

  /** On the bus, and in no plugin's entry of the callback table. */
  ghost predicate Orphaned(e: Engine, s: Subscription) {
    && s.callback in Listeners(e.bus, s.event)
    && (forall p :: p in e.callbacks ==> s !in e.callbacks[p])
  }

  /** Nothing is started from `e` to `f`, and an orphan stays. */
  ghost predicate Leaves(e: Engine, f: Engine, s: Subscription) {
    f.sandboxes <= e.sandboxes && (Orphaned(e, s) ==> Orphaned(f, s))
  }

  ghost predicate SameSubscribers(e: Engine, f: Engine) {
    f.bus == e.bus && f.callbacks == e.callbacks && f.sandboxes == e.sandboxes
  }

  lemma SameLeaves(e: Engine, f: Engine, s: Subscription)
    requires SameSubscribers(e, f)
    ensures Leaves(e, f, s)
  {
  }

  lemma LeavesTrans(e: Engine, f: Engine, g: Engine, s: Subscription)
    requires Leaves(e, f, s) && Leaves(f, g, s)
    ensures Leaves(e, g, s)
  {
  }

  lemma {:induction false} OthersStay(callbacks: seq<Callback>, cb: Callback, gone: Callback)
    requires cb in callbacks && cb != gone
    ensures cb in RemoveFirst(callbacks, gone)
  {
    if callbacks[0] != gone && callbacks[0] != cb {
      OthersStay(callbacks[1..], cb, gone);
    }
  }

  lemma {:induction false} UnsubscribingOthers(b: Bus, subscriptions: seq<Subscription>, s: Subscription)
    requires s !in subscriptions && s.callback in Listeners(b, s.event)
    ensures s.callback in Listeners(UnsubscribeAll(b, subscriptions), s.event)
  {
    if subscriptions != [] {
      var front, last := subscriptions[..|subscriptions| - 1], subscriptions[|subscriptions| - 1];
      UnsubscribingOthers(b, front, s);
      var c := UnsubscribeAll(b, front);
      if last.event == s.event && last.callback in Listeners(c, s.event) {
        OthersStay(Listeners(c, s.event), s.callback, last.callback);
      }
    }
  }

  // ---------- Below the operator ----------

  lemma UnregisteredLeaves(e: Engine, p: string, s: Subscription)
    ensures Leaves(e, Unregistered(e, p), s) && Leaves(e, Closed(Unregistered(e, p), p), s)
  {
    if p in e.callbacks && Orphaned(e, s) {
      UnsubscribingOthers(e.bus, e.callbacks[p], s);
    }
  }

  lemma DispatchRuns(code: Code, e: Engine, p: string, action: string)
    requires IsEnabled(e, p) && RuntimeFor(e, p).runtime[p].free > 0
    ensures var e1 := RuntimeFor(e, p);
            var taken := Acquire(e1, p);
            && Ready(taken, p)
            && Sum(FreeMap(taken)) < Sum(FreeMap(e))
            && SameSubscribers(e, taken)
            && SameSubscribers(RunAndRecord(code, taken, p, code(p, action, |e1.log|)), Dispatch(code, e, p, action).0)
  {
    var e1 := RuntimeFor(e, p);
    var taken := Acquire(e1, p);
    assert FreeMap(e1) == FreeMap(e);
    PermitReturned(e1, taken, RunAndRecord(code, taken, p, code(p, action, |e1.log|)), p);
  }

  lemma {:induction false} DispatchLeaves(code: Code, e: Engine, p: string, action: string, s: Subscription)
    ensures Leaves(e, Dispatch(code, e, p, action).0, s)
    decreases Sum(FreeMap(e)), 0, 0
  {
    if IsEnabled(e, p) {
      var e1 := RuntimeFor(e, p);
      if e1.runtime[p].free > 0 {
        DispatchRuns(code, e, p, action);
        var taken, script := Acquire(e1, p), code(p, action, |e1.log|);
        hide FreeMap, Dispatch, Ready, RunAndRecord, Acquire, Leaves, SameSubscribers;
        RunAndRecordLeaves(code, taken, p, script, s);
        SameLeaves(e, taken, s);
        SameLeaves(RunAndRecord(code, taken, p, script), Dispatch(code, e, p, action).0, s);
        LeavesTrans(e, taken, RunAndRecord(code, taken, p, script), s);
        LeavesTrans(e, RunAndRecord(code, taken, p, script), Dispatch(code, e, p, action).0, s);
        return;
      }
    }
    SameLeaves(e, Dispatch(code, e, p, action).0, s);
  }

  lemma {:induction false} RunAndRecordLeaves(code: Code, e: Engine, p: string, script: Script, s: Subscription)
    requires Ready(e, p)
    ensures Leaves(e, RunAndRecord(code, e, p, script), s)
    decreases Sum(FreeMap(e)), 8, 0
  {
    hide RunScript, RecordFailure, FreeMap;
    RunScriptLeaves(code, e, p, script.publishes, s);
    if script.reply == Failure {
      RecordFailureLeaves(code, RunScript(code, e, p, script.publishes), p, s);
    }
  }

  lemma {:induction false} DeliverLeaves(code: Code, e: Engine, cb: Callback, event: string, s: Subscription)
    ensures Leaves(e, Deliver(code, e, cb, event), s)
    decreases Sum(FreeMap(e)), 1, 0
  {
    if cb.owner.Some? {
      DispatchLeaves(code, e, cb.owner.value, event, s);
    }
  }

  lemma {:induction false} DeliverAllLeaves(code: Code, e: Engine, cbs: seq<Callback>, event: string, s: Subscription)
    ensures Leaves(e, DeliverAll(code, e, cbs, event), s)
    decreases Sum(FreeMap(e)), 2, |cbs|
  {
    hide Orphaned;
    if cbs != [] {
      DeliverLeaves(code, e, cbs[0], event, s);
      DeliverAllLeaves(code, Deliver(code, e, cbs[0], event), cbs[1..], event, s);
    }
  }

  lemma {:induction false} PublishLeaves(code: Code, e: Engine, event: string, s: Subscription)
    ensures Leaves(e, Publish(code, e, event), s)
    decreases Sum(FreeMap(e)), 3, 0
  {
    DeliverAllLeaves(code, e, Snapshot(e.bus, event), event, s);
  }

  lemma {:induction false} RunScriptLeaves(code: Code, e: Engine, p: string, publishes: seq<string>, s: Subscription)
    requires p in Installed(e)
    ensures Leaves(e, RunScript(code, e, p, publishes), s)
    decreases Sum(FreeMap(e)), 4, |publishes|
  {
    hide Orphaned;
    if publishes != [] {
      var f := if MayPublish(e, p) then Publish(code, e, publishes[0]) else e;
      if MayPublish(e, p) {
        PublishLeaves(code, e, publishes[0], s);
      }
      RunScriptLeaves(code, f, p, publishes[1..], s);
    }
  }

  lemma {:induction false} StopLeaves(code: Code, e: Engine, p: string, s: Subscription)
    ensures Leaves(e, Stop(code, e, p), s) && p !in Stop(code, e, p).sandboxes
    decreases Sum(FreeMap(e)), 5, 0
  {
    UnregisteredLeaves(e, p, s);
    hide Orphaned;
    if p in e.sandboxes {
      PublishLeaves(code, Closed(Unregistered(e, p), p), "plugin.stopped", s);
    }
  }

  lemma {:induction false} DisableLeaves(code: Code, e: Engine, p: string, s: Subscription)
    requires p in Installed(e)
    ensures Leaves(e, Disable(code, e, p).0, s)
    decreases Sum(FreeMap(e)), 6, 0
  {
    hide Leaves, SameSubscribers, Stop, Publish, Retired, FreeMap;
    var e1 := Stop(code, e, p);
    var e2 := Retired(e1, p, L.Disabled).0;
    StopLeaves(code, e, p, s);
    RetiredSubscribers(e1, p);
    SameLeaves(e1, e2, s);
    PublishLeaves(code, e2, "plugin.disabled", s);
    LeavesTrans(e, e1, e2, s);
    LeavesTrans(e, e2, Publish(code, e2, "plugin.disabled"), s);
  }

  lemma RetiredSubscribers(e: Engine, p: string)
    requires p in Installed(e)
    ensures SameSubscribers(e, Retired(e, p, L.Disabled).0)
  {
    hide L.TransitionStatus;
  }

  lemma {:induction false} RecordFailureLeaves(code: Code, e: Engine, p: string, s: Subscription)
    requires Ready(e, p)
    ensures Leaves(e, RecordFailure(code, e, p), s)
    decreases Sum(FreeMap(e)), 7, 0
  {
    hide FreeMap, Disable, Stop, Publish, Dispatch;
    var e1 := Complete(e, p, Failure, e.runtime[p].failures + 1);
    if Trips(e1, p) {
      DisableLeaves(code, e1, p, s);
    }
  }

  // ---------- A start and a stop ----------

  ghost function StartThenStop(code: Code, e: Engine, n: string): Engine {
    Stop(code, StartPlugin(code, e, n, true, Launches).0, n)
  }

  /** Every listener list is, in order, what it was less the callbacks of plugins that are closed now. */
  ghost predicate Restored(e: Engine, g: Engine) {
    forall ev :: Listeners(g.bus, ev) == Live(Listeners(e.bus, ev), g.sandboxes)
  }

  /** The plugin has a callback on the bus. */
  ghost predicate Listens(e: Engine, n: string) {
    exists ev, cb :: cb in Listeners(e.bus, ev) && cb.owner == Some(n)
  }

  lemma {:induction false} UnsubscribingAbsent(b: Bus, subscriptions: seq<Subscription>)
    requires forall s :: s in subscriptions ==> s.callback !in Listeners(b, s.event)
    ensures UnsubscribeAll(b, subscriptions) == b
  {
    if subscriptions != [] {
      UnsubscribingAbsent(b, subscriptions[..|subscriptions| - 1]);
    }
  }

  lemma SilentlyClosed(e: Engine, n: string)
    requires CallbacksOk(e) && !Listens(e, n)
    ensures Closed(Unregistered(e, n), n) ==
              e.(sandboxes := e.sandboxes - {n}, active := e.active - {n}, callbacks := e.callbacks - {n})
  {
    forall s | n in e.callbacks && s in e.callbacks[n] ensures s.callback !in Listeners(e.bus, s.event) {
      assert s.callback.owner == Some(n);
    }
    hide CallbacksOk, Listens;
    if n in e.callbacks { UnsubscribingAbsent(e.bus, e.callbacks[n]); }
  }

  lemma ClosedQuiet(e: Engine, n: string)
    requires Quiet(e) && n in e.sandboxes
    ensures var f := Closed(Unregistered(e, n), n); Quiet(f) && n !in f.sandboxes
  {
    hide InvBut, Inv, Hot, Idle, Keeps, Evolves;
    InvBarely(e, n);
    CloseStep(e, n);
    QuietAfter(e, Closed(Unregistered(e, n), n));
    KeepsQuiet(e, Closed(Unregistered(e, n), n));
  }

  lemma StartedAgain(e: Engine, e0: Engine, n: string)
    requires IsEnabled(e, n) && n in e.sandboxes && n in e.active
    requires e0 == e.(sandboxes := e.sandboxes - {n}, active := e.active - {n}, callbacks := e.callbacks - {n})
    ensures Started(e0, n) == Started(e, n)
  {
    var subscriptions := Subscriptions(n, Installed(e)[n].metadata.events, e.nextId);
    assert e0.callbacks[n := subscriptions] == e.callbacks[n := subscriptions];
    assert e0.sandboxes + {n} == e.sandboxes + {n} && e0.active + {n} == e.active + {n};
  }

  /** Starting a running plugin that does not listen is like starting it stopped. */
  lemma StartedSilently(e: Engine, n: string)
    requires Quiet(e) && IsEnabled(e, n) && n in e.sandboxes && !Listens(e, n)
    ensures var e0 := Closed(Unregistered(e, n), n);
            Quiet(e0) && IsEnabled(e0, n) && n !in e0.sandboxes && e0.bus == e.bus && Started(e0, n) == Started(e, n)
  {
    ClosedQuiet(e, n);
    InvParts(e);
    SilentlyClosed(e, n);
    hide Quiet, CallbacksOk, Listens, Started, LoaderOk;
    StartedAgain(e, Closed(Unregistered(e, n), n), n);
  }

  /** What a second start leaves behind: callbacks of the first, which no table knows. */
  lemma SecondStartOrphans(e: Engine, n: string, ev: string, cb: Callback)
    requires CallbacksOk(e) && n in Installed(e) && cb in Listeners(e.bus, ev) && cb.owner == Some(n)
    ensures Orphaned(Started(e, n), Subscription(ev, cb))
  {
    StartedLists(e, n, ev);
    assert ListOk(e, ev, Listeners(e.bus, ev));
    var t := Started(e, n);
    forall p | p in t.callbacks ensures Subscription(ev, cb) !in t.callbacks[p] {
      if p != n {
        assert forall s :: s in e.callbacks[p] ==> s.callback.owner == Some(p);
      }
    }
  }

  /** A start and a stop of an enabled plugin, with all the events they publish, give the listener lists
      back exactly if no callback of the plugin was on the bus before: never after a second start of a
      plugin that listens. */
  lemma StartStopRestoresIff(code: Code, e: Engine, n: string)
    requires Quiet(e) && IsEnabled(e, n)
    ensures n in e.sandboxes || !Listens(e, n)
    ensures Restored(e, StartThenStop(code, e, n)) <==> !Listens(e, n)
  {
    hide InvBut, Inv, Hot, Idle, LoaderOk, Agreed, Conserved, Counters, Bounded, Listeners, Live, Started, Publish, Stop;
    InvParts(e);
    var g := StartThenStop(code, e, n);
    var f := StartPlugin(code, e, n, true, Launches).0;
    assert f == Publish(code, Started(e, n), "plugin.started") && g == Stop(code, f, n);
    if n !in e.sandboxes {
      forall ev, cb | cb in Listeners(e.bus, ev) ensures cb.owner != Some(n) {
        assert ListOk(e, ev, Listeners(e.bus, ev));
      }
      forall ev ensures Listeners(g.bus, ev) == Live(Listeners(e.bus, ev), g.sandboxes) {
        StartStopRestores(code, e, n, ev);
      }
    } else if Listens(e, n) {
      var ev, cb :| cb in Listeners(e.bus, ev) && cb.owner == Some(n);
      var s := Subscription(ev, cb);
      SecondStartOrphans(e, n, ev, cb);
      PublishLeaves(code, Started(e, n), "plugin.started", s);
      StopLeaves(code, f, n, s);
      assert cb in Listeners(g.bus, ev) && cb !in Live(Listeners(e.bus, ev), g.sandboxes);
    } else {
      var e0 := Closed(Unregistered(e, n), n);
      StartedSilently(e, n);
      assert StartThenStop(code, e0, n) == g;
      forall ev ensures Listeners(g.bus, ev) == Live(Listeners(e.bus, ev), g.sandboxes) {
        StartStopRestores(code, e0, n, ev);
      }
    }
  }
}
