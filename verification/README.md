# Plugin runtime: a verified model

This project models the control core of the plugin system and proves what it promises over whole runs:
the engine's dispatcher with events that re-enter it, the sandbox protocol between parent and child, the
plugin lifecycle with its grants and revocations, the audit hash chain with checkpoints, and the
supply-chain bookkeeping around them. `dafny verify dfyconfig.toml` checks everything.

| file | models |
|---|---|
| `EngineModel.dfy`, `PluginEngine.dfy` | the engine's operations as functions of its state, and as the class whose methods compute them |
| `EngineInvariants.dfy`, `EngineRuns.dfy` | what dispatches, events and circuit trips keep, and what every run of commands keeps |
| `EngineHistory.dfy` | what holds of the history over every run of commands: revoked plugins, open runs and permits |
| `EngineRefinement.dfy` | engine runs act on the loader as runs of the loader's own operations |
| `EngineListeners.dfy` | what a start and a stop leave on the event bus |
| `PluginEvents.dfy` | the event bus |
| `PluginLifecycle.dfy` | the loader: statuses, grants, reviews, revoked versions, restart |
| `SandboxProtocol.dfy`, `SandboxLoops.dfy` | parent and child as step machines, and as the two loops with their data |
| `EngineSandbox.dfy` | the engine's history and the pipe as one machine, with one user at a time |
| `AuditChain.dfy` | the audit log, its verification, checkpoints and the sink |
| `RegistryVersions.dfy` | version order and `find` |
| `RegistryInstalls.dfy` | registry installs on the loader's directory, and anti-rollback |
| `DependencyLock.dfy` | `requirements.lock`: printer, reader and checks |
| `PackageLock.dfy` | the package lock and the integrity manifest |
| `ReleaseGate.dfy` | the release decision and the producer of its bubblewrap evidence |
| `Text.dfy`, `Prelude.dfy` | strings, `Option` and `Result` |

How the outside enters:

- Plugin code is an arbitrary function: each time a plugin is run it is asked, given the history so far,
  which events it publishes and how it ends. Nothing is assumed of it.
- Policy, signature, scan and integrity guards are booleans that may refuse. Whether the dependency and
  configuration checks before and after the tree swap pass is a function of the package and the
  install's flags; a failure of the host before the swap, after it or while the manifest is written is a
  flag of the command. A package may ship a file in the place of the install manifest, of any content.
- The record hash and the content hash are function parameters. No result assumes them injective: a
  result that needs it says "or a collision", naming the two colliding inputs.
- In the sandbox protocol, message tags are the model's own and no step looks at them.

Some promises hold only under a condition, and both the exact condition and a witness of its need are
proved:

- A revocation is lost by an upgrade that fails after the tree swap and does not leave a manifest that
  says revoked. What the package ships makes it fail there, for instance a bad configuration, or declared
  dependencies without a lock or wheels when it is installed with them; no check before the swap asks
  (`RevocationSurvivesUpgradeIff`, `EnabledByRestartIff`, `RevocationCanBeLost`).
- Anti-rollback holds over runs of registry installs exactly as long as no install fails after the swap
  and leaves a shipped manifest that hides the plugin or names another package's hash (`NoRollbackIff`,
  `ShippedHashIsBelieved`).
- A built audit log verifies exactly if the objects in all details have their keys in text order, which
  objects with number keys need not have (`BuiltLogVerifies`, `NumberedKeysAreRejected`).
- A start and a stop restore the event bus exactly if the plugin was not listening already
  (`StartStopRestoresIff`).
- Later answers are mixed up if the parent gives up a call while the child waits, or begins a call beside
  another (`StaysInStepIff`, `MixUpsAreReachable`).
- The order of registry versions is that of Semantic Versioning exactly where `OrdersAgree` holds
  (`KeyOrderIsPrecedenceIff`, `OrdersThatDiffer`).
- The gate is stricter than the producer about a backend whose `enforced` is truthy but not true
  (`GatePassesFinalizedIff`, `TruthyReportIsRejected`).

Words used below. An install *fails after the swap* if the package's content makes it fail there, as
above, or the host fails there. A registry install is *careful* if both its overrides are off. A step of
the loader is *ordinary* if it is not an install that fails after the swap, and *governed* if moreover
statuses change only through install, grant, enable, disable, quarantine and revoke. A run of engine
commands is *permitted* if it starts only stopped plugins and installs only over plugins the gateway does
not know, and no install fails after the swap; the results of `EngineHistory.dfy` need only the last of
these.

## Model

| member | source | states |
|---|---|---|
| EngineModel.SumUpdate | modules/plugin_system/engine.py:795-799 | Changing one plugin's free permits changes the total, the measure of all nesting, by exactly that much. |
| EngineModel.RuntimeFor | modules/plugin_system/engine.py:645-653 | Asking for a plugin's runtime state gives one whose limit is the plugin's current `max_concurrency`, and leaves every plugin's count of free permits as it was. |
| EngineModel.Acquire | modules/plugin_system/engine.py:689-703 | Taking a permit lowers that plugin's free count and the total by one and makes no runtime state stale. |
| EngineModel.PermitReturned | modules/plugin_system/engine.py:706-726 | Whatever ran in between, as long as it balanced its own permits, giving the permit back restores every count. |
| EngineModel.Dispatch | modules/plugin_system/engine.py:655-726 | Every dispatch (refused, rejected, succeeded, failed or raised) leaves every plugin's count of free permits as it found it; the recursion through events ends because the total of free permits falls at each nested dispatch. |
| EngineModel.Publish | modules/plugin_system/event_bus.py:40-49 | Delivering an event to a snapshot of the listeners, each of which may dispatch and publish again, gives back every permit. |
| EngineModel.Disable | modules/plugin_system/engine.py:207-221 | Disabling, with the two events it publishes, gives back every permit taken below it. |
| EngineInvariants.DispatchKeeps | modules/plugin_system/engine.py:655-726 | However deeply plugin code re-enters the engine, a dispatch keeps the whole engine invariant, is balanced in depth and running plugins, only disables and closes plugins, only launches plugins that were enabled, and nests no deeper than the sum of the concurrency limits. |
| EngineInvariants.DeliverAllKeeps | modules/plugin_system/event_bus.py:40-49 | The same for the delivery of an event to every listener of the snapshot, including listeners whose plugin closed meanwhile. |
| EngineInvariants.RunScriptKeeps | modules/plugin_system/gateway.py:209-225 | The same for any sequence of `event.publish` requests of running plugin code. |
| EngineInvariants.CloseStep | modules/plugin_system/engine.py:439-452 | Closing a running plugin removes it from all three tables and exactly its callbacks from every listener list, whatever else runs. |
| EngineInvariants.StopKeeps | modules/plugin_system/engine.py:439-452 | Stopping, with the event it publishes and everything that event causes, keeps the invariant and leaves the plugin closed, even when its failures have just reached the threshold. |
| EngineInvariants.DisableKeeps | modules/plugin_system/engine.py:207-221 | Disabling a known enabled or disabled plugin never raises, keeps the invariant and leaves it disabled and closed. |
| EngineInvariants.RecordFailureKeeps | modules/plugin_system/engine.py:746-792 | Recording a failure keeps the invariant; if it brings the counter to the threshold with the breaker on, the plugin ends disabled and closed. |
| EngineInvariants.CompleteStep | modules/plugin_system/engine.py:728-744 | Recording an outcome keeps the counter equal to the failing suffix and spares every plugin but the one whose breaker is about to open. |
| EngineRuns.ExecuteKeeps | modules/plugin_system/engine.py:90-472 | Every permitted command, a restart included, whether it succeeds, is refused or raises, leaves the engine quiet (invariant, all permits free, no plugin enabled past its threshold), only adds to the history, and runs no revoked plugin. |
| EngineRuns.RebootQuiet | modules/plugin_system/engine.py:76-88 | A restart over the same plugins directory leaves the engine quiet, keeps every plugin's metadata and status, and starts the streaks afresh. |
| EngineRuns.RunKeeps | modules/plugin_system/engine.py:90-472 | The same over every permitted run of commands. |
| EngineRuns.NewEngineQuiet | modules/plugin_system/engine.py:76-85 | A new engine over a sound loader state starts in that state. |
| EngineRuns.RunsFromScratch | modules/plugin_system/engine.py:76-472 | Every permitted run over an empty plugins directory starts and ends in that state. |
| EngineRuns.TablesAgree | modules/plugin_system/engine.py:144-287 | After every permitted run, restarts included, the sandbox table, the gateway's active table and the callback table have the same keys, what runs is enabled and registered, and the gateway's record of a registered third-party plugin has the loader's status and grants. |
| EngineHistory.RevokedNeverRuns | modules/plugin_system/engine.py:667-687 | Over every run of commands whose installs do not fail after the tree swap, double starts, installs over running plugins and restarts included, a revoked plugin stays revoked and no runner is ever started for it again. |
| EngineHistory.DispatchWithin | modules/plugin_system/engine.py:689-726 | At every moment of the history written during any dispatch, of any engine state, the open runs of each plugin are no more above those at its beginning than the plugin's free permits then, and at its end they are as many as at its beginning; no runner of a revoked plugin is launched. |
| EngineHistory.OpenRunsWithinPermits | modules/plugin_system/engine.py:689-726 | Over the same runs from an engine with no run open: at every moment of the whole history the runs of a plugin launched and not completed are at most its largest `max_concurrency`, and between commands there are none. |
| EngineHistory.LaunchesAlternate | modules/plugin_system/engine.py:689-726 | So with one permit the launches and completions of a plugin alternate over every such run, events that re-enter the engine included. |
| EngineRuns.CounterIsFailingSuffix | modules/plugin_system/engine.py:735-754 | After every permitted run the failure counter is the length of the failing suffix of the plugin's completed runs since its runtime state was created. |
| EngineRuns.BreakerHolds | modules/plugin_system/engine.py:764-779 | With the breaker on, once the failures since the operator's last grant or enable reach the threshold the plugin is disabled and closed; at no moment since the last restart did that streak reach the threshold plus the concurrency limit, and with one permit it never exceeded the threshold. |
| EngineRuns.DispatchNesting | modules/plugin_system/engine.py:655-726 | From a quiet engine, a dispatch ends with every permit free, and its nesting never exceeded the sum of the concurrency limits. |
| EngineRuns.NoMoreThanLimit | modules/plugin_system/engine.py:689-705 | A dispatch of a plugin with as many runs going as its limit is rejected without a launch. |
| EngineRuns.StartStopRestores | modules/plugin_system/engine.py:601-612 | Starting a stopped plugin and stopping it again leaves every listener list, in order, as it was, less the callbacks of other plugins whose circuit opened meanwhile. |
| EngineRuns.DoubleStartLeaks | modules/plugin_system/engine.py:368-396 | Starting a plugin that is already running forgets its first callbacks: a stop leaves them on the bus. |
| EngineListeners.StartStopRestoresIff | modules/plugin_system/engine.py:601-612 | Starting and stopping an enabled plugin, with all the events the two commands publish, gives every listener list back in order, less the callbacks of plugins closed meanwhile, exactly if no callback of the plugin was on the bus before; a second start of a listening plugin never does. |
| EngineListeners.DispatchLeaves | modules/plugin_system/engine.py:609-612 | However deeply plugin code re-enters the engine, a dispatch starts nothing and leaves a callback that the callback table has forgotten on the bus. |
| EngineRuns.StartedQuiet | modules/plugin_system/engine.py:368-406 | Starting an enabled, stopped plugin keeps the invariant. |
| EngineRuns.InstallQuiet | modules/plugin_system/engine.py:90-142 | Installing over a plugin the gateway does not know, with any outcome short of a failure after the tree swap, keeps the invariant. |
| EngineRefinement.EngineRunsAreLoaderRuns | modules/plugin_system/engine.py:90-792 | Every run of engine commands, with everything plugin code sets off, acts on the loader as some run of the loader's own governed operations. |
| EngineRefinement.EngineKeepsLifecycle | modules/plugin_system/engine.py:90-792 | So over every run of engine commands, double starts and upgrades of running plugins included: grants stay within requests, revoked versions stay listed and out of service, REVOKED is permanent and ENABLED implies no outstanding review. |
| PluginEngine.Engine.ExecutePluginAction | modules/plugin_system/engine.py:655-726 | The method on the mutable engine computes `Dispatch` of its state: status check, non-blocking permit, run, record, release; on a running plugin it returns every permit and, from a state with the engine invariant, ends in one, with depth and running plugins as before and no plugin newly past its threshold. |
| PluginEngine.Engine.PublishEvent | modules/plugin_system/event_bus.py:40-49 | The delivery loop over the snapshot computes `Publish`, returns every permit and keeps the invariant however the listeners re-enter the engine. |
| PluginEngine.Engine.CallBack | modules/plugin_system/engine.py:614-643 | A plugin callback answers without dispatching when the sandbox is gone. |
| PluginEngine.Engine.RuntimeStateFor | modules/plugin_system/engine.py:645-653 | A new semaphore and counter replace the old ones exactly when the limit differs. |
| PluginEngine.Engine.RecordPluginFailure | modules/plugin_system/engine.py:746-792 | The failure is counted first; only a counter at the threshold with the breaker on disables the plugin, with the stop, the events and the report to the gateway that disabling entails. |
| PluginEngine.Engine.StopPlugin | modules/plugin_system/engine.py:439-452 | Callbacks go before the sandbox, the sandbox and the gateway's entry before the event, and a plugin that is not running loses its callbacks without an event; from a state with the invariant the plugin is in none of the three tables after the event, whatever that caused. |
| PluginEngine.Engine.DisablePlugin | modules/plugin_system/engine.py:207-221 | A stop, then the transition, and only if it is legal the report to the gateway and the event; whether it raises is whether the transition is illegal after the stop. |
| PluginEngine.Engine.RegisterEventListeners | modules/plugin_system/engine.py:601-607 | The loop subscribes one new callback per declared event, in order, and records exactly those in the callback table. |
| PluginEngine.Engine.Restarted | modules/plugin_system/engine.py:76-88 | A new engine over the plugins directory of another has the loader rebuilt from disk, empty tables and a new bus; the history goes on. |
| PluginEngine.Engine.UnregisterEventListeners | modules/plugin_system/engine.py:609-612 | The loop unsubscribes exactly the recorded callbacks and forgets them. |
| PluginEngine.Engine.InstallPackage | modules/plugin_system/engine.py:90-142 | An install neither stops a live sandbox nor reports to the gateway; it announces itself only if the loader succeeded. |
| PluginEngine.Engine.GrantPermissions | modules/plugin_system/engine.py:144-179 | A grant takes effect in loader, gateway and history before its event is delivered, and a refused one leaves only the loader's look on disk. |
| PluginEngine.Engine.Enable | modules/plugin_system/engine.py:181-205 | The policy guard refuses before the loader is asked; otherwise as for a grant. |
| PluginEngine.Engine.RetirePlugin | modules/plugin_system/engine.py:207-237 | Disabling or quarantining any name: the stop happens even if the transition is then refused. |
| PluginEngine.Engine.RevokePlugin | modules/plugin_system/engine.py:239-253 | A revocation stops the plugin first and is announced only if the loader accepted it. |
| PluginEngine.Engine.RevokePluginVersion | modules/plugin_system/engine.py:255-287 | The plugin is stopped only if it is at that version, and the version is listed in any case. |
| PluginEngine.Engine.Start | modules/plugin_system/engine.py:289-406 | A start looks on disk once, refuses all but ENABLED, leaves the tables alone unless the sandbox launched, and reports to the gateway even where the launch then fails. |
| PluginEngine.Engine.Call | modules/plugin_system/engine.py:458-472 | A call starts a stopped plugin, and dispatches only if it is still running after the events of its start. |
| PluginEvents.EventBus.Add | modules/plugin_system/event_bus.py:27-33 | Subscribing appends the callback to its event's list, or the wildcard list, unless it is there. |
| PluginEvents.EventBus.Remove | modules/plugin_system/event_bus.py:35-38 | Unsubscribing removes the first occurrence, if any. |
| PluginEvents.UnsubscribeAllRemoves | modules/plugin_system/event_bus.py:35-38 | Unsubscribing a list of subscriptions removes exactly those from every listener list and keeps the order of the rest. |
| PluginEvents.SubscribeAllAppends | modules/plugin_system/event_bus.py:27-33 | Subscribing new callbacks appends them, in order, and changes no other list. |
| PluginEvents.RegisterThenUnregister | modules/plugin_system/engine.py:601-612 | Registering a plugin's callbacks and unregistering them restores every listener list exactly. |
| SandboxProtocol.StaysInStepIff | modules/plugin_system/sandbox.py:1074-1111 | A step of parent or child keeps the two sides in step exactly if the parent does not give up a call while the child awaits a gateway response, and does not begin a call while another is in progress. |
| SandboxProtocol.EveryAnswerIsItsOwn | modules/plugin_system/sandbox.py:564-673 | Over every run with one user of the pipe at a time in which no waiting child is given up, timeouts, stops, restarts and deaths included: each returned answer is that of its own action, and whenever no call is in progress and the child lives every gateway request was answered exactly once and in order, both channels are empty and the child is at its action read. |
| EngineSandbox.AnswersInEngineRuns | modules/plugin_system/engine.py:689-726 | The engine's history and the pipe as one machine, in which only a launched run can make a call, once, and a run completes only when its call has returned: over every run of engine commands, if the plugin never has more than one permit, its pipe never has more than one user, the answers are their calls' own, and between calls every request was answered once and in order, as long as no waiting child is given up. |
| EngineSandbox.MoveAccounted | modules/plugin_system/engine.py:689-726 | In that machine the runs open in the history are at every moment those that have made no call, those whose call is in progress and those whose call has returned. |
| SandboxProtocol.NoDeadlock | modules/plugin_system/sandbox.py:319-332 | While a call is in progress the parent or the child can always move. |
| SandboxProtocol.AbandonedAnswersLate | modules/plugin_system/sandbox.py:1101-1111 | If a response cannot be written while the child waits for it, the next call can return the result of the abandoned one. |
| SandboxProtocol.OverlapMixesAnswers | modules/plugin_system/sandbox.py:1083-1102 | A call begun while another's gateway request is being handled returns the first call's result. |
| SandboxProtocol.MixUpsAreReachable | modules/plugin_system/sandbox.py:1074-1111 | Both mix-ups are reached from a fresh pair: the steps that make call 1 return the answer of call 0 are given. |
| SandboxProtocol.StoppedStaysSilent | modules/plugin_system/sandbox.py:749-796 | After a stop and until the next launch, whatever the child did and for any number of permits, every call begun answers "sandbox is not running" and a call still in progress fails. |
| SandboxProtocol.TimeoutSilences | modules/plugin_system/sandbox.py:1086-1088 | A timeout stops the pair, so no late result is ever returned to a later call. |
| SandboxLoops.Worker.ServeInput | modules/plugin_system/sandbox_stdio_worker.py:139-258 | The worker's read loop writes what `Serve` says: for each action its requests and its result, an error for a stray response, and a notice at shutdown. |
| SandboxLoops.Worker.RunAction | modules/plugin_system/sandbox_stdio_worker.py:35-57 | Running one action consumes one line per gateway request and refuses anything that is not a successful response. |
| SandboxLoops.SandboxManager.ExecuteSubProcess | modules/plugin_system/sandbox.py:1074-1111 | On either transport, the manager writes the action and then one response per gateway request in order, returns the first other message, and stops exactly on a timeout. |
| SandboxLoops.SandboxManager.Stop | modules/plugin_system/sandbox.py:749-796 | After a stop neither process, connection nor transport is left. |
| SandboxLoops.AfterTimeoutNotRunning | modules/plugin_system/sandbox.py:1113-1153 | On either transport, in every sequence of calls on one manager, all calls after one that timed out answer "sandbox is not running". |
| SandboxLoops.SubProcessIsInProcess | modules/plugin_system/sandbox.py:1012-1029 | For every plugin and gateway, running an action through the worker's and the manager's loops gives the result, the requests and the responses of running it in process. |
| PluginLifecycle.PluginLoader.InstallPackage | modules/plugin_system/loader.py:211-311 | The method computes `Install`: revoked versions and bad packages are refused, an upgrade keeps status and requested grants or goes to PENDING_APPROVAL, and a failure after the swap (missing lock or wheels, bad configuration, an obstructed file, or the host) leaves the new tree with whatever manifest the package ships; every other outcome keeps the loader's invariant. |
| PluginLifecycle.PluginLoader.DiscoverInstalled | modules/plugin_system/loader.py:149-182 | The loop reads the directories in the order of their names: manifest fields that are missing or empty get their defaults and the legacy review rule, a manifest that cannot be read is passed over, and one that is no object or has bad fields raises out of the loop, leaving the plugins read before it. |
| PluginLifecycle.PluginLoader.ValidateDecls | modules/plugin_system/models.py:117-129 | Declarations are accepted exactly if each is a single known permission, and are then kept in order. |
| PluginLifecycle.PluginLoader.PersistInstalled | modules/plugin_system/loader.py:726-742 | The record in memory changes in any case; the manifest is updated unless what is on disk cannot be read back as an object, and then the call raises. |
| PluginLifecycle.PluginLoader.Grant | modules/plugin_system/loader.py:400-420 | Declarations are validated and within the requested names, locked statuses are refused, and otherwise the plugin is enabled, reviewed and persisted with no more than it requested; the invariant is kept either way. |
| PluginLifecycle.PluginLoader.SetStatus | modules/plugin_system/loader.py:436-470 | A change off the transition table raises and changes nothing but the look on disk; a legal or self-edge is persisted and keeps the invariant. |
| PluginLifecycle.PluginLoader.Enable | modules/plugin_system/loader.py:486-494 | Without grants, with a review outstanding or in a locked status nothing is enabled; otherwise the transition table decides, and what is enabled has grants and no review outstanding. |
| PluginLifecycle.PluginLoader.Revoke | modules/plugin_system/loader.py:502-511 | Grants are dropped in memory before the transition that may raise, and persisted only if it does not; a successful revocation is what a restart reads back, and the invariant is kept even where it raises. |
| PluginLifecycle.PluginLoader.RevokePluginVersion | modules/plugin_system/loader.py:513-529 | The version is listed, whether or not the revocation of the plugin at that version raises, and the invariant is kept. |
| PluginLifecycle.StepKeepsInv | modules/plugin_system/loader.py:149-311 | Every ordinary operation, restart included and whether or not it raises, keeps memory and disk coherent, grants within requested permissions, and plugins at revoked versions out of service; the revoked list only grows. |
| PluginLifecycle.AllRead | modules/plugin_system/loader.py:675-682 | Under the invariant every manifest is readable, discovery reads all of them without raising, and looking on disk for an unknown name finds nothing. |
| PluginLifecycle.RevokeVersionKeepsInv | modules/plugin_system/loader.py:513-539 | Revoking a version puts it on the list and any installed plugin at it out of service, even when the revocation itself raises from UNINSTALLED. |
| PluginLifecycle.VersionRevocationHolds | modules/plugin_system/loader.py:656-658 | The version stays listed, and a plugin at it out of service, over every later ordinary run. |
| PluginLifecycle.StatusChangesAreEdges | modules/plugin_system/loader.py:51-121 | Every status change of install, grant, enable, disable, quarantine, revoke and restart is an edge or self-edge of the table, except that an upgrade needing review goes to PENDING_APPROVAL; nothing leaves REVOKED; ENABLED implies no outstanding review. |
| PluginLifecycle.RunKeepsInv | modules/plugin_system/loader.py:149-539 | The coherence, grant and revocation invariants hold over every ordinary run. |
| PluginLifecycle.RevokedIsPermanent | modules/plugin_system/loader.py:502-511 | REVOKED is permanent over every governed run. |
| PluginLifecycle.RunKeepsRevoked | modules/plugin_system/loader.py:502-511 | REVOKED, in memory and on disk, is permanent over every governed run from any state whose manifests can be read, whatever else that state is. |
| PluginLifecycle.GrantsComeFromApprovals | modules/plugin_system/loader.py:400-420 | Over every ordinary run, each permission pair a plugin without any trusted package holds, in memory or on disk, was passed to or defaulted by an explicit grant. |
| PluginLifecycle.RunsFromEmpty | modules/plugin_system/loader.py:149-539 | All of this holds of every governed run from an empty plugins directory. |
| PluginLifecycle.ReviewNeededIff | modules/plugin_system/loader.py:787-804 | An upgrade needs a review exactly if its package is third-party and gives some permission name a value that the previous declarations, the last one of a name counting, do not give it. |
| PluginLifecycle.UpgradeKeepsOnlyRequestedGrants | modules/plugin_system/loader.py:744-804 | An upgrade that goes through keeps exactly the granted pairs whose names are still requested, and asks for a review, which takes a plugin that is not revoked to PENDING_APPROVAL, exactly if a third-party package gives some permission a value the installed one does not. |
| PluginLifecycle.UpgradesNeverAddAuthority | modules/plugin_system/loader.py:744-804 | No run of installs adds a granted pair to a plugin or enables one that was not enabled; and a plugin still enabled after third-party upgrades is given no permission value it had not been given before. |
| PluginLifecycle.RevocationSurvivesUpgradeIff | modules/plugin_system/loader.py:267-311 | The revocation of a plugin survives an upgrade, a restart and an operator's grant, and all governed steps after them, exactly if the install is refused before the tree swap, does not fail after it, or leaves a shipped manifest that says revoked; it fails there if a third-party package to be installed with its dependencies lacks lock or wheels, the configuration is bad, a directory has the name of a file the loader writes, or the host fails. |
| PluginLifecycle.EnabledByRestartIff | modules/plugin_system/loader.py:161-179 | After such an install of a revoked plugin a restart alone enables it exactly if the manifest left behind says enabled, or says nothing and the package is not third-party. |
| PluginLifecycle.RevocationCanBeLost | modules/plugin_system/loader.py:267-311 | Every revoked plugin has such upgrades, one for each cause: a third-party package without lock and wheels, granted after the restart; a trusted package with a bad configuration, enabled by the restart; and a package that ships a manifest saying enabled. |
| AuditChain.VerifyAuditLog | modules/plugin_system/audit.py:371-406 | The verifying loop computes `Verify`; without an anchor it accepts exactly the readable logs in which every entry names its predecessor's digest and carries the digest of its own filled content, and reports their number. |
| AuditChain.ReplayAccepts | modules/plugin_system/audit.py:371-406 | The pass accepts exactly the readable, chained logs and reports the digest after each record. |
| AuditChain.ReplayErrorSticks | modules/plugin_system/audit.py:371-406 | No suffix turns a rejected log into an accepted one. |
| AuditChain.HeadFixesLog | modules/plugin_system/audit.py:420-424 | Two chained logs with the same last hash are the same sequence of records, length included, or two of their records collide. |
| AuditChain.TamperingShows | modules/plugin_system/audit.py:371-406 | A log with any record changed, dropped, inserted or moved is rejected, or reports another last hash, or exhibits a collision. |
| AuditChain.CheckpointFixesPrefix | modules/plugin_system/audit.py:432-460 | A checkpoint of one log accepts another exactly if that one verifies and extends the first (from acceptance to extension: or they collide). |
| AuditChain.WrittenRecordHashesAsRead | modules/plugin_system/audit.py:44-67 | A record is filled when written and stays so when read back, and what is hashed then is what was hashed on writing exactly if every object in its details has its keys in the order of their texts. |
| AuditChain.ReadsBackIff | modules/plugin_system/audit.py:420-424 | A value reads back as it was written exactly if, at every depth, its objects have their keys in text order. |
| AuditChain.AuditLogger.Record | modules/plugin_system/audit.py:119-158 | One call appends one linked record and keeps an accepted log accepted exactly if its details are in text order (or the record collides with what is read back); nothing is written where the last line is not an object. |
| AuditChain.AuditLogger.LastCurrentHash | modules/plugin_system/audit.py:179-195 | The backward loop finds the hash of the last line that is not blank. |
| AuditChain.AppendKeepsChain | modules/plugin_system/audit.py:136-158 | Appending to an accepted log adds one record, and keeps it accepted exactly if the call's details are in text order or there is a collision. |
| AuditChain.BuiltLogVerifies | modules/plugin_system/audit.py:136-158 | Every log built from empty by any sequence of record calls holds exactly one linked record per call, in order, and verifies exactly if every call's details are in text order or its record collides with what is read back of it. |
| AuditChain.NumberedKeysAreRejected | modules/plugin_system/audit.py:420-424 | A log of one call whose details hold an object with the number keys 2 and 10 is rejected, or exhibits a collision. |
| AuditChain.EarlierCheckpointAccepts | modules/plugin_system/audit.py:409-417 | Every extension of a log by record calls that verifies at all verifies against every earlier checkpoint of the log; with details in text order it verifies. |
| AuditChain.LocalHashChainAuditSink.Append | modules/plugin_system/audit.py:261-281 | The sink's append computes `SinkStep`: record, count by verifying, checkpoint at multiples of the interval. |
| AuditChain.LocalHashChainAuditSink.TakeCheckpoint | modules/plugin_system/audit.py:290-294 | A checkpoint is taken of a log that verifies and handed to the anchor. |
| AuditChain.SinkStepKeepsInvariant | modules/plugin_system/audit.py:261-294 | From a log that agrees with its anchor, flush does not raise, append raises exactly if its details are not in text order (short of a collision), and what does not raise keeps the two in agreement. |
| AuditChain.SinkLag | modules/plugin_system/audit.py:252-294 | Over every run of append and flush from an empty log with an anchor and interval k > 0 that does not raise, the checkpoint's sequence is at most the log's length and fewer than k records behind it; appends of details in text order never raise. |
| RegistryVersions.KeyOfText | modules/plugin_system/marketplace.py:668-671 | A version text accepted by the pattern has a sort key exactly if it has no "+" tail; the key is its three numbers, whether it is a release, and its pre-release suffix. |
| RegistryVersions.KeyLessTotal | modules/plugin_system/marketplace.py:668-671 | The order of the sort keys is total. |
| RegistryVersions.KeyOrderIsPrecedenceIff | modules/plugin_system/marketplace.py:668-671 | The key order of two versions is the precedence of section 11 of Semantic Versioning 2.0.0 exactly if the core numbers differ, either is a release, or their first different dot-separated pre-release identifiers pass the test `SameOrder`: two words not parted by a hyphen, a number before a word in the texts too, two numbers alike as texts and as values. |
| RegistryVersions.KeyOrderIsPrecedence | modules/plugin_system/marketplace.py:668-671 | In particular it is whenever the core numbers differ, either version is a release, or both pre-release tails have neither hyphens nor numeric identifiers. |
| RegistryVersions.OrdersThatDiffer | modules/plugin_system/marketplace.py:668-671 | Three pairs on which the orders differ: 1.0.0-10 and 1.0.0-2, 1.0.0-a-b and 1.0.0-a.b, 1.0.0-01 and 1.0.0-1. |
| RegistryVersions.NumberedMayAgree | modules/plugin_system/marketplace.py:668-671 | A numbered pair on which they agree: 1.0.0-rc.1 and 1.0.0-rc.2. |
| RegistryVersions.FindGivesTheNewest | modules/plugin_system/marketplace.py:63-70 | `find` fails only without a match or on a match without a key, and otherwise gives the first of the matching entries with the largest key. |
| RegistryInstalls.InstallAdvances | modules/plugin_system/marketplace.py:238-251 | One registry install with both overrides off, however it ends, keeps what a sealed directory holds of a plugin unless it forges, and leaves the directory sealed exactly if it does not; a directory is sealed for a plugin if the loader sees it with no recorded hash but its own package's, and an install forges if it fails after the swap and leaves a manifest that hides the plugin or names another hash. |
| RegistryInstalls.NoRollback | modules/plugin_system/marketplace.py:624-646 | Over every run of such installs without a forging one, with other loader operations in between, the held key never falls, no key is ever held with two packages, and the recorded hash of a key stays or is lost. |
| RegistryInstalls.SealedIff | modules/plugin_system/marketplace.py:624-646 | A directory is sealed for a plugin exactly if every run of careful, unforged installs and other loader operations keeps what it holds; if it is not, one careful install replaces it. |
| RegistryInstalls.NoRollbackIff | modules/plugin_system/marketplace.py:624-646 | Over every run of careful installs and other loader operations from a sealed directory, an empty one included: at every moment what is held is kept by all unforged runs from there, if and only if no install of the run forged. |
| RegistryInstalls.ShippedHashIsBelieved | modules/plugin_system/marketplace.py:624-646 | Three careful installs that replace a version: a package, the same package with its dependencies, which fails after the swap and leaves the manifest it ships, and the package whose hash that manifest names. |
| RegistryInstalls.ZeroKeepsKey | modules/plugin_system/marketplace.py:668-671 | A leading zero changes the text of a version and not its sort key, so no list of revoked texts covers a key. |
| DependencyLock.NormalizedNames | modules/plugin_system/dependency.py:339-340 | Normalised names are names, contain no "--" and are unchanged by normalising again (PEP 503, section "Normalized Names"). |
| DependencyLock.FindWheelArtifact | modules/plugin_system/dependency.py:347-374 | The search loop gives the one wheel for the name and version, or fails on a native wheel anywhere, on none and on several. |
| DependencyLock.LockRequirements | modules/plugin_system/dependency.py:86-106 | The loop over the declared packages computes `Lock`, with every refusal. |
| DependencyLock.LockHolds | modules/plugin_system/dependency.py:86-106 | A lock has one entry per declared package, with its version and its unique wheel, under distinct normalised names. |
| DependencyLock.ReadLockedRequirements | modules/plugin_system/dependency.py:247-263 | The reading loop computes `ReadLock`; what it accepts is non-empty and all exact pins. |
| DependencyLock.SplitsAtItsHashIff | modules/plugin_system/dependency.py:258-258 | A printed line splits at its own "--hash=" exactly if its name does not end in "--hash", which no normalised name does. |
| DependencyLock.LineReadBack | modules/plugin_system/dependency.py:330-336 | A printed line reads back as its name, version and digest. |
| DependencyLock.LinesRoundTrip | modules/plugin_system/dependency.py:108-109 | Lines without line breaks are read back as they were joined. |
| DependencyLock.ValidateWheelhouse | modules/plugin_system/dependency.py:289-307 | The two loops accept exactly if every locked name has one wheel of its version, with its digest. |
| DependencyLock.DeclaredAccepted | modules/plugin_system/dependency.py:265-287 | Every declared package is found locked at its version in what was written. |
| DependencyLock.LockIsAccepted | modules/plugin_system/dependency.py:68-111 | Whatever `lock_requirements` writes, with its wheels freshly vendored, is accepted by the reader, the declared-package check and the wheelhouse check. |
| PackageLock.BuildPackageLock | modules/plugin_system/loader.py:963-982 | The loop records digest and size of exactly the covered files other than the lock itself. |
| PackageLock.BuildFileIntegrityManifest | modules/plugin_system/loader.py:930-947 | The loop records digest and size of exactly the covered files. |
| PackageLock.VerifyPackageLock | modules/plugin_system/loader.py:1013-1057 | The check accepts exactly if version and algorithm fit, the locked map is non-empty, every path is its own normal form, and the map equals the recomputed one. |
| PackageLock.WalkedIsNormalIff | modules/plugin_system/models.py:367-373 | A path from a directory walk is its own normal form exactly if it has no backslash. |
| PackageLock.BuiltLockAcceptedIff | modules/plugin_system/loader.py:963-982 | A built lock is accepted exactly if something is covered and no covered path has a backslash. |
| PackageLock.AcceptedMeansUnchanged | modules/plugin_system/loader.py:1013-1057 | A tree accepted by the lock of another has the same covered files with the same contents, or two contents collide. |
| PackageLock.VerifyIntegrity | modules/plugin_system/loader.py:322-361 | The integrity check succeeds exactly if the recorded map equals the recomputed one, and is skipped without a record. |
| PackageLock.RuntimeWritesKeepSeals | modules/plugin_system/gateway.py:702-720 | No sequence of gateway data writes and of manifest, configuration and dependency records changes the outcome of the integrity check or of the package lock. |
| PackageLock.WriteKeepsCovered | modules/plugin_system/loader.py:726-742 | Each such write leaves the covered files and the recorded integrity as they were. |
| ReleaseGate.EvaluateReleaseGate | modules/plugin_system/release_gate.py:60-100 | The method collects the findings in order and computes the decision, or raises on doctor evidence that cannot be iterated. |
| ReleaseGate.CollectDoctorFindings | modules/plugin_system/release_gate.py:221-262 | The loop over the doctor's checks computes the doctor findings, with suppression and the summary finding. |
| ReleaseGate.AcceptingNeverLowersNorCreatesGo | modules/plugin_system/release_gate.py:60-100 | For all evidence, accepting risks changes nothing or turns NO_GO into CONTROLLED_GO. |
| ReleaseGate.AcceptingSoftens | modules/plugin_system/release_gate.py:376-515 | Accepting risks leaves each finding as it was or turns a blocking failure into a warning. |
| ReleaseGate.NeverWaived | modules/plugin_system/release_gate.py:265-345 | Unless the bubblewrap evidence, the local audit verification and the four registry and drill findings all pass, the decision is NO_GO, whatever is accepted. |
| ReleaseGate.GatePassesFinalizedIff | modules/plugin_system/release_gate.py:284-345 | The gate passes a finalised bubblewrap report exactly if it is production-required, non-blocking, not from a hosted runner, and its backend says `enforced` is true rather than something merely truthy. |
| ReleaseGate.GateAgreesWithProducer | scripts/validate_bwrap_sandbox.py:716-771 | Where `enforced` is a boolean, gate and producer agree: exactly the production-required, non-blocking, not hosted reports pass. |
| ReleaseGate.FinalizedMeaning | scripts/validate_bwrap_sandbox.py:716-760 | The same of the finalised report as a value, for every report, mode and environment. |
| ReleaseGate.FinalizedTwice | scripts/validate_bwrap_sandbox.py:716-760 | Finalising a finalised report changes nothing. |
| ReleaseGate.TruthyReportIsRejected | modules/plugin_system/release_gate.py:284-345 | A report whose backend's `enforced` is truthy and not true, given in full: its producer finalises it as non-blocking and the gate rejects it. |
| ReleaseGate.Finalize | scripts/validate_bwrap_sandbox.py:716-760 | The in-place edits leave a report that is non-blocking exactly if it was production-required with status pass, every critical check passed and the backend enforced every capability, and that still holds all the evidence it was given. |

## Left out

- Real processes, pipes, threads, pickling, JSON text and YAML: steps, sequences and values instead. The audit lock and the permit acquire are atomic steps, so the interleavings of several threads below one dispatch are not modelled; nested dispatches through events are.
- SHA-256, Ed25519 and HMAC, trust stores and checkpoint signatures: hashes are parameters, signature checks are guards.
- Sandbox backends, import and open guards, the AST scanner, outbound network, DNS pinning and URL patterns: foreign calls and host effects.
- Symlinks, hardlinks, zip decoding and file-copy failures: the tree swap either happens or leaves the old tree.
- `load_from_directory`: it skips the check of revoked versions, so the revocation results are about runs without it.
- Direct status writes through `set_status` by other callers: `RunKeepsInv` covers them, the results about reviews and permanence of REVOKED do not, because `set_status` can enter ENABLED with a review outstanding.
- Names and reasons of approvals, their history, audit records written by the engine, request ids and times: opaque or absent. The engine's history in the model is the sequence of launches, outcomes, resets and approvals.
- Host callbacks on the bus: they are in the listener lists and delivered to, but do nothing to the engine; plugin code re-enters it only by publishing events.
- Memory providers and middlewares of the engine: they dispatch through `_execute_plugin_action` like tools; their result handling is not modelled. `stop_all` is a sequence of stops.
- PluginLifecycle.ValidMetadata: keeps of the metadata validators the permission names, limits, run mode and event names that the rest depends on; names, versions, entries and configuration schemas are not validated here.
- EngineModel.MayPublish: the gateway keeps a reference to the loader's record, the model a copy; the engine registers a plugin again right after every loader change to it, with no plugin code in between, so the two do not differ in these runs.
- EngineRuns.BreakerHolds: is about permitted runs; an upgrade of a registered plugin may change its threshold and its semaphore, which starts the counter again. Streaks are counted within one process: a restart forgets the counters.
- Restarts are between commands; a process that dies inside a dispatch is not modelled, and neither is `discover` on a live engine, which rebuilds the loader's memory alone (`PluginLifecycle.PluginLoader.DiscoverInstalled` is that step of the loader).
- PluginLifecycle.ContentFails: lock, wheels and configuration are each missing, bad or good; what makes a lock and a wheelhouse good is in `DependencyLock.dfy`, the configuration schema is not modelled further. The dependency scanners and their policy, and a failing interpreter or installer, are the host's failure flag.
- PluginLifecycle.Manifest: grants or a review record of another shape, which load and make later operations raise, and the manifest's other fields are not modelled.
- EngineModel.Reboot: where discovery raises there is no new engine; the model's engine then has the plugins read until then, and no result is about it.
- RegistryInstalls.NoRollbackIff: is about runs without local installs, in which every change is made by a loader fresh from the directory; a process that keeps its loader while another changes the directory writes its old records into the new manifests, which is not part of these runs.
- EngineRuns.StartStopRestores: says nothing of the order of empty entries in the listener dictionary; the lists are compared, not the dictionary.
- SandboxLoops.Worker.RunAction: at the end of its input, a plugin that answers the refusal with a second request is cut off there; the source would go on refusing.
- Message formats and sizes in the sandbox protocol: a message that cannot be encoded or decoded is one of the failing steps `BeginFails`, `ReceiveFails` and `RespondFails`, and an undecodable message is consumed.
- AuditChain.Value: lists and objects have one fixed text each, so an inferred resource, reason or the like of such a type is not compared further. Keys at the top of the details are texts; an object whose keys cannot be sorted, on which the call raises before anything is written, is not a value here.
- AuditChain.Fill: a `decision` in the details that is a list or an object, on which the source raises, is not modelled; neither are unknown fields in a log line, on which reading it raises.
- RegistryVersions.Version: digits and white space are ASCII; a version text ending in a line feed, which the pattern lets through, is not a version here.
- White space in lock files: white space and line ends are the ASCII ones; a carriage return followed by a line feed counts as two line ends, which changes line numbers in messages only. Vendoring is into a fresh `wheels/`.
- ReleaseGate.Show: the text of numbers, lists and objects is one fixed text, so a reason or status of such a type is not compared further; an audit checkpoint whose status is a list or an object, on which the source raises, counts as not verified.
- Acceptance of risks: the formal acceptance of risks and its expiry date are one boolean; evidence collectors, drills and the doctor are producers outside the model.
- The values of the configuration, SBOM, scanners, policy fields, the command line and the legacy shims: reporting, or single-branch claims.
