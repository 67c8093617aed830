# Vela: a verified model

Vela watches a set of services. Health tasks probe every upstream and commit the result to a shared store; the recovery
coordinator polls the store and restarts services whose upstreams are all down; the alert engine turns status events into
alerts; the proxy routes connections to healthy upstreams. These parts run concurrently around one store. This project
models that loop, together with the configuration pipeline that sets it up, and proves what holds of it in every run.

`dafny verify dfyconfig.toml` checks everything.

## How it is built

1. **Values.** `Models`, `Store`, `History`, `Backoff` define the data and, as functions, what each operation does to it.
2. **Objects.** The classes have the fields that the program mutates, and their methods update them in place, branch by
   branch: `Store.VelaState`, `Backoff.RecoveryState`, `Engine.RecoveryEngine`, `Alerts.AlertEngine`, `Proxy.Listener`,
   `Config.ConfigFile`. Each method is proved against the functions of the first layer.
3. **Steps.** `World` is the running system as a state machine over the same functions. An action is one lock section, or
   the code between two awaits: commit a check, send its event (after the lock was dropped), take a snapshot, visit a
   service of the snapshot, end a restart, record it, let time pass. Anything may happen between two actions, so the
   coordinator acts on a snapshot that may be stale, and events may be sent late and out of order. Each health task is
   sequential, hence has at most one unsent event. `Bridge` proves that a visit which nothing interrupts is what the
   objects do, and that committing in the step system is committing in the store. `Whole` adds the alert engine reading
   the channel and a proxy listener whose connections read the routing list first and draw their ticket later.
4. **Invariants.** `DataInvariant`, `RecoveryInvariant`, `Accounting` and `EventInvariant` say what holds of one service;
   `SystemInvariant` proves that every step of the system keeps all of it.
5. **Theorems.** `StoreTheorems`, `RecoveryTheorems`, `EventTheorems`, `Progress` and `Whole` draw the conclusions for all
   reachable states and all runs; `Alerts`, `Proxy`, `Truncation` and `Config` hold those about one component.
6. **Runs built on purpose.** `Scenarios` and `WholeScenarios` construct runs, for any configuration, that reach a given
   situation, and so turn what the theorems exclude into exact conditions.

History variables record what the program forgets: all checks of each upstream entry, all changes of each service's
status in lock order, all restart attempts grouped into episodes (from one reset to the next) with start, end and the
evidence they were based on, all alerts judged, all connections routed.

Assumptions of the theorems about runs (`SystemInvariant.ValidSystem` and `World.Step`): the configuration was loaded and
registered once at start-up (`Config.LoadedConfigStartsTheSystem` derives the rest from that); the clock does not run
backwards; `max_restarts` is below 2^32 - 1. What happens outside the last two is stated exactly by
`Models.WaitRunsExactlyWhen` and `Backoff.GiveUpSticks`.

## Where the code does not do what its comments say

- The comment on `MAX_BACKOFF_SECS` (`src/models.rs:542`) says that no restart wait exceeds 300 seconds. Jitter is added
  after the cap, so the wait stored after the fifth attempt of an episode is 362 seconds. It is waited for only if the
  budget allows a sixth attempt: for a service that can be restarted at all, the comment holds of every run
  exactly if `max_restarts` is at most 5, the default being 5, and 362 seconds is the longest wait of all (`Scenarios.CeilingHoldsExactlyWhen`).
- `truncate_str` promises a maximum byte length (`src/alert.rs:501`). The result can be three bytes longer;
  `Truncation.LimitIsKeptExactlyWhen` gives the exact condition.
- The give-up notice is broadcast "so the alert engine notifies operators" (`src/recovery.rs:285`). It obeys the cooldown
  like any other bad news (`Alerts.DroppedExactlyWhen`). For every service that can be given up at all there is a run in
  which it is held back, even though the alert engine misses nothing and judges every event at the instant it was raised:
  `WholeScenarios.NoticeIsDroppedExactlyWhen`.
- The coordinator acts on the snapshot's status (`src/recovery.rs:170`), so it can restart a service that is Healthy by
  then; some run does so for every service that can be restarted at all (`Scenarios.HealthyIsRestartedExactlyWhen`). What
  it does guarantee is `RecoveryTheorems.RestartsNeedEvidence`, and exactly when a restart hits a service that is still
  Failed is `RecoveryTheorems.RestartHitsFailedExactlyWhen`.
- The listener's counter is meant to make rotation fair (`src/proxy.rs:238`). Where it wraps, it is fair for lists whose
  length divides 2^64 and for no others: `Proxy.FairForeverExactlyWhen`.
- A host and port configured twice for one service pass validation, but only the first entry is ever updated
  (`src/state.rs:298`). A task's check reaches its own entry exactly if no earlier upstream has its address
  (`StoreTheorems.ChecksReachOwnEntryExactlyWhen`), and a service can ever be Healthy, or Failed, exactly if no address is
  repeated (`Scenarios.SettlesExactlyWhen`); otherwise it is never restarted either (`Scenarios.RestartRunsExactlyWhen`).
- The giving-up branch adds one to a 32-bit counter so that it fires only once (`src/recovery.rs:299`). At
  `max_restarts` = 2^32 - 1 that wraps to zero and restarts begin again: `Backoff.GiveUpSticks`.
- The error for a bad service id asks for lowercase letters (`src/config.rs:113`). The check accepts letters and digits
  of any case and script, and the empty id: `Config.IdsAreLowercaseExactlyWhen`.
- `elapsed` is cast to unsigned (`src/recovery.rs:307`, `src/alert.rs:293`), so a clock that steps back by a second or
  more ends every wait at once: `Models.WaitRunsExactlyWhen`.

## Model

| member | source | states |
|---|---|---|
| Models.ElapsedIsRealTime | src/recovery.rs:305-309 | while the clock does not run backwards, an elapsed count of k seconds means that k full seconds have passed |
| Models.WaitRunsExactlyWhen | src/recovery.rs:307-309 | for any two clock readings, exactly when a wait counts as still running, including a clock that stepped back |
| Models.PushBoundedKeepsLastN | src/state.rs:369-383 | pushing and trimming one entry keeps exactly the last `limit` entries of everything ever pushed |
| Store.SummaryIsMaximum | src/state.rs:345-356 | the service-level numbers are attained upper bounds over the upstream entries, or empty if nothing is present |
| Store.CommitOutcome | src/state.rs:287-401 | which errors a check can meet and what they leave unchanged; every check ends the health log as it was reported; an event exactly if the stored status changed, from the old to the new, under the reported name and at the instant of the check |
| Store.CommitIsLocal | src/state.rs:287-385 | a check changes its own service's data only |
| Store.RecordIsLocal | src/state.rs:163-185 | recording a restart cannot fail for a registered service and changes that service only |
| Store.VelaState.RecordUpstreamHealthCheck | src/state.rs:276-403 | the whole new state of the store, the result and the event sent, for every input including unknown services and addresses |
| Store.VelaState.RecordRestartAttempt | src/state.rs:163-185 | counts and logs a restart, or fails for an unknown service without effect |
| Store.VelaState.RecordAlertAttempt | src/state.rs:192-206 | logs an alert and touches nothing else |
| Store.VelaState.Register | src/state.rs:75-85 | a registered service starts Unknown with empty logs |
| Store.VelaState.RegisterServiceUpstreams | src/state.rs:251-258 | stores the upstream entries of a service |
| History.TrailingFailuresMeaning | src/state.rs:311-322 | the failure counter is at least n exactly if the last n checks all failed |
| History.LastSuccessMeaning | src/state.rs:311-313 | the last-ok time is that of the last successful check, and absent if there was none |
| History.EntryMeaning | src/state.rs:308-322 | every field of an upstream entry, read off its whole check history |
| History.CheckExtendsHistory | src/state.rs:308-322 | updating an entry in place equals recomputing it from the longer history |
| History.AggregateMeaning | src/state.rs:324-340 | what each of the four aggregate statuses says about the check histories, as equivalences |
| History.AggregateStep | src/state.rs:308-340 | one check moves the aggregate along the edges of the transition graph only: Unknown is entered from Degraded only, and with two or more upstreams Failed touches neither Healthy nor Unknown |
| History.StepRealised | src/state.rs:308-340 | every edge of that graph is really taken |
| Backoff.RecoveryState.AdvanceBackoff | src/models.rs:515-527 | the new wait is the doubled one, at most 300, plus a fifth of that and the attempt number modulo three; nothing else changes |
| Backoff.RecoveryState.Reset | src/models.rs:531-536 | back to the initial state |
| Backoff.AdvanceFollowsSchedule | src/models.rs:515-527 | advancing after attempt k stores the k-th wait of the schedule |
| Backoff.WaitGrows | src/models.rs:515-527 | waits grow at least exponentially from the base up to the cap |
| Backoff.WaitPlateau | src/models.rs:515-527 | from the fifth attempt on the wait is 360 seconds plus the attempt number modulo three |
| Backoff.WaitCeiling | src/models.rs:515-543 | the wait stored after an attempt is at most 362 seconds, and at most 300 exactly up to the fourth attempt |
| Scenarios.WaitsExactlyWhen | src/recovery.rs:304-316 | the waits that runs meet: after k attempts exactly the k-th wait of the schedule, in some run exactly if the service is managed, repeats no address and k is below its budget |
| Scenarios.CeilingHoldsExactlyWhen | src/models.rs:542-543 | no run waits longer than 300 seconds exactly if the budget is at most five; otherwise some run waits 362 seconds, and none longer |
| Backoff.GiveUpSticks | src/recovery.rs:277-302 | giving up is final until a reset exactly if `max_restarts` is below 2^32 - 1 |
| Engine.RecoveryEngine.constructor | src/recovery.rs:97-102 | one initial recovery state per configured service, no two shared |
| Engine.RecoveryEngine.Dispatch | src/recovery.rs:344-377 | manual: the outcome is the environment's answer to the configured command; Docker: its answer to re-pulling or restarting the configured container, as an image is configured or not; a spawn error exactly where there is no client or no block |
| Engine.RecoveryEngine.Restart | src/recovery.rs:318-439 | after the restart: the attempt counted, the next wait stored, the flag cleared, and one record that says "succeeded" exactly if the configured target answered so |
| Engine.RecoveryEngine.RestartIfDue | src/recovery.rs:268-439 | case by case: nothing for a running restart, a service given up or a wait still running; at the budget the notice, with the service's name and budget; otherwise the restart and its record |
| Engine.RecoveryEngine.HandleFailedService | src/recovery.rs:224-440 | nothing without a restart block, in mode "none" or without a recovery state; otherwise the decision, whose record tells how the configured target answered; other services' recovery states stay |
| Engine.CasesOfFailed | src/recovery.rs:268-439 | the specification of that visit, written out case by case |
| Engine.RecoveryEngine.VisitOne | src/recovery.rs:173-210 | seen Healthy or Unknown, a service with attempts is back in the initial recovery state; seen Degraded, or unknown to the configuration, it is left alone; nothing but a Failed visit touches store or channel; other services are never touched |
| Engine.RecoveryEngine.ScanAndRecover | src/recovery.rs:164-212 | in whatever order the snapshot is walked, each service ends as its own visit alone makes it, those seen Healthy without attempts; health data and alerts are untouched |
| Engine.RecordingIsLocal | src/recovery.rs:297-433 | an event and a record of one service leave what every other service sees unchanged |
| SystemInvariant.InitInv | src/main.rs:78-82 | the state after start-up satisfies the system invariant |
| SystemInvariant.StepKeepsInv | src/recovery.rs:134-440 | every action of every engine, in any interleaving, keeps the system invariant |
| SystemInvariant.RunKeepsInv | src/recovery.rs:143-158 | every state of every run satisfies the system invariant |
| DataInvariant.CommitFinds | src/state.rs:298-306 | a configured address is always found, and what is found is its first entry |
| DataInvariant.OwnEntryExactlyWhen | src/state.rs:298-306 | the entry found for a configured address is the upstream's own exactly if no earlier upstream has the address |
| DataInvariant.CommitKeepsData | src/state.rs:287-383 | a commit keeps the stored data equal to its recomputation, and histories only grow |
| RecoveryInvariant.ResetKeepsRecovery | src/recovery.rs:185-198 | the reset arm fires for attempts only on Healthy, and always leaves the initial recovery state |
| RecoveryInvariant.StartMatches | src/recovery.rs:304-322 | a started attempt has the next number, fits the budget, and keeps the full wait from the end of the one before |
| EventInvariant.SendKeepsEvents | src/state.rs:385-400 | sending an event late changes no account |
| EventInvariant.GiveUpKeepsEvents | src/recovery.rs:286-299 | the give-up notice leaves every status balance as it was and is accounted to the open episode |
| StoreTheorems.StoredEqualsRecomputed | src/state.rs:287-383 | in every reachable state each entry is the function of its whole check history, the status is the aggregate, the service-level numbers are the maxima, the health log is the last 100 commits, and no service is marked as recovering |
| StoreTheorems.StatusMeaning | src/state.rs:324-340 | in every reachable state, what Failed, Healthy and Unknown say about all checks ever made |
| StoreTheorems.DuplicateAddressNeverSettles | src/state.rs:298-300 | with an address configured twice, the service is Unknown or Degraded in every reachable state |
| StoreTheorems.ChecksReachOwnEntryExactlyWhen | src/state.rs:298-306 | in every reachable state a task's check reaches its own upstream's entry exactly if no earlier upstream has the same address |
| Scenarios.SettlesExactlyWhen | src/state.rs:298-340 | a service is Healthy, and Failed, in some reachable state exactly if no upstream repeats an address |
| StoreTheorems.UnknownIsLeftForGood | src/state.rs:334-340 | once every upstream was checked, the service is never Unknown again in the run |
| StoreTheorems.StatusMovesOnGraph | src/state.rs:308-340 | along every run the status changes by the service's own checks only, and on the transition graph only |
| StoreTheorems.RoutingIsSound | src/state.rs:408-422 | in every reachable state: what is routed to passed its latest check; Healthy exactly if the list holds all upstreams; Failed only if it is empty |
| StoreTheorems.RoutingListHasNoRepeats | src/state.rs:408-422 | in every reachable state the routing list names no address twice |
| RecoveryTheorems.EpisodesWithinBudget | src/recovery.rs:276-322 | in every episode of every run attempts are numbered 1 to k within the budget, with at most one notice, only at the budget, and each acted on a target read back to the service's own block |
| RecoveryTheorems.EpisodesEndByRecovery | src/recovery.rs:185-198 | an episode ends only on a Healthy observation; a service with attempts is never seen as Unknown; the guarded reset equals an unconditional one |
| RecoveryTheorems.HealthyVisitResets | src/recovery.rs:185-198 | in every run a visit that saw the service Healthy leaves it in the initial recovery state with a fresh episode, the old one closed if anything had happened in it, and changes nothing else |
| RecoveryTheorems.OtherVisitsAreIdle | src/recovery.rs:185-203 | in every run a visit that saw the service Degraded or Unknown changes nothing |
| RecoveryTheorems.FailedVisitDoesAsDecided | src/recovery.rs:268-338 | in every run a visit that saw the service Failed starts the next attempt on the snapshot's evidence, or sends and enters the notice, or changes nothing, as decided |
| Scenarios.RestartedAgainExactlyWhen | src/recovery.rs:185-198 | some run restarts a service that it had given up before, exactly if the service is managed, has a budget and repeats no address |
| RecoveryTheorems.ModeNoneIsNeverTouched | src/recovery.rs:248-256 | a service in mode "none" keeps the initial recovery state and has no attempt, notice or record, ever |
| RecoveryTheorems.NoticeStays | src/recovery.rs:277-302 | no step but a Healthy observation takes the give-up notice back |
| RecoveryTheorems.GivingUpLastsUntilHealthy | src/recovery.rs:277-302 | between a notice and a later restart of the service lies a visit that found it Healthy |
| RecoveryTheorems.DecisionFromHistory | src/recovery.rs:268-322 | the decision on a failed service, as equivalences over its history: notice out, budget used up, wait over or not |
| RecoveryTheorems.BackoffIsExact | src/recovery.rs:386-417 | whenever no restart of the service runs, the stored wait is the scheduled one for its attempts, at most 362 seconds |
| RecoveryTheorems.AttemptsAreSpaced | src/recovery.rs:304-322 | attempt j starts at least the sum of the waits of attempts i to j - 1 after the end of attempt i |
| RecoveryTheorems.RestartRate | src/recovery.rs:304-322 | from the fifth attempt on, a window of T seconds holds at most T / 360 + 1 starts |
| RecoveryTheorems.RestartsAreSerial | src/recovery.rs:268-274 | at most one restart runs in the whole system, and the in-progress flag is set exactly for it |
| RecoveryTheorems.EveryRestartIsRecordedOnce | src/recovery.rs:419-439 | outside a restart of the service, the store has recorded every attempt ever started once and in order, counts them, and logs the last 50 |
| RecoveryTheorems.RecordsTellOutcomes | src/recovery.rs:386-433 | in every run each record was made by the end of a restart of the service, with its number and start, and says "succeeded" exactly if that was the outcome |
| RecoveryTheorems.SnapshotOrigin | src/recovery.rs:170-172 | the snapshot in use is the state at the latest scan start of the same run |
| RecoveryTheorems.RestartsNeedEvidence | src/recovery.rs:170-209 | no restart starts unless, at the latest scan start before it, every upstream entry had failed its last max(1, threshold) checks in a row |
| RecoveryTheorems.RestartHitsFailedExactlyWhen | src/recovery.rs:170-209 | a started restart hits a service that is still Failed exactly if no upstream passed a check since that snapshot, but for those that failed a full run again |
| Scenarios.HealthyIsRestartedExactlyWhen | src/recovery.rs:170-209 | some run restarts the service while it is Healthy exactly if it is managed, has a budget and repeats no address |
| RecoveryTheorems.DuplicateAddressNeverRestarts | src/recovery.rs:205-209 | with an address configured twice, no attempt is ever started |
| Scenarios.RestartRunsExactlyWhen | src/recovery.rs:205-322 | some run restarts the service exactly if it is managed, has a budget and repeats no address |
| RecoveryTheorems.DefensiveArmsAreDead | src/recovery.rs:234-377 | unknown id, missing restart block, missing recovery state, running restart, missing command or Docker block: none is met in any run, and every target is read back to the service's own block |
| RecoveryTheorems.TasksAreFree | src/health.rs:173-188 | a health task can commit exactly if it has no unsent event |
| RecoveryTheorems.CoordinatorIsFree | src/recovery.rs:143-158 | the coordinator can go on from every reachable state |
| Progress.VisitCounts | src/recovery.rs:276-322 | the termination measure: a visit that finds the service down never raises it, and lowers it if it comes a second after the last reading |
| Progress.GivesUpInBoundedScans | src/recovery.rs:276-322 | a managed service that stays down is given up, with the whole budget used, within 2 plus the sum of the waits 1 to `max_restarts` - 1 visits, not counting those less than a second after the last reading |
| EventTheorems.ChangesFormAChain | src/state.rs:362-400 | in lock order the changes of a service lead from Unknown to its current status without a self-loop |
| EventTheorems.EventsAreAccountedFor | src/state.rs:385-400 | each change is on the channel or with its task, exactly once; events in minus events out tell the current status; notices on the channel are those of the episodes |
| EventTheorems.ChannelTellsStatus | src/state.rs:387-400 | with nothing pending, the channel alone determines the current status |
| EventTheorems.SingleUpstreamKeepsOrder | src/health.rs:173-188 | with a single upstream, in every state of every run the transitions sent, followed by the pending one, are the changes in lock order |
| EventTheorems.EventsNameTheirService | src/recovery.rs:286-297 | every event of every run carries its service's configured name, and a notice the service's own budget |
| EventTheorems.RealEventsAreNeverNoise | src/alert.rs:255-265 | no event that any run sends is suppressed as noise or is of an unknown service |
| Alerts.NoiseExactlyWhen | src/alert.rs:255-265 | the filter drops exactly the self-loops of every status but Failed |
| Alerts.JudgeExactlyWhen | src/alert.rs:174-202 | the four verdicts on an event, as equivalences |
| Alerts.EnabledTargetsMeaning | src/alert.rs:204-205 | the enabled targets, each as often as configured, and no others |
| Alerts.EnabledTargetsInOrder | src/alert.rs:204-205 | the filter keeps the configured order |
| Alerts.AlertLogKeepsLast | src/state.rs:192-206 | the alert log is the last 50 of all alerts, however many one event adds; other logs are untouched |
| Alerts.AlertEngine.Dispatch | src/alert.rs:225-247 | the service's log gets one record per target in order, with the event's two statuses as they are, delivered exactly if it is a log target or was accepted; it is trimmed to fifty; nothing else changes |
| Alerts.AlertEngine.HandleEvent | src/alert.rs:167-251 | only an event that goes through changes anything: the limiter notes its time and kind, and the log shows its dispatch to the enabled targets |
| Alerts.LimitsSummarizeLog | src/alert.rs:297-312 | the limiter's entry of a service is the time and kind of its last event handled through |
| Alerts.DroppedExactlyWhen | src/alert.rs:268-295 | an event is dropped exactly if the last one handled through was bad news, the new status is not Healthy and fewer than 60 seconds passed |
| Alerts.NewEpisodesAreAnnounced | src/alert.rs:279-290 | recoveries, and the first bad news after any other status, are always handled through |
| Alerts.AlertRate | src/alert.rs:268-312 | T seconds without a Healthy or Unknown entry hold at most T / 60 + 1 dispatches |
| Whole.AlertsOfEveryRun | src/alert.rs:115-163 | in every run of the whole program events are judged in the order sent and at most once, with the exact condition for being held back |
| Whole.NothingIsSkipped | src/alert.rs:115-163 | without overflow an idle alert engine that caught up has judged every event once and in order, and alerted on every recovery |
| WholeScenarios.NoticeIsDroppedExactlyWhen | src/recovery.rs:276-302 | some run of the whole program, with an alert engine that misses nothing and never lags, holds the give-up notice back exactly if the service is managed and repeats no address, that is, if it can get one at all |
| Whole.ConnectionsAreRoutedSoundly | src/proxy.rs:317-342 | in every run each connection is routed on the list that it read itself, at its own acceptance, from the store of that instant, to a configured upstream whose latest check at that instant was a success |
| Whole.ConnectionsAreSpreadFairly | src/proxy.rs:240-340 | in every run m consecutive connections that saw the same list of k upstreams give each upstream on it m / k, rounded down or up, unless the counter wraps among them and k does not divide 2^64 |
| Whole.RouteIsPick | src/proxy.rs:338-340 | routing a connection in a run is what the listener's method does on the list that the connection read |
| Proxy.ValidateProxyConfig | src/proxy.rs:78-131 | accepts exactly if the listeners built from the configuration fit side by side; otherwise names the port of the first service that does not |
| Proxy.PortsFitExactlyWhen | src/proxy.rs:78-161 | the rules of validation, read off the listeners that it lets through |
| Proxy.BindingsInOrder | src/proxy.rs:137-161 | one binding per proxied service, in configuration order |
| Proxy.BindingOrigin | src/proxy.rs:137-161 | every binding is that of a proxied service: its names, its port, all interfaces exactly if asked for, and every upstream address in order |
| Proxy.ListenersDoNotCollide | src/proxy.rs:78-161 | after validation listener ports are pairwise distinct, non-zero and not the API's |
| Proxy.HealthyListOrder | src/state.rs:414-420 | every healthy entry is on the routing list, at the number of healthy entries before it |
| Proxy.HealthyListOrigin | src/state.rs:414-420 | nothing else is on the list, and it is complete exactly if all entries are healthy |
| Proxy.Listener.Pick | src/proxy.rs:338-340 | the upstream at the counter modulo the list's length, and the counter one further, wrapping at 2^64; nothing for an empty list |
| Proxy.Listener.HandleConnection | src/proxy.rs:326-342 | the same on the healthy upstreams of the store; rejects exactly if none is healthy |
| Proxy.RoundRobinIsFair | src/proxy.rs:339-340 | m consecutive tickets over a list of length k choose each entry m / k times, rounded down or up |
| Proxy.FairForeverExactlyWhen | src/proxy.rs:339-340 | that holds of every window, wrap-around included, exactly if k divides 2^64 |
| Truncation.TruncateMeaning | src/alert.rs:503-516 | unchanged if it fits; otherwise the prefix up to the first character boundary not below the limit, and the ellipsis; at most three bytes over |
| Truncation.WidthIsShortest | src/alert.rs:503-516 | the bytes counted for a character are those of its shortest UTF-8 encoding |
| Truncation.LimitIsKeptExactlyWhen | src/alert.rs:501-516 | the documented limit holds exactly if the text fits or a character ends exactly at `max_len` - 3 bytes |
| Truncation.AsciiIsExact | src/alert.rs:503-516 | truncated ASCII has exactly `max_len` bytes |
| Truncation.OvershootIsReached | src/alert.rs:503-516 | the overshoot of three bytes is reached |
| Config.SynthesisSucceedsWhen | src/config.rs:40-88 | when synthesis of a service succeeds, and which complaint it makes otherwise |
| Config.SynthesisIsSafe | src/config.rs:40-88 | synthesis is idempotent, never overwrites explicit fields, touches nothing else, and establishes what the engines rely on |
| Config.SynthesisFillsIn | src/config.rs:43-84 | without a restart block: mode "none" exactly if there is no command, otherwise manual mode with that command; without upstreams: the configured host and port |
| Config.ValidationAcceptsWhen | src/config.rs:95-149 | validation accepts exactly the configurations that keep all rules; ids are then unique |
| Config.FirstComplaint | src/config.rs:96-106 | the key is checked before the number of services |
| Config.BlankExactlyWhen | src/config.rs:96 | a blank key is one of white space only, the empty key included |
| Config.IdsAreLowercaseExactlyWhen | src/config.rs:110-116 | the id check is the one its message describes exactly if the character table knows no other letter or digit; hyphens and the empty id pass |
| Config.ReportedFaultHolds | src/config.rs:107-146 | the complaint reported is true, of the first service that breaks a rule, and about the first rule it breaks |
| Config.ConfigFile.Synthesize | src/config.rs:40-91 | the services after synthesis, also where a fault stopped it half-way; on success every missing restart block is that of the command, or mode "none" without one |
| Config.ConfigFile.Validate | src/config.rs:95-149 | reports the first fault in the order of the rules |
| Config.ConfigFile.Load | src/config.rs:31-34 | loading succeeds exactly for a file whose services can all be synthesized and then keep the rules; otherwise the error is that of the first service that cannot be, or of the first rule broken |
| Config.ConfigFile.RegisterServices | src/config.rs:154-180 | the store after registering all services |
| Config.RegisteredStoreMeaning | src/config.rs:154-180 | after registration all maps of the store know the same services, each in its initial state |
| Config.LoadedConfigStartsTheSystem | src/main.rs:48-82 | a loaded and registered configuration is a start of the step system and satisfies its invariant |
| Bridge.UninterruptedVisitIsTheCode | src/recovery.rs:224-440 | the steps of a visit in a row do what the coordinator's code does |
| Bridge.CellCommitIsStoreCommit | src/state.rs:287-385 | committing a check in the step system is committing it in the store |

## Left out

- Probing (TCP, HTTP, Docker state): a check is an arbitrary result at an arbitrary time.
- Running a restart (`execute_restart_command`, the Docker engine): an arbitrary outcome after arbitrary time, except that
  a missing client or block always gives `SpawnError`.
- Webhook delivery, URL rules, JSON payloads, log lines: delivery is an arbitrary boolean for webhooks and true for logs.
- Free text: an event's message is reduced to "transition" or "gave up after n"; an alert record's trigger text to the
  pair of statuses, and its error text is dropped; addresses are pairs and not formatted strings.
- Tokio: intervals, cancellation and the cost of locks are not modelled; the broadcast channel is the sequence of all
  events sent, and its overflow is a step that loses the next unread event.
- Shutdown and draining, on which the listener gives no guarantee.
- The proxy's byte forwarding, timeouts, socket binding and the limit of 1024 connections.
- The HTTP API, `vela-ctl` and the dashboard, which only read.
- Parsing of TOML and its default values; the log directory and the health check's interval and timeout.
- `record_health_check` and `snapshot_upstream_states`, which the program never calls.
- The 32-bit width of the failure counter, the restart counter and of milliseconds: they are unbounded here. The attempt
  counter's wrap-around is modelled.
- The engines' refusal to start with zero services: validation has already refused such a configuration.
- The table of alphanumeric characters is a parameter of validation; white space is the Unicode property.
- `truncate_str` for limits below three bytes, where the program would underflow; it is only called with 128 and 512.
- `is_recovering` is stored but never written after start-up.
- Fairness across changes of the routing list, which the program does not promise: it is stated over connections that saw
  the same list. The listener's counter is that of a 64-bit machine.
