/** The recovery coordinator as an object: the handling of one failed service, and the scan over a snapshot. */
module Engine {
  import opened Models
  import opened Backoff
  import opened Store

  /** What the environment supplies to one visit of a service: the clock, and its answer to whatever restart is run. */
  datatype Visit = Visit(now: Time, run: RestartTarget -> RestartOutcome, endedAt: Time)

  /** What one visit of a service does: its new recovery state, a restart to record, an event to send. */
  datatype Handled = Handled(
    entry: Option<RecoveryView>, record: Option<RestartRecord>, event: Option<StatusChangeEvent>)

  function HandleFailed(cfg: ServiceConfig, entry: Option<RecoveryView>, docker: bool, v: Visit): Handled {
    match Decide(cfg, entry, v.now, docker)
    case GiveUp => Handled(Some(Begin(entry.value, GiveUp, v.now)), None, Some(CriticalEvent(cfg, v.now)))
    case Start(n, target) =>
      Handled(Some(Finish(Begin(entry.value, Start(n, target), v.now), v.endedAt)),
              Some(RestartRecord(cfg.id, v.now, OutcomeOf(target, v.run) == Succeeded, n)), None)
    case _ => Handled(entry, None, None)
  }

  /** The restart that the block asks for succeeds: the environment answers so to the configured command or
      container. */
  predicate Succeeds(restart: RestartConfig, docker: bool, run: RestartTarget -> RestartOutcome) {
    match restart.mode
    case NoneMode => false
    case ManualMode => run(Shell(if restart.command.Some? then restart.command.value else "")) == Succeeded
    case DockerMode =>
      && docker && restart.docker.Some?
      && var d := restart.docker.value;
         Succeeded == run(if d.image.Some? then DockerRepull(d.container, d.image.value)
                          else DockerRestart(d.container))
  }

  function ResetIfNeeded(r: RecoveryView): RecoveryView {
    if r.currentEpisodeAttempts > 0 then INITIAL else r
  }

  function HandleService(cfgs: map<string, ServiceConfig>, id: string, status: ServiceStatus,
                        entry: Option<RecoveryView>, docker: bool, v: Visit): Handled {
    if id !in cfgs then Handled(entry, None, None)
    else match status
      case Healthy => Handled(if entry.Some? then Some(ResetIfNeeded(entry.value)) else entry, None, None)
      case Unknown => Handled(if entry.Some? then Some(ResetIfNeeded(entry.value)) else entry, None, None)
      case Degraded => Handled(entry, None, None)
      case Failed => HandleFailed(cfgs[id], entry, docker, v)
  }

  function EventsOf(events: seq<StatusChangeEvent>, id: string): seq<StatusChangeEvent> {
    if events == [] then []
    else
      var e := events[|events| - 1];
      EventsOf(events[..|events| - 1], id) + (if e.serviceId == id then [e] else [])
  }

  lemma EventsOfAppend(events: seq<StatusChangeEvent>, e: StatusChangeEvent, id: string)
    ensures EventsOf(events + [e], id) == EventsOf(events, id) + (if e.serviceId == id then [e] else [])
  {
    assert (events + [e])[..|events|] == events;
  }

  function SlotFrom(entry: Option<RecoveryView>, st: StoreView, events: seq<StatusChangeEvent>, id: string): Slot {
    Slot(entry,
         if id in st.services then Some(st.services[id]) else None,
         LogOf(st.restartRecords, id),
         EventsOf(events, id))
  }

  function AfterRecord(st: StoreView, record: Option<RestartRecord>): StoreView {
    if record.Some? then RecordRestart(st, record.value).0 else st
  }

  /** A record and an event of one service touch the slot of that service only. */
  lemma RecordingIsLocal(st: StoreView, events: seq<StatusChangeEvent>, record: Option<RestartRecord>,
                         event: Option<StatusChangeEvent>, id: string, other: string)
    requires id in st.services
    requires record.Some? ==> record.value.serviceId == id
    requires event.Some? ==> event.value.serviceId == id
    ensures var st', events' := AfterRecord(st, record), events + ToSeq(event);
      && EventsOf(events', id) == EventsOf(events, id) + ToSeq(event)
      && id in st'.services
      && st'.services[id] == (if record.None? then st.services[id]
                              else st.services[id].(restartCount := st.services[id].restartCount + 1))
      && LogOf(st'.restartRecords, id)
           == (if record.None? then LogOf(st.restartRecords, id)
               else PushBounded(LogOf(st.restartRecords, id), record.value, MAX_RESTART_RECORDS))
      && (other != id ==> forall e :: SlotFrom(e, st', events', other) == SlotFrom(e, st, events, other))
      && st'.services.Keys == st.services.Keys
      && st' == st.(services := st'.services, restartRecords := st'.restartRecords)
  {
    if event.Some? {
      EventsOfAppend(events, event.value, id);
      EventsOfAppend(events, event.value, other);
    } else {
      assert events + [] == events;
    }
    hide EventsOf;
    hide PushBounded;
  }

  /** A record says "succeeded" exactly if the environment answered so to the service's own target. */
  lemma RecordTellsSuccess(cfg: ServiceConfig, entry: Option<RecoveryView>, docker: bool, v: Visit)
    ensures var record := HandleFailed(cfg, entry, docker, v).record;
      record.Some? ==> cfg.restart.Some? && (record.value.succeeded <==> Succeeds(cfg.restart.value, docker, v.run))
  {
  }

  /** The visit to a failed, managed service, case by case. */
  lemma CasesOfFailed(cfg: ServiceConfig, r: RecoveryView, docker: bool, v: Visit)
    requires cfg.restart.Some? && cfg.restart.value.mode != NoneMode
    ensures var n, max := r.currentEpisodeAttempts, cfg.maxRestarts;
      HandleFailed(cfg, Some(r), docker, v) ==
      if r.restartInProgress || n > max
         || (n < max && r.backoffStartedAt.Some? && ElapsedSecs(v.now, r.backoffStartedAt.value) < r.currentBackoff)
      then Handled(Some(r), None, None)
      else if n == max then
        Handled(Some(r.(currentEpisodeAttempts := (n + 1) % 0x1_0000_0000)), None,
                Some(StatusChangeEvent(cfg.id, cfg.name, Failed, Failed, v.now, Critical(max))))
      else
        var capped := Min(2 * r.currentBackoff, 300);
        Handled(Some(RecoveryView(capped + capped / 5 + (n + 1) % 3, false, n + 1, Some(v.endedAt))),
                Some(RestartRecord(cfg.id, v.now, Succeeds(cfg.restart.value, docker, v.run), n + 1)), None)
  {
    RecordTellsSuccess(cfg, Some(r), docker, v);
    hide Succeeds;
    hide OutcomeOf;
    hide TargetOf;
    hide ElapsedSecs;
  }

  lemma HandledIsOwn(cfg: ServiceConfig, entry: Option<RecoveryView>, docker: bool, v: Visit)
    ensures var h := HandleFailed(cfg, entry, docker, v);
      && (h.record.Some? ==> h.record.value.serviceId == cfg.id)
      && (h.event.Some? ==> h.event.value.serviceId == cfg.id)
  {
  }

  /** The configuration map is keyed by the services' own ids. */
  ghost predicate WellKeyed(cfgs: map<string, ServiceConfig>) {
    forall id :: id in cfgs ==> cfgs[id].id == id
  }

  /** Everything of one service that a scan may touch. */
  datatype Slot = Slot(
    entry: Option<RecoveryView>, state: Option<ServiceState>, log: seq<RestartRecord>, events: seq<StatusChangeEvent>)

  /** The slot after a visit that acts on the given status. */
  function AfterVisit(cfgs: map<string, ServiceConfig>, id: string, status: ServiceStatus, before: Slot, docker: bool,
                      v: Visit): Slot {
    var h := HandleService(cfgs, id, status, before.entry, docker, v);
    Slot(h.entry,
         if h.record.None? || before.state.None? then before.state
         else Some(before.state.value.(restartCount := before.state.value.restartCount + 1)),
         if h.record.None? then before.log else PushBounded(before.log, h.record.value, MAX_RESTART_RECORDS),
         before.events + ToSeq(h.event))
  }

  /** A visit that saw the service Healthy leaves it with no attempts, and in the initial state if it had any. */
  lemma HealthyVisitsStartAfresh(cfgs: map<string, ServiceConfig>, docker: bool, visits: string -> Visit)
    ensures forall id, before: Slot :: id in cfgs && before.entry.Some? ==>
      AfterVisit(cfgs, id, Healthy, before, docker, visits(id)).entry
        == Some(if before.entry.value.currentEpisodeAttempts > 0 then RecoveryView(5, false, 0, None)
                else before.entry.value)
  {
  }

  class RecoveryEngine {
    var states: map<string, RecoveryState>

    ghost predicate Valid()
      reads this
    {
      forall a, b :: a in states && b in states && a != b ==> states[a] != states[b]
    }

    ghost function Entry(id: string): Option<RecoveryView>
      reads this, states.Values
    {
      if id in states then (assert states[id] in states.Values; Some(states[id].View())) else None
    }

    /** One fresh state per configured service. */
    constructor (services: seq<ServiceConfig>)
      ensures Valid() && fresh(states.Values)
      ensures forall id :: id in states <==> exists k :: 0 <= k < |services| && services[k].id == id
      ensures forall id :: id in states ==> Entry(id) == Some(INITIAL)
    {
      var built: map<string, RecoveryState> := map[];
      for i := 0 to |services|
        invariant fresh(built.Values)
        invariant forall a, b :: a in built && b in built && a != b ==> built[a] != built[b]
        invariant forall id :: id in built <==> exists k :: 0 <= k < i && services[k].id == id
        invariant forall id :: id in built ==> built[id].View() == INITIAL
      {
        var rs := new RecoveryState();
        assert forall id :: id in built ==> built[id] in built.Values;
        built := built[services[i].id := rs];
      }
      states := built;
    }

    /** Runs the restart that the block asks for: the outcome is the environment's answer to that target and no
        other. */
    static method Dispatch(restart: RestartConfig, docker: bool, run: RestartTarget -> RestartOutcome)
      returns (outcome: RestartOutcome)
      requires restart.mode != NoneMode
      ensures restart.mode == ManualMode && restart.command.Some? ==> outcome == run(Shell(restart.command.value))
      ensures restart.mode == DockerMode && docker && restart.docker.Some? ==>
        var d := restart.docker.value;
        outcome == run(if d.image.Some? then DockerRepull(d.container, d.image.value) else DockerRestart(d.container))
      ensures restart.mode == DockerMode && !docker ==> outcome == SpawnError("Docker client unavailable")
      ensures restart.mode == DockerMode && docker && restart.docker.None? ==> outcome == SpawnError("no Docker config")
      ensures outcome == OutcomeOf(TargetOf(restart, docker), run)
      ensures outcome == Succeeded <==> Succeeds(restart, docker, run)
    {
      match restart.mode
      case ManualMode =>
        outcome := run(Shell(if restart.command.Some? then restart.command.value else ""));
      case DockerMode =>
        if !docker {
          outcome := NO_DOCKER_CLIENT;
        } else if restart.docker.None? {
          outcome := NO_DOCKER_CONFIG;
        } else if restart.docker.value.image.Some? {
          outcome := run(DockerRepull(restart.docker.value.container, restart.docker.value.image.value));
        } else {
          outcome := run(DockerRestart(restart.docker.value.container));
        }
    }

    /** Starts the restart, awaits it, and keeps the books: the attempt, the next wait, the record. */
    static method Restart(rs: RecoveryState, store: VelaState, config: ServiceConfig, docker: bool, v: Visit)
      requires config.restart.Some? && config.restart.value.mode != NoneMode
      modifies rs, store
      ensures var n, capped := old(rs.currentEpisodeAttempts) + 1, Min(2 * old(rs.currentBackoff), 300);
        && rs.View() == RecoveryView(capped + capped / 5 + n % 3, false, n, Some(v.endedAt))
        && store.View() == RecordRestart(old(store.View()),
             RestartRecord(config.id, v.now, Succeeds(config.restart.value, docker, v.run), n)).0
      ensures store.eventTx == old(store.eventTx)
    {
      hide OutcomeOf;
      hide TargetOf;
      hide Succeeds;
      hide Advance;
      hide RecordRestart;
      var attemptNumber := rs.currentEpisodeAttempts + 1;
      rs.restartInProgress := true;
      rs.currentEpisodeAttempts := attemptNumber;
      rs.backoffStartedAt := Some(v.now);

      var outcome := Dispatch(config.restart.value, docker, v.run);
      rs.AdvanceBackoff();
      rs.restartInProgress := false;
      rs.backoffStartedAt := Some(v.endedAt);
      var _ := store.RecordRestartAttempt(RestartRecord(config.id, v.now, outcome == Succeeded, attemptNumber));
    }

    /** The decision for one failed service: skip it, give it up with a notice, or restart it. */
    static method RestartIfDue(rs: RecoveryState, store: VelaState, config: ServiceConfig, docker: bool, v: Visit)
      requires config.restart.Some? && config.restart.value.mode != NoneMode
      modifies rs, store
      ensures var h := HandleFailed(config, Some(old(rs.View())), docker, v);
        && Some(rs.View()) == h.entry
        && store.View() == AfterRecord(old(store.View()), h.record)
        && store.eventTx == old(store.eventTx) + ToSeq(h.event)
      // and, case by case:
      ensures var n, max := old(rs.currentEpisodeAttempts), config.maxRestarts;
        var since, wait := old(rs.backoffStartedAt), old(rs.currentBackoff);
        var capped := Min(2 * wait, 300);
        if old(rs.restartInProgress) || n > max
           || (n < max && since.Some? && ElapsedSecs(v.now, since.value) < wait)
        then
          && rs.View() == old(rs.View()) && store.View() == old(store.View()) && store.eventTx == old(store.eventTx)
        else if n == max then
          && rs.View() == old(rs.View()).(currentEpisodeAttempts := (n + 1) % 0x1_0000_0000)
          && store.View() == old(store.View())
          && store.eventTx == old(store.eventTx)
               + [StatusChangeEvent(config.id, config.name, Failed, Failed, v.now, Critical(max))]
        else
          && store.eventTx == old(store.eventTx)
          && rs.View() == RecoveryView(capped + capped / 5 + (n + 1) % 3, false, n + 1, Some(v.endedAt))
          && store.View() == RecordRestart(old(store.View()),
               RestartRecord(config.id, v.now, Succeeds(config.restart.value, docker, v.run), n + 1)).0
    {
      hide TargetOf;
      hide Succeeds;
      hide OutcomeOf;
      hide ElapsedSecs;
      hide RecordRestart;
      hide HandleFailed;
      CasesOfFailed(config, rs.View(), docker, v);
      if rs.restartInProgress { return; }
      if rs.currentEpisodeAttempts >= config.maxRestarts {
        if rs.currentEpisodeAttempts == config.maxRestarts {
          store.Send(CriticalEvent(config, v.now));
          rs.currentEpisodeAttempts := Wrap32(rs.currentEpisodeAttempts + 1);
        }
        return;
      }
      if rs.backoffStartedAt.Some? {
        var elapsed := ElapsedSecs(v.now, rs.backoffStartedAt.value);
        if elapsed < rs.currentBackoff { return; }
      }
      Restart(rs, store, config, docker, v);
    }

    /** One visit to a failed service. */
    method HandleFailedService(store: VelaState, config: ServiceConfig, docker: bool, v: Visit)
      requires Valid()
      modifies store, states.Values
      ensures forall id :: id != config.id ==> Entry(id) == old(Entry(id))
      ensures var h := HandleFailed(config, old(Entry(config.id)), docker, v);
        && Entry(config.id) == h.entry
        && store.View() == AfterRecord(old(store.View()), h.record)
        && store.eventTx == old(store.eventTx) + ToSeq(h.event)
        && (h.record.Some? ==>
              config.restart.Some? && (h.record.value.succeeded <==> Succeeds(config.restart.value, docker, v.run)))
      ensures config.restart.None? || config.restart.value.mode == NoneMode || old(Entry(config.id)).None? ==>
        && Entry(config.id) == old(Entry(config.id))
        && store.View() == old(store.View()) && store.eventTx == old(store.eventTx)
    {
      RecordTellsSuccess(config, old(Entry(config.id)), docker, v);
      if config.restart.None? { return; }
      if config.restart.value.mode == NoneMode { return; }
      if config.id !in states { return; }
      hide HandleFailed;
      hide AfterRecord;
      var rs := states[config.id];
      assert rs in states.Values;
      assert forall id :: id in states && id != config.id ==> states[id] != rs;
      RestartIfDue(rs, store, config, docker, v);
    }

    ghost function SlotOf(store: VelaState, id: string): Slot
      reads this, states.Values, store
    {
      SlotFrom(Entry(id), store.View(), store.eventTx, id)
    }

    /** Visits every service of the snapshot taken at the start, in any order. What happens to a service depends on
        its own snapshot, recovery state and visit only; services outside the snapshot are untouched. */
    method ScanAndRecover(store: VelaState, cfgs: map<string, ServiceConfig>, docker: bool, visits: string -> Visit)
      requires Valid() && WellKeyed(cfgs)
      modifies store, states.Values
      ensures forall id ::
        SlotOf(store, id) == if id in old(store.services)
                             then AfterVisit(cfgs, id, old(store.services)[id].status, old(SlotOf(store, id)),
                                             docker, visits(id))
                             else old(SlotOf(store, id))
      ensures forall id |
          id in old(store.services) && old(store.services)[id].status == Healthy
          && id in cfgs && old(Entry(id)).Some? ::
        Entry(id) == Some(if old(Entry(id)).value.currentEpisodeAttempts > 0 then RecoveryView(5, false, 0, None)
                          else old(Entry(id)).value)
      ensures store.upstreamStates == old(store.upstreamStates) && store.healthRecords == old(store.healthRecords)
      ensures store.alertRecords == old(store.alertRecords)
    {
      hide AfterVisit;
      hide EventsOf;
      VisitAll(store, store.services, cfgs, docker, visits);
      HealthyVisitsStartAfresh(cfgs, docker, visits);
    }

    /** The loop over the snapshot, in any order. */
    method VisitAll(store: VelaState, snapshot: map<string, ServiceState>, cfgs: map<string, ServiceConfig>,
                    docker: bool, visits: string -> Visit)
      requires Valid() && WellKeyed(cfgs) && snapshot.Keys <= store.services.Keys
      modifies store, states.Values
      ensures forall id :: id !in snapshot ==> SlotOf(store, id) == old(SlotOf(store, id))
      ensures forall id :: id in snapshot ==>
        SlotOf(store, id) == AfterVisit(cfgs, id, snapshot[id].status, old(SlotOf(store, id)), docker, visits(id))
      ensures store.upstreamStates == old(store.upstreamStates) && store.healthRecords == old(store.healthRecords)
      ensures store.alertRecords == old(store.alertRecords)
    {
      hide AfterVisit;
      hide SlotFrom;
      var todo := snapshot.Keys;
      while todo != {}
        invariant todo <= snapshot.Keys <= store.services.Keys
        invariant states == old(states)
        invariant forall id :: id in todo || id !in snapshot ==> SlotOf(store, id) == old(SlotOf(store, id))
        invariant forall id :: id in snapshot && id !in todo ==>
          SlotOf(store, id) == AfterVisit(cfgs, id, snapshot[id].status, old(SlotOf(store, id)), docker, visits(id))
        invariant store.upstreamStates == old(store.upstreamStates) && store.healthRecords == old(store.healthRecords)
        invariant store.alertRecords == old(store.alertRecords)
        decreases todo
      {
        var id :| id in todo;
        VisitOne(store, cfgs, id, snapshot[id].status, docker, visits(id));
        todo := todo - {id};
      }
    }

    /** The match on the snapshot's status of one service. Seen Healthy (or Unknown), a service with attempts starts
        afresh; seen Degraded, or without a configuration, it is left alone. */
    method VisitOne(store: VelaState, cfgs: map<string, ServiceConfig>, id: string, status: ServiceStatus,
                    docker: bool, v: Visit)
      requires Valid() && WellKeyed(cfgs) && id in store.services
      modifies store, states.Values
      ensures forall other :: other != id ==> SlotOf(store, other) == old(SlotOf(store, other))
      ensures SlotOf(store, id) == AfterVisit(cfgs, id, status, old(SlotOf(store, id)), docker, v)
      ensures id in cfgs && (status == Healthy || status == Unknown) && old(Entry(id)).Some? ==>
        Entry(id) == Some(if old(Entry(id)).value.currentEpisodeAttempts > 0 then RecoveryView(5, false, 0, None)
                          else old(Entry(id)).value)
      ensures id !in cfgs || status == Degraded || old(Entry(id)).None? ==> Entry(id) == old(Entry(id))
      ensures id !in cfgs || status != Failed ==>
        store.View() == old(store.View()) && store.eventTx == old(store.eventTx)
      ensures store.services.Keys == old(store.services.Keys)
      ensures store.upstreamStates == old(store.upstreamStates) && store.healthRecords == old(store.healthRecords)
      ensures store.alertRecords == old(store.alertRecords)
    {
      if id !in cfgs { return; }
      match status
      case Healthy | Unknown =>
        if id in states {
          var rs := states[id];
          assert rs in states.Values;
          assert forall other :: other in states && other != id ==> states[other] != rs;
          if rs.currentEpisodeAttempts > 0 {
            rs.Reset();
          }
        }
      case Degraded =>
      case Failed =>
        VisitFailed(store, cfgs, id, docker, v);
    }

    method VisitFailed(store: VelaState, cfgs: map<string, ServiceConfig>, id: string, docker: bool, v: Visit)
      requires Valid() && WellKeyed(cfgs) && id in cfgs && id in store.services
      modifies store, states.Values
      ensures forall other :: other != id ==> SlotOf(store, other) == old(SlotOf(store, other))
      ensures SlotOf(store, id) == AfterVisit(cfgs, id, Failed, old(SlotOf(store, id)), docker, v)
      ensures store.services.Keys == old(store.services.Keys)
      ensures store.upstreamStates == old(store.upstreamStates) && store.healthRecords == old(store.healthRecords)
      ensures store.alertRecords == old(store.alertRecords)
    {
      hide HandleFailed;
      hide AfterRecord;
      hide EventsOf;
      var h := HandleFailed(cfgs[id], old(Entry(id)), docker, v);
      HandledIsOwn(cfgs[id], old(Entry(id)), docker, v);
      HandleFailedService(store, cfgs[id], docker, v);
      RecordingIsLocal(old(store.View()), old(store.eventTx), h.record, h.event, id, id);
      forall other | other != id ensures SlotOf(store, other) == old(SlotOf(store, other)) {
        RecordingIsLocal(old(store.View()), old(store.eventTx), h.record, h.event, id, other);
      }
    }
  }
}
