/** The shared state store: the operations on its five maps, first as functions on values,
    then as the class whose methods update the maps in place. */
module Store {
  import opened Models

  datatype StoreView = StoreView(
    services: map<string, ServiceState>,
    healthRecords: map<string, seq<HealthRecord>>,
    restartRecords: map<string, seq<RestartRecord>>,
    alertRecords: map<string, seq<AlertRecord>>,
    upstreamStates: map<string, seq<UpstreamState>>)

  const EMPTY := StoreView(map[], map[], map[], map[], map[])

  // ---- one upstream entry -------------------------------------------------

  /** The first entry with this address; later entries with the same address are never reached. */
  function FindUpstream(us: seq<UpstreamState>, host: string, port: Port): (k: Option<nat>)
    ensures k.Some? ==> k.value < |us| && us[k.value].host == host && us[k.value].port == port
    ensures k.Some? ==> forall j :: 0 <= j < k.value ==> !(us[j].host == host && us[j].port == port)
    ensures k.None? ==> forall j :: 0 <= j < |us| ==> !(us[j].host == host && us[j].port == port)
  {
    if us == [] then None
    else if us[0].host == host && us[0].port == port then Some(0)
    else match FindUpstream(us[1..], host, port)
      case None => None
      case Some(k) => Some(k + 1)
  }

  /** The entry after one more check. */
  function AfterCheck(u: UpstreamState, success: bool, latencyMs: nat, failureThreshold: nat, now: Time)
    : UpstreamState
  {
    var seen := u.(lastCheckedAt := Some(now), latencyMs := Some(latencyMs));
    if success then
      seen.(lastOkAt := Some(now), consecutiveFailures := 0, status := Healthy)
    else
      var failures := u.consecutiveFailures + 1;
      seen.(consecutiveFailures := failures,
            status := if failures >= failureThreshold then Failed else Degraded)
  }

  // ---- aggregation over the entries of one service ------------------------

  predicate AllAre(us: seq<UpstreamState>, s: ServiceStatus) {
    forall k :: 0 <= k < |us| ==> us[k].status == s
  }

  predicate AnyIs(us: seq<UpstreamState>, s: ServiceStatus) {
    exists k :: 0 <= k < |us| && us[k].status == s
  }

  function Aggregate(us: seq<UpstreamState>): ServiceStatus {
    if AllAre(us, Healthy) then Healthy
    else if AllAre(us, Failed) then Failed
    else if AnyIs(us, Failed) then Degraded
    else if AnyIs(us, Unknown) then Unknown
    else Degraded
  }

  function MaxFailures(us: seq<UpstreamState>): nat {
    if us == [] then 0 else Max(us[0].consecutiveFailures, MaxFailures(us[1..]))
  }

  function Later(a: Option<Time>, b: Option<Time>): Option<Time> {
    match (a, b)
    case (None, _) => b
    case (_, None) => a
    case (Some(x), Some(y)) => Some(Max(x, y))
  }

  function LatestCheck(us: seq<UpstreamState>): Option<Time> {
    if us == [] then None else Later(us[0].lastCheckedAt, LatestCheck(us[1..]))
  }

  function LatestOk(us: seq<UpstreamState>): Option<Time> {
    if us == [] then None else Later(us[0].lastOkAt, LatestOk(us[1..]))
  }

  /** The service-level numbers recomputed from the entries. */
  function Summarize(old_: ServiceState, us: seq<UpstreamState>): ServiceState {
    old_.(status := Aggregate(us),
          consecutiveFailures := MaxFailures(us),
          lastCheckedAt := LatestCheck(us),
          lastOkAt := LatestOk(us))
  }

  /** `t` is the largest present value of `times`, or nothing is present and `t` is empty. */
  ghost predicate IsLatest(t: Option<Time>, times: seq<Option<Time>>) {
    match t
    case None => forall k :: 0 <= k < |times| ==> times[k].None?
    case Some(x) =>
      && t in times
      && forall k :: 0 <= k < |times| && times[k].Some? ==> times[k].value <= x
  }

  function CheckTimes(us: seq<UpstreamState>): seq<Option<Time>> {
    seq(|us|, k requires 0 <= k < |us| => us[k].lastCheckedAt)
  }

  function OkTimes(us: seq<UpstreamState>): seq<Option<Time>> {
    seq(|us|, k requires 0 <= k < |us| => us[k].lastOkAt)
  }

  lemma {:induction false} LatestOfLonger(t: Option<Time>, rest: Option<Time>, tail: seq<Option<Time>>)
    requires IsLatest(rest, tail)
    ensures IsLatest(Later(t, rest), [t] + tail)
  {
    var all := [t] + tail;
    assert all[0] == t;
    assert forall k :: 0 < k < |all| ==> all[k] == tail[k - 1];
    if rest.Some? {
      var k :| 0 <= k < |tail| && tail[k] == rest;
      assert all[k + 1] == rest;
    }
    var m := Later(t, rest);
    if m.Some? {
      assert m in all;
      forall k | 0 <= k < |all| && all[k].Some? ensures all[k].value <= m.value {
        if k > 0 { assert all[k] == tail[k - 1]; }
      }
    }
  }

  /** The aggregated numbers are the maxima over the entries: an attained bound, and a bound for all. */
  lemma {:induction false} SummaryIsMaximum(us: seq<UpstreamState>)
    ensures forall k :: 0 <= k < |us| ==> us[k].consecutiveFailures <= MaxFailures(us)
    ensures us != [] ==> exists k :: 0 <= k < |us| && us[k].consecutiveFailures == MaxFailures(us)
    ensures IsLatest(LatestCheck(us), CheckTimes(us))
    ensures IsLatest(LatestOk(us), OkTimes(us))
  {
    if us != [] {
      var tail := us[1..];
      SummaryIsMaximum(tail);
      assert forall k :: 0 < k < |us| ==> us[k] == tail[k - 1];
      if tail == [] || MaxFailures(us) == us[0].consecutiveFailures {
        assert us[0].consecutiveFailures == MaxFailures(us);
      } else {
        var k :| 0 <= k < |tail| && tail[k].consecutiveFailures == MaxFailures(tail);
        assert us[k + 1].consecutiveFailures == MaxFailures(us);
      }
      assert CheckTimes(us) == [us[0].lastCheckedAt] + CheckTimes(tail);
      assert OkTimes(us) == [us[0].lastOkAt] + OkTimes(tail);
      LatestOfLonger(us[0].lastCheckedAt, LatestCheck(tail), CheckTimes(tail));
      LatestOfLonger(us[0].lastOkAt, LatestOk(tail), OkTimes(tail));
    }
  }

  // ---- operations on the whole store --------------------------------------

  function RegisterService(st: StoreView, id: string): StoreView {
    st.(services := st.services[id := InitialService(id)],
        healthRecords := st.healthRecords[id := []],
        restartRecords := st.restartRecords[id := []],
        alertRecords := st.alertRecords[id := []])
  }

  function RegisterUpstreams(st: StoreView, id: string, us: seq<UpstreamState>): StoreView {
    st.(upstreamStates := st.upstreamStates[id := us])
  }

  function LogOf<T>(logs: map<string, seq<T>>, id: string): seq<T> {
    if id in logs then logs[id] else []
  }

  datatype CheckReport = CheckReport(
    serviceId: string, serviceName: string, host: string, port: Port,
    success: bool, latencyMs: nat, error: Option<string>, failureThreshold: nat)

  /** The store after a check is committed, and the event to send once the lock is dropped. */
  datatype Committed = Committed(store: StoreView, result: Result<Option<StatusChangeEvent>>)

  /** Everything one check does under the write lock. A service known to the upstream map but not to
      the service map fails half-way, after its entry was already updated. */
  function CommitCheck(st: StoreView, r: CheckReport, now: Time): Committed {
    var id := r.serviceId;
    if id !in st.upstreamStates then Committed(st, Err(UnknownService(id)))
    else match FindUpstream(st.upstreamStates[id], r.host, r.port)
      case None => Committed(st, Err(UnknownUpstream(id, r.host, r.port)))
      case Some(k) =>
        var us := st.upstreamStates[id];
        var us' := us[k := AfterCheck(us[k], r.success, r.latencyMs, r.failureThreshold, now)];
        var st1 := st.(upstreamStates := st.upstreamStates[id := us']);
        if id !in st.services then Committed(st1, Err(UnknownService(id)))
        else
          var before := st.services[id];
          var after := Summarize(before, us');
          var record := HealthRecord(id, r.success, r.latencyMs, now, r.error);
          var log := PushBounded(LogOf(st.healthRecords, id), record, MAX_HEALTH_RECORDS);
          Committed(
            st1.(services := st.services[id := after],
                 healthRecords := st.healthRecords[id := log]),
            Ok(if before.status == after.status then None
               else Some(StatusChangeEvent(id, r.serviceName, before.status, after.status, now, Transition))))
  }

  /** What a check reports. An address that is not known leaves the store as it was; a service known to the upstream map
      only has its entry updated and fails all the same. Otherwise an event is due exactly if the stored status changed:
      from the old to the new one, of this service, at the instant of the check. Every check ends the health log. */
  lemma CommitOutcome(st: StoreView, r: CheckReport, now: Time)
    ensures var id, after := r.serviceId, CommitCheck(st, r, now);
      && (id !in st.upstreamStates ==> after == Committed(st, Err(UnknownService(id))))
      && (id in st.upstreamStates && FindUpstream(st.upstreamStates[id], r.host, r.port).None? ==>
            after == Committed(st, Err(UnknownUpstream(id, r.host, r.port))))
      && (id in st.upstreamStates && FindUpstream(st.upstreamStates[id], r.host, r.port).Some? && id !in st.services ==>
            after.result == Err(UnknownService(id)) && after.store == st.(upstreamStates := after.store.upstreamStates))
      && (after.result.Ok? ==>
            && id in after.store.healthRecords
            && var log := after.store.healthRecords[id];
               log != [] && log[|log| - 1] == HealthRecord(id, r.success, r.latencyMs, now, r.error))
      && after.store.restartRecords == st.restartRecords && after.store.alertRecords == st.alertRecords
      && match after.result
         case Ok(Some(e)) =>
           && id in st.services && id in after.store.services && id in after.store.healthRecords
           && (e.serviceId, e.serviceName) == (id, r.serviceName)
           && (e.previousStatus, e.newStatus) == (st.services[id].status, after.store.services[id].status)
           && e.previousStatus != e.newStatus && e.timestamp == now
         case Ok(None) =>
           && id in st.services && id in after.store.services
           && st.services[id].status == after.store.services[id].status
         case Err(_) => after.store.services == st.services && after.store.healthRecords == st.healthRecords
  {
  }

  function RecordRestart(st: StoreView, r: RestartRecord): (StoreView, Result<()>) {
    var id := r.serviceId;
    if id !in st.services then (st, Err(UnknownService(id)))
    else
      var s := st.services[id];
      (st.(services := st.services[id := s.(restartCount := s.restartCount + 1)],
           restartRecords :=
             st.restartRecords[id := PushBounded(LogOf(st.restartRecords, id), r, MAX_RESTART_RECORDS)]),
       Ok(()))
  }

  function RecordAlert(st: StoreView, r: AlertRecord): StoreView {
    var id := r.serviceId;
    st.(alertRecords := st.alertRecords[id := PushBounded(LogOf(st.alertRecords, id), r, MAX_ALERT_RECORDS)])
  }

  /** The addresses of the healthy entries, in order. */
  function HealthyAddresses(us: seq<UpstreamState>): seq<(string, Port)> {
    if us == [] then []
    else (if us[0].status == Healthy then [(us[0].host, us[0].port)] else []) + HealthyAddresses(us[1..])
  }

  // ---- one service's share of the store -----------------------------------

  datatype ServiceData = ServiceData(
    state: ServiceState, entries: seq<UpstreamState>, checks: seq<HealthRecord>, restarts: seq<RestartRecord>)

  /** The service was registered with its upstreams: every map that the engines use knows it. */
  predicate Registered(st: StoreView, id: string) {
    id in st.services && id in st.upstreamStates && id in st.healthRecords && id in st.restartRecords
  }

  function DataOf(st: StoreView, id: string): ServiceData
    requires Registered(st, id)
  {
    ServiceData(st.services[id], st.upstreamStates[id], st.healthRecords[id], st.restartRecords[id])
  }

  function CommitData(d: ServiceData, r: CheckReport, now: Time): (ServiceData, Result<Option<StatusChangeEvent>>) {
    match FindUpstream(d.entries, r.host, r.port)
    case None => (d, Err(UnknownUpstream(r.serviceId, r.host, r.port)))
    case Some(k) =>
      var entries := d.entries[k := AfterCheck(d.entries[k], r.success, r.latencyMs, r.failureThreshold, now)];
      var state := Summarize(d.state, entries);
      var record := HealthRecord(r.serviceId, r.success, r.latencyMs, now, r.error);
      (ServiceData(state, entries, PushBounded(d.checks, record, MAX_HEALTH_RECORDS), d.restarts),
       Ok(if d.state.status == state.status then None
          else Some(StatusChangeEvent(r.serviceId, r.serviceName, d.state.status, state.status, now, Transition))))
  }

  function RecordData(d: ServiceData, r: RestartRecord): ServiceData {
    d.(state := d.state.(restartCount := d.state.restartCount + 1),
       restarts := PushBounded(d.restarts, r, MAX_RESTART_RECORDS))
  }

  /** Committing a check reads and writes the data of its own service only; no service appears or disappears. */
  lemma CommitIsLocal(st: StoreView, r: CheckReport, now: Time)
    requires Registered(st, r.serviceId)
    ensures var after := CommitCheck(st, r, now);
      && (forall id :: Registered(after.store, id) <==> Registered(st, id))
      && (DataOf(after.store, r.serviceId), after.result) == CommitData(DataOf(st, r.serviceId), r, now)
      && (forall id :: id != r.serviceId && Registered(st, id) ==> DataOf(after.store, id) == DataOf(st, id))
  {
  }

  /** So does recording a restart, which therefore cannot fail for a registered service. */
  lemma RecordIsLocal(st: StoreView, r: RestartRecord)
    requires Registered(st, r.serviceId)
    ensures var (after, result) := RecordRestart(st, r);
      && result.Ok?
      && (forall id :: Registered(after, id) <==> Registered(st, id))
      && DataOf(after, r.serviceId) == RecordData(DataOf(st, r.serviceId), r)
      && (forall id :: id != r.serviceId && Registered(st, id) ==> DataOf(after, id) == DataOf(st, id))
  {
  }

  // ---- the store as an object ---------------------------------------------

  class VelaState {
    var services: map<string, ServiceState>
    var healthRecords: map<string, seq<HealthRecord>>
    var restartRecords: map<string, seq<RestartRecord>>
    var alertRecords: map<string, seq<AlertRecord>>
    var upstreamStates: map<string, seq<UpstreamState>>
    /** Everything sent on the broadcast channel so far, in order. */
    var eventTx: seq<StatusChangeEvent>

    function View(): StoreView
      reads this
    {
      StoreView(services, healthRecords, restartRecords, alertRecords, upstreamStates)
    }

    constructor ()
      ensures View() == EMPTY && eventTx == []
    {
      services, healthRecords, restartRecords := map[], map[], map[];
      alertRecords, upstreamStates, eventTx := map[], map[], [];
    }

    method Register(id: string)
      modifies this
      ensures View() == RegisterService(old(View()), id)
      ensures eventTx == old(eventTx)
    {
      services := services[id := InitialService(id)];
      healthRecords := healthRecords[id := []];
      restartRecords := restartRecords[id := []];
      alertRecords := alertRecords[id := []];
    }

    method RegisterServiceUpstreams(id: string, us: seq<UpstreamState>)
      modifies this
      ensures View() == RegisterUpstreams(old(View()), id, us)
      ensures eventTx == old(eventTx)
    {
      upstreamStates := upstreamStates[id := us];
    }

    /** Commits a check, then (the lock already dropped) sends the event of a status change. */
    method RecordUpstreamHealthCheck(r: CheckReport, now: Time) returns (result: Result<()>)
      modifies this
      ensures View() == CommitCheck(old(View()), r, now).store
      ensures result == match CommitCheck(old(View()), r, now).result
                        case Ok(_) => Ok(())
                        case Err(e) => Err(e)
      ensures eventTx == match CommitCheck(old(View()), r, now).result
                         case Ok(Some(event)) => old(eventTx) + [event]
                         case _ => old(eventTx)
    {
      hide Aggregate;
      hide MaxFailures;
      hide LatestCheck;
      hide LatestOk;
      var id := r.serviceId;
      if id !in upstreamStates {
        return Err(UnknownService(id));
      }
      var us := upstreamStates[id];
      var found := FindUpstream(us, r.host, r.port);
      if found.None? {
        return Err(UnknownUpstream(id, r.host, r.port));
      }
      var u := us[found.value].(lastCheckedAt := Some(now), latencyMs := Some(r.latencyMs));
      if r.success {
        u := u.(lastOkAt := Some(now), consecutiveFailures := 0, status := Healthy);
      } else {
        u := u.(consecutiveFailures := u.consecutiveFailures + 1);
        u := u.(status := if u.consecutiveFailures >= r.failureThreshold then Failed else Degraded);
      }
      us := us[found.value := u];
      upstreamStates := upstreamStates[id := us];

      if id !in services {
        return Err(UnknownService(id));
      }
      var previousStatus := services[id].status;
      var newStatus := Aggregate(us);
      services := services[id := services[id].(status := newStatus,
                                               consecutiveFailures := MaxFailures(us),
                                               lastCheckedAt := LatestCheck(us),
                                               lastOkAt := LatestOk(us))];

      var records := LogOf(healthRecords, id) + [HealthRecord(id, r.success, r.latencyMs, now, r.error)];
      if |records| > MAX_HEALTH_RECORDS {
        records := records[1..];
      }
      healthRecords := healthRecords[id := records];

      if previousStatus != newStatus {
        eventTx := eventTx + [StatusChangeEvent(id, r.serviceName, previousStatus, newStatus, now, Transition)];
      }
      return Ok(());
    }

    method RecordRestartAttempt(r: RestartRecord) returns (result: Result<()>)
      modifies this
      ensures (View(), result) == RecordRestart(old(View()), r)
      ensures eventTx == old(eventTx)
    {
      var id := r.serviceId;
      if id !in services {
        return Err(UnknownService(id));
      }
      services := services[id := services[id].(restartCount := services[id].restartCount + 1)];
      var records := LogOf(restartRecords, id) + [r];
      if |records| > MAX_RESTART_RECORDS {
        records := records[1..];
      }
      restartRecords := restartRecords[id := records];
      return Ok(());
    }

    method RecordAlertAttempt(r: AlertRecord)
      modifies this
      ensures View() == RecordAlert(old(View()), r)
      ensures eventTx == old(eventTx)
    {
      var records := LogOf(alertRecords, r.serviceId) + [r];
      if |records| > MAX_ALERT_RECORDS {
        records := records[1..];
      }
      alertRecords := alertRecords[r.serviceId := records];
    }

    method GetHealthyUpstreams(id: string) returns (list: seq<(string, Port)>)
      ensures list == if id in upstreamStates then HealthyAddresses(upstreamStates[id]) else []
    {
      list := if id in upstreamStates then HealthyAddresses(upstreamStates[id]) else [];
    }

    method Send(event: StatusChangeEvent)
      modifies this`eventTx
      ensures eventTx == old(eventTx) + [event]
    {
      eventTx := eventTx + [event];
    }
  }
}
