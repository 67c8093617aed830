/** The alert engine: noise filter, per-service rate limit, dispatch; and what a whole sequence of events gets. */
module Alerts {
  import opened Models
  import opened Store

  datatype LimitEntry = LimitEntry(lastAlertAt: Time, alertedForFailure: bool)

  predicate ShouldSuppress(e: StatusChangeEvent) {
    || (e.previousStatus == Healthy && e.newStatus == Healthy)
    || (e.previousStatus == Unknown && e.newStatus == Unknown)
    || (e.previousStatus == Degraded && e.newStatus == Degraded)
  }

  predicate IsRateLimited(limits: map<string, LimitEntry>, id: string, newStatus: ServiceStatus, now: Time) {
    && id in limits
    && newStatus != Healthy
    && limits[id].alertedForFailure
    && ElapsedSecs(now, limits[id].lastAlertAt) < DEFAULT_ALERT_COOLDOWN_SECS
  }

  predicate IsBad(s: ServiceStatus) { s == Failed || s == Degraded }

  function UpdateLimit(limits: map<string, LimitEntry>, id: string, newStatus: ServiceStatus, now: Time)
    : map<string, LimitEntry>
  {
    limits[id := LimitEntry(now, IsBad(newStatus))]
  }

  datatype Verdict = Suppressed | RateLimited | NotConfigured | Through

  function Judge(cfgs: map<string, ServiceConfig>, limits: map<string, LimitEntry>, e: StatusChangeEvent, now: Time)
    : Verdict
  {
    if ShouldSuppress(e) then Suppressed
    else if IsRateLimited(limits, e.serviceId, e.newStatus, now) then RateLimited
    else if e.serviceId !in cfgs then NotConfigured
    else Through
  }

  /** The noise is exactly the self-loops of every status but Failed. */
  lemma NoiseExactlyWhen(e: StatusChangeEvent)
    ensures ShouldSuppress(e) <==> e.previousStatus == e.newStatus && e.newStatus != Failed
  {
  }

  /** The four verdicts, exactly. */
  lemma JudgeExactlyWhen(cfgs: map<string, ServiceConfig>, limits: map<string, LimitEntry>, e: StatusChangeEvent,
                         now: Time)
    ensures var noise := e.previousStatus == e.newStatus && e.newStatus != Failed;
      var held := && e.serviceId in limits && e.newStatus != Healthy && limits[e.serviceId].alertedForFailure
                  && ElapsedSecs(now, limits[e.serviceId].lastAlertAt) < 60;
      && (Judge(cfgs, limits, e, now) == Suppressed <==> noise)
      && (Judge(cfgs, limits, e, now) == RateLimited <==> !noise && held)
      && (Judge(cfgs, limits, e, now) == NotConfigured <==> !noise && !held && e.serviceId !in cfgs)
      && (Judge(cfgs, limits, e, now) == Through <==> !noise && !held && e.serviceId in cfgs)
  {
    NoiseExactlyWhen(e);
    hide ElapsedSecs;
  }

  function EnabledTargets(targets: seq<AlertTarget>): seq<AlertTarget> {
    if targets == [] then []
    else (if targets[0].enabled then [targets[0]] else []) + EnabledTargets(targets[1..])
  }

  /** The filter keeps exactly the enabled targets, each as often as it is configured. */
  lemma {:induction false} EnabledTargetsMeaning(targets: seq<AlertTarget>, t: AlertTarget)
    ensures multiset(EnabledTargets(targets))[t] == (if t.enabled then multiset(targets)[t] else 0)
  {
    if targets != [] {
      EnabledTargetsMeaning(targets[1..], t);
      var first := if targets[0].enabled then [targets[0]] else [];
      assert targets == [targets[0]] + targets[1..];
      assert multiset(EnabledTargets(targets)) == multiset(first) + multiset(EnabledTargets(targets[1..]));
    }
  }

  /** ... and in the configured order. */
  lemma {:induction false} EnabledTargetsInOrder(a: seq<AlertTarget>, b: seq<AlertTarget>)
    ensures EnabledTargets(a + b) == EnabledTargets(a) + EnabledTargets(b)
  {
    if a == [] {
      assert a + b == b;
    } else {
      var first := if a[0].enabled then [a[0]] else [];
      EnabledTargetsInOrder(a[1..], b);
      assert (a + b)[0] == a[0] && (a + b)[1..] == a[1..] + b;
      assert EnabledTargets(a + b) == first + EnabledTargets(a[1..] + b);
      assert EnabledTargets(a) == first + EnabledTargets(a[1..]);
      hide EnabledTargets;
      assert first + (EnabledTargets(a[1..]) + EnabledTargets(b))
        == (first + EnabledTargets(a[1..])) + EnabledTargets(b);
    }
  }

  /** The records of dispatching to the first `n` targets; log targets always deliver, webhooks as the network says. */
  function DispatchRecords(e: StatusChangeEvent, targets: seq<AlertTarget>, n: nat, accepted: nat -> bool,
                           sentAt: nat -> Time): seq<AlertRecord>
    requires n <= |targets|
  {
    seq(n, i requires 0 <= i < n =>
      AlertRecord(e.serviceId, targets[i].kind, targets[i].kind == Log || accepted(i),
                  e.previousStatus, e.newStatus, sentAt(i)))
  }

  function RecordAlerts(st: StoreView, records: seq<AlertRecord>): StoreView {
    if records == [] then st else RecordAlert(RecordAlerts(st, records[..|records| - 1]), records[|records| - 1])
  }

  /** A service's alert log is the last fifty of all its alerts, however many one event adds; other logs are
      untouched. */
  lemma {:induction false} AlertLogKeepsLast(st: StoreView, id: string, all: seq<AlertRecord>,
                                             records: seq<AlertRecord>)
    requires LogOf(st.alertRecords, id) == LastN(all, 50)
    requires forall i :: 0 <= i < |records| ==> records[i].serviceId == id
    ensures var after := RecordAlerts(st, records);
      && LogOf(after.alertRecords, id) == LastN(all + records, 50)
      && (forall other :: other != id ==> LogOf(after.alertRecords, other) == LogOf(st.alertRecords, other))
      && after == st.(alertRecords := after.alertRecords)
  {
    hide LastN;
    hide RecordAlert;
    if records == [] {
      assert all + records == all;
    } else {
      var front, last := records[..|records| - 1], records[|records| - 1];
      AlertLogKeepsLast(st, id, all, front);
      OneAlertKeepsLast(RecordAlerts(st, front), all + front, last);
      assert all + records == (all + front) + [last];
    }
  }

  lemma OneAlertKeepsLast(st: StoreView, all: seq<AlertRecord>, r: AlertRecord)
    requires LogOf(st.alertRecords, r.serviceId) == LastN(all, MAX_ALERT_RECORDS)
    ensures var after := RecordAlert(st, r);
      && LogOf(after.alertRecords, r.serviceId) == LastN(all + [r], MAX_ALERT_RECORDS)
      && (forall other :: other != r.serviceId ==> LogOf(after.alertRecords, other) == LogOf(st.alertRecords, other))
      && after == st.(alertRecords := after.alertRecords)
  {
    PushBoundedKeepsLastN(all, r, MAX_ALERT_RECORDS);
    hide LastN;
    hide PushBounded;
  }

  /** `log'` is `log` with the records after it, trimmed to fifty: how long it is, and where the new ones and the old
      ones are in it. */
  ghost predicate Trimmed(log: seq<AlertRecord>, records: seq<AlertRecord>, log': seq<AlertRecord>) {
    && |log'| == Min(50, |log| + |records|)
    && (forall i :: 0 <= i < |records| && |records| - i <= 50 ==> log'[|log'| - (|records| - i)] == records[i])
    && (forall j :: 0 <= j < |log'| - |records| ==> log'[j] == log[|log| + |records| - |log'| + j])
  }

  lemma TrimmedLog(log: seq<AlertRecord>, records: seq<AlertRecord>)
    requires |log| <= 50
    ensures Trimmed(log, records, LastN(log + records, 50))
  {
    hide LastN;
    var all, log' := log + records, LastN(log + records, 50);
    forall i | 0 <= i < |records| && |records| - i <= 50 ensures log'[|log'| - (|records| - i)] == records[i] {
      assert log'[|log'| - (|records| - i)] == all[|log| + i];
    }
    forall j | 0 <= j < |log'| - |records| ensures log'[j] == log[|log| + |records| - |log'| + j] {
      assert log'[j] == all[|all| - |log'| + j];
    }
  }

  /** One record per target, in order, each of the event's service and with the event's two statuses, delivered
      exactly if it is a log target or was accepted. */
  ghost predicate RecordsTell(records: seq<AlertRecord>, e: StatusChangeEvent, targets: seq<AlertTarget>,
                              accepted: nat -> bool, sentAt: nat -> Time) {
    && |records| == |targets|
    && forall i :: 0 <= i < |targets| ==>
         && records[i].serviceId == e.serviceId && records[i].kind == targets[i].kind
         && (records[i].delivered <==> targets[i].kind == Log || accepted(i))
         && records[i].fromStatus == e.previousStatus && records[i].toStatus == e.newStatus
         && records[i].sentAt == sentAt(i)
  }

  /** The log shows the dispatch: its records follow the older entries. */
  ghost predicate ShowsDispatch(log: seq<AlertRecord>, log': seq<AlertRecord>, e: StatusChangeEvent,
                                targets: seq<AlertTarget>, accepted: nat -> bool, sentAt: nat -> Time) {
    exists records :: RecordsTell(records, e, targets, accepted, sentAt) && Trimmed(log, records, log')
  }

  /** The last entry of a log after a dispatch is that of the last target. */
  lemma LastRecord(log: seq<AlertRecord>, log': seq<AlertRecord>, e: StatusChangeEvent,
                   targets: seq<AlertTarget>, accepted: nat -> bool, sentAt: nat -> Time)
    requires ShowsDispatch(log, log', e, targets, accepted, sentAt) && targets != []
    ensures var i := |targets| - 1;
      log' != [] && log'[|log'| - 1]
        == AlertRecord(e.serviceId, targets[i].kind, targets[i].kind == Log || accepted(i),
                       e.previousStatus, e.newStatus, sentAt(i))
  {
    var records :| RecordsTell(records, e, targets, accepted, sentAt) && Trimmed(log, records, log');
    var i := |targets| - 1;
    assert log'[|log'| - (|records| - i)] == records[i];
  }

  lemma NothingTrimmed(log: seq<AlertRecord>)
    requires |log| <= 50
    ensures Trimmed(log, [], log)
  {
  }

  lemma NothingDispatched(log: seq<AlertRecord>, e: StatusChangeEvent, accepted: nat -> bool, sentAt: nat -> Time)
    ensures |log| <= 50 ==> ShowsDispatch(log, log, e, [], accepted, sentAt)
  {
    hide Trimmed;
    if |log| <= 50 {
      var records: seq<AlertRecord> := [];
      NothingTrimmed(log);
      assert RecordsTell(records, e, [], accepted, sentAt) && Trimmed(log, records, log);
    }
  }

  /** What dispatching leaves in the logs. */
  lemma DispatchedLog(st: StoreView, e: StatusChangeEvent, targets: seq<AlertTarget>, accepted: nat -> bool,
                      sentAt: nat -> Time)
    ensures var after := RecordAlerts(st, DispatchRecords(e, targets, |targets|, accepted, sentAt));
      && (|LogOf(st.alertRecords, e.serviceId)| <= 50 ==>
            ShowsDispatch(LogOf(st.alertRecords, e.serviceId), LogOf(after.alertRecords, e.serviceId),
                          e, targets, accepted, sentAt))
      && after == st.(alertRecords := after.alertRecords)
      && (forall other :: other != e.serviceId ==> LogOf(after.alertRecords, other) == LogOf(st.alertRecords, other))
  {
    hide RecordAlerts;
    hide LogOf;
    hide LastN;
    hide DispatchRecords;
    hide Trimmed;
    hide RecordsTell;
    var records := DispatchRecords(e, targets, |targets|, accepted, sentAt);
    var log := LogOf(st.alertRecords, e.serviceId);
    DispatchTells(e, targets, accepted, sentAt);
    OnlyOwnAlerts(st, e.serviceId, records);
    if |log| <= 50 {
      ShortLog(log);
      AlertLogKeepsLast(st, e.serviceId, log, records);
      TrimmedLog(log, records);
    }
  }

  lemma DispatchTells(e: StatusChangeEvent, targets: seq<AlertTarget>, accepted: nat -> bool, sentAt: nat -> Time)
    ensures var records := DispatchRecords(e, targets, |targets|, accepted, sentAt);
      && RecordsTell(records, e, targets, accepted, sentAt)
      && forall i :: 0 <= i < |records| ==> records[i].serviceId == e.serviceId
  {
  }

  lemma ShortLog(log: seq<AlertRecord>)
    requires |log| <= 50
    ensures LastN(log, 50) == log
  {
  }

  lemma {:induction false} OnlyOwnAlerts(st: StoreView, id: string, records: seq<AlertRecord>)
    requires forall i :: 0 <= i < |records| ==> records[i].serviceId == id
    ensures var after := RecordAlerts(st, records);
      && after == st.(alertRecords := after.alertRecords)
      && (forall other :: other != id ==> LogOf(after.alertRecords, other) == LogOf(st.alertRecords, other))
  {
    if records != [] { OnlyOwnAlerts(st, id, records[..|records| - 1]); }
  }

  class AlertEngine {
    var rateLimits: map<string, LimitEntry>

    constructor ()
      ensures rateLimits == map[]
    {
      rateLimits := map[];
    }

    /** Dispatches to each target in order and records each attempt: one record per target at the end of the service's
        log, trimmed to fifty; the older records stay in front of them. */
    method Dispatch(store: VelaState, e: StatusChangeEvent, targets: seq<AlertTarget>, accepted: nat -> bool,
                    sentAt: nat -> Time)
      modifies store
      ensures store.View() == RecordAlerts(old(store.View()), DispatchRecords(e, targets, |targets|, accepted, sentAt))
      ensures var log, log' := old(LogOf(store.alertRecords, e.serviceId)), LogOf(store.alertRecords, e.serviceId);
        |log| <= 50 ==>
          && ShowsDispatch(log, log', e, targets, accepted, sentAt)
          && (targets != [] ==>
                var i := |targets| - 1;
                log' != [] && log'[|log'| - 1]
                  == AlertRecord(e.serviceId, targets[i].kind, targets[i].kind == Log || accepted(i),
                                 e.previousStatus, e.newStatus, sentAt(i)))
      ensures store.View() == old(store.View()).(alertRecords := store.alertRecords)
      ensures forall other :: other != e.serviceId ==>
        LogOf(store.alertRecords, other) == old(LogOf(store.alertRecords, other))
      ensures store.eventTx == old(store.eventTx)
    {
      hide LogOf;
      hide ShowsDispatch;
      DispatchedLog(store.View(), e, targets, accepted, sentAt);
      for i := 0 to |targets|
        invariant store.View() == RecordAlerts(old(store.View()), DispatchRecords(e, targets, i, accepted, sentAt))
        invariant store.eventTx == old(store.eventTx)
      {
        var delivered := targets[i].kind == Log || accepted(i);
        store.RecordAlertAttempt(
          AlertRecord(e.serviceId, targets[i].kind, delivered, e.previousStatus, e.newStatus, sentAt(i)));
        assert DispatchRecords(e, targets, i + 1, accepted, sentAt)[..i]
          == DispatchRecords(e, targets, i, accepted, sentAt);
      }
      ghost var log := old(LogOf(store.alertRecords, e.serviceId));
      if |log| <= 50 && targets != [] {
        LastRecord(log, LogOf(store.alertRecords, e.serviceId), e, targets, accepted, sentAt);
      }
      hide RecordAlerts;
    }

    /** Handles one event; `checkedAt` and `doneAt` are the clock readings before and after the dispatch. Only an event
        that goes through is dispatched, to the enabled targets, and noted by the limiter. */
    method HandleEvent(store: VelaState, e: StatusChangeEvent, cfgs: map<string, ServiceConfig>, checkedAt: Time,
                       doneAt: Time, accepted: nat -> bool, sentAt: nat -> Time) returns (verdict: Verdict)
      modifies this, store
      ensures verdict == Judge(cfgs, old(rateLimits), e, checkedAt)
      ensures verdict == Through ==>
        rateLimits == old(rateLimits)[e.serviceId :=
          LimitEntry(doneAt, e.newStatus == Failed || e.newStatus == Degraded)]
      ensures verdict != Through ==> rateLimits == old(rateLimits) && store.View() == old(store.View())
      ensures verdict == Through ==> e.serviceId in cfgs
      ensures verdict == Through ==>
        var targets := EnabledTargets(cfgs[e.serviceId].alerts);
        var log, log' := old(LogOf(store.alertRecords, e.serviceId)), LogOf(store.alertRecords, e.serviceId);
        |log| <= 50 ==>
          && ShowsDispatch(log, log', e, targets, accepted, sentAt)
          && (targets != [] ==>
                var i := |targets| - 1;
                log' != [] && log'[|log'| - 1]
                  == AlertRecord(e.serviceId, targets[i].kind, targets[i].kind == Log || accepted(i),
                                 e.previousStatus, e.newStatus, sentAt(i)))
      ensures store.View() == old(store.View()).(alertRecords := store.alertRecords)
      ensures forall other :: other != e.serviceId ==>
        LogOf(store.alertRecords, other) == old(LogOf(store.alertRecords, other))
      ensures store.eventTx == old(store.eventTx)
    {
      if ShouldSuppress(e) { return Suppressed; }
      if IsRateLimited(rateLimits, e.serviceId, e.newStatus, checkedAt) { return RateLimited; }
      if e.serviceId !in cfgs { return NotConfigured; }
      hide LogOf;
      var targets := EnabledTargets(cfgs[e.serviceId].alerts);
      hide EnabledTargets;
      if targets != [] {
        Dispatch(store, e, targets, accepted, sentAt);
      } else {
        NothingDispatched(LogOf(store.alertRecords, e.serviceId), e, accepted, sentAt);
      }
      hide ShowsDispatch;
      rateLimits := UpdateLimit(rateLimits, e.serviceId, e.newStatus, doneAt);
      return Through;
    }
  }

  // ---- a sequence of received events --------------------------------------

  /** An event as it was received: judged at `checkedAt`, its dispatch finished at `doneAt`. */
  datatype Receipt = Receipt(event: StatusChangeEvent, checkedAt: Time, doneAt: Time)

  function Limits(cfgs: map<string, ServiceConfig>, rs: seq<Receipt>): map<string, LimitEntry> {
    if rs == [] then map[]
    else
      var limits, r := Limits(cfgs, rs[..|rs| - 1]), rs[|rs| - 1];
      if Judge(cfgs, limits, r.event, r.checkedAt) == Through
      then UpdateLimit(limits, r.event.serviceId, r.event.newStatus, r.doneAt) else limits
  }

  /** The verdict on receipt `i`, given all before it. */
  function VerdictOn(cfgs: map<string, ServiceConfig>, rs: seq<Receipt>, i: nat): Verdict
    requires i < |rs|
  {
    Judge(cfgs, Limits(cfgs, rs[..i]), rs[i].event, rs[i].checkedAt)
  }

  ghost predicate HandledFor(cfgs: map<string, ServiceConfig>, rs: seq<Receipt>, id: string, k: int) {
    0 <= k < |rs| && rs[k].event.serviceId == id && VerdictOn(cfgs, rs, k) == Through
  }

  /** `k` is the last of the first `n` receipts that was handled through for the service; -1 if there is none. */
  ghost predicate LastHandled(cfgs: map<string, ServiceConfig>, rs: seq<Receipt>, id: string, n: nat, k: int) {
    && -1 <= k < n
    && (k >= 0 ==> HandledFor(cfgs, rs, id, k))
    && forall m :: k < m < n ==> !HandledFor(cfgs, rs, id, m)
  }

  /** The limiter's map is a summary of the dispatch log: it holds, for every service, exactly the time and the kind of
      the last event handled through. */
  lemma {:induction false} LimitsSummarizeLog(cfgs: map<string, ServiceConfig>, rs: seq<Receipt>, id: string, n: nat)
    returns (k: int)
    requires n <= |rs|
    ensures LastHandled(cfgs, rs, id, n, k)
    ensures var limits := Limits(cfgs, rs[..n]);
      if k == -1 then id !in limits
      else id in limits && limits[id] == LimitEntry(rs[k].doneAt, IsBad(rs[k].event.newStatus))
  {
    if n == 0 {
      k := -1;
    } else {
      k := LimitsSummarizeLog(cfgs, rs, id, n - 1);
      assert rs[..n][..n - 1] == rs[..n - 1];
      if HandledFor(cfgs, rs, id, n - 1) { k := n - 1; }
    }
  }

  /** An unsuppressed event of a configured service is dropped exactly when the last event handled through for the
      service was Failed or Degraded, the new status is not Healthy, and fewer than 60 seconds have passed. */
  lemma DroppedExactlyWhen(cfgs: map<string, ServiceConfig>, rs: seq<Receipt>, i: nat, k: int)
    requires i < |rs| && rs[i].event.serviceId in cfgs && !ShouldSuppress(rs[i].event)
    requires LastHandled(cfgs, rs, rs[i].event.serviceId, i, k)
    requires k >= 0 ==> rs[k].doneAt <= rs[i].checkedAt
    ensures VerdictOn(cfgs, rs, i) == RateLimited || VerdictOn(cfgs, rs, i) == Through
    ensures VerdictOn(cfgs, rs, i) == RateLimited <==>
      && k >= 0 && IsBad(rs[k].event.newStatus) && rs[i].event.newStatus != Healthy
      && rs[i].checkedAt - rs[k].doneAt < 60 * NANOS_PER_SEC
  {
    var id := rs[i].event.serviceId;
    var k' := LimitsSummarizeLog(cfgs, rs, id, i);
    assert k >= 0 ==> HandledFor(cfgs, rs, id, k);
    assert k' == k;
    if k >= 0 { ElapsedIsRealTime(rs[i].checkedAt, rs[k].doneAt, DEFAULT_ALERT_COOLDOWN_SECS); }
  }

  /** A recovery is always announced, and so is the first bad news after any other status. */
  lemma NewEpisodesAreAnnounced(cfgs: map<string, ServiceConfig>, rs: seq<Receipt>, i: nat, k: int)
    requires i < |rs| && rs[i].event.serviceId in cfgs && !ShouldSuppress(rs[i].event)
    requires LastHandled(cfgs, rs, rs[i].event.serviceId, i, k)
    requires k >= 0 ==> rs[k].doneAt <= rs[i].checkedAt
    requires rs[i].event.newStatus == Healthy || k == -1 || !IsBad(rs[k].event.newStatus)
    ensures VerdictOn(cfgs, rs, i) == Through
  {
    DroppedExactlyWhen(cfgs, rs, i, k);
  }

  /** One event at a time: each is judged after the one before was done with. */
  ghost predicate Sequential(rs: seq<Receipt>) {
    && (forall i :: 0 <= i < |rs| ==> rs[i].checkedAt <= rs[i].doneAt)
    && (forall i, j :: 0 <= i < j < |rs| ==> rs[i].doneAt <= rs[j].checkedAt)
  }

  ghost function HandledCount(cfgs: map<string, ServiceConfig>, rs: seq<Receipt>, id: string, i: nat, j: nat): nat
    decreases j
  {
    if j <= i then 0 else HandledCount(cfgs, rs, id, i, j - 1) + (if HandledFor(cfgs, rs, id, j - 1) then 1 else 0)
  }

  lemma {:induction false} NoneHandled(cfgs: map<string, ServiceConfig>, rs: seq<Receipt>, id: string, i: nat, m: nat,
                                       j: nat)
    requires i <= m <= j
    requires forall x :: m <= x < j ==> !HandledFor(cfgs, rs, id, x)
    ensures HandledCount(cfgs, rs, id, i, j) == HandledCount(cfgs, rs, id, i, m)
    decreases j
  {
    if m < j { NoneHandled(cfgs, rs, id, i, m, j - 1); }
  }

  /** While only bad news is handled through for a service, its dispatches keep 60 seconds from each other. */
  lemma {:induction false} BadNewsIsSpaced(cfgs: map<string, ServiceConfig>, rs: seq<Receipt>, id: string, i: nat,
                                           j: nat)
    requires Sequential(rs) && i <= j && HandledFor(cfgs, rs, id, i) && HandledFor(cfgs, rs, id, j)
    requires forall m :: i <= m <= j && HandledFor(cfgs, rs, id, m) ==> IsBad(rs[m].event.newStatus)
    ensures rs[j].checkedAt - rs[i].checkedAt
         >= (HandledCount(cfgs, rs, id, i, j + 1) - 1) * (DEFAULT_ALERT_COOLDOWN_SECS * NANOS_PER_SEC)
    decreases j
  {
    if i == j {
      assert HandledCount(cfgs, rs, id, i, i + 1) == 1;
    } else {
      var k := LimitsSummarizeLog(cfgs, rs, id, j);
      assert k >= i;
      BadNewsIsSpaced(cfgs, rs, id, i, k);
      NoneHandled(cfgs, rs, id, i, k + 1, j);
      DroppedExactlyWhen(cfgs, rs, j, k);
      assert rs[k].checkedAt <= rs[k].doneAt;
    }
  }

  /** A stretch of `seconds` without a Healthy or Unknown entry holds at most `seconds / 60 + 1` dispatches. */
  lemma AlertRate(cfgs: map<string, ServiceConfig>, rs: seq<Receipt>, id: string, i: nat, j: nat, seconds: nat)
    requires Sequential(rs) && i <= j && HandledFor(cfgs, rs, id, i) && HandledFor(cfgs, rs, id, j)
    requires forall m :: i <= m <= j && HandledFor(cfgs, rs, id, m) ==> IsBad(rs[m].event.newStatus)
    requires rs[j].checkedAt - rs[i].checkedAt <= seconds * NANOS_PER_SEC
    ensures HandledCount(cfgs, rs, id, i, j + 1) <= seconds / 60 + 1
  {
    BadNewsIsSpaced(cfgs, rs, id, i, j);
  }
}
