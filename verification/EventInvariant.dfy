/** Where every status event is: sent, waiting in its health task, or announced by the coordinator. */
module EventInvariant {
  import opened Models
  import opened Store
  import opened History
  import opened Backoff
  import opened World

  // ---- net flow -----------------------------------------------------------

  function One(b: bool): int { if b then 1 else 0 }

  /** An event into `s` counts +1, an event out of `s` counts -1. */
  function Flow(e: StatusChangeEvent, s: ServiceStatus): int {
    One(e.newStatus == s) - One(e.previousStatus == s)
  }

  /** Net flow of one service's events on the channel. */
  function Net(channel: seq<StatusChangeEvent>, id: string, s: ServiceStatus): int {
    if channel == [] then 0
    else Net(channel[..|channel| - 1], id, s) + (if Last(channel).serviceId == id then Flow(Last(channel), s) else 0)
  }

  function NetPending(pending: seq<Option<StatusChangeEvent>>, s: ServiceStatus): int {
    if pending == [] then 0
    else NetPending(pending[..|pending| - 1], s) + (if Last(pending).Some? then Flow(Last(pending).value, s) else 0)
  }

  lemma NetAppend(channel: seq<StatusChangeEvent>, e: StatusChangeEvent, id: string, s: ServiceStatus)
    ensures Net(channel + [e], id, s) == Net(channel, id, s) + (if e.serviceId == id then Flow(e, s) else 0)
  {
    assert (channel + [e])[..|channel|] == channel;
  }

  function FlowOf(slot: Option<StatusChangeEvent>, s: ServiceStatus): int {
    if slot.Some? then Flow(slot.value, s) else 0
  }

  lemma {:induction false} NetPendingUpdate(pending: seq<Option<StatusChangeEvent>>, k: nat,
                                            slot: Option<StatusChangeEvent>, s: ServiceStatus)
    requires k < |pending|
    ensures NetPending(pending[k := slot], s) == NetPending(pending, s) - FlowOf(pending[k], s) + FlowOf(slot, s)
  {
    var n := |pending| - 1;
    var p' := pending[k := slot];
    if k == n {
      assert p'[..n] == pending[..n];
    } else {
      assert p'[..n] == pending[..n][k := slot];
      NetPendingUpdate(pending[..n], k, slot, s);
    }
  }

  // ---- exactly once -------------------------------------------------------

  /** The transitions of one service that have been sent. */
  function SentBag(channel: seq<StatusChangeEvent>, id: string): multiset<StatusChangeEvent> {
    if channel == [] then multiset{}
    else
      var e := Last(channel);
      SentBag(channel[..|channel| - 1], id)
        + (if e.serviceId == id && e.message.Transition? then multiset{e} else multiset{})
  }

  function SlotBag(slot: Option<StatusChangeEvent>): multiset<StatusChangeEvent> {
    if slot.Some? then multiset{slot.value} else multiset{}
  }

  function PendingBag(pending: seq<Option<StatusChangeEvent>>): multiset<StatusChangeEvent> {
    if pending == [] then multiset{} else PendingBag(pending[..|pending| - 1]) + SlotBag(Last(pending))
  }

  lemma SentBagAppend(channel: seq<StatusChangeEvent>, e: StatusChangeEvent, id: string)
    ensures SentBag(channel + [e], id)
         == SentBag(channel, id) + (if e.serviceId == id && e.message.Transition? then multiset{e} else multiset{})
  {
    assert (channel + [e])[..|channel|] == channel;
  }

  lemma AddToBoth<T>(a: multiset<T>, b: multiset<T>, c: multiset<T>, d: multiset<T>, x: multiset<T>)
    requires a + b == c + d
    ensures (a + x) + b == (c + x) + d
  {
    assert (a + x) + b == (a + b) + x;
    assert (c + x) + d == (c + d) + x;
  }

  lemma PendingBagSplit(pending: seq<Option<StatusChangeEvent>>)
    requires pending != []
    ensures PendingBag(pending) == PendingBag(pending[..|pending| - 1]) + SlotBag(Last(pending))
  {
  }

  lemma {:induction false} PendingBagUpdate(pending: seq<Option<StatusChangeEvent>>, k: nat,
                                            slot: Option<StatusChangeEvent>)
    requires k < |pending|
    ensures PendingBag(pending[k := slot]) + SlotBag(pending[k]) == PendingBag(pending) + SlotBag(slot)
  {
    hide SlotBag;
    var n := |pending| - 1;
    var p' := pending[k := slot];
    PendingBagSplit(pending);
    PendingBagSplit(p');
    if k == n {
      assert p'[..n] == pending[..n];
      AddToBoth(SlotBag(slot), SlotBag(pending[k]), SlotBag(pending[k]), SlotBag(slot), PendingBag(pending[..n]));
    } else {
      assert p'[..n] == pending[..n][k := slot];
      PendingBagUpdate(pending[..n], k, slot);
      AddToBoth(PendingBag(p'[..n]), SlotBag(pending[k]), PendingBag(pending[..n]), SlotBag(slot),
                SlotBag(Last(pending)));
    }
    hide PendingBag;
  }

  /** The instants of the give-up notices sent for one service. */
  function CriticalTimes(channel: seq<StatusChangeEvent>, id: string): seq<Time> {
    if channel == [] then []
    else
      var e := Last(channel);
      CriticalTimes(channel[..|channel| - 1], id)
        + (if e.serviceId == id && e.message.Critical? then [e.timestamp] else [])
  }

  lemma CriticalTimesAppend(channel: seq<StatusChangeEvent>, e: StatusChangeEvent, id: string)
    ensures CriticalTimes(channel + [e], id)
         == CriticalTimes(channel, id) + (if e.serviceId == id && e.message.Critical? then [e.timestamp] else [])
  {
    assert (channel + [e])[..|channel|] == channel;
  }

  function PastCriticals(past: seq<Episode>): seq<Time> {
    if past == [] then [] else PastCriticals(past[..|past| - 1]) + Last(past).criticals
  }

  function AllCriticals(t: Trace): seq<Time> { PastCriticals(t.past) + t.open.criticals }

  // ---- the invariant of one service ---------------------------------------

  /** Consecutive changes meet, none is a self-loop, and they lead from Unknown to the current status. */
  ghost predicate Chain(changes: seq<StatusChangeEvent>, now: ServiceStatus) {
    && (forall i :: 0 <= i < |changes| ==> changes[i].previousStatus != changes[i].newStatus)
    && (forall i :: 0 < i < |changes| ==> changes[i].previousStatus == changes[i - 1].newStatus)
    && (if changes == [] then now == Unknown
         else changes[0].previousStatus == Unknown && Last(changes).newStatus == now)
  }

  /** A change of the aggregate of this service. */
  ghost predicate IsChange(id: string, e: StatusChangeEvent) {
    e.serviceId == id && e.message == Transition && e.previousStatus != e.newStatus
  }

  /** The coordinator's notice that it gave up on this service. */
  ghost predicate IsNotice(id: string, e: StatusChangeEvent) {
    e.serviceId == id && e.message.Critical? && e.previousStatus == Failed && e.newStatus == Failed
  }

  /** A change of this service, under its configured name. */
  ghost predicate ChangeOf(cfg: ServiceConfig, e: StatusChangeEvent) {
    IsChange(cfg.id, e) && e.serviceName == cfg.name
  }

  /** The notice for this service, under its configured name and with its configured budget. */
  ghost predicate NoticeOf(cfg: ServiceConfig, e: StatusChangeEvent) {
    IsNotice(cfg.id, e) && e.serviceName == cfg.name && e.message == Critical(cfg.maxRestarts)
  }

  ghost predicate PendingOk(cfg: ServiceConfig, pending: seq<Option<StatusChangeEvent>>) {
    forall k :: 0 <= k < |pending| && pending[k].Some? ==> ChangeOf(cfg, pending[k].value)
  }

  /** Every change of the aggregate is either sent or still pending, and exactly once. */
  ghost predicate ExactlyOnce(channel: seq<StatusChangeEvent>, id: string, pending: seq<Option<StatusChangeEvent>>,
                              changes: seq<StatusChangeEvent>) {
    SentBag(channel, id) + PendingBag(pending) == multiset(changes)
  }

  ghost predicate Balanced(channel: seq<StatusChangeEvent>, id: string, pending: seq<Option<StatusChangeEvent>>,
                           status: ServiceStatus) {
    forall s :: Net(channel, id, s) + NetPending(pending, s) == One(status == s) - One(Unknown == s)
  }

  ghost predicate EventsOk(cfg: ServiceConfig, c: Cell, channel: seq<StatusChangeEvent>) {
    && |c.pending| == |cfg.upstreams|
    && PendingOk(cfg, c.pending)
    && Chain(c.trace.changes, c.data.state.status)
    && ExactlyOnce(channel, cfg.id, c.pending, c.trace.changes)
    && CriticalTimes(channel, cfg.id) == AllCriticals(c.trace)
    && Balanced(channel, cfg.id, c.pending, c.data.state.status)
  }

  // ---- commits ------------------------------------------------------------

  /** The event, if any, is the change from `before` to `after`. */
  ghost predicate Announces(id: string, event: Option<StatusChangeEvent>, before: ServiceStatus, after: ServiceStatus) {
    match event
    case None => before == after
    case Some(e) => IsChange(id, e) && e.previousStatus == before && e.newStatus == after
  }

  lemma ChainGrows(id: string, changes: seq<StatusChangeEvent>, event: Option<StatusChangeEvent>,
                   before: ServiceStatus, after: ServiceStatus)
    requires Chain(changes, before) && Announces(id, event, before, after)
    ensures Chain(changes + ToSeq(event), after)
  {
    var longer := changes + ToSeq(event);
    assert forall i :: 0 <= i < |changes| ==> longer[i] == changes[i];
  }

  lemma CommitKeepsBalance(channel: seq<StatusChangeEvent>, id: string, pending: seq<Option<StatusChangeEvent>>,
                           task: nat, event: Option<StatusChangeEvent>, before: ServiceStatus, after: ServiceStatus)
    requires Balanced(channel, id, pending, before) && Announces(id, event, before, after)
    requires task < |pending| && pending[task].None?
    ensures Balanced(channel, id, pending[task := event], after)
  {
    forall s: ServiceStatus
      ensures Net(channel, id, s) + NetPending(pending[task := event], s) == One(after == s) - One(Unknown == s)
    {
      NetPendingUpdate(pending, task, event, s);
    }
  }

  lemma CommitKeepsExactlyOnce(channel: seq<StatusChangeEvent>, id: string, pending: seq<Option<StatusChangeEvent>>,
                               task: nat, event: Option<StatusChangeEvent>, changes: seq<StatusChangeEvent>)
    requires ExactlyOnce(channel, id, pending, changes) && task < |pending| && pending[task].None?
    ensures ExactlyOnce(channel, id, pending[task := event], changes + ToSeq(event))
  {
    PendingBagUpdate(pending, task, event);
    assert multiset(changes + ToSeq(event)) == multiset(changes) + SlotBag(event);
    assert PendingBag(pending[task := event]) == PendingBag(pending) + SlotBag(event);
  }

  lemma CommitKeepsEvents(cfg: ServiceConfig, c: Cell, channel: seq<StatusChangeEvent>, task: nat, r: CheckReport,
                          now: Time)
    requires EventsOk(cfg, c, channel) && r.serviceId == cfg.id && r.serviceName == cfg.name
    requires task < |c.pending| && c.pending[task].None? && CommitData(c.data, r, now).1.Ok?
    ensures EventsOk(cfg, CommitCell(c, task, r, now), channel)
  {
    var event := CommitData(c.data, r, now).1.value;
    var before, after := c.data.state.status, CommitData(c.data, r, now).0.state.status;
    CommitAnnounces(cfg, c, task, r, now);
    hide CommitData;
    CommitKeepsExactlyOnce(channel, cfg.id, c.pending, task, event, c.trace.changes);
    CommitKeepsBalance(channel, cfg.id, c.pending, task, event, before, after);
    ChainGrows(cfg.id, c.trace.changes, event, before, after);
    assert PendingOk(cfg, c.pending[task := event]);
    hide CommitCell;
    hide ExactlyOnce;
    hide Balanced;
    hide Chain;
    hide PendingOk;
    hide CriticalTimes;
    hide AllCriticals;
  }

  lemma CommitAnnounces(cfg: ServiceConfig, c: Cell, task: nat, r: CheckReport, now: Time)
    requires task < |c.pending| && CommitData(c.data, r, now).1.Ok?
    requires r.serviceId == cfg.id && r.serviceName == cfg.name
    ensures var (data, result) := CommitData(c.data, r, now);
      var c' := CommitCell(c, task, r, now);
      && Announces(cfg.id, result.value, c.data.state.status, data.state.status)
      && (result.value.Some? ==> ChangeOf(cfg, result.value.value))
      && c'.data == data && c'.pending == c.pending[task := result.value]
      && c'.trace.changes == c.trace.changes + ToSeq(result.value)
      && AllCriticals(c'.trace) == AllCriticals(c.trace)
  {
    hide AfterCheck;
    hide Summarize;
  }

  // ---- sends --------------------------------------------------------------

  lemma SendKeepsExactlyOnce(channel: seq<StatusChangeEvent>, id: string, pending: seq<Option<StatusChangeEvent>>,
                             task: nat, changes: seq<StatusChangeEvent>)
    requires ExactlyOnce(channel, id, pending, changes) && task < |pending| && pending[task].Some?
    requires IsChange(id, pending[task].value)
    ensures ExactlyOnce(channel + [pending[task].value], id, pending[task := None], changes)
  {
    var e := pending[task].value;
    SentBagAppend(channel, e, id);
    PendingBagUpdate(pending, task, None);
    hide SentBag;
    hide PendingBag;
    assert PendingBag(pending[task := None]) + multiset{e} == PendingBag(pending);
  }

  lemma SendKeepsBalance(channel: seq<StatusChangeEvent>, id: string, pending: seq<Option<StatusChangeEvent>>,
                         task: nat, status: ServiceStatus)
    requires Balanced(channel, id, pending, status) && task < |pending| && pending[task].Some?
    requires pending[task].value.serviceId == id
    ensures Balanced(channel + [pending[task].value], id, pending[task := None], status)
  {
    var e := pending[task].value;
    forall s: ServiceStatus
      ensures Net(channel + [e], id, s) + NetPending(pending[task := None], s) == One(status == s) - One(Unknown == s)
    {
      NetAppend(channel, e, id, s);
      NetPendingUpdate(pending, task, None, s);
    }
  }

  /** Sending late moves an event from its task to the channel and changes no account. */
  lemma SendKeepsEvents(cfg: ServiceConfig, c: Cell, channel: seq<StatusChangeEvent>, task: nat)
    requires EventsOk(cfg, c, channel) && task < |c.pending| && c.pending[task].Some?
    ensures EventsOk(cfg, SendCell(c, task), channel + [c.pending[task].value])
  {
    var e := c.pending[task].value;
    assert ChangeOf(cfg, e);
    assert PendingOk(cfg, c.pending[task := None]);
    hide PendingOk;
    hide ExactlyOnce;
    hide Balanced;
    hide Chain;
    CriticalTimesAppend(channel, e, cfg.id);
    SendKeepsExactlyOnce(channel, cfg.id, c.pending, task, c.trace.changes);
    SendKeepsBalance(channel, cfg.id, c.pending, task, c.data.state.status);
    assert CriticalTimes(channel, cfg.id) + [] == CriticalTimes(channel, cfg.id);
    hide CriticalTimes;
    hide AllCriticals;
  }

  /** An event that is no transition of this service, and moves between equal statuses if it is of this service. */
  lemma UnrelatedSend(channel: seq<StatusChangeEvent>, e: StatusChangeEvent, id: string,
                      pending: seq<Option<StatusChangeEvent>>, changes: seq<StatusChangeEvent>, status: ServiceStatus)
    requires ExactlyOnce(channel, id, pending, changes) && Balanced(channel, id, pending, status)
    requires e.serviceId != id || IsNotice(id, e)
    ensures ExactlyOnce(channel + [e], id, pending, changes) && Balanced(channel + [e], id, pending, status)
  {
    SentBagAppend(channel, e, id);
    forall s: ServiceStatus
      ensures Net(channel + [e], id, s) + NetPending(pending, s) == One(status == s) - One(Unknown == s)
    {
      NetAppend(channel, e, id, s);
    }
  }

  /** Whatever is sent for another service leaves this one's accounts alone. */
  lemma OtherServicesSend(cfg: ServiceConfig, c: Cell, channel: seq<StatusChangeEvent>, e: StatusChangeEvent)
    requires EventsOk(cfg, c, channel) && e.serviceId != cfg.id
    ensures EventsOk(cfg, c, channel + [e])
  {
    UnrelatedSend(channel, e, cfg.id, c.pending, c.trace.changes, c.data.state.status);
    CriticalTimesAppend(channel, e, cfg.id);
  }

  /** The give-up notice is a Failed-to-Failed event, so it leaves every balance as it was. */
  lemma GiveUpKeepsEvents(cfg: ServiceConfig, c: Cell, channel: seq<StatusChangeEvent>, now: Time,
                          evidence: seq<seq<Check>>)
    requires EventsOk(cfg, c, channel) && c.recovery.Some?
    ensures EventsOk(cfg, DecideCell(c, GiveUp, now, evidence), channel + [CriticalEvent(cfg, now)])
  {
    var e := CriticalEvent(cfg, now);
    hide ExactlyOnce;
    hide Balanced;
    hide Chain;
    hide PendingOk;
    hide Begin;
    UnrelatedSend(channel, e, cfg.id, c.pending, c.trace.changes, c.data.state.status);
    CriticalTimesAppend(channel, e, cfg.id);
    NoticeIsAccounted(c.trace, now);
    hide CriticalTimes;
    hide AllCriticals;
    hide OnGiveUp;
    GiveUpKeepsChanges(c, now, evidence);
    hide DecideCell;
  }

  lemma NoticeIsAccounted(t: Trace, now: Time)
    ensures AllCriticals(OnGiveUp(t, now)) == AllCriticals(t) + [now]
  {
  }

  lemma GiveUpKeepsChanges(c: Cell, now: Time, evidence: seq<seq<Check>>)
    requires c.recovery.Some?
    ensures var c' := DecideCell(c, GiveUp, now, evidence);
      && c'.data == c.data && c'.pending == c.pending && c'.trace == OnGiveUp(c.trace, now)
      && c'.trace.changes == c.trace.changes
  {
  }

  lemma ResetKeepsEvents(cfg: ServiceConfig, c: Cell, channel: seq<StatusChangeEvent>, seen: ServiceStatus)
    requires EventsOk(cfg, c, channel)
    ensures EventsOk(cfg, ResetCell(c, seen), channel)
  {
    var closed := c.trace.open.(closedBy := Some(seen));
    assert (c.trace.past + [closed])[..|c.trace.past|] == c.trace.past;
  }
}
