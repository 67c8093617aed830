/** What holds of status events in every run: accounting, order, and what the alert engine makes of them. */
module EventTheorems {
  import opened Models
  import opened Store
  import opened Backoff
  import opened World
  import opened EventInvariant
  import opened SystemInvariant
  import opened StoreTheorems
  import opened Alerts

  lemma ReachableEvents(s: Setup, w: State, id: string)
    requires ValidSystem(s) && Reachable(s, w) && id in s.cfgs
    ensures id in w.cells && s.cfgs[id].id == id && EventsOk(s.cfgs[id], w.cells[id], w.channel)
      && ChannelOk(s, w.channel)
  {
    ReachableInv(s, w);
    assert ValidService(id, s.cfgs[id]);
    assert CellOk(s, id, w.cells[id], PhaseOf(w.coord, id), w.channel, w.clock);
  }

  /** In lock order the changes of a service form a chain from Unknown to its current status, without self-loops. */
  lemma ChangesFormAChain(s: Setup, w: State, id: string)
    requires ValidSystem(s) && Reachable(s, w) && id in s.cfgs
    ensures id in w.cells
    ensures var changes, now := w.cells[id].trace.changes, w.cells[id].data.state.status;
      && (changes == [] ==> now == Unknown)
      && (changes != [] ==> changes[0].previousStatus == Unknown && changes[|changes| - 1].newStatus == now)
      && (forall i :: 0 < i < |changes| ==> changes[i].previousStatus == changes[i - 1].newStatus)
      && (forall i :: 0 <= i < |changes| ==> changes[i].previousStatus != changes[i].newStatus)
  {
    ReachableEvents(s, w, id);
  }

  /** However late events are sent, each change is on the channel or still with its task, and exactly once; and for
      every status the events into it minus the events out of it tell whether the service has it now. */
  lemma EventsAreAccountedFor(s: Setup, w: State, id: string, status: ServiceStatus)
    requires ValidSystem(s) && Reachable(s, w) && id in s.cfgs
    ensures id in w.cells
    ensures SentBag(w.channel, id) + PendingBag(w.cells[id].pending) == multiset(w.cells[id].trace.changes)
    ensures Net(w.channel, id, status) + NetPending(w.cells[id].pending, status)
         == One(status == w.cells[id].data.state.status) - One(status == Unknown)
    ensures CriticalTimes(w.channel, id) == AllCriticals(w.cells[id].trace)
  {
    ReachableEvents(s, w, id);
  }

  /** With nothing pending, the channel alone tells the current status: it is the one status with more events in than
      out, or Unknown if every status balances. */
  lemma ChannelTellsStatus(s: Setup, w: State, id: string, status: ServiceStatus)
    requires ValidSystem(s) && Reachable(s, w) && id in s.cfgs && id in w.cells
    requires forall k :: 0 <= k < |w.cells[id].pending| ==> w.cells[id].pending[k].None?
    ensures status != Unknown ==> (w.cells[id].data.state.status == status <==> Net(w.channel, id, status) == 1)
    ensures w.cells[id].data.state.status == Unknown <==> forall other :: Net(w.channel, id, other) == 0
  {
    ReachableEvents(s, w, id);
    NothingPending(w.cells[id].pending);
    EventsAreAccountedFor(s, w, id, status);
    var now := w.cells[id].data.state.status;
    EventsAreAccountedFor(s, w, id, now);
    forall other ensures Net(w.channel, id, other) == One(other == now) - One(other == Unknown) {
      EventsAreAccountedFor(s, w, id, other);
    }
  }

  /** The noise filter never hides a real event: whatever any run puts on the channel is of a configured service and is
      either handled through or held back by the cooldown. */
  lemma RealEventsAreNeverNoise(s: Setup, w: State, k: nat, limits: map<string, LimitEntry>, now: Time)
    requires ValidSystem(s) && Reachable(s, w) && k < |w.channel|
    ensures !ShouldSuppress(w.channel[k])
    ensures Judge(s.cfgs, limits, w.channel[k], now) == Through
      || Judge(s.cfgs, limits, w.channel[k], now) == RateLimited
  {
    ChannelHolds(s, w, k);
  }

  lemma ChannelHolds(s: Setup, w: State, k: nat)
    requires ValidSystem(s) && Reachable(s, w) && k < |w.channel|
    ensures var e := w.channel[k];
      && e.serviceId in s.cfgs
      && (ChangeOf(s.cfgs[e.serviceId], e) || NoticeOf(s.cfgs[e.serviceId], e))
  {
    hide Inv;
    hide Reachable;
    ReachableInv(s, w);
    InvChannel(s, w);
  }

  lemma InvChannel(s: Setup, w: State)
    requires Inv(s, w)
    ensures ChannelOk(s, w.channel)
  {
  }

  /** Every event that any run sends names its service as configured. It is a real change of status, or the give-up
      notice: from Failed to Failed, with the service's own budget. */
  lemma EventsNameTheirService(s: Setup, w: State, k: nat)
    requires ValidSystem(s) && Reachable(s, w) && k < |w.channel|
    ensures var e := w.channel[k];
      && e.serviceId in s.cfgs && e.serviceName == s.cfgs[e.serviceId].name
      && match e.message
         case Transition => e.previousStatus != e.newStatus
         case Critical(n) => e.previousStatus == Failed == e.newStatus && n == s.cfgs[e.serviceId].maxRestarts
  {
    ChannelHolds(s, w, k);
  }

  // ---- one upstream, one task ---------------------------------------------

  /** The transitions of one service on the channel, in the order of sending. */
  function Transitions(channel: seq<StatusChangeEvent>, id: string): seq<StatusChangeEvent> {
    if channel == [] then []
    else
      var e := channel[|channel| - 1];
      Transitions(channel[..|channel| - 1], id) + (if e.serviceId == id && e.message.Transition? then [e] else [])
  }

  lemma TransitionsAppend(channel: seq<StatusChangeEvent>, e: StatusChangeEvent, id: string)
    ensures Transitions(channel + [e], id)
         == Transitions(channel, id) + (if e.serviceId == id && e.message.Transition? then [e] else [])
  {
    assert (channel + [e])[..|channel|] == channel;
  }

  ghost predicate InOrder(channel: seq<StatusChangeEvent>, id: string, c: Cell) {
    |c.pending| == 1 && Transitions(channel, id) + ToSeq(c.pending[0]) == c.trace.changes
  }

  lemma CommitKeepsOrder(cfg: ServiceConfig, c: Cell, channel: seq<StatusChangeEvent>, r: CheckReport, now: Time)
    requires InOrder(channel, cfg.id, c) && c.pending[0].None?
    ensures InOrder(channel, cfg.id, CommitCell(c, 0, r, now))
  {
    hide Transitions;
    hide FindUpstream;
    assert Transitions(channel, cfg.id) + [] == Transitions(channel, cfg.id);
  }

  lemma SendKeepsOrder(id: string, c: Cell, channel: seq<StatusChangeEvent>)
    requires InOrder(channel, id, c) && c.pending[0].Some? && IsChange(id, c.pending[0].value)
    ensures InOrder(channel + [c.pending[0].value], id, SendCell(c, 0))
  {
    TransitionsAppend(channel, c.pending[0].value, id);
    hide Transitions;
    assert c.trace.changes + [] == c.trace.changes;
  }

  /** Other services' events, and notices, are no transitions of this one. */
  lemma UnrelatedKeepsOrder(id: string, c: Cell, c': Cell, channel: seq<StatusChangeEvent>, e: StatusChangeEvent)
    requires InOrder(channel, id, c) && c'.pending == c.pending && c'.trace.changes == c.trace.changes
    requires e.serviceId != id || e.message.Critical?
    ensures InOrder(channel + [e], id, c')
  {
    TransitionsAppend(channel, e, id);
    hide Transitions;
    assert Transitions(channel, id) + [] == Transitions(channel, id);
  }

  /** What any step but the service's own commits and sends does to its changes and to the channel. */
  lemma OtherStepsSend(s: Setup, w: State, a: Action, id: string) returns (sent: Option<StatusChangeEvent>)
    requires Enabled(s, w, a) && id in w.cells && !(a.Commit? && a.id == id) && !(a.SendEvent? && a.id == id)
    requires a.VisitService? && a.id in s.cfgs ==> s.cfgs[a.id].id == a.id
    ensures var w' := Step(s, w, a);
      && id in w'.cells
      && w'.cells[id].pending == w.cells[id].pending && w'.cells[id].trace.changes == w.cells[id].trace.changes
      && w'.channel == w.channel + ToSeq(sent)
    ensures sent.Some? ==> sent.value.message.Critical? || (a.SendEvent? && sent == w.cells[a.id].pending[a.task])
  {
    hide Decide;
    if a.SendEvent? {
      sent := w.cells[a.id].pending[a.task];
    } else if a.VisitService? && w.coord.snap[a.id].status == Failed
              && a.id in s.cfgs && DecisionAt(s, w, a.id).GiveUp? {
      sent := Some(CriticalEvent(s.cfgs[a.id], w.clock));
    } else {
      sent := None;
      assert w.channel + [] == w.channel;
    }
  }

  lemma StepKeepsOrder(s: Setup, w: State, a: Action, id: string)
    requires ValidSystem(s) && Reachable(s, w) && Enabled(s, w, a) && id in s.cfgs && id in w.cells
    requires InOrder(w.channel, id, w.cells[id])
    ensures id in Step(s, w, a).cells && InOrder(Step(s, w, a).channel, id, Step(s, w, a).cells[id])
  {
    ReachableEvents(s, w, id);
    if a.SendEvent? { ConfiguredEvents(s, w, a.id); }
    if a.VisitService? && a.id in s.cfgs { assert ValidService(a.id, s.cfgs[a.id]); }
    hide Reachable;
    hide ValidSystem;
    hide ChannelOk;
    hide InOrder;
    hide ExactlyOnce;
    hide Balanced;
    hide Chain;
    OnlyTask(w.channel, id, w.cells[id]);
    hide CommitCell;
    hide SendCell;
    if a.Commit? && a.id == id {
      CommitKeepsOrder(s.cfgs[id], w.cells[id], w.channel,
                       ReportOf(s.cfgs[id], 0, a.success, a.latencyMs, a.error), w.clock);
    } else if a.SendEvent? && a.id == id {
      SendKeepsOrder(id, w.cells[id], w.channel);
    } else {
      var sent := OtherStepsSend(s, w, a, id);
      hide Step;
      OtherStepKeepsOrder(w.channel, id, w.cells[id], Step(s, w, a).cells[id], sent);
    }
  }

  lemma OnlyTask(channel: seq<StatusChangeEvent>, id: string, c: Cell)
    requires InOrder(channel, id, c)
    ensures |c.pending| == 1
  {
  }

  lemma ConfiguredEvents(s: Setup, w: State, id: string)
    requires ValidSystem(s) && Reachable(s, w) && id in w.cells
    ensures forall k :: 0 <= k < |w.cells[id].pending| && w.cells[id].pending[k].Some? ==>
      w.cells[id].pending[k].value.serviceId == id
  {
    ReachableInv(s, w);
    InvKnowsAll(s, w);
    ReachableEvents(s, w, id);
  }

  lemma OtherStepKeepsOrder(channel: seq<StatusChangeEvent>, id: string, c: Cell, c': Cell,
                            sent: Option<StatusChangeEvent>)
    requires InOrder(channel, id, c) && c'.pending == c.pending && c'.trace.changes == c.trace.changes
    requires sent.Some? ==> sent.value.serviceId != id || sent.value.message.Critical?
    ensures InOrder(channel + ToSeq(sent), id, c')
  {
    if sent.Some? {
      UnrelatedKeepsOrder(id, c, c', channel, sent.value);
    } else {
      assert channel + [] == channel;
    }
    hide Transitions;
  }

  lemma StartsInOrder(s: Setup, clock: Time, id: string)
    requires id in s.cfgs && |s.cfgs[id].upstreams| == 1
    ensures id in Init(s, clock).cells && InOrder(Init(s, clock).channel, id, Init(s, clock).cells[id])
  {
  }

  /** A service with one upstream has one task, so its transitions reach the channel in lock order: those sent,
      followed by the one that is not sent yet, are its changes as a sequence. */
  lemma {:induction false} SingleUpstreamKeepsOrder(s: Setup, clock: Time, ws: seq<State>, acts: seq<Action>, i: nat,
                                                    id: string)
    requires ValidSystem(s) && IsRun(s, clock, ws, acts) && i < |ws| && id in s.cfgs && |s.cfgs[id].upstreams| == 1
    ensures id in ws[i].cells && |ws[i].cells[id].pending| == 1
    ensures Transitions(ws[i].channel, id) + ToSeq(ws[i].cells[id].pending[0]) == ws[i].cells[id].trace.changes
  {
    hide ValidSystem;
    hide Step;
    hide Enabled;
    if i == 0 {
      StartsInOrder(s, clock, id);
    } else {
      SingleUpstreamKeepsOrder(s, clock, ws, acts, i - 1, id);
      RunReaches(s, clock, ws, acts, i - 1);
      assert ws[i] == Step(s, ws[i - 1], acts[i - 1]);
      hide IsRun;
      hide Reachable;
      StepKeepsOrder(s, ws[i - 1], acts[i - 1], id);
    }
  }
}
