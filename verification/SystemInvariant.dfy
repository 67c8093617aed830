/** One invariant of the whole system, kept by every step whatever the interleaving. */
module SystemInvariant {
  import opened Models
  import opened Store
  import opened History
  import opened Backoff
  import opened World
  import opened DataInvariant
  import opened RecoveryInvariant
  import opened Accounting
  import opened EventInvariant

  ghost predicate ValidSystem(s: Setup) {
    forall id :: id in s.cfgs ==> ValidService(id, s.cfgs[id]) && BudgetFits(s.cfgs[id])
  }

  function QueuePhase(snap: map<string, Seen>, todo: set<string>, id: string): Phase {
    if id in todo && id in snap then Queued(snap[id]) else Out
  }

  function PhaseOf(coord: Coordinator, id: string): Phase {
    match coord
    case Idle => Out
    case Scanning(snap, todo) => QueuePhase(snap, todo, id)
    case Restarting(snap, todo, current, number, startedAt, target) =>
      if id == current then InFlight(number, startedAt, target) else QueuePhase(snap, todo, id)
    case Recording(snap, todo, current, record) =>
      if id == current then Ended(record) else QueuePhase(snap, todo, id)
  }

  ghost predicate CoordOk(s: Setup, coord: Coordinator) {
    match coord
    case Idle => true
    case Scanning(snap, todo) => todo <= snap.Keys == s.cfgs.Keys
    case Restarting(snap, todo, id, _, _, _) => todo <= snap.Keys == s.cfgs.Keys && id in s.cfgs && id !in todo
    case Recording(snap, todo, id, _) => todo <= snap.Keys == s.cfgs.Keys && id in s.cfgs && id !in todo
  }

  /** Only transitions and give-up notices of configured services are ever sent. */
  ghost predicate ChannelOk(s: Setup, channel: seq<StatusChangeEvent>) {
    forall k :: 0 <= k < |channel| ==>
      && channel[k].serviceId in s.cfgs
      && (ChangeOf(s.cfgs[channel[k].serviceId], channel[k]) || NoticeOf(s.cfgs[channel[k].serviceId], channel[k]))
  }

  ghost predicate CellOk(s: Setup, id: string, c: Cell, phase: Phase, channel: seq<StatusChangeEvent>, clock: Time) {
    && id in s.cfgs
    && DataOk(s.cfgs[id], c.data, c.trace.hist, c.trace.commits)
    && RecoveryOk(s.cfgs[id], s.docker, c, phase, clock)
    && AccountOk(id, c.data, c.trace, phase)
    && EventsOk(s.cfgs[id], c, channel)
  }

  ghost predicate Inv(s: Setup, w: State) {
    && w.cells.Keys == s.cfgs.Keys
    && CoordOk(s, w.coord)
    && ChannelOk(s, w.channel)
    && forall id :: id in s.cfgs ==> CellOk(s, id, w.cells[id], PhaseOf(w.coord, id), w.channel, w.clock)
  }

  // ---- steps on one cell --------------------------------------------------

  lemma InitialCellOk(s: Setup, id: string, clock: Time)
    requires ValidSystem(s) && id in s.cfgs
    ensures CellOk(s, id, InitialCell(s.cfgs[id]), Out, [], clock)
  {
    var cfg := s.cfgs[id];
    InitialDataOk(id, cfg);
    InitialRecoveryOk(cfg, s.docker, clock);
    InitialAccountOk(cfg);
    InitialEventsOk(cfg);
    assert ValidService(id, cfg);
    hide DataOk;
    hide RecoveryOk;
    hide AccountOk;
    hide EventsOk;
    hide InitialCell;
  }

  lemma InitialRecoveryOk(cfg: ServiceConfig, docker: bool, clock: Time)
    ensures RecoveryOk(cfg, docker, InitialCell(cfg), Out, clock)
  {
    hide InitialEntries;
  }

  lemma InitialAccountOk(cfg: ServiceConfig)
    ensures AccountOk(cfg.id, InitialCell(cfg).data, InitialCell(cfg).trace, Out)
  {
    assert StampsOf([]) == [] && Recorded([]) == [];
  }

  lemma InitialEventsOk(cfg: ServiceConfig)
    ensures EventsOk(cfg, InitialCell(cfg), [])
  {
    NothingPending(InitialCell(cfg).pending);
  }

  lemma {:induction false} NothingPending(pending: seq<Option<StatusChangeEvent>>)
    requires forall k :: 0 <= k < |pending| ==> pending[k].None?
    ensures PendingBag(pending) == multiset{}
    ensures forall s :: NetPending(pending, s) == 0
  {
    if pending != [] { NothingPending(pending[..|pending| - 1]); }
  }

  lemma TickCell(s: Setup, id: string, c: Cell, phase: Phase, channel: seq<StatusChangeEvent>, clock: Time,
                 clock': Time)
    requires CellOk(s, id, c, phase, channel, clock) && clock <= clock'
    ensures CellOk(s, id, c, phase, channel, clock')
  {
    GrowthKeepsRecovery(s.cfgs[id], s.docker, c, c, phase, clock, clock');
  }

  lemma CommitCellOk(s: Setup, id: string, c: Cell, phase: Phase, channel: seq<StatusChangeEvent>, clock: Time,
                     task: nat, success: bool, latencyMs: nat, error: Option<string>)
    requires CellOk(s, id, c, phase, channel, clock) && s.cfgs[id].id == id
    requires task < |s.cfgs[id].upstreams| && task < |c.pending| && c.pending[task].None?
    ensures CellOk(s, id, CommitCell(c, task, ReportOf(s.cfgs[id], task, success, latencyMs, error), clock),
                   phase, channel, clock)
  {
    var cfg := s.cfgs[id];
    var r := ReportOf(cfg, task, success, latencyMs, error);
    var c' := CommitCell(c, task, r, clock);
    hide CommitCell;
    hide CommitData;
    CommitKeepsData(cfg, c, task, success, latencyMs, error, clock);
    CommitIsNoRecovery(c, task, r, clock);
    hide ReportOf;
    hide DataOk;
    hide RecoveryOk;
    hide EventsOk;
    GrowthKeepsRecovery(cfg, s.docker, c, c', phase, clock, clock);
    CommitKeepsEvents(cfg, c, channel, task, r, clock);
  }

  lemma CommitIsNoRecovery(c: Cell, task: nat, r: CheckReport, now: Time)
    requires task < |c.pending|
    ensures var c' := CommitCell(c, task, r, now);
      && c'.recovery == c.recovery
      && c'.trace.open == c.trace.open && c'.trace.past == c.trace.past && c'.trace.records == c.trace.records
  {
    hide FindUpstream;
  }

  lemma SendCellOk(s: Setup, id: string, c: Cell, phase: Phase, channel: seq<StatusChangeEvent>, clock: Time, task: nat)
    requires CellOk(s, id, c, phase, channel, clock) && task < |c.pending| && c.pending[task].Some?
    ensures CellOk(s, id, SendCell(c, task), phase, channel + [c.pending[task].value], clock)
  {
    SendKeepsEvents(s.cfgs[id], c, channel, task);
    GrowthKeepsRecovery(s.cfgs[id], s.docker, c, SendCell(c, task), phase, clock, clock);
    hide EventsOk;
    hide RecoveryOk;
  }

  lemma OtherCellOk(s: Setup, id: string, c: Cell, phase: Phase, channel: seq<StatusChangeEvent>, clock: Time,
                    e: StatusChangeEvent)
    requires CellOk(s, id, c, phase, channel, clock) && s.cfgs[id].id == id && e.serviceId != id
    ensures CellOk(s, id, c, phase, channel + [e], clock)
  {
    OtherServicesSend(s.cfgs[id], c, channel, e);
    hide EventsOk;
  }

  lemma QueueCellOk(s: Setup, id: string, c: Cell, channel: seq<StatusChangeEvent>, clock: Time)
    requires CellOk(s, id, c, Out, channel, clock) && s.cfgs[id].upstreams != []
    ensures CellOk(s, id, c, Queued(SeeCell(c)), channel, clock)
  {
    QueueKeepsRecovery(s.cfgs[id], s.docker, c, clock);
    hide RecoveryOk;
  }

  lemma DequeueCellOk(s: Setup, id: string, c: Cell, seen: Seen, channel: seq<StatusChangeEvent>, clock: Time)
    requires CellOk(s, id, c, Queued(seen), channel, clock)
    ensures CellOk(s, id, c, Out, channel, clock)
  {
    hide RecoveryOk;
    hide AccountOk;
    DequeueKeepsRecovery(s.cfgs[id], s.docker, c, seen, clock);
    QueuedIsOut(id, c, seen);
  }

  lemma ResetCellOk(s: Setup, id: string, c: Cell, seen: Seen, channel: seq<StatusChangeEvent>, clock: Time)
    requires CellOk(s, id, c, Queued(seen), channel, clock)
    requires seen.status == Healthy || seen.status == Unknown
    ensures CellOk(s, id, ResetCell(c, seen.status), Out, channel, clock)
  {
    hide RecoveryOk;
    hide EventsOk;
    hide DataOk;
    hide AccountOk;
    ResetKeepsRecovery(s.cfgs[id], s.docker, c, seen, clock);
    ResetKeepsAccount(id, c, seen.status, Queued(seen));
    ResetKeepsEvents(s.cfgs[id], c, channel, seen.status);
    QueuedIsOut(id, ResetCell(c, seen.status), seen);
  }

  function SentBy(cfg: ServiceConfig, d: Decision, now: Time): seq<StatusChangeEvent> {
    if d.GiveUp? then [CriticalEvent(cfg, now)] else []
  }

  lemma DecideCellOk(s: Setup, id: string, c: Cell, seen: Seen, channel: seq<StatusChangeEvent>, clock: Time)
    requires CellOk(s, id, c, Queued(seen), channel, clock) && seen.status == Failed
    requires ValidService(id, s.cfgs[id]) && BudgetFits(s.cfgs[id])
    ensures var d := Decide(s.cfgs[id], c.recovery, clock, s.docker);
      CellOk(s, id, DecideCell(c, d, clock, seen.hist),
             if d.Start? then InFlight(d.number, clock, d.target) else Out,
             channel + SentBy(s.cfgs[id], d, clock), clock)
  {
    hide RecoveryOk;
    hide EventsOk;
    hide DataOk;
    hide AccountOk;
    hide Decide;
    var cfg := s.cfgs[id];
    var d := Decide(cfg, c.recovery, clock, s.docker);
    RecoveryIsPresent(cfg, s.docker, c, Queued(seen), clock);
    DecideKeepsRecovery(cfg, s.docker, c, seen, clock);
    DecideKeepsAccount(id, c, d, clock, seen.hist, Queued(seen));
    if d.GiveUp? {
      GiveUpKeepsEvents(cfg, c, channel, clock, seen.hist);
    } else {
      assert channel + [] == channel;
      OnlyNoticesChangeEvents(cfg, c, d, clock, seen.hist, channel);
    }
  }

  lemma RecoveryIsPresent(cfg: ServiceConfig, docker: bool, c: Cell, phase: Phase, clock: Time)
    requires RecoveryOk(cfg, docker, c, phase, clock)
    ensures c.recovery.Some?
  {
  }

  lemma QueuedIsOut(id: string, c: Cell, seen: Seen)
    requires AccountOk(id, c.data, c.trace, Queued(seen))
    ensures AccountOk(id, c.data, c.trace, Out)
  {
  }

  lemma OnlyNoticesChangeEvents(cfg: ServiceConfig, c: Cell, d: Decision, now: Time, evidence: seq<seq<Check>>,
                                channel: seq<StatusChangeEvent>)
    requires EventsOk(cfg, c, channel) && !d.GiveUp?
    ensures EventsOk(cfg, DecideCell(c, d, now, evidence), channel)
  {
    DecisionsAreNoChanges(c, d, now, evidence);
    hide DecideCell;
    hide PendingOk;
    hide Chain;
    hide ExactlyOnce;
    hide Balanced;
    hide AllCriticals;
    hide CriticalTimes;
  }

  lemma DecisionsAreNoChanges(c: Cell, d: Decision, now: Time, evidence: seq<seq<Check>>)
    requires !d.GiveUp?
    ensures var c' := DecideCell(c, d, now, evidence);
      && c'.data == c.data && c'.pending == c.pending && c'.trace.changes == c.trace.changes
      && AllCriticals(c'.trace) == AllCriticals(c.trace)
  {
  }

  lemma EndCellOk(s: Setup, id: string, c: Cell, phase: Phase, record: RestartRecord, channel: seq<StatusChangeEvent>,
                  clock: Time)
    requires CellOk(s, id, c, phase, channel, clock) && phase.InFlight?
    requires record.serviceId == id && record.attemptNumber == phase.number && record.attemptedAt == phase.startedAt
    ensures CellOk(s, id, EndCell(c, clock), Ended(record), channel, clock)
    ensures c.recovery.Some?
  {
    hide RecoveryOk;
    hide AccountOk;
    RecoveryIsPresent(s.cfgs[id], s.docker, c, phase, clock);
    EndKeepsRecovery(s.cfgs[id], s.docker, c, phase, record, clock);
    EndKeepsAccount(id, c, phase, record, clock);
  }

  lemma RecordCellOk(s: Setup, id: string, c: Cell, record: RestartRecord, channel: seq<StatusChangeEvent>, clock: Time)
    requires CellOk(s, id, c, Ended(record), channel, clock)
    ensures CellOk(s, id, RecordCell(c, record), Out, channel, clock)
  {
    RecordKeepsAccount(id, c, record);
    RecordKeepsRecovery(s.cfgs[id], s.docker, c, record, clock);
    hide RecoveryOk;
    hide AccountOk;
  }

  // ---- steps of the system ------------------------------------------------

  /** Only the cell of `id` and its phase change; the channel and the clock stay. */
  lemma OneCellChanges(s: Setup, w: State, w': State, id: string, c': Cell)
    requires Inv(s, w) && id in s.cfgs
    requires w'.clock == w.clock && w'.channel == w.channel && w'.cells == w.cells[id := c']
    requires CoordOk(s, w'.coord)
    requires forall other :: other in s.cfgs && other != id ==> PhaseOf(w'.coord, other) == PhaseOf(w.coord, other)
    requires CellOk(s, id, c', PhaseOf(w'.coord, id), w'.channel, w'.clock)
    ensures Inv(s, w')
  {
    hide CellOk;
    hide PhaseOf;
    hide ChannelOk;
    hide CoordOk;
  }

  /** As above, and one event of `id` is sent. */
  lemma OneCellSends(s: Setup, w: State, w': State, id: string, c': Cell, e: StatusChangeEvent)
    requires ValidSystem(s) && Inv(s, w) && id in s.cfgs && e.serviceId == id
    requires ChangeOf(s.cfgs[id], e) || NoticeOf(s.cfgs[id], e)
    requires w'.clock == w.clock && w'.channel == w.channel + [e] && w'.cells == w.cells[id := c']
    requires CoordOk(s, w'.coord)
    requires forall other :: other in s.cfgs && other != id ==> PhaseOf(w'.coord, other) == PhaseOf(w.coord, other)
    requires CellOk(s, id, c', PhaseOf(w'.coord, id), w'.channel, w'.clock)
    ensures Inv(s, w')
  {
    hide CellOk;
    hide PhaseOf;
    hide CoordOk;
    forall other | other in s.cfgs && other != id
      ensures CellOk(s, other, w'.cells[other], PhaseOf(w'.coord, other), w'.channel, w'.clock)
    {
      assert ValidService(other, s.cfgs[other]);
      OtherCellOk(s, other, w.cells[other], PhaseOf(w.coord, other), w.channel, w.clock, e);
    }
  }

  lemma InitInv(s: Setup, clock: Time)
    requires ValidSystem(s)
    ensures Inv(s, Init(s, clock))
  {
    hide CellOk;
    forall id | id in s.cfgs ensures CellOk(s, id, Init(s, clock).cells[id], Out, [], clock) {
      InitialCellOk(s, id, clock);
    }
  }

  lemma TickInv(s: Setup, w: State, d: nat)
    requires Inv(s, w)
    ensures Inv(s, w.(clock := w.clock + d))
  {
    hide CellOk;
    forall id | id in s.cfgs ensures CellOk(s, id, w.cells[id], PhaseOf(w.coord, id), w.channel, w.clock + d) {
      TickCell(s, id, w.cells[id], PhaseOf(w.coord, id), w.channel, w.clock, w.clock + d);
    }
  }

  lemma ScanStartInv(s: Setup, w: State)
    requires ValidSystem(s) && Inv(s, w) && Enabled(s, w, ScanStart)
    ensures Inv(s, Step(s, w, ScanStart))
  {
    hide CellOk;
    var w' := Step(s, w, ScanStart);
    forall id | id in s.cfgs ensures CellOk(s, id, w'.cells[id], PhaseOf(w'.coord, id), w'.channel, w'.clock) {
      assert ValidService(id, s.cfgs[id]);
      assert CellOk(s, id, w.cells[id], PhaseOf(w.coord, id), w.channel, w.clock);
      QueueCellOk(s, id, w.cells[id], w.channel, w.clock);
    }
  }

  lemma ScanEndInv(s: Setup, w: State)
    requires Inv(s, w) && Enabled(s, w, ScanEnd)
    ensures Inv(s, Step(s, w, ScanEnd))
  {
    hide CellOk;
    assert forall id :: PhaseOf(w.coord, id) == Out;
  }

  lemma CommitInv(s: Setup, w: State, a: Action)
    requires ValidSystem(s) && Inv(s, w) && a.Commit? && Enabled(s, w, a)
    ensures Inv(s, Step(s, w, a))
  {
    hide CellOk;
    var id, w' := a.id, Step(s, w, a);
    assert ValidService(id, s.cfgs[id]);
    CommitCellOk(s, id, w.cells[id], PhaseOf(w.coord, id), w.channel, w.clock, a.task, a.success, a.latencyMs, a.error);
    OneCellChanges(s, w, w', id, w'.cells[id]);
  }

  lemma PendingIsChange(s: Setup, id: string, c: Cell, phase: Phase, channel: seq<StatusChangeEvent>, clock: Time,
                        task: nat)
    requires CellOk(s, id, c, phase, channel, clock) && s.cfgs[id].id == id
    requires task < |c.pending| && c.pending[task].Some?
    ensures ChangeOf(s.cfgs[id], c.pending[task].value)
  {
  }

  lemma SendInv(s: Setup, w: State, a: Action)
    requires ValidSystem(s) && Inv(s, w) && a.SendEvent? && Enabled(s, w, a)
    ensures Inv(s, Step(s, w, a))
  {
    hide CellOk;
    var id, w' := a.id, Step(s, w, a);
    assert ValidService(id, s.cfgs[id]);
    PendingIsChange(s, id, w.cells[id], PhaseOf(w.coord, id), w.channel, w.clock, a.task);
    SendCellOk(s, id, w.cells[id], PhaseOf(w.coord, id), w.channel, w.clock, a.task);
    OneCellSends(s, w, w', id, w'.cells[id], w.cells[id].pending[a.task].value);
  }

  lemma VisitInv(s: Setup, w: State, id: string)
    requires ValidSystem(s) && Inv(s, w) && Enabled(s, w, VisitService(id))
    ensures Inv(s, Step(s, w, VisitService(id)))
  {
    hide CellOk;
    var w', c, seen := Visited(s, w, id), w.cells[id], w.coord.snap[id];
    assert ValidService(id, s.cfgs[id]) && BudgetFits(s.cfgs[id]);
    assert CellOk(s, id, c, Queued(seen), w.channel, w.clock);
    match seen.status
    case Failed => FailedVisitInv(s, w, id);
    case Degraded =>
      DequeueCellOk(s, id, c, seen, w.channel, w.clock);
      OneCellChanges(s, w, w', id, w'.cells[id]);
    case _ =>
      ResetCellOk(s, id, c, seen, w.channel, w.clock);
      OneCellChanges(s, w, w', id, w'.cells[id]);
  }

  lemma FailedVisitInv(s: Setup, w: State, id: string)
    requires Enabled(s, w, VisitService(id)) && w.coord.snap[id].status == Failed
    requires ValidSystem(s) && Inv(s, w)
    ensures Inv(s, Step(s, w, VisitService(id)))
  {
    hide CellOk;
    hide Decide;
    assert id in s.cfgs;
    var w', c, seen, cfg := Step(s, w, VisitService(id)), w.cells[id], w.coord.snap[id], s.cfgs[id];
    var d := DecisionAt(s, w, id);
    assert ValidService(id, cfg) && BudgetFits(cfg);
    assert CellOk(s, id, c, Queued(seen), w.channel, w.clock);
    DecideCellOk(s, id, c, seen, w.channel, w.clock);
    if d.GiveUp? {
      OneCellSends(s, w, w', id, w'.cells[id], CriticalEvent(cfg, w.clock));
    } else {
      assert w.channel + [] == w.channel;
      OneCellChanges(s, w, w', id, w'.cells[id]);
    }
  }

  lemma RestartEndInv(s: Setup, w: State, outcome: RestartOutcome)
    requires Inv(s, w) && Enabled(s, w, RestartEnd(outcome))
    ensures Inv(s, Step(s, w, RestartEnd(outcome)))
  {
    hide CellOk;
    var k := w.coord;
    var record := RestartRecord(k.id, k.startedAt, outcome == Succeeded, k.number);
    EndCellOk(s, k.id, w.cells[k.id], PhaseOf(k, k.id), record, w.channel, w.clock);
    var w' := Step(s, w, RestartEnd(outcome));
    OneCellChanges(s, w, w', k.id, w'.cells[k.id]);
  }

  lemma RecordInv(s: Setup, w: State)
    requires Inv(s, w) && Enabled(s, w, RecordAttempt)
    ensures Inv(s, Step(s, w, RecordAttempt))
  {
    hide CellOk;
    var k := w.coord;
    assert CellOk(s, k.id, w.cells[k.id], Ended(k.record), w.channel, w.clock);
    RecordCellOk(s, k.id, w.cells[k.id], k.record, w.channel, w.clock);
    var w' := Step(s, w, RecordAttempt);
    OneCellChanges(s, w, w', k.id, w'.cells[k.id]);
  }

  lemma StepKeepsInv(s: Setup, w: State, a: Action)
    requires ValidSystem(s) && Inv(s, w) && Enabled(s, w, a)
    ensures Inv(s, Step(s, w, a))
  {
    hide Inv;
    match a
    case Tick(d) => TickInv(s, w, d);
    case Commit(_, _, _, _, _) => CommitInv(s, w, a);
    case SendEvent(_, _) => SendInv(s, w, a);
    case ScanStart => ScanStartInv(s, w);
    case VisitService(id) => VisitInv(s, w, id);
    case RestartEnd(outcome) => RestartEndInv(s, w, outcome);
    case RecordAttempt => RecordInv(s, w);
    case ScanEnd => ScanEndInv(s, w);
  }

  /** Every state of every run satisfies the invariant. */
  lemma {:induction false} RunKeepsInv(s: Setup, clock: Time, ws: seq<State>, acts: seq<Action>, i: nat)
    requires ValidSystem(s) && IsRun(s, clock, ws, acts) && i < |ws|
    ensures Inv(s, ws[i])
  {
    hide Inv;
    if i == 0 {
      InitInv(s, clock);
    } else {
      RunKeepsInv(s, clock, ws, acts, i - 1);
      assert ws[i] == Step(s, ws[i - 1], acts[i - 1]);
      StepKeepsInv(s, ws[i - 1], acts[i - 1]);
    }
  }
}
