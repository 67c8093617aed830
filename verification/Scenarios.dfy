/** Runs built on purpose: what the system can be brought to, and exactly when. */
module Scenarios {
  import opened Models
  import opened Store
  import opened History
  import opened Backoff
  import opened World
  import opened DataInvariant
  import opened RecoveryInvariant
  import opened SystemInvariant
  import opened StoreTheorems
  import opened RecoveryTheorems

  // ---- paths --------------------------------------------------------------

  ghost predicate Path(s: Setup, w: State, acts: seq<Action>, w': State)
    decreases |acts|
  {
    if acts == [] then w' == w
    else Enabled(s, w, acts[0]) && Path(s, Step(s, w, acts[0]), acts[1..], w')
  }

  /** Some actions in a row take the system from `w` to `w'`. */
  ghost predicate Leads(s: Setup, w: State, w': State) {
    exists acts :: Path(s, w, acts, w')
  }

  lemma {:induction false} PathConcat(s: Setup, w: State, acts: seq<Action>, w1: State, more: seq<Action>, w2: State)
    requires Path(s, w, acts, w1) && Path(s, w1, more, w2)
    ensures Path(s, w, acts + more, w2)
    decreases |acts|
  {
    hide Step;
    hide Enabled;
    if acts == [] {
      assert acts + more == more;
    } else {
      PathConcat(s, Step(s, w, acts[0]), acts[1..], w1, more, w2);
      assert (acts + more)[0] == acts[0] && (acts + more)[1..] == acts[1..] + more;
    }
  }

  lemma LeadsNowhere(s: Setup, w: State)
    ensures Leads(s, w, w)
  {
    assert Path(s, w, [], w);
  }

  lemma LeadsFurther(s: Setup, w: State, w1: State, a: Action)
    requires Leads(s, w, w1) && Enabled(s, w1, a)
    ensures Leads(s, w, Step(s, w1, a))
  {
    hide Step;
    hide Enabled;
    var acts :| Path(s, w, acts, w1);
    assert Path(s, Step(s, w1, a), [], Step(s, w1, a));
    assert [a][1..] == [];
    assert Path(s, w1, [a], Step(s, w1, a));
    PathConcat(s, w, acts, w1, [a], Step(s, w1, a));
  }

  lemma LeadsOn(s: Setup, w: State, w1: State, w2: State)
    requires Leads(s, w, w1) && Leads(s, w1, w2)
    ensures Leads(s, w, w2)
  {
    var acts :| Path(s, w, acts, w1);
    var more :| Path(s, w1, more, w2);
    PathConcat(s, w, acts, w1, more, w2);
  }

  lemma Follow(s: Setup, w: State, w1: State, a: Action) returns (w2: State)
    requires Leads(s, w, w1) && Reachable(s, w1) && Enabled(s, w1, a)
    ensures Leads(s, w, w2) && Reachable(s, w2) && w2 == Step(s, w1, a)
  {
    LeadsFurther(s, w, w1, a);
    ReachableStep(s, w1, a);
    w2 := Step(s, w1, a);
  }

  // ---- checks -------------------------------------------------------------

  ghost predicate Quiet(c: Cell) {
    forall k :: 0 <= k < |c.pending| ==> c.pending[k].None?
  }

  /** From `w` to `w'` nothing but checks of the service happened, at one instant, and their events are sent: the
      last of them tells the status, and without one the status did not change. */
  ghost predicate OnlyChecked(s: Setup, w: State, w': State, id: string) {
    && Leads(s, w, w') && Reachable(s, w')
    && w'.coord == w.coord && w'.clock == w.clock
    && id in w.cells && id in w'.cells && w'.cells == w.cells[id := w'.cells[id]]
    && w'.cells[id].recovery == w.cells[id].recovery
    && w'.cells[id].trace.open == w.cells[id].trace.open && w'.cells[id].trace.past == w.cells[id].trace.past
    && Quiet(w'.cells[id])
    && w.channel <= w'.channel
    && (forall k :: |w.channel| <= k < |w'.channel| ==> w'.channel[k].timestamp == w.clock)
    && (if w'.channel == w.channel then w'.cells[id].data.state.status == w.cells[id].data.state.status
        else Last(w'.channel).serviceId == id && Last(w'.channel).newStatus == w'.cells[id].data.state.status)
  }

  lemma OnlyCheckedOn(s: Setup, w: State, w1: State, w2: State, id: string)
    requires OnlyChecked(s, w, w1, id) && OnlyChecked(s, w1, w2, id)
    ensures OnlyChecked(s, w, w2, id)
  {
    LeadsOn(s, w, w1, w2);
    hide Leads;
    hide Reachable;
    assert w2.cells == w.cells[id := w2.cells[id]];
  }

  lemma NothingChecked(s: Setup, w: State, id: string)
    requires Reachable(s, w) && id in w.cells && Quiet(w.cells[id])
    ensures OnlyChecked(s, w, w, id)
  {
    LeadsNowhere(s, w);
    hide Leads;
    hide Reachable;
    assert w.cells == w.cells[id := w.cells[id]];
  }

  /** A check of an upstream whose address is its own goes to its own history. */
  lemma CheckedCell(cfg: ServiceConfig, c: Cell, task: nat, ok: bool, now: Time)
    requires DataOk(cfg, c.data, c.trace.hist, c.trace.commits) && task < |cfg.upstreams| == |c.pending|
    requires !Shadowed(cfg.upstreams, task) && Quiet(c)
    ensures var c' := CommitCell(c, task, ReportOf(cfg, task, ok, 0, None), now);
      && c'.recovery == c.recovery && c'.trace.open == c.trace.open && c'.trace.past == c.trace.past
      && c'.trace.hist == c.trace.hist[task := c.trace.hist[task] + [Check(ok, 0, now)]]
      && |c'.pending| == |c.pending| && c'.pending == c.pending[task := c'.pending[task]]
      && match c'.pending[task]
         case None => c'.data.state.status == c.data.state.status
         case Some(e) => e.serviceId == cfg.id && e.newStatus == c'.data.state.status && e.timestamp == now
  {
    OwnEntryExactlyWhen(cfg, c.data, c.trace.hist, c.trace.commits, task);
    CommitKeepsData(cfg, c, task, ok, 0, None, now);
    hide DataOk;
    hide FindUpstream;
  }

  lemma CheckIsSent(s: Setup, w: State, w1: State, id: string, task: nat) returns (w': State)
    requires Leads(s, w, w1) && Reachable(s, w1) && id in w1.cells
    requires task < |w1.cells[id].pending|
    requires forall k :: 0 <= k < |w1.cells[id].pending| && k != task ==> w1.cells[id].pending[k].None?
    ensures Leads(s, w, w') && Reachable(s, w') && id in w'.cells && Quiet(w'.cells[id])
    ensures w' == w1.(channel := w1.channel + ToSeq(w1.cells[id].pending[task]),
                      cells := w1.cells[id := SendCell(w1.cells[id], task)])
  {
    hide Leads;
    hide Reachable;
    if w1.cells[id].pending[task].Some? {
      w' := Follow(s, w, w1, SendEvent(id, task));
    } else {
      assert SendCell(w1.cells[id], task) == w1.cells[id];
      assert w1.cells[id := w1.cells[id]] == w1.cells;
      w' := w1;
    }
  }

  lemma CheckIsCommitted(s: Setup, w: State, id: string, task: nat, ok: bool) returns (w': State)
    requires ValidSystem(s) && Reachable(s, w) && id in s.cfgs && id in w.cells && Quiet(w.cells[id])
    requires task < |s.cfgs[id].upstreams|
    ensures Leads(s, w, w') && Reachable(s, w') && task < |w.cells[id].pending|
    ensures w' == w.(cells := w.cells[id :=
      CommitCell(w.cells[id], task, ReportOf(s.cfgs[id], task, ok, 0, None), w.clock)])
  {
    LeadsNowhere(s, w);
    ReachableInv(s, w);
    DataHolds(s, w, id);
    hide ValidSystem;
    hide Inv;
    hide DataOk;
    hide CommitCell;
    hide Leads;
    hide Reachable;
    w' := Follow(s, w, w, Commit(id, task, ok, 0, None));
  }

  lemma CheckOnce(s: Setup, w: State, id: string, task: nat, ok: bool) returns (w': State)
    requires ValidSystem(s) && Reachable(s, w) && id in s.cfgs && id in w.cells && Quiet(w.cells[id])
    requires task < |s.cfgs[id].upstreams| && !Shadowed(s.cfgs[id].upstreams, task)
    ensures OnlyChecked(s, w, w', id)
    ensures var h, h' := w.cells[id].trace.hist, w'.cells[id].trace.hist;
      task < |h| && h' == h[task := h[task] + [Check(ok, 0, w.clock)]]
  {
    ReachableData(s, w, id);
    var w1 := CheckIsCommitted(s, w, id, task, ok);
    CellFacts(s, w, id);
    CheckedCell(s.cfgs[id], w.cells[id], task, ok, w.clock);
    hide CommitCell;
    hide ReportOf;
    hide ValidSystem;
    hide DataOk;
    hide Shadowed;
    w' := CheckIsSent(s, w, w1, id, task);
    hide Leads;
    hide Reachable;
    hide Quiet;
    OneCheckShows(s, w, w', id, w1.cells[id].pending[task]);
    hide OnlyChecked;
  }

  lemma OneCheckShows(s: Setup, w: State, w': State, id: string, event: Option<StatusChangeEvent>)
    requires Leads(s, w, w') && Reachable(s, w') && id in w.cells && id in w'.cells && Quiet(w'.cells[id])
    requires w' == w.(channel := w.channel + ToSeq(event), cells := w.cells[id := w'.cells[id]])
    requires w'.cells[id].recovery == w.cells[id].recovery
    requires w'.cells[id].trace.open == w.cells[id].trace.open && w'.cells[id].trace.past == w.cells[id].trace.past
    requires match event
             case None => w'.cells[id].data.state.status == w.cells[id].data.state.status
             case Some(e) =>
               e.serviceId == id && e.newStatus == w'.cells[id].data.state.status && e.timestamp == w.clock
    ensures OnlyChecked(s, w, w', id)
  {
    hide Leads;
    hide Reachable;
    hide Quiet;
  }

  lemma CellFacts(s: Setup, w: State, id: string)
    requires ValidSystem(s) && Reachable(s, w) && id in s.cfgs && id in w.cells
    ensures |w.cells[id].pending| == |s.cfgs[id].upstreams| && s.cfgs[id].id == id
  {
    ReachableInv(s, w);
    DataHolds(s, w, id);
  }

  /** The history grew by `n` checks with this result. */
  ghost predicate GrewBy(before: seq<Check>, after: seq<Check>, n: nat, ok: bool) {
    && before <= after && |after| == |before| + n
    && forall m :: |before| <= m < |after| ==> after[m].success == ok
  }

  lemma {:induction false} CheckRepeatedly(s: Setup, w: State, id: string, task: nat, ok: bool, n: nat)
      returns (w': State)
    requires ValidSystem(s) && Reachable(s, w) && id in s.cfgs && id in w.cells && Quiet(w.cells[id])
    requires task < |s.cfgs[id].upstreams| == |w.cells[id].trace.hist| && !Shadowed(s.cfgs[id].upstreams, task)
    ensures OnlyChecked(s, w, w', id)
    ensures var h, h' := w.cells[id].trace.hist, w'.cells[id].trace.hist;
      |h'| == |h| && h' == h[task := h'[task]] && GrewBy(h[task], h'[task], n, ok)
  {
    if n == 0 {
      NothingChecked(s, w, id);
      w' := w;
    } else {
      var w1 := CheckRepeatedly(s, w, id, task, ok, n - 1);
      w' := CheckOnce(s, w1, id, task, ok);
      OnlyCheckedOn(s, w, w1, w', id);
      hide ValidSystem;
      hide Reachable;
      hide Leads;
    }
  }

  lemma {:induction false} CheckAllFrom(s: Setup, w: State, id: string, from: nat, ok: bool, n: nat) returns (w': State)
    requires ValidSystem(s) && Reachable(s, w) && id in s.cfgs && id in w.cells && Quiet(w.cells[id])
    requires from <= |s.cfgs[id].upstreams| == |w.cells[id].trace.hist| && AddressesDiffer(s.cfgs[id].upstreams)
    ensures OnlyChecked(s, w, w', id)
    ensures |w'.cells[id].trace.hist| == |w.cells[id].trace.hist|
    ensures forall k :: from <= k < |w.cells[id].trace.hist| ==>
      GrewBy(w.cells[id].trace.hist[k], w'.cells[id].trace.hist[k], n, ok)
    ensures forall k :: 0 <= k < from ==> w'.cells[id].trace.hist[k] == w.cells[id].trace.hist[k]
    decreases |w.cells[id].trace.hist| - from
  {
    if from == |w.cells[id].trace.hist| {
      NothingChecked(s, w, id);
      w' := w;
    } else {
      assert !Shadowed(s.cfgs[id].upstreams, from);
      var w1 := CheckRepeatedly(s, w, id, from, ok, n);
      w' := CheckAllFrom(s, w1, id, from + 1, ok, n);
      OnlyCheckedOn(s, w, w1, w', id);
      hide ValidSystem;
      hide Reachable;
      hide Leads;
      hide GrewBy;
    }
  }

  lemma GrownIsUpOrDown(before: seq<Check>, after: seq<Check>, threshold: nat, ok: bool)
    requires GrewBy(before, after, Max(1, threshold), ok)
    ensures if ok then Up(after) else Down(after, threshold)
  {
    if !ok { DownMeansFailedRun(after, threshold); }
  }

  /** Without a repeated address, enough checks in a row make the service Healthy, or Failed, from wherever it is. */
  lemma BringTo(s: Setup, w: State, id: string, ok: bool) returns (w': State)
    requires ValidSystem(s) && Reachable(s, w) && id in s.cfgs && id in w.cells && Quiet(w.cells[id])
    requires AddressesDiffer(s.cfgs[id].upstreams)
    ensures OnlyChecked(s, w, w', id)
    ensures w'.cells[id].data.state.status == (if ok then Healthy else Failed)
  {
    ReachableData(s, w, id);
    var threshold := s.cfgs[id].failureThreshold;
    w' := CheckAllFrom(s, w, id, 0, ok, Max(1, threshold));
    StatusMeaning(s, w', id);
    hide ValidSystem;
    hide Reachable;
    hide OnlyChecked;
    forall k | 0 <= k < |w'.cells[id].trace.hist|
      ensures if ok then Up(w'.cells[id].trace.hist[k]) else Down(w'.cells[id].trace.hist[k], threshold)
    {
      GrownIsUpOrDown(w.cells[id].trace.hist[k], w'.cells[id].trace.hist[k], threshold, ok);
    }
  }

  // ---- repeated addresses, exactly ----------------------------------------

  lemma StartIsQuiet(s: Setup, id: string, clock: Time)
    requires id in s.cfgs
    ensures Reachable(s, Init(s, clock)) && id in Init(s, clock).cells && Quiet(Init(s, clock).cells[id])
  {
    ReachableInit(s, clock);
  }

  /** A service can ever be Healthy, in some run, exactly if none of its upstreams repeats an address; the same goes for
      Failed. */
  lemma SettlesExactlyWhen(s: Setup, id: string, ok: bool)
    requires ValidSystem(s) && id in s.cfgs
    ensures var settled := if ok then Healthy else Failed;
      (exists w :: Reachable(s, w) && id in w.cells && w.cells[id].data.state.status == settled)
      <==> AddressesDiffer(s.cfgs[id].upstreams)
  {
    var settled := if ok then Healthy else Failed;
    if AddressesDiffer(s.cfgs[id].upstreams) {
      StartIsQuiet(s, id, 0);
      var w := BringTo(s, Init(s, 0), id, ok);
      assert Reachable(s, w) && id in w.cells && w.cells[id].data.state.status == settled;
    } else {
      var j: nat :| Shadowed(s.cfgs[id].upstreams, j);
      forall w | Reachable(s, w) && id in w.cells ensures w.cells[id].data.state.status != settled {
        DuplicateAddressNeverSettles(s, w, id, j);
      }
    }
  }

  // ---- attempts -----------------------------------------------------------

  ghost predicate Managed(cfg: ServiceConfig) {
    cfg.restart.Some? && Mode(cfg) != NoneMode
  }

  /** No scan is under way, the service is Failed with `n` attempts in its episode and no notice, the others are
      Unknown. */
  ghost predicate AtRest(s: Setup, w: State, id: string, n: nat) {
    && Reachable(s, w) && w.coord.Idle? && id in s.cfgs && id in w.cells
    && Quiet(w.cells[id]) && w.cells[id].data.state.status == Failed
    && w.cells[id].recovery.Some? && w.cells[id].recovery.value.currentEpisodeAttempts == n
    && w.cells[id].trace.open.criticals == []
    && OthersUnknown(w, id)
  }

  ghost predicate OthersUnknown(w: State, id: string) {
    forall other :: other in w.cells && other != id ==> w.cells[other].data.state.status == Unknown
  }

  /** Visits to services seen as Unknown change nothing. */
  lemma {:induction false} FinishScan(s: Setup, w: State) returns (w': State)
    requires ValidSystem(s) && Reachable(s, w) && w.coord.Scanning?
    requires forall x :: x in w.coord.todo ==> x in w.coord.snap && w.coord.snap[x].status == Unknown
    ensures Leads(s, w, w') && Reachable(s, w') && w' == w.(coord := Idle)
    decreases w.coord.todo
  {
    LeadsNowhere(s, w);
    CoordinatorIsFree(s, w, TimedOut);
    if w.coord.todo == {} {
      LeadsFurther(s, w, w, ScanEnd);
      ReachableStep(s, w, ScanEnd);
      w' := Step(s, w, ScanEnd);
    } else {
      var x :| x in w.coord.todo;
      var w1 := UnknownVisit(s, w, x);
      LeadsFurther(s, w, w, VisitService(x));
      ReachableStep(s, w, VisitService(x));
      hide Step;
      w' := FinishScan(s, w1);
      LeadsOn(s, w, w1, w');
    }
  }

  lemma UnknownVisit(s: Setup, w: State, x: string) returns (w': State)
    requires ValidSystem(s) && Reachable(s, w) && w.coord.Scanning? && x in w.coord.todo
    requires x in w.coord.snap && w.coord.snap[x].status == Unknown
    ensures Enabled(s, w, VisitService(x)) && w' == Step(s, w, VisitService(x))
    ensures w' == w.(coord := Scanning(w.coord.snap, w.coord.todo - {x}))
  {
    CoordinatorIsFree(s, w, TimedOut);
    TodoIsConfigured(s, w, x);
    EpisodesEndByRecovery(s, w, x);
    hide Reachable;
    hide ValidSystem;
    w' := Step(s, w, VisitService(x));
    UnknownVisitIsIdle(s, w, x);
    hide Visited;
  }

  lemma TodoIsConfigured(s: Setup, w: State, x: string)
    requires ValidSystem(s) && Reachable(s, w) && w.coord.Scanning? && x in w.coord.todo
    ensures x in s.cfgs
  {
    ReachableInv(s, w);
    InvCoord(s, w);
    hide Reachable;
    hide ValidSystem;
    hide Inv;
  }

  lemma UnknownVisitIsIdle(s: Setup, w: State, x: string)
    requires w.coord.Scanning? && x in w.coord.snap && w.coord.snap[x].status == Unknown && x in w.cells
    requires w.cells[x].recovery.Some? && w.cells[x].recovery.value.currentEpisodeAttempts == 0
    ensures Visited(s, w, x) == w.(coord := Scanning(w.coord.snap, w.coord.todo - {x}))
  {
    assert ResetCell(w.cells[x], Unknown) == w.cells[x];
    assert w.cells[x := w.cells[x]] == w.cells;
  }

  const LONGEST_WAIT: nat := 362

  /** The longest wait is over. */
  ghost predicate Rested(c: Cell, clock: Time) {
    c.recovery.Some? && c.recovery.value.backoffStartedAt.Some? ==>
      c.recovery.value.backoffStartedAt.value + LONGEST_WAIT * NANOS_PER_SEC <= clock
  }

  lemma DecidesToStart(s: Setup, w: State, id: string, n: nat)
    requires ValidSystem(s) && AtRest(s, w, id, n) && n < s.cfgs[id].maxRestarts && Managed(s.cfgs[id])
    requires Rested(w.cells[id], w.clock)
    ensures var d := Decide(s.cfgs[id], w.cells[id].recovery, w.clock, s.docker);
      d.Start? && d.number == n + 1
  {
    RestartsAreSerial(s, w, id);
    BackoffIsExact(s, w, id);
    hide Reachable;
    hide ValidSystem;
    hide Wait;
    var r := w.cells[id].recovery.value;
    if r.backoffStartedAt.Some? { ElapsedIsRealTime(w.clock, r.backoffStartedAt.value, LONGEST_WAIT); }
  }

  /** The cell after an attempt that takes no time. */
  function AttemptedCell(c: Cell, d: Decision, now: Time, evidence: seq<seq<Check>>, r: RestartRecord): Cell {
    RecordCell(EndCell(DecideCell(c, d, now, evidence), now), r)
  }

  lemma AttemptedCellIs(c: Cell, d: Decision, now: Time, evidence: seq<seq<Check>>, r: RestartRecord)
    requires c.recovery.Some? && d.Start? && d.number == c.recovery.value.currentEpisodeAttempts + 1
    ensures var c' := AttemptedCell(c, d, now, evidence, r);
      && c'.recovery.Some? && c'.recovery.value.backoffStartedAt == Some(now)
      && c'.recovery.value.currentEpisodeAttempts == d.number
      && c'.pending == c.pending && c'.data.state.status == c.data.state.status
      && c'.trace.open.criticals == c.trace.open.criticals
  {
  }

  lemma DecidedCellKeepsRecovery(c: Cell, d: Decision, now: Time, evidence: seq<seq<Check>>)
    requires c.recovery.Some?
    ensures DecideCell(c, d, now, evidence).recovery.Some?
  {
  }

  /** Scan, and start the restart. */
  lemma AttemptStarts(s: Setup, w: State, id: string, n: nat) returns (w': State)
    requires ValidSystem(s) && AtRest(s, w, id, n) && n < s.cfgs[id].maxRestarts && Managed(s.cfgs[id])
    requires Rested(w.cells[id], w.clock)
    ensures Leads(s, w, w') && Reachable(s, w')
    ensures w'.coord.Restarting? && w'.coord.id == id && w'.clock == w.clock && w'.channel == w.channel
    ensures OnlyUnknownLeft(w'.coord.snap, w'.coord.todo, id)
    ensures var d := Decide(s.cfgs[id], w.cells[id].recovery, w.clock, s.docker);
      w'.cells == w.cells[id := DecideCell(w.cells[id], d, w.clock, w.cells[id].trace.hist)]
  {
    DecidesToStart(s, w, id, n);
    LeadsNowhere(s, w);
    hide Decide;
    hide Reachable;
    hide ValidSystem;
    hide Leads;
    hide DecideCell;
    var w1 := Follow(s, w, w, ScanStart);
    w' := Follow(s, w, w1, VisitService(id));
  }

  ghost predicate OnlyUnknownLeft(snap: map<string, Seen>, todo: set<string>, id: string) {
    forall x :: x in todo ==> x != id && x in snap && snap[x].status == Unknown
  }

  /** Let the restart end at once, and record it. */
  lemma AttemptEnds(s: Setup, w: State) returns (w': State, r: RestartRecord)
    requires Reachable(s, w) && w.coord.Restarting? && w.coord.id in w.cells && w.cells[w.coord.id].recovery.Some?
    ensures Leads(s, w, w') && Reachable(s, w')
    ensures w' == State(w.clock, Scanning(w.coord.snap, w.coord.todo), w.channel,
                        w.cells[w.coord.id := RecordCell(EndCell(w.cells[w.coord.id], w.clock), r)])
  {
    var id, outcome := w.coord.id, OutcomeOf(w.coord.target, _ => TimedOut);
    LeadsNowhere(s, w);
    hide Reachable;
    hide Leads;
    hide EndCell;
    hide RecordCell;
    var w1 := Follow(s, w, w, RestartEnd(outcome));
    r := w1.coord.record;
    w' := Follow(s, w, w1, RecordAttempt);
    assert w'.cells == w.cells[id := RecordCell(EndCell(w.cells[id], w.clock), r)];
  }

  lemma OneAttempt(s: Setup, w: State, id: string, n: nat) returns (w': State)
    requires ValidSystem(s) && AtRest(s, w, id, n) && n < s.cfgs[id].maxRestarts && Managed(s.cfgs[id])
    requires Rested(w.cells[id], w.clock)
    ensures Leads(s, w, w') && AtRest(s, w', id, n + 1) && w'.channel == w.channel
    ensures w'.cells[id].recovery.value.backoffStartedAt == Some(w'.clock)
  {
    var c := w.cells[id];
    var d := Decide(s.cfgs[id], c.recovery, w.clock, s.docker);
    DecidesToStart(s, w, id, n);
    hide Decide;
    hide Leads;
    hide Reachable;
    hide ValidSystem;
    var w1 := AttemptStarts(s, w, id, n);
    hide DecideCell;
    DecidedCellKeepsRecovery(c, d, w.clock, c.trace.hist);
    var w2, r := AttemptEnds(s, w1);
    hide EndCell;
    hide RecordCell;
    AttemptedCellIs(c, d, w.clock, c.trace.hist, r);
    LeadsOn(s, w, w1, w2);
    w' := FinishScan(s, w2);
    LeadsOn(s, w, w2, w');
    assert w'.cells == w.cells[id := AttemptedCell(c, d, w.clock, c.trace.hist, r)];
    hide AttemptedCell;
  }

  /** Every number of attempts within the budget is reached. */
  lemma {:induction false} Attempts(s: Setup, w: State, id: string, n: nat) returns (w': State)
    requires ValidSystem(s) && AtRest(s, w, id, 0) && Managed(s.cfgs[id]) && n <= s.cfgs[id].maxRestarts
    ensures Leads(s, w, w') && AtRest(s, w', id, n) && w'.channel == w.channel
    ensures n > 0 ==> w'.cells[id].recovery.value.backoffStartedAt == Some(w'.clock)
  {
    if n == 0 {
      LeadsNowhere(s, w);
      w' := w;
    } else {
      var w1 := Attempts(s, w, id, n - 1);
      var w2 := Follow(s, w, w1, Tick(LONGEST_WAIT * NANOS_PER_SEC));
      NothingToWaitFor(s, w, id, n - 1, w1);
      w' := OneAttempt(s, w2, id, n - 1);
      LeadsOn(s, w, w2, w');
    }
  }

  lemma NothingToWaitFor(s: Setup, w: State, id: string, n: nat, w1: State)
    requires ValidSystem(s) && AtRest(s, w1, id, n)
    requires n > 0 ==> w1.cells[id].recovery.value.backoffStartedAt == Some(w1.clock)
    ensures Rested(w1.cells[id], w1.clock + LONGEST_WAIT * NANOS_PER_SEC)
  {
    if n == 0 {
      ReachableRecovery(s, w1, id);
      NoAttemptsMeansInitial(s.cfgs[id], s.docker, w1.cells[id], PhaseOf(w1.coord, id), w1.clock);
    }
  }

  lemma FailedAtRest(s: Setup, id: string, clock: Time) returns (w: State)
    requires ValidSystem(s) && id in s.cfgs && AddressesDiffer(s.cfgs[id].upstreams)
    ensures OnlyChecked(s, Init(s, clock), w, id) && AtRest(s, w, id, 0)
  {
    StartIsQuiet(s, id, clock);
    w := BringTo(s, Init(s, clock), id, false);
    hide Reachable;
    hide ValidSystem;
    hide Leads;
  }

  // ---- what repeated addresses and the mode rule out ----------------------

  lemma AttemptsNeedDistinctAddresses(s: Setup, w: State, id: string)
    requires ValidSystem(s) && Reachable(s, w) && id in s.cfgs && id in w.cells
    requires || (w.cells[id].recovery.Some? && w.cells[id].recovery.value.currentEpisodeAttempts > 0)
             || w.cells[id].trace.past != []
    ensures AddressesDiffer(s.cfgs[id].upstreams) && Managed(s.cfgs[id])
  {
    ReachableRecovery(s, w, id);
    ReachableData(s, w, id);
    hide Reachable;
    hide ValidSystem;
    hide StateMatches;
    hide EpisodeOk;
    hide PastOk;
  }

  /** A restart of the service runs in some state of some run exactly if it is managed, has a budget and repeats no
      address. */
  lemma RestartRunsExactlyWhen(s: Setup, id: string)
    requires ValidSystem(s) && id in s.cfgs
    ensures (exists w :: Reachable(s, w) && w.coord.Restarting? && w.coord.id == id)
      <==> Managed(s.cfgs[id]) && s.cfgs[id].maxRestarts > 0 && AddressesDiffer(s.cfgs[id].upstreams)
  {
    if Managed(s.cfgs[id]) && s.cfgs[id].maxRestarts > 0 && AddressesDiffer(s.cfgs[id].upstreams) {
      var w := RestartRuns(s, id);
      assert Reachable(s, w) && w.coord.Restarting? && w.coord.id == id;
    }
    forall w | Reachable(s, w) && w.coord.Restarting? && w.coord.id == id
      ensures Managed(s.cfgs[id]) && s.cfgs[id].maxRestarts > 0 && AddressesDiffer(s.cfgs[id].upstreams)
    {
      RunningIsAnAttempt(s, w, id);
      AttemptsNeedDistinctAddresses(s, w, id);
    }
  }

  lemma RunningIsAnAttempt(s: Setup, w: State, id: string)
    requires ValidSystem(s) && Reachable(s, w) && id in s.cfgs && w.coord.Restarting? && w.coord.id == id
    ensures id in w.cells && w.cells[id].recovery.Some? && s.cfgs[id].maxRestarts > 0
    ensures w.cells[id].recovery.value.currentEpisodeAttempts > 0
  {
    ReachableRecovery(s, w, id);
    hide Reachable;
    hide ValidSystem;
    hide PastOk;
    hide Spaced;
    hide AllJustified;
  }

  /** From a service at rest with no attempts: a scan has just seen it Failed, and nothing keeps the visit from
      restarting it. */
  lemma AboutToRestartFrom(s: Setup, w0: State, id: string) returns (w: State)
    requires ValidSystem(s) && AtRest(s, w0, id, 0) && Managed(s.cfgs[id]) && s.cfgs[id].maxRestarts > 0
    ensures Reachable(s, w) && Enabled(s, w, VisitService(id)) && w.coord.snap[id].status == Failed
    ensures Quiet(w.cells[id]) && DecisionAt(s, w, id).Start? && w.cells == w0.cells
  {
    NothingToWaitFor(s, w0, id, 0, w0);
    LeadsNowhere(s, w0);
    var w1 := Follow(s, w0, w0, Tick(LONGEST_WAIT * NANOS_PER_SEC));
    DecidesToStart(s, w1, id, 0);
    hide Decide;
    hide Reachable;
    hide ValidSystem;
    hide Leads;
    w := Follow(s, w0, w1, ScanStart);
  }

  lemma AboutToRestart(s: Setup, id: string) returns (w: State)
    requires ValidSystem(s) && id in s.cfgs
    requires Managed(s.cfgs[id]) && s.cfgs[id].maxRestarts > 0 && AddressesDiffer(s.cfgs[id].upstreams)
    ensures Reachable(s, w) && Enabled(s, w, VisitService(id)) && w.coord.snap[id].status == Failed
    ensures Quiet(w.cells[id]) && DecisionAt(s, w, id).Start?
  {
    var w0 := FailedAtRest(s, id, 0);
    hide AtRest;
    hide OnlyChecked;
    hide ValidSystem;
    w := AboutToRestartFrom(s, w0, id);
  }

  lemma RestartRuns(s: Setup, id: string) returns (w: State)
    requires ValidSystem(s) && id in s.cfgs
    requires Managed(s.cfgs[id]) && s.cfgs[id].maxRestarts > 0 && AddressesDiffer(s.cfgs[id].upstreams)
    ensures Reachable(s, w) && w.coord.Restarting? && w.coord.id == id
  {
    var w0 := AboutToRestart(s, id);
    LeadsNowhere(s, w0);
    hide Decide;
    hide Reachable;
    hide ValidSystem;
    hide Leads;
    w := Follow(s, w0, w0, VisitService(id));
  }

  // ---- giving up, recovering, and being restarted again -------------------

  /** Between two scans the service is given up, all its events are sent, and the others are Unknown. */
  ghost predicate GivenUpAtRest(s: Setup, w: State, id: string) {
    && Reachable(s, w) && w.coord.Idle? && id in s.cfgs && id in w.cells
    && Quiet(w.cells[id]) && w.cells[id].trace.open.criticals != [] && OthersUnknown(w, id)
  }

  /** The scan finds the budget used up and sends the notice. */
  lemma GivesUp(s: Setup, w: State, id: string) returns (w': State)
    requires ValidSystem(s) && id in s.cfgs && AtRest(s, w, id, s.cfgs[id].maxRestarts) && Managed(s.cfgs[id])
    ensures Leads(s, w, w') && Reachable(s, w') && w'.clock == w.clock
    ensures w'.channel == w.channel + [CriticalEvent(s.cfgs[id], w.clock)]
    ensures w'.coord.Scanning? && OnlyUnknownLeft(w'.coord.snap, w'.coord.todo, id)
    ensures id in w'.cells && w'.cells == w.cells[id := w'.cells[id]]
    ensures w'.cells[id].trace.open.criticals != [] && w'.cells[id].pending == w.cells[id].pending
  {
    RestartsAreSerial(s, w, id);
    LeadsNowhere(s, w);
    hide ValidSystem;
    hide Leads;
    hide Reachable;
    var w1 := Follow(s, w, w, ScanStart);
    w' := Follow(s, w, w1, VisitService(id));
  }

  lemma ReachGivenUp(s: Setup, id: string) returns (w: State)
    requires ValidSystem(s) && id in s.cfgs && Managed(s.cfgs[id]) && AddressesDiffer(s.cfgs[id].upstreams)
    ensures GivenUpAtRest(s, w, id)
  {
    var w0 := FailedAtRest(s, id, 0);
    hide OnlyChecked;
    hide ValidSystem;
    hide Leads;
    hide Reachable;
    var w1 := Attempts(s, w0, id, s.cfgs[id].maxRestarts);
    var w2 := GivesUp(s, w1, id);
    w := FinishScan(s, w2);
  }

  /** A scan that sees the recovered service resets it. */
  lemma ResetByScan(s: Setup, w: State, id: string) returns (w': State)
    requires ValidSystem(s) && GivenUpAtRest(s, w, id) && w.cells[id].data.state.status == Healthy
    ensures Reachable(s, w') && w'.coord.Idle? && id in w'.cells && Quiet(w'.cells[id]) && OthersUnknown(w', id)
    ensures StartsAfresh(w.cells[id], w'.cells[id])
  {
    LeadsNowhere(s, w);
    var w1 := Follow(s, w, w, ScanStart);
    CoordinatorIsFree(s, w1, TimedOut);
    QueuedNow(s, w1, id);
    ResetStartsAfresh(s.cfgs[id], s.docker, w1.cells[id], w1.coord.snap[id], w1.clock);
    hide RecoveryOk;
    hide ResetCell;
    hide StartsAfresh;
    hide Leads;
    hide Reachable;
    hide ValidSystem;
    var w2 := Follow(s, w, w1, VisitService(id));
    ResetStays(w1.cells[id], w2.cells[id]);
    w' := FinishScan(s, w2);
  }

  lemma ResetStays(c: Cell, c': Cell)
    requires StartsAfresh(c, c')
    ensures c'.pending == c.pending
  {
  }

  /** The service was given up in an earlier episode and is being restarted. */
  ghost predicate RestartsAgain(s: Setup, w: State, id: string) {
    && Reachable(s, w) && w.coord.Restarting? && w.coord.id == id && id in w.cells
    && exists k :: 0 <= k < |w.cells[id].trace.past| && w.cells[id].trace.past[k].criticals != []
  }

  lemma DownAgain(s: Setup, id: string) returns (w: State)
    requires ValidSystem(s) && id in s.cfgs && Managed(s.cfgs[id]) && AddressesDiffer(s.cfgs[id].upstreams)
    ensures AtRest(s, w, id, 0)
    ensures w.cells[id].trace.past != [] && Last(w.cells[id].trace.past).criticals != []
  {
    var w0 := ReachGivenUp(s, id);
    var w1 := BringTo(s, w0, id, true);
    hide Leads;
    hide Reachable;
    hide ValidSystem;
    var w2 := ResetByScan(s, w1, id);
    w := BringTo(s, w2, id, false);
  }

  lemma RestartedAgain(s: Setup, id: string) returns (w: State)
    requires ValidSystem(s) && id in s.cfgs
    requires Managed(s.cfgs[id]) && s.cfgs[id].maxRestarts > 0 && AddressesDiffer(s.cfgs[id].upstreams)
    ensures RestartsAgain(s, w, id)
  {
    var w0 := DownAgain(s, id);
    var w1 := AboutToRestartFrom(s, w0, id);
    hide AtRest;
    LeadsNowhere(s, w1);
    hide Decide;
    hide Reachable;
    hide ValidSystem;
    hide Leads;
    w := Follow(s, w1, w1, VisitService(id));
    assert w.cells[id].trace.past == w0.cells[id].trace.past;
    assert w.cells[id].trace.past[|w.cells[id].trace.past| - 1].criticals != [];
  }

  /** Giving up is not for ever: after a recovery the service has its budget again. Some run restarts a service that
      it had given up before, exactly if the service can be restarted at all. */
  lemma RestartedAgainExactlyWhen(s: Setup, id: string)
    requires ValidSystem(s) && id in s.cfgs
    ensures (exists w :: RestartsAgain(s, w, id))
      <==> Managed(s.cfgs[id]) && s.cfgs[id].maxRestarts > 0 && AddressesDiffer(s.cfgs[id].upstreams)
  {
    if Managed(s.cfgs[id]) && s.cfgs[id].maxRestarts > 0 && AddressesDiffer(s.cfgs[id].upstreams) {
      var w := RestartedAgain(s, id);
    }
    forall w | RestartsAgain(s, w, id)
      ensures Managed(s.cfgs[id]) && s.cfgs[id].maxRestarts > 0 && AddressesDiffer(s.cfgs[id].upstreams)
    {
      RunningIsAnAttempt(s, w, id);
      AttemptsNeedDistinctAddresses(s, w, id);
    }
  }

  // ---- restarts of healthy services ---------------------------------------

  /** The visit that comes next restarts the service although it is Healthy at this instant. */
  ghost predicate RestartsHealthy(s: Setup, w: State, id: string) {
    && Reachable(s, w) && Enabled(s, w, VisitService(id))
    && w.cells[id].data.state.status == Healthy
    && Step(s, w, VisitService(id)).coord.Restarting?
  }

  lemma HealthyIsRestarted(s: Setup, id: string) returns (w: State)
    requires ValidSystem(s) && id in s.cfgs
    requires Managed(s.cfgs[id]) && s.cfgs[id].maxRestarts > 0 && AddressesDiffer(s.cfgs[id].upstreams)
    ensures RestartsHealthy(s, w, id)
  {
    var w0 := AboutToRestart(s, id);
    w := BringTo(s, w0, id, true);
    hide Decide;
    hide Reachable;
    hide ValidSystem;
    hide Leads;
    assert DecisionAt(s, w, id) == DecisionAt(s, w0, id);
  }

  lemma HealthyRestartIsARestart(s: Setup, w: State, id: string)
    requires ValidSystem(s) && id in s.cfgs && RestartsHealthy(s, w, id)
    ensures Managed(s.cfgs[id]) && s.cfgs[id].maxRestarts > 0 && AddressesDiffer(s.cfgs[id].upstreams)
  {
    ReachableStep(s, w, VisitService(id));
    hide Reachable;
    hide ValidSystem;
    hide Decide;
    var w' := Step(s, w, VisitService(id));
    RunningIsAnAttempt(s, w', id);
    AttemptsNeedDistinctAddresses(s, w', id);
  }

  /** The evidence is that of the snapshot, not of the instant of the restart. When every upstream passes its next
      checks between snapshot and visit, a service is restarted although it is Healthy; that happens in some run of
      every service that can be restarted at all. */
  lemma HealthyIsRestartedExactlyWhen(s: Setup, id: string)
    requires ValidSystem(s) && id in s.cfgs
    ensures (exists w :: RestartsHealthy(s, w, id))
      <==> Managed(s.cfgs[id]) && s.cfgs[id].maxRestarts > 0 && AddressesDiffer(s.cfgs[id].upstreams)
  {
    if Managed(s.cfgs[id]) && s.cfgs[id].maxRestarts > 0 && AddressesDiffer(s.cfgs[id].upstreams) {
      var w := HealthyIsRestarted(s, id);
    }
    forall w | RestartsHealthy(s, w, id)
      ensures Managed(s.cfgs[id]) && s.cfgs[id].maxRestarts > 0 && AddressesDiffer(s.cfgs[id].upstreams)
    {
      HealthyRestartIsARestart(s, w, id);
    }
  }

  // ---- how long a run can be made to wait ---------------------------------

  /** The scan under way would find the service waiting out `required` seconds after `k` attempts. */
  ghost predicate Waits(s: Setup, w: State, id: string, k: nat, required: nat) {
    && Reachable(s, w) && w.coord.Scanning? && id in w.coord.todo && id in w.coord.snap && id in s.cfgs && id in w.cells
    && w.coord.snap[id].status == Failed
    && w.cells[id].recovery.Some? && w.cells[id].recovery.value.currentEpisodeAttempts == k
    && DecisionAt(s, w, id).Waiting? && DecisionAt(s, w, id).required == required
  }

  lemma WaitIsScheduled(s: Setup, w: State, id: string, k: nat, required: nat)
    requires ValidSystem(s) && Waits(s, w, id, k, required)
    ensures Managed(s.cfgs[id]) && AddressesDiffer(s.cfgs[id].upstreams)
    ensures 0 < k < s.cfgs[id].maxRestarts && required == Wait(k)
  {
    ReachableRecovery(s, w, id);
    WaitingMeans(s.cfgs[id], s.docker, w.cells[id], PhaseOf(w.coord, id), w.clock);
    AttemptsNeedDistinctAddresses(s, w, id);
  }

  lemma WaitingMeans(cfg: ServiceConfig, docker: bool, c: Cell, phase: Phase, now: Time)
    requires RecoveryOk(cfg, docker, c, phase, now) && !phase.InFlight? && Decide(cfg, c.recovery, now, docker).Waiting?
    ensures var n := c.recovery.value.currentEpisodeAttempts;
      0 < n < cfg.maxRestarts && Decide(cfg, c.recovery, now, docker).required == Wait(n)
  {
    assert Budgeted(cfg, c.trace.open);
    hide PastOk;
    hide Spaced;
    hide AllJustified;
    hide Wait;
  }

  lemma WaitIsReached(s: Setup, id: string, k: nat) returns (w: State)
    requires ValidSystem(s) && id in s.cfgs && Managed(s.cfgs[id]) && AddressesDiffer(s.cfgs[id].upstreams)
    requires 0 < k < s.cfgs[id].maxRestarts
    ensures Waits(s, w, id, k, Wait(k))
  {
    var w0 := FailedAtRest(s, id, 0);
    hide OnlyChecked;
    var w1 := Attempts(s, w0, id, k);
    DecidesToWait(s, w1, id, k);
    LeadsNowhere(s, w1);
    hide Decide;
    hide Reachable;
    hide ValidSystem;
    hide Leads;
    hide Wait;
    w := Follow(s, w1, w1, ScanStart);
  }

  lemma DecidesToWait(s: Setup, w: State, id: string, k: nat)
    requires ValidSystem(s) && AtRest(s, w, id, k) && 0 < k < s.cfgs[id].maxRestarts && Managed(s.cfgs[id])
    requires w.cells[id].recovery.value.backoffStartedAt == Some(w.clock)
    ensures var d := Decide(s.cfgs[id], w.cells[id].recovery, w.clock, s.docker); d.Waiting? && d.required == Wait(k)
  {
    hide Wait;
    hide Reachable;
    hide ValidSystem;
    RestartsAreSerial(s, w, id);
    BackoffIsExact(s, w, id);
    WaitIsPositive(k);
  }

  /** The waits that runs meet, exactly: after `k` attempts a managed service without a repeated address waits `Wait(k)`
      seconds in some run, if `k` is below its budget; there are no other waits. */
  lemma WaitsExactlyWhen(s: Setup, id: string, k: nat, required: nat)
    requires ValidSystem(s) && id in s.cfgs
    ensures (exists w :: Waits(s, w, id, k, required))
      <==> && Managed(s.cfgs[id]) && AddressesDiffer(s.cfgs[id].upstreams)
           && 0 < k < s.cfgs[id].maxRestarts && required == Wait(k)
  {
    if && Managed(s.cfgs[id]) && AddressesDiffer(s.cfgs[id].upstreams)
       && 0 < k < s.cfgs[id].maxRestarts && required == Wait(k) {
      var w := WaitIsReached(s, id, k);
    }
    forall w | Waits(s, w, id, k, required)
      ensures && Managed(s.cfgs[id]) && AddressesDiffer(s.cfgs[id].upstreams)
              && 0 < k < s.cfgs[id].maxRestarts && required == Wait(k)
    {
      WaitIsScheduled(s, w, id, k, required);
    }
  }

  /** The documented ceiling: some run waits longer than 300 seconds for a service that can be restarted at all
      exactly if its budget is above five; the longest such wait is 362 seconds. With the default budget of five the
      ceiling holds. */
  lemma CeilingHoldsExactlyWhen(s: Setup, id: string)
    requires ValidSystem(s) && id in s.cfgs && Managed(s.cfgs[id]) && AddressesDiffer(s.cfgs[id].upstreams)
    ensures (forall w, k: nat, required: nat :: Waits(s, w, id, k, required) ==> required <= MAX_BACKOFF_SECS)
      <==> s.cfgs[id].maxRestarts <= 5
    ensures s.cfgs[id].maxRestarts > 5 ==> exists w :: Waits(s, w, id, 5, LONGEST_WAIT)
    ensures forall w, k: nat, required: nat :: Waits(s, w, id, k, required) ==> required <= LONGEST_WAIT
  {
    hide Waits;
    forall w, k: nat, required: nat | Waits(s, w, id, k, required)
      ensures required <= LONGEST_WAIT && (s.cfgs[id].maxRestarts <= 5 ==> required <= MAX_BACKOFF_SECS)
    {
      WaitIsScheduled(s, w, id, k, required);
      WaitCeiling(k);
    }
    if s.cfgs[id].maxRestarts > 5 {
      var w := WaitIsReached(s, id, 5);
      FirstWaits();
    }
  }
}
