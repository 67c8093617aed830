/** What holds of restarts in every run: evidence, budget, spacing, serial execution, accounting. */
module RecoveryTheorems {
  import opened Models
  import opened History
  import opened Backoff
  import opened Engine
  import opened World
  import opened DataInvariant
  import opened RecoveryInvariant
  import opened Accounting
  import opened SystemInvariant
  import opened StoreTheorems

  function Episodes(t: Trace): seq<Episode> { t.past + [t.open] }

  lemma ReachableRecovery(s: Setup, w: State, id: string)
    requires ValidSystem(s) && Reachable(s, w) && id in s.cfgs
    ensures id in w.cells && ValidService(id, s.cfgs[id]) && BudgetFits(s.cfgs[id])
    ensures RecoveryOk(s.cfgs[id], s.docker, w.cells[id], PhaseOf(w.coord, id), w.clock)
    ensures AccountOk(id, w.cells[id].data, w.cells[id].trace, PhaseOf(w.coord, id))
    ensures CoordOk(s, w.coord) && w.cells.Keys == s.cfgs.Keys
  {
    ReachableInv(s, w);
    assert CellOk(s, id, w.cells[id], PhaseOf(w.coord, id), w.channel, w.clock);
  }

  lemma EpisodeHolds(s: Setup, w: State, id: string, k: nat)
    requires ValidSystem(s) && Reachable(s, w) && id in s.cfgs && id in w.cells
    requires k < |Episodes(w.cells[id].trace)|
    ensures EpisodeOk(s.cfgs[id], s.docker, Episodes(w.cells[id].trace)[k], w.cells[id].trace.hist)
  {
    ReachableRecovery(s, w, id);
    hide Reachable;
    hide ValidSystem;
    hide StateMatches;
    hide EpisodeOk;
  }

  // ---- budget and episodes ------------------------------------------------

  /** In every episode of every run the attempts are numbered 1, 2, ..., k with k within the budget. The give-up notice
      comes at most once, and only when the budget is used up. Every attempt acted on the service's own target. */
  lemma EpisodesWithinBudget(s: Setup, w: State, id: string, k: nat)
    requires ValidSystem(s) && Reachable(s, w) && id in s.cfgs && id in w.cells
    requires k < |Episodes(w.cells[id].trace)|
    ensures var e, cfg := Episodes(w.cells[id].trace)[k], s.cfgs[id];
      && |e.attempts| <= cfg.maxRestarts
      && (forall i :: 0 <= i < |e.attempts| ==> e.attempts[i].number == i + 1)
      && |e.criticals| <= 1
      && (e.criticals != [] ==> |e.attempts| == cfg.maxRestarts)
      && cfg.restart.Some?
      && (forall i :: 0 <= i < |e.attempts| ==> TargetIsConfigured(cfg.restart.value, s.docker, e.attempts[i].target))
  {
    EpisodeHolds(s, w, id, k);
    assert ValidService(id, s.cfgs[id]);
    hide Reachable;
    hide ValidSystem;
    var c, cfg := w.cells[id], s.cfgs[id];
    var e := Episodes(c.trace)[k];
    forall i | 0 <= i < |e.attempts|
      ensures TargetIsConfigured(cfg.restart.value, s.docker, e.attempts[i].target)
    {
      assert Justified(cfg, s.docker, e.attempts[i], c.trace.hist);
    }
  }

  /** An episode ends only by real recovery: every closed one was closed on a Healthy observation, and a service with
      attempts in its episode is never seen as Unknown. Where the reset is skipped there is nothing to reset. */
  lemma EpisodesEndByRecovery(s: Setup, w: State, id: string)
    requires ValidSystem(s) && Reachable(s, w) && id in s.cfgs
    ensures id in w.cells && w.cells[id].recovery.Some?
    ensures forall k :: 0 <= k < |w.cells[id].trace.past| ==> w.cells[id].trace.past[k].closedBy == Some(Healthy)
    ensures w.coord.Scanning? && id in w.coord.todo ==>
      && id in w.coord.snap
      && (w.cells[id].recovery.value.currentEpisodeAttempts > 0 ==> w.coord.snap[id].status != Unknown)
      && ResetIfNeeded(w.cells[id].recovery.value) == INITIAL
  {
    ReachableRecovery(s, w, id);
    if w.coord.Scanning? && id in w.coord.todo && w.cells[id].recovery.value.currentEpisodeAttempts == 0 {
      NoAttemptsMeansInitial(s.cfgs[id], s.docker, w.cells[id], PhaseOf(w.coord, id), w.clock);
    }
  }

  /** A service whose restart mode is "none" stays in the initial recovery state, with no attempt and no notice ever. */
  lemma ModeNoneIsNeverTouched(s: Setup, w: State, id: string)
    requires ValidSystem(s) && Reachable(s, w) && id in s.cfgs
    requires s.cfgs[id].restart.Some? && s.cfgs[id].restart.value.mode == NoneMode
    ensures id in w.cells && w.cells[id].recovery == Some(INITIAL) && Episodes(w.cells[id].trace) == [OPEN]
    ensures w.cells[id].data.state.restartCount == 0 && w.cells[id].data.restarts == []
  {
    ReachableRecovery(s, w, id);
    assert Untouched(s.cfgs[id], w.cells[id]);
    assert |Started(w.cells[id].trace)| == 0;
  }

  /** A visit to the service by a scan that saw it Healthy. */
  ghost predicate SeesHealthy(w: State, a: Action, id: string) {
    a == VisitService(id) && w.coord.Scanning? && id in w.coord.snap && w.coord.snap[id].status == Healthy
  }

  ghost predicate NoticeOut(w: State, id: string) {
    id in w.cells && w.cells[id].trace.open.criticals != []
  }

  /** Nothing but a Healthy observation takes the give-up notice back. */
  lemma NoticeStays(s: Setup, w: State, a: Action, id: string)
    requires ValidSystem(s) && Inv(s, w) && Enabled(s, w, a) && id in s.cfgs
    ensures NoticeOut(w, id) && !SeesHealthy(w, a, id) ==> NoticeOut(Step(s, w, a), id)
  {
    hide Inv;
    hide ValidSystem;
    InvKnowsAll(s, w);
    if a == VisitService(id) {
      QueuedCell(s, w, id);
      hide RecoveryOk;
      VisitKeepsNotice(s, w, id);
      hide Visited;
    } else {
      OtherStepsKeepNotice(s, w, a, id);
      hide Step;
    }
  }

  /** The service waits for its visit, and its recovery state is in order. */
  ghost predicate QueuedOk(s: Setup, w: State, id: string) {
    && w.coord.Scanning? && id in w.coord.snap && id in w.cells && id in s.cfgs
    && RecoveryOk(s.cfgs[id], s.docker, w.cells[id], Queued(w.coord.snap[id]), w.clock)
  }

  lemma QueuedCell(s: Setup, w: State, id: string)
    requires Inv(s, w) && Enabled(s, w, VisitService(id)) && id in s.cfgs
    ensures QueuedOk(s, w, id)
  {
    hide Inv;
    hide CellOk;
    hide RecoveryOk;
    CellHolds(s, w, id);
    CellRecovers(s, id, w.cells[id], PhaseOf(w.coord, id), w.channel, w.clock);
  }

  lemma CellRecovers(s: Setup, id: string, c: Cell, phase: Phase, channel: seq<StatusChangeEvent>, clock: Time)
    requires CellOk(s, id, c, phase, channel, clock)
    ensures id in s.cfgs && RecoveryOk(s.cfgs[id], s.docker, c, phase, clock)
  {
  }

  lemma CellHolds(s: Setup, w: State, id: string)
    requires Inv(s, w) && id in s.cfgs
    ensures id in w.cells && CellOk(s, id, w.cells[id], PhaseOf(w.coord, id), w.channel, w.clock)
  {
    hide CellOk;
  }

  lemma VisitKeepsNotice(s: Setup, w: State, id: string)
    requires Enabled(s, w, VisitService(id)) && id in s.cfgs
    requires RecoveryOk(s.cfgs[id], s.docker, w.cells[id], Queued(w.coord.snap[id]), w.clock)
    ensures id in Visited(s, w, id).cells
    ensures w.cells[id].trace.open.criticals != [] && w.coord.snap[id].status != Healthy ==>
      Visited(s, w, id).cells[id].trace.open.criticals != []
  {
    hide PastOk;
    hide EpisodeOk;
    hide Decide;
  }

  lemma OtherStepsKeepNotice(s: Setup, w: State, a: Action, id: string)
    requires Enabled(s, w, a) && id in w.cells && a != VisitService(id)
    ensures id in Step(s, w, a).cells
    ensures Step(s, w, a).cells[id].trace.open.criticals == w.cells[id].trace.open.criticals
  {
  }

  /** After the give-up notice nothing is restarted before the service was seen Healthy again: between a state with the
      notice out and a later start of a restart lies a visit that found the service Healthy. */
  lemma {:induction false} GivingUpLastsUntilHealthy(s: Setup, clock: Time, ws: seq<State>, acts: seq<Action>, i: nat,
                                                     j: nat, id: string)
      returns (k: nat)
    requires ValidSystem(s) && IsRun(s, clock, ws, acts) && i <= j < |acts| && id in s.cfgs
    requires id in ws[i].cells && ws[i].cells[id].trace.open.criticals != []
    requires acts[j] == VisitService(id) && ws[j + 1].coord.Restarting?
    ensures i <= k < j && acts[k] == VisitService(id) && ws[k].coord.Scanning? && id in ws[k].coord.snap
    ensures ws[k].coord.snap[id].status == Healthy
    decreases j - i
  {
    hide Inv;
    hide ValidSystem;
    RunKeepsInv(s, clock, ws, acts, i);
    assert ws[i + 1] == Step(s, ws[i], acts[i]);
    k := i;
    if i == j {
      CellHolds(s, ws[i], id);
      NoStartAfterNotice(s, ws[i], id);
    } else if !(acts[i] == VisitService(id) && ws[i].coord.snap[id].status == Healthy) {
      NoticeStays(s, ws[i], acts[i], id);
      k := GivingUpLastsUntilHealthy(s, clock, ws, acts, i + 1, j, id);
    }
  }

  lemma NoStartAfterNotice(s: Setup, w: State, id: string)
    requires Enabled(s, w, VisitService(id)) && id in s.cfgs && w.cells[id].trace.open.criticals != []
    requires RecoveryOk(s.cfgs[id], s.docker, w.cells[id], PhaseOf(w.coord, id), w.clock)
    ensures !Visited(s, w, id).coord.Restarting?
  {
    hide RecoveryOk;
    GivenUpCell(s.cfgs[id], s.docker, w.cells[id], w.coord.snap[id], w.clock);
    hide Decide;
  }

  lemma GivenUpCell(cfg: ServiceConfig, docker: bool, c: Cell, seen: Seen, now: Time)
    requires RecoveryOk(cfg, docker, c, Queued(seen), now) && c.trace.open.criticals != []
    ensures !Decide(cfg, c.recovery, now, docker).Start?
  {
    assert Budgeted(cfg, c.trace.open);
  }

  // ---- what a visit does --------------------------------------------------

  lemma QueuedNow(s: Setup, w: State, id: string)
    requires ValidSystem(s) && Reachable(s, w) && Enabled(s, w, VisitService(id))
    ensures id in s.cfgs && s.cfgs[id].id == id
    ensures RecoveryOk(s.cfgs[id], s.docker, w.cells[id], Queued(w.coord.snap[id]), w.clock)
  {
    hide Reachable;
    hide ValidSystem;
    hide Inv;
    hide RecoveryOk;
    hide AccountOk;
    ReachableInv(s, w);
    InvKnowsAll(s, w);
    ReachableRecovery(s, w, id);
  }

  /** The cell of a service after its reset: in the initial recovery state, with a fresh episode, the old one closed if
      anything had happened in it. */
  ghost predicate StartsAfresh(c: Cell, c': Cell) {
    && c'.recovery == Some(RecoveryView(5, false, 0, None))
    && c'.trace.open == Episode([], [], None)
    && c'.trace.past == (if c.trace.open.attempts == [] && c.trace.open.criticals == [] then c.trace.past
                         else c.trace.past + [Episode(c.trace.open.attempts, c.trace.open.criticals, Some(Healthy))])
    && c'.data == c.data && c'.pending == c.pending
  }

  lemma ResetStartsAfresh(cfg: ServiceConfig, docker: bool, c: Cell, seen: Seen, now: Time)
    requires RecoveryOk(cfg, docker, c, Queued(seen), now) && seen.status == Healthy
    ensures StartsAfresh(c, ResetCell(c, Healthy))
  {
    if c.recovery.value.currentEpisodeAttempts == 0 {
      NoAttemptsMeansInitial(cfg, docker, c, Queued(seen), now);
    }
    hide EpisodeOk;
    hide PastOk;
  }

  /** In every run, a visit that saw the service Healthy resets it: whatever was attempted or given up before, the
      service has its whole budget again. Nothing else changes. */
  lemma HealthyVisitResets(s: Setup, clock: Time, ws: seq<State>, acts: seq<Action>, i: nat, id: string)
    requires ValidSystem(s) && IsRun(s, clock, ws, acts) && i < |acts| && acts[i] == VisitService(id)
    requires ws[i].coord.Scanning? && id in ws[i].coord.snap && ws[i].coord.snap[id].status == Healthy
    ensures id in ws[i].cells && id in ws[i + 1].cells && StartsAfresh(ws[i].cells[id], ws[i + 1].cells[id])
    ensures ws[i + 1].coord == Scanning(ws[i].coord.snap, ws[i].coord.todo - {id})
    ensures ws[i + 1].channel == ws[i].channel && ws[i + 1].clock == ws[i].clock
    ensures forall other :: other != id && other in ws[i].cells ==>
      other in ws[i + 1].cells && ws[i + 1].cells[other] == ws[i].cells[other]
  {
    RunReaches(s, clock, ws, acts, i);
    var w := ws[i];
    assert ws[i + 1] == Step(s, w, VisitService(id));
    QueuedNow(s, w, id);
    hide IsRun;
    hide Reachable;
    hide ValidSystem;
    hide RecoveryOk;
    hide ResetCell;
    hide StartsAfresh;
    ResetStartsAfresh(s.cfgs[id], s.docker, w.cells[id], w.coord.snap[id], w.clock);
  }

  /** In every run, a visit that saw the service Degraded or Unknown changes nothing of it. */
  lemma OtherVisitsAreIdle(s: Setup, clock: Time, ws: seq<State>, acts: seq<Action>, i: nat, id: string)
    requires ValidSystem(s) && IsRun(s, clock, ws, acts) && i < |acts| && acts[i] == VisitService(id)
    requires ws[i].coord.Scanning? && id in ws[i].coord.snap
    requires ws[i].coord.snap[id].status == Degraded || ws[i].coord.snap[id].status == Unknown
    ensures ws[i + 1] == ws[i].(coord := Scanning(ws[i].coord.snap, ws[i].coord.todo - {id}))
  {
    RunReaches(s, clock, ws, acts, i);
    var w := ws[i];
    assert ws[i + 1] == Step(s, w, VisitService(id));
    QueuedNow(s, w, id);
    hide IsRun;
    hide Reachable;
    hide ValidSystem;
    SeenUnknownIsUntouched(s.cfgs[id], s.docker, w.cells[id], w.coord.snap[id], w.clock);
    hide RecoveryOk;
    hide ResetCell;
    assert w.cells[id := w.cells[id]] == w.cells;
  }

  lemma SeenUnknownIsUntouched(cfg: ServiceConfig, docker: bool, c: Cell, seen: Seen, now: Time)
    requires RecoveryOk(cfg, docker, c, Queued(seen), now)
    ensures seen.status == Unknown ==> ResetCell(c, Unknown) == c
  {
  }

  /** The cell of a service but for the time of the coordinator's latest decision. */
  function Timeless(c: Cell): Cell { c.(trace := c.trace.(lastReading := None)) }

  lemma StartNumber(cfg: ServiceConfig, entry: Option<RecoveryView>, now: Time, docker: bool)
    ensures var d := Decide(cfg, entry, now, docker);
      d.Start? ==> entry.Some? && d.number == entry.value.currentEpisodeAttempts + 1
  {
  }

  lemma FailedVisitStep(s: Setup, w: State, id: string)
    requires Enabled(s, w, VisitService(id)) && w.coord.snap[id].status == Failed
    requires id in s.cfgs && s.cfgs[id].id == id && w.cells[id].recovery.Some?
    ensures id in Visited(s, w, id).cells
    ensures var w' := Visited(s, w, id);
      var d, cfg, c, c', now := DecisionAt(s, w, id), s.cfgs[id], w.cells[id], w'.cells[id], w.clock;
      var rest, n := w.coord.todo - {id}, c.recovery.value.currentEpisodeAttempts + 1;
      && w'.clock == now && c'.data == c.data && c'.pending == c.pending && c'.trace.past == c.trace.past
      && (d.Start? ==>
            && w'.coord == Restarting(w.coord.snap, rest, id, n, now, d.target)
            && w'.channel == w.channel
            && c'.trace.open == c.trace.open.(attempts := c.trace.open.attempts
                                              + [Attempt(n, d.target, now, None, w.coord.snap[id].hist)]))
      && (d.GiveUp? ==>
            && w'.coord == Scanning(w.coord.snap, rest)
            && w'.channel == w.channel
                 + [StatusChangeEvent(id, cfg.name, Failed, Failed, now, Critical(cfg.maxRestarts))]
            && c'.trace.open == c.trace.open.(criticals := c.trace.open.criticals + [now]))
      && (!d.Start? && !d.GiveUp? ==>
            && w'.coord == Scanning(w.coord.snap, rest) && w'.channel == w.channel && Timeless(c') == Timeless(c))
      && (forall other :: other != id && other in w.cells ==> other in w'.cells && w'.cells[other] == w.cells[other])
  {
    StartNumber(s.cfgs[id], w.cells[id].recovery, w.clock, s.docker);
    hide Decide;
  }

  /** In every run, a visit that saw the service Failed does what it decides. It starts attempt number `n` and awaits
      it, on the evidence of the snapshot; or it sends the notice, with the service's name and budget, and enters it
      in the episode; or it changes nothing. */
  lemma FailedVisitDoesAsDecided(s: Setup, clock: Time, ws: seq<State>, acts: seq<Action>, i: nat, id: string)
    requires ValidSystem(s) && IsRun(s, clock, ws, acts) && i < |acts| && acts[i] == VisitService(id)
    requires ws[i].coord.Scanning? && id in ws[i].coord.snap && ws[i].coord.snap[id].status == Failed
    ensures id in s.cfgs && id in ws[i].cells && id in ws[i + 1].cells && ws[i].cells[id].recovery.Some?
    ensures var w, w' := ws[i], ws[i + 1];
      var d, cfg, c, c', now := DecisionAt(s, w, id), s.cfgs[id], w.cells[id], w'.cells[id], w.clock;
      var rest, n := w.coord.todo - {id}, c.recovery.value.currentEpisodeAttempts + 1;
      && w'.clock == now && c'.data == c.data && c'.pending == c.pending && c'.trace.past == c.trace.past
      && (d.Start? ==>
            && w'.coord == Restarting(w.coord.snap, rest, id, n, now, d.target)
            && w'.channel == w.channel
            && c'.trace.open == c.trace.open.(attempts := c.trace.open.attempts
                                              + [Attempt(n, d.target, now, None, w.coord.snap[id].hist)]))
      && (d.GiveUp? ==>
            && w'.coord == Scanning(w.coord.snap, rest)
            && w'.channel == w.channel
                 + [StatusChangeEvent(id, cfg.name, Failed, Failed, now, Critical(cfg.maxRestarts))]
            && c'.trace.open == c.trace.open.(criticals := c.trace.open.criticals + [now]))
      && (!d.Start? && !d.GiveUp? ==>
            && w'.coord == Scanning(w.coord.snap, rest) && w'.channel == w.channel && Timeless(c') == Timeless(c))
      && (forall other :: other != id && other in w.cells ==> other in w'.cells && w'.cells[other] == w.cells[other])
  {
    RunReaches(s, clock, ws, acts, i);
    assert ws[i + 1] == Step(s, ws[i], VisitService(id));
    QueuedNow(s, ws[i], id);
    hide IsRun;
    hide Reachable;
    hide ValidSystem;
    hide Decide;
    RecoveryIsPresent(s.cfgs[id], s.docker, ws[i].cells[id], Queued(ws[i].coord.snap[id]), ws[i].clock);
    hide RecoveryOk;
    FailedVisitStep(s, ws[i], id);
    hide Visited;
    hide Timeless;
  }

  // ---- the decision, read off the history ---------------------------------

  /** Nothing was attempted yet, or the last attempt ended at least its full wait ago. */
  ghost predicate WaitIsOver(e: Episode, now: Time) {
    var n := |e.attempts|;
    n == 0 || (e.attempts[n - 1].endedAt.Some? && now - e.attempts[n - 1].endedAt.value >= Wait(n) * NANOS_PER_SEC)
  }

  /** For a managed service seen as Failed, the decision is determined by its open episode: whether the notice is out,
      whether the budget is used up, and whether the wait after the last attempt is over. */
  lemma DecisionFromHistory(s: Setup, w: State, id: string)
    requires ValidSystem(s) && Reachable(s, w) && w.coord.Scanning? && id in w.coord.todo && id in s.cfgs
    requires id in w.cells
    requires s.cfgs[id].restart.Some? && s.cfgs[id].restart.value.mode != NoneMode
    ensures var d, e, cfg := DecisionAt(s, w, id), w.cells[id].trace.open, s.cfgs[id];
      var n := |e.attempts|;
      && (d.GivenUp? <==> e.criticals != [])
      && (d.GiveUp? <==> e.criticals == [] && n == cfg.maxRestarts)
      && (d.Waiting? <==> n < cfg.maxRestarts && !WaitIsOver(e, w.clock))
      && (d.Start? <==> n < cfg.maxRestarts && WaitIsOver(e, w.clock))
      && (d.Start? ==> d.number == n + 1 && d.target == TargetOf(cfg.restart.value, s.docker))
  {
    ReachableRecovery(s, w, id);
    hide Reachable;
    hide ValidSystem;
    hide PastOk;
    hide Spaced;
    hide AllJustified;
    var c := w.cells[id];
    var n := |c.trace.open.attempts|;
    if n > 0 {
      ElapsedIsRealTime(w.clock, c.recovery.value.backoffStartedAt.value, Wait(n));
    }
  }

  /** At every point where no restart of the service is running, the stored wait is the one of the schedule. */
  lemma BackoffIsExact(s: Setup, w: State, id: string)
    requires ValidSystem(s) && Reachable(s, w) && id in s.cfgs
    requires !(w.coord.Restarting? && w.coord.id == id)
    ensures id in w.cells && w.cells[id].recovery.Some?
    ensures var r := w.cells[id].recovery.value;
      r.currentBackoff == Wait(Min(r.currentEpisodeAttempts, s.cfgs[id].maxRestarts)) <= 362
  {
    ReachableRecovery(s, w, id);
    hide Reachable;
    hide ValidSystem;
    hide AccountOk;
    hide PastOk;
    hide Spaced;
    hide AllJustified;
    WaitCeiling(Min(w.cells[id].recovery.value.currentEpisodeAttempts, s.cfgs[id].maxRestarts));
  }

  // ---- spacing ------------------------------------------------------------

  /** Starts of later attempts keep the sum of all the waits in between. */
  lemma {:induction false} SpacingAdds(e: Episode, i: nat, j: nat)
    requires Spaced(e) && i < j < |e.attempts|
    ensures e.attempts[i].endedAt.Some?
    ensures e.attempts[j].startedAt - e.attempts[i].endedAt.value >= WaitSum(i + 1, j + 1) * NANOS_PER_SEC
    decreases j - i
  {
    if i + 1 == j {
      assert WaitSum(j, j + 1) == Wait(j) + WaitSum(j + 1, j + 1);
    } else {
      SpacingAdds(e, i + 1, j);
      assert WaitSum(i + 1, j + 1) == Wait(i + 1) + WaitSum(i + 2, j + 1);
    }
  }

  lemma {:induction false} LateWaitsAdd(i: nat, j: nat)
    requires 5 <= i <= j
    ensures WaitSum(i, j) >= 360 * (j - i)
    decreases j - i
  {
    if i < j {
      WaitPlateau(i);
      LateWaitsAdd(i + 1, j);
    }
  }

  /** Cumulative spacing, in every episode of every run: attempt number `j` starts at least the sum of the stored waits
      of attempts `i`, ..., `j - 1` after attempt number `i` has ended. */
  lemma AttemptsAreSpaced(s: Setup, w: State, id: string, k: nat, i: nat, j: nat)
    requires ValidSystem(s) && Reachable(s, w) && id in s.cfgs && id in w.cells
    requires k < |Episodes(w.cells[id].trace)|
    requires 1 <= i < j <= |Episodes(w.cells[id].trace)[k].attempts|
    ensures var a := Episodes(w.cells[id].trace)[k].attempts;
      && a[i - 1].endedAt.Some?
      && a[j - 1].startedAt - a[i - 1].endedAt.value >= WaitSum(i, j) * NANOS_PER_SEC
  {
    EpisodeHolds(s, w, id, k);
    SpacingAdds(Episodes(w.cells[id].trace)[k], i - 1, j - 1);
  }

  /** From the fifth attempt of an episode on, a window of `seconds` holds at most `seconds / 360 + 1` starts. */
  lemma RestartRate(s: Setup, w: State, id: string, k: nat, i: nat, j: nat, from: Time, seconds: nat)
    requires ValidSystem(s) && Reachable(s, w) && id in s.cfgs && id in w.cells
    requires k < |Episodes(w.cells[id].trace)|
    requires 5 <= i <= j <= |Episodes(w.cells[id].trace)[k].attempts|
    requires var a := Episodes(w.cells[id].trace)[k].attempts;
      from <= a[i - 1].startedAt && a[j - 1].startedAt <= from + seconds * NANOS_PER_SEC
    ensures j - i + 1 <= seconds / 360 + 1
  {
    if i < j {
      AttemptsAreSpaced(s, w, id, k, i, j);
      StartsBeforeEnd(s, w, id, k, i - 1);
      hide Reachable;
      hide ValidSystem;
      LateWaitsAdd(i, j);
      assert 360 * (j - i) * NANOS_PER_SEC <= seconds * NANOS_PER_SEC;
    }
  }

  lemma StartsBeforeEnd(s: Setup, w: State, id: string, k: nat, i: nat)
    requires ValidSystem(s) && Reachable(s, w) && id in s.cfgs && id in w.cells
    requires k < |Episodes(w.cells[id].trace)| && i < |Episodes(w.cells[id].trace)[k].attempts|
    ensures var a := Episodes(w.cells[id].trace)[k].attempts[i]; a.endedAt.Some? ==> a.startedAt <= a.endedAt.value
  {
    EpisodeHolds(s, w, id, k);
  }

  // ---- serial execution and accounting ------------------------------------

  /** At most one restart runs in the whole system, and its flag is set exactly while it runs. */
  lemma RestartsAreSerial(s: Setup, w: State, id: string)
    requires ValidSystem(s) && Reachable(s, w) && id in s.cfgs
    ensures id in w.cells && w.cells[id].recovery.Some?
    ensures w.cells[id].recovery.value.restartInProgress <==> w.coord.Restarting? && w.coord.id == id
    ensures forall e :: e in w.cells[id].trace.past ==> AllEnded(e)
  {
    ReachableRecovery(s, w, id);
    var c := w.cells[id];
    forall e | e in c.trace.past ensures AllEnded(e) {
      var k :| 0 <= k < |c.trace.past| && c.trace.past[k] == e;
    }
  }

  /** Whenever the coordinator is not busy with the service, the store has recorded every restart ever started,
      exactly once and in order; the log keeps the last fifty. */
  lemma EveryRestartIsRecordedOnce(s: Setup, w: State, id: string)
    requires ValidSystem(s) && Reachable(s, w) && id in s.cfgs
    requires !((w.coord.Restarting? || w.coord.Recording?) && w.coord.id == id)
    ensures id in w.cells
    ensures var data, t := w.cells[id].data, w.cells[id].trace;
      && Recorded(t.records) == Started(t)
      && data.state.restartCount == |Started(t)|
      && data.restarts == LastN(t.records, 50)
  {
    ReachableRecovery(s, w, id);
    var t := w.cells[id].trace;
    assert InHand(PhaseOf(w.coord, id)) == [];
    assert Recorded(t.records) + [] == Recorded(t.records);
  }

  /** Record `k` of the service was made by the end of a restart, move `j`: it has the number and the start of that
      restart, and says "succeeded" exactly if that was its outcome. */
  ghost predicate MadeBy(ws: seq<State>, acts: seq<Action>, j: nat, id: string, r: RestartRecord) {
    && j < |acts| && |ws| == |acts| + 1 && acts[j].RestartEnd? && ws[j].coord.Restarting? && ws[j].coord.id == id
    && r.serviceId == id && r.attemptNumber == ws[j].coord.number && r.attemptedAt == ws[j].coord.startedAt
    && (r.succeeded <==> acts[j].outcome == Succeeded)
    && OutcomeFits(ws[j].coord.target, acts[j].outcome)
  }

  /** What one step does to the records of a service and to the record in the coordinator's hands. */
  lemma RecordsOfStep(s: Setup, w: State, a: Action, id: string)
    requires Enabled(s, w, a) && id in w.cells
    ensures var w' := Step(s, w, a);
      && id in w'.cells
      && (w'.cells[id].trace.records == w.cells[id].trace.records
          || (w.coord.Recording? && w.coord.id == id
              && w'.cells[id].trace.records == w.cells[id].trace.records + [w.coord.record]))
      && (w'.coord.Recording? && !a.RestartEnd? ==> w'.coord == w.coord)
      && (w'.coord.Recording? && a.RestartEnd? ==>
            && w.coord.Restarting? && w'.coord.id == w.coord.id
            && w'.coord.record
                 == RestartRecord(w.coord.id, w.coord.startedAt, a.outcome == Succeeded, w.coord.number))
  {
    hide Decide;
  }

  lemma {:induction false} RecordInHandOrigin(s: Setup, clock: Time, ws: seq<State>, acts: seq<Action>, i: nat)
      returns (j: nat)
    requires ValidSystem(s) && IsRun(s, clock, ws, acts) && i < |ws| && ws[i].coord.Recording?
    ensures j < i && MadeBy(ws, acts, j, ws[i].coord.id, ws[i].coord.record)
  {
    var w, a := ws[i - 1], acts[i - 1];
    assert ws[i] == Step(s, w, a);
    assert Enabled(s, w, a);
    RunReaches(s, clock, ws, acts, i);
    RecordingIsKnown(s, ws[i]);
    hide Reachable;
    StepKeepsDomain(s, w, a);
    RecordsOfStep(s, w, a, ws[i].coord.id);
    hide Step;
    hide ValidSystem;
    if a.RestartEnd? {
      j := i - 1;
    } else {
      j := RecordInHandOrigin(s, clock, ws, acts, i - 1);
    }
  }

  lemma RecordingIsKnown(s: Setup, w: State)
    requires ValidSystem(s) && Reachable(s, w) && w.coord.Recording?
    ensures w.coord.id in w.cells
  {
    hide Reachable;
    hide ValidSystem;
    hide Inv;
    ReachableInv(s, w);
    InvCoord(s, w);
    InvKnowsAll(s, w);
  }

  lemma StepKeepsDomain(s: Setup, w: State, a: Action)
    requires Enabled(s, w, a)
    ensures Step(s, w, a).cells.Keys == w.cells.Keys
  {
  }

  lemma NoRecordsAtStart(s: Setup, clock: Time, ws: seq<State>, acts: seq<Action>, id: string)
    requires IsRun(s, clock, ws, acts) && id in ws[0].cells
    ensures ws[0].cells[id].trace.records == []
  {
  }

  lemma StepOfRun(s: Setup, clock: Time, ws: seq<State>, acts: seq<Action>, i: nat)
    requires IsRun(s, clock, ws, acts) && 0 < i < |ws|
    ensures i - 1 < |acts| && Enabled(s, ws[i - 1], acts[i - 1]) && ws[i] == Step(s, ws[i - 1], acts[i - 1])
  {
  }

  /** In every run, every restart on record was really run to its end, and its record tells how it ended. */
  lemma {:induction false} RecordsTellOutcomes(s: Setup, clock: Time, ws: seq<State>, acts: seq<Action>, i: nat,
                                               id: string, k: nat) returns (j: nat)
    requires ValidSystem(s) && IsRun(s, clock, ws, acts) && i < |ws| && id in ws[i].cells
    requires k < |ws[i].cells[id].trace.records|
    ensures j < i && MadeBy(ws, acts, j, id, ws[i].cells[id].trace.records[k])
  {
    hide ValidSystem;
    hide IsRun;
    hide Step;
    hide Enabled;
    hide MadeBy;
    if i == 0 {
      NoRecordsAtStart(s, clock, ws, acts, id);
      assert false;
    } else {
      StepOfRun(s, clock, ws, acts, i);
      StepKeepsDomain(s, ws[i - 1], acts[i - 1]);
      RecordsOfStep(s, ws[i - 1], acts[i - 1], id);
      if k < |ws[i - 1].cells[id].trace.records| {
        j := RecordsTellOutcomes(s, clock, ws, acts, i - 1, id, k);
      } else {
        j := RecordInHandOrigin(s, clock, ws, acts, i - 1);
      }
    }
  }

  // ---- evidence -----------------------------------------------------------

  /** No scan starts from move `i` up to but not including move `j`. */
  ghost predicate NoScanStartIn(acts: seq<Action>, i: nat, j: nat) {
    forall m :: i <= m < j && m < |acts| ==> !acts[m].ScanStart?
  }

  /** The snapshot was taken by this scan start, from the state of that instant. */
  ghost predicate TakenAt(ws: seq<State>, acts: seq<Action>, j: nat, snap: map<string, Seen>) {
    && j < |acts| && |ws| == |acts| + 1 && acts[j] == ScanStart
    && snap == map id | id in ws[j].cells :: SeeCell(ws[j].cells[id])
  }

  /** The snapshot in the coordinator's hands is that of the latest scan start. */
  lemma {:induction false} SnapshotOrigin(s: Setup, clock: Time, ws: seq<State>, acts: seq<Action>, i: nat)
    returns (j: nat)
    requires IsRun(s, clock, ws, acts) && i < |ws| && !ws[i].coord.Idle?
    ensures j < i && TakenAt(ws, acts, j, ws[i].coord.snap) && NoScanStartIn(acts, j + 1, i)
  {
    assert ws[i] == Step(s, ws[i - 1], acts[i - 1]);
    if acts[i - 1].ScanStart? {
      j := i - 1;
    } else {
      KeepsSnapshot(s, ws[i - 1], acts[i - 1]);
      j := SnapshotOrigin(s, clock, ws, acts, i - 1);
    }
  }

  lemma KeepsSnapshot(s: Setup, w: State, a: Action)
    requires Enabled(s, w, a) && !a.ScanStart? && !Step(s, w, a).coord.Idle?
    ensures !w.coord.Idle? && Step(s, w, a).coord.snap == w.coord.snap
  {
  }

  /** The upstream failed its last `max(1, threshold)` checks in a row. */
  ghost predicate FailedRun(h: seq<Check>, threshold: nat) {
    var n := Max(1, threshold);
    n <= |h| && forall m :: |h| - n <= m < |h| ==> !h[m].success
  }

  lemma DownMeansFailedRun(h: seq<Check>, threshold: nat)
    ensures Down(h, threshold) <==> FailedRun(h, threshold)
  {
    TrailingFailuresMeaning(h, Max(1, threshold));
  }

  lemma StartedOnSnapshot(s: Setup, w: State, id: string)
    requires Enabled(s, w, VisitService(id)) && Step(s, w, VisitService(id)).coord.Restarting?
    ensures id in s.cfgs && w.coord.snap[id].status == Failed
  {
  }

  /** No restart starts unless, at the instant of that scan's snapshot, every upstream entry of the service had failed
      its last `max(1, failure_threshold)` checks in a row. */
  lemma RestartsNeedEvidence(s: Setup, clock: Time, ws: seq<State>, acts: seq<Action>, i: nat, id: string)
      returns (j: nat)
    requires ValidSystem(s) && IsRun(s, clock, ws, acts) && i < |acts|
    requires acts[i] == VisitService(id) && ws[i + 1].coord.Restarting?
    ensures j < i && acts[j] == ScanStart && NoScanStartIn(acts, j + 1, i)
    ensures id in s.cfgs && id in ws[j].cells
    ensures var hist := ws[j].cells[id].trace.hist;
      hist != [] && forall k :: 0 <= k < |hist| ==> FailedRun(hist[k], s.cfgs[id].failureThreshold)
  {
    j := SnapshotOrigin(s, clock, ws, acts, i);
    assert ws[i + 1] == Step(s, ws[i], acts[i]);
    StartedOnSnapshot(s, ws[i], id);
    RunReaches(s, clock, ws, acts, i);
    RunReaches(s, clock, ws, acts, j);
    hide IsRun;
    hide Step;
    ReachableRecovery(s, ws[i], id);
    ReachableRecovery(s, ws[j], id);
    StatusMeaning(s, ws[j], id);
    hide Reachable;
    hide ValidSystem;
    hide RecoveryOk;
    hide AccountOk;
    var hist := ws[j].cells[id].trace.hist;
    assert ws[i].coord.snap[id] == SeeCell(ws[j].cells[id]);
    forall k | 0 <= k < |hist| ensures FailedRun(hist[k], s.cfgs[id].failureThreshold) {
      DownMeansFailedRun(hist[k], s.cfgs[id].failureThreshold);
    }
  }

  // ---- evidence gone stale ------------------------------------------------

  /** Either no check since `before` succeeded, or the upstream failed a full run of checks again. */
  ghost predicate StillDown(before: seq<Check>, now: seq<Check>, threshold: nat) {
    (forall m :: |before| <= m < |now| ==> !now[m].success) || FailedRun(now, threshold)
  }

  lemma StillDownMeansDown(before: seq<Check>, now: seq<Check>, threshold: nat)
    requires before <= now && Down(before, threshold)
    ensures StillDown(before, now, threshold) <==> Down(now, threshold)
  {
    DownMeansFailedRun(before, threshold);
    DownMeansFailedRun(now, threshold);
  }

  lemma AllDownStays(before: seq<seq<Check>>, now: seq<seq<Check>>, threshold: nat)
    requires AllDown(before, threshold) && GrownTo(before, now)
    ensures AllDown(now, threshold) <==> forall k :: 0 <= k < |now| ==> StillDown(before[k], now[k], threshold)
  {
    forall k | 0 <= k < |now| ensures StillDown(before[k], now[k], threshold) <==> Down(now[k], threshold) {
      assert Down(before[k], threshold) && before[k] <= now[k];
      StillDownMeansDown(before[k], now[k], threshold);
    }
    hide Down;
    hide StillDown;
  }

  /** Exactly when a started restart hits a service that is still Failed: no upstream passed a check since the scan's
      snapshot, except those that have failed a full run again by now. */
  lemma RestartHitsFailedExactlyWhen(s: Setup, clock: Time, ws: seq<State>, acts: seq<Action>, i: nat, id: string)
      returns (j: nat)
    requires ValidSystem(s) && IsRun(s, clock, ws, acts) && i < |acts|
    requires acts[i] == VisitService(id) && ws[i + 1].coord.Restarting?
    ensures j < i && acts[j] == ScanStart && NoScanStartIn(acts, j + 1, i)
    ensures id in s.cfgs && id in ws[i].cells && id in ws[j].cells
    ensures |ws[i].cells[id].trace.hist| == |ws[j].cells[id].trace.hist|
    ensures var before, now := ws[j].cells[id].trace.hist, ws[i].cells[id].trace.hist;
      ws[i].cells[id].data.state.status == Failed <==>
        forall k :: 0 <= k < |now| ==> StillDown(before[k], now[k], s.cfgs[id].failureThreshold)
  {
    j := RestartsNeedEvidence(s, clock, ws, acts, i, id);
    RunGrowsHistory(s, clock, ws, acts, j, i, id);
    RunReaches(s, clock, ws, acts, i);
    hide IsRun;
    StatusMeaning(s, ws[i], id);
    hide Reachable;
    hide ValidSystem;
    var before := ws[j].cells[id].trace.hist;
    forall k | 0 <= k < |before| ensures Down(before[k], s.cfgs[id].failureThreshold) {
      DownMeansFailedRun(before[k], s.cfgs[id].failureThreshold);
    }
    AllDownStays(before, ws[i].cells[id].trace.hist, s.cfgs[id].failureThreshold);
  }

  /** An address configured twice for a service also means that the service is never restarted, in any run. */
  lemma DuplicateAddressNeverRestarts(s: Setup, w: State, id: string, j: nat, k: nat)
    requires ValidSystem(s) && Reachable(s, w) && id in s.cfgs && id in w.cells && Shadowed(s.cfgs[id].upstreams, j)
    requires k < |Episodes(w.cells[id].trace)|
    ensures Episodes(w.cells[id].trace)[k].attempts == []
  {
    EpisodeHolds(s, w, id, k);
    ReachableData(s, w, id);
    hide Reachable;
    hide ValidSystem;
    var hist, a := w.cells[id].trace.hist, Episodes(w.cells[id].trace)[k].attempts;
    assert hist[j] == [];
    if a != [] {
      assert Justified(s.cfgs[id], s.docker, a[0], hist);
      NeverCheckedIsNotDown(a[0].evidence, hist, s.cfgs[id].failureThreshold, j);
    }
  }

  lemma NeverCheckedIsNotDown(before: seq<seq<Check>>, after: seq<seq<Check>>, threshold: nat, j: nat)
    requires GrownTo(before, after) && j < |after| && after[j] == []
    ensures !AllDown(before, threshold)
  {
    assert before[j] <= after[j];
    assert before[j] == [] && TrailingFailures(before[j]) == 0;
    assert !Down(before[j], threshold);
  }

  // ---- arms that no run reaches -------------------------------------------

  lemma ArmsOfDecision(id: string, cfg: ServiceConfig, docker: bool, c: Cell, seen: Seen, now: Time)
    requires RecoveryOk(cfg, docker, c, Queued(seen), now) && ValidService(id, cfg)
    ensures var d := Decide(cfg, c.recovery, now, docker);
      && !d.NoRestartConfig? && !d.NoRecoveryState? && !d.InProgress?
      && (d.Start? ==> TargetIsConfigured(cfg.restart.value, docker, d.target))
  {
  }

  /** The defensive arms are dead code once the configuration was loaded: the coordinator always knows the service, its
      restart block and its recovery state, never finds a restart already running, and never meets a missing command
      or Docker block. */
  lemma DefensiveArmsAreDead(s: Setup, w: State, id: string)
    requires ValidSystem(s) && Reachable(s, w) && w.coord.Scanning? && id in w.coord.todo
    ensures id in s.cfgs && id in w.cells && id in w.coord.snap
    ensures var d := DecisionAt(s, w, id);
      && !d.NoRestartConfig? && !d.NoRecoveryState? && !d.InProgress?
      && (d.Start? ==> TargetIsConfigured(s.cfgs[id].restart.value, s.docker, d.target))
  {
    hide Inv;
    hide Reachable;
    hide ValidSystem;
    hide RecoveryOk;
    hide AccountOk;
    hide Decide;
    ReachableInv(s, w);
    InvCoord(s, w);
    ReachableRecovery(s, w, id);
    ArmsOfDecision(id, s.cfgs[id], s.docker, w.cells[id], w.coord.snap[id], w.clock);
  }

  lemma InvCoord(s: Setup, w: State)
    requires Inv(s, w)
    ensures CoordOk(s, w.coord)
  {
  }

  /** The guards of the step system hide nothing: a check can be committed whenever its task has no unsent event, ... */
  lemma TasksAreFree(s: Setup, w: State, id: string, task: nat, ok: bool, ms: nat, err: Option<string>)
    requires ValidSystem(s) && Reachable(s, w) && id in s.cfgs && task < |s.cfgs[id].upstreams|
    ensures Enabled(s, w, Commit(id, task, ok, ms, err)) <==> !Enabled(s, w, SendEvent(id, task))
  {
    hide Inv;
    hide Reachable;
    hide ValidSystem;
    ReachableInv(s, w);
    DataHolds(s, w, id);
  }

  /** ... and the coordinator can always go on. */
  lemma CoordinatorIsFree(s: Setup, w: State, outcome: RestartOutcome)
    requires ValidSystem(s) && Reachable(s, w)
    ensures match w.coord
            case Idle => Enabled(s, w, ScanStart)
            case Scanning(_, todo) =>
              if todo == {} then Enabled(s, w, ScanEnd) else forall id :: id in todo ==> Enabled(s, w, VisitService(id))
            case Restarting(_, _, _, _, _, target) =>
              OutcomeFits(target, outcome) ==> Enabled(s, w, RestartEnd(outcome))
            case Recording(_, _, _, _) => Enabled(s, w, RecordAttempt)
  {
    hide Inv;
    hide Reachable;
    hide ValidSystem;
    ReachableInv(s, w);
    InvCoord(s, w);
    InvKnowsAll(s, w);
  }
}
