/** A service that stays down is given up after a bounded number of scans. */
module Progress {
  import opened Models
  import opened History
  import opened Backoff
  import opened World
  import opened RecoveryInvariant
  import opened SystemInvariant

  // ---- clock readings -----------------------------------------------------

  /** The coordinator's last reading for a service lies between the start of its current wait and now. */
  ghost predicate ReadingOk(c: Cell, phase: Phase, clock: Time) {
    && (c.trace.lastReading.Some? ==> c.trace.lastReading.value <= clock)
    && (c.recovery.Some? && c.recovery.value.backoffStartedAt.Some? ==>
          && c.trace.lastReading.Some?
          && c.recovery.value.backoffStartedAt.value <= c.trace.lastReading.value)
    && (phase.InFlight? ==> c.trace.lastReading == Some(phase.startedAt))
  }

  ghost predicate ReadingInv(s: Setup, w: State) {
    forall id :: id in s.cfgs && id in w.cells ==> ReadingOk(w.cells[id], PhaseOf(w.coord, id), w.clock)
  }

  lemma OtherStepsReadNothing(s: Setup, w: State, a: Action, id: string)
    requires Enabled(s, w, a) && id in w.cells && a != VisitService(id)
    requires !(a.RestartEnd? && w.coord.id == id)
    ensures var w' := Step(s, w, a);
      && id in w'.cells
      && w'.cells[id].recovery == w.cells[id].recovery
      && w'.cells[id].trace.lastReading == w.cells[id].trace.lastReading
      && w.clock <= w'.clock
      && (PhaseOf(w'.coord, id).InFlight? ==> PhaseOf(w'.coord, id) == PhaseOf(w.coord, id))
  {
  }

  lemma DecideReads(c: Cell, phase: Phase, d: Decision, now: Time, evidence: seq<seq<Check>>)
    requires ReadingOk(c, phase, now)
    ensures c.recovery.Some? && d.Start? ==>
      ReadingOk(DecideCell(c, d, now, evidence), InFlight(d.number, now, d.target), now)
    ensures !d.Start? ==> ReadingOk(DecideCell(c, d, now, evidence), Out, now)
  {
  }

  lemma ResetReads(c: Cell, phase: Phase, seen: ServiceStatus, now: Time)
    requires ReadingOk(c, phase, now)
    ensures ReadingOk(ResetCell(c, seen), Out, now) && ReadingOk(c, Out, now)
  {
  }

  lemma VisitReads(s: Setup, w: State, id: string)
    requires Enabled(s, w, VisitService(id)) && id in s.cfgs && w.cells[id].recovery.Some?
    requires ReadingOk(w.cells[id], PhaseOf(w.coord, id), w.clock)
    ensures var w' := Visited(s, w, id); ReadingOk(w'.cells[id], PhaseOf(w'.coord, id), w.clock)
  {
    hide Decide;
    hide ReadingOk;
    hide ResetCell;
    hide DecideCell;
    var c, seen := w.cells[id], w.coord.snap[id];
    ResetReads(c, PhaseOf(w.coord, id), seen.status, w.clock);
    DecideReads(c, PhaseOf(w.coord, id), DecisionAt(s, w, id), w.clock, seen.hist);
  }

  lemma EndReads(s: Setup, w: State, outcome: RestartOutcome)
    requires Enabled(s, w, RestartEnd(outcome))
    requires ReadingOk(w.cells[w.coord.id], PhaseOf(w.coord, w.coord.id), w.clock)
    ensures var w' := Step(s, w, RestartEnd(outcome));
      ReadingOk(w'.cells[w.coord.id], PhaseOf(w'.coord, w.coord.id), w'.clock)
  {
  }

  lemma InvCoordAndKeys(s: Setup, w: State)
    requires Inv(s, w)
    ensures w.cells.Keys == s.cfgs.Keys
    ensures forall id :: id in s.cfgs ==> w.cells[id].recovery.Some?
  {
    forall id | id in s.cfgs ensures w.cells[id].recovery.Some? {
      assert CellOk(s, id, w.cells[id], PhaseOf(w.coord, id), w.channel, w.clock);
    }
  }

  lemma StepKeepsCells(s: Setup, w: State, a: Action)
    requires Enabled(s, w, a)
    ensures Step(s, w, a).cells.Keys == w.cells.Keys
  {
  }

  lemma StepReading(s: Setup, w: State, a: Action)
    requires Inv(s, w) && ReadingInv(s, w) && Enabled(s, w, a)
    ensures ReadingInv(s, Step(s, w, a))
  {
    hide Inv;
    hide ReadingOk;
    hide Step;
    InvCoordAndKeys(s, w);
    StepKeepsCells(s, w, a);
    var w' := Step(s, w, a);
    forall id | id in s.cfgs && id in w'.cells
      ensures ReadingOk(w'.cells[id], PhaseOf(w'.coord, id), w'.clock)
    {
      StepReadingOf(s, w, a, id);
    }
  }

  lemma StepReadingOf(s: Setup, w: State, a: Action, id: string)
    requires Enabled(s, w, a) && id in s.cfgs && id in w.cells && w.cells[id].recovery.Some?
    requires ReadingOk(w.cells[id], PhaseOf(w.coord, id), w.clock)
    ensures var w' := Step(s, w, a); id in w'.cells && ReadingOk(w'.cells[id], PhaseOf(w'.coord, id), w'.clock)
  {
    if a == VisitService(id) {
      VisitReads(s, w, id);
      VisitKeepsClock(s, w, id);
    } else if a.RestartEnd? && w.coord.id == id {
      EndReads(s, w, a.outcome);
    } else {
      OtherStepsReadNothing(s, w, a, id);
    }
  }

  lemma VisitKeepsClock(s: Setup, w: State, id: string)
    requires Enabled(s, w, VisitService(id))
    ensures Visited(s, w, id).clock == w.clock && id in Visited(s, w, id).cells
  {
  }

  lemma {:induction false} RunReading(s: Setup, clock: Time, ws: seq<State>, acts: seq<Action>, i: nat)
    requires ValidSystem(s) && IsRun(s, clock, ws, acts) && i < |ws|
    ensures ReadingInv(s, ws[i])
  {
    if i > 0 {
      RunReading(s, clock, ws, acts, i - 1);
      RunKeepsInv(s, clock, ws, acts, i - 1);
      hide Inv;
      hide ReadingInv;
      assert ws[i] == Step(s, ws[i - 1], acts[i - 1]);
      StepReading(s, ws[i - 1], acts[i - 1]);
    }
  }

  // ---- the measure --------------------------------------------------------

  /** An upper bound on the visits left until the give-up notice, from the attempts made and the seconds that had passed
      of the current wait at the last reading. One visit per second of waiting is enough. Zero: the notice is out. */
  function Left(budget: nat, attempts: nat, elapsed: int): nat {
    if attempts > budget then 0
    else if attempts == budget then 1
    else if attempts == 0 then 2 + WaitSum(1, budget)
    else Max(1, Wait(attempts) - elapsed) + WaitSum(attempts + 1, budget) + 1
  }

  function ElapsedAtReading(c: Cell): int
    requires c.recovery.Some?
  {
    if c.recovery.value.backoffStartedAt.None? || c.trace.lastReading.None? then 0
    else NumSeconds(c.trace.lastReading.value - c.recovery.value.backoffStartedAt.value)
  }

  function VisitsLeft(cfg: ServiceConfig, c: Cell): nat {
    if c.recovery.None? then 0 else Left(cfg.maxRestarts, c.recovery.value.currentEpisodeAttempts, ElapsedAtReading(c))
  }

  lemma {:induction false} WaitSumShrinks(i: nat, j: nat, n: nat)
    requires i <= j
    ensures WaitSum(j, n) <= WaitSum(i, n)
    decreases j - i
  {
    if i < j { WaitSumShrinks(i + 1, j, n); }
  }

  /** The bound at the start of an episode is the largest. */
  lemma LeftAtMost(budget: nat, attempts: nat, elapsed: int)
    requires elapsed >= 0
    ensures Left(budget, attempts, elapsed) <= 2 + WaitSum(1, budget)
  {
    if 0 < attempts < budget {
      WaitIsPositive(attempts);
      WaitSumShrinks(1, attempts, budget);
    }
  }

  /** Starting the next attempt uses up a visit, ... */
  lemma LeftAfterStart(budget: nat, attempts: nat, elapsed: int)
    requires attempts < budget
    ensures Left(budget, attempts + 1, 0) <= Left(budget, attempts, elapsed) - 1
  {
    WaitIsPositive(attempts + 1);
    assert attempts + 1 < budget ==>
      WaitSum(attempts + 1, budget) == Wait(attempts + 1) + WaitSum(attempts + 2, budget);
  }

  /** ... and so does every visit that still finds the wait running. */
  lemma LeftAfterWaiting(budget: nat, attempts: nat, elapsed: int, later: int)
    requires 0 < attempts < budget && elapsed + 1 <= later < Wait(attempts)
    ensures Left(budget, attempts, later) <= Left(budget, attempts, elapsed) - 1
  {
  }

  lemma OneSecondLater(since: Time, reading: Time, now: Time)
    requires since <= reading && reading + NANOS_PER_SEC <= now
    ensures NumSeconds(now - since) >= NumSeconds(reading - since) + 1
  {
  }

  /** While the budget is not used up, no notice is out and the counter counts attempts. */
  lemma NoticeOnlyAtBudget(cfg: ServiceConfig, docker: bool, c: Cell, phase: Phase, now: Time)
    requires RecoveryOk(cfg, docker, c, phase, now) && !phase.InFlight?
    ensures c.recovery.Some?
    ensures var r := c.recovery.value;
      && (r.currentEpisodeAttempts < cfg.maxRestarts ==> r.currentBackoff == Wait(r.currentEpisodeAttempts))
      && (0 < r.currentEpisodeAttempts < cfg.maxRestarts ==> r.backoffStartedAt.Some?)
      && (r.backoffStartedAt.Some? ==> r.currentEpisodeAttempts > 0 && r.backoffStartedAt.value <= now)
      && !r.restartInProgress
  {
    assert Budgeted(cfg, c.trace.open);
  }

  /** At least a second has passed since the coordinator's last reading for the service. */
  ghost predicate IsLater(c: Cell, now: Time) {
    c.trace.lastReading.Some? ==> now >= c.trace.lastReading.value + NANOS_PER_SEC
  }

  /** A visit that still finds the wait running never adds visits. */
  lemma LeftWhileWaiting(budget: nat, attempts: nat, elapsed: int, later: int)
    requires 0 < attempts < budget && elapsed <= later
    ensures Left(budget, attempts, later) <= Left(budget, attempts, elapsed)
  {
  }

  lemma NoEarlier(since: Time, reading: Time, now: Time)
    requires since <= reading <= now
    ensures NumSeconds(reading - since) <= NumSeconds(now - since)
  {
  }

  /** A visit that finds the service Failed never adds to the visits left, and it uses up one of them if it comes at
      least a second after the last reading. */
  lemma VisitCounts(cfg: ServiceConfig, docker: bool, c: Cell, seen: Seen, now: Time)
    requires RecoveryOk(cfg, docker, c, Queued(seen), now) && ReadingOk(c, Queued(seen), now)
    requires cfg.restart.Some? && Mode(cfg) != NoneMode && BudgetFits(cfg)
    ensures VisitsLeft(cfg, DecideCell(c, Decide(cfg, c.recovery, now, docker), now, seen.hist))
         <= Max(0, VisitsLeft(cfg, c) - (if IsLater(c, now) then 1 else 0))
  {
    hide RecoveryOk;
    hide Left;
    hide Wait;
    hide WaitSum;
    NoticeOnlyAtBudget(cfg, docker, c, Queued(seen), now);
    var r := c.recovery.value;
    var a, d := r.currentEpisodeAttempts, Decide(cfg, c.recovery, now, docker);
    if d.Start? {
      LeftAfterStart(cfg.maxRestarts, a, ElapsedAtReading(c));
    } else if d.Waiting? {
      WaitingCounts(cfg, c, d, seen, now);
    } else {
      LeftAtEnd(cfg.maxRestarts, a, ElapsedAtReading(c), ElapsedAtReading(DecideCell(c, d, now, seen.hist)));
    }
  }

  lemma WaitingCounts(cfg: ServiceConfig, c: Cell, d: Decision, seen: Seen, now: Time)
    requires c.recovery.Some? && ReadingOk(c, Queued(seen), now) && d.Waiting?
    requires var r := c.recovery.value;
      && 0 < r.currentEpisodeAttempts < cfg.maxRestarts && r.backoffStartedAt.Some? && r.backoffStartedAt.value <= now
      && ElapsedSecs(now, r.backoffStartedAt.value) < r.currentBackoff == Wait(r.currentEpisodeAttempts)
    ensures VisitsLeft(cfg, DecideCell(c, d, now, seen.hist))
      <= Max(0, VisitsLeft(cfg, c) - (if IsLater(c, now) then 1 else 0))
  {
    hide Left;
    hide Wait;
    hide WaitSum;
    var r := c.recovery.value;
    var since, reading, a := r.backoffStartedAt.value, c.trace.lastReading.value, r.currentEpisodeAttempts;
    if IsLater(c, now) {
      OneSecondLater(since, reading, now);
      LeftAfterWaiting(cfg.maxRestarts, a, ElapsedAtReading(c), NumSeconds(now - since));
    } else {
      NoEarlier(since, reading, now);
      LeftWhileWaiting(cfg.maxRestarts, a, ElapsedAtReading(c), NumSeconds(now - since));
    }
  }

  lemma LeftAtEnd(budget: nat, attempts: nat, elapsed: int, later: int)
    requires attempts >= budget
    ensures Left(budget, attempts, elapsed) == (if attempts == budget then 1 else 0)
    ensures Left(budget, attempts + 1, later) == 0
    ensures attempts > budget ==> Left(budget, attempts, later) == 0
  {
  }

  lemma EndCountsNothing(cfg: ServiceConfig, docker: bool, c: Cell, phase: Phase, now: Time)
    requires RecoveryOk(cfg, docker, c, phase, now) && ReadingOk(c, phase, now) && phase.InFlight?
    ensures VisitsLeft(cfg, EndCell(c, now)) == VisitsLeft(cfg, c)
  {
    hide PastOk;
    hide EpisodeOk;
    hide Left;
  }

  lemma VisitsLeftAtMost(cfg: ServiceConfig, docker: bool, c: Cell, phase: Phase, clock: Time)
    requires RecoveryOk(cfg, docker, c, phase, clock) && ReadingOk(c, phase, clock)
    ensures VisitsLeft(cfg, c) <= 2 + WaitSum(1, cfg.maxRestarts)
  {
    hide RecoveryOk;
    if c.recovery.Some? {
      LeftAtMost(cfg.maxRestarts, c.recovery.value.currentEpisodeAttempts, ElapsedAtReading(c));
    }
  }

  // ---- along runs ---------------------------------------------------------

  /** The scan under way saw the service Failed. */
  ghost predicate SeenDown(w: State, id: string) {
    w.coord.Scanning? && id in w.coord.snap && w.coord.snap[id].status == Failed
  }

  /** A visit to the service at least a second after the coordinator's last reading for it. */
  ghost predicate Counts(w: State, a: Action, id: string) {
    && a == VisitService(id)
    && id in w.cells
    && IsLater(w.cells[id], w.clock)
  }

  ghost predicate StaysDown(ws: seq<State>, acts: seq<Action>, id: string, i: nat, j: nat) {
    forall k :: i <= k < j && k < |acts| && k < |ws| && acts[k] == VisitService(id) ==> SeenDown(ws[k], id)
  }

  /** How many visits of the stretch count. */
  ghost function Visits(ws: seq<State>, acts: seq<Action>, id: string, i: nat, j: nat): nat
    requires i <= j <= |acts| <= |ws|
    decreases j
  {
    if i == j then 0 else Visits(ws, acts, id, i, j - 1) + (if Counts(ws[j - 1], acts[j - 1], id) then 1 else 0)
  }

  lemma CellFacts(s: Setup, w: State, id: string)
    requires ValidSystem(s) && Inv(s, w) && ReadingInv(s, w) && id in s.cfgs
    ensures id in w.cells && BudgetFits(s.cfgs[id])
    ensures RecoveryOk(s.cfgs[id], s.docker, w.cells[id], PhaseOf(w.coord, id), w.clock)
    ensures ReadingOk(w.cells[id], PhaseOf(w.coord, id), w.clock)
  {
    assert CellOk(s, id, w.cells[id], PhaseOf(w.coord, id), w.channel, w.clock);
  }

  lemma StepCounts(s: Setup, w: State, a: Action, id: string)
    requires ValidSystem(s) && Inv(s, w) && ReadingInv(s, w) && Enabled(s, w, a) && id in s.cfgs && id in w.cells
    requires s.cfgs[id].restart.Some? && Mode(s.cfgs[id]) != NoneMode
    requires a == VisitService(id) ==> SeenDown(w, id)
    ensures id in Step(s, w, a).cells
    ensures VisitsLeft(s.cfgs[id], Step(s, w, a).cells[id])
         <= Max(0, VisitsLeft(s.cfgs[id], w.cells[id]) - (if Counts(w, a, id) then 1 else 0))
  {
    hide Inv;
    hide ReadingInv;
    hide ValidSystem;
    hide RecoveryOk;
    hide ReadingOk;
    hide VisitsLeft;
    hide DecideCell;
    hide Decide;
    hide EndCell;
    CellFacts(s, w, id);
    var cfg, c := s.cfgs[id], w.cells[id];
    if a == VisitService(id) {
      VisitCounts(cfg, s.docker, c, w.coord.snap[id], w.clock);
      FailedVisitCell(s, w, id);
    } else if a.RestartEnd? && w.coord.id == id {
      EndCountsNothing(cfg, s.docker, c, PhaseOf(w.coord, id), w.clock);
    } else {
      OtherStepsReadNothing(s, w, a, id);
      SameRecoverySameCount(cfg, c, Step(s, w, a).cells[id]);
    }
  }

  lemma FailedVisitCell(s: Setup, w: State, id: string)
    requires Enabled(s, w, VisitService(id)) && id in s.cfgs && w.coord.snap[id].status == Failed
    ensures id in Visited(s, w, id).cells
    ensures Visited(s, w, id).cells[id]
         == DecideCell(w.cells[id], Decide(s.cfgs[id], w.cells[id].recovery, w.clock, s.docker), w.clock,
           w.coord.snap[id].hist)
  {
    hide Decide;
    hide DecideCell;
  }

  lemma SameRecoverySameCount(cfg: ServiceConfig, c: Cell, c': Cell)
    requires c'.recovery == c.recovery && c'.trace.lastReading == c.trace.lastReading
    ensures VisitsLeft(cfg, c') == VisitsLeft(cfg, c)
  {
  }

  lemma {:induction false} RunCounts(s: Setup, clock: Time, ws: seq<State>, acts: seq<Action>, id: string, i: nat,
                                     j: nat)
    requires ValidSystem(s) && IsRun(s, clock, ws, acts) && i <= j <= |acts| && id in s.cfgs
    requires s.cfgs[id].restart.Some? && Mode(s.cfgs[id]) != NoneMode && StaysDown(ws, acts, id, i, j)
    ensures id in ws[i].cells && id in ws[j].cells
    ensures VisitsLeft(s.cfgs[id], ws[j].cells[id])
      <= Max(0, VisitsLeft(s.cfgs[id], ws[i].cells[id]) - Visits(ws, acts, id, i, j))
    decreases j
  {
    hide Inv;
    hide ReadingInv;
    hide VisitsLeft;
    hide ValidSystem;
    hide Enabled;
    hide Step;
    RunKeepsInv(s, clock, ws, acts, i);
    InvCoordAndKeys(s, ws[i]);
    if i < j {
      RunCounts(s, clock, ws, acts, id, i, j - 1);
      RunKeepsInv(s, clock, ws, acts, j - 1);
      RunReading(s, clock, ws, acts, j - 1);
      assert ws[j] == Step(s, ws[j - 1], acts[j - 1]);
      StepCounts(s, ws[j - 1], acts[j - 1], id);
    }
  }

  /** Progress: a managed service that every scan of a stretch of a run sees as Failed is given up once the stretch
      holds 2 + Wait(1) + ... + Wait(max_restarts - 1) visits that come at least a second after the reading before.
      Visits that come sooner, as after a restart that outlasted the polling interval, do no harm and do not count. */
  lemma GivesUpInBoundedScans(s: Setup, clock: Time, ws: seq<State>, acts: seq<Action>, id: string, i: nat, j: nat)
    requires ValidSystem(s) && IsRun(s, clock, ws, acts) && i <= j <= |acts| && id in s.cfgs
    requires s.cfgs[id].restart.Some? && s.cfgs[id].restart.value.mode != NoneMode
    requires StaysDown(ws, acts, id, i, j)
    requires Visits(ws, acts, id, i, j) >= 2 + WaitSum(1, s.cfgs[id].maxRestarts)
    ensures id in ws[j].cells && |ws[j].cells[id].trace.open.criticals| == 1
    ensures |ws[j].cells[id].trace.open.attempts| == s.cfgs[id].maxRestarts
  {
    hide Inv;
    hide ReadingInv;
    hide RecoveryOk;
    hide ReadingOk;
    hide VisitsLeft;
    RunCounts(s, clock, ws, acts, id, i, j);
    var cfg, before, after := s.cfgs[id], ws[i].cells[id], ws[j].cells[id];
    RunFacts(s, clock, ws, acts, i, id);
    RunFacts(s, clock, ws, acts, j, id);
    VisitsLeftAtMost(cfg, s.docker, before, PhaseOf(ws[i].coord, id), ws[i].clock);
    NoVisitsLeftMeansGivenUp(cfg, s.docker, after, PhaseOf(ws[j].coord, id), ws[j].clock);
  }

  lemma RunFacts(s: Setup, clock: Time, ws: seq<State>, acts: seq<Action>, i: nat, id: string)
    requires ValidSystem(s) && IsRun(s, clock, ws, acts) && i < |ws| && id in s.cfgs
    ensures id in ws[i].cells
    ensures RecoveryOk(s.cfgs[id], s.docker, ws[i].cells[id], PhaseOf(ws[i].coord, id), ws[i].clock)
    ensures ReadingOk(ws[i].cells[id], PhaseOf(ws[i].coord, id), ws[i].clock)
  {
    hide Inv;
    hide ReadingInv;
    RunKeepsInv(s, clock, ws, acts, i);
    RunReading(s, clock, ws, acts, i);
    CellFacts(s, ws[i], id);
  }

  lemma NoVisitsLeftMeansGivenUp(cfg: ServiceConfig, docker: bool, c: Cell, phase: Phase, clock: Time)
    requires RecoveryOk(cfg, docker, c, phase, clock) && VisitsLeft(cfg, c) == 0
    ensures |c.trace.open.criticals| == 1 && |c.trace.open.attempts| == cfg.maxRestarts
  {
    assert Budgeted(cfg, c.trace.open);
  }
}
