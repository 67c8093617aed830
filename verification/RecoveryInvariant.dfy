/** What the recovery coordinator keeps true of every service: attempt budget, wait schedule, evidence, accounting. */
module RecoveryInvariant {
  import opened Models
  import opened Store
  import opened History
  import opened Backoff
  import opened World
  import opened DataInvariant

  /** Where the coordinator stands with respect to one service. */
  datatype Phase =
    | Out
    | Queued(seen: Seen)
    | InFlight(number: nat, startedAt: Time, target: RestartTarget)
    | Ended(record: RestartRecord)

  function Mode(cfg: ServiceConfig): RestartMode
    requires cfg.restart.Some?
  {
    cfg.restart.value.mode
  }

  // ---- one episode --------------------------------------------------------

  /** Attempts are numbered 1, 2, 3, ... within the budget; the give-up notice comes at most once, after the last of
      them. */
  ghost predicate Budgeted(cfg: ServiceConfig, e: Episode) {
    && |e.attempts| <= cfg.maxRestarts
    && (forall i :: 0 <= i < |e.attempts| ==> e.attempts[i].number == i + 1)
    && |e.criticals| <= 1
    && (e.criticals != [] ==> |e.attempts| == cfg.maxRestarts)
  }

  /** Attempt `i + 1` starts only a full wait after attempt `i` has ended. */
  ghost predicate Spaced(e: Episode) {
    && (forall i :: 0 <= i < |e.attempts| && e.attempts[i].endedAt.Some? ==>
          e.attempts[i].startedAt <= e.attempts[i].endedAt.value)
    && (forall i :: 0 <= i < |e.attempts| - 1 ==>
          && e.attempts[i].endedAt.Some?
          && e.attempts[i + 1].startedAt - e.attempts[i].endedAt.value >= Wait(i + 1) * NANOS_PER_SEC)
  }

  /** The restart acts on what the service's own restart block names. */
  ghost predicate OwnTarget(cfg: ServiceConfig, docker: bool, a: Attempt) {
    cfg.restart.Some? && Mode(cfg) != NoneMode && a.target == TargetOf(cfg.restart.value, docker)
  }

  /** The attempt acts on the service's own target, and was started on a snapshot in which every upstream was down. */
  ghost predicate Justified(cfg: ServiceConfig, docker: bool, a: Attempt, hist: seq<seq<Check>>) {
    && OwnTarget(cfg, docker, a)
    && AllDown(a.evidence, cfg.failureThreshold)
    && GrownTo(a.evidence, hist)
  }

  ghost predicate AllJustified(cfg: ServiceConfig, docker: bool, e: Episode, hist: seq<seq<Check>>) {
    forall i :: 0 <= i < |e.attempts| ==> Justified(cfg, docker, e.attempts[i], hist)
  }

  ghost predicate EpisodeOk(cfg: ServiceConfig, docker: bool, e: Episode, hist: seq<seq<Check>>) {
    Budgeted(cfg, e) && Spaced(e) && AllJustified(cfg, docker, e, hist)
  }

  ghost predicate AllEnded(e: Episode) {
    forall i :: 0 <= i < |e.attempts| ==> e.attempts[i].endedAt.Some?
  }

  /** Closed episodes ended on a Healthy observation with no restart running. */
  ghost predicate PastOk(cfg: ServiceConfig, docker: bool, past: seq<Episode>, hist: seq<seq<Check>>) {
    forall k :: 0 <= k < |past| ==>
      EpisodeOk(cfg, docker, past[k], hist) && AllEnded(past[k]) && past[k].closedBy == Some(Healthy)
  }

  // ---- the recovery state against the open episode ------------------------

  ghost predicate StateMatches(cfg: ServiceConfig, r: RecoveryView, open: Episode, phase: Phase, clock: Time) {
    var n := |open.attempts|;
    && open.closedBy == None
    && r.currentEpisodeAttempts == n + |open.criticals|
    && r.restartInProgress == phase.InFlight?
    && match phase
       case InFlight(number, startedAt, target) =>
         && n > 0 && open.criticals == []
         && Last(open.attempts).endedAt == None && Last(open.attempts).number == number
         && Last(open.attempts).startedAt == startedAt && Last(open.attempts).target == target
         && startedAt <= clock
         && r.currentBackoff == Wait(n - 1)
         && r.backoffStartedAt == Some(startedAt)
       case _ =>
         && r.currentBackoff == Wait(n)
         && if n == 0 then r.backoffStartedAt == None
            else
              && Last(open.attempts).endedAt.Some?
              && r.backoffStartedAt == Last(open.attempts).endedAt
              && r.backoffStartedAt.value <= clock
  }

  /** A queued service was seen at an earlier instant of its own history. */
  ghost predicate SeenOk(cfg: ServiceConfig, seen: Seen, hist: seq<seq<Check>>, attempts: nat) {
    && GrownTo(seen.hist, hist)
    && |seen.hist| == |cfg.upstreams|
    && seen.status == Aggregate(UpstreamsFrom(cfg.upstreams, seen.hist, cfg.failureThreshold))
    && (attempts > 0 ==> seen.status != Unknown)
  }

  /** A service whose restart mode is "none" is never touched. */
  ghost predicate Untouched(cfg: ServiceConfig, c: Cell) {
    c.recovery == Some(INITIAL) && c.trace.past == [] && c.trace.open == OPEN
  }

  ghost predicate RecoveryOk(cfg: ServiceConfig, docker: bool, c: Cell, phase: Phase, clock: Time) {
    && c.recovery.Some?
    && StateMatches(cfg, c.recovery.value, c.trace.open, phase, clock)
    && EpisodeOk(cfg, docker, c.trace.open, c.trace.hist)
    && PastOk(cfg, docker, c.trace.past, c.trace.hist)
    && (c.recovery.value.currentEpisodeAttempts > 0 || c.trace.past != [] ==> AllChecked(c.trace.hist))
    && (phase.Queued? ==> SeenOk(cfg, phase.seen, c.trace.hist, c.recovery.value.currentEpisodeAttempts))
    && (cfg.restart.Some? && Mode(cfg) == NoneMode ==> Untouched(cfg, c))
  }

  // ---- frames -------------------------------------------------------------

  lemma GrownIsTransitive(a: seq<seq<Check>>, b: seq<seq<Check>>, c: seq<seq<Check>>)
    requires GrownTo(a, b) && GrownTo(b, c)
    ensures GrownTo(a, c)
  {
  }

  lemma EpisodeSurvivesGrowth(cfg: ServiceConfig, docker: bool, e: Episode, hist: seq<seq<Check>>,
                              hist': seq<seq<Check>>)
    requires EpisodeOk(cfg, docker, e, hist) && GrownTo(hist, hist')
    ensures EpisodeOk(cfg, docker, e, hist')
  {
    forall i | 0 <= i < |e.attempts| ensures Justified(cfg, docker, e.attempts[i], hist') {
      assert Justified(cfg, docker, e.attempts[i], hist);
      GrownIsTransitive(e.attempts[i].evidence, hist, hist');
    }
  }

  /** More checks, and a later clock, disturb nothing. */
  lemma GrowthKeepsRecovery(cfg: ServiceConfig, docker: bool, c: Cell, c': Cell, phase: Phase, clock: Time,
                            clock': Time)
    requires RecoveryOk(cfg, docker, c, phase, clock) && clock <= clock'
    requires c'.recovery == c.recovery && c'.trace.open == c.trace.open && c'.trace.past == c.trace.past
    requires GrownTo(c.trace.hist, c'.trace.hist)
    ensures RecoveryOk(cfg, docker, c', phase, clock')
  {
    EpisodeSurvivesGrowth(cfg, docker, c.trace.open, c.trace.hist, c'.trace.hist);
    forall k | 0 <= k < |c.trace.past| ensures EpisodeOk(cfg, docker, c.trace.past[k], c'.trace.hist) {
      EpisodeSurvivesGrowth(cfg, docker, c.trace.past[k], c.trace.hist, c'.trace.hist);
    }
  }

  // ---- the coordinator's own steps ----------------------------------------

  /** A snapshot shows what the histories say; with attempts made, that cannot be Unknown. */
  lemma QueueKeepsRecovery(cfg: ServiceConfig, docker: bool, c: Cell, clock: Time)
    requires RecoveryOk(cfg, docker, c, Out, clock) && cfg.upstreams != []
    requires DataOk(cfg, c.data, c.trace.hist, c.trace.commits)
    ensures RecoveryOk(cfg, docker, c, Queued(SeeCell(c)), clock)
  {
    AggregateMeaning(cfg.upstreams, c.trace.hist, cfg.failureThreshold);
  }

  lemma DequeueKeepsRecovery(cfg: ServiceConfig, docker: bool, c: Cell, seen: Seen, clock: Time)
    requires RecoveryOk(cfg, docker, c, Queued(seen), clock)
    ensures RecoveryOk(cfg, docker, c, Out, clock)
  {
  }

  /** With no attempt in the episode the recovery state is the initial one. */
  lemma NoAttemptsMeansInitial(cfg: ServiceConfig, docker: bool, c: Cell, phase: Phase, clock: Time)
    requires RecoveryOk(cfg, docker, c, phase, clock)
    requires c.recovery.value.currentEpisodeAttempts == 0
    ensures c.recovery == Some(INITIAL) && c.trace.open == OPEN
  {
  }

  lemma ClosingKeepsEpisode(cfg: ServiceConfig, docker: bool, e: Episode, seen: ServiceStatus, hist: seq<seq<Check>>)
    requires EpisodeOk(cfg, docker, e, hist)
    ensures EpisodeOk(cfg, docker, e.(closedBy := Some(seen)), hist)
  {
  }

  lemma PastGrows(cfg: ServiceConfig, docker: bool, past: seq<Episode>, e: Episode, hist: seq<seq<Check>>)
    requires PastOk(cfg, docker, past, hist)
    requires EpisodeOk(cfg, docker, e, hist) && AllEnded(e) && e.closedBy == Some(Healthy)
    ensures PastOk(cfg, docker, past + [e], hist)
  {
    hide EpisodeOk;
    hide AllEnded;
  }

  lemma NothingRunning(cfg: ServiceConfig, r: RecoveryView, e: Episode, phase: Phase, clock: Time)
    requires StateMatches(cfg, r, e, phase, clock) && !phase.InFlight? && Spaced(e)
    ensures AllEnded(e)
  {
  }

  /** The reset arm fires for an episode with attempts only when the service was seen Healthy. */
  lemma ResetKeepsRecovery(cfg: ServiceConfig, docker: bool, c: Cell, seen: Seen, clock: Time)
    requires RecoveryOk(cfg, docker, c, Queued(seen), clock)
    requires seen.status == Healthy || seen.status == Unknown
    ensures RecoveryOk(cfg, docker, ResetCell(c, seen.status), Out, clock)
    ensures ResetCell(c, seen.status).recovery == Some(INITIAL)
    ensures c.recovery.value.currentEpisodeAttempts > 0 ==> seen.status == Healthy
  {
    if c.recovery.value.currentEpisodeAttempts == 0 {
      NoAttemptsMeansInitial(cfg, docker, c, Queued(seen), clock);
      hide EpisodeOk;
      hide PastOk;
    } else {
      NothingRunning(cfg, c.recovery.value, c.trace.open, Queued(seen), clock);
      ClosingKeepsEpisode(cfg, docker, c.trace.open, seen.status, c.trace.hist);
      PastGrows(cfg, docker, c.trace.past, c.trace.open.(closedBy := Some(seen.status)), c.trace.hist);
      hide PastOk;
      hide AllChecked;
      hide SeenOk;
    }
  }

  /** The budget is below the largest 32-bit value, so giving up sticks. */
  ghost predicate BudgetFits(cfg: ServiceConfig) { cfg.maxRestarts < U32_MAX }

  lemma SpacingGrows(e: Episode, a: Attempt)
    requires Spaced(e) && AllEnded(e) && a.endedAt == None
    requires e.attempts != [] ==> a.startedAt - Last(e.attempts).endedAt.value >= Wait(|e.attempts|) * NANOS_PER_SEC
    ensures Spaced(e.(attempts := e.attempts + [a]))
  {
    hide Wait;
    var e' := e.(attempts := e.attempts + [a]);
    assert e'.attempts[|e.attempts|] == a;
    assert forall i :: 0 <= i < |e.attempts| ==> e'.attempts[i] == e.attempts[i];
  }

  lemma EpisodeGrows(cfg: ServiceConfig, docker: bool, e: Episode, a: Attempt, hist: seq<seq<Check>>)
    requires EpisodeOk(cfg, docker, e, hist) && AllEnded(e) && e.criticals == []
    requires a.number == |e.attempts| + 1 <= cfg.maxRestarts && a.endedAt == None && Justified(cfg, docker, a, hist)
    requires e.attempts != [] ==> a.startedAt - Last(e.attempts).endedAt.value >= Wait(|e.attempts|) * NANOS_PER_SEC
    ensures EpisodeOk(cfg, docker, e.(attempts := e.attempts + [a]), hist)
  {
    SpacingGrows(e, a);
    hide Spaced;
    hide Justified;
    hide AllEnded;
    var e' := e.(attempts := e.attempts + [a]);
    assert e'.attempts[|e.attempts|] == a;
    assert forall i :: 0 <= i < |e.attempts| ==> e'.attempts[i] == e.attempts[i];
  }

  /** The gate of the backoff: a started attempt keeps its full distance from the end of the one before. */
  lemma StartMatches(cfg: ServiceConfig, docker: bool, r: RecoveryView, open: Episode, phase: Phase, now: Time,
                     evidence: seq<seq<Check>>)
    requires StateMatches(cfg, r, open, phase, now) && !phase.InFlight? && Budgeted(cfg, open) && Spaced(open)
    requires Decide(cfg, Some(r), now, docker).Start?
    ensures var d := Decide(cfg, Some(r), now, docker);
      var n := |open.attempts|;
      && open.criticals == [] && AllEnded(open) && d.number == n + 1 <= cfg.maxRestarts
      && (n > 0 ==> now - Last(open.attempts).endedAt.value >= Wait(n) * NANOS_PER_SEC)
      && StateMatches(cfg, Begin(r, d, now),
                      open.(attempts := open.attempts + [Attempt(d.number, d.target, now, None, evidence)]),
                      InFlight(d.number, now, d.target), now)
  {
    var n := |open.attempts|;
    if n > 0 {
      ElapsedIsRealTime(now, r.backoffStartedAt.value, Wait(n));
    }
  }

  lemma StartKeepsRecovery(cfg: ServiceConfig, docker: bool, c: Cell, seen: Seen, now: Time)
    requires RecoveryOk(cfg, docker, c, Queued(seen), now) && seen.status == Failed && cfg.upstreams != []
    requires Decide(cfg, c.recovery, now, docker).Start?
    ensures var d := Decide(cfg, c.recovery, now, docker);
      RecoveryOk(cfg, docker, DecideCell(c, d, now, seen.hist), InFlight(d.number, now, d.target), now)
  {
    var d := Decide(cfg, c.recovery, now, docker);
    AggregateMeaning(cfg.upstreams, seen.hist, cfg.failureThreshold);
    StartMatches(cfg, docker, c.recovery.value, c.trace.open, Queued(seen), now, seen.hist);
    var a := Attempt(d.number, d.target, now, None, seen.hist);
    assert Justified(cfg, docker, a, c.trace.hist);
    AllDownIsChecked(seen.hist, c.trace.hist, cfg.failureThreshold);
    hide EpisodeOk;
    hide PastOk;
    hide StateMatches;
    EpisodeGrows(cfg, docker, c.trace.open, a, c.trace.hist);
  }

  lemma AllDownIsChecked(before: seq<seq<Check>>, after: seq<seq<Check>>, threshold: nat)
    requires AllDown(before, threshold) && GrownTo(before, after)
    ensures AllChecked(after)
  {
    forall k | 0 <= k < |after| ensures after[k] != [] {
      assert before[k] <= after[k];
    }
  }

  lemma GiveUpMatches(cfg: ServiceConfig, docker: bool, r: RecoveryView, open: Episode, phase: Phase, now: Time)
    requires StateMatches(cfg, r, open, phase, now) && !phase.InFlight? && Budgeted(cfg, open)
    requires Decide(cfg, Some(r), now, docker).GiveUp? && BudgetFits(cfg)
    ensures open.criticals == [] && |open.attempts| == cfg.maxRestarts
    ensures StateMatches(cfg, Begin(r, GiveUp, now), open.(criticals := [now]), Out, now)
  {
  }

  lemma GiveUpKeepsRecovery(cfg: ServiceConfig, docker: bool, c: Cell, seen: Seen, now: Time)
    requires RecoveryOk(cfg, docker, c, Queued(seen), now) && seen.status == Failed && cfg.upstreams != []
    requires Decide(cfg, c.recovery, now, docker).GiveUp? && BudgetFits(cfg)
    ensures RecoveryOk(cfg, docker, DecideCell(c, GiveUp, now, seen.hist), Out, now)
  {
    AggregateMeaning(cfg.upstreams, seen.hist, cfg.failureThreshold);
    AllDownIsChecked(seen.hist, c.trace.hist, cfg.failureThreshold);
    GiveUpMatches(cfg, docker, c.recovery.value, c.trace.open, Queued(seen), now);
    var open' := c.trace.open.(criticals := [now]);
    assert EpisodeOk(cfg, docker, open', c.trace.hist);
    hide EpisodeOk;
    hide PastOk;
    hide StateMatches;
    assert c.trace.open.criticals + [now] == [now];
  }

  lemma DecideKeepsRecovery(cfg: ServiceConfig, docker: bool, c: Cell, seen: Seen, now: Time)
    requires RecoveryOk(cfg, docker, c, Queued(seen), now) && seen.status == Failed && cfg.upstreams != []
    requires BudgetFits(cfg)
    ensures var d := Decide(cfg, c.recovery, now, docker);
      RecoveryOk(cfg, docker, DecideCell(c, d, now, seen.hist),
                 if d.Start? then InFlight(d.number, now, d.target) else Out, now)
  {
    var d := Decide(cfg, c.recovery, now, docker);
    if d.Start? {
      StartKeepsRecovery(cfg, docker, c, seen, now);
    } else if d.GiveUp? {
      GiveUpKeepsRecovery(cfg, docker, c, seen, now);
    } else {
      DequeueKeepsRecovery(cfg, docker, c, seen, now);
      GrowthKeepsRecovery(cfg, docker, c, DecideCell(c, d, now, seen.hist), Out, now, now);
    }
  }

  function EndLast(e: Episode, now: Time): Episode
    requires e.attempts != []
  {
    var n := |e.attempts|;
    e.(attempts := e.attempts[n - 1 := e.attempts[n - 1].(endedAt := Some(now))])
  }

  lemma LastSpacingEnds(e: Episode, now: Time)
    requires Spaced(e) && e.attempts != [] && Last(e.attempts).startedAt <= now
    ensures Spaced(EndLast(e, now))
  {
    hide Wait;
    var e' := EndLast(e, now);
    assert forall i :: 0 <= i < |e.attempts| - 1 ==> e'.attempts[i] == e.attempts[i];
  }

  lemma LastAttemptEnds(cfg: ServiceConfig, docker: bool, e: Episode, now: Time, hist: seq<seq<Check>>)
    requires EpisodeOk(cfg, docker, e, hist) && e.attempts != [] && Last(e.attempts).startedAt <= now
    ensures EpisodeOk(cfg, docker, EndLast(e, now), hist)
  {
    var n := |e.attempts|;
    assert Justified(cfg, docker, e.attempts[n - 1], hist);
    assert Justified(cfg, docker, EndLast(e, now).attempts[n - 1], hist);
    LastSpacingEnds(e, now);
    hide Spaced;
    hide Justified;
    assert forall i :: 0 <= i < n - 1 ==> EndLast(e, now).attempts[i] == e.attempts[i];
  }

  lemma EndMatches(cfg: ServiceConfig, r: RecoveryView, open: Episode, phase: Phase, record: RestartRecord, now: Time)
    requires StateMatches(cfg, r, open, phase, now) && phase.InFlight? && Budgeted(cfg, open)
    ensures open.attempts != [] && Last(open.attempts).startedAt <= now
    ensures StateMatches(cfg, Finish(r, now), EndLast(open, now), Ended(record), now)
    ensures Finish(r, now).currentEpisodeAttempts == r.currentEpisodeAttempts
  {
    hide Wait;
    WaitAfter(r.currentEpisodeAttempts);
  }

  lemma WaitAfter(k: nat)
    ensures k > 0 ==> Wait(k) == Min(2 * Wait(k - 1), 300) + Min(2 * Wait(k - 1), 300) / 5 + k % 3
  {
  }

  lemma EndKeepsRecovery(cfg: ServiceConfig, docker: bool, c: Cell, phase: Phase, record: RestartRecord, now: Time)
    requires RecoveryOk(cfg, docker, c, phase, now) && phase.InFlight?
    ensures RecoveryOk(cfg, docker, EndCell(c, now), Ended(record), now)
  {
    EndMatches(cfg, c.recovery.value, c.trace.open, phase, record, now);
    LastAttemptEnds(cfg, docker, c.trace.open, now, c.trace.hist);
    hide EpisodeOk;
    hide PastOk;
    hide StateMatches;
    hide Finish;
  }

  lemma RecordKeepsRecovery(cfg: ServiceConfig, docker: bool, c: Cell, record: RestartRecord, clock: Time)
    requires RecoveryOk(cfg, docker, c, Ended(record), clock)
    ensures RecoveryOk(cfg, docker, RecordCell(c, record), Out, clock)
  {
  }
}
