/** The per-service restart state: its backoff schedule and the decision taken for a failed service. */
module Backoff {
  import opened Models

  datatype RecoveryView = RecoveryView(
    currentBackoff: nat,
    restartInProgress: bool,
    currentEpisodeAttempts: nat,
    backoffStartedAt: Option<Time>)

  const INITIAL := RecoveryView(BASE_BACKOFF_SECS, false, 0, None)

  /** Unsigned 32-bit wrap-around, as a release build computes it. */
  function Wrap32(x: nat): nat { x % (U32_MAX + 1) }

  /** Doubles, caps, then adds a fifth plus the attempt number modulo three. The cap comes before the jitter. */
  function Advance(r: RecoveryView): RecoveryView {
    var capped := Min(2 * r.currentBackoff, MAX_BACKOFF_SECS);
    r.(currentBackoff := capped + (capped / 5 + r.currentEpisodeAttempts % 3))
  }

  class RecoveryState {
    var currentBackoff: nat
    var restartInProgress: bool
    var currentEpisodeAttempts: nat
    var backoffStartedAt: Option<Time>

    function View(): RecoveryView
      reads this
    {
      RecoveryView(currentBackoff, restartInProgress, currentEpisodeAttempts, backoffStartedAt)
    }

    constructor ()
      ensures View() == INITIAL
    {
      currentBackoff, restartInProgress, currentEpisodeAttempts, backoffStartedAt := BASE_BACKOFF_SECS, false, 0, None;
    }

    method AdvanceBackoff()
      modifies this`currentBackoff
      ensures View() == Advance(old(View()))
      ensures var capped := Min(2 * old(currentBackoff), 300);
        currentBackoff == capped + capped / 5 + currentEpisodeAttempts % 3
    {
      var doubled := 2 * currentBackoff;
      var capped := if doubled <= MAX_BACKOFF_SECS then doubled else MAX_BACKOFF_SECS;
      var jitterSecs := capped / 5 + currentEpisodeAttempts % 3;
      currentBackoff := capped + jitterSecs;
    }

    method Reset()
      modifies this
      ensures View() == INITIAL
    {
      currentBackoff, restartInProgress, currentEpisodeAttempts, backoffStartedAt := BASE_BACKOFF_SECS, false, 0, None;
    }
  }

  // ---- the wait schedule --------------------------------------------------

  /** The wait stored after attempt `k` of an episode; `Wait(0)` is the seed, never waited for. */
  function Wait(k: nat): nat {
    if k == 0 then BASE_BACKOFF_SECS
    else
      var c := Min(2 * Wait(k - 1), MAX_BACKOFF_SECS);
      c + c / 5 + k % 3
  }

  function Pow2(k: nat): nat { if k == 0 then 1 else 2 * Pow2(k - 1) }

  /** Waits grow at least exponentially from the base until the cap. */
  lemma {:induction false} WaitGrows(k: nat)
    ensures Wait(k) >= Min(BASE_BACKOFF_SECS * Pow2(k), MAX_BACKOFF_SECS)
  {
    if k > 0 { WaitGrows(k - 1); }
  }

  lemma FirstWaits()
    ensures Wait(1) == 13 && Wait(2) == 33 && Wait(3) == 79 && Wait(4) == 190 && Wait(5) == 362
  {
    assert Wait(1) == 13;
    assert Wait(2) == 33;
    assert Wait(3) == 79;
    assert Wait(4) == 190;
  }

  /** From the fifth attempt on the wait is 360 seconds plus at most two. */
  lemma {:induction false} WaitPlateau(k: nat)
    requires k >= 5
    ensures Wait(k) == 360 + k % 3
  {
    if k == 5 { FirstWaits(); } else { WaitPlateau(k - 1); }
  }

  /** 362 seconds is the ceiling, and it is reached; the documented ceiling of 300 holds up to the fourth attempt of an
      episode and for none after it. */
  lemma WaitCeiling(k: nat)
    ensures Wait(k) <= 362 == Wait(5)
    ensures Wait(k) <= MAX_BACKOFF_SECS <==> k <= 4
  {
    FirstWaits();
    if k >= 5 { WaitPlateau(k); }
    else { assert k == 0 || k == 1 || k == 2 || k == 3 || k == 4; }
  }

  lemma WaitIsPositive(k: nat)
    ensures Wait(k) >= 1
  {
  }

  lemma AdvanceFollowsSchedule(r: RecoveryView)
    requires r.currentEpisodeAttempts > 0
    requires r.currentBackoff == Wait(r.currentEpisodeAttempts - 1)
    ensures Advance(r) == r.(currentBackoff := Wait(r.currentEpisodeAttempts))
  {
  }

  /** Total of the waits stored after attempts `i` up to but not including `j`. */
  function WaitSum(i: nat, j: nat): nat
    decreases j - i
  {
    if i >= j then 0 else Wait(i) + WaitSum(i + 1, j)
  }

  // ---- the decision for a failed service ----------------------------------

  datatype RestartTarget =
    | Shell(command: string)
    | DockerRestart(container: string)
    | DockerRepull(container: string, image: string)
    | DockerUnavailable
    | DockerBlockAbsent

  /** What a restart acts on. It is read from the service's own restart block and from nothing else. */
  function TargetOf(restart: RestartConfig, dockerAvailable: bool): RestartTarget
    requires restart.mode != NoneMode
  {
    match restart.mode
    case ManualMode => Shell(if restart.command.Some? then restart.command.value else "")
    case DockerMode =>
      if !dockerAvailable then DockerUnavailable
      else match restart.docker
        case None => DockerBlockAbsent
        case Some(d) => if d.image.Some? then DockerRepull(d.container, d.image.value) else DockerRestart(d.container)
  }

  const NO_DOCKER_CLIENT := SpawnError("Docker client unavailable")
  const NO_DOCKER_CONFIG := SpawnError("no Docker config")

  /** What a restart of the target comes to, if `run` is how the environment answers whatever is run. */
  function OutcomeOf(target: RestartTarget, run: RestartTarget -> RestartOutcome): RestartOutcome {
    match target
    case DockerUnavailable => NO_DOCKER_CLIENT
    case DockerBlockAbsent => NO_DOCKER_CONFIG
    case _ => run(target)
  }

  /** Outcomes are up to the environment, except where no restart can be attempted at all. */
  predicate OutcomeFits(target: RestartTarget, outcome: RestartOutcome) {
    && (target.DockerUnavailable? ==> outcome == NO_DOCKER_CLIENT)
    && (target.DockerBlockAbsent? ==> outcome == NO_DOCKER_CONFIG)
  }

  /** What a restart acts on, read back to the restart block: a shell command only in manual mode and only the
      configured one, a container only in Docker mode with a client and only the configured one, re-pulled exactly if an
      image is configured. No restart runs on a default. */
  ghost predicate TargetIsConfigured(restart: RestartConfig, docker: bool, target: RestartTarget) {
    match target
    case Shell(command) => restart.mode == ManualMode && restart.command == Some(command)
    case DockerRestart(container) =>
      restart.mode == DockerMode && docker && restart.docker == Some(DockerConfig(container, None))
    case DockerRepull(container, image) =>
      restart.mode == DockerMode && docker && restart.docker == Some(DockerConfig(container, Some(image)))
    case DockerUnavailable => restart.mode == DockerMode && !docker
    case DockerBlockAbsent => false
  }

  datatype Decision =
    | NoRestartConfig
    | NotManaged
    | NoRecoveryState
    | InProgress
    | GiveUp
    | GivenUp
    | Waiting(elapsed: int, required: nat)
    | Start(number: nat, target: RestartTarget)

  function Decide(cfg: ServiceConfig, entry: Option<RecoveryView>, now: Time, dockerAvailable: bool): Decision {
    if cfg.restart.None? then NoRestartConfig
    else if cfg.restart.value.mode == NoneMode then NotManaged
    else if entry.None? then NoRecoveryState
    else
      var r := entry.value;
      if r.restartInProgress then InProgress
      else if r.currentEpisodeAttempts >= cfg.maxRestarts then
        (if r.currentEpisodeAttempts == cfg.maxRestarts then GiveUp else GivenUp)
      else if r.backoffStartedAt.Some? && ElapsedSecs(now, r.backoffStartedAt.value) < r.currentBackoff then
        Waiting(ElapsedSecs(now, r.backoffStartedAt.value), r.currentBackoff)
      else Start(r.currentEpisodeAttempts + 1, TargetOf(cfg.restart.value, dockerAvailable))
  }

  /** The recovery state once the decision is taken, before any restart runs. */
  function Begin(r: RecoveryView, d: Decision, now: Time): RecoveryView {
    match d
    case GiveUp => r.(currentEpisodeAttempts := Wrap32(r.currentEpisodeAttempts + 1))
    case Start(n, _) => r.(restartInProgress := true, currentEpisodeAttempts := n, backoffStartedAt := Some(now))
    case _ => r
  }

  /** The recovery state once a restart has ended; every outcome leads to the same state. */
  function Finish(r: RecoveryView, endedAt: Time): RecoveryView {
    Advance(r).(restartInProgress := false, backoffStartedAt := Some(endedAt))
  }

  function CriticalEvent(cfg: ServiceConfig, now: Time): StatusChangeEvent {
    StatusChangeEvent(cfg.id, cfg.name, Failed, Failed, now, Critical(cfg.maxRestarts))
  }

  /** Giving up is final until a reset exactly when the budget is below the largest 32-bit value:
      at that value the counter wraps to zero and restarts begin again. */
  lemma GiveUpSticks(cfg: ServiceConfig, r: RecoveryView, now: Time, later: Time, docker: bool)
    requires Decide(cfg, Some(r), now, docker) == GiveUp
    ensures Decide(cfg, Some(Begin(r, GiveUp, now)), later, docker) == GivenUp <==> cfg.maxRestarts < U32_MAX
  {
    if cfg.maxRestarts == U32_MAX {
      assert Wrap32(U32_MAX + 1) == 0;
    } else {
      assert Wrap32(r.currentEpisodeAttempts + 1) == r.currentEpisodeAttempts + 1;
    }
  }
}
