/** The data types of the orchestrator: configuration, runtime state, events and records. */
module Models {

  datatype Option<+T> = None | Some(value: T)

  /** Instants and differences of instants, in nanoseconds. */
  type Time = int

  const NANOS_PER_SEC: int := 1_000_000_000
  const U32_MAX: nat := 0xFFFF_FFFF
  const U64_SIZE: nat := 0x1_0000_0000_0000_0000

  type U32 = x: int | 0 <= x <= U32_MAX
  type Port = x: int | 0 <= x < 0x1_0000

  const BASE_BACKOFF_SECS: nat := 5
  const MAX_BACKOFF_SECS: nat := 300
  const DEFAULT_ALERT_COOLDOWN_SECS: nat := 60
  const MAX_HEALTH_RECORDS: nat := 100
  const MAX_RESTART_RECORDS: nat := 50
  const MAX_ALERT_RECORDS: nat := 50

  // ---- errors -------------------------------------------------------------

  datatype ConfigFault =
    | NoAddress(id: string)
    | HalfAddress(id: string)
    | DockerBlockMissing(id: string)
    | CommandMissing(id: string)
    | EmptyApiKey
    | NoServices
    | BadServiceId(id: string)
    | DuplicateServiceId(id: string)
    | HttpPathMissing(id: string)
    | ZeroUpstreamPort(id: string, host: string)

  datatype VelaError =
    | ConfigValidation(fault: ConfigFault)
    | ProxyPortConflict(port: Port)
    | UnknownService(id: string)
    | UnknownUpstream(id: string, host: string, port: Port)

  datatype Result<+T> = Ok(value: T) | Err(error: VelaError)

  // ---- configuration ------------------------------------------------------

  datatype RestartMode = DockerMode | ManualMode | NoneMode

  datatype DockerConfig = DockerConfig(container: string, image: Option<string>)

  datatype RestartConfig = RestartConfig(mode: RestartMode, command: Option<string>, docker: Option<DockerConfig>)

  datatype UpstreamConfig = UpstreamConfig(host: string, port: Port, dockerContainer: Option<string>)

  datatype HealthCheckKind = Tcp | Http

  datatype HealthCheckConfig = HealthCheckConfig(kind: HealthCheckKind, httpPath: Option<string>)

  datatype ProxyConfig = ProxyConfig(listenPort: Port, bindAllInterfaces: bool)

  datatype AlertKind = Webhook | Log

  datatype AlertTarget = AlertTarget(kind: AlertKind, enabled: bool)

  datatype ServiceConfig = ServiceConfig(
    id: string,
    name: string,
    host: Option<string>,
    port: Option<Port>,
    command: Option<string>,
    upstreams: seq<UpstreamConfig>,
    restart: Option<RestartConfig>,
    failureThreshold: U32,
    maxRestarts: U32,
    healthCheck: HealthCheckConfig,
    proxy: Option<ProxyConfig>,
    alerts: seq<AlertTarget>)

  datatype VelaConfig = VelaConfig(apiPort: Port, apiKey: string, services: seq<ServiceConfig>)

  // ---- runtime state ------------------------------------------------------

  datatype ServiceStatus = Healthy | Degraded | Failed | Unknown

  datatype UpstreamState = UpstreamState(
    host: string,
    port: Port,
    status: ServiceStatus,
    consecutiveFailures: nat,
    lastCheckedAt: Option<Time>,
    lastOkAt: Option<Time>,
    latencyMs: Option<nat>)

  function InitialUpstream(host: string, port: Port): UpstreamState {
    UpstreamState(host, port, Unknown, 0, None, None, None)
  }

  datatype ServiceState = ServiceState(
    serviceId: string,
    status: ServiceStatus,
    consecutiveFailures: nat,
    lastCheckedAt: Option<Time>,
    lastOkAt: Option<Time>,
    restartCount: nat,
    isRecovering: bool)

  function InitialService(id: string): ServiceState {
    ServiceState(id, Unknown, 0, None, None, 0, false)
  }

  datatype HealthRecord = HealthRecord(
    serviceId: string, success: bool, latencyMs: nat, checkedAt: Time, error: Option<string>)

  datatype RestartRecord = RestartRecord(
    serviceId: string, attemptedAt: Time, succeeded: bool, attemptNumber: nat)

  datatype AlertRecord = AlertRecord(
    serviceId: string, kind: AlertKind, delivered: bool,
    fromStatus: ServiceStatus, toStatus: ServiceStatus, sentAt: Time)

  datatype RestartOutcome = Succeeded | CommandFailed(reason: string) | SpawnError(reason: string) | TimedOut

  /** What the free text of an event says: a transition of the aggregate, or the give-up notice. */
  datatype Message = Transition | Critical(maxRestarts: nat)

  datatype StatusChangeEvent = StatusChangeEvent(
    serviceId: string,
    serviceName: string,
    previousStatus: ServiceStatus,
    newStatus: ServiceStatus,
    timestamp: Time,
    message: Message)

  // ---- clock arithmetic ---------------------------------------------------

  /** Whole seconds of a signed difference, truncated toward zero. */
  function NumSeconds(d: int): int {
    if d >= 0 then d / NANOS_PER_SEC else -((-d) / NANOS_PER_SEC)
  }

  /** The two's complement reinterpretation of a signed 64-bit value as unsigned. */
  function AsU64(x: int): int {
    if x >= 0 then x else x + U64_SIZE
  }

  /** Seconds from `since` to `now` as the engines compute them. */
  function ElapsedSecs(now: Time, since: Time): int {
    AsU64(NumSeconds(now - since))
  }

  /** While the clock does not run backwards, an elapsed count of `k` seconds means `k` full seconds passed. */
  lemma ElapsedIsRealTime(now: Time, since: Time, k: nat)
    requires since <= now
    ensures ElapsedSecs(now, since) >= k <==> now - since >= k * NANOS_PER_SEC
  {
    var d := now - since;
    assert d == d / NANOS_PER_SEC * NANOS_PER_SEC + d % NANOS_PER_SEC;
  }

  /** Exactly when a wait counts as still running, for any two readings: not only while too little time has passed, but
      also only while the clock has not stepped back by a second or more. The cast turns such a step into an enormous
      elapsed time, so it ends every wait at once. */
  lemma WaitRunsExactlyWhen(now: Time, since: Time, wait: nat)
    requires 0 < wait <= U32_MAX && since - now < NANOS_PER_SEC * (U64_SIZE / 2)
    ensures ElapsedSecs(now, since) < wait <==> since - NANOS_PER_SEC < now < since + wait * NANOS_PER_SEC
  {
    if now < since {
      var d := since - now;
      assert d == d / NANOS_PER_SEC * NANOS_PER_SEC + d % NANOS_PER_SEC;
      assert d / NANOS_PER_SEC < U64_SIZE / 2;
    } else {
      ElapsedIsRealTime(now, since, wait);
    }
  }

  // ---- small sequence helpers --------------------------------------------

  function Min(a: int, b: int): int { if a <= b then a else b }

  function Max(a: int, b: int): int { if a >= b then a else b }

  function ToSeq<T>(o: Option<T>): seq<T> { if o.Some? then [o.value] else [] }

  /** The most recent `n` entries. */
  function LastN<T>(s: seq<T>, n: nat): (r: seq<T>)
    ensures |r| == Min(|s|, n)
    ensures forall i :: 0 <= i < |r| ==> r[i] == s[|s| - |r| + i]
  {
    if |s| <= n then s else s[|s| - n..]
  }

  /** A vector that is pushed to and trimmed by one from the front when it grows past `limit`. */
  function PushBounded<T>(s: seq<T>, x: T, limit: nat): seq<T> {
    var grown := s + [x];
    if |grown| > limit then grown[1..] else grown
  }

  /** Pushing onto the last `limit` entries of a log gives the last `limit` entries of the longer log. */
  lemma PushBoundedKeepsLastN<T>(all: seq<T>, x: T, limit: nat)
    requires limit > 0
    ensures PushBounded(LastN(all, limit), x, limit) == LastN(all + [x], limit)
  {
    if |all| >= limit {
      assert LastN(all, limit) + [x] == (all + [x])[|all| - limit..];
    }
  }
}
