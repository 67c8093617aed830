/** The running system as a state machine. Every action below is atomic in the source (one lock section, or the code
    between two awaits); any other action may happen between two of them. */
module World {
  import opened Models
  import opened Store
  import opened History
  import opened Backoff
  import opened Engine

  /** What is fixed at start-up: the services by id, and whether a Docker client was obtained. */
  datatype Setup = Setup(cfgs: map<string, ServiceConfig>, docker: bool)

  /** What loading the configuration guarantees of every service. */
  ghost predicate ValidService(id: string, cfg: ServiceConfig) {
    && cfg.id == id
    && cfg.upstreams != []
    && cfg.restart.Some?
    && (cfg.restart.value.mode == ManualMode ==> cfg.restart.value.command.Some?)
    && (cfg.restart.value.mode == DockerMode ==> cfg.restart.value.docker.Some?)
  }

  // ---- history variables --------------------------------------------------

  /** A started restart, with the check histories of the snapshot that justified it. */
  datatype Attempt = Attempt(
    number: nat, target: RestartTarget, startedAt: Time, endedAt: Option<Time>, evidence: seq<seq<Check>>)

  /** Everything between two resets: the restarts, the give-up notices, and the status whose observation ended it. */
  datatype Episode = Episode(attempts: seq<Attempt>, criticals: seq<Time>, closedBy: Option<ServiceStatus>)

  const OPEN := Episode([], [], None)

  datatype Trace = Trace(
    hist: seq<seq<Check>>,             // all checks, per upstream entry
    commits: seq<HealthRecord>,        // all checks of the service, in lock order
    changes: seq<StatusChangeEvent>,   // all changes of the aggregate, in lock order
    past: seq<Episode>,                // closed episodes, oldest first
    open: Episode,                     // the current episode
    records: seq<RestartRecord>,       // all restarts recorded in the store
    lastReading: Option<Time>)         // the coordinator's latest decision or restart end for this service

  // ---- the state ----------------------------------------------------------

  /** Everything the engines hold for one service. */
  datatype Cell = Cell(
    data: ServiceData,
    recovery: Option<RecoveryView>,
    pending: seq<Option<StatusChangeEvent>>,  // per health task: an event not yet sent
    trace: Trace)

  /** What a scan's snapshot shows of a service; the histories at that instant are a history variable. */
  datatype Seen = Seen(status: ServiceStatus, hist: seq<seq<Check>>)

  datatype Coordinator =
    | Idle
    | Scanning(snap: map<string, Seen>, todo: set<string>)
    | Restarting(
        snap: map<string, Seen>, todo: set<string>, id: string, number: nat, startedAt: Time, target: RestartTarget)
    | Recording(snap: map<string, Seen>, todo: set<string>, id: string, record: RestartRecord)

  datatype State = State(
    clock: Time,
    coord: Coordinator,
    channel: seq<StatusChangeEvent>,  // everything sent, in order of sending
    cells: map<string, Cell>)

  function InitialEntries(cfg: ServiceConfig): seq<UpstreamState> {
    seq(|cfg.upstreams|, k requires 0 <= k < |cfg.upstreams| =>
      InitialUpstream(cfg.upstreams[k].host, cfg.upstreams[k].port))
  }

  function InitialCell(cfg: ServiceConfig): Cell {
    Cell(
      ServiceData(InitialService(cfg.id), InitialEntries(cfg), [], []),
      Some(INITIAL),
      seq(|cfg.upstreams|, _ => None),
      Trace(seq(|cfg.upstreams|, _ => []), [], [], [], OPEN, [], None))
  }

  function Init(s: Setup, clock: Time): State {
    State(clock, Idle, [], map id | id in s.cfgs :: InitialCell(s.cfgs[id]))
  }

  // ---- actions on one cell ------------------------------------------------

  function ReportOf(cfg: ServiceConfig, task: nat, success: bool, latencyMs: nat, error: Option<string>): CheckReport
    requires task < |cfg.upstreams|
  {
    CheckReport(cfg.id, cfg.name, cfg.upstreams[task].host, cfg.upstreams[task].port,
                success, latencyMs, error, cfg.failureThreshold)
  }

  /** The trace after a commit. The check goes to the entry that was found, which may belong to an earlier task. */
  function TraceCommit(t: Trace, k: nat, r: CheckReport, now: Time, event: Option<StatusChangeEvent>): Trace {
    t.(hist := if k < |t.hist| then t.hist[k := t.hist[k] + [Check(r.success, r.latencyMs, now)]] else t.hist,
       commits := t.commits + [HealthRecord(r.serviceId, r.success, r.latencyMs, now, r.error)],
       changes := t.changes + ToSeq(event))
  }

  function CommitCell(c: Cell, task: nat, r: CheckReport, now: Time): Cell
    requires task < |c.pending|
  {
    var (data, result) := CommitData(c.data, r, now);
    var k := FindUpstream(c.data.entries, r.host, r.port);
    if result.Err? || k.None? then c.(data := data)
    else Cell(data, c.recovery, c.pending[task := result.value], TraceCommit(c.trace, k.value, r, now, result.value))
  }

  function SendCell(c: Cell, task: nat): Cell
    requires task < |c.pending|
  {
    c.(pending := c.pending[task := None])
  }

  /** A Healthy or Unknown observation: a service with attempts in its episode starts afresh. */
  function ResetCell(c: Cell, seen: ServiceStatus): Cell {
    if c.recovery.Some? && c.recovery.value.currentEpisodeAttempts > 0 then
      c.(recovery := Some(ResetIfNeeded(c.recovery.value)),
         trace := c.trace.(past := c.trace.past + [c.trace.open.(closedBy := Some(seen))], open := OPEN))
    else c
  }

  function OnStart(t: Trace, d: Decision, now: Time, evidence: seq<seq<Check>>): Trace
    requires d.Start?
  {
    t.(open := t.open.(attempts := t.open.attempts + [Attempt(d.number, d.target, now, None, evidence)]),
       lastReading := Some(now))
  }

  function OnGiveUp(t: Trace, now: Time): Trace {
    t.(open := t.open.(criticals := t.open.criticals + [now]), lastReading := Some(now))
  }

  /** The effect of a decision on the service's cell. */
  function DecideCell(c: Cell, d: Decision, now: Time, evidence: seq<seq<Check>>): Cell {
    if c.recovery.None? then c
    else match d
      case Start(_, _) =>
        c.(recovery := Some(Begin(c.recovery.value, d, now)), trace := OnStart(c.trace, d, now, evidence))
      case GiveUp => c.(recovery := Some(Begin(c.recovery.value, d, now)), trace := OnGiveUp(c.trace, now))
      case _ => c.(trace := c.trace.(lastReading := Some(now)))
  }

  function OnEnd(t: Trace, now: Time): Trace {
    var n := |t.open.attempts|;
    t.(open := if n == 0 then t.open
               else t.open.(attempts := t.open.attempts[n - 1 := t.open.attempts[n - 1].(endedAt := Some(now))]),
       lastReading := Some(now))
  }

  function EndCell(c: Cell, now: Time): Cell {
    if c.recovery.None? then c
    else c.(recovery := Some(Finish(c.recovery.value, now)), trace := OnEnd(c.trace, now))
  }

  function RecordCell(c: Cell, r: RestartRecord): Cell {
    c.(data := RecordData(c.data, r), trace := c.trace.(records := c.trace.records + [r]))
  }

  // ---- actions of the system ----------------------------------------------

  datatype Action =
    | Tick(d: nat)
    | Commit(id: string, task: nat, success: bool, latencyMs: nat, error: Option<string>)
    | SendEvent(id: string, task: nat)
    | ScanStart
    | VisitService(id: string)
    | RestartEnd(outcome: RestartOutcome)
    | RecordAttempt
    | ScanEnd

  /** Every health task is sequential: it commits its next check only after sending the event of the last one. */
  predicate Enabled(s: Setup, w: State, a: Action) {
    match a
    case Tick(_) => true
    case Commit(id, task, _, _, _) =>
      && id in s.cfgs && task < |s.cfgs[id].upstreams|
      && id in w.cells && task < |w.cells[id].pending| && w.cells[id].pending[task].None?
    case SendEvent(id, task) =>
      id in w.cells && task < |w.cells[id].pending| && w.cells[id].pending[task].Some?
    case ScanStart => w.coord.Idle?
    case VisitService(id) => w.coord.Scanning? && id in w.coord.todo && id in w.coord.snap && id in w.cells
    case RestartEnd(outcome) => w.coord.Restarting? && OutcomeFits(w.coord.target, outcome) && w.coord.id in w.cells
    case RecordAttempt => w.coord.Recording? && w.coord.id in w.cells
    case ScanEnd => w.coord.Scanning? && w.coord.todo == {}
  }

  /** The decision for a service whose snapshot says Failed. */
  function DecisionAt(s: Setup, w: State, id: string): Decision
    requires id in s.cfgs && id in w.cells
  {
    Decide(s.cfgs[id], w.cells[id].recovery, w.clock, s.docker)
  }

  function SeeCell(c: Cell): Seen { Seen(c.data.state.status, c.trace.hist) }

  function FailedVisit(s: Setup, w: State, id: string): State
    requires w.coord.Scanning? && id in w.coord.snap && id in w.cells && id in s.cfgs
  {
    var d := DecisionAt(s, w, id);
    var rest := w.coord.todo - {id};
    State(w.clock,
          if d.Start? then Restarting(w.coord.snap, rest, id, d.number, w.clock, d.target)
          else Scanning(w.coord.snap, rest),
          if d.GiveUp? then w.channel + [CriticalEvent(s.cfgs[id], w.clock)] else w.channel,
          w.cells[id := DecideCell(w.cells[id], d, w.clock, w.coord.snap[id].hist)])
  }

  function Visited(s: Setup, w: State, id: string): State
    requires w.coord.Scanning? && id in w.coord.snap && id in w.cells
  {
    var moved := w.(coord := Scanning(w.coord.snap, w.coord.todo - {id}));
    if id !in s.cfgs then moved
    else match w.coord.snap[id].status
      case Failed => FailedVisit(s, w, id)
      case Degraded => moved
      case seen => moved.(cells := w.cells[id := ResetCell(w.cells[id], seen)])
  }

  function Step(s: Setup, w: State, a: Action): State
    requires Enabled(s, w, a)
  {
    match a
    case Tick(d) => w.(clock := w.clock + d)
    case Commit(id, task, success, latencyMs, error) =>
      w.(cells := w.cells[id :=
        CommitCell(w.cells[id], task, ReportOf(s.cfgs[id], task, success, latencyMs, error), w.clock)])
    case SendEvent(id, task) =>
      w.(channel := w.channel + [w.cells[id].pending[task].value],
         cells := w.cells[id := SendCell(w.cells[id], task)])
    case ScanStart =>
      w.(coord := Scanning(map id | id in w.cells :: SeeCell(w.cells[id]), w.cells.Keys))
    case VisitService(id) => Visited(s, w, id)
    case RestartEnd(outcome) =>
      var c := w.coord;
      var record := RestartRecord(c.id, c.startedAt, outcome == Succeeded, c.number);
      w.(coord := if w.cells[c.id].recovery.None? then Scanning(c.snap, c.todo)
                  else Recording(c.snap, c.todo, c.id, record),
         cells := w.cells[c.id := EndCell(w.cells[c.id], w.clock)])
    case RecordAttempt =>
      w.(coord := Scanning(w.coord.snap, w.coord.todo),
         cells := w.cells[w.coord.id := RecordCell(w.cells[w.coord.id], w.coord.record)])
    case ScanEnd => w.(coord := Idle)
  }

  // ---- runs ---------------------------------------------------------------

  ghost predicate IsRun(s: Setup, clock: Time, ws: seq<State>, acts: seq<Action>) {
    && |ws| == |acts| + 1
    && ws[0] == Init(s, clock)
    && forall i :: 0 <= i < |acts| ==> Enabled(s, ws[i], acts[i]) && ws[i + 1] == Step(s, ws[i], acts[i])
  }

  ghost predicate Reachable(s: Setup, w: State) {
    exists clock, ws, acts :: IsRun(s, clock, ws, acts) && ws[|acts|] == w
  }
}
