/** The stored service data always equals its recomputation from the check histories. */
module DataInvariant {
  import opened Models
  import opened Store
  import opened History
  import opened World

  ghost predicate SameAddress(a: UpstreamConfig, b: UpstreamConfig) {
    a.host == b.host && a.port == b.port
  }

  /** An upstream whose address an earlier upstream of the service already has. */
  ghost predicate Shadowed(us: seq<UpstreamConfig>, j: nat) {
    j < |us| && exists i :: 0 <= i < j && SameAddress(us[i], us[j])
  }

  /** No upstream repeats the address of an earlier one. */
  ghost predicate AddressesDiffer(us: seq<UpstreamConfig>) {
    forall j: nat :: !Shadowed(us, j)
  }

  ghost predicate DataOk(cfg: ServiceConfig, data: ServiceData, hist: seq<seq<Check>>, commits: seq<HealthRecord>) {
    && |hist| == |cfg.upstreams|
    && data.entries == UpstreamsFrom(cfg.upstreams, hist, cfg.failureThreshold)
    && data.state == Summarize(data.state, data.entries)
    && data.state.serviceId == cfg.id && !data.state.isRecovering
    && data.checks == LastN(commits, MAX_HEALTH_RECORDS)
    && (forall j: nat :: Shadowed(cfg.upstreams, j) ==> hist[j] == [])
  }

  /** A registered address is always found, and what is found is the first entry with that address. */
  lemma CommitFinds(cfg: ServiceConfig, data: ServiceData, hist: seq<seq<Check>>, commits: seq<HealthRecord>,
                    task: nat) returns (k: nat)
    requires DataOk(cfg, data, hist, commits) && task < |cfg.upstreams|
    ensures FindUpstream(data.entries, cfg.upstreams[task].host, cfg.upstreams[task].port) == Some(k)
    ensures k <= task && !Shadowed(cfg.upstreams, k)
  {
    var found := FindUpstream(data.entries, cfg.upstreams[task].host, cfg.upstreams[task].port);
    assert data.entries[task].host == cfg.upstreams[task].host && data.entries[task].port == cfg.upstreams[task].port;
    k := found.value;
    assert forall i :: 0 <= i < |data.entries| ==>
      data.entries[i].host == cfg.upstreams[i].host && data.entries[i].port == cfg.upstreams[i].port;
  }

  /** A task's check reaches the task's own entry exactly if no earlier upstream has the same address. */
  lemma OwnEntryExactlyWhen(cfg: ServiceConfig, data: ServiceData, hist: seq<seq<Check>>, commits: seq<HealthRecord>,
                            task: nat)
    requires DataOk(cfg, data, hist, commits) && task < |cfg.upstreams|
    ensures FindUpstream(data.entries, cfg.upstreams[task].host, cfg.upstreams[task].port) == Some(task)
      <==> !Shadowed(cfg.upstreams, task)
  {
    var k := CommitFinds(cfg, data, hist, commits, task);
    assert data.entries[k].host == cfg.upstreams[k].host && data.entries[k].port == cfg.upstreams[k].port;
    if k < task { assert SameAddress(cfg.upstreams[k], cfg.upstreams[task]); }
  }

  lemma CommitKeepsData(cfg: ServiceConfig, c: Cell, task: nat, success: bool, latencyMs: nat, error: Option<string>,
                        now: Time)
    requires DataOk(cfg, c.data, c.trace.hist, c.trace.commits)
    requires task < |cfg.upstreams| && task < |c.pending|
    ensures var r := ReportOf(cfg, task, success, latencyMs, error);
      var c' := CommitCell(c, task, r, now);
      && CommitData(c.data, r, now).1.Ok?
      && DataOk(cfg, c'.data, c'.trace.hist, c'.trace.commits)
      && GrownTo(c.trace.hist, c'.trace.hist)
      && c'.data.state.restartCount == c.data.state.restartCount
      && c'.data.restarts == c.data.restarts
  {
    var r := ReportOf(cfg, task, success, latencyMs, error);
    var k := CommitFinds(cfg, c.data, c.trace.hist, c.trace.commits, task);
    var c' := CommitCell(c, task, r, now);
    var check := Check(success, latencyMs, now);
    CheckExtendsHistory(cfg.upstreams[k], c.trace.hist[k], check, cfg.failureThreshold);
    assert c'.trace.hist == c.trace.hist[k := c.trace.hist[k] + [check]];
    assert c'.data.entries == UpstreamsFrom(cfg.upstreams, c'.trace.hist, cfg.failureThreshold);
    PushBoundedKeepsLastN(c.trace.commits, HealthRecord(cfg.id, success, latencyMs, now, error), MAX_HEALTH_RECORDS);
  }

  lemma InitialDataOk(id: string, cfg: ServiceConfig)
    requires ValidService(id, cfg)
    ensures var c := InitialCell(cfg); DataOk(cfg, c.data, c.trace.hist, c.trace.commits)
  {
    var entries := InitialEntries(cfg);
    assert entries[0].status == Unknown;
    assert entries == UpstreamsFrom(cfg.upstreams, InitialCell(cfg).trace.hist, cfg.failureThreshold);
    NothingSeenYet(entries);
  }

  lemma {:induction false} NothingSeenYet(us: seq<UpstreamState>)
    requires forall k :: 0 <= k < |us| ==> us[k] == InitialUpstream(us[k].host, us[k].port)
    ensures MaxFailures(us) == 0 && LatestCheck(us) == None && LatestOk(us) == None
  {
    if us != [] { NothingSeenYet(us[1..]); }
  }
}
