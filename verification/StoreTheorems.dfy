/** What holds of the stored service data and of the routing list in every state of every run. */
module StoreTheorems {
  import opened Models
  import opened Store
  import opened History
  import opened World
  import opened DataInvariant
  import opened SystemInvariant
  import opened Proxy

  lemma ReachableInv(s: Setup, w: State)
    requires ValidSystem(s) && Reachable(s, w)
    ensures Inv(s, w)
  {
    var clock, ws, acts :| IsRun(s, clock, ws, acts) && ws[|acts|] == w;
    RunKeepsInv(s, clock, ws, acts, |acts|);
  }

  lemma ReachableStep(s: Setup, w: State, a: Action)
    requires Reachable(s, w) && Enabled(s, w, a)
    ensures Reachable(s, Step(s, w, a))
  {
    var clock, ws, acts :| IsRun(s, clock, ws, acts) && ws[|acts|] == w;
    var ws', acts' := ws + [Step(s, w, a)], acts + [a];
    hide Step;
    hide Enabled;
    assert forall i :: 0 <= i < |acts| ==> acts'[i] == acts[i];
    assert forall i :: 0 <= i < |ws| ==> ws'[i] == ws[i];
    assert IsRun(s, clock, ws', acts');
    assert ws'[|acts'|] == Step(s, w, a);
  }

  lemma ReachableInit(s: Setup, clock: Time)
    ensures Reachable(s, Init(s, clock))
  {
    var ws, acts: seq<Action> := [Init(s, clock)], [];
    assert IsRun(s, clock, ws, acts) && ws[|acts|] == Init(s, clock);
  }

  lemma DataHolds(s: Setup, w: State, id: string)
    requires ValidSystem(s) && Inv(s, w) && id in s.cfgs
    ensures id in w.cells && s.cfgs[id].upstreams != [] && s.cfgs[id].id == id
    ensures DataOk(s.cfgs[id], w.cells[id].data, w.cells[id].trace.hist, w.cells[id].trace.commits)
    ensures |w.cells[id].pending| == |s.cfgs[id].upstreams|
  {
    assert ValidService(id, s.cfgs[id]);
    assert CellOk(s, id, w.cells[id], PhaseOf(w.coord, id), w.channel, w.clock);
  }

  lemma ReachableData(s: Setup, w: State, id: string)
    requires ValidSystem(s) && Reachable(s, w) && id in s.cfgs
    ensures id in w.cells && s.cfgs[id].upstreams != []
    ensures DataOk(s.cfgs[id], w.cells[id].data, w.cells[id].trace.hist, w.cells[id].trace.commits)
  {
    ReachableInv(s, w);
    DataHolds(s, w, id);
  }

  /** In every reachable state the stored data of a service is what its check histories say, recomputed from scratch. */
  lemma StoredEqualsRecomputed(s: Setup, w: State, id: string)
    requires ValidSystem(s) && Reachable(s, w) && id in s.cfgs
    ensures id in w.cells
    ensures var cfg := s.cfgs[id];
      var data, t := w.cells[id].data, w.cells[id].trace;
      && |data.entries| == |cfg.upstreams| == |t.hist|
      && (forall k :: 0 <= k < |data.entries| ==>
            data.entries[k] == UpstreamFrom(cfg.upstreams[k], t.hist[k], cfg.failureThreshold))
      && data.state.serviceId == s.cfgs[id].id && !data.state.isRecovering
      && data.state.status == Aggregate(data.entries)
      && (forall k :: 0 <= k < |data.entries| ==> TrailingFailures(t.hist[k]) <= data.state.consecutiveFailures)
      && (exists k :: 0 <= k < |data.entries| && TrailingFailures(t.hist[k]) == data.state.consecutiveFailures)
      && IsLatest(data.state.lastCheckedAt, CheckTimes(data.entries))
      && IsLatest(data.state.lastOkAt, OkTimes(data.entries))
      && data.checks == LastN(t.commits, 100)
  {
    ReachableData(s, w, id);
    CountersAreMaxima(s.cfgs[id], w.cells[id].data, w.cells[id].trace.hist, w.cells[id].trace.commits);
    hide Reachable;
    hide ValidSystem;
    hide IsLatest;
    hide Aggregate;
    hide UpstreamFrom;
  }

  lemma CountersAreMaxima(cfg: ServiceConfig, data: ServiceData, hist: seq<seq<Check>>, commits: seq<HealthRecord>)
    requires DataOk(cfg, data, hist, commits) && cfg.upstreams != []
    ensures |data.entries| == |cfg.upstreams| == |hist|
    ensures forall k :: 0 <= k < |data.entries| ==> TrailingFailures(hist[k]) <= data.state.consecutiveFailures
    ensures exists k :: 0 <= k < |data.entries| && TrailingFailures(hist[k]) == data.state.consecutiveFailures
    ensures IsLatest(data.state.lastCheckedAt, CheckTimes(data.entries))
    ensures IsLatest(data.state.lastOkAt, OkTimes(data.entries))
  {
    SummaryIsMaximum(data.entries);
    hide IsLatest;
    assert forall k :: 0 <= k < |data.entries| ==> data.entries[k].consecutiveFailures == TrailingFailures(hist[k]);
    var k :| 0 <= k < |data.entries| && data.entries[k].consecutiveFailures == MaxFailures(data.entries);
    assert TrailingFailures(hist[k]) == data.state.consecutiveFailures;
  }

  /** What the aggregate status of a service means in every reachable state. */
  lemma StatusMeaning(s: Setup, w: State, id: string)
    requires ValidSystem(s) && Reachable(s, w) && id in s.cfgs
    ensures id in w.cells
    ensures var cfg := s.cfgs[id];
      var status, hist := w.cells[id].data.state.status, w.cells[id].trace.hist;
      && (status == Failed <==> AllDown(hist, cfg.failureThreshold))
      && (status == Healthy <==> forall k :: 0 <= k < |hist| ==> Up(hist[k]))
      && (status == Unknown <==>
            !AllChecked(hist) && forall k :: 0 <= k < |hist| ==> !Down(hist[k], cfg.failureThreshold))
  {
    ReachableData(s, w, id);
    AggregateMeaning(s.cfgs[id].upstreams, w.cells[id].trace.hist, s.cfgs[id].failureThreshold);
  }

  /** In every reachable state, a task's check reaches the entry of the task's own upstream exactly if no earlier
      upstream of the service has the same address. */
  lemma ChecksReachOwnEntryExactlyWhen(s: Setup, w: State, id: string, task: nat)
    requires ValidSystem(s) && Reachable(s, w) && id in s.cfgs && task < |s.cfgs[id].upstreams|
    ensures id in w.cells
    ensures var us := s.cfgs[id].upstreams;
      FindUpstream(w.cells[id].data.entries, us[task].host, us[task].port) == Some(task) <==> !Shadowed(us, task)
  {
    ReachableData(s, w, id);
    OwnEntryExactlyWhen(s.cfgs[id], w.cells[id].data, w.cells[id].trace.hist, w.cells[id].trace.commits, task);
  }

  /** An address configured twice: its second entry is never updated, so the service is never Healthy and never
      Failed, in any run. It is therefore never restarted either. */
  lemma DuplicateAddressNeverSettles(s: Setup, w: State, id: string, j: nat)
    requires ValidSystem(s) && Reachable(s, w) && id in s.cfgs && Shadowed(s.cfgs[id].upstreams, j)
    ensures id in w.cells && j < |w.cells[id].data.entries| && w.cells[id].data.entries[j].status == Unknown
    ensures w.cells[id].data.state.status == Unknown || w.cells[id].data.state.status == Degraded
  {
    ReachableData(s, w, id);
    hide Reachable;
    hide ValidSystem;
    assert w.cells[id].trace.hist[j] == [];
    assert w.cells[id].data.entries[j].status == Unknown;
  }

  // ---- along runs ---------------------------------------------------------

  lemma {:induction false} RunReaches(s: Setup, clock: Time, ws: seq<State>, acts: seq<Action>, i: nat)
    requires IsRun(s, clock, ws, acts) && i < |ws|
    ensures Reachable(s, ws[i])
  {
    assert IsRun(s, clock, ws[..i + 1], acts[..i]);
    assert ws[..i + 1][|acts[..i]|] == ws[i];
  }

  /** Nothing but a commit of its own checks changes what the store says about a service's health. */
  lemma OnlyOwnChecksMatter(s: Setup, w: State, a: Action, id: string)
    requires Enabled(s, w, a) && id in w.cells && !(a.Commit? && a.id == id)
    ensures id in Step(s, w, a).cells
    ensures var c, c' := w.cells[id], Step(s, w, a).cells[id];
      c'.data.state.status == c.data.state.status && c'.data.entries == c.data.entries && c'.trace.hist == c.trace.hist
  {
  }

  lemma StepGrowsHistory(s: Setup, w: State, a: Action, id: string)
    requires ValidSystem(s) && Inv(s, w) && Enabled(s, w, a) && id in s.cfgs
    ensures id in w.cells && id in Step(s, w, a).cells
    ensures GrownTo(w.cells[id].trace.hist, Step(s, w, a).cells[id].trace.hist)
  {
    hide Inv;
    hide ValidSystem;
    DataHolds(s, w, id);
    if a.Commit? && a.id == id {
      CommitKeepsData(s.cfgs[id], w.cells[id], a.task, a.success, a.latencyMs, a.error, w.clock);
    } else {
      OnlyOwnChecksMatter(s, w, a, id);
    }
  }

  lemma {:induction false} RunGrowsHistory(s: Setup, clock: Time, ws: seq<State>, acts: seq<Action>, i: nat, j: nat,
                                           id: string)
    requires ValidSystem(s) && IsRun(s, clock, ws, acts) && i <= j < |ws| && id in s.cfgs
    ensures id in ws[i].cells && id in ws[j].cells
    ensures GrownTo(ws[i].cells[id].trace.hist, ws[j].cells[id].trace.hist)
    decreases j - i
  {
    hide Inv;
    RunKeepsInv(s, clock, ws, acts, i);
    InvKnowsAll(s, ws[i]);
    if i < j {
      assert ws[i + 1] == Step(s, ws[i], acts[i]);
      StepGrowsHistory(s, ws[i], acts[i], id);
      RunGrowsHistory(s, clock, ws, acts, i + 1, j, id);
    }
  }

  lemma InvKnowsAll(s: Setup, w: State)
    requires Inv(s, w)
    ensures w.cells.Keys == s.cfgs.Keys
  {
  }

  /** Once every upstream was checked, the service is never Unknown again. */
  lemma UnknownIsLeftForGood(s: Setup, clock: Time, ws: seq<State>, acts: seq<Action>, i: nat, j: nat, id: string)
    requires ValidSystem(s) && IsRun(s, clock, ws, acts) && i <= j < |ws| && id in s.cfgs
    requires id in ws[i].cells && AllChecked(ws[i].cells[id].trace.hist)
    ensures id in ws[j].cells && ws[j].cells[id].data.state.status != Unknown
  {
    RunGrowsHistory(s, clock, ws, acts, i, j, id);
    RunReaches(s, clock, ws, acts, j);
    StatusMeaning(s, ws[j], id);
    var before, after := ws[i].cells[id].trace.hist, ws[j].cells[id].trace.hist;
    assert forall k :: 0 <= k < |before| ==> before[k] <= after[k];
  }

  /** Along every run a service's status moves on the edges of the transition graph only. */
  lemma StatusMovesOnGraph(s: Setup, clock: Time, ws: seq<State>, acts: seq<Action>, i: nat, id: string)
    requires ValidSystem(s) && IsRun(s, clock, ws, acts) && i < |acts| && id in s.cfgs
    ensures id in ws[i].cells && id in ws[i + 1].cells
    ensures var p, q := ws[i].cells[id].data.state.status, ws[i + 1].cells[id].data.state.status;
      && (p != q ==> acts[i].Commit? && acts[i].id == id)
      && (q == Unknown && p != Unknown ==> p == Degraded)
      && (|s.cfgs[id].upstreams| >= 2 ==> StepAllowed(p, q))
  {
    RunKeepsInv(s, clock, ws, acts, i);
    var w, a := ws[i], acts[i];
    assert ws[i + 1] == Step(s, w, a);
    DataHolds(s, w, id);
    hide Inv;
    hide ValidSystem;
    if !(a.Commit? && a.id == id) {
      OnlyOwnChecksMatter(s, w, a, id);
    } else {
      CommitStatus(s.cfgs[id], w.cells[id], a.task, a.success, a.latencyMs, a.error, w.clock);
    }
  }

  lemma CommitStatus(cfg: ServiceConfig, c: Cell, task: nat, success: bool, latencyMs: nat, error: Option<string>,
                     now: Time)
    requires DataOk(cfg, c.data, c.trace.hist, c.trace.commits) && task < |cfg.upstreams| && task < |c.pending|
    ensures var p := c.data.state.status;
      var q := CommitCell(c, task, ReportOf(cfg, task, success, latencyMs, error), now).data.state.status;
      && (q == Unknown && p != Unknown ==> p == Degraded)
      && (|cfg.upstreams| >= 2 ==> StepAllowed(p, q))
  {
    var k := CommitFinds(cfg, c.data, c.trace.hist, c.trace.commits, task);
    AggregateStep(c.data.entries, k, success, latencyMs, cfg.failureThreshold, now);
  }

  // ---- routing ------------------------------------------------------------

  /** Whatever is on the routing list passed its latest check; a Healthy service routes to all of its upstreams,
      a Failed one to none. */
  lemma RoutingIsSound(s: Setup, w: State, id: string, i: nat)
    requires ValidSystem(s) && Reachable(s, w) && id in s.cfgs && id in w.cells
    ensures var data, hist := w.cells[id].data, w.cells[id].trace.hist;
      var list := HealthyAddresses(data.entries);
      && (i < |list| ==> exists k :: RoutesTo(data.entries, list[i], k) && k < |hist| && Up(hist[k]))
      && (data.state.status == Healthy <==> |list| == |s.cfgs[id].upstreams|)
      && (data.state.status == Failed ==> list == [])
  {
    ReachableData(s, w, id);
    hide Reachable;
    hide ValidSystem;
    ListShowsChecks(s.cfgs[id], w.cells[id].data, w.cells[id].trace.hist, w.cells[id].trace.commits, i);
    hide HealthyAddresses;
    hide DataOk;
  }

  lemma ListShowsChecks(cfg: ServiceConfig, data: ServiceData, hist: seq<seq<Check>>, commits: seq<HealthRecord>,
                        i: nat)
    requires DataOk(cfg, data, hist, commits) && cfg.upstreams != []
    ensures var list := HealthyAddresses(data.entries);
      && (i < |list| ==> exists k :: RoutesTo(data.entries, list[i], k) && k < |hist| && Up(hist[k]))
      && (data.state.status == Healthy <==> |list| == |cfg.upstreams|)
      && (data.state.status == Failed ==> list == [])
  {
    var list := HealthyAddresses(data.entries);
    HealthyListOrigin(data.entries);
    hide HealthyAddresses;
    if list != [] { assert Routable(data.entries, list[0]); }
    if i < |list| {
      assert Routable(data.entries, list[i]);
      var k :| RoutesTo(data.entries, list[i], k);
      assert Up(hist[k]);
    }
  }

  /** A repeated address is never checked, so of all upstreams with one address only the first can be healthy. */
  lemma HistoriesKeepApart(cfg: ServiceConfig, hist: seq<seq<Check>>)
    requires |hist| == |cfg.upstreams|
    requires forall j: nat :: Shadowed(cfg.upstreams, j) ==> hist[j] == []
    ensures HealthyApart(UpstreamsFrom(cfg.upstreams, hist, cfg.failureThreshold))
  {
    var us, entries := cfg.upstreams, UpstreamsFrom(cfg.upstreams, hist, cfg.failureThreshold);
    forall i, j | 0 <= i < j < |us| && entries[j].status == Healthy
      ensures (entries[i].host, entries[i].port) != (entries[j].host, entries[j].port)
    {
      assert hist[j] != [];
      assert !Shadowed(us, j);
      assert !SameAddress(us[i], us[j]);
    }
  }

  /** The routing list names no address twice, in any reachable state: its positions are upstreams. */
  lemma RoutingListHasNoRepeats(s: Setup, w: State, id: string)
    requires ValidSystem(s) && Reachable(s, w) && id in s.cfgs && id in w.cells
    ensures NoRepeats(HealthyAddresses(w.cells[id].data.entries))
  {
    ReachableData(s, w, id);
    hide Reachable;
    hide ValidSystem;
    HistoriesKeepApart(s.cfgs[id], w.cells[id].trace.hist);
    HealthyListNoRepeats(w.cells[id].data.entries);
  }
}
