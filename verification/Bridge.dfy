/** The step system and the objects agree: a visit that nothing interrupts is exactly what the coordinator's code does,
    and one cell of the system is one service's share of the store. */
module Bridge {
  import opened Models
  import opened Store
  import opened Backoff
  import opened Engine
  import opened World

  /** The steps of one visit in a row: decide and, if a restart starts, let time pass, end it and record it. */
  ghost function WholeVisit(s: Setup, w: State, id: string, v: Visit): State
    requires Enabled(s, w, VisitService(id)) && id in s.cfgs && w.clock == v.now <= v.endedAt
  {
    var w1 := Step(s, w, VisitService(id));
    if !w1.coord.Restarting? then w1
    else
      var w2 := Step(s, w1, Tick(v.endedAt - v.now));
      var w3 := Step(s, w2, RestartEnd(OutcomeOf(w1.coord.target, v.run)));
      if Enabled(s, w3, RecordAttempt) then Step(s, w3, RecordAttempt) else w3
  }

  /** An uninterrupted visit leaves the recovery state, the store's data, the channel and the coordinator as the code
      does. */
  lemma UninterruptedVisitIsTheCode(s: Setup, w: State, id: string, v: Visit)
    requires Enabled(s, w, VisitService(id)) && id in s.cfgs && s.cfgs[id].id == id && w.clock == v.now <= v.endedAt
    ensures var w' := WholeVisit(s, w, id, v);
      var h := HandleService(s.cfgs, id, w.coord.snap[id].status, w.cells[id].recovery, s.docker, v);
      && id in w'.cells
      && w'.cells[id].recovery == h.entry
      && w'.cells[id].data
           == (if h.record.Some? then RecordData(w.cells[id].data, h.record.value) else w.cells[id].data)
      && w'.channel == w.channel + ToSeq(h.event)
      && w'.coord == Scanning(w.coord.snap, w.coord.todo - {id})
      && (forall other :: other != id && other in w.cells ==> other in w'.cells && w'.cells[other] == w.cells[other])
  {
    var d := DecisionAt(s, w, id);
    if w.coord.snap[id].status == Failed && d.Start? {
      StartedVisit(s, w, id, v);
    } else {
      hide Decide;
      assert w.channel + [] == w.channel;
    }
  }

  lemma StartedVisit(s: Setup, w: State, id: string, v: Visit)
    requires Enabled(s, w, VisitService(id)) && id in s.cfgs && s.cfgs[id].id == id && w.clock == v.now <= v.endedAt
    requires w.coord.snap[id].status == Failed && DecisionAt(s, w, id).Start?
    ensures var d := DecisionAt(s, w, id);
      var record := RestartRecord(id, v.now, OutcomeOf(d.target, v.run) == Succeeded, d.number);
      var c := w.cells[id];
      var c' := RecordCell(EndCell(DecideCell(c, d, v.now, w.coord.snap[id].hist), v.endedAt), record);
      && c.recovery.Some?
      && c'.recovery == Some(Finish(Begin(c.recovery.value, d, v.now), v.endedAt))
      && c'.data == RecordData(c.data, record)
      && WholeVisit(s, w, id, v)
           == State(v.endedAt, Scanning(w.coord.snap, w.coord.todo - {id}), w.channel, w.cells[id := c'])
  {
    hide OnStart;
    hide OnEnd;
    hide Finish;
  }

  /** A cell's data, committed, is the store's data committed: the same change, the same event, nothing else touched. */
  lemma CellCommitIsStoreCommit(s: Setup, st: StoreView, c: Cell, id: string, task: nat, ok: bool, ms: nat,
                                err: Option<string>, now: Time)
    requires id in s.cfgs && s.cfgs[id].id == id && task < |s.cfgs[id].upstreams| && task < |c.pending|
    requires Registered(st, id) && c.data == DataOf(st, id)
    ensures var r := ReportOf(s.cfgs[id], task, ok, ms, err);
      var after := CommitCheck(st, r, now);
      && Registered(after.store, id)
      && CommitCell(c, task, r, now).data == DataOf(after.store, id)
      && (after.result.Ok? ==> CommitCell(c, task, r, now).pending == c.pending[task := after.result.value])
      && (forall other :: other != id && Registered(st, other) ==>
           Registered(after.store, other) && DataOf(after.store, other) == DataOf(st, other))
  {
    CommitIsLocal(st, ReportOf(s.cfgs[id], task, ok, ms, err), now);
  }
}
