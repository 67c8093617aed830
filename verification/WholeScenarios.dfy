/** A run of the whole program in which the give-up notice is never delivered, and exactly when there is one. */
module WholeScenarios {
  import opened Models
  import opened History
  import opened World
  import opened DataInvariant
  import opened RecoveryInvariant
  import opened EventInvariant
  import opened SystemInvariant
  import opened StoreTheorems
  import opened RecoveryTheorems
  import opened Alerts
  import opened EventTheorems
  import opened Whole
  import opened Scenarios

  ghost predicate WholeReachable(s: Setup, id: string, z: Whole) {
    exists clock, zs, ms :: IsWholeRun(s, id, clock, zs, ms) && zs[|ms|] == z
  }

  lemma WholeStart(s: Setup, id: string, clock: Time)
    ensures WholeReachable(s, id, Boot(s, clock))
  {
    var zs, ms: seq<Move> := [Boot(s, clock)], [];
    assert IsWholeRun(s, id, clock, zs, ms) && zs[|ms|] == Boot(s, clock);
  }

  lemma WholeStep(s: Setup, id: string, z: Whole, m: Move)
    requires WholeReachable(s, id, z) && CanMove(s, z, m)
    ensures WholeReachable(s, id, Make(s, id, z, m))
  {
    var clock, zs, ms :| IsWholeRun(s, id, clock, zs, ms) && zs[|ms|] == z;
    var zs', ms' := zs + [Make(s, id, z, m)], ms + [m];
    hide Make;
    hide CanMove;
    assert forall i :: 0 <= i < |ms| ==> ms'[i] == ms[i];
    assert forall i :: 0 <= i < |zs| ==> zs'[i] == zs[i];
    assert IsWholeRun(s, id, clock, zs', ms');
    assert zs'[|ms'|] == Make(s, id, z, m);
  }

  lemma WholeHolds(s: Setup, id: string, z: Whole)
    requires ValidSystem(s) && id in s.cfgs && WholeReachable(s, id, z)
    ensures WholeOk(s, id, z)
  {
    var clock, zs, ms :| IsWholeRun(s, id, clock, zs, ms) && zs[|ms|] == z;
    WholeRunOk(s, id, clock, zs, ms, |ms|);
  }

  /** Whatever the system can do, it can do while its observers stand still. */
  lemma {:induction false} SystemAlone(s: Setup, id: string, z: Whole, acts: seq<Action>, w': State)
    requires WholeReachable(s, id, z) && Path(s, z.w, acts, w')
    ensures WholeReachable(s, id, z.(w := w'))
    decreases |acts|
  {
    hide WholeReachable;
    if acts == [] {
      assert z.(w := w') == z;
    } else {
      WholeStep(s, id, z, System(acts[0]));
      hide Step;
      hide Enabled;
      var z1 := z.(w := Step(s, z.w, acts[0]));
      SystemAlone(s, id, z1, acts[1..], w');
      assert z1.(w := w') == z.(w := w');
    }
  }

  lemma SystemLeads(s: Setup, id: string, z: Whole, w': State)
    requires WholeReachable(s, id, z) && Leads(s, z.w, w')
    ensures WholeReachable(s, id, z.(w := w'))
  {
    var acts :| Path(s, z.w, acts, w');
    SystemAlone(s, id, z, acts, w');
  }

  // ---- an alert engine that never lags ------------------------------------

  /** Every event was judged, and done with, at the very instant at which it was raised. */
  ghost predicate Prompt(rs: seq<Receipt>) {
    forall i :: 0 <= i < |rs| ==> rs[i].checkedAt == rs[i].doneAt == rs[i].event.timestamp
  }

  ghost predicate Attentive(s: Setup, id: string, z: Whole) {
    && WholeReachable(s, id, z)
    && z.desk.handling.Waiting? && z.desk.missed == 0 && z.desk.next <= |z.w.channel|
    && Prompt(z.desk.receipts)
    && forall k :: z.desk.next <= k < |z.w.channel| ==> z.w.channel[k].timestamp == z.w.clock
  }

  /** After bad news, more bad news of the same service is held back. */
  ghost predicate HeldBack(limits: map<string, LimitEntry>, id: string, now: Time) {
    id in limits && limits[id].alertedForFailure
      && ElapsedSecs(now, limits[id].lastAlertAt) < DEFAULT_ALERT_COOLDOWN_SECS
  }

  lemma JudgedReal(s: Setup, id: string, z: Whole)
    requires ValidSystem(s) && id in s.cfgs && Attentive(s, id, z) && z.desk.next < |z.w.channel|
    ensures var verdict := Judge(s.cfgs, z.desk.limits, z.w.channel[z.desk.next], z.w.clock);
      verdict == Through || verdict == RateLimited
    ensures z.desk.limits == Limits(s.cfgs, z.desk.receipts)
  {
    WholeHolds(s, id, z);
    RealEventsAreNeverNoise(s, z.w, z.desk.next, z.desk.limits, z.w.clock);
  }

  /** The engine after it has judged an event and, if it goes through, dispatched it, all at one instant. */
  function Handled(s: Setup, d: Desk, e: StatusChangeEvent, now: Time): Desk {
    var d' := Received(s, d, e, now);
    if d'.handling.Dispatching? then Finished(d', e, now) else d'
  }

  lemma HandledMeans(s: Setup, d: Desk, e: StatusChangeEvent, now: Time)
    requires d.handling.Waiting? && d.limits == Limits(s.cfgs, d.receipts)
    requires var verdict := Judge(s.cfgs, d.limits, e, now); verdict == Through || verdict == RateLimited
    ensures var d', n := Handled(s, d, e, now), |d.receipts|;
      && d'.handling.Waiting? && d'.next == d.next + 1 && d'.missed == d.missed
      && d'.receipts == d.receipts + [Receipt(e, now, now)]
      && VerdictOn(s.cfgs, d'.receipts, n) == Judge(s.cfgs, d.limits, e, now)
      && (IsBad(e.newStatus) ==> HeldBack(d'.limits, e.serviceId, now))
  {
    var d' := Handled(s, d, e, now);
    assert d'.receipts[..|d.receipts|] == d.receipts;
    hide Limits;
  }

  lemma ReceiveOne(s: Setup, id: string, z: Whole) returns (z': Whole)
    requires ValidSystem(s) && id in s.cfgs && Attentive(s, id, z) && z.desk.next < |z.w.channel|
    ensures Attentive(s, id, z') && z'.w == z.w && z'.desk.next == z.desk.next + 1
    ensures var e, n := z.w.channel[z.desk.next], |z.desk.receipts|;
      && |z'.desk.receipts| == n + 1 && z'.desk.receipts[n].event == e
      && VerdictOn(s.cfgs, z'.desk.receipts, n) == Judge(s.cfgs, z.desk.limits, e, z.w.clock)
      && (IsBad(e.newStatus) ==> HeldBack(z'.desk.limits, e.serviceId, z.w.clock))
  {
    JudgedReal(s, id, z);
    HandledMeans(s, z.desk, z.w.channel[z.desk.next], z.w.clock);
    hide ValidSystem;
    hide VerdictOn;
    hide HeldBack;
    z' := HandleOne(s, id, z);
    hide Handled;
    hide WholeReachable;
  }

  lemma HandleOne(s: Setup, id: string, z: Whole) returns (z': Whole)
    requires WholeReachable(s, id, z) && z.desk.handling.Waiting? && z.desk.next < |z.w.channel|
    ensures WholeReachable(s, id, z')
    ensures z' == z.(desk := Handled(s, z.desk, z.w.channel[z.desk.next], z.w.clock))
  {
    WholeStep(s, id, z, Receive);
    hide WholeReachable;
    hide Judge;
    z' := Make(s, id, z, Receive);
    if z'.desk.handling.Dispatching? {
      WholeStep(s, id, z', Dispatched);
      z' := Make(s, id, z', Dispatched);
    }
  }

  lemma {:induction false} CatchUp(s: Setup, id: string, z: Whole) returns (z': Whole)
    requires ValidSystem(s) && id in s.cfgs && Attentive(s, id, z)
    ensures Attentive(s, id, z') && z'.w == z.w && z'.desk.next == |z.w.channel|
    ensures z.desk.next < |z.w.channel| && IsBad(Last(z.w.channel).newStatus) ==>
      HeldBack(z'.desk.limits, Last(z.w.channel).serviceId, z.w.clock)
    decreases |z.w.channel| - z.desk.next
  {
    hide ValidSystem;
    hide Attentive;
    if z.desk.next == |z.w.channel| {
      z' := z;
    } else {
      AttentiveReads(s, id, z);
      z' := ReceiveOne(s, id, z);
      if z'.desk.next < |z.w.channel| { z' := CatchUp(s, id, z'); }
    }
    AttentiveReads(s, id, z);
  }

  lemma AttentiveReads(s: Setup, id: string, z: Whole)
    requires Attentive(s, id, z)
    ensures z.desk.next <= |z.w.channel|
  {
  }

  /** What the system does at one instant, an attentive alert engine sees at that instant. */
  lemma StaysAttentive(s: Setup, id: string, z: Whole, w': State)
    requires Attentive(s, id, z) && Leads(s, z.w, w') && z.desk.next == |z.w.channel| && z.w.channel <= w'.channel
    requires forall k :: |z.w.channel| <= k < |w'.channel| ==> w'.channel[k].timestamp == w'.clock
    ensures Attentive(s, id, z.(w := w'))
  {
    SystemLeads(s, id, z, w');
    hide WholeReachable;
    hide Leads;
  }

  // ---- the run ------------------------------------------------------------

  /** One good check and enough bad ones, at one instant, from a service that is down: it is down again, and that was
      news. */
  lemma Flap(s: Setup, w: State, id: string, n: nat) returns (w': State)
    requires ValidSystem(s) && AtRest(s, w, id, n) && AddressesDiffer(s.cfgs[id].upstreams)
    ensures OnlyChecked(s, w, w', id) && AtRest(s, w', id, n)
    ensures |w'.channel| > |w.channel| && Last(w'.channel).serviceId == id && Last(w'.channel).newStatus == Failed
  {
    var w1 := Recovers(s, w, id);
    w' := BringTo(s, w1, id, false);
    OnlyCheckedOn(s, w, w1, w', id);
    hide ValidSystem;
    hide Reachable;
    hide Leads;
  }

  lemma Recovers(s: Setup, w: State, id: string) returns (w': State)
    requires ValidSystem(s) && Reachable(s, w) && id in s.cfgs && id in w.cells && Quiet(w.cells[id])
    requires AddressesDiffer(s.cfgs[id].upstreams)
    ensures OnlyChecked(s, w, w', id) && w'.cells[id].data.state.status != Failed
  {
    ReachableData(s, w, id);
    assert !Shadowed(s.cfgs[id].upstreams, 0);
    w' := CheckOnce(s, w, id, 0, true);
    StatusMeaning(s, w', id);
    hide ValidSystem;
    hide Reachable;
    hide OnlyChecked;
    assert !Down(w'.cells[id].trace.hist[0], s.cfgs[id].failureThreshold);
  }

  /** The notice of service `id` is receipt `i`, and it was held back; no event was missed or judged late. */
  ghost predicate DropsNotice(s: Setup, id: string, z: Whole, i: nat) {
    && WholeReachable(s, id, z)
    && z.desk.missed == 0 && Prompt(z.desk.receipts)
    && i < |z.desk.receipts| && id in s.cfgs && NoticeOf(s.cfgs[id], z.desk.receipts[i].event)
    && VerdictOn(s.cfgs, z.desk.receipts, i) == RateLimited
  }

  lemma AttentiveFailure(s: Setup, id: string) returns (z: Whole)
    requires ValidSystem(s) && id in s.cfgs && AddressesDiffer(s.cfgs[id].upstreams)
    ensures Attentive(s, id, z) && z.desk.next == |z.w.channel| && AtRest(s, z.w, id, 0)
  {
    WholeStart(s, id, 0);
    hide WholeReachable;
    var w := FailedAtRest(s, id, 0);
    StaysAttentive(s, id, Boot(s, 0), w);
    hide ValidSystem;
    hide Attentive;
    z := CatchUp(s, id, Boot(s, 0).(w := w));
  }

  lemma AttentiveExhaustion(s: Setup, id: string) returns (z: Whole)
    requires ValidSystem(s) && id in s.cfgs && AddressesDiffer(s.cfgs[id].upstreams) && Managed(s.cfgs[id])
    ensures Attentive(s, id, z) && z.desk.next == |z.w.channel| && AtRest(s, z.w, id, s.cfgs[id].maxRestarts)
    ensures HeldBack(z.desk.limits, id, z.w.clock)
  {
    var z0 := AttentiveFailure(s, id);
    hide AtRest;
    hide ValidSystem;
    var w1 := Attempts(s, z0.w, id, s.cfgs[id].maxRestarts);
    StaysAttentive(s, id, z0, w1);
    var z1 := z0.(w := w1);
    var w2 := Flap(s, w1, id, s.cfgs[id].maxRestarts);
    StaysAttentive(s, id, z1, w2);
    hide OnlyChecked;
    hide Attentive;
    z := CatchUp(s, id, z1.(w := w2));
  }

  lemma NoticeIsDropped(s: Setup, id: string) returns (z: Whole, i: nat)
    requires ValidSystem(s) && id in s.cfgs && AddressesDiffer(s.cfgs[id].upstreams) && Managed(s.cfgs[id])
    ensures DropsNotice(s, id, z, i)
  {
    var z0 := AttentiveExhaustion(s, id);
    var w := GivesUp(s, z0.w, id);
    assert ValidService(id, s.cfgs[id]);
    hide ValidSystem;
    hide AtRest;
    StaysAttentive(s, id, z0, w);
    z := ReceiveOne(s, id, z0.(w := w));
    i := |z0.desk.receipts|;
    hide WholeReachable;
    hide VerdictOn;
  }

  // ---- exactly when -------------------------------------------------------

  lemma {:induction false} NoticeIsCounted(channel: seq<StatusChangeEvent>, id: string, k: nat)
    requires k < |channel| && IsNotice(id, channel[k])
    ensures CriticalTimes(channel, id) != []
  {
    if k < |channel| - 1 { NoticeIsCounted(channel[..|channel| - 1], id, k); }
  }

  lemma NoticeNeedsAnEpisode(s: Setup, w: State, id: string, k: nat)
    requires ValidSystem(s) && Reachable(s, w) && id in s.cfgs && k < |w.channel| && IsNotice(id, w.channel[k])
    ensures AddressesDiffer(s.cfgs[id].upstreams) && Managed(s.cfgs[id])
  {
    EventsAreAccountedFor(s, w, id, Failed);
    NoticeIsCounted(w.channel, id, k);
    NoticeMakesAttempts(s, w, id);
    AttemptsNeedDistinctAddresses(s, w, id);
  }

  lemma NoticeMakesAttempts(s: Setup, w: State, id: string)
    requires ValidSystem(s) && Reachable(s, w) && id in s.cfgs && id in w.cells && AllCriticals(w.cells[id].trace) != []
    ensures w.cells[id].recovery.Some?
    ensures w.cells[id].recovery.value.currentEpisodeAttempts > 0 || w.cells[id].trace.past != []
  {
    ReachableRecovery(s, w, id);
    hide Reachable;
    hide ValidSystem;
    hide EpisodeOk;
    hide PastOk;
  }

  /** A service that can be given up at all can be given up in silence: even though the alert engine judges every
      event at the instant it was raised and misses none, some run holds the notice back. There is no such run
      exactly for services that never get a notice: those in mode "none" and those with a repeated address. */
  lemma NoticeIsDroppedExactlyWhen(s: Setup, id: string)
    requires ValidSystem(s) && id in s.cfgs
    ensures (exists z, i: nat :: DropsNotice(s, id, z, i))
      <==> Managed(s.cfgs[id]) && AddressesDiffer(s.cfgs[id].upstreams)
  {
    if Managed(s.cfgs[id]) && AddressesDiffer(s.cfgs[id].upstreams) {
      var z, i := NoticeIsDropped(s, id);
    }
    forall z, i: nat | DropsNotice(s, id, z, i)
      ensures Managed(s.cfgs[id]) && AddressesDiffer(s.cfgs[id].upstreams)
    {
      WholeHolds(s, id, z);
      assert ValidService(id, s.cfgs[id]);
      NoticeNeedsAnEpisode(s, z.w, id, z.desk.positions[i]);
    }
  }
}
