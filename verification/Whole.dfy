/** The whole program in one run: the engines of the step system, and beside them the alert engine reading the channel
    and one proxy listener reading the store. */
module Whole {
  import opened Models
  import opened Store
  import opened History
  import opened World
  import opened DataInvariant
  import opened SystemInvariant
  import opened StoreTheorems
  import opened Alerts
  import opened EventTheorems
  import opened Proxy

  // ---- the state ----------------------------------------------------------

  /** The alert engine is between two events, or awaits the dispatch of the event at this position of the channel. */
  datatype Handling = Waiting | Dispatching(position: nat, checkedAt: Time)

  /** The alert engine. History variables: the receipts, the positions they were received from, and how many events
      were lost to an overflow of the channel. */
  datatype Desk = Desk(
    next: nat, handling: Handling, limits: map<string, LimitEntry>,
    receipts: seq<Receipt>, positions: seq<nat>, missed: nat)

  /** The routing list as one connection read it; the histories at that instant are a history variable. */
  datatype Reading = Reading(list: seq<(string, Port)>, hist: seq<seq<Check>>)

  datatype Routed = Routed(conn: nat, reading: Reading, slot: nat, target: (string, Port))

  /** A listener: its counter, the connections that have read their list but drawn no ticket, and those routed so
      far. */
  datatype Front = Front(counter: nat, waiting: map<nat, Reading>, routed: seq<Routed>)

  datatype Whole = Whole(w: State, desk: Desk, front: Front)

  function Boot(s: Setup, clock: Time): Whole {
    Whole(Init(s, clock), Desk(0, Waiting, map[], [], [], 0), Front(0, map[], []))
  }

  // ---- moves --------------------------------------------------------------

  datatype Move =
    | System(a: Action)
    | Receive
    | Missed             // the channel overflowed and the oldest unread event is gone
    | Dispatched
    | Accept(conn: nat)  // a connection reads the routing list
    | Route(conn: nat)   // ... and, any time later, draws its ticket

  predicate CanMove(s: Setup, z: Whole, m: Move) {
    match m
    case System(a) => Enabled(s, z.w, a)
    case Receive => z.desk.handling.Waiting? && z.desk.next < |z.w.channel|
    case Missed => z.desk.handling.Waiting? && z.desk.next < |z.w.channel|
    case Dispatched => z.desk.handling.Dispatching? && z.desk.handling.position < |z.w.channel|
    case Accept(conn) => conn !in z.front.waiting
    case Route(conn) => conn in z.front.waiting
  }

  function Received(s: Setup, d: Desk, e: StatusChangeEvent, now: Time): Desk {
    if Judge(s.cfgs, d.limits, e, now) == Through
    then d.(next := d.next + 1, handling := Dispatching(d.next, now))
    else d.(next := d.next + 1, receipts := d.receipts + [Receipt(e, now, now)], positions := d.positions + [d.next])
  }

  function Finished(d: Desk, e: StatusChangeEvent, now: Time): Desk
    requires d.handling.Dispatching?
  {
    d.(handling := Waiting,
       limits := UpdateLimit(d.limits, e.serviceId, e.newStatus, now),
       receipts := d.receipts + [Receipt(e, d.handling.checkedAt, now)],
       positions := d.positions + [d.handling.position])
  }

  function ReadList(w: State, id: string): Reading {
    if id !in w.cells then Reading([], [])
    else Reading(HealthyAddresses(w.cells[id].data.entries), w.cells[id].trace.hist)
  }

  function DrawFor(f: Front, conn: nat): Front
    requires conn in f.waiting
  {
    var reading := f.waiting[conn];
    var (slot, counter) := Draw(f.counter, reading.list);
    Front(counter, f.waiting - {conn},
          if slot.None? then f.routed else f.routed + [Routed(conn, reading, slot.value, reading.list[slot.value])])
  }

  /** Routing a connection is what the listener's `Pick` does on the list that the connection read. */
  lemma RouteIsPick(f: Front, conn: nat)
    requires conn in f.waiting && f.counter < U64_SIZE
    ensures var list, f' := f.waiting[conn].list, DrawFor(f, conn);
      && (list == [] ==> f'.counter == f.counter && f'.routed == f.routed)
      && (list != [] ==>
            && f'.counter == (f.counter + 1) % 0x1_0000_0000_0000_0000
            && |f'.routed| == |f.routed| + 1 && f'.routed[..|f.routed|] == f.routed
            && f'.routed[|f.routed|].target == list[f.counter % |list|]
            && f'.routed[|f.routed|].conn == conn && f'.routed[|f.routed|].reading == f.waiting[conn])
  {
  }

  /** `id` is the service behind the listener. */
  function Make(s: Setup, id: string, z: Whole, m: Move): Whole
    requires CanMove(s, z, m)
  {
    match m
    case System(a) => z.(w := Step(s, z.w, a))
    case Receive => z.(desk := Received(s, z.desk, z.w.channel[z.desk.next], z.w.clock))
    case Missed => z.(desk := z.desk.(next := z.desk.next + 1, missed := z.desk.missed + 1))
    case Dispatched => z.(desk := Finished(z.desk, z.w.channel[z.desk.handling.position], z.w.clock))
    case Accept(conn) => z.(front := z.front.(waiting := z.front.waiting[conn := ReadList(z.w, id)]))
    case Route(conn) => z.(front := DrawFor(z.front, conn))
  }

  ghost predicate IsWholeRun(s: Setup, id: string, clock: Time, zs: seq<Whole>, ms: seq<Move>) {
    && |zs| == |ms| + 1
    && zs[0] == Boot(s, clock)
    && forall i :: 0 <= i < |ms| ==> CanMove(s, zs[i], ms[i]) && zs[i + 1] == Make(s, id, zs[i], ms[i])
  }

  // ---- what the alert engine keeps ----------------------------------------

  /** The receipts are events of the channel, each position at most once and in order, and handled one at a time. */
  ghost predicate LogOk(channel: seq<StatusChangeEvent>, clock: Time, next: nat, rs: seq<Receipt>,
                        positions: seq<nat>) {
    && |positions| == |rs| && next <= |channel|
    && (forall i :: 0 <= i < |rs| ==> positions[i] < next && rs[i].event == channel[positions[i]])
    && (forall i, j :: 0 <= i < j < |rs| ==> positions[i] < positions[j])
    && Sequential(rs)
    && (forall i :: 0 <= i < |rs| ==> rs[i].doneAt <= clock)
  }

  /** The limiter's map summarizes the receipts, and every event read is a receipt, lost, or being dispatched. */
  ghost predicate DeskOk(s: Setup, w: State, d: Desk) {
    && LogOk(w.channel, w.clock, d.next, d.receipts, d.positions)
    && d.limits == Limits(s.cfgs, d.receipts)
    && |d.receipts| + d.missed + (if d.handling.Dispatching? then 1 else 0) == d.next
    && (d.handling.Dispatching? ==> DispatchOk(s, w, d))
  }

  ghost predicate DispatchOk(s: Setup, w: State, d: Desk)
    requires d.handling.Dispatching?
  {
    && d.handling.position < d.next <= |w.channel|
    && d.handling.checkedAt <= w.clock
    && LogOk(w.channel, d.handling.checkedAt, d.handling.position, d.receipts, d.positions)
    && Judge(s.cfgs, d.limits, w.channel[d.handling.position], d.handling.checkedAt) == Through
  }

  lemma LogGrows(channel: seq<StatusChangeEvent>, checkedAt: Time, doneAt: Time, position: nat, next: nat,
                 rs: seq<Receipt>, positions: seq<nat>)
    requires LogOk(channel, checkedAt, position, rs, positions) && position < next <= |channel| && checkedAt <= doneAt
    ensures LogOk(channel, doneAt, next, rs + [Receipt(channel[position], checkedAt, doneAt)], positions + [position])
  {
  }

  lemma LogStays(channel: seq<StatusChangeEvent>, channel': seq<StatusChangeEvent>, clock: Time, clock': Time,
                 next: nat, next': nat,
                 rs: seq<Receipt>, positions: seq<nat>)
    requires LogOk(channel, clock, next, rs, positions) && channel <= channel' && clock <= clock'
    requires next <= next' <= |channel'|
    ensures LogOk(channel', clock', next', rs, positions)
  {
  }

  lemma LimitsAppend(cfgs: map<string, ServiceConfig>, rs: seq<Receipt>, r: Receipt)
    ensures Limits(cfgs, rs + [r]) ==
      if Judge(cfgs, Limits(cfgs, rs), r.event, r.checkedAt) == Through
      then UpdateLimit(Limits(cfgs, rs), r.event.serviceId, r.event.newStatus, r.doneAt) else Limits(cfgs, rs)
  {
    assert (rs + [r])[..|rs|] == rs;
  }

  lemma ReceiveKeepsDesk(s: Setup, w: State, d: Desk)
    requires DeskOk(s, w, d) && d.handling.Waiting? && d.next < |w.channel|
    ensures DeskOk(s, w, Received(s, d, w.channel[d.next], w.clock))
  {
    hide Judge;
    hide LogOk;
    LimitsAppend(s.cfgs, d.receipts, Receipt(w.channel[d.next], w.clock, w.clock));
    LogGrows(w.channel, w.clock, w.clock, d.next, d.next + 1, d.receipts, d.positions);
    LogStays(w.channel, w.channel, w.clock, w.clock, d.next, d.next + 1, d.receipts, d.positions);
  }

  lemma MissKeepsDesk(s: Setup, w: State, d: Desk)
    requires DeskOk(s, w, d) && d.handling.Waiting? && d.next < |w.channel|
    ensures DeskOk(s, w, d.(next := d.next + 1, missed := d.missed + 1))
  {
    hide LogOk;
    LogStays(w.channel, w.channel, w.clock, w.clock, d.next, d.next + 1, d.receipts, d.positions);
  }

  lemma FinishKeepsDesk(s: Setup, w: State, d: Desk)
    requires DeskOk(s, w, d) && d.handling.Dispatching? && d.handling.position < |w.channel|
    ensures DeskOk(s, w, Finished(d, w.channel[d.handling.position], w.clock))
  {
    hide Judge;
    hide LogOk;
    var h := d.handling;
    LimitsAppend(s.cfgs, d.receipts, Receipt(w.channel[h.position], h.checkedAt, w.clock));
    LogGrows(w.channel, h.checkedAt, w.clock, h.position, d.next, d.receipts, d.positions);
  }

  /** Sending more, later, disturbs nothing. */
  lemma SystemKeepsDesk(s: Setup, w: State, w': State, d: Desk)
    requires DeskOk(s, w, d) && w.channel <= w'.channel && w.clock <= w'.clock
    ensures DeskOk(s, w', d)
  {
    hide Judge;
    hide LogOk;
    LogLength(w.channel, w.clock, d.next, d.receipts, d.positions);
    LogStays(w.channel, w'.channel, w.clock, w'.clock, d.next, d.next, d.receipts, d.positions);
    if d.handling.Dispatching? {
      var h := d.handling;
      LogStays(w.channel, w'.channel, h.checkedAt, h.checkedAt, h.position, h.position, d.receipts, d.positions);
    }
  }

  lemma LogLength(channel: seq<StatusChangeEvent>, clock: Time, next: nat, rs: seq<Receipt>, positions: seq<nat>)
    requires LogOk(channel, clock, next, rs, positions)
    ensures next <= |channel|
  {
  }

  lemma StepsOnlyAdd(s: Setup, w: State, a: Action)
    requires Enabled(s, w, a)
    ensures w.channel <= Step(s, w, a).channel && w.clock <= Step(s, w, a).clock
  {
  }

  // ---- what the listener keeps --------------------------------------------

  /** The list was read from the store at an earlier instant of the service's history. */
  ghost predicate ReadingFits(cfg: ServiceConfig, r: Reading, hist: seq<seq<Check>>) {
    && |r.hist| == |cfg.upstreams|
    && r.list == HealthyAddresses(UpstreamsFrom(cfg.upstreams, r.hist, cfg.failureThreshold))
    && GrownTo(r.hist, hist)
  }

  /** Connection number `i` got ticket number `i`, and went where that ticket points in its own list. */
  ghost predicate RoutedFits(cfg: ServiceConfig, r: Routed, i: nat, hist: seq<seq<Check>>) {
    && ReadingFits(cfg, r.reading, hist)
    && r.reading.list != []
    && r.slot == Ticket(0, i) % |r.reading.list|
    && r.target == r.reading.list[r.slot]
  }

  ghost predicate FrontOk(cfg: ServiceConfig, f: Front, hist: seq<seq<Check>>) {
    && f.counter == Ticket(0, |f.routed|)
    && (forall conn :: conn in f.waiting ==> ReadingFits(cfg, f.waiting[conn], hist))
    && (forall i :: 0 <= i < |f.routed| ==> RoutedFits(cfg, f.routed[i], i, hist))
  }

  lemma GrowthKeepsFront(cfg: ServiceConfig, f: Front, hist: seq<seq<Check>>, hist': seq<seq<Check>>)
    requires FrontOk(cfg, f, hist) && GrownTo(hist, hist')
    ensures FrontOk(cfg, f, hist')
  {
    forall conn | conn in f.waiting ensures ReadingFits(cfg, f.waiting[conn], hist') {
      assert ReadingFits(cfg, f.waiting[conn], hist);
    }
    forall i | 0 <= i < |f.routed| ensures RoutedFits(cfg, f.routed[i], i, hist') {
      assert RoutedFits(cfg, f.routed[i], i, hist);
    }
  }

  lemma RouteKeepsFront(cfg: ServiceConfig, f: Front, conn: nat, hist: seq<seq<Check>>)
    requires FrontOk(cfg, f, hist) && conn in f.waiting
    ensures FrontOk(cfg, DrawFor(f, conn), hist)
  {
    hide RoutedFits;
    var f', reading := DrawFor(f, conn), f.waiting[conn];
    assert forall i :: 0 <= i < |f.routed| ==> f'.routed[i] == f.routed[i];
    if reading.list != [] {
      DrawFits(cfg, conn, reading, |f.routed|, hist);
    }
    hide ReadingFits;
  }

  lemma DrawFits(cfg: ServiceConfig, conn: nat, reading: Reading, i: nat, hist: seq<seq<Check>>)
    requires ReadingFits(cfg, reading, hist) && reading.list != []
    ensures var slot := Ticket(0, i) % |reading.list|;
      RoutedFits(cfg, Routed(conn, reading, slot, reading.list[slot]), i, hist)
    ensures Ticket(Ticket(0, i), 1) == Ticket(0, i + 1)
  {
    NextTicket(i);
    hide Ticket;
    hide ReadingFits;
  }

  lemma NextTicket(i: nat)
    ensures Ticket(Ticket(0, i), 1) == Ticket(0, i + 1)
  {
  }

  // ---- the invariant of the whole -----------------------------------------

  ghost predicate WholeOk(s: Setup, id: string, z: Whole) {
    && Reachable(s, z.w)
    && DeskOk(s, z.w, z.desk)
    && id in s.cfgs && id in z.w.cells
    && FrontOk(s.cfgs[id], z.front, z.w.cells[id].trace.hist)
  }

  lemma SystemMoveKeepsWhole(s: Setup, id: string, z: Whole, a: Action)
    requires ValidSystem(s) && id in s.cfgs && WholeOk(s, id, z) && Enabled(s, z.w, a)
    ensures WholeOk(s, id, z.(w := Step(s, z.w, a)))
  {
    ReachableStep(s, z.w, a);
    ReachableInv(s, z.w);
    StepGrowsHistory(s, z.w, a, id);
    StepsOnlyAdd(s, z.w, a);
    hide Reachable;
    hide ValidSystem;
    hide Inv;
    hide FrontOk;
    hide DeskOk;
    hide Step;
    SystemKeepsDesk(s, z.w, Step(s, z.w, a), z.desk);
    GrowthKeepsFront(s.cfgs[id], z.front, z.w.cells[id].trace.hist, Step(s, z.w, a).cells[id].trace.hist);
  }

  lemma MoveKeepsWhole(s: Setup, id: string, z: Whole, m: Move)
    requires ValidSystem(s) && id in s.cfgs && WholeOk(s, id, z) && CanMove(s, z, m)
    ensures WholeOk(s, id, Make(s, id, z, m))
  {
    hide Reachable;
    hide ValidSystem;
    hide Step;
    hide Enabled;
    match m
    case System(a) => SystemMoveKeepsWhole(s, id, z, a);
    case Receive => ReceiveKeepsDesk(s, z.w, z.desk);
    case Missed => MissKeepsDesk(s, z.w, z.desk);
    case Dispatched => FinishKeepsDesk(s, z.w, z.desk);
    case Accept(conn) => ReachableData(s, z.w, id);
    case Route(conn) => RouteKeepsFront(s.cfgs[id], z.front, conn, z.w.cells[id].trace.hist);
  }

  lemma {:induction false} WholeRunOk(s: Setup, id: string, clock: Time, zs: seq<Whole>, ms: seq<Move>, i: nat)
    requires ValidSystem(s) && id in s.cfgs && IsWholeRun(s, id, clock, zs, ms) && i < |zs|
    ensures WholeOk(s, id, zs[i])
  {
    hide WholeOk;
    if i == 0 {
      StartOk(s, id, clock);
    } else {
      WholeRunOk(s, id, clock, zs, ms, i - 1);
      MoveKeepsWhole(s, id, zs[i - 1], ms[i - 1]);
    }
  }

  lemma StartOk(s: Setup, id: string, clock: Time)
    requires id in s.cfgs
    ensures WholeOk(s, id, Boot(s, clock))
  {
    ReachableInit(s, clock);
    hide Reachable;
  }

  // ---- alerts in every run of the whole -----------------------------------

  /** In every run each event of the channel is judged at most once and in the order of sending. A recovery is always
      announced. An event is held back exactly when the last one handled through for its service, `k`, was Failed or
      Degraded and its dispatch ended less than 60 seconds ago. Nothing is lost as noise. */
  lemma AlertsOfEveryRun(s: Setup, id: string, clock: Time, zs: seq<Whole>, ms: seq<Move>, n: nat, i: nat)
    returns (k: int)
    requires ValidSystem(s) && id in s.cfgs && IsWholeRun(s, id, clock, zs, ms) && n < |zs| && i < |zs[n].desk.receipts|
    ensures var z := zs[n];
      var rs := z.desk.receipts;
      && |z.desk.positions| == |rs|
      && (forall a, b :: 0 <= a < b < |rs| ==> z.desk.positions[a] < z.desk.positions[b])
      && z.desk.positions[i] < |z.w.channel| && rs[i].event == z.w.channel[z.desk.positions[i]]
      && LastHandled(s.cfgs, rs, rs[i].event.serviceId, i, k)
      && (VerdictOn(s.cfgs, rs, i) == Through || VerdictOn(s.cfgs, rs, i) == RateLimited)
      && (VerdictOn(s.cfgs, rs, i) == RateLimited <==>
            && k >= 0 && IsBad(rs[k].event.newStatus) && rs[i].event.newStatus != Healthy
            && rs[i].checkedAt - rs[k].doneAt < 60 * NANOS_PER_SEC)
  {
    WholeRunOk(s, id, clock, zs, ms, n);
    hide IsWholeRun;
    var z, rs := zs[n], zs[n].desk.receipts;
    RealEventsAreNeverNoise(s, z.w, z.desk.positions[i], map[], 0);
    ChannelHolds(s, z.w, z.desk.positions[i]);
    hide Reachable;
    hide ValidSystem;
    hide FrontOk;
    k := LimitsSummarizeLog(s.cfgs, rs, rs[i].event.serviceId, i);
    DroppedExactlyWhen(s.cfgs, rs, i, k);
  }

  lemma {:induction false} IncreasingIsAtMost(positions: seq<nat>, i: nat)
    requires i < |positions|
    requires forall a, b :: 0 <= a < b < |positions| ==> positions[a] < positions[b]
    requires forall a :: 0 <= a < |positions| ==> positions[a] < |positions|
    ensures positions[i] <= i
    decreases |positions| - i
  {
    if i + 1 < |positions| { IncreasingIsAtMost(positions, i + 1); }
  }

  lemma {:induction false} IncreasingIsAtLeast(positions: seq<nat>, i: nat)
    requires i < |positions|
    requires forall a, b :: 0 <= a < b < |positions| ==> positions[a] < positions[b]
    ensures positions[i] >= i
  {
    if i > 0 { IncreasingIsAtLeast(positions, i - 1); }
  }

  /** If the channel never overflowed, an idle alert engine that has caught up has judged every event ever sent, once
      each and in the order of sending; so every recovery that the channel announced has been alerted on. */
  lemma NothingIsSkipped(s: Setup, id: string, clock: Time, zs: seq<Whole>, ms: seq<Move>, n: nat, i: nat)
    requires ValidSystem(s) && id in s.cfgs && IsWholeRun(s, id, clock, zs, ms) && n < |zs|
    requires var d := zs[n].desk; d.missed == 0 && d.handling.Waiting? && d.next == |zs[n].w.channel|
    requires i < |zs[n].w.channel|
    ensures |zs[n].desk.receipts| == |zs[n].w.channel| && zs[n].desk.receipts[i].event == zs[n].w.channel[i]
    ensures zs[n].w.channel[i].newStatus == Healthy ==> VerdictOn(s.cfgs, zs[n].desk.receipts, i) == Through
  {
    WholeRunOk(s, id, clock, zs, ms, n);
    IncreasingIsAtMost(zs[n].desk.positions, i);
    IncreasingIsAtLeast(zs[n].desk.positions, i);
    var k := AlertsOfEveryRun(s, id, clock, zs, ms, n, i);
  }

  // ---- connections in every run of the whole ------------------------------

  /** Neither the acceptance nor the routing of connection `conn` is among the moves from `i` up to but not including
      `j`. */
  ghost predicate Untouched(ms: seq<Move>, conn: nat, i: nat, j: nat) {
    forall m :: i <= m < j && m < |ms| ==> ms[m] != Accept(conn) && ms[m] != Route(conn)
  }

  lemma OtherMovesKeepReading(s: Setup, id: string, z: Whole, m: Move, conn: nat)
    requires CanMove(s, z, m) && m != Accept(conn) && conn in Make(s, id, z, m).front.waiting
    ensures m != Route(conn) && conn in z.front.waiting
    ensures Make(s, id, z, m).front.waiting[conn] == z.front.waiting[conn]
  {
    hide Step;
  }

  /** What a waiting connection holds is what it read itself, when it was last accepted. */
  lemma {:induction false} WaitingOrigin(s: Setup, id: string, clock: Time, zs: seq<Whole>, ms: seq<Move>, n: nat,
                                         conn: nat)
      returns (a: nat)
    requires IsWholeRun(s, id, clock, zs, ms) && n < |zs| && conn in zs[n].front.waiting
    ensures a < n && ms[a] == Accept(conn) && Untouched(ms, conn, a + 1, n)
    ensures zs[n].front.waiting[conn] == ReadList(zs[a].w, id)
  {
    var z, m := zs[n - 1], ms[n - 1];
    assert zs[n] == Make(s, id, z, m);
    if m == Accept(conn) {
      a := n - 1;
    } else {
      OtherMovesKeepReading(s, id, z, m, conn);
      a := WaitingOrigin(s, id, clock, zs, ms, n - 1, conn);
    }
  }

  lemma MovesKeepRouted(s: Setup, id: string, z: Whole, m: Move)
    requires CanMove(s, z, m)
    ensures var before, after := z.front.routed, Make(s, id, z, m).front.routed;
      && before <= after
      && (|after| > |before| ==>
            && |after| == |before| + 1 && m == Route(after[|before|].conn)
            && after[|before|].conn in z.front.waiting
            && after[|before|].reading == z.front.waiting[after[|before|].conn])
  {
    hide Step;
  }

  /** A routed connection was routed by a move of its own, on what it held then. */
  lemma {:induction false} RoutedOrigin(s: Setup, id: string, clock: Time, zs: seq<Whole>, ms: seq<Move>, n: nat,
                                        i: nat)
      returns (b: nat)
    requires IsWholeRun(s, id, clock, zs, ms) && n < |zs| && i < |zs[n].front.routed|
    ensures var r := zs[n].front.routed[i];
      && b < n && ms[b] == Route(r.conn) && |zs[b].front.routed| == i
      && r.conn in zs[b].front.waiting && r.reading == zs[b].front.waiting[r.conn]
  {
    var z, m := zs[n - 1], ms[n - 1];
    assert zs[n] == Make(s, id, z, m);
    MovesKeepRouted(s, id, z, m);
    if i == |z.front.routed| {
      b := n - 1;
    } else {
      b := RoutedOrigin(s, id, clock, zs, ms, n - 1, i);
    }
  }

  /** Nothing is cached: connection number `i` was routed, by move `b`, on the list that this very connection had
      read at its own acceptance, move `a`, from the store of that instant. It went to a configured upstream whose
      latest check at that instant was a success. */
  lemma ConnectionsAreRoutedSoundly(s: Setup, id: string, clock: Time, zs: seq<Whole>, ms: seq<Move>, n: nat, i: nat)
      returns (a: nat, b: nat, k: nat)
    requires ValidSystem(s) && id in s.cfgs && IsWholeRun(s, id, clock, zs, ms)
    requires n < |zs| && i < |zs[n].front.routed|
    ensures var r, us := zs[n].front.routed[i], s.cfgs[id].upstreams;
      && a < b < n && ms[a] == Accept(r.conn) && ms[b] == Route(r.conn) && Untouched(ms, r.conn, a + 1, b)
      && |zs[b].front.routed| == i
      && id in zs[a].w.cells
      && var data, hist := zs[a].w.cells[id].data, zs[a].w.cells[id].trace.hist;
         && r.reading.list == HealthyAddresses(data.entries)
         && k < |us| == |hist| && r.target == (us[k].host, us[k].port) && Up(hist[k])
  {
    b := RoutedOrigin(s, id, clock, zs, ms, n, i);
    var r, cfg := zs[n].front.routed[i], s.cfgs[id];
    a := WaitingOrigin(s, id, clock, zs, ms, b, r.conn);
    WholeRunOk(s, id, clock, zs, ms, n);
    WholeRunOk(s, id, clock, zs, ms, a);
    ReachableData(s, zs[a].w, id);
    hide IsWholeRun;
    hide ValidSystem;
    hide DeskOk;
    hide Reachable;
    assert RoutedFits(cfg, r, i, zs[n].w.cells[id].trace.hist);
    hide FrontOk;
    k := TargetIsUp(cfg, r.reading, r.slot);
  }

  lemma TargetIsUp(cfg: ServiceConfig, reading: Reading, slot: nat) returns (k: nat)
    requires |reading.hist| == |cfg.upstreams| && slot < |reading.list|
    requires reading.list == HealthyAddresses(UpstreamsFrom(cfg.upstreams, reading.hist, cfg.failureThreshold))
    ensures k < |cfg.upstreams| && reading.list[slot] == (cfg.upstreams[k].host, cfg.upstreams[k].port)
    ensures Up(reading.hist[k])
  {
    var entries := UpstreamsFrom(cfg.upstreams, reading.hist, cfg.failureThreshold);
    HealthyListOrigin(entries);
    assert Routable(entries, reading.list[slot]);
    k :| RoutesTo(entries, reading.list[slot], k);
  }

  /** How many of the connections `i`, ..., `i + m - 1` took position `u` of their list. */
  function Taken(routed: seq<Routed>, i: nat, m: nat, u: nat): nat
    requires i + m <= |routed|
  {
    if m == 0 then 0 else Taken(routed, i, m - 1, u) + (if routed[i + m - 1].slot == u then 1 else 0)
  }

  lemma {:induction false} TakenArePicks(cfg: ServiceConfig, f: Front, hist: seq<seq<Check>>, i: nat, m: nat, k: nat,
                                         u: nat)
    requires FrontOk(cfg, f, hist) && i + m <= |f.routed| && k > 0
    requires forall j :: i <= j < i + m ==> |f.routed[j].reading.list| == k
    ensures Taken(f.routed, i, m, u) == Picks(i % U64_SIZE, m, k, u)
  {
    hide FrontOk;
    hide Ticket;
    if m > 0 {
      TakenArePicks(cfg, f, hist, i, m - 1, k, u);
      SlotIsTicket(cfg, f, hist, i + m - 1);
      TicketFrom(i, m - 1);
    }
  }

  lemma SlotIsTicket(cfg: ServiceConfig, f: Front, hist: seq<seq<Check>>, i: nat)
    requires FrontOk(cfg, f, hist) && i < |f.routed|
    ensures |f.routed[i].reading.list| > 0 && f.routed[i].slot == Ticket(0, i) % |f.routed[i].reading.list|
  {
    assert RoutedFits(cfg, f.routed[i], i, hist);
  }

  lemma TicketFrom(i: nat, j: nat)
    ensures Ticket(0, i + j) == Ticket(i % U64_SIZE, j)
  {
  }

  /** Consecutive connections that saw lists of the same length spread evenly over the positions. */
  lemma PositionsAreSpreadFairly(cfg: ServiceConfig, f: Front, hist: seq<seq<Check>>, i: nat, m: nat, k: nat, u: nat)
    requires FrontOk(cfg, f, hist) && i + m <= |f.routed| && u < k && NoSeam(i % U64_SIZE, m, k)
    requires forall j :: i <= j < i + m ==> |f.routed[j].reading.list| == k
    ensures m / k <= Taken(f.routed, i, m, u) <= (m + k - 1) / k
  {
    TakenArePicks(cfg, f, hist, i, m, k, u);
    RoundRobinIsFair(i % U64_SIZE, m, k);
  }

  /** How many of the connections `i`, ..., `i + m - 1` went to this address. */
  function Served(routed: seq<Routed>, i: nat, m: nat, address: (string, Port)): nat
    requires i + m <= |routed|
  {
    if m == 0 then 0 else Served(routed, i, m - 1, address) + (if routed[i + m - 1].target == address then 1 else 0)
  }

  lemma SlotOrTarget(cfg: ServiceConfig, f: Front, hist: seq<seq<Check>>, i: nat, u: nat)
    requires FrontOk(cfg, f, hist) && i < |f.routed|
    requires NoRepeats(f.routed[i].reading.list) && u < |f.routed[i].reading.list|
    ensures f.routed[i].target == f.routed[i].reading.list[u] <==> f.routed[i].slot == u
  {
    assert RoutedFits(cfg, f.routed[i], i, hist);
    hide ReadingFits;
  }

  lemma {:induction false} ServedIsTaken(cfg: ServiceConfig, f: Front, hist: seq<seq<Check>>, i: nat, m: nat,
                                         list: seq<(string, Port)>, u: nat)
    requires FrontOk(cfg, f, hist) && i + m <= |f.routed| && NoRepeats(list) && u < |list|
    requires forall j :: i <= j < i + m ==> f.routed[j].reading.list == list
    ensures Served(f.routed, i, m, list[u]) == Taken(f.routed, i, m, u)
  {
    hide FrontOk;
    if m > 0 {
      ServedIsTaken(cfg, f, hist, i, m - 1, list, u);
      SlotOrTarget(cfg, f, hist, i + m - 1, u);
    }
  }

  lemma ReadingHasNoRepeats(cfg: ServiceConfig, f: Front, hist: seq<seq<Check>>, i: nat)
    requires FrontOk(cfg, f, hist) && i < |f.routed|
    requires |hist| == |cfg.upstreams| && forall j: nat :: Shadowed(cfg.upstreams, j) ==> hist[j] == []
    ensures NoRepeats(f.routed[i].reading.list)
  {
    assert RoutedFits(cfg, f.routed[i], i, hist);
    hide FrontOk;
    var r := f.routed[i].reading;
    forall j: nat | Shadowed(cfg.upstreams, j) ensures r.hist[j] == [] {
      assert r.hist[j] <= hist[j];
    }
    HistoriesKeepApart(cfg, r.hist);
    HealthyListNoRepeats(UpstreamsFrom(cfg.upstreams, r.hist, cfg.failureThreshold));
  }

  lemma AddressesAreSpreadFairly(cfg: ServiceConfig, f: Front, hist: seq<seq<Check>>, i: nat, m: nat,
                                 list: seq<(string, Port)>, address: (string, Port))
    requires FrontOk(cfg, f, hist) && i + m <= |f.routed| && address in list && NoSeam(i % U64_SIZE, m, |list|)
    requires |hist| == |cfg.upstreams| && forall j: nat :: Shadowed(cfg.upstreams, j) ==> hist[j] == []
    requires forall j :: i <= j < i + m ==> f.routed[j].reading.list == list
    ensures m / |list| <= Served(f.routed, i, m, address) <= (m + |list| - 1) / |list|
  {
    hide FrontOk;
    var u :| 0 <= u < |list| && list[u] == address;
    if m == 0 {
      assert (m + |list| - 1) / |list| >= 0;
    } else {
      ReadingHasNoRepeats(cfg, f, hist, i);
      hide NoRepeats;
      ServedIsTaken(cfg, f, hist, i, m, list, u);
      PositionsAreSpreadFairly(cfg, f, hist, i, m, |list|, u);
    }
  }

  /** In every run, however the connections interleave with each other and with the checks: of `m` consecutive
      connections that saw the same list of `k` upstreams, each upstream on it gets `m / k`, rounded down or up,
      unless the counter wrapped among them and `k` does not divide 2^64. */
  lemma ConnectionsAreSpreadFairly(s: Setup, id: string, clock: Time, zs: seq<Whole>, ms: seq<Move>, n: nat,
                                   i: nat, m: nat, list: seq<(string, Port)>, address: (string, Port))
    requires ValidSystem(s) && id in s.cfgs && IsWholeRun(s, id, clock, zs, ms) && n < |zs|
    requires i + m <= |zs[n].front.routed| && address in list && NoSeam(i % U64_SIZE, m, |list|)
    requires forall j :: i <= j < i + m ==> zs[n].front.routed[j].reading.list == list
    ensures m / |list| <= Served(zs[n].front.routed, i, m, address) <= (m + |list| - 1) / |list|
  {
    WholeRunOk(s, id, clock, zs, ms, n);
    ReachableData(s, zs[n].w, id);
    hide IsWholeRun;
    hide ValidSystem;
    hide DeskOk;
    hide Reachable;
    hide FrontOk;
    AddressesAreSpreadFairly(s.cfgs[id], zs[n].front, zs[n].w.cells[id].trace.hist, i, m, list, address);
  }
}
