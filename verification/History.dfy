/** Check histories: what an upstream entry and a service should say, recomputed from every check so far. */
module History {
  import opened Models
  import opened Store

  datatype Check = Check(success: bool, latencyMs: nat, at: Time)

  function Last<T>(s: seq<T>): T
    requires s != []
  {
    s[|s| - 1]
  }

  /** How many checks at the end of the history failed without a success in between. */
  function TrailingFailures(h: seq<Check>): nat {
    if h == [] || Last(h).success then 0 else 1 + TrailingFailures(h[..|h| - 1])
  }

  function LastSuccess(h: seq<Check>): Option<Time> {
    if h == [] then None
    else if Last(h).success then Some(Last(h).at)
    else LastSuccess(h[..|h| - 1])
  }

  function StatusFrom(h: seq<Check>, threshold: nat): ServiceStatus {
    if h == [] then Unknown
    else if Last(h).success then Healthy
    else if TrailingFailures(h) >= threshold then Failed
    else Degraded
  }

  /** The entry that a history determines. */
  function UpstreamFrom(u: UpstreamConfig, h: seq<Check>, threshold: nat): UpstreamState {
    UpstreamState(
      u.host, u.port, StatusFrom(h, threshold), TrailingFailures(h),
      if h == [] then None else Some(Last(h).at),
      LastSuccess(h),
      if h == [] then None else Some(Last(h).latencyMs))
  }

  function UpstreamsFrom(us: seq<UpstreamConfig>, hs: seq<seq<Check>>, threshold: nat): seq<UpstreamState>
    requires |us| == |hs|
  {
    seq(|us|, k requires 0 <= k < |us| => UpstreamFrom(us[k], hs[k], threshold))
  }

  /** The counter means what its name says: `n` is at most the run length exactly when the last `n` checks all
      failed. */
  lemma {:induction false} TrailingFailuresMeaning(h: seq<Check>, n: nat)
    ensures n <= TrailingFailures(h) <==> n <= |h| && forall k :: |h| - n <= k < |h| ==> !h[k].success
  {
    if h != [] && n > 0 {
      var front := h[..|h| - 1];
      TrailingFailuresMeaning(front, n - 1);
      if !Last(h).success && n <= |h| {
        assert (forall k :: |h| - n <= k < |h| ==> !h[k].success)
          <==> (forall k :: |front| - (n - 1) <= k < |front| ==> !front[k].success) by {
          assert forall k :: 0 <= k < |front| ==> front[k] == h[k];
        }
      }
    }
  }

  /** The last success is the time of a successful check that no success follows; there is none if every check
      failed. */
  lemma {:induction false} LastSuccessMeaning(h: seq<Check>) returns (k: int)
    ensures -1 <= k < |h| && forall j :: k < j < |h| ==> !h[j].success
    ensures LastSuccess(h) == (if k == -1 then None else Some(h[k].at))
    ensures k >= 0 ==> h[k].success
  {
    if h == [] {
      k := -1;
    } else if Last(h).success {
      k := |h| - 1;
    } else {
      var front := h[..|h| - 1];
      k := LastSuccessMeaning(front);
      assert forall j :: 0 <= j < |front| ==> front[j] == h[j];
    }
  }

  /** An entry, read off its history: never checked, or last checked when and how the last check says; the counter
      and the status tell the length of the run of failures at the end. */
  lemma EntryMeaning(u: UpstreamConfig, h: seq<Check>, threshold: nat) returns (k: int)
    ensures -1 <= k < |h| && (forall j :: k < j < |h| ==> !h[j].success) && (k >= 0 ==> h[k].success)
    ensures var e := UpstreamFrom(u, h, threshold);
      && e.host == u.host && e.port == u.port
      && e.lastOkAt == (if k == -1 then None else Some(h[k].at))
      && e.consecutiveFailures == |h| - 1 - k
      && (h == [] ==> e.status == Unknown && e.lastCheckedAt == None && e.latencyMs == None)
      && (h != [] ==>
            && e.lastCheckedAt == Some(h[|h| - 1].at) && e.latencyMs == Some(h[|h| - 1].latencyMs)
            && e.status == (if k == |h| - 1 then Healthy else if |h| - 1 - k >= threshold then Failed else Degraded))
  {
    k := LastSuccessMeaning(h);
    TrailingFailuresMeaning(h, |h| - 1 - k);
    TrailingFailuresMeaning(h, |h| - k);
    hide TrailingFailures;
    hide LastSuccess;
  }

  /** Updating an entry in place is the same as recomputing it from the longer history. */
  lemma CheckExtendsHistory(u: UpstreamConfig, h: seq<Check>, c: Check, threshold: nat)
    ensures UpstreamFrom(u, h + [c], threshold)
         == AfterCheck(UpstreamFrom(u, h, threshold), c.success, c.latencyMs, threshold, c.at)
  {
    assert (h + [c])[..|h|] == h;
  }

  /** Every entry of the service ended in a full run of failures: at least one, and at least the threshold. */
  ghost predicate AllDown(hs: seq<seq<Check>>, threshold: nat) {
    && hs != []
    && forall k :: 0 <= k < |hs| ==> Down(hs[k], threshold)
  }

  ghost predicate AllChecked(hs: seq<seq<Check>>) {
    forall k :: 0 <= k < |hs| ==> hs[k] != []
  }

  /** Histories only grow: each is a prefix of its later self. */
  ghost predicate GrownTo(before: seq<seq<Check>>, after: seq<seq<Check>>) {
    && |before| == |after|
    && forall k :: 0 <= k < |before| ==> before[k] <= after[k]
  }

  /** The upstream is down: its history ends in a full run of failures. */
  ghost predicate Down(h: seq<Check>, threshold: nat) {
    TrailingFailures(h) >= Max(1, threshold)
  }

  ghost predicate Up(h: seq<Check>) { h != [] && Last(h).success }

  /** What each aggregate status says about the histories, exactly. */
  lemma AggregateMeaning(us: seq<UpstreamConfig>, hs: seq<seq<Check>>, threshold: nat)
    requires |us| == |hs| && us != []
    ensures var status := Aggregate(UpstreamsFrom(us, hs, threshold));
      && (status == Failed <==> AllDown(hs, threshold))
      && (status == Healthy <==> forall k :: 0 <= k < |hs| ==> Up(hs[k]))
      && (status == Unknown <==> !AllChecked(hs) && forall k :: 0 <= k < |hs| ==> !Down(hs[k], threshold))
      && (status == Degraded <==>
            if exists k :: 0 <= k < |hs| && Down(hs[k], threshold) then !AllDown(hs, threshold)
            else AllChecked(hs) && exists k :: 0 <= k < |hs| && !Up(hs[k]))
  {
    var es := UpstreamsFrom(us, hs, threshold);
    assert forall k :: 0 <= k < |hs| ==> es[k].status == StatusFrom(hs[k], threshold);
    assert es[0].status == StatusFrom(hs[0], threshold);
    forall k | 0 <= k < |hs|
      ensures es[k].status == Failed <==> Down(hs[k], threshold)
      ensures es[k].status == Healthy <==> Up(hs[k])
      ensures es[k].status == Unknown <==> hs[k] == []
    {
    }
  }

  // ---- the transition graph of the aggregate ------------------------------

  /** One step of the aggregate of two or more upstreams: everything passes through Degraded,
      except that the last first check may complete Healthy. */
  predicate StepAllowed(p: ServiceStatus, q: ServiceStatus) {
    p == q || p == Degraded || q == Degraded || (p == Unknown && q == Healthy)
  }

  /** One check moves the aggregate only along the allowed edges, whatever the number of upstreams. */
  lemma AggregateStep(us: seq<UpstreamState>, k: nat, success: bool, latencyMs: nat, threshold: nat, now: Time)
    requires k < |us|
    ensures var p := Aggregate(us);
      var q := Aggregate(us[k := AfterCheck(us[k], success, latencyMs, threshold, now)]);
      && (q == Unknown && p != Unknown ==> p == Degraded)
      && (|us| >= 2 ==> StepAllowed(p, q))
  {
    var u' := AfterCheck(us[k], success, latencyMs, threshold, now);
    var us' := us[k := u'];
    assert us'[k].status != Unknown;
    if |us| >= 2 {
      var j := if k == 0 then 1 else 0;
      assert us'[j] == us[j];
    }
    if AnyIs(us', Unknown) {
      var j :| 0 <= j < |us'| && us'[j].status == Unknown;
      assert us[j].status == Unknown;
    }
    if AnyIs(us', Failed) && Aggregate(us') == Failed && |us| >= 2 {
      var j := if k == 0 then 1 else 0;
      assert us[j].status == Failed;
    }
  }

  const OK_CHECK := Check(true, 1, 0)
  const BAD_CHECK := Check(false, 1, 0)

  /** Two histories and a check that take the aggregate of two upstreams from `p` to `q` at threshold 2. */
  function StepWitness(p: ServiceStatus, q: ServiceStatus): (seq<Check>, seq<Check>, Check) {
    match (p, q)
    case (Healthy, _) => ([OK_CHECK], [OK_CHECK], BAD_CHECK)
    case (Degraded, Healthy) => ([BAD_CHECK], [OK_CHECK], OK_CHECK)
    case (Degraded, Failed) => ([BAD_CHECK], [BAD_CHECK, BAD_CHECK], BAD_CHECK)
    case (Degraded, _) => ([BAD_CHECK, BAD_CHECK], [], OK_CHECK)
    case (Failed, _) => ([BAD_CHECK, BAD_CHECK], [BAD_CHECK, BAD_CHECK], OK_CHECK)
    case (Unknown, Healthy) => ([], [OK_CHECK], OK_CHECK)
    case (Unknown, _) => ([], [BAD_CHECK], OK_CHECK)
  }

  lemma TrailingRun(h: seq<Check>)
    ensures h == [] ==> TrailingFailures(h) == 0
    ensures |h| == 1 && !h[0].success ==> TrailingFailures(h) == 1
    ensures |h| == 2 && !h[0].success && !h[1].success ==> TrailingFailures(h) == 2
  {
    if |h| == 2 { TrailingRun(h[..1]); }
    if |h| == 1 { assert h[..0] == []; }
  }

  lemma AggregateOfTwo(us: seq<UpstreamState>)
    requires |us| == 2
    ensures Aggregate(us) ==
      var (x, y) := (us[0].status, us[1].status);
      if x == y && (x == Healthy || x == Failed) then x
      else if x == Failed || y == Failed then Degraded
      else if x == Unknown || y == Unknown then Unknown
      else Degraded
  {
    assert AnyIs(us, us[0].status) && AnyIs(us, us[1].status);
  }

  /** The graph is exact: every allowed edge between different statuses is taken by some check on some history. */
  lemma StepRealised(p: ServiceStatus, q: ServiceStatus, a: UpstreamConfig, b: UpstreamConfig)
    requires p != q && StepAllowed(p, q)
    ensures var (ha, hb, c) := StepWitness(p, q);
      && Aggregate(UpstreamsFrom([a, b], [ha, hb], 2)) == p
      && Aggregate(UpstreamsFrom([a, b], [ha + [c], hb], 2)) == q
  {
    var (ha, hb, c) := StepWitness(p, q);
    TrailingRun(ha); TrailingRun(hb); TrailingRun(ha + [c]);
    AggregateOfTwo(UpstreamsFrom([a, b], [ha, hb], 2));
    AggregateOfTwo(UpstreamsFrom([a, b], [ha + [c], hb], 2));
    hide Aggregate;
  }
}
