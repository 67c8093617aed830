/** The proxy: port validation, the list of listeners, and round-robin routing. */
module Proxy {
  import opened Models
  import opened Store

  // ---- port validation ----------------------------------------------------

  /** A proxy port that is usable on its own: non-zero, not the API port, not a port of the service's own upstreams. */
  ghost predicate PortUsable(config: VelaConfig, svc: ServiceConfig) {
    svc.proxy.Some? ==>
      var port := svc.proxy.value.listenPort;
      && port != 0 && port != config.apiPort
      && forall k :: 0 <= k < |svc.upstreams| ==> svc.upstreams[k].port != port
  }

  /** The first `n` services can all be proxied side by side. */
  ghost predicate PortsFit(config: VelaConfig, n: nat)
    requires n <= |config.services|
  {
    && (forall i :: 0 <= i < n ==> PortUsable(config, config.services[i]))
    && (forall i, j :: 0 <= i < j < n && config.services[i].proxy.Some? && config.services[j].proxy.Some? ==>
          config.services[i].proxy.value.listenPort != config.services[j].proxy.value.listenPort)
  }

  ghost predicate Uses(config: VelaConfig, n: nat, port: Port)
    requires n <= |config.services|
  {
    exists i :: 0 <= i < n && config.services[i].proxy.Some? && config.services[i].proxy.value.listenPort == port
  }

  /** Service `k` is the first that does not fit with those before it, and the error names its port. */
  ghost predicate FirstMisfit(config: VelaConfig, k: nat, error: VelaError) {
    && k < |config.services|
    && PortsFit(config, k) && !PortsFit(config, k + 1)
    && config.services[k].proxy.Some?
    && error == ProxyPortConflict(config.services[k].proxy.value.listenPort)
  }

  /** Accepts a configuration exactly when all proxied services fit side by side; otherwise reports the port of the
      first service that does not fit with those before it. */
  method ValidateProxyConfig(config: VelaConfig) returns (r: Result<()>)
    ensures r.Ok? <==> PortsFit(config, |config.services|)
    ensures r.Ok? <==> ListenersFit(config.apiPort, BuildProxyBindings(config.services))
    ensures r.Err? ==> exists k :: FirstMisfit(config, k, r.error)
  {
    PortsFitExactlyWhen(config);
    hide ListenersFit;
    hide BuildProxyBindings;
    var used: set<Port> := {config.apiPort};
    for i := 0 to |config.services|
      invariant PortsFit(config, i)
      invariant forall port :: port in used <==> port == config.apiPort || Uses(config, i, port)
    {
      var svc := config.services[i];
      if svc.proxy.Some? {
        var port := svc.proxy.value.listenPort;
        ghost var error := ProxyPortConflict(port);
        if port == 0 {
          assert !PortUsable(config, svc) && FirstMisfit(config, i, error);
          return Err(ProxyPortConflict(port));
        }
        for k := 0 to |svc.upstreams|
          invariant forall m :: 0 <= m < k ==> svc.upstreams[m].port != port
        {
          if port == svc.upstreams[k].port {
            assert !PortUsable(config, svc) && FirstMisfit(config, i, error);
            return Err(ProxyPortConflict(port));
          }
        }
        if port == config.apiPort {
          assert !PortUsable(config, svc) && FirstMisfit(config, i, error);
          return Err(ProxyPortConflict(port));
        }
        if port in used {
          assert Uses(config, i, port) && FirstMisfit(config, i, error);
          return Err(ProxyPortConflict(port));
        }
        used := used + {port};
        assert Uses(config, i + 1, port);
      }
      assert forall port :: Uses(config, i + 1, port) <==>
        Uses(config, i, port) || (svc.proxy.Some? && svc.proxy.value.listenPort == port);
    }
    return Ok(());
  }

  // ---- listeners ----------------------------------------------------------

  datatype ProxyBinding = ProxyBinding(
    serviceId: string, serviceName: string, bindHost: string, listenPort: Port, upstreamAddrs: seq<(string, Port)>)

  function BindingOf(svc: ServiceConfig): ProxyBinding
    requires svc.proxy.Some?
  {
    ProxyBinding(svc.id, svc.name,
                 if svc.proxy.value.bindAllInterfaces then "0.0.0.0" else "127.0.0.1",
                 svc.proxy.value.listenPort,
                 seq(|svc.upstreams|, k requires 0 <= k < |svc.upstreams| =>
                   (svc.upstreams[k].host, svc.upstreams[k].port)))
  }

  function BuildProxyBindings(services: seq<ServiceConfig>): seq<ProxyBinding> {
    if services == [] then []
    else
      var svc := services[|services| - 1];
      BuildProxyBindings(services[..|services| - 1]) + (if svc.proxy.Some? then [BindingOf(svc)] else [])
  }

  /** How many of the first `n` services are proxied. */
  function ProxiedBefore(services: seq<ServiceConfig>, n: nat): nat
    requires n <= |services|
  {
    if n == 0 then 0 else ProxiedBefore(services, n - 1) + (if services[n - 1].proxy.Some? then 1 else 0)
  }

  lemma {:induction false} ProxiedBeforePrefix(services: seq<ServiceConfig>, m: nat, n: nat)
    requires n <= m <= |services|
    ensures ProxiedBefore(services[..m], n) == ProxiedBefore(services, n)
  {
    if n > 0 { ProxiedBeforePrefix(services, m, n - 1); }
  }

  ghost predicate BoundInPlace(services: seq<ServiceConfig>, bindings: seq<ProxyBinding>, k: nat)
    requires k < |services|
  {
    services[k].proxy.Some? ==>
      ProxiedBefore(services, k) < |bindings| && bindings[ProxiedBefore(services, k)] == BindingOf(services[k])
  }

  /** One binding per proxied service, in configuration order: service `k` has the binding at the number of proxied
      services before it, and there are no others. */
  lemma {:induction false} BindingsInOrder(services: seq<ServiceConfig>)
    ensures |BuildProxyBindings(services)| == ProxiedBefore(services, |services|)
    ensures forall k :: 0 <= k < |services| ==> BoundInPlace(services, BuildProxyBindings(services), k)
  {
    if services != [] {
      var n := |services| - 1;
      var front := services[..n];
      BindingsInOrder(front);
      ProxiedBeforePrefix(services, n, n);
      forall k | 0 <= k < n ensures BoundInPlace(services, BuildProxyBindings(services), k) {
        assert BoundInPlace(front, BuildProxyBindings(front), k);
        ProxiedBeforePrefix(services, n, k);
        hide ProxiedBefore;
      }
    }
  }

  /** Every binding comes from a proxied service: it carries the service's names, listens on its port, on all interfaces
      exactly if asked to and on the loopback interface otherwise, and names every upstream in order. */
  lemma {:induction false} BindingOrigin(services: seq<ServiceConfig>, i: nat) returns (k: nat)
    requires i < |BuildProxyBindings(services)|
    ensures k < |services| && services[k].proxy.Some? && ProxiedBefore(services, k) == i
    ensures var b, svc := BuildProxyBindings(services)[i], services[k];
      && b.serviceId == svc.id && b.serviceName == svc.name
      && b.listenPort == svc.proxy.value.listenPort
      && (svc.proxy.value.bindAllInterfaces ==> b.bindHost == "0.0.0.0")
      && (!svc.proxy.value.bindAllInterfaces ==> b.bindHost == "127.0.0.1")
      && |b.upstreamAddrs| == |svc.upstreams|
      && forall u :: 0 <= u < |svc.upstreams| ==> b.upstreamAddrs[u] == (svc.upstreams[u].host, svc.upstreams[u].port)
  {
    var n := |services| - 1;
    var front := services[..n];
    BindingsInOrder(front);
    ProxiedBeforePrefix(services, n, n);
    if i < |BuildProxyBindings(front)| {
      k := BindingOrigin(front, i);
      ProxiedBeforePrefix(services, n, k);
    } else {
      k := n;
    }
  }

  /** Once validation accepted the configuration, the listeners' ports are pairwise distinct and none is the API's. */
  lemma ListenersDoNotCollide(config: VelaConfig, i: nat, j: nat)
    requires PortsFit(config, |config.services|)
    requires i < |BuildProxyBindings(config.services)| && j < |BuildProxyBindings(config.services)| && i != j
    ensures var b := BuildProxyBindings(config.services);
      b[i].listenPort != b[j].listenPort && b[i].listenPort != config.apiPort && b[i].listenPort != 0
  {
    var k := BindingOrigin(config.services, i);
    var m := BindingOrigin(config.services, j);
    assert PortUsable(config, config.services[k]);
  }

  /** The rules of validation, read off the listeners that it lets through: every port is usable, none is the API's
      or one of the listener's own upstreams, and no two are the same. */
  ghost predicate ListenersFit(apiPort: Port, bindings: seq<ProxyBinding>) {
    && (forall i :: 0 <= i < |bindings| ==> bindings[i].listenPort != 0 && bindings[i].listenPort != apiPort)
    && (forall i, u :: 0 <= i < |bindings| && 0 <= u < |bindings[i].upstreamAddrs| ==>
          bindings[i].upstreamAddrs[u].1 != bindings[i].listenPort)
    && (forall i, j :: 0 <= i < j < |bindings| ==> bindings[i].listenPort != bindings[j].listenPort)
  }

  lemma FittingListenersAreUsable(config: VelaConfig, i: nat)
    requires PortsFit(config, |config.services|) && i < |BuildProxyBindings(config.services)|
    ensures var b := BuildProxyBindings(config.services)[i];
      && b.listenPort != 0 && b.listenPort != config.apiPort
      && forall u :: 0 <= u < |b.upstreamAddrs| ==> b.upstreamAddrs[u].1 != b.listenPort
  {
    var k := BindingOrigin(config.services, i);
    assert PortUsable(config, config.services[k]);
  }

  lemma ProxiedBeforeGrows(services: seq<ServiceConfig>, i: nat, j: nat)
    requires i < j <= |services| && services[i].proxy.Some?
    ensures ProxiedBefore(services, i) < ProxiedBefore(services, j)
  {
    if i + 1 < j { ProxiedBeforeGrows(services, i, j - 1); }
  }

  lemma UsablePort(config: VelaConfig, k: nat)
    requires k < |config.services| && config.services[k].proxy.Some?
    requires ListenersFit(config.apiPort, BuildProxyBindings(config.services))
    ensures PortUsable(config, config.services[k])
  {
    BindingsInOrder(config.services);
    var bs, p := BuildProxyBindings(config.services), ProxiedBefore(config.services, k);
    assert BoundInPlace(config.services, bs, k);
    forall u | 0 <= u < |config.services[k].upstreams|
      ensures config.services[k].upstreams[u].port != config.services[k].proxy.value.listenPort
    {
      assert bs[p].upstreamAddrs[u].1 != bs[p].listenPort;
    }
  }

  lemma DistinctPorts(config: VelaConfig, i: nat, j: nat)
    requires i < j < |config.services| && config.services[i].proxy.Some? && config.services[j].proxy.Some?
    requires ListenersFit(config.apiPort, BuildProxyBindings(config.services))
    ensures config.services[i].proxy.value.listenPort != config.services[j].proxy.value.listenPort
  {
    BindingsInOrder(config.services);
    var bs := BuildProxyBindings(config.services);
    assert BoundInPlace(config.services, bs, i) && BoundInPlace(config.services, bs, j);
    ProxiedBeforeGrows(config.services, i, j);
  }

  /** Validation accepts a configuration exactly if the listeners built from it fit. */
  lemma PortsFitExactlyWhen(config: VelaConfig)
    ensures PortsFit(config, |config.services|)
      <==> ListenersFit(config.apiPort, BuildProxyBindings(config.services))
  {
    var bs := BuildProxyBindings(config.services);
    if PortsFit(config, |config.services|) {
      forall i | 0 <= i < |bs|
        ensures bs[i].listenPort != 0 && bs[i].listenPort != config.apiPort
        ensures forall u :: 0 <= u < |bs[i].upstreamAddrs| ==> bs[i].upstreamAddrs[u].1 != bs[i].listenPort
      {
        FittingListenersAreUsable(config, i);
      }
      forall i, j | 0 <= i < j < |bs| ensures bs[i].listenPort != bs[j].listenPort {
        ListenersDoNotCollide(config, i, j);
      }
    }
    if ListenersFit(config.apiPort, bs) {
      forall k | 0 <= k < |config.services| ensures PortUsable(config, config.services[k]) {
        if config.services[k].proxy.Some? { UsablePort(config, k); }
      }
      forall i, j | 0 <= i < j < |config.services|
                    && config.services[i].proxy.Some? && config.services[j].proxy.Some?
        ensures config.services[i].proxy.value.listenPort != config.services[j].proxy.value.listenPort
      {
        DistinctPorts(config, i, j);
      }
    }
  }

  // ---- the routing list ---------------------------------------------------

  ghost predicate RoutesTo(us: seq<UpstreamState>, address: (string, Port), k: int) {
    0 <= k < |us| && us[k].status == Healthy && address == (us[k].host, us[k].port)
  }

  ghost predicate Routable(us: seq<UpstreamState>, address: (string, Port)) {
    exists k :: RoutesTo(us, address, k)
  }

  /** How many of the first `n` entries are healthy. */
  function HealthyBefore(us: seq<UpstreamState>, n: nat): nat
    requires n <= |us|
  {
    if n == 0 then 0 else HealthyBefore(us, n - 1) + (if us[n - 1].status == Healthy then 1 else 0)
  }

  lemma {:induction false} HealthyBeforeTail(us: seq<UpstreamState>, n: nat)
    requires 0 < n <= |us|
    ensures HealthyBefore(us, n) == HealthyBefore(us[1..], n - 1) + (if us[0].status == Healthy then 1 else 0)
  {
    if n > 1 { HealthyBeforeTail(us, n - 1); }
  }

  lemma {:induction false} HealthyListLength(us: seq<UpstreamState>)
    ensures |HealthyAddresses(us)| == HealthyBefore(us, |us|)
  {
    if us != [] {
      HealthyListLength(us[1..]);
      HealthyBeforeTail(us, |us|);
    }
  }

  /** The list is the healthy entries in their order: entry `k` stands at the number of healthy entries before it. */
  lemma {:induction false} HealthyListOrder(us: seq<UpstreamState>, k: nat)
    requires k < |us| && us[k].status == Healthy
    ensures HealthyBefore(us, k) < |HealthyAddresses(us)|
    ensures HealthyAddresses(us)[HealthyBefore(us, k)] == (us[k].host, us[k].port)
  {
    if k > 0 {
      HealthyListOrder(us[1..], k - 1);
      HealthyBeforeTail(us, k);
    }
  }

  /** Nothing else is on the list, and it is complete exactly if all entries are healthy. */
  lemma {:induction false} HealthyListOrigin(us: seq<UpstreamState>)
    ensures forall i :: 0 <= i < |HealthyAddresses(us)| ==> Routable(us, HealthyAddresses(us)[i])
    ensures |HealthyAddresses(us)| <= |us|
    ensures |HealthyAddresses(us)| == |us| <==> AllAre(us, Healthy)
  {
    if us != [] {
      var tail, rest := us[1..], HealthyAddresses(us[1..]);
      HealthyListOrigin(tail);
      assert forall k :: 0 < k < |us| ==> us[k] == tail[k - 1];
      var first := if us[0].status == Healthy then [(us[0].host, us[0].port)] else [];
      assert HealthyAddresses(us) == first + rest;
      forall i | 0 <= i < |HealthyAddresses(us)| ensures Routable(us, HealthyAddresses(us)[i]) {
        if i < |first| {
          assert RoutesTo(us, HealthyAddresses(us)[i], 0);
        } else {
          assert Routable(tail, rest[i - |first|]);
          var k :| RoutesTo(tail, rest[i - |first|], k);
          assert RoutesTo(us, HealthyAddresses(us)[i], k + 1);
        }
      }
      if AllAre(tail, Healthy) && us[0].status == Healthy { assert AllAre(us, Healthy); }
      if AllAre(us, Healthy) { assert us[0].status == Healthy && AllAre(tail, Healthy); }
    }
  }

  ghost predicate NoRepeats<T(!new)>(list: seq<T>) {
    forall i, j :: 0 <= i < j < |list| ==> list[i] != list[j]
  }

  /** Two healthy entries never share an address. */
  ghost predicate HealthyApart(us: seq<UpstreamState>) {
    forall i, j :: 0 <= i < j < |us| && us[i].status == Healthy && us[j].status == Healthy ==>
      (us[i].host, us[i].port) != (us[j].host, us[j].port)
  }

  lemma {:induction false} HealthyListNoRepeats(us: seq<UpstreamState>)
    requires HealthyApart(us)
    ensures NoRepeats(HealthyAddresses(us))
  {
    if us != [] {
      var tail, rest := us[1..], HealthyAddresses(us[1..]);
      assert forall k :: 0 < k < |us| ==> us[k] == tail[k - 1];
      HealthyListNoRepeats(tail);
      HealthyListOrigin(tail);
      if us[0].status == Healthy {
        forall j | 0 <= j < |rest| ensures rest[j] != (us[0].host, us[0].port) {
          assert Routable(tail, rest[j]);
          var k :| RoutesTo(tail, rest[j], k);
          assert us[k + 1] == tail[k];
        }
      }
    }
  }

  // ---- round robin --------------------------------------------------------

  /** The ticket of the `i`-th draw after one that got `start`, whoever draws in between. */
  function Ticket(start: nat, i: nat): nat { (start + i) % U64_SIZE }

  /** One draw: the position chosen in the list, and the counter after it. An empty list draws nothing. */
  function Draw(counter: nat, healthy: seq<(string, Port)>): (Option<nat>, nat) {
    if healthy == [] then (None, counter) else (Some(counter % |healthy|), Ticket(counter, 1))
  }

  /** Whatever position a draw takes, it is a healthy entry; the list is empty exactly if there is none. */
  lemma ListIsHealthy(us: seq<UpstreamState>, k: nat)
    ensures HealthyAddresses(us) == [] <==> !AnyIs(us, Healthy)
    ensures k < |HealthyAddresses(us)| ==> Routable(us, HealthyAddresses(us)[k])
  {
    var list := HealthyAddresses(us);
    HealthyListOrigin(us);
    if AnyIs(us, Healthy) {
      var j :| 0 <= j < |us| && us[j].status == Healthy;
      HealthyListOrder(us, j);
    }
    hide HealthyAddresses;
    if list != [] {
      assert Routable(us, list[0]);
      var j :| RoutesTo(us, list[0], j);
    }
  }

  /** The listener's counter, shared by all its connections; it wraps like the machine word it is. */
  class Listener {
    var rrCounter: nat

    constructor ()
      ensures rrCounter == 0
    {
      rrCounter := 0;
    }

    /** Draws a ticket against the list this connection read; an empty list draws none. */
    method Pick(healthy: seq<(string, Port)>) returns (target: Option<(string, Port)>)
      requires rrCounter < U64_SIZE
      modifies this
      ensures rrCounter < U64_SIZE
      ensures healthy == [] ==> target == None && rrCounter == old(rrCounter)
      ensures healthy != [] ==>
        && target == Some(healthy[old(rrCounter) % |healthy|])
        && rrCounter == (old(rrCounter) + 1) % 0x1_0000_0000_0000_0000
    {
      if healthy == [] { return None; }
      var idx := rrCounter % |healthy|;
      rrCounter := (rrCounter + 1) % U64_SIZE;
      return Some(healthy[idx]);
    }

    /** Routes one connection by the store as it is: to a healthy upstream of the service, if there is one. */
    method HandleConnection(store: VelaState, id: string) returns (target: Option<(string, Port)>)
      requires rrCounter < U64_SIZE
      modifies this
      ensures rrCounter < U64_SIZE
      ensures var us := if id in store.upstreamStates then store.upstreamStates[id] else [];
        var list := HealthyAddresses(us);
        && (target == None <==> !AnyIs(us, Healthy))
        && (target.Some? ==> Routable(us, target.value))
        && (if list == [] then target == None && rrCounter == old(rrCounter)
            else
              && target == Some(list[old(rrCounter) % |list|])
              && rrCounter == (old(rrCounter) + 1) % 0x1_0000_0000_0000_0000)
    {
      ghost var us := if id in store.upstreamStates then store.upstreamStates[id] else [];
      var healthy := store.GetHealthyUpstreams(id);
      ListIsHealthy(us, if healthy == [] then 0 else rrCounter % |healthy|);
      hide HealthyAddresses;
      target := Pick(healthy);
    }
  }

  /** How often, in `m` consecutive tickets drawn against a list of length `k`, entry `u` is chosen. */
  function Picks(start: nat, m: nat, k: nat, u: nat): nat
    requires k > 0
  {
    if m == 0 then 0 else Picks(start, m - 1, k, u) + (if Ticket(start, m - 1) % k == u then 1 else 0)
  }

  /** Every entry is chosen `m / k` times, rounded down or up. */
  ghost predicate FairWindow(start: nat, m: nat, k: nat)
    requires k > 0
  {
    forall u :: 0 <= u < k ==> m / k <= Picks(start, m, k, u) <= (m + k - 1) / k
  }

  lemma DivUnique(x: int, q: int, r: int, k: int)
    requires k > 0 && x == q * k + r && 0 <= r < k
    ensures x / k == q && x % k == r
  {
    var d := x / k - q;
    assert x == k * (x / k) + x % k;
    assert d * k == k * (x / k) - q * k;
    SmallMultiple(d, k);
  }

  lemma SmallMultiple(d: int, k: int)
    requires -k < d * k < k
    ensures d == 0
  {
    if d >= 1 {
      MultipleGrows(d, k);
    } else if d <= -1 {
      MultipleGrows(-d, k);
    }
  }

  lemma {:induction false} MultipleGrows(d: int, k: int)
    requires d >= 1 && k > 0
    ensures d * k >= k
  {
    if d > 1 {
      MultipleGrows(d - 1, k);
      assert d * k == (d - 1) * k + k;
    }
  }

  lemma DivModSucc(n: int, k: int)
    requires k > 0
    ensures n % k == k - 1 ==> (n + 1) / k == n / k + 1 && (n + 1) % k == 0
    ensures n % k < k - 1 ==> (n + 1) / k == n / k && (n + 1) % k == n % k + 1
  {
    assert n == n / k * k + n % k;
    if n % k == k - 1 {
      assert n + 1 == (n / k + 1) * k + 0;
      DivUnique(n + 1, n / k + 1, 0, k);
    } else {
      DivUnique(n + 1, n / k, n % k + 1, k);
    }
  }

  /** Multiples of `k` and a remainder: how many of the first `n` numbers are `u` modulo `k`. */
  function Hits(n: int, k: int, u: int): int
    requires k > 0
  {
    n / k + (if n % k > u then 1 else 0)
  }

  /** Tickets behave as if they never wrapped: within the word, or if the list length divides its size. */
  ghost predicate NoSeam(start: nat, m: nat, k: nat)
    requires k > 0
  {
    start + m <= U64_SIZE || U64_SIZE % k == 0
  }

  lemma MultipleAndRest(a: int, b: int, r: int, c: int, k: int)
    ensures a * (c * k) + (b * k + r) == (a * c + b) * k + r
  {
    assert a * (c * k) == (a * c) * k;
  }

  /** Modulo a multiple of `k` first changes nothing modulo `k`. */
  lemma ModuloOfModulo(x: nat, n: nat, k: nat)
    requires n > 0 && k > 0 && n % k == 0
    ensures (x % n) % k == x % k
  {
    var c, q, r := n / k, x / n, x % n;
    assert n == c * k && x == q * n + r && r == r / k * k + r % k;
    MultipleAndRest(q, r / k, r % k, c, k);
    DivUnique(x, q * c + r / k, r % k, k);
  }

  lemma TicketModulo(start: nat, m: nat, k: nat, i: nat)
    requires k > 0 && NoSeam(start, m, k) && i < m
    ensures Ticket(start, i) % k == (start + i) % k
  {
    if start + m > U64_SIZE { ModuloOfModulo(start + i, U64_SIZE, k); }
  }

  lemma {:induction false} PicksAreHits(start: nat, m: nat, n: nat, k: nat, u: nat)
    requires k > 0 && u < k && NoSeam(start, m, k) && n <= m
    ensures Picks(start, n, k, u) == Hits(start + n, k, u) - Hits(start, k, u)
    decreases n
  {
    if n > 0 {
      PicksAreHits(start, m, n - 1, k, u);
      TicketModulo(start, m, k, n - 1);
      DivModSucc(start + n - 1, k);
    }
  }

  /** A window of `m` numbers from `q1 * k + r1` to `q2 * k + r2`. */
  lemma WindowQuotients(m: int, q1: int, r1: int, q2: int, r2: int, k: int)
    requires 0 <= r1 < k && 0 <= r2 < k && m == (q2 * k + r2) - (q1 * k + r1)
    ensures m / k == (if r2 >= r1 then q2 - q1 else q2 - q1 - 1)
    ensures (m + k - 1) / k == (if r2 > r1 then q2 - q1 + 1 else q2 - q1)
  {
    var q := q2 - q1;
    assert q * k == q2 * k - q1 * k;
    assert (q - 1) * k == q * k - k && (q + 1) * k == q * k + k;
    DivUnique(m, if r2 >= r1 then q else q - 1, if r2 >= r1 then r2 - r1 else r2 - r1 + k, k);
    DivUnique(m + k - 1, if r2 > r1 then q + 1 else q, if r2 > r1 then r2 - r1 - 1 else r2 - r1 + k - 1, k);
  }

  lemma HitsAreEven(start: nat, m: nat, k: nat, u: nat)
    requires k > 0 && u < k
    ensures m / k <= Hits(start + m, k, u) - Hits(start, k, u) <= (m + k - 1) / k
  {
    WindowQuotients(m, start / k, start % k, (start + m) / k, (start + m) % k, k);
  }

  /** Fairness: consecutive tickets against the same list are spread evenly, unless the counter wraps among them and
      the list length does not divide the word size. */
  lemma RoundRobinIsFair(start: nat, m: nat, k: nat)
    requires k > 0 && NoSeam(start, m, k)
    ensures FairWindow(start, m, k)
  {
    forall u | 0 <= u < k ensures m / k <= Picks(start, m, k, u) <= (m + k - 1) / k {
      PicksAreHits(start, m, m, k, u);
      HitsAreEven(start, m, k, u);
    }
  }

  lemma {:induction false} TwoPicks(start: nat, m: nat, k: nat, u: nat, i: nat, j: nat)
    requires k > 0 && i < j < m && Ticket(start, i) % k == u && Ticket(start, j) % k == u
    ensures Picks(start, m, k, u) >= 2
  {
    if j == m - 1 { OnePick(start, m - 1, k, u, i); } else { TwoPicks(start, m - 1, k, u, i, j); }
  }

  lemma {:induction false} OnePick(start: nat, m: nat, k: nat, u: nat, i: nat)
    requires k > 0 && i < m && Ticket(start, i) % k == u
    ensures Picks(start, m, k, u) >= 1
  {
    if i != m - 1 { OnePick(start, m - 1, k, u, i); }
  }

  /** The exact condition for fairness of every window, wrap-around included: the list length divides 2^64. Otherwise
      the seam serves the first upstream twice in a window shorter than the list. */
  lemma FairForeverExactlyWhen(k: nat)
    requires k > 0
    ensures (forall start: nat, m: nat :: start < U64_SIZE ==> FairWindow(start, m, k)) <==> U64_SIZE % k == 0
  {
    if U64_SIZE % k == 0 {
      forall start: nat, m: nat | start < U64_SIZE ensures FairWindow(start, m, k) {
        RoundRobinIsFair(start, m, k);
      }
    } else {
      var r := U64_SIZE % k;
      var start := U64_SIZE - r;
      assert U64_SIZE == U64_SIZE / k * k + r;
      DivUnique(start, U64_SIZE / k, 0, k);
      if U64_SIZE / k == 0 { assert start == 0; }
      assert Ticket(start, r) == 0;
      if start < U64_SIZE {
        assert Ticket(start, 0) == start;
        TwoPicks(start, r + 1, k, 0, 0, r);
        if r + 1 < k { DivUnique(r + 1 + k - 1, 1, r, k); } else { DivUnique(r + 1 + k - 1, 1, k - 1, k); }
        assert !FairWindow(start, r + 1, k);
      }
    }
  }
}
