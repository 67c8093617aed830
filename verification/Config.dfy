/** The configuration pipeline: synthesis of the newer fields, validation, registration in the store. */
module Config {
  import opened Models
  import opened Store
  import opened Backoff
  import opened World
  import opened RecoveryInvariant
  import opened SystemInvariant

  // ---- synthesis of one service -------------------------------------------

  function AddressFault(svc: ServiceConfig): Option<ConfigFault> {
    if svc.upstreams != [] || (svc.host.Some? && svc.port.Some?) then None
    else if svc.host.None? && svc.port.None? then Some(NoAddress(svc.id))
    else Some(HalfAddress(svc.id))
  }

  function RestartFault(r: RestartConfig, id: string): Option<ConfigFault> {
    match r.mode
    case DockerMode => if r.docker.None? then Some(DockerBlockMissing(id)) else None
    case ManualMode => if r.command.None? then Some(CommandMissing(id)) else None
    case NoneMode => None
  }

  function RestartFromCommand(command: Option<string>): RestartConfig {
    match command
    case Some(c) => RestartConfig(ManualMode, Some(c), None)
    case None => RestartConfig(NoneMode, None, None)
  }

  function WithUpstreams(svc: ServiceConfig): ServiceConfig {
    if svc.upstreams == [] && svc.host.Some? && svc.port.Some?
    then svc.(upstreams := [UpstreamConfig(svc.host.value, svc.port.value, None)]) else svc
  }

  function WithRestart(svc: ServiceConfig): ServiceConfig {
    if svc.restart.None? then svc.(restart := Some(RestartFromCommand(svc.command))) else svc
  }

  /** The service as synthesis leaves it; without an address it is left as it was. */
  function Synthesized(svc: ServiceConfig): ServiceConfig {
    if AddressFault(svc).Some? then svc else WithRestart(WithUpstreams(svc))
  }

  function SynthesisFault(svc: ServiceConfig): Option<ConfigFault> {
    if AddressFault(svc).Some? then AddressFault(svc)
    else RestartFault(WithRestart(svc).restart.value, svc.id)
  }

  /** Synthesis succeeds exactly for a service that has an address and, if it brings a restart block, a complete one. A
      missing address is reported before an incomplete restart block. */
  lemma SynthesisSucceedsWhen(svc: ServiceConfig)
    ensures SynthesisFault(svc) == None <==>
      && (svc.upstreams != [] || (svc.host.Some? && svc.port.Some?))
      && (svc.restart.Some? ==>
            && (svc.restart.value.mode == ManualMode ==> svc.restart.value.command.Some?)
            && (svc.restart.value.mode == DockerMode ==> svc.restart.value.docker.Some?))
    ensures SynthesisFault(svc) == Some(NoAddress(svc.id))
      <==> svc.upstreams == [] && svc.host == None && svc.port == None
    ensures SynthesisFault(svc) == Some(HalfAddress(svc.id))
      <==> svc.upstreams == [] && svc.host.Some? != svc.port.Some?
    ensures SynthesisFault(svc).Some? ==>
      SynthesisFault(svc).value
        in {NoAddress(svc.id), HalfAddress(svc.id), CommandMissing(svc.id), DockerBlockMissing(svc.id)}
    ensures SynthesisFault(svc) == Some(CommandMissing(svc.id)) ==>
      svc.restart.Some? && svc.restart.value.mode == ManualMode
    ensures SynthesisFault(svc) == Some(DockerBlockMissing(svc.id)) ==>
      svc.restart.Some? && svc.restart.value.mode == DockerMode
  {
  }

  /** Doing it again changes nothing; explicit fields are never overwritten; nothing but the two fields is touched; and
      a legacy command is what a manual restart runs. */
  lemma SynthesisIsSafe(svc: ServiceConfig)
    requires SynthesisFault(svc) == None
    ensures SynthesisFault(Synthesized(svc)) == None && Synthesized(Synthesized(svc)) == Synthesized(svc)
    ensures svc.upstreams != [] ==> Synthesized(svc).upstreams == svc.upstreams
    ensures svc.restart.Some? ==> Synthesized(svc).restart == svc.restart
    ensures Synthesized(svc).(upstreams := svc.upstreams, restart := svc.restart) == svc
    ensures svc.restart == None && svc.command.Some? ==>
      TargetOf(Synthesized(svc).restart.value, true) == Shell(svc.command.value)
    ensures ValidService(svc.id, Synthesized(svc))
  {
  }

  /** What synthesis puts where nothing was configured. Without a restart block: mode "none" exactly if there is no
      command, with nothing in it; otherwise manual mode with that command and no Docker block. Without upstreams:
      the configured host and port, and no container. */
  lemma SynthesisFillsIn(svc: ServiceConfig)
    requires SynthesisFault(svc) == None
    ensures svc.restart == None ==>
      && Synthesized(svc).restart.Some?
      && var r := Synthesized(svc).restart.value;
         && (r.mode == NoneMode <==> svc.command == None)
         && (svc.command == None ==> r.command == None && r.docker == None)
         && (svc.command.Some? ==> r.mode == ManualMode && r.command == svc.command && r.docker == None)
    ensures svc.upstreams == [] ==>
      && |Synthesized(svc).upstreams| == 1
      && var u := Synthesized(svc).upstreams[0];
         Some(u.host) == svc.host && Some(u.port) == svc.port && u.dockerContainer == None
  {
  }

  // ---- validation of one service ------------------------------------------

  /** Unicode White_Space, as `str::trim` removes it. */
  predicate IsWhitespace(c: char) {
    var x := c as int;
    || 0x09 <= x <= 0x0D || x == 0x20 || x == 0x85 || x == 0xA0 || x == 0x1680
    || 0x2000 <= x <= 0x200A || x == 0x2028 || x == 0x2029 || x == 0x202F || x == 0x205F || x == 0x3000
  }

  predicate IsBlank(s: string) { forall i :: 0 <= i < |s| ==> IsWhitespace(s[i]) }

  /** The 25 characters that trimming removes: tab to carriage return, space, next line, no-break space, the Ogham
      space mark, the spaces of the General Punctuation block, its line and paragraph separators, the narrow no-break
      space, the medium mathematical space and the ideographic space. */
  const WHITESPACE: string :=
    "\U{9}\U{A}\U{B}\U{C}\U{D}\U{20}\U{85}\U{A0}\U{1680}" +
    "\U{2000}\U{2001}\U{2002}\U{2003}\U{2004}\U{2005}\U{2006}\U{2007}\U{2008}\U{2009}\U{200A}" +
    "\U{2028}\U{2029}\U{202F}\U{205F}\U{3000}"

  /** A key is blank exactly if it has no character but these; the empty key is. */
  lemma BlankExactlyWhen(key: string)
    ensures IsBlank(key) <==> forall i :: 0 <= i < |key| ==> key[i] in WHITESPACE
    ensures IsBlank("") && IsBlank(" ") && !IsBlank("a")
  {
    assert "a"[0] == 'a';
  }

  /** Letters and digits of any script and case, as the caller's character table says, and the hyphen. */
  predicate IsId(id: string, alphanumeric: char -> bool) {
    forall i :: 0 <= i < |id| ==> alphanumeric(id[i]) || id[i] == '-'
  }

  predicate IdTaken(services: seq<ServiceConfig>, n: nat, id: string)
    requires n <= |services|
  {
    exists j :: 0 <= j < n && services[j].id == id
  }

  function FirstZeroPort(us: seq<UpstreamConfig>): (k: nat)
    ensures k <= |us|
    ensures forall j :: 0 <= j < k ==> us[j].port != 0
    ensures k < |us| ==> us[k].port == 0
  {
    if us == [] || us[0].port == 0 then 0 else 1 + FirstZeroPort(us[1..])
  }

  /** The first complaint about service `i`, in the order in which the rules are applied. */
  function ServiceFault(services: seq<ServiceConfig>, i: nat, alphanumeric: char -> bool): Option<ConfigFault>
    requires i < |services|
  {
    var svc := services[i];
    if !IsId(svc.id, alphanumeric) then Some(BadServiceId(svc.id))
    else if IdTaken(services, i, svc.id) then Some(DuplicateServiceId(svc.id))
    else if svc.healthCheck.kind == Http && svc.healthCheck.httpPath.None? then Some(HttpPathMissing(svc.id))
    else
      var k := FirstZeroPort(svc.upstreams);
      if k < |svc.upstreams| then Some(ZeroUpstreamPort(svc.id, svc.upstreams[k].host)) else None
  }

  function FaultFrom(services: seq<ServiceConfig>, i: nat, alphanumeric: char -> bool): Option<ConfigFault>
    requires i <= |services|
    decreases |services| - i
  {
    if i == |services| then None
    else if ServiceFault(services, i, alphanumeric).Some? then ServiceFault(services, i, alphanumeric)
    else FaultFrom(services, i + 1, alphanumeric)
  }

  function ConfigFaultOf(c: VelaConfig, alphanumeric: char -> bool): Option<ConfigFault> {
    if IsBlank(c.apiKey) then Some(EmptyApiKey)
    else if c.services == [] then Some(NoServices)
    else FaultFrom(c.services, 0, alphanumeric)
  }

  ghost predicate UniqueIds(services: seq<ServiceConfig>) {
    forall i, j :: 0 <= i < j < |services| ==> services[i].id != services[j].id
  }

  /** The rules, without an order. */
  ghost predicate ServiceRules(svc: ServiceConfig, alphanumeric: char -> bool) {
    && IsId(svc.id, alphanumeric)
    && (svc.healthCheck.kind == Http ==> svc.healthCheck.httpPath.Some?)
    && (forall k :: 0 <= k < |svc.upstreams| ==> svc.upstreams[k].port != 0)
  }

  lemma {:induction false} NoFaultFrom(services: seq<ServiceConfig>, i: nat, alphanumeric: char -> bool)
    requires i <= |services|
    ensures FaultFrom(services, i, alphanumeric) == None <==>
      forall k :: i <= k < |services| ==>
        ServiceRules(services[k], alphanumeric) && !IdTaken(services, k, services[k].id)
    decreases |services| - i
  {
    if i < |services| {
      NoFaultFrom(services, i + 1, alphanumeric);
      var zero := FirstZeroPort(services[i].upstreams);
      assert ServiceFault(services, i, alphanumeric) == None
        <==> ServiceRules(services[i], alphanumeric) && !IdTaken(services, i, services[i].id);
    }
  }

  /** Validation accepts exactly the configurations that keep all the rules; in particular ids are unique. */
  lemma ValidationAcceptsWhen(c: VelaConfig, alphanumeric: char -> bool)
    ensures ConfigFaultOf(c, alphanumeric) == None <==>
      && !IsBlank(c.apiKey) && c.services != [] && UniqueIds(c.services)
      && forall k :: 0 <= k < |c.services| ==> ServiceRules(c.services[k], alphanumeric)
  {
    NoFaultFrom(c.services, 0, alphanumeric);
    if UniqueIds(c.services) {
      assert forall k :: 0 <= k < |c.services| ==> !IdTaken(c.services, k, c.services[k].id);
    } else {
      var i, j :| 0 <= i < j < |c.services| && c.services[i].id == c.services[j].id;
      assert IdTaken(c.services, j, c.services[j].id);
    }
  }

  /** The ids that the error message asks for. */
  predicate IsLowercaseId(id: string) {
    forall i :: 0 <= i < |id| ==> 'a' <= id[i] <= 'z' || '0' <= id[i] <= '9' || id[i] == '-'
  }

  /** The check is the one that its message describes exactly if the character table knows no other letter or digit;
      with an upper-case letter in the table, an id of just that letter is accepted. The empty id always is. */
  lemma IdsAreLowercaseExactlyWhen(alphanumeric: char -> bool)
    ensures (forall id :: IsId(id, alphanumeric) ==> IsLowercaseId(id))
      <==> forall c :: alphanumeric(c) ==> 'a' <= c <= 'z' || '0' <= c <= '9' || c == '-'
    ensures (forall c :: alphanumeric(c) <==> 'a' <= c <= 'z' || '0' <= c <= '9') ==>
      forall id :: IsId(id, alphanumeric) <==> IsLowercaseId(id)
    ensures alphanumeric('A') ==> IsId("A", alphanumeric) && !IsLowercaseId("A")
    ensures IsId("", alphanumeric)
  {
    assert "A"[0] == 'A';
    if forall id :: IsId(id, alphanumeric) ==> IsLowercaseId(id) {
      forall c | alphanumeric(c) ensures 'a' <= c <= 'z' || '0' <= c <= '9' || c == '-' {
        assert IsId([c], alphanumeric) && [c][0] == c;
      }
    }
  }

  /** The fault is true of service `k`, and the rules that are applied to it earlier are kept. */
  ghost predicate FaultHolds(services: seq<ServiceConfig>, k: nat, fault: ConfigFault, alphanumeric: char -> bool) {
    && k < |services|
    && var svc := services[k];
       match fault
       case BadServiceId(id) => id == svc.id && !IsId(id, alphanumeric)
       case DuplicateServiceId(id) =>
         id == svc.id && IsId(id, alphanumeric) && exists j :: 0 <= j < k && services[j].id == id
       case HttpPathMissing(id) =>
         && id == svc.id && IsId(id, alphanumeric) && !IdTaken(services, k, id)
         && svc.healthCheck == HealthCheckConfig(Http, None)
       case ZeroUpstreamPort(id, host) =>
         && id == svc.id && IsId(id, alphanumeric) && !IdTaken(services, k, id)
         && svc.healthCheck != HealthCheckConfig(Http, None)
         && exists m :: FirstZeroAt(svc.upstreams, m, host)
       case _ => false
  }

  /** Upstream `m` is the first with port zero, and this is its host. */
  ghost predicate FirstZeroAt(us: seq<UpstreamConfig>, m: int, host: string) {
    0 <= m < |us| && us[m].port == 0 && us[m].host == host && forall j :: 0 <= j < m ==> us[j].port != 0
  }

  lemma ServiceFaultHolds(services: seq<ServiceConfig>, k: nat, alphanumeric: char -> bool)
    requires k < |services| && ServiceFault(services, k, alphanumeric).Some?
    ensures FaultHolds(services, k, ServiceFault(services, k, alphanumeric).value, alphanumeric)
  {
    var us, m := services[k].upstreams, FirstZeroPort(services[k].upstreams);
    var fault := ServiceFault(services, k, alphanumeric).value;
    if fault.ZeroUpstreamPort? { assert FirstZeroAt(us, m, fault.host); }
  }

  /** What validation reports is true, and it is about the first service that breaks a rule, and the first rule. */
  lemma {:induction false} ReportedFaultHolds(services: seq<ServiceConfig>, i: nat, alphanumeric: char -> bool)
      returns (k: nat)
    requires i <= |services| && FaultFrom(services, i, alphanumeric).Some?
    ensures i <= k && FaultHolds(services, k, FaultFrom(services, i, alphanumeric).value, alphanumeric)
    ensures forall j :: i <= j < k ==> ServiceRules(services[j], alphanumeric) && !IdTaken(services, j, services[j].id)
    decreases |services| - i
  {
    if ServiceFault(services, i, alphanumeric).Some? {
      k := i;
      ServiceFaultHolds(services, i, alphanumeric);
    } else {
      k := ReportedFaultHolds(services, i + 1, alphanumeric);
      assert FirstZeroPort(services[i].upstreams) == |services[i].upstreams|;
    }
    hide FaultHolds;
  }

  /** The key is looked at first, then whether there is any service. */
  lemma FirstComplaint(c: VelaConfig, alphanumeric: char -> bool)
    ensures ConfigFaultOf(c, alphanumeric) == Some(EmptyApiKey) <==> IsBlank(c.apiKey)
    ensures ConfigFaultOf(c, alphanumeric) == Some(NoServices) <==> !IsBlank(c.apiKey) && c.services == []
  {
    if !IsBlank(c.apiKey) && FaultFrom(c.services, 0, alphanumeric).Some? {
      var k := ReportedFaultHolds(c.services, 0, alphanumeric);
    }
  }

  // ---- the pipeline as the program runs it --------------------------------

  /** Synthesis stopped at service `i` with this error. */
  ghost predicate SynthesisStoppedAt(before: seq<ServiceConfig>, after: seq<ServiceConfig>, i: int, error: VelaError) {
    && 0 <= i < |before| == |after|
    && (forall k :: 0 <= k < i ==> SynthesisFault(before[k]) == None && after[k] == Synthesized(before[k]))
    && SynthesisFault(before[i]).Some? && error == ConfigValidation(SynthesisFault(before[i]).value)
    && after[i] == Synthesized(before[i])
    && (forall k :: i < k < |before| ==> after[k] == before[k])
  }

  /** What a loaded configuration guarantees. */
  ghost predicate Loaded(services: seq<ServiceConfig>, alphanumeric: char -> bool) {
    && services != [] && UniqueIds(services)
    && forall k :: 0 <= k < |services| ==>
         ValidService(services[k].id, services[k]) && ServiceRules(services[k], alphanumeric)
  }

  function RegisterOne(st: StoreView, svc: ServiceConfig): StoreView {
    RegisterUpstreams(RegisterService(st, svc.id), svc.id, InitialEntries(svc))
  }

  function RegisterAll(st: StoreView, services: seq<ServiceConfig>): StoreView {
    if services == [] then st
    else
      var svc := services[|services| - 1];
      RegisterOne(RegisterAll(st, services[..|services| - 1]), svc)
  }

  /** What synthesis makes of all services, where it succeeds. */
  function SynthesizeAll(services: seq<ServiceConfig>): seq<ServiceConfig> {
    seq(|services|, k requires 0 <= k < |services| => Synthesized(services[k]))
  }

  ghost predicate AllSynthesize(services: seq<ServiceConfig>) {
    forall k :: 0 <= k < |services| ==> SynthesisFault(services[k]) == None
  }

  /** What a configuration file must be for loading to succeed: every service can be synthesized, and what comes out
      keeps all the rules of validation. */
  ghost predicate Loadable(c: VelaConfig, alphanumeric: char -> bool) {
    && AllSynthesize(c.services)
    && !IsBlank(c.apiKey) && c.services != [] && UniqueIds(c.services)
    && forall k :: 0 <= k < |c.services| ==> ServiceRules(Synthesized(c.services[k]), alphanumeric)
  }

  /** Why loading failed: the first service that cannot be synthesized or, if all can, the first rule broken. */
  ghost predicate LoadFault(c: VelaConfig, alphanumeric: char -> bool, error: VelaError) {
    if AllSynthesize(c.services) then
      var fault := ConfigFaultOf(c.(services := SynthesizeAll(c.services)), alphanumeric);
      fault.Some? && error == ConfigValidation(fault.value)
    else exists i :: FirstUnsynthesizable(c.services, i, error)
  }

  ghost predicate FirstUnsynthesizable(services: seq<ServiceConfig>, i: int, error: VelaError) {
    && 0 <= i < |services|
    && (forall k :: 0 <= k < i ==> SynthesisFault(services[k]) == None)
    && SynthesisFault(services[i]).Some? && error == ConfigValidation(SynthesisFault(services[i]).value)
  }

  /** Synthesis never changes an id. */
  lemma SynthesisKeepsIds(services: seq<ServiceConfig>)
    ensures UniqueIds(SynthesizeAll(services)) <==> UniqueIds(services)
  {
    assert forall k :: 0 <= k < |services| ==> SynthesizeAll(services)[k].id == services[k].id;
  }

  class ConfigFile {
    const apiPort: Port
    const apiKey: string
    var services: seq<ServiceConfig>

    constructor (c: VelaConfig)
      ensures View() == c
    {
      apiPort, apiKey, services := c.apiPort, c.apiKey, c.services;
    }

    function View(): VelaConfig
      reads this
    {
      VelaConfig(apiPort, apiKey, services)
    }

    /** Fills in the missing fields of each service in turn. A fault stops it: the services before are done, the faulty
        one is as far as it got, the rest is untouched. */
    method Synthesize() returns (r: Result<()>)
      modifies this
      ensures |services| == |old(services)|
      ensures r.Ok? ==> forall k :: 0 <= k < |services| ==>
        SynthesisFault(old(services)[k]) == None && services[k] == Synthesized(old(services)[k])
      ensures r.Ok? ==> forall k :: 0 <= k < |services| && old(services)[k].restart == None ==>
        services[k].restart == Some(if old(services)[k].command == None then RestartConfig(NoneMode, None, None)
                                    else RestartConfig(ManualMode, old(services)[k].command, None))
      ensures r.Err? ==> exists i :: 0 <= i < |services| && SynthesisStoppedAt(old(services), services, i, r.error)
    {
      for i := 0 to |services|
        invariant |services| == |old(services)|
        invariant forall k :: 0 <= k < i ==>
          SynthesisFault(old(services)[k]) == None && services[k] == Synthesized(old(services)[k])
        invariant forall k :: i <= k < |services| ==> services[k] == old(services)[k]
      {
        var svc := services[i];
        if svc.upstreams == [] {
          match (svc.host, svc.port)
          case (Some(host), Some(port)) =>
            svc := svc.(upstreams := [UpstreamConfig(host, port, None)]);
            services := services[i := svc];
          case (None, None) =>
            assert SynthesisStoppedAt(old(services), services, i, ConfigValidation(NoAddress(svc.id)));
            return Err(ConfigValidation(NoAddress(svc.id)));
          case _ =>
            assert SynthesisStoppedAt(old(services), services, i, ConfigValidation(HalfAddress(svc.id)));
            return Err(ConfigValidation(HalfAddress(svc.id)));
        }
        if svc.restart.None? {
          svc := svc.(restart := Some(match svc.command
                                      case Some(command) => RestartConfig(ManualMode, Some(command), None)
                                      case None => RestartConfig(NoneMode, None, None)));
          services := services[i := svc];
        }
        var fault := RestartFault(svc.restart.value, svc.id);
        if fault.Some? {
          assert SynthesisStoppedAt(old(services), services, i, ConfigValidation(fault.value));
          return Err(ConfigValidation(fault.value));
        }
      }
      return Ok(());
    }

    method Validate(alphanumeric: char -> bool) returns (r: Result<()>)
      ensures r == match ConfigFaultOf(View(), alphanumeric)
                   case None => Ok(())
                   case Some(fault) => Err(ConfigValidation(fault))
    {
      if IsBlank(apiKey) { return Err(ConfigValidation(EmptyApiKey)); }
      if services == [] { return Err(ConfigValidation(NoServices)); }
      var seenIds: set<string> := {};
      for i := 0 to |services|
        invariant forall id :: id in seenIds <==> IdTaken(services, i, id)
        invariant FaultFrom(services, 0, alphanumeric) == FaultFrom(services, i, alphanumeric)
      {
        var svc := services[i];
        if !IsId(svc.id, alphanumeric) { return Err(ConfigValidation(BadServiceId(svc.id))); }
        if svc.id in seenIds { return Err(ConfigValidation(DuplicateServiceId(svc.id))); }
        seenIds := seenIds + {svc.id};
        assert forall id :: IdTaken(services, i + 1, id) <==> IdTaken(services, i, id) || svc.id == id;
        if svc.healthCheck.kind == Http && svc.healthCheck.httpPath.None? {
          return Err(ConfigValidation(HttpPathMissing(svc.id)));
        }
        for k := 0 to |svc.upstreams|
          invariant forall j :: 0 <= j < k ==> svc.upstreams[j].port != 0
        {
          if svc.upstreams[k].port == 0 {
            assert FirstZeroPort(svc.upstreams) == k;
            return Err(ConfigValidation(ZeroUpstreamPort(svc.id, svc.upstreams[k].host)));
          }
        }
      }
      return Ok(());
    }

    /** Loading after the text was parsed: synthesis, then validation. It succeeds exactly for a loadable file. */
    method Load(alphanumeric: char -> bool) returns (r: Result<()>)
      modifies this
      ensures r.Ok? <==> Loadable(old(View()), alphanumeric)
      ensures r.Ok? ==> Loaded(services, alphanumeric) && services == SynthesizeAll(old(services))
      ensures r.Err? ==> LoadFault(old(View()), alphanumeric, r.error)
    {
      r := Synthesize();
      if r.Err? {
        ghost var i :| 0 <= i < |services| && SynthesisStoppedAt(old(services), services, i, r.error);
        assert FirstUnsynthesizable(old(services), i, r.error);
        return;
      }
      assert services == SynthesizeAll(old(services));
      SynthesisKeepsIds(old(services));
      forall k | 0 <= k < |services| ensures ValidService(services[k].id, services[k]) {
        SynthesisIsSafe(old(services)[k]);
      }
      r := Validate(alphanumeric);
      ValidationAcceptsWhen(View(), alphanumeric);
    }

    /** Registers every service and its upstreams. */
    method RegisterServices(store: VelaState)
      modifies store
      ensures store.View() == RegisterAll(old(store.View()), services)
      ensures store.eventTx == old(store.eventTx)
    {
      for i := 0 to |services|
        invariant store.View() == RegisterAll(old(store.View()), services[..i])
        invariant store.eventTx == old(store.eventTx)
      {
        store.Register(services[i].id);
        store.RegisterServiceUpstreams(services[i].id, InitialEntries(services[i]));
        assert services[..i + 1][..i] == services[..i];
      }
      assert services[..|services|] == services;
    }
  }

  // ---- the system's initial invariant -------------------------------------

  /** The lookup table of the engines: services by id, a later one in place of an earlier one. */
  function ServiceMap(services: seq<ServiceConfig>): map<string, ServiceConfig> {
    if services == [] then map[]
    else ServiceMap(services[..|services| - 1])[services[|services| - 1].id := services[|services| - 1]]
  }

  ghost predicate IsConfigured(services: seq<ServiceConfig>, id: string, cfg: ServiceConfig) {
    cfg in services && cfg.id == id
  }

  /** With unique ids the table holds every service, and nothing else. */
  lemma {:induction false} ServiceMapMeaning(services: seq<ServiceConfig>)
    requires UniqueIds(services)
    ensures forall k :: 0 <= k < |services| ==>
      services[k].id in ServiceMap(services) && ServiceMap(services)[services[k].id] == services[k]
    ensures forall id :: id in ServiceMap(services) ==> IsConfigured(services, id, ServiceMap(services)[id])
  {
    if services != [] {
      var n := |services| - 1;
      ServiceMapMeaning(services[..n]);
      forall id | id in ServiceMap(services) ensures IsConfigured(services, id, ServiceMap(services)[id]) {
        if id == services[n].id {
          assert services[n] == ServiceMap(services)[id];
        } else {
          assert IsConfigured(services[..n], id, ServiceMap(services[..n])[id]);
        }
      }
    }
  }

  ghost predicate SameDomain(st: StoreView, ids: set<string>) {
    st.services.Keys == st.upstreamStates.Keys == st.healthRecords.Keys == st.restartRecords.Keys
      == st.alertRecords.Keys == ids
  }

  ghost predicate IsFresh(st: StoreView, id: string, cfg: ServiceConfig) {
    && Registered(st, id) && id in st.alertRecords && st.alertRecords[id] == []
    && DataOf(st, id) == ServiceData(InitialService(id), InitialEntries(cfg), [], [])
  }

  lemma RegisterOneIsLocal(st: StoreView, svc: ServiceConfig, ids: set<string>, other: string, cfg: ServiceConfig)
    requires SameDomain(st, ids)
    ensures SameDomain(RegisterOne(st, svc), ids + {svc.id})
    ensures IsFresh(RegisterOne(st, svc), svc.id, svc)
    ensures other != svc.id && IsFresh(st, other, cfg) ==> IsFresh(RegisterOne(st, svc), other, cfg)
  {
  }

  /** After registration all maps of the store know the same services, each in its initial state. */
  lemma {:induction false} RegisteredStoreMeaning(services: seq<ServiceConfig>)
    ensures SameDomain(RegisterAll(EMPTY, services), ServiceMap(services).Keys)
    ensures forall id :: id in ServiceMap(services) ==>
      IsFresh(RegisterAll(EMPTY, services), id, ServiceMap(services)[id])
  {
    if services != [] {
      var front, svc := services[..|services| - 1], services[|services| - 1];
      RegisteredStoreMeaning(front);
      hide SameDomain;
      hide IsFresh;
      hide RegisterOne;
      forall id | id in ServiceMap(services)
        ensures SameDomain(RegisterAll(EMPTY, services), ServiceMap(services).Keys)
        ensures IsFresh(RegisterAll(EMPTY, services), id, ServiceMap(services)[id])
      {
        assert ServiceMap(services).Keys == ServiceMap(front).Keys + {svc.id};
        RegisterOneIsLocal(RegisterAll(EMPTY, front), svc, ServiceMap(front).Keys, id, ServiceMap(services)[id]);
      }
      assert svc.id in ServiceMap(services);
    }
  }

  /** A loaded and registered configuration is the start of the system: it is valid, the registered data is that of the
      initial state, and the initial state satisfies the invariant of every run. */
  lemma LoadedConfigStartsTheSystem(services: seq<ServiceConfig>, alphanumeric: char -> bool, docker: bool, clock: Time)
    requires Loaded(services, alphanumeric)
    requires forall k :: 0 <= k < |services| ==> BudgetFits(services[k])
    ensures var s := Setup(ServiceMap(services), docker);
      var st, w := RegisterAll(EMPTY, services), Init(s, clock);
      && ValidSystem(s) && Inv(s, w)
      && (forall id :: id in s.cfgs <==> Registered(st, id))
      && (forall id :: id in s.cfgs ==> id in w.cells && w.cells[id].data == DataOf(st, id))
      && |s.cfgs| > 0
  {
    var s := Setup(ServiceMap(services), docker);
    hide Inv;
    hide ValidSystem;
    hide RegisterAll;
    ServiceMapMeaning(services);
    RegisteredStoreMeaning(services);
    LoadedIsValid(services, alphanumeric, docker);
    assert services[0].id in s.cfgs;
    InitInv(s, clock);
  }

  lemma LoadedIsValid(services: seq<ServiceConfig>, alphanumeric: char -> bool, docker: bool)
    requires Loaded(services, alphanumeric)
    requires forall k :: 0 <= k < |services| ==> BudgetFits(services[k])
    ensures ValidSystem(Setup(ServiceMap(services), docker))
    ensures forall id :: id in ServiceMap(services) ==> ServiceMap(services)[id].id == id
  {
    ServiceMapMeaning(services);
    var s := Setup(ServiceMap(services), docker);
    forall id | id in s.cfgs ensures ValidService(id, s.cfgs[id]) && BudgetFits(s.cfgs[id]) {
      assert IsConfigured(services, id, s.cfgs[id]);
    }
  }
}
