/** UNI ports and the services behind them: their state machines and message channels. */
module UniServices {
  import opened Basics

  datatype Internal = Created | Initialized | Disabled

  datatype DhcpState = DhcpCreated | DhcpStarted | DiscoverySent | RequestSent | AckReceived | DhcpFailed
  datatype DhcpEvent = DiscoveryOut | RequestOut | AckIn | DhcpTimeout

  datatype EapolState =
    | AuthCreated | AuthStarted | StartSent | IdentitySent | ChallengeSent | SuccessReceived | AuthFailed
  datatype EapolEvent = StartOut | IdentityOut | ChallengeOut | SuccessIn | AuthTimeout

  datatype Start = StartEapol | StartDhcp

  /** A Go channel field: nil, or open with the start messages that went through it. */
  datatype Chan = Nil | Open(sent: seq<Start>)

  datatype Config = Config(
    name: string, cTag: int, sTag: int, usCPbit: nat, usSPbit: nat, needsEapol: bool, needsDhcp: bool)

  /**
    A service.  fault: a nil channel was closed, a Go panic.  stuck: a message was sent on a nil
    channel, which blocks its sender forever.
   */
  datatype Svc = Svc(
    config: Config, internal: Internal, dhcp: DhcpState, eapol: EapolState, packetCh: Chan, channel: Chan,
    gemPort: nat, groups: Option<map<string, int>>, fault: bool, stuck: bool)

  /** `sent` are the administrative states it has reported on the channel of the ONU, true when locked. */
  datatype Uni = Uni(up: bool, sent: seq<bool>, services: seq<Svc>)

  function NewSvc(c: Config): Svc {
    Svc(c, Created, DhcpCreated, AuthCreated, Nil, Nil, 0, None, false, false)
  }

  function NewUni(cs: seq<Config>): Uni {
    Uni(false, [], seq(|cs|, k requires 0 <= k < |cs| => NewSvc(cs[k])))
  }

  // ---------------------------------------------------------------------------
  // Service steps

  function Initialize(s: Svc): Svc {
    if s.internal == Initialized then s
    else s.(internal := Initialized, packetCh := Open([]), channel := Open([]))
  }

  function Disable(s: Svc): Svc {
    if s.internal != Initialized then s
    else s.(internal := Disabled, dhcp := DhcpCreated, eapol := AuthCreated,
            fault := s.fault || s.packetCh.Nil? || s.channel.Nil?,
            packetCh := Nil, channel := Nil, gemPort := 0, groups := None)
  }

  predicate CanStartDhcp(d: DhcpState) {
    d == DhcpCreated || d == AckReceived || d == DhcpFailed
  }

  predicate CanStartAuth(e: EapolState) {
    e == AuthCreated || e == SuccessReceived || e == AuthFailed
  }

  /** The start_dhcp event: its before callback sends on the service channel. */
  function BeginDhcp(s: Svc): Svc {
    if !CanStartDhcp(s.dhcp) then s
    else if s.channel.Nil? then s.(stuck := true)
    else s.(channel := Open(s.channel.sent + [StartDhcp]), dhcp := DhcpStarted)
  }

  function BeginAuth(s: Svc): Svc {
    if !CanStartAuth(s.eapol) then s
    else if s.channel.Nil? then s.(stuck := true)
    else s.(channel := Open(s.channel.sent + [StartEapol]), eapol := AuthStarted)
  }

  function NextDhcp(d: DhcpState, e: DhcpEvent): DhcpState {
    match (d, e)
    case (DhcpStarted, DiscoveryOut) => DiscoverySent
    case (DiscoverySent, RequestOut) => RequestSent
    case (RequestSent, AckIn) => AckReceived
    case (_, DhcpTimeout) => if d == DhcpStarted || d == DiscoverySent || d == RequestSent then DhcpFailed else d
    case _ => d
  }

  function NextEapol(x: EapolState, e: EapolEvent): EapolState {
    match (x, e)
    case (AuthStarted, StartOut) => StartSent
    case (StartSent, IdentityOut) => IdentitySent
    case (IdentitySent, ChallengeOut) => ChallengeSent
    case (ChallengeSent, SuccessIn) => SuccessReceived
    case (_, AuthTimeout) =>
      if x == AuthStarted || x == StartSent || x == IdentitySent || x == ChallengeSent then AuthFailed else x
    case _ => x
  }

  const DPU_MGMT := "DPU_MGMT_TRAFFIC"

  /** Whether a DHCP trap flow with this priority and VLAN is for the service; priority 255 matches all. */
  predicate Matches(c: Config, pbit: nat, vid: int) {
    var tag := if c.name == DPU_MGMT then c.sTag else c.cTag;
    var p := if c.name == DPU_MGMT then c.usSPbit else c.usCPbit;
    tag == vid && (p == pbit || pbit == 255)
  }

  function HandleDhcp(s: Svc, pbit: nat, vid: int): Svc {
    if Matches(s.config, pbit, vid) && s.config.needsDhcp then BeginDhcp(s) else s
  }

  function HandleAuth(s: Svc): Svc {
    if s.config.needsEapol then BeginAuth(s) else s
  }

  function RestartOne(s: Svc): Svc {
    if s.config.needsDhcp then BeginDhcp(s) else s
  }

  const EAPOL_TYPE := 0x888E
  const IPV4_TYPE := 0x0800

  function AddGem(s: Svc, gem: nat, ethType: nat, oVlan: int, iVlan: int): Svc {
    if || (ethType == EAPOL_TYPE && s.config.needsEapol)
       || (ethType == IPV4_TYPE && s.config.needsDhcp && s.config.cTag == oVlan)
       || (s.config.cTag == iVlan && s.config.sTag == oVlan)
    then s.(gemPort := gem) else s
  }

  function AddGroup(s: Svc, addr: string, ctag: int): Svc {
    s.(groups := Some((if s.groups.Some? then s.groups.value else map[])[addr := ctag]))
  }

  function RemoveGroup(s: Svc, addr: string): Svc {
    if s.groups.None? then s else s.(groups := Some(s.groups.value - {addr}))
  }

  // ---------------------------------------------------------------------------
  // UNI steps and runs

  datatype Action =
    | EnableUni
    | DisableUni
    | RestartDhcp
    | TrapDhcp(pbit: nat, vid: int)
    | TrapEapol
    | StoreGem(gem: nat, ethType: nat, oVlan: int, iVlan: int)
    | DhcpStep(k: nat, dhcp: DhcpEvent)
    | EapolStep(k: nat, eapol: EapolEvent)
    | Join(k: nat, addr: string, ctag: int)
    | Leave(k: nat, addr: string)

  /** What an action does to service k of a UNI. */
  function Act(s: Svc, k: nat, up: bool, a: Action): Svc {
    match a
    case EnableUni => if up then s else Initialize(s)
    case DisableUni => if up then Disable(s) else s
    case RestartDhcp => if up then RestartOne(s) else s
    case TrapDhcp(pbit, vid) => HandleDhcp(s, pbit, vid)
    case TrapEapol => HandleAuth(s)
    case StoreGem(gem, ethType, oVlan, iVlan) => AddGem(s, gem, ethType, oVlan, iVlan)
    case DhcpStep(q, e) => if q == k then s.(dhcp := NextDhcp(s.dhcp, e)) else s
    case EapolStep(q, e) => if q == k then s.(eapol := NextEapol(s.eapol, e)) else s
    case Join(q, addr, ctag) => if q == k then AddGroup(s, addr, ctag) else s
    case Leave(q, addr) => if q == k then RemoveGroup(s, addr) else s
  }

  function Step(u: Uni, a: Action): Uni {
    Uni(if a.EnableUni? then true else if a.DisableUni? then false else u.up,
        if a.EnableUni? && !u.up then u.sent + [false] else if a.DisableUni? && u.up then u.sent + [true] else u.sent,
        seq(|u.services|, k requires 0 <= k < |u.services| => Act(u.services[k], k, u.up, a)))
  }

  function Run(u: Uni, run: seq<Action>): Uni {
    if run == [] then u else Step(Run(u, run[..|run| - 1]), run[|run| - 1])
  }

  /**
    A service of a UNI that is up is initialized and has both channels; one of a UNI that is down
    has neither and has not started DHCP or authentication; no nil channel was ever closed.
   */
  predicate InStep(s: Svc, up: bool) {
    && (s.internal == Initialized <==> up)
    && (s.packetCh.Open? <==> up) && (s.channel.Open? <==> up)
    && (!up ==> s.dhcp == DhcpCreated && s.eapol == AuthCreated)
    && !s.fault
  }

  predicate Lockstep(u: Uni) {
    forall k: nat | k < |u.services| :: InStep(u.services[k], u.up)
  }

  lemma ActKeepsInStep(s: Svc, k: nat, up: bool, a: Action)
    requires InStep(s, up)
    ensures InStep(Act(s, k, up, a), if a.EnableUni? then true else if a.DisableUni? then false else up)
  {
  }

  /** In every run of UNI and service operations, from creation, UNI and services stay in lockstep. */
  lemma {:induction false} RunKeepsLockstep(cs: seq<Config>, run: seq<Action>)
    ensures |Run(NewUni(cs), run).services| == |cs|
    ensures Lockstep(Run(NewUni(cs), run))
  {
    if run != [] {
      var before := run[..|run| - 1];
      RunKeepsLockstep(cs, before);
      var u, a := Run(NewUni(cs), before), run[|run| - 1];
      forall k: nat | k < |u.services|
        ensures InStep(Step(u, a).services[k], Step(u, a).up)
      {
        ActKeepsInStep(u.services[k], k, u.up, a);
      }
    }
  }

  /** A UNI with services is up exactly when all of them are initialized. */
  lemma UpIffAllInitialized(cs: seq<Config>, run: seq<Action>)
    requires cs != []
    ensures var u := Run(NewUni(cs), run);
            u.up <==> forall k: nat | k < |u.services| :: u.services[k].internal == Initialized
  {
    RunKeepsLockstep(cs, run);
    var u := Run(NewUni(cs), run);
    assert InStep(u.services[0], u.up);
  }

  /** A UNI reports unlocked and locked in turn, beginning with unlocked, and last what it is now. */
  lemma {:induction false} ReportsAlternate(cs: seq<Config>, run: seq<Action>)
    ensures var u := Run(NewUni(cs), run);
            (u.up <==> |u.sent| % 2 == 1) && forall k | 0 <= k < |u.sent| :: u.sent[k] <==> k % 2 == 1
  {
    if run != [] {
      ReportsAlternate(cs, run[..|run| - 1]);
    }
  }

  /** An action blocks on a service without a channel exactly when it is a trap flow for a UNI that is down. */
  predicate Blocks(c: Config, up: bool, a: Action) {
    !up &&
    match a
    case TrapDhcp(pbit, vid) => Matches(c, pbit, vid) && c.needsDhcp
    case TrapEapol => c.needsEapol
    case _ => false
  }

  /**
    After any run, an action blocks on a service exactly when Blocks says so.  In particular
    RestartDhcp, which looks at the UNI only, never sends on a missing channel.
   */
  lemma StuckIff(cs: seq<Config>, run: seq<Action>, a: Action, k: nat)
    requires k < |cs|
    ensures |Run(NewUni(cs), run).services| == |cs|
    ensures var u := Run(NewUni(cs), run);
            Act(u.services[k], k, u.up, a).stuck <==> u.services[k].stuck || Blocks(u.services[k].config, u.up, a)
  {
    RunKeepsLockstep(cs, run);
    var u := Run(NewUni(cs), run);
    assert InStep(u.services[k], u.up);
  }

  /** Restarting DHCP starts it on exactly the services that need it and are not in the middle of it. */
  lemma RestartStarts(cs: seq<Config>, run: seq<Action>, k: nat)
    requires k < |cs|
    ensures |Run(NewUni(cs), run).services| == |cs|
    ensures var u := Run(NewUni(cs), run);
            var s, s' := u.services[k], Step(u, RestartDhcp).services[k];
            && s'.stuck == s.stuck && s'.fault == s.fault
            && (u.up && s.config.needsDhcp && CanStartDhcp(s.dhcp) ==>
                  s'.dhcp == DhcpStarted && s'.channel == Open(s.channel.sent + [StartDhcp]))
            && (!(u.up && s.config.needsDhcp && CanStartDhcp(s.dhcp)) ==> s' == s)
  {
    RunKeepsLockstep(cs, run);
    var u := Run(NewUni(cs), run);
    assert InStep(u.services[k], u.up);
  }

  /** Disabling and enabling again leaves a service as good as new, apart from sends that already blocked. */
  lemma DisableForgets(cs: seq<Config>, run: seq<Action>, k: nat)
    requires k < |cs|
    ensures |Run(NewUni(cs), run).services| == |cs|
    ensures var u := Run(NewUni(cs), run);
            var s := u.services[k];
            u.up ==> Disable(s) == NewSvc(s.config).(internal := Disabled, stuck := s.stuck)
    ensures var u := Run(NewUni(cs), run);
            var s := u.services[k];
            u.up ==> Initialize(Disable(s)) == Initialize(NewSvc(s.config)).(stuck := s.stuck)
  {
    RunKeepsLockstep(cs, run);
    var u := Run(NewUni(cs), run);
    assert InStep(u.services[k], u.up);
  }

  // Group addresses ---------------------------------------------------------------

  /** The state after the first n operations of a run. */
  function After(cs: seq<Config>, run: seq<Action>, n: nat): Uni
    requires n <= |run|
  {
    Run(NewUni(cs), run[..n])
  }

  predicate HasGroup(s: Svc, addr: string, ctag: int) {
    s.groups.Some? && addr in s.groups.value && s.groups.value[addr] == ctag
  }

  /** Operation m is about the address, or disables the UNI while it is up. */
  predicate Replaces(cs: seq<Config>, run: seq<Action>, m: nat, k: nat, addr: string)
    requires m < |run|
  {
    || (run[m].Join? && run[m].k == k && run[m].addr == addr)
    || run[m] == Leave(k, addr)
    || (run[m].DisableUni? && After(cs, run, m).up)
  }

  /** Operation n joins the group and nothing up to operation `to` replaces that. */
  ghost predicate LastJoin(cs: seq<Config>, run: seq<Action>, n: nat, to: nat, k: nat, addr: string, ctag: int)
    requires to <= |run|
  {
    n < to && run[n] == Join(k, addr, ctag) && forall m: nat | n < m < to :: !Replaces(cs, run, m, k, addr)
  }

  lemma GroupStep(cs: seq<Config>, run: seq<Action>, n: nat, k: nat, addr: string, ctag: int)
    requires n < |run| && k < |cs|
    ensures |After(cs, run, n).services| == |cs| && |After(cs, run, n + 1).services| == |cs|
    ensures HasGroup(After(cs, run, n + 1).services[k], addr, ctag) <==>
              if Replaces(cs, run, n, k, addr) then run[n] == Join(k, addr, ctag)
              else HasGroup(After(cs, run, n).services[k], addr, ctag)
  {
    assert run[..n + 1][..n] == run[..n];
    RunKeepsLockstep(cs, run[..n]);
    RunKeepsLockstep(cs, run[..n + 1]);
    var u := After(cs, run, n);
    assert InStep(u.services[k], u.up);
    assert After(cs, run, n + 1) == Step(u, run[n]);
  }

  /**
    After every run a service has a group address with a tag exactly when the last operation on
    that address, or disabling of the UNI, was a join with that tag.
   */
  lemma {:induction false} GroupAddressIff(
      cs: seq<Config>, run: seq<Action>, to: nat, k: nat, addr: string, ctag: int)
    requires to <= |run| && k < |cs|
    ensures |After(cs, run, to).services| == |cs|
    ensures HasGroup(After(cs, run, to).services[k], addr, ctag) <==>
              exists n: nat :: LastJoin(cs, run, n, to, k, addr, ctag)
  {
    hide Replaces;
    hide HasGroup;
    if to == 0 {
      assert run[..0] == [];
      NewHasNoGroup(cs, k, addr, ctag);
    } else {
      var last := to - 1;
      GroupAddressIff(cs, run, last, k, addr, ctag);
      GroupStep(cs, run, last, k, addr, ctag);
      JoinReplaces(cs, run, last, k, addr, ctag);
      if run[last] == Join(k, addr, ctag) {
        assert LastJoin(cs, run, last, to, k, addr, ctag);
      } else if n: nat :| LastJoin(cs, run, n, to, k, addr, ctag) {
        assert LastJoin(cs, run, n, last, k, addr, ctag) && !Replaces(cs, run, last, k, addr);
      } else if Replaces(cs, run, last, k, addr) {
      } else if n: nat :| LastJoin(cs, run, n, last, k, addr, ctag) {
        assert LastJoin(cs, run, n, to, k, addr, ctag);
      }
    }
  }

  lemma NewHasNoGroup(cs: seq<Config>, k: nat, addr: string, ctag: int)
    requires k < |cs|
    ensures !HasGroup(NewUni(cs).services[k], addr, ctag)
  {
  }

  lemma JoinReplaces(cs: seq<Config>, run: seq<Action>, m: nat, k: nat, addr: string, ctag: int)
    requires m < |run|
    ensures run[m] == Join(k, addr, ctag) ==> Replaces(cs, run, m, k, addr)
  {
  }

  // ---------------------------------------------------------------------------
  // The objects

  class Service {
    const config: Config
    var internal: Internal
    var dhcp: DhcpState
    var eapol: EapolState
    var packetCh: Chan
    var channel: Chan
    var gemPort: nat
    var groups: Option<map<string, int>>
    var fault: bool
    var stuck: bool

    ghost function Abs(): Svc
      reads this
    {
      Svc(config, internal, dhcp, eapol, packetCh, channel, gemPort, groups, fault, stuck)
    }

    constructor (config: Config)
      ensures Abs() == NewSvc(config)
    {
      this.config, internal, dhcp, eapol := config, Created, DhcpCreated, AuthCreated;
      packetCh, channel, gemPort, groups, fault, stuck := Nil, Nil, 0, None, false, false;
    }

    method DoInitialize()
      modifies this
      ensures Abs() == Initialize(old(Abs()))
    {
      if internal == Created || internal == Disabled {
        internal := Initialized;
        packetCh := Open([]);
        channel := Open([]);
      }
    }

    method DoDisable()
      modifies this
      ensures Abs() == Disable(old(Abs()))
    {
      if internal == Initialized {
        internal := Disabled;
        eapol := AuthCreated;
        dhcp := DhcpCreated;
        if packetCh.Nil? || channel.Nil? {
          fault := true;
        }
        packetCh := Nil;
        channel := Nil;
        gemPort := 0;
        groups := None;
      }
    }

    method FireStartDhcp()
      modifies this
      ensures Abs() == BeginDhcp(old(Abs()))
    {
      if CanStartDhcp(dhcp) {
        if channel.Nil? {
          stuck := true;
        } else {
          channel := Open(channel.sent + [StartDhcp]);
          dhcp := DhcpStarted;
        }
      }
    }

    method FireStartAuth()
      modifies this
      ensures Abs() == BeginAuth(old(Abs()))
    {
      if CanStartAuth(eapol) {
        if channel.Nil? {
          stuck := true;
        } else {
          channel := Open(channel.sent + [StartEapol]);
          eapol := AuthStarted;
        }
      }
    }

    method DoHandleDhcp(pbit: nat, vid: int)
      modifies this
      ensures Abs() == HandleDhcp(old(Abs()), pbit, vid)
    {
      var compareTag, comparePbits := config.cTag, config.usCPbit;
      if config.name == DPU_MGMT {
        compareTag, comparePbits := config.sTag, config.usSPbit;
      }
      if compareTag != vid || (comparePbits != pbit && pbit != 255) {
        return;
      }
      if !config.needsDhcp {
        return;
      }
      FireStartDhcp();
    }

    method DoHandleAuth()
      modifies this
      ensures Abs() == HandleAuth(old(Abs()))
    {
      if config.needsEapol {
        FireStartAuth();
      }
    }

    method DoAddGem(gem: nat, ethType: nat, oVlan: int, iVlan: int)
      modifies this
      ensures Abs() == AddGem(old(Abs()), gem, ethType, oVlan, iVlan)
    {
      if ethType == EAPOL_TYPE && config.needsEapol {
        gemPort := gem;
      }
      if ethType == IPV4_TYPE && config.needsDhcp && config.cTag == oVlan {
        gemPort := gem;
      }
      if config.cTag == iVlan && config.sTag == oVlan {
        gemPort := gem;
      }
    }

    method AddGroupAddress(addr: string, ctag: int)
      modifies this
      ensures Abs() == AddGroup(old(Abs()), addr, ctag)
    {
      if groups.None? {
        groups := Some(map[]);
      }
      groups := Some(groups.value[addr := ctag]);
    }

    method RemoveGroupAddress(addr: string)
      modifies this
      ensures Abs() == RemoveGroup(old(Abs()), addr)
    {
      if groups.Some? {
        groups := Some(groups.value - {addr});
      }
    }
  }

  class UniPort {
    const id: nat
    const services: seq<Service>
    var up: bool
    var sent: seq<bool>

    ghost predicate Valid() {
      forall a: nat, b: nat | a < b < |services| :: services[a] != services[b]
    }

    ghost function Abs(): Uni
      reads this, services
    {
      Uni(up, sent, seq(|services|, k requires 0 <= k < |services| reads services => services[k].Abs()))
    }

    constructor (id: nat, configs: seq<Config>)
      ensures Valid() && fresh(services) && Abs() == NewUni(configs) && this.id == id
    {
      var made: seq<Service> := [];
      for k := 0 to |configs|
        invariant |made| == k && fresh(made)
        invariant forall a: nat, b: nat | a < b < k :: made[a] != made[b]
        invariant forall a: nat | a < k :: made[a].Abs() == NewSvc(configs[a])
      {
        var s := new Service(configs[k]);
        made := made + [s];
      }
      this.id, services, up, sent := id, made, false, [];
    }

    /** The services from index i on are untouched, those before have taken the action. */
    twostate predicate Done(i: nat, wasUp: bool, a: Action)
      requires i <= |services|
      reads services
    {
      && (forall k: nat | k < i :: services[k].Abs() == Act(old(services[k].Abs()), k, wasUp, a))
      && forall k: nat | i <= k < |services| :: services[k].Abs() == old(services[k].Abs())
    }

    method Enable() returns (err: bool)
      requires Valid()
      modifies this, services
      ensures Abs() == Step(old(Abs()), EnableUni) && err == old(up)
    {
      hide BeginDhcp;
      hide BeginAuth;
      hide Initialize;
      if up {
        assert Abs() == Step(old(Abs()), EnableUni);
        return true;
      }
      up := true;
      sent := sent + [false];
      for k := 0 to |services|
        invariant up && sent == old(sent) + [false] && Done(k, false, EnableUni)
      {
        services[k].DoInitialize();
      }
      assert Abs() == Step(old(Abs()), EnableUni);
      err := false;
    }

    method Disable() returns (err: bool)
      requires Valid()
      modifies this, services
      ensures Abs() == Step(old(Abs()), DisableUni) && !err
    {
      hide BeginDhcp;
      hide BeginAuth;
      hide Initialize;
      err := false;
      if !up {
        assert Abs() == Step(old(Abs()), DisableUni);
        return;
      }
      up := false;
      sent := sent + [true];
      for k := 0 to |services|
        invariant !up && sent == old(sent) + [true] && Done(k, true, DisableUni)
      {
        services[k].DoDisable();
      }
      assert Abs() == Step(old(Abs()), DisableUni);
    }

    method HandleDhcpFlow(pbit: nat, vid: int)
      requires Valid()
      modifies services
      ensures Abs() == Step(old(Abs()), TrapDhcp(pbit, vid))
    {
      hide BeginDhcp;
      hide BeginAuth;
      hide Initialize;
      for k := 0 to |services|
        invariant Done(k, up, TrapDhcp(pbit, vid))
      {
        services[k].DoHandleDhcp(pbit, vid);
      }
      assert Abs() == Step(old(Abs()), TrapDhcp(pbit, vid));
    }

    method HandleAuthFlow()
      requires Valid()
      modifies services
      ensures Abs() == Step(old(Abs()), TrapEapol)
    {
      hide BeginDhcp;
      hide BeginAuth;
      hide Initialize;
      for k := 0 to |services|
        invariant Done(k, up, TrapEapol)
      {
        services[k].DoHandleAuth();
      }
      assert Abs() == Step(old(Abs()), TrapEapol);
    }

    method AddGemPortToService(gem: nat, ethType: nat, oVlan: int, iVlan: int)
      requires Valid()
      modifies services
      ensures Abs() == Step(old(Abs()), StoreGem(gem, ethType, oVlan, iVlan))
    {
      hide BeginDhcp;
      hide BeginAuth;
      hide Initialize;
      for k := 0 to |services|
        invariant Done(k, up, StoreGem(gem, ethType, oVlan, iVlan))
      {
        services[k].DoAddGem(gem, ethType, oVlan, iVlan);
      }
      assert Abs() == Step(old(Abs()), StoreGem(gem, ethType, oVlan, iVlan));
    }

    /** One round of the loop over the UNIs in the RestartDhcp handler. */
    method RestartDhcpHere()
      requires Valid()
      modifies services
      ensures Abs() == Step(old(Abs()), RestartDhcp)
    {
      hide BeginDhcp;
      hide BeginAuth;
      hide Initialize;
      if !up {
        assert Abs() == Step(old(Abs()), RestartDhcp);
        return;
      }
      for k := 0 to |services|
        invariant Done(k, up, RestartDhcp)
      {
        if services[k].config.needsDhcp {
          services[k].FireStartDhcp();
        }
      }
      assert Abs() == Step(old(Abs()), RestartDhcp);
    }
  }
}
