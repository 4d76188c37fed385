/**
  What the trap flows and GEM ports of a UNI do to its services, in terms of the configuration of
  a service, and what a service in each state of DHCP and authentication has gone through.
 */
module ServiceRuns {
  import opened Basics
  import opened UniServices

  // ---------------------------------------------------------------------------
  // Trap flows

  /** The management service is known by its outer tag, every other one by its inner tag. */
  predicate TrapsDhcp(c: Config, pbit: nat, vid: int) {
    && c.needsDhcp
    && if c.name == "DPU_MGMT_TRAFFIC" then c.sTag == vid && (pbit == 255 || pbit == c.usSPbit)
       else c.cTag == vid && (pbit == 255 || pbit == c.usCPbit)
  }

  lemma {:induction false} ConfigStays(cs: seq<Config>, run: seq<Action>, k: nat)
    requires k < |cs|
    ensures |Run(NewUni(cs), run).services| == |cs| && Run(NewUni(cs), run).services[k].config == cs[k]
  {
    RunKeepsLockstep(cs, run);
    if run != [] {
      ConfigStays(cs, run[..|run| - 1], k);
      RunKeepsLockstep(cs, run[..|run| - 1]);
    }
  }

  /**
    After any run, a DHCP trap flow starts DHCP on exactly the services it is for that are not in the
    middle of it; on a UNI that is down the start blocks.
   */
  lemma TrapDhcpStarts(cs: seq<Config>, run: seq<Action>, pbit: nat, vid: int, k: nat)
    requires k < |cs|
    ensures |Run(NewUni(cs), run).services| == |cs|
    ensures var u := Run(NewUni(cs), run);
            var s, s' := u.services[k], Step(u, TrapDhcp(pbit, vid)).services[k];
            var starts :=
              TrapsDhcp(cs[k], pbit, vid) && (s.dhcp.DhcpCreated? || s.dhcp.AckReceived? || s.dhcp.DhcpFailed?);
            && (starts && u.up ==>
                  s.channel.Open? && s' == s.(dhcp := DhcpStarted, channel := Open(s.channel.sent + [StartDhcp])))
            && (starts && !u.up ==> s' == s.(stuck := true))
            && (!starts ==> s' == s)
  {
    ConfigStays(cs, run, k);
    RunKeepsLockstep(cs, run);
    var u := Run(NewUni(cs), run);
    assert InStep(u.services[k], u.up);
  }

  lemma TrapEapolStarts(cs: seq<Config>, run: seq<Action>, k: nat)
    requires k < |cs|
    ensures |Run(NewUni(cs), run).services| == |cs|
    ensures var u := Run(NewUni(cs), run);
            var s, s' := u.services[k], Step(u, TrapEapol).services[k];
            var starts := cs[k].needsEapol && (s.eapol.AuthCreated? || s.eapol.SuccessReceived? || s.eapol.AuthFailed?);
            && (starts && u.up ==>
                  s.channel.Open? && s' == s.(eapol := AuthStarted, channel := Open(s.channel.sent + [StartEapol])))
            && (starts && !u.up ==> s' == s.(stuck := true))
            && (!starts ==> s' == s)
  {
    ConfigStays(cs, run, k);
    RunKeepsLockstep(cs, run);
    var u := Run(NewUni(cs), run);
    assert InStep(u.services[k], u.up);
  }

  // ---------------------------------------------------------------------------
  // GEM ports

  /**
    The GEM port of a flow is for a service that needs what the flow traps, authentication, or DHCP
    on its inner tag, or that has both tags of a data flow.
   */
  predicate IsFor(c: Config, a: Action) {
    a.StoreGem? &&
    (|| (a.ethType == 0x888E && c.needsEapol)
     || (a.ethType == 0x0800 && c.needsDhcp && a.oVlan == c.cTag)
     || (a.oVlan == c.sTag && a.iVlan == c.cTag))
  }

  predicate Forgets(cs: seq<Config>, run: seq<Action>, m: nat)
    requires m < |run|
  {
    run[m].DisableUni? && After(cs, run, m).up
  }

  /** Operation n gave the service its GEM port, and none up to `to` gave it another or disabled the UNI. */
  ghost predicate LastGem(cs: seq<Config>, run: seq<Action>, n: nat, to: nat, k: nat)
    requires k < |cs| && to <= |run|
  {
    n < to && IsFor(cs[k], run[n]) && forall m: nat | n < m < to :: !IsFor(cs[k], run[m]) && !Forgets(cs, run, m)
  }

  /** What was given before was forgotten since. */
  ghost predicate NoGem(cs: seq<Config>, run: seq<Action>, to: nat, k: nat)
    requires k < |cs| && to <= |run|
  {
    forall n: nat :: !LastGem(cs, run, n, to, k)
  }

  lemma AfterNext(cs: seq<Config>, run: seq<Action>, n: nat)
    requires n < |run|
    ensures After(cs, run, n + 1) == Step(After(cs, run, n), run[n])
  {
    assert run[..n + 1][..n] == run[..n];
  }

  lemma GemStep(cs: seq<Config>, run: seq<Action>, n: nat, k: nat)
    requires n < |run| && k < |cs|
    ensures |After(cs, run, n).services| == |cs| && |After(cs, run, n + 1).services| == |cs|
    ensures After(cs, run, n + 1).services[k].gemPort ==
              if IsFor(cs[k], run[n]) then run[n].gem
              else if Forgets(cs, run, n) then 0
              else After(cs, run, n).services[k].gemPort
  {
    AfterNext(cs, run, n);
    ConfigStays(cs, run[..n], k);
    RunKeepsLockstep(cs, run[..n]);
    RunKeepsLockstep(cs, run[..n + 1]);
    var u := After(cs, run, n);
    assert InStep(u.services[k], u.up);
  }

  lemma LastGemNext(cs: seq<Config>, run: seq<Action>, n: nat, m: nat, k: nat)
    requires n < |run| && k < |cs|
    ensures LastGem(cs, run, m, n + 1, k) <==>
              || (m == n && IsFor(cs[k], run[n]))
              || (LastGem(cs, run, m, n, k) && !IsFor(cs[k], run[n]) && !Forgets(cs, run, n))
  {
    hide IsFor;
    hide Forgets;
  }

  /**
    After every run a service has the GEM port of the last flow that was for it, or 0 when there was
    none since its UNI was last disabled.
   */
  lemma {:induction false} GemIsLast(cs: seq<Config>, run: seq<Action>, to: nat, k: nat, n: nat)
    requires k < |cs| && to <= |run|
    ensures |After(cs, run, to).services| == |cs|
    ensures LastGem(cs, run, n, to, k) ==> After(cs, run, to).services[k].gemPort == run[n].gem
    ensures NoGem(cs, run, to, k) ==> After(cs, run, to).services[k].gemPort == 0
  {
    hide IsFor;
    hide Forgets;
    hide LastGem;
    RunKeepsLockstep(cs, run[..to]);
    if to == 0 {
      assert run[..0] == [];
      LastGemNone(cs, run, n, k);
    } else {
      var l := to - 1;
      GemIsLast(cs, run, l, k, n);
      GemStep(cs, run, l, k);
      LastGemNext(cs, run, l, n, k);
      if NoGem(cs, run, to, k) {
        LastGemNext(cs, run, l, l, k);
        assert !LastGem(cs, run, l, to, k);
        forall m: nat
          ensures LastGem(cs, run, m, l, k) ==> Forgets(cs, run, l)
        {
          LastGemNext(cs, run, l, m, k);
          assert !LastGem(cs, run, m, to, k);
        }
      }
    }
  }

  lemma LastGemNone(cs: seq<Config>, run: seq<Action>, n: nat, k: nat)
    requires k < |cs|
    ensures !LastGem(cs, run, n, 0, k)
  {
  }

  // ---------------------------------------------------------------------------
  // DHCP and authentication exchanges

  /** How far the exchange has come since it was started: -1 when none is under way or complete. */
  function Rank(s: Svc, auth: bool): int {
    if auth then
      match s.eapol
      case AuthStarted => 0
      case StartSent => 1
      case IdentitySent => 2
      case ChallengeSent => 3
      case SuccessReceived => 4
      case _ => -1
    else
      match s.dhcp
      case DhcpStarted => 0
      case DiscoverySent => 1
      case RequestSent => 2
      case AckReceived => 3
      case _ => -1
  }

  function Top(auth: bool): nat {
    if auth then 4 else 3
  }

  /** The messages of the exchange, in order. */
  function Due(k: nat, r: nat, auth: bool): Action
    requires r < Top(auth)
  {
    if auth then
      if r == 0 then EapolStep(k, StartOut)
      else if r == 1 then EapolStep(k, IdentityOut)
      else if r == 2 then EapolStep(k, ChallengeOut)
      else EapolStep(k, SuccessIn)
    else if r == 0 then DhcpStep(k, DiscoveryOut)
    else if r == 1 then DhcpStep(k, RequestOut)
    else DhcpStep(k, AckIn)
  }

  function Timeout(k: nat, auth: bool): Action {
    if auth then EapolStep(k, AuthTimeout) else DhcpStep(k, DhcpTimeout)
  }

  /** An operation that may start the exchange. */
  predicate MayStart(a: Action, auth: bool) {
    if auth then a.TrapEapol? else a.TrapDhcp? || a.RestartDhcp?
  }

  /** An exchange goes on only by its next message, ends by a timeout or with the UNI, or begins anew. */
  lemma RankStep(s: Svc, k: nat, up: bool, a: Action, auth: bool)
    requires InStep(s, up)
    ensures var r, r' := Rank(s, auth), Rank(Act(s, k, up, a), auth);
            && (0 <= r < Top(auth) && a == Due(k, r, auth) ==> r' == r + 1)
            && (0 <= r < Top(auth) && a == Timeout(k, auth) ==> r' == -1)
            && (a.DisableUni? ==> r' == -1)
            && (r' != r && r' != -1 && r' != 0 ==> 0 <= r < Top(auth) && r' == r + 1 && a == Due(k, r, auth))
            && (r' == 0 && r != 0 ==> MayStart(a, auth) && up)
            && (r' == -1 && r != -1 ==> a.DisableUni? || (r < Top(auth) && a == Timeout(k, auth)))
  {
  }

  predicate Begins(cs: seq<Config>, run: seq<Action>, m: nat, k: nat, auth: bool)
    requires m < |run| && k < |cs| == |After(cs, run, m).services| == |After(cs, run, m + 1).services|
  {
    Rank(After(cs, run, m).services[k], auth) != 0 && Rank(After(cs, run, m + 1).services[k], auth) == 0
  }

  ghost predicate Sized(cs: seq<Config>, run: seq<Action>) {
    forall n: nat | n <= |run| :: |After(cs, run, n).services| == |cs|
  }

  lemma AllSized(cs: seq<Config>, run: seq<Action>)
    ensures Sized(cs, run)
  {
    forall n: nat | n <= |run|
      ensures |After(cs, run, n).services| == |cs|
    {
      RunKeepsLockstep(cs, run[..n]);
    }
  }

  /** The exchange began at h[0], its messages came at h[1], h[2], ..., and it has not begun anew before n. */
  ghost predicate Chain(cs: seq<Config>, run: seq<Action>, n: nat, k: nat, auth: bool, h: seq<nat>)
    requires n <= |run| && k < |cs| && Sized(cs, run)
  {
    && 0 < |h| <= Top(auth) + 1 && h[|h| - 1] < n
    && (forall i, j | 0 <= i < j < |h| :: h[i] < h[j])
    && (forall i | 0 <= i < |h| :: h[i] < n)
    && Begins(cs, run, h[0], k, auth)
    && (forall i | 1 <= i < |h| :: run[h[i]] == Due(k, i - 1, auth))
    && forall m: nat | h[0] < m < n :: !Begins(cs, run, m, k, auth)
  }

  /** The exchange has come as far as its state says, by its messages in their order. */
  ghost predicate WentThrough(cs: seq<Config>, run: seq<Action>, n: nat, k: nat, auth: bool)
    requires n <= |run| && k < |cs| && Sized(cs, run)
  {
    var r := Rank(After(cs, run, n).services[k], auth);
    r >= 0 ==> exists h: seq<nat> :: |h| == r + 1 && Chain(cs, run, n, k, auth, h)
  }

  lemma ChainStays(cs: seq<Config>, run: seq<Action>, n: nat, k: nat, auth: bool, h: seq<nat>)
    requires n < |run| && k < |cs| && Sized(cs, run)
    requires Chain(cs, run, n, k, auth, h) && !Begins(cs, run, n, k, auth)
    ensures Chain(cs, run, n + 1, k, auth, h)
  {
    hide Begins;
  }

  lemma ChainGrows(cs: seq<Config>, run: seq<Action>, n: nat, k: nat, auth: bool, h: seq<nat>)
    requires n < |run| && k < |cs| && Sized(cs, run)
    requires Chain(cs, run, n, k, auth, h) && !Begins(cs, run, n, k, auth)
    requires |h| <= Top(auth) && run[n] == Due(k, |h| - 1, auth)
    ensures Chain(cs, run, n + 1, k, auth, h + [n])
  {
    hide Begins;
  }

  /**
    After every run a service whose DHCP is acknowledged has, since DHCP last began, sent a
    discovery, then a request, and then got the acknowledgement, and one that is authenticated has
    gone through its four messages; in every other state it has gone through as much as it says.
   */
  lemma {:induction false} ExchangeInOrder(cs: seq<Config>, run: seq<Action>, n: nat, k: nat, auth: bool)
    requires n <= |run| && k < |cs|
    ensures Sized(cs, run) && WentThrough(cs, run, n, k, auth)
  {
    hide Begins;
    hide Due;
    AllSized(cs, run);
    if n == 0 {
      assert run[..0] == [];
    } else {
      var l := n - 1;
      ExchangeInOrder(cs, run, l, k, auth);
      AfterNext(cs, run, l);
      RunKeepsLockstep(cs, run[..l]);
      var u := After(cs, run, l);
      assert InStep(u.services[k], u.up);
      RankStep(u.services[k], k, u.up, run[l], auth);
      ExchangeNext(cs, run, l, k, auth);
    }
  }

  lemma ExchangeNext(cs: seq<Config>, run: seq<Action>, l: nat, k: nat, auth: bool)
    requires l < |run| && k < |cs| && Sized(cs, run) && WentThrough(cs, run, l, k, auth)
    requires var r, r' := Rank(After(cs, run, l).services[k], auth), Rank(After(cs, run, l + 1).services[k], auth);
             r' != r && r' != -1 && r' != 0 ==> 0 <= r < Top(auth) && r' == r + 1 && run[l] == Due(k, r, auth)
    ensures WentThrough(cs, run, l + 1, k, auth)
  {
    hide Due;
    hide Chain;
    var r, r' := Rank(After(cs, run, l).services[k], auth), Rank(After(cs, run, l + 1).services[k], auth);
    if r' == 0 && r != 0 {
      ChainBegins(cs, run, l, k, auth);
    } else if r' >= 0 {
      var h: seq<nat> :| |h| == r + 1 && Chain(cs, run, l, k, auth, h);
      if r' == r {
        ChainStays(cs, run, l, k, auth, h);
      } else {
        ChainGrows(cs, run, l, k, auth, h);
        assert |h + [l]| == r' + 1;
      }
    }
  }

  lemma ChainBegins(cs: seq<Config>, run: seq<Action>, l: nat, k: nat, auth: bool)
    requires l < |run| && k < |cs| && Sized(cs, run) && Begins(cs, run, l, k, auth)
    ensures |[l]| == 1 && Chain(cs, run, l + 1, k, auth, [l])
  {
  }
}
