/**
  The UNI ports of UniServices inside a run of the device: which steps enable and disable a port,
  and what that makes of the services behind it.
 */
module DeviceUnis {
  import opened OnuFsm
  import opened OnuModel
  import opened DeviceModel
  import opened ChannelProtocol
  import Unis = UniServices

  // ---------------------------------------------------------------------------
  // What a step asks of a port

  /** The request sets the administrative state of the port and is not skipped. */
  predicate SetsPort(o: Onu, rate: nat, u: nat) {
    && Queue(o) != [] && Queue(o)[0].OmciRequest? && Queue(o)[0].request.SetPort?
    && Queue(o)[0].request.port == u && NextCounter(o.omci.counter) <= rate
  }

  predicate SwitchesOff(o: Onu, a: OnuAction) {
    (a.FireDisable? || a.DeleteOnu? || a.DoShutdown?) && Allowed(o.state, OnuEvent.Disable)
  }

  /** The calls an entry point of the ONU makes on port u: a switch-off disables every port. */
  function OnuCalls(o: Onu, a: OnuAction, rate: nat, u: nat): seq<Unis.Action> {
    if SwitchesOff(o, a) then [Unis.DisableUni]
    else if a.DoProcess? && SetsPort(o, rate, u) then
      [if Queue(o)[0].request.lock then Unis.DisableUni else Unis.EnableUni]
    else []
  }

  function Calls(s: Olt, a: Action, p: nat, i: nat, u: nat): seq<Unis.Action>
    requires IsOnu(s, p, i)
  {
    if a.AtOnu? && a.intf == p && a.sn == i then OnuCalls(OnuAt(s, p, i), a.act, s.config.rate, u) else []
  }

  function Turned(up: bool, calls: seq<Unis.Action>): bool {
    if calls == [] then up else calls[|calls| - 1].EnableUni?
  }

  // ---------------------------------------------------------------------------
  // The ports of the device

  lemma FirePorts(c: Cell, sn: nat, e: OnuEvent, u: nat)
    requires u < |c.onu.ports|
    ensures var ports := Fire(c, sn, e).onu.ports;
            && |ports| == |c.onu.ports|
            && ports[u] == (c.onu.ports[u] && !(e.Disable? && Allowed(c.onu.state, e)))
  {
    hide PortsDown;
    hide DropSn;
    if Allowed(c.onu.state, e) && e.Disable? {
      var o := Send(c.onu.(state := OnuState.Disabled, flows := []), Indication);
      LastDown(o, |o.ports|);
    }
  }

  lemma LastDown(o: Onu, n: nat)
    requires n <= |o.ports|
    ensures forall u | 0 <= u < n :: !PortsDown(o, n).ports[u]
  {
  }

  lemma FireTwicePorts(c: Cell, sn: nat, e: OnuEvent, e': OnuEvent, u: nat)
    requires u < |c.onu.ports| && !e.Disable? && !e'.Disable?
    ensures var ports := FireTwice(c, sn, e, e').onu.ports; |ports| == |c.onu.ports| && ports[u] == c.onu.ports[u]
  {
    hide Fire;
    FirePorts(c, sn, e, u);
    FirePorts(Fire(c, sn, e), sn, e', u);
  }

  lemma PowerOnPorts(c: Cell, sn: nat, u: nat)
    requires u < |c.onu.ports|
    ensures var ports := PowerOn(c, sn).onu.ports; |ports| == |c.onu.ports| && ports[u] == c.onu.ports[u]
  {
    hide Fire;
    hide FireTwice;
    var was := c.onu.state;
    FirePorts(c, sn, Initialize, u);
    var c1 := if was.Created? || was.Disabled? then Fire(c, sn, Initialize) else c;
    var c2 := c1.(onu := Send(c1.onu, Indication));
    FireTwicePorts(c2, sn, Discover, Enable, u);
    FirePorts(c2, sn, Discover, u);
  }

  lemma ActPorts(c: Cell, pon: nat, sn: nat, a: OnuAction, del: bool, rate: nat, crc: string -> nat, u: nat)
    requires u < |c.onu.ports|
    ensures var ports := ActOnu(c, pon, sn, a, del, rate, crc).onu.ports;
            |ports| == |c.onu.ports| && ports[u] == Turned(c.onu.ports[u], OnuCalls(c.onu, a, rate, u))
  {
    hide Fire;
    hide FireTwice;
    hide HandleOmci;
    hide PowerOn;
    match a
    case DoProcess =>
      var q := Queue(c.onu);
      if q != [] && q[0].OmciRequest? {
        OmciTurns(c.(onu := c.onu.(channel := c.onu.channel.(queue := q[1..]))), pon, sn, q[0].request, rate, crc);
      }
    case DoPowerOn => PowerOnPorts(c, sn, u);
    case DoRediscover => FireTwicePorts(c, sn, Initialize, Discover, u);
    case DoShutdown =>
      FirePorts(c, sn, OnuEvent.Disable, u);
      FirePorts(c.(onu := Send(c.onu, Indication)), sn, OnuEvent.Disable, u);
    case _ => FirePorts(c, sn, OnuEvent.Disable, u);
  }

  ghost predicate SamePorts(p: Pon, p': Pon) {
    |p'.onus| == |p.onus| && forall i | 0 <= i < |p.onus| :: p'.onus[i].ports == p.onus[i].ports
  }

  lemma FireKeepsPorts(c: Cell, sn: nat, e: OnuEvent)
    requires !e.Disable?
    ensures Fire(c, sn, e).onu.ports == c.onu.ports
  {
  }

  lemma RaiseAllKeepsPorts(p: Pon, mode: Mode, src: PonState, n: nat)
    requires n <= |p.onus|
    ensures SamePorts(p, RaiseOnus(p, mode, src, n))
  {
    hide Fire;
    if n > 0 {
      RaiseAllKeepsPorts(p, mode, src, n - 1);
      var c := CellAt(RaiseOnus(p, mode, src, n - 1), n - 1);
      FireKeepsPorts(c, n - 1, Initialize);
      FireKeepsPorts(c, n - 1, Discover);
      FireKeepsPorts(c, n - 1, OnuEvent.Enable);
      FireKeepsPorts(Fire(c, n - 1, Initialize), n - 1, Discover);
    }
  }

  lemma LowerAllKeepsPorts(p: Pon, n: nat)
    requires n <= |p.onus|
    ensures SamePorts(p, LowerOnus(p, n))
  {
    hide Fire;
    if n > 0 {
      LowerAllKeepsPorts(p, n - 1);
      FireKeepsPorts(CellAt(LowerOnus(p, n - 1), n - 1), n - 1, PonDisable);
    }
  }

  lemma PonKeepsPorts(p: Pon, mode: Mode)
    ensures SamePorts(p, EnablePon(p, mode)) && SamePorts(p, DisablePon(p))
  {
    hide RaiseOnu;
    hide LowerOnu;
    RaiseAllKeepsPorts(p.(state := PonEnabled), mode, p.state, |p.onus|);
    LowerAllKeepsPorts(p.(state := PonDown), |p.onus|);
  }

  lemma ActivateKeepsPorts(s: Olt, intf: nat, onuId: nat, sn: nat, p: nat, i: nat)
    requires IsOnu(s, p, i)
    ensures var s' := ActivateStep(s, intf, onuId, sn);
            IsOnu(s', p, i) && s'.config == s.config && OnuAt(s', p, i).ports == OnuAt(s, p, i).ports
  {
    hide Fire;
    if IsOnu(s, intf, sn) {
      var c := CellAt(s.pons[intf], sn);
      FireKeepsPorts(c.(onu := c.onu.(id := onuId)), sn, OnuEvent.Enable);
    }
  }

  lemma OltStepKeepsPorts(s: Olt, e: OltTransition, p: nat, i: nat)
    requires IsOnu(s, p, i)
    ensures var s' := OltStep(s, e);
            IsOnu(s', p, i) && s'.config == s.config && OnuAt(s', p, i).ports == OnuAt(s, p, i).ports
  {
  }

  lemma ActStepPorts(s: Olt, intf: nat, sn: nat, a: OnuAction, crc: string -> nat, p: nat, i: nat, u: nat)
    requires IsOnu(s, intf, sn) && IsOnu(s, p, i) && u < |OnuAt(s, p, i).ports|
    ensures var c := CellAt(s.pons[intf], sn);
            var s' := SetCell(s, intf, sn, ActOnu(c, intf, sn, a, s.state.OltDeleted?, s.config.rate, crc));
            && IsOnu(s', p, i) && |OnuAt(s', p, i).ports| == |OnuAt(s, p, i).ports|
            && OnuAt(s', p, i).ports[u] == Turned(OnuAt(s, p, i).ports[u], Calls(s, AtOnu(intf, sn, a), p, i, u))
  {
    hide ActOnu;
    hide OnuCalls;
    if intf == p && sn == i {
      ActPorts(CellAt(s.pons[p], i), p, i, a, s.state.OltDeleted?, s.config.rate, crc, u);
    }
  }

  /** A step changes a port only by the calls it makes on it. */
  lemma StepPorts(s: Olt, a: Action, crc: string -> nat, p: nat, i: nat, u: nat)
    requires IsOnu(s, p, i) && u < |OnuAt(s, p, i).ports|
    ensures var s' := Step(s, a, crc);
            && IsOnu(s', p, i) && |OnuAt(s', p, i).ports| == |OnuAt(s, p, i).ports|
            && OnuAt(s', p, i).ports[u] == Turned(OnuAt(s, p, i).ports[u], Calls(s, a, p, i, u))
  {
    hide OltStep;
    hide AddFlowStep;
    hide RemoveFlowStep;
    hide ActivateStep;
    hide ActOnu;
    hide OnuCalls;
    hide EnablePon;
    hide DisablePon;
    hide SetCell;
    match a
    case FlowAdd(f) => AddSameOnus(s, f);
    case FlowRemove(f) => RemoveSameOnus(s, f);
    case Activate(intf, onuId, sn) => ActivateKeepsPorts(s, intf, onuId, sn, p, i);
    case PonUp(intf) => if intf < |s.pons| { PonKeepsPorts(s.pons[intf], s.config.mode); }
    case PonLow(intf) => if intf < |s.pons| { PonKeepsPorts(s.pons[intf], s.config.mode); }
    case AtOnu(intf, sn, act) => if IsOnu(s, intf, sn) { ActStepPorts(s, intf, sn, act, crc, p, i, u); }
    case OltEvent(e) => OltStepKeepsPorts(s, e, p, i);
  }

  // ---------------------------------------------------------------------------
  // The run of one port in a run of the device

  /** Operations on the services of a port; only the ONU enables or disables the port itself. */
  predicate OfServices(ops: seq<Unis.Action>) {
    forall k | 0 <= k < |ops| :: !ops[k].EnableUni? && !ops[k].DisableUni?
  }

  predicate HasPort(s: Olt, p: nat, i: nat, u: nat) {
    IsOnu(s, p, i) && u < |OnuAt(s, p, i).ports|
  }

  /** The port is there in every state. */
  ghost predicate HasPorts(states: seq<Olt>, p: nat, i: nat, u: nat) {
    forall k | 0 <= k < |states| :: HasPort(states[k], p, i, u)
  }

  /**
    Everything that happens to the port: the calls of the ONU, and before and after each step of the
    device any operations on its services.
   */
  ghost function UniRun(states: seq<Olt>, run: seq<Action>, ops: seq<seq<Unis.Action>>, p: nat, i: nat, u: nat, n: nat)
      : seq<Unis.Action>
    requires n <= |run| && |states| == |run| + 1 && |ops| == |run| + 1
    requires HasPorts(states, p, i, u)
  {
    if n == 0 then ops[0]
    else UniRun(states, run, ops, p, i, u, n - 1) + Calls(states[n - 1], run[n - 1], p, i, u) + ops[n]
  }

  lemma {:induction false} OpsKeepUp(v: Unis.Uni, ops: seq<Unis.Action>)
    requires OfServices(ops)
    ensures Unis.Run(v, ops).up == v.up
  {
    if ops != [] {
      OpsKeepUp(v, ops[..|ops| - 1]);
    }
  }

  lemma {:induction false} RunOn(v: Unis.Uni, ops: seq<Unis.Action>, more: seq<Unis.Action>)
    ensures Unis.Run(v, ops + more) == Unis.Run(Unis.Run(v, ops), more)
  {
    if more == [] {
      assert ops + more == ops;
    } else {
      var front := more[..|more| - 1];
      RunOn(v, ops, front);
      assert (ops + more)[..|ops + more| - 1] == ops + front;
    }
  }

  lemma CallsTurn(v: Unis.Uni, calls: seq<Unis.Action>)
    requires |calls| <= 1 && forall k | 0 <= k < |calls| :: calls[k].EnableUni? || calls[k].DisableUni?
    ensures Unis.Run(v, calls).up == Turned(v.up, calls)
  {
    if calls != [] {
      assert calls[..0] == [];
      assert Unis.Run(v, calls[..0]) == v;
    }
  }

  lemma {:induction false} TraceHasPort(
      states: seq<Olt>, run: seq<Action>, crc: string -> nat, p: nat, i: nat, u: nat, n: nat)
    requires Trace(states, run, crc) && n <= |run| && HasPort(states[0], p, i, u)
    ensures HasPort(states[n], p, i, u)
  {
    hide Step;
    if n > 0 {
      TraceHasPort(states, run, crc, p, i, u, n - 1);
      TraceNext(states, run, crc, n - 1);
      StepPorts(states[n - 1], run[n - 1], crc, p, i, u);
    }
  }

  /** The port of the device and the UNI that goes through its run are up at the same times. */
  lemma {:induction false} PortFollows(
      states: seq<Olt>, run: seq<Action>, crc: string -> nat, ops: seq<seq<Unis.Action>>, cs: seq<Unis.Config>,
      p: nat, i: nat, u: nat, n: nat)
    requires Trace(states, run, crc) && n <= |run| && |ops| == |run| + 1
    requires HasPorts(states, p, i, u)
    requires forall k | 0 <= k < |ops| :: OfServices(ops[k])
    requires !OnuAt(states[0], p, i).ports[u]
    ensures Unis.Run(Unis.NewUni(cs), UniRun(states, run, ops, p, i, u, n)).up == OnuAt(states[n], p, i).ports[u]
  {
    hide Step;
    hide Unis.Step;
    hide OnuCalls;
    var v := Unis.NewUni(cs);
    if n == 0 {
      OpsKeepUp(v, ops[0]);
    } else {
      PortFollows(states, run, crc, ops, cs, p, i, u, n - 1);
      TraceNext(states, run, crc, n - 1);
      StepPorts(states[n - 1], run[n - 1], crc, p, i, u);
      var before, calls := UniRun(states, run, ops, p, i, u, n - 1), Calls(states[n - 1], run[n - 1], p, i, u);
      OneCall(states[n - 1], run[n - 1], p, i, u);
      RunOn(v, before, calls);
      RunOn(v, before + calls, ops[n]);
      CallsTurn(Unis.Run(v, before), calls);
      OpsKeepUp(Unis.Run(v, before + calls), ops[n]);
    }
  }

  lemma OneCall(s: Olt, a: Action, p: nat, i: nat, u: nat)
    requires IsOnu(s, p, i)
    ensures var calls := Calls(s, a, p, i, u);
            |calls| <= 1 && forall k | 0 <= k < |calls| :: calls[k].EnableUni? || calls[k].DisableUni?
  {
  }

  // ---------------------------------------------------------------------------
  // The theorems on the device

  /**
    After every run of a created device, whatever was done to the services in between, a service is
    initialized and has its two channels exactly when its port is up.
   */
  lemma DeviceLockstep(
      pons: nat, onus: nat, ports: nat, config: Config, cs: seq<Unis.Config>,
      states: seq<Olt>, run: seq<Action>, crc: string -> nat, ops: seq<seq<Unis.Action>>,
      p: nat, i: nat, u: nat, n: nat)
    requires Trace(states, run, crc) && states[0] == NewOlt(pons, onus, ports, config)
    requires p < pons && i < onus && u < ports && n <= |run|
    requires |ops| == |run| + 1 && forall k | 0 <= k < |ops| :: OfServices(ops[k])
    ensures HasPorts(states, p, i, u)
    ensures var v := Unis.Run(Unis.NewUni(cs), UniRun(states, run, ops, p, i, u, n));
            && |v.services| == |cs|
            && forall k: nat | k < |cs| :: Unis.InStep(v.services[k], OnuAt(states[n], p, i).ports[u])
  {
    hide Step;
    hide UniRun;
    hide Unis.InStep;
    hide Unis.Run;
    assert HasPort(states[0], p, i, u) && !OnuAt(states[0], p, i).ports[u];
    forall k | 0 <= k < |states|
      ensures HasPort(states[k], p, i, u)
    {
      TraceHasPort(states, run, crc, p, i, u, k);
    }
    PortFollows(states, run, crc, ops, cs, p, i, u, n);
    Unis.RunKeepsLockstep(cs, UniRun(states, run, ops, p, i, u, n));
  }

  /**
    Switching an ONU off takes down every service behind it: while the ONU is disabled no service is
    initialized, none has a channel, and none is in the middle of DHCP or authentication, provided no
    port unlock was pending at the switch-off.
   */
  lemma OffServices(
      pons: nat, onus: nat, ports: nat, config: Config, cs: seq<Unis.Config>,
      states: seq<Olt>, run: seq<Action>, crc: string -> nat, ops: seq<seq<Unis.Action>>,
      p: nat, i: nat, u: nat, n: nat, k: nat)
    requires Trace(states, run, crc) && states[0] == NewOlt(pons, onus, ports, config)
    requires p < pons && i < onus && u < ports && n <= |run| && k < |cs|
    requires |ops| == |run| + 1 && forall j | 0 <= j < |ops| :: OfServices(ops[j])
    requires QuietRun(states, run, true)
    ensures HasPorts(states, p, i, u)
    ensures var v := Unis.Run(Unis.NewUni(cs), UniRun(states, run, ops, p, i, u, n));
            && |v.services| == |cs|
            && (OnuAt(states[n], p, i).state.Disabled? ==>
                  var s := v.services[k];
                  && s.internal != Unis.Initialized && s.packetCh.Nil? && s.channel.Nil?
                  && s.dhcp == Unis.DhcpCreated && s.eapol == Unis.AuthCreated)
  {
    hide Step;
    hide UniRun;
    hide Unis.Run;
    hide QuietRun;
    DeviceLockstep(pons, onus, ports, config, cs, states, run, crc, ops, p, i, u, n);
    NewOltProper(pons, onus, ports, config, true);
    RunKeepsProper(states, run, crc, n, true);
    assert HasPort(states[n], p, i, u) && ProperPon(states[n].pons[p], true);
    assert Proper(OnuAt(states[n], p, i), true);
  }
}
