/**
  The message channel of an ONU is closed at most once per initialization, and nothing on
  the flow and life cycle paths is sent on it afterwards, if no flow addition is pending when
  the ONU is switched off and no flow is removed while a removal of it is pending.  If moreover
  no port unlock is pending at a switch-off, no port reports on a closed channel either.
 */
module ChannelProtocol {
  import opened FlowTables
  import opened OnuFsm
  import opened OnuModel
  import opened DeviceModel

  predicate IsUnlock(m: Message) {
    m.OmciRequest? && m.request.SetPort? && !m.request.lock
  }

  /** A message that, handled late, would give work to an ONU that is switched off. */
  predicate Wakes(m: Message, strict: bool) {
    m.AddFlow? || (strict && IsUnlock(m))
  }

  predicate Restful(q: seq<Message>, strict: bool) {
    forall k | 0 <= k < |q| :: !Wakes(q[k], strict)
  }

  /** The pending removals concern flows the ONU has, one removal for each. */
  ghost predicate Orderly(q: seq<Message>, flowIds: seq<nat>) {
    && (forall k | 0 <= k < |q| :: q[k].RemoveFlow? ==> q[k].flowId in flowIds)
    && (forall j, k | 0 <= j < k < |q| :: q[j].RemoveFlow? && q[k].RemoveFlow? ==> q[j].flowId != q[k].flowId)
  }

  predicate AllDown(ports: seq<bool>) {
    forall u | 0 <= u < |ports| :: !ports[u]
  }

  /**
    No channel operation of the flow and life cycle paths has panicked and none of those that
    are pending will; `strict` says the same of the status messages of the ports.
   */
  ghost predicate Proper(o: Onu, strict: bool) {
    && !o.channelFault && (strict ==> !o.portFault)
    && (o.channel.NoChannel? ==> o.state.Created?)
    && (Closed(o) ==> o.state.Disabled? && o.flowIds == [])
    && (o.state.Disabled? ==> Restful(Queue(o), strict) && (strict ==> AllDown(o.ports)))
    && Orderly(Queue(o), o.flowIds)
  }

  ghost predicate ProperPon(p: Pon, strict: bool) {
    forall i | 0 <= i < |p.onus| :: Proper(p.onus[i], strict)
  }

  ghost predicate ProperOlt(s: Olt, strict: bool) {
    forall p | 0 <= p < |s.pons| :: ProperPon(s.pons[p], strict)
  }

  // ---------------------------------------------------------------------------
  // One ONU

  lemma SendKeepsProper(o: Onu, m: Message, strict: bool)
    requires Proper(o, strict) && !m.RemoveFlow?
    requires !Closed(o) && (o.state.Disabled? ==> !Wakes(m, strict))
    ensures Proper(Send(o, m), strict)
  {
  }

  /** Two ONUs that differ in indications at the end of the queue and in their ports. */
  ghost predicate Padded(o: Onu, o': Onu) {
    && o' == o.(channel := o'.channel, ports := o'.ports)
    && o.channel.Channel? && o'.channel.Channel? && !o.channel.closed && !o'.channel.closed
    && |o'.ports| == |o.ports|
    && |o.channel.queue| <= |o'.channel.queue|
    && o'.channel.queue[..|o.channel.queue|] == o.channel.queue
    && forall k | |o.channel.queue| <= k < |o'.channel.queue| :: o'.channel.queue[k].Indication?
  }

  lemma PortsDownPads(o: Onu, n: nat)
    requires n <= |o.ports| && o.channel.Channel? && !o.channel.closed
    ensures Padded(o, PortsDown(o, n))
    ensures forall u | 0 <= u < n :: !PortsDown(o, n).ports[u]
  {
  }

  lemma PaddedOrderly(o: Onu, o': Onu, strict: bool)
    requires Padded(o, o') && Orderly(o.channel.queue, o.flowIds)
    ensures Orderly(o'.channel.queue, o'.flowIds)
    ensures Restful(o.channel.queue, strict) ==> Restful(o'.channel.queue, strict)
  {
    var q, q' := o.channel.queue, o'.channel.queue;
    assert forall k | 0 <= k < |q| :: q'[k] == q[k];
  }

  lemma DisableKeepsProper(c: Cell, sn: nat, strict: bool)
    requires Proper(c.onu, strict) && Allowed(c.onu.state, OnuEvent.Disable) && Restful(Queue(c.onu), strict)
    ensures Proper(Fire(c, sn, OnuEvent.Disable).onu, strict)
  {
    var o := c.onu.(state := OnuState.Disabled, flows := []);
    var o1 := Send(o, Indication);
    var o2 := PortsDown(o1, |o1.ports|);
    PortsDownPads(o1, |o1.ports|);
    assert Padded(o, o1);
    PaddedOrderly(o, o1, strict);
    PaddedOrderly(o1, o2, strict);
    assert Fire(c, sn, OnuEvent.Disable).onu == if o2.flowIds == [] then Close(o2) else o2;
  }

  lemma FireKeepsProper(c: Cell, sn: nat, e: OnuEvent, strict: bool)
    requires Proper(c.onu, strict)
    requires e.Disable? && Allowed(c.onu.state, e) ==> Restful(Queue(c.onu), strict)
    ensures Proper(Fire(c, sn, e).onu, strict)
  {
    hide Enter;
    hide PortsDown;
    if Allowed(c.onu.state, e) {
      if e.Disable? {
        DisableKeepsProper(c, sn, strict);
      } else if e.Initialize? {
        InitializeKeepsProper(c, sn, strict);
      } else {
        EnterKeepsProper(c.(onu := c.onu.(state := Target(e))), sn, strict);
      }
    }
  }

  /** The channel is made anew, whatever it was. */
  lemma InitializeKeepsProper(c: Cell, sn: nat, strict: bool)
    requires Proper(c.onu, strict) && Allowed(c.onu.state, Initialize)
    ensures Proper(Fire(c, sn, Initialize).onu, strict)
  {
    hide PortsDown;
  }

  lemma EnterKeepsProper(c: Cell, sn: nat, strict: bool)
    requires Proper(c.onu, strict) && !c.onu.state.Disabled?
    ensures Proper(Enter(c, sn).onu, strict)
  {
    hide PortsDown;
    hide DropSn;
    hide Send;
    SendKeepsProper(c.onu, Indication, strict);
  }

  lemma FireTwiceKeepsProper(c: Cell, sn: nat, e: OnuEvent, e': OnuEvent, strict: bool)
    requires Proper(c.onu, strict) && !e.Disable? && !e'.Disable?
    ensures Proper(FireTwice(c, sn, e, e').onu, strict)
  {
    FireKeepsProper(c, sn, e, strict);
    FireKeepsProper(Fire(c, sn, e), sn, e', strict);
  }

  lemma OmciKeepsProper(c: Cell, pon: nat, sn: nat, q: Request, rate: nat, crc: string -> nat, strict: bool)
    requires Proper(c.onu, strict) && (c.onu.state.Disabled? ==> !Wakes(OmciRequest(q), strict))
    ensures Proper(HandleOmci(c, pon, sn, q, rate, crc).cell.onu, strict)
  {
    hide HandleOmci;
    OmciKeeps(c, pon, sn, q, rate, crc);
    OmciTurns(c, pon, sn, q, rate, crc);
  }

  lemma ProcessKeepsProper(c: Cell, pon: nat, sn: nat, rate: nat, crc: string -> nat, strict: bool)
    requires Proper(c.onu, strict)
    ensures Proper(Process(c, pon, sn, rate, crc).onu, strict)
  {
    var q := Queue(c.onu);
    if q != [] {
      var c1 := c.(onu := c.onu.(channel := c.onu.channel.(queue := q[1..])));
      assert Queue(c1.onu) == q[1..];
      match q[0]
      case AddFlow(f) =>
        assert !c.onu.state.Disabled?;
      case RemoveFlow(x) =>
        assert x in c.onu.flowIds && !Closed(c.onu);
      case OmciRequest(r) =>
        assert c.onu.state.Disabled? ==> !Wakes(q[0], strict);
        OmciKeepsProper(c1, pon, sn, r, rate, crc, strict);
      case Indication =>
    }
  }

  lemma PowerOnKeepsProper(c: Cell, sn: nat, strict: bool)
    requires Proper(c.onu, strict)
    ensures Proper(PowerOn(c, sn).onu, strict)
  {
    var was := c.onu.state;
    var c1 := if was.Created? || was.Disabled? then Fire(c, sn, Initialize) else c;
    FireKeepsProper(c, sn, Initialize, strict);
    SendKeepsProper(c1.onu, Indication, strict);
    var c2 := c1.(onu := Send(c1.onu, Indication));
    FireKeepsProper(c2, sn, Discover, strict);
    FireTwiceKeepsProper(c2, sn, Discover, OnuEvent.Enable, strict);
  }

  /** The ONU is switched off only when nothing that would wake it is pending. */
  predicate QuietAct(o: Onu, a: OnuAction, strict: bool) {
    (a.FireDisable? || a.DeleteOnu? || a.DoShutdown?) && Allowed(o.state, OnuEvent.Disable) ==>
      Restful(Queue(o), strict)
  }

  lemma ActKeepsProper(
      c: Cell, pon: nat, sn: nat, a: OnuAction, del: bool, rate: nat, crc: string -> nat, strict: bool)
    requires Proper(c.onu, strict) && QuietAct(c.onu, a, strict)
    ensures Proper(ActOnu(c, pon, sn, a, del, rate, crc).onu, strict)
  {
    match a
    case FireDisable => FireKeepsProper(c, sn, OnuEvent.Disable, strict);
    case DeleteOnu => FireKeepsProper(c, sn, OnuEvent.Disable, strict);
    case DoRediscover =>
      FireTwiceKeepsProper(c, sn, Initialize, Discover, strict);
      if c.onu.state.Discovered? { SendKeepsProper(c.onu, Indication, strict); }
    case DoShutdown =>
      if !c.onu.state.Disabled? {
        SendKeepsProper(c.onu, Indication, strict);
        FireKeepsProper(c.(onu := Send(c.onu, Indication)), sn, OnuEvent.Disable, strict);
      }
    case DoPowerOn => PowerOnKeepsProper(c, sn, strict);
    case DoProcess => ProcessKeepsProper(c, pon, sn, rate, crc, strict);
    case OmciMsgOut(q) => if !c.onu.state.Disabled? { SendKeepsProper(c.onu, OmciRequest(q), strict); }
    case PacketOut => if c.onu.state.Enabled? { SendKeepsProper(c.onu, Indication, strict); }
    case InvalidateMds(random) =>
  }

  // ---------------------------------------------------------------------------
  // One PON

  lemma RaiseKeepsProper(c: Cell, sn: nat, mode: Mode, src: PonState, strict: bool)
    requires Proper(c.onu, strict)
    ensures Proper(RaiseOnu(c, sn, mode, src).onu, strict)
  {
    FireKeepsProper(c, sn, Initialize, strict);
    FireKeepsProper(c, sn, Discover, strict);
    FireKeepsProper(c, sn, OnuEvent.Enable, strict);
    FireTwiceKeepsProper(c, sn, Initialize, Discover, strict);
  }

  lemma RaiseAllKeepsProper(p: Pon, mode: Mode, src: PonState, n: nat, strict: bool)
    requires n <= |p.onus| && ProperPon(p, strict)
    ensures ProperPon(RaiseOnus(p, mode, src, n), strict)
  {
    if n > 0 {
      RaiseAllKeepsProper(p, mode, src, n - 1, strict);
      RaiseKeepsProper(CellAt(RaiseOnus(p, mode, src, n - 1), n - 1), n - 1, mode, src, strict);
    }
  }

  lemma LowerAllKeepsProper(p: Pon, n: nat, strict: bool)
    requires n <= |p.onus| && ProperPon(p, strict)
    ensures ProperPon(LowerOnus(p, n), strict)
  {
    if n > 0 {
      LowerAllKeepsProper(p, n - 1, strict);
      FireKeepsProper(CellAt(LowerOnus(p, n - 1), n - 1), n - 1, PonDisable, strict);
    }
  }

  lemma PonKeepsProper(p: Pon, mode: Mode, strict: bool)
    requires ProperPon(p, strict)
    ensures ProperPon(EnablePon(p, mode), strict) && ProperPon(DisablePon(p), strict)
  {
    hide Proper;
    hide RaiseOnu;
    hide LowerOnu;
    RaiseAllKeepsProper(p.(state := PonEnabled), mode, p.state, |p.onus|, strict);
    LowerAllKeepsProper(p.(state := PonDown), |p.onus|, strict);
  }

  // ---------------------------------------------------------------------------
  // The device

  /**
    No flow addition, nor with `strict` a port unlock, is pending when an ONU is switched off,
    and a flow is not removed while a removal of it is still pending.
   */
  ghost predicate Quiet(s: Olt, a: Action, strict: bool) {
    match a
    case AtOnu(intf, sn, act) => IsOnu(s, intf, sn) ==> QuietAct(OnuAt(s, intf, sn), act, strict)
    case FlowRemove(f) => forall p: nat, i: nat | IsOnu(s, p, i) :: RemoveFlow(f.flowId) !in Queue(OnuAt(s, p, i))
    case _ => true
  }

  ghost predicate QuietRun(states: seq<Olt>, run: seq<Action>, strict: bool)
    requires |states| == |run| + 1
  {
    forall i: nat | i < |run| :: Quiet(states[i], run[i], strict)
  }

  lemma SetOnuKeepsProper(s: Olt, p: nat, i: nat, c: Cell, strict: bool)
    requires ProperOlt(s, strict) && IsOnu(s, p, i) && Proper(c.onu, strict)
    ensures ProperOlt(SetCell(s, p, i, c), strict)
  {
  }

  lemma AddKeepsProper(s: Olt, f: Flow, strict: bool)
    requires ProperOlt(s, strict)
    ensures ProperOlt(AddFlowStep(s, f), strict)
  {
    hide Proper;
    hide RecordFlow;
    hide StoreResources;
    var s1 := StoreFlow(s, f);
    var p: nat := U32(f.accessIntfId);
    if f.accessIntfId != -1 && !f.multicast && p < |s.pons| {
      var i := FindOnu(s.pons[p].onus, U32(f.onuId));
      if HasOnu(s.pons[p], i) {
        var o := s.pons[p].onus[i];
        assert ProperPon(s.pons[p], strict) && Proper(o, strict);
        if !o.state.PonDisabled? && !o.state.Disabled? {
          RecordKeepsProper(s1, p, i, f.flowId, strict);
          StoreKeepsProper(RecordFlow(s1, p, i, f.flowId), f, p, i, strict);
        }
      }
    }
  }

  lemma RecordKeepsProper(s: Olt, p: nat, i: nat, key: nat, strict: bool)
    requires ProperOlt(s, strict) && IsOnu(s, p, i)
    ensures ProperOlt(RecordFlow(s, p, i, key), strict)
    ensures IsOnu(RecordFlow(s, p, i, key), p, i) && OnuAt(RecordFlow(s, p, i, key), p, i).state == OnuAt(s, p, i).state
  {
    var o := OnuAt(s, p, i);
    assert ProperPon(s.pons[p], strict) && Proper(o, strict);
    SetOnuKeepsProper(s, p, i, Cell(o.(flows := o.flows + [key]), s.pons[p].tables), strict);
  }

  lemma StoreKeepsProper(s: Olt, f: Flow, p: nat, i: nat, strict: bool)
    requires ProperOlt(s, strict) && IsOnu(s, p, i) && !OnuAt(s, p, i).state.Disabled?
    ensures ProperOlt(StoreResources(s, f, p, i), strict)
  {
    assert ProperPon(s.pons[p], strict);
    SendKeepsProper(OnuAt(s, p, i), OnuModel.AddFlow(f), strict);
    var s' := StoreResources(s, f, p, i);
    forall q | 0 <= q < |s'.pons|
      ensures ProperPon(s'.pons[q], strict)
    {
      assert ProperPon(s.pons[q], strict);
    }
  }

  lemma NotifyKeepsProper(s: Olt, f: Flow, strict: bool)
    requires ProperOlt(s, strict)
    requires forall p: nat, i: nat | IsOnu(s, p, i) :: RemoveFlow(f.flowId) !in Queue(OnuAt(s, p, i))
    ensures ProperOlt(NotifyRemoval(s, f), strict)
  {
    var found := FindByFlowId(s.pons, f.flowId);
    if !(f.accessIntfId == -1 || f.multicast) && found.Some? {
      var (p, i) := found.value;
      var o := s.pons[p].onus[i];
      assert IsOnu(s, p, i) && o == OnuAt(s, p, i);
      assert ProperPon(s.pons[p], strict) && Proper(o, strict) && !Closed(o);
      RemovalKeepsProper(o, f.flowId, strict);
      SetOnuKeepsProper(s, p, i, Cell(Send(o, RemoveFlow(f.flowId)), s.pons[p].tables), strict);
    }
  }

  lemma RemovalKeepsProper(o: Onu, x: nat, strict: bool)
    requires Proper(o, strict) && x in o.flowIds && RemoveFlow(x) !in Queue(o)
    ensures Proper(Send(o, RemoveFlow(x)), strict)
  {
    var q := Queue(o);
    assert forall k | 0 <= k < |q| && q[k].RemoveFlow? :: q[k] in q && q[k] == RemoveFlow(q[k].flowId);
    assert !Closed(o);
  }

  lemma RemoveKeepsProper(s: Olt, f: Flow, strict: bool)
    requires ProperOlt(s, strict) && Quiet(s, FlowRemove(f), strict)
    ensures ProperOlt(RemoveFlowStep(s, f), strict)
  {
    var s1 := s.(gems := Free(s.gems, f.flowId), allocs := Free(s.allocs, f.flowId));
    assert forall p: nat, i: nat | IsOnu(s1, p, i) :: IsOnu(s, p, i) && OnuAt(s1, p, i) == OnuAt(s, p, i);
    if s.config.perf {
      NotifyKeepsProper(s1, f, strict);
    } else if f.flowId in s.flows {
      var stored := s.flows[f.flowId];
      if stored.accessIntfId == -1 {
        var s2 := s1.(flows := s1.flows - {f.flowId});
        assert forall p: nat, i: nat | IsOnu(s2, p, i) :: IsOnu(s, p, i) && OnuAt(s2, p, i) == OnuAt(s, p, i);
        NotifyKeepsProper(s2, f, strict);
      } else if Owner(s, stored).Some? {
        var (p, i) := Owner(s, stored).value;
        DeleteKeepsProper(s1, p, i, f, strict);
      }
    }
  }

  lemma DeleteKeepsProper(s: Olt, p: nat, i: nat, f: Flow, strict: bool)
    requires ProperOlt(s, strict) && IsOnu(s, p, i) && Quiet(s, FlowRemove(f), strict)
    ensures ProperOlt(NotifyRemoval(DeleteFlow(s, p, i, f.flowId).(flows := s.flows - {f.flowId}), f), strict)
  {
    var o := OnuAt(s, p, i);
    assert ProperPon(s.pons[p], strict) && Proper(o, strict);
    var s1 := DeleteFlow(s, p, i, f.flowId);
    SetOnuKeepsProper(s, p, i, Cell(o.(flows := RemoveFirst(o.flows, f.flowId)), s.pons[p].tables), strict);
    var s2 := s1.(flows := s.flows - {f.flowId});
    forall q: nat, j: nat | IsOnu(s2, q, j)
      ensures RemoveFlow(f.flowId) !in Queue(OnuAt(s2, q, j))
    {
      assert IsOnu(s, q, j) && Queue(OnuAt(s2, q, j)) == Queue(OnuAt(s, q, j));
    }
    NotifyKeepsProper(s2, f, strict);
  }

  lemma ActivateKeepsProper(s: Olt, intf: nat, onuId: nat, sn: nat, strict: bool)
    requires ProperOlt(s, strict)
    ensures ProperOlt(ActivateStep(s, intf, onuId, sn), strict)
  {
    if IsOnu(s, intf, sn) && intf in s.allocs && intf in s.gems {
      var c := CellAt(s.pons[intf], sn);
      assert ProperPon(s.pons[intf], strict) && Proper(c.onu, strict);
      FireKeepsProper(c.(onu := c.onu.(id := onuId)), sn, OnuEvent.Enable, strict);
      var s1 := s.(allocs := Register(s.allocs, intf, onuId), gems := Register(s.gems, intf, onuId));
      SetOnuKeepsProper(s1, intf, sn, ActivateCell(c, sn, onuId), strict);
    }
  }

  lemma StepKeepsProper(s: Olt, a: Action, crc: string -> nat, strict: bool)
    requires ProperOlt(s, strict) && Quiet(s, a, strict)
    ensures ProperOlt(Step(s, a, crc), strict)
  {
    hide OltStep;
    hide AddFlowStep;
    hide RemoveFlowStep;
    hide ActivateStep;
    hide ActOnu;
    hide Proper;
    hide EnablePon;
    hide DisablePon;
    match a
    case FlowAdd(f) => AddKeepsProper(s, f, strict);
    case FlowRemove(f) => RemoveKeepsProper(s, f, strict);
    case Activate(intf, onuId, sn) => ActivateKeepsProper(s, intf, onuId, sn, strict);
    case PonUp(intf) => if intf < |s.pons| { PonKeepsProper(s.pons[intf], s.config.mode, strict); }
    case PonLow(intf) => if intf < |s.pons| { PonKeepsProper(s.pons[intf], s.config.mode, strict); }
    case AtOnu(intf, sn, act) =>
      if IsOnu(s, intf, sn) {
        var c := CellAt(s.pons[intf], sn);
        assert ProperPon(s.pons[intf], strict) && Proper(c.onu, strict);
        ActKeepsProper(c, intf, sn, act, s.state.OltDeleted?, s.config.rate, crc, strict);
        SetOnuKeepsProper(s, intf, sn, ActOnu(c, intf, sn, act, s.state.OltDeleted?, s.config.rate, crc), strict);
      }
    case OltEvent(e) => OltStepKeepsProper(s, e, strict);
  }

  lemma OltStepKeepsProper(s: Olt, e: OltTransition, strict: bool)
    requires ProperOlt(s, strict)
    ensures ProperOlt(OltStep(s, e), strict)
  {
    hide Proper;
  }

  /**
    In every run that respects the two rules, no flow or life cycle operation on any ONU channel
    panics; in every run that respects the third as well, no port report does.
   */
  lemma {:induction false} RunKeepsProper(states: seq<Olt>, run: seq<Action>, crc: string -> nat, n: nat, strict: bool)
    requires Trace(states, run, crc) && ProperOlt(states[0], strict) && QuietRun(states, run, strict) && n <= |run|
    ensures ProperOlt(states[n], strict)
  {
    hide Step;
    hide ProperOlt;
    hide Quiet;
    if n > 0 {
      RunKeepsProper(states, run, crc, n - 1, strict);
      TraceNext(states, run, crc, n - 1);
      StepKeepsProper(states[n - 1], run[n - 1], crc, strict);
    }
  }

  lemma NewOltProper(pons: nat, onus: nat, ports: nat, config: Config, strict: bool)
    ensures ProperOlt(NewOlt(pons, onus, ports, config), strict)
  {
  }

  /** Said of the faults: with the two rules no ONU channel ever panics, with the third no port does either. */
  lemma NoChannelPanics(
      pons: nat, onus: nat, ports: nat, config: Config,
      states: seq<Olt>, run: seq<Action>, crc: string -> nat, n: nat, p: nat, i: nat)
    requires Trace(states, run, crc) && states[0] == NewOlt(pons, onus, ports, config)
    requires QuietRun(states, run, false) && n <= |run| && IsOnu(states[n], p, i)
    ensures var o := OnuAt(states[n], p, i);
            !o.channelFault && (Closed(o) ==> o.state.Disabled? && o.flowIds == []) && Orderly(Queue(o), o.flowIds)
    ensures QuietRun(states, run, true) ==> !OnuAt(states[n], p, i).portFault
  {
    hide Step;
    NewOltProper(pons, onus, ports, config, false);
    NewOltProper(pons, onus, ports, config, true);
    RunKeepsProper(states, run, crc, n, false);
    assert ProperPon(states[n].pons[p], false);
    if QuietRun(states, run, true) {
      RunKeepsProper(states, run, crc, n, true);
      assert ProperPon(states[n].pons[p], true);
    }
  }

  // ---------------------------------------------------------------------------
  // When a port reports on a closed channel

  /** The ports of an ONU and its request counter, which decide what a port request does. */
  datatype View = View(ports: seq<bool>, counter: nat)

  function ViewOf(o: Onu): View {
    View(o.ports, o.omci.counter)
  }

  /** The request is not skipped, names a port of the ONU and changes its state. */
  predicate Toggles(v: View, m: Message, rate: nat) {
    && m.OmciRequest? && m.request.SetPort? && NextCounter(v.counter) <= rate
    && m.request.port < |v.ports| && v.ports[m.request.port] == m.request.lock
  }

  function Turn(v: View, m: Message, rate: nat): View {
    if !m.OmciRequest? then v
    else
      View(if Toggles(v, m, rate) then v.ports[m.request.port := !m.request.lock] else v.ports,
           NextCounter(v.counter))
  }

  function TurnAll(v: View, q: seq<Message>, rate: nat): (r: View)
    ensures |r.ports| == |v.ports|
  {
    if q == [] then v else Turn(TurnAll(v, q[..|q| - 1], rate), q[|q| - 1], rate)
  }

  /** The channel is as before, or open with one more indication. */
  predicate SameOrReported(o: Onu, o': Onu) {
    || o'.channel == o.channel
    || (o.channel.Channel? && !o.channel.closed &&
        o'.channel == o.channel.(queue := o.channel.queue + [Indication]))
  }

  lemma PortTurns(o: Onu, port: nat, lock: bool)
    requires port < |o.ports|
    ensures var o' := SetPortState(o, port, !lock);
            && o' == o.(ports := o'.ports, channel := o'.channel, portFault := o'.portFault)
            && o'.ports == (if o.ports[port] == lock then o.ports[port := !lock] else o.ports)
            && SameOrReported(o, o')
            && (o'.portFault <==> o.portFault || (Closed(o) && o.ports[port] == lock))
  {
  }

  lemma OmciTurns(c: Cell, pon: nat, sn: nat, q: Request, rate: nat, crc: string -> nat)
    ensures var o := HandleOmci(c, pon, sn, q, rate, crc).cell.onu;
            && ViewOf(o) == Turn(ViewOf(c.onu), OmciRequest(q), rate)
            && o.channelFault == c.onu.channelFault && SameOrReported(c.onu, o)
            && (o.portFault <==> c.onu.portFault || (Closed(c.onu) && Toggles(ViewOf(c.onu), OmciRequest(q), rate)))
  {
    hide SetPortState;
    var c1 := c.(onu := c.onu.(omci := c.onu.omci.(counter := NextCounter(c.onu.omci.counter))));
    AnswerKeepsCounter(c1, pon, sn, q, crc);
    if q.SetPort? {
      if q.port < |c.onu.ports| { PortTurns(c1.onu, q.port, q.lock); }
    } else {
      OtherTurns(c1, pon, sn, q, crc);
    }
  }

  lemma OtherTurns(c: Cell, pon: nat, sn: nat, q: Request, crc: string -> nat)
    requires !q.SetPort?
    ensures SameChannel(c.onu, Answer(c, pon, sn, q, crc).cell.onu)
  {
    hide Answer;
    if ImageRequest(q) {
      ImageAnswerKeeps(c, pon, sn, q, crc);
    } else {
      ConfigAnswerKeeps(c, pon, sn, q, crc);
    }
  }

  lemma FireKeepsPortFault(c: Cell, sn: nat, e: OnuEvent)
    requires Proper(c.onu, false)
    ensures Fire(c, sn, e).onu.portFault == c.onu.portFault
  {
    if Allowed(c.onu.state, e) && e.Disable? {
      var o := Send(c.onu.(state := OnuState.Disabled, flows := []), Indication);
      PortsDownPads(o, |o.ports|);
    }
  }

  /** The ONU is closed and its first message changes the state of a port. */
  predicate LateToggle(o: Onu, rate: nat) {
    Closed(o) && Queue(o) != [] && Toggles(ViewOf(o), Queue(o)[0], rate)
  }

  /**
    Under the two rules exactly one thing makes a port report on a closed channel: an ONU that
    was closed handles a port request that changes the state of a port.
   */
  lemma ActFaultsPortIff(c: Cell, pon: nat, sn: nat, a: OnuAction, del: bool, rate: nat, crc: string -> nat)
    requires Proper(c.onu, false) && QuietAct(c.onu, a, false)
    ensures ActOnu(c, pon, sn, a, del, rate, crc).onu.portFault <==>
              c.onu.portFault || (a.DoProcess? && LateToggle(c.onu, rate))
  {
    hide HandleOmci;
    match a
    case DoProcess =>
      var q := Queue(c.onu);
      if q != [] && q[0].OmciRequest? {
        OmciTurns(c.(onu := c.onu.(channel := c.onu.channel.(queue := q[1..]))), pon, sn, q[0].request, rate, crc);
      }
    case DoShutdown =>
      if !c.onu.state.Disabled? {
        SendKeepsProper(c.onu, Indication, false);
        FireKeepsPortFault(c.(onu := Send(c.onu, Indication)), sn, OnuEvent.Disable);
      }
    case DoPowerOn => PowerOnKeepsPortFault(c, sn);
    case DoRediscover => FireTwiceKeepsPortFault(c, sn, Initialize, Discover);
    case _ => FireKeepsPortFault(c, sn, OnuEvent.Disable);
  }

  lemma RaiseKeepsPortFault(c: Cell, sn: nat, mode: Mode, src: PonState)
    requires Proper(c.onu, false)
    ensures RaiseOnu(c, sn, mode, src).onu.portFault == c.onu.portFault
  {
    hide Fire;
    FireKeepsPortFault(c, sn, Initialize);
    FireKeepsPortFault(c, sn, Discover);
    FireKeepsPortFault(c, sn, OnuEvent.Enable);
    FireTwiceKeepsPortFault(c, sn, Initialize, Discover);
  }

  ghost predicate SamePortFaults(p: Pon, p': Pon) {
    |p'.onus| == |p.onus| && forall i | 0 <= i < |p.onus| :: p'.onus[i].portFault == p.onus[i].portFault
  }

  lemma RaiseAllKeepsPortFaults(p: Pon, mode: Mode, src: PonState, n: nat)
    requires n <= |p.onus| && ProperPon(p, false)
    ensures SamePortFaults(p, RaiseOnus(p, mode, src, n))
  {
    hide Proper;
    hide RaiseOnu;
    if n > 0 {
      RaiseAllKeepsPortFaults(p, mode, src, n - 1);
      RaiseAllKeepsProper(p, mode, src, n - 1, false);
      RaiseKeepsPortFault(CellAt(RaiseOnus(p, mode, src, n - 1), n - 1), n - 1, mode, src);
    }
  }

  lemma LowerAllKeepsPortFaults(p: Pon, n: nat)
    requires n <= |p.onus| && ProperPon(p, false)
    ensures SamePortFaults(p, LowerOnus(p, n))
  {
    hide Proper;
    hide Fire;
    if n > 0 {
      LowerAllKeepsPortFaults(p, n - 1);
      LowerAllKeepsProper(p, n - 1, false);
      FireKeepsPortFault(CellAt(LowerOnus(p, n - 1), n - 1), n - 1, PonDisable);
    }
  }

  lemma PonKeepsPortFaults(p: Pon, mode: Mode)
    requires ProperPon(p, false)
    ensures SamePortFaults(p, EnablePon(p, mode)) && SamePortFaults(p, DisablePon(p))
  {
    hide Proper;
    hide RaiseOnu;
    hide LowerOnu;
    RaiseAllKeepsPortFaults(p.(state := PonEnabled), mode, p.state, |p.onus|);
    LowerAllKeepsPortFaults(p.(state := PonDown), |p.onus|);
  }

  lemma OltStepKeepsPortFault(s: Olt, e: OltTransition, p: nat, i: nat)
    requires IsOnu(s, p, i)
    ensures IsOnu(OltStep(s, e), p, i) && OnuAt(OltStep(s, e), p, i).portFault == OnuAt(s, p, i).portFault
  {
  }

  lemma ActivateKeepsPortFault(s: Olt, intf: nat, onuId: nat, sn: nat, p: nat, i: nat)
    requires ProperOlt(s, false) && IsOnu(s, p, i)
    ensures var s' := ActivateStep(s, intf, onuId, sn);
            IsOnu(s', p, i) && OnuAt(s', p, i).portFault == OnuAt(s, p, i).portFault
  {
    hide Fire;
    hide Register;
    if IsOnu(s, intf, sn) {
      var c := CellAt(s.pons[intf], sn);
      assert ProperPon(s.pons[intf], false) && Proper(c.onu, false);
      FireKeepsPortFault(c.(onu := c.onu.(id := onuId)), sn, OnuEvent.Enable);
    }
  }

  /** A late port request is handled in this step. */
  predicate TogglesLate(s: Olt, a: Action, p: nat, i: nat) {
    a == AtOnu(p, i, DoProcess) && IsOnu(s, p, i) && LateToggle(OnuAt(s, p, i), s.config.rate)
  }

  lemma ActStepFaultsPortIff(s: Olt, intf: nat, sn: nat, a: OnuAction, crc: string -> nat, p: nat, i: nat)
    requires IsOnu(s, intf, sn) && IsOnu(s, p, i)
    requires Proper(OnuAt(s, intf, sn), false) && QuietAct(OnuAt(s, intf, sn), a, false)
    ensures var c := CellAt(s.pons[intf], sn);
            var s' := SetCell(s, intf, sn, ActOnu(c, intf, sn, a, s.state.OltDeleted?, s.config.rate, crc));
            && IsOnu(s', p, i)
            && (OnuAt(s', p, i).portFault <==>
                  OnuAt(s, p, i).portFault || TogglesLate(s, AtOnu(intf, sn, a), p, i))
  {
    hide ActOnu;
    hide Proper;
    hide QuietAct;
    hide LateToggle;
    ActFaultsPortIff(CellAt(s.pons[intf], sn), intf, sn, a, s.state.OltDeleted?, s.config.rate, crc);
  }

  lemma StepFaultsPortIff(s: Olt, a: Action, crc: string -> nat, p: nat, i: nat)
    requires ProperOlt(s, false) && Quiet(s, a, false) && IsOnu(s, p, i)
    ensures IsOnu(Step(s, a, crc), p, i)
    ensures OnuAt(Step(s, a, crc), p, i).portFault <==> OnuAt(s, p, i).portFault || TogglesLate(s, a, p, i)
  {
    hide QuietAct;
    hide OltStep;
    hide AddFlowStep;
    hide RemoveFlowStep;
    hide ActivateStep;
    hide ActOnu;
    hide Proper;
    hide EnablePon;
    hide DisablePon;
    hide LateToggle;
    hide SetCell;
    match a
    case FlowAdd(f) => AddSameOnus(s, f);
    case FlowRemove(f) => RemoveSameOnus(s, f);
    case Activate(intf, onuId, sn) => ActivateKeepsPortFault(s, intf, onuId, sn, p, i);
    case PonUp(intf) => if intf < |s.pons| { PonKeepsPortFaults(s.pons[intf], s.config.mode); }
    case PonLow(intf) => if intf < |s.pons| { PonKeepsPortFaults(s.pons[intf], s.config.mode); }
    case AtOnu(intf, sn, act) =>
      if IsOnu(s, intf, sn) {
        assert ProperPon(s.pons[intf], false) && Proper(OnuAt(s, intf, sn), false);
        ActStepFaultsPortIff(s, intf, sn, act, crc, p, i);
      }
    case OltEvent(e) => OltStepKeepsPortFault(s, e, p, i);
  }

  /** Under the two rules a port has reported on a closed channel exactly when a late request was handled. */
  lemma {:induction false} RunFaultsPortIff(
      states: seq<Olt>, run: seq<Action>, crc: string -> nat, n: nat, p: nat, i: nat)
    requires Trace(states, run, crc) && n <= |run| && QuietRun(states, run, false)
    requires ProperOlt(states[0], false) && IsOnu(states[0], p, i) && !OnuAt(states[0], p, i).portFault
    ensures IsOnu(states[n], p, i)
    ensures OnuAt(states[n], p, i).portFault <==> exists k: nat :: k < n && TogglesLate(states[k], run[k], p, i)
  {
    hide TogglesLate;
    hide Proper;
    hide Step;
    hide Quiet;
    if n > 0 {
      RunFaultsPortIff(states, run, crc, n - 1, p, i);
      RunKeepsProper(states, run, crc, n - 1, false);
      TraceNext(states, run, crc, n - 1);
      assert Quiet(states[n - 1], run[n - 1], false);
      StepFaultsPortIff(states[n - 1], run[n - 1], crc, p, i);
    }
  }

  lemma FireTwiceKeepsPortFault(c: Cell, sn: nat, e: OnuEvent, e': OnuEvent)
    requires Proper(c.onu, false) && !e.Disable? && !e'.Disable?
    ensures FireTwice(c, sn, e, e').onu.portFault == c.onu.portFault
  {
    FireKeepsProper(c, sn, e, false);
    FireKeepsPortFault(c, sn, e);
    FireKeepsPortFault(Fire(c, sn, e), sn, e');
  }

  lemma PowerOnKeepsPortFault(c: Cell, sn: nat)
    requires Proper(c.onu, false)
    ensures PowerOn(c, sn).onu.portFault == c.onu.portFault
  {
    var was := c.onu.state;
    var c1 := if was.Created? || was.Disabled? then Fire(c, sn, Initialize) else c;
    FireKeepsProper(c, sn, Initialize, false);
    FireKeepsPortFault(c, sn, Initialize);
    SendKeepsProper(c1.onu, Indication, false);
    var c2 := c1.(onu := Send(c1.onu, Indication));
    FireKeepsPortFault(c2, sn, Discover);
    FireTwiceKeepsPortFault(c2, sn, Discover, OnuEvent.Enable);
  }

  // ---------------------------------------------------------------------------
  // What an ONU does with the messages it still has when it is switched off

  /** The first n messages of the queue handled one after the other. */
  function Drain(c: Cell, pon: nat, sn: nat, rate: nat, crc: string -> nat, n: nat): Cell {
    if n == 0 then c else Process(Drain(c, pon, sn, rate, crc, n - 1), pon, sn, rate, crc)
  }

  /** The flows an ONU has, whether its channel is closed and whether closing it panicked. */
  datatype Flows = Flows(ids: seq<nat>, closed: bool, fault: bool)

  function FlowsOf(o: Onu): Flows {
    Flows(o.flowIds, Closed(o), o.channelFault)
  }

  /** A message handled by a disabled ONU: the removal that leaves no flow closes the channel. */
  function Settle(t: Flows, m: Message): Flows {
    match m
    case AddFlow(f) => t.(ids := t.ids + [f.flowId])
    case RemoveFlow(x) =>
      var ids := RemoveFirst(t.ids, x);
      if ids == [] then Flows([], true, t.fault || t.closed) else t.(ids := ids)
    case _ => t
  }

  function SettleAll(t: Flows, q: seq<Message>): Flows {
    if q == [] then t else Settle(SettleAll(t, q[..|q| - 1]), q[|q| - 1])
  }

  /** The queue holds these messages first and then nothing but indications. */
  ghost predicate Remains(o: Onu, q: seq<Message>) {
    && |q| <= |Queue(o)| && Queue(o)[..|q|] == q
    && forall k | |q| <= k < |Queue(o)| :: Queue(o)[k].Indication?
  }

  ghost predicate SwitchedOff(o: Onu) {
    o.state.Disabled? && o.channel.Channel?
  }

  ghost predicate Settled(o: Onu, o': Onu, m: Message, rate: nat) {
    && SwitchedOff(o') && FlowsOf(o') == Settle(FlowsOf(o), m) && ViewOf(o') == Turn(ViewOf(o), m, rate)
    && (o'.portFault <==> o.portFault || (Closed(o) && Toggles(ViewOf(o), m, rate)))
  }

  lemma HandleSettles(c: Cell, pon: nat, sn: nat, m: Message, rate: nat, crc: string -> nat)
    requires SwitchedOff(c.onu)
    ensures var o := HandleMessage(c, pon, sn, m, rate, crc).onu;
            Settled(c.onu, o, m, rate) && (m.OmciRequest? ==> SameOrReported(c.onu, o)) &&
            (!m.OmciRequest? ==> Queue(o) == Queue(c.onu))
  {
    hide HandleOmci;
    if m.OmciRequest? {
      OmciKeeps(c, pon, sn, m.request, rate, crc);
      OmciTurns(c, pon, sn, m.request, rate, crc);
    }
  }

  lemma ProcessSettles(c: Cell, pon: nat, sn: nat, rate: nat, crc: string -> nat, q: seq<Message>)
    requires SwitchedOff(c.onu) && q != [] && Remains(c.onu, q)
    ensures var o := Process(c, pon, sn, rate, crc).onu;
            Settled(c.onu, o, q[0], rate) && Remains(o, q[1..])
  {
    hide HandleMessage;
    hide Settle;
    hide Turn;
    hide Toggles;
    var rest := Queue(c.onu)[1..];
    assert Queue(c.onu)[0] == q[0] && rest[..|q| - 1] == q[1..];
    HandleSettles(c.(onu := c.onu.(channel := c.onu.channel.(queue := rest))), pon, sn, q[0], rate, crc);
    assert (rest + [Indication])[..|q| - 1] == q[1..];
  }

  /** A disabled ONU handles its pending messages as Settle and Turn say, whatever they are. */
  lemma {:induction false} DrainSettles(c: Cell, pon: nat, sn: nat, rate: nat, crc: string -> nat, n: nat)
    requires SwitchedOff(c.onu) && n <= |Queue(c.onu)|
    ensures var q, o := Queue(c.onu), Drain(c, pon, sn, rate, crc, n).onu;
            && SwitchedOff(o) && Remains(o, q[n..])
            && FlowsOf(o) == SettleAll(FlowsOf(c.onu), q[..n])
            && ViewOf(o) == TurnAll(ViewOf(c.onu), q[..n], rate)
  {
    hide Process;
    var q := Queue(c.onu);
    if n > 0 {
      DrainSettles(c, pon, sn, rate, crc, n - 1);
      ProcessSettles(Drain(c, pon, sn, rate, crc, n - 1), pon, sn, rate, crc, q[n - 1..]);
      assert q[..n][..n - 1] == q[..n - 1] && q[n - 1..][1..] == q[n..] && q[n - 1..][0] == q[n - 1];
    } else {
      assert q[0..] == q && q[..0] == [];
    }
  }

  /** Message k finds the channel closed and changes the state of a port. */
  predicate FaultsPort(o: Onu, q: seq<Message>, k: nat, rate: nat)
    requires k < |q|
  {
    SettleAll(FlowsOf(o), q[..k]).closed && Toggles(TurnAll(ViewOf(o), q[..k], rate), q[k], rate)
  }

  /** Draining makes a port report on the closed channel exactly when some message does so in its turn. */
  lemma {:induction false} DrainFaultsPortIff(c: Cell, pon: nat, sn: nat, rate: nat, crc: string -> nat, n: nat)
    requires SwitchedOff(c.onu) && n <= |Queue(c.onu)| && !c.onu.portFault
    ensures Drain(c, pon, sn, rate, crc, n).onu.portFault <==>
              exists k: nat :: k < n && FaultsPort(c.onu, Queue(c.onu), k, rate)
  {
    hide Process;
    if n > 0 {
      var q, d := Queue(c.onu), Drain(c, pon, sn, rate, crc, n - 1);
      DrainFaultsPortIff(c, pon, sn, rate, crc, n - 1);
      DrainSettles(c, pon, sn, rate, crc, n - 1);
      ProcessSettles(d, pon, sn, rate, crc, q[n - 1..]);
      assert q[n - 1..][0] == q[n - 1];
      assert d.onu.portFault || FaultsPort(c.onu, q, n - 1, rate) <==>
          exists k: nat :: k < n && FaultsPort(c.onu, q, k, rate);
    }
  }

  /** Message k is an unlock of an existing port that is not skipped. */
  predicate HandledUnlock(o: Onu, q: seq<Message>, k: nat, rate: nat)
    requires k < |q|
  {
    IsUnlock(q[k]) && q[k].request.port < |o.ports| && NextCounter(TurnAll(ViewOf(o), q[..k], rate).counter) <= rate
  }

  lemma {:induction false} ClosedStaysClosed(t: Flows, q: seq<Message>)
    requires t.closed
    ensures SettleAll(t, q).closed
  {
    if q != [] {
      ClosedStaysClosed(t, q[..|q| - 1]);
    }
  }

  lemma {:induction false} PortsStayDown(o: Onu, q: seq<Message>, n: nat, rate: nat)
    requires n <= |q| && AllDown(o.ports) && forall k: nat | k < n :: !HandledUnlock(o, q, k, rate)
    ensures AllDown(TurnAll(ViewOf(o), q[..n], rate).ports)
  {
    if n > 0 {
      PortsStayDown(o, q, n - 1, rate);
      assert q[..n][..n - 1] == q[..n - 1];
      assert !HandledUnlock(o, q, n - 1, rate);
    }
  }

  /**
    Why the third rule is needed: an ONU closed with its ports down makes one report exactly
    when it still has an unlock of one of its ports that the response rate does not skip.
   */
  lemma LateUnlockFaultsIff(c: Cell, pon: nat, sn: nat, rate: nat, crc: string -> nat)
    requires SwitchedOff(c.onu) && Closed(c.onu) && AllDown(c.onu.ports) && !c.onu.portFault
    ensures Drain(c, pon, sn, rate, crc, |Queue(c.onu)|).onu.portFault <==>
              exists k: nat :: k < |Queue(c.onu)| && HandledUnlock(c.onu, Queue(c.onu), k, rate)
  {
    var q := Queue(c.onu);
    DrainFaultsPortIff(c, pon, sn, rate, crc, |q|);
    if k: nat :| k < |q| && HandledUnlock(c.onu, q, k, rate) {
      var first := FirstUnlock(c.onu, q, k, rate);
      PortsStayDown(c.onu, q, first, rate);
      ClosedStaysClosed(FlowsOf(c.onu), q[..first]);
      assert FaultsPort(c.onu, q, first, rate);
    } else {
      forall k: nat | k < |q|
        ensures !FaultsPort(c.onu, q, k, rate)
      {
        PortsStayDown(c.onu, q, k, rate);
        assert !HandledUnlock(c.onu, q, k, rate);
      }
    }
  }

  ghost function FirstUnlock(o: Onu, q: seq<Message>, k: nat, rate: nat): (first: nat)
    requires k < |q| && HandledUnlock(o, q, k, rate)
    ensures first <= k && HandledUnlock(o, q, first, rate)
    ensures forall j: nat | j < first :: !HandledUnlock(o, q, j, rate)
    decreases k
  {
    if j: nat :| j < k && HandledUnlock(o, q, j, rate) then FirstUnlock(o, q, j, rate) else k
  }

  // Flows that arrive late ------------------------------------------------------

  function FlowsAfter(ids: seq<nat>, q: seq<Message>): seq<nat> {
    SettleAll(Flows(ids, false, false), q).ids
  }

  lemma {:induction false} SettledIds(t: Flows, q: seq<Message>)
    ensures SettleAll(t, q).ids == FlowsAfter(t.ids, q)
  {
    if q != [] {
      SettledIds(t, q[..|q| - 1]);
    }
  }

  /** The k-th message is a removal that leaves no flow. */
  predicate Empties(ids: seq<nat>, q: seq<Message>, k: nat)
    requires k < |q|
  {
    q[k].RemoveFlow? && FlowsAfter(ids, q[..k + 1]) == []
  }

  lemma ClosedFaultsNext(t: Flows, q: seq<Message>, n: nat)
    requires t.closed && n < |q|
    ensures SettleAll(t, q[..n + 1]).fault <==> SettleAll(t, q[..n]).fault || Empties(t.ids, q, n)
  {
    ClosedStaysClosed(t, q[..n]);
    SettledIds(t, q[..n]);
    SettledIds(t, q[..n + 1]);
    assert q[..n + 1][..n] == q[..n];
  }

  lemma {:induction false} ClosedFaultsIff(t: Flows, q: seq<Message>, n: nat)
    requires t.closed && !t.fault && n <= |q|
    ensures SettleAll(t, q[..n]).fault <==> exists k: nat :: k < n && Empties(t.ids, q, k)
  {
    hide Empties;
    if n > 0 {
      ClosedFaultsIff(t, q, n - 1);
      ClosedFaultsNext(t, q, n - 1);
    } else {
      assert q[..0] == [];
    }
  }

  /** The removal of a flow as the ONU sees it: sent when the flow is among its own. */
  function RemovalOf(o: Onu, x: nat): Onu {
    if x in o.flowIds then Send(o, RemoveFlow(x)) else o
  }

  /**
    Why the first rule is needed.  An ONU that was closed takes up the flows that are still
    pending: it closes its channel again exactly when one of its pending removals leaves no
    flow, and the next removal panics exactly for the flows it then has.
   */
  lemma LateAdditionFaultsIff(c: Cell, pon: nat, sn: nat, rate: nat, crc: string -> nat, x: nat)
    requires SwitchedOff(c.onu) && Closed(c.onu) && !c.onu.channelFault
    ensures var q := Queue(c.onu);
            var o := Drain(c, pon, sn, rate, crc, |q|).onu;
            && (o.channelFault <==> exists k: nat :: k < |q| && Empties(c.onu.flowIds, q, k))
            && (RemovalOf(o, x).channelFault <==> o.channelFault || x in FlowsAfter(c.onu.flowIds, q))
  {
    var q := Queue(c.onu);
    DrainSettles(c, pon, sn, rate, crc, |q|);
    assert q[..|q|] == q;
    ClosedFaultsIff(FlowsOf(c.onu), q, |q|);
    ClosedStaysClosed(FlowsOf(c.onu), q);
    SettledIds(FlowsOf(c.onu), q);
  }

  /** Without pending removals those flows are the ones it had and all that were pending. */
  lemma {:induction false} FlowsWithoutRemovals(ids: seq<nat>, q: seq<Message>, x: nat)
    requires forall k | 0 <= k < |q| :: !q[k].RemoveFlow?
    ensures x in FlowsAfter(ids, q) <==>
              x in ids || exists k: nat :: k < |q| && q[k].AddFlow? && q[k].flow.flowId == x
  {
    if q != [] {
      var init, last := q[..|q| - 1], q[|q| - 1];
      FlowsWithoutRemovals(ids, init, x);
      assert forall k: nat | k < |q| - 1 :: init[k] == q[k];
      if k: nat :| k < |q| && q[k].AddFlow? && q[k].flow.flowId == x {
        assert k < |q| - 1 ==> init[k].AddFlow? && init[k].flow.flowId == x;
      }
    }
  }

  // Two removals of one flow ------------------------------------------------------

  function Removals(q: seq<Message>): nat {
    if q == [] then 0 else Removals(q[..|q| - 1]) + (if q[|q| - 1].RemoveFlow? then 1 else 0)
  }

  /** A disabled ONU with orderly removals closes its channel with the last one, if that leaves no flow. */
  lemma {:induction false} OrderlySettles(ids: seq<nat>, q: seq<Message>, n: nat)
    requires Orderly(q, ids) && Restful(q, false) && n <= |q|
    ensures var t := SettleAll(Flows(ids, false, false), q[..n]);
            && |t.ids| == |ids| - Removals(q[..n]) && !t.fault
            && (t.closed <==> t.ids == [] && Removals(q[..n]) > 0)
            && forall k | n <= k < |q| :: q[k].RemoveFlow? ==> q[k].flowId in t.ids
  {
    if n > 0 {
      OrderlySettles(ids, q, n - 1);
      assert q[..n][..n - 1] == q[..n - 1];
      assert !Wakes(q[n - 1], false);
    }
  }

  /**
    Why the second rule is needed: a disabled ONU that gets a second removal of a flow closes
    its channel twice exactly when the removals it had pending cover all its flows.
   */
  lemma SecondRemovalFaultsIff(c: Cell, pon: nat, sn: nat, rate: nat, crc: string -> nat, x: nat)
    requires Proper(c.onu, false) && c.onu.state.Disabled? && RemoveFlow(x) in Queue(c.onu)
    ensures var c2 := c.(onu := Send(c.onu, RemoveFlow(x)));
            Drain(c2, pon, sn, rate, crc, |Queue(c.onu)| + 1).onu.channelFault <==>
              Removals(Queue(c.onu)) == |c.onu.flowIds|
  {
    hide Drain;
    hide SettleAll;
    hide TurnAll;
    var q := Queue(c.onu);
    var k :| 0 <= k < |q| && q[k] == RemoveFlow(x);
    assert q[k].flowId in c.onu.flowIds && !Closed(c.onu);
    var c2 := c.(onu := Send(c.onu, RemoveFlow(x)));
    var q2 := q + [RemoveFlow(x)];
    assert Queue(c2.onu) == q2 && q2[..|q2|] == q2;
    DrainSettles(c2, pon, sn, rate, crc, |q2|);
    SecondSettles(c.onu.flowIds, q, k);
  }

  lemma SecondSettles(ids: seq<nat>, q: seq<Message>, k: nat)
    requires Orderly(q, ids) && Restful(q, false) && k < |q| && q[k].RemoveFlow?
    ensures SettleAll(Flows(ids, false, false), q + [q[k]]).fault <==> Removals(q) == |ids|
  {
    var q2 := q + [q[k]];
    assert q2[..|q2| - 1] == q && q[..|q|] == q;
    OrderlySettles(ids, q, |q|);
    RemovalsPositive(q, k);
  }

  lemma {:induction false} RemovalsPositive(q: seq<Message>, k: nat)
    requires k < |q| && q[k].RemoveFlow?
    ensures Removals(q) > 0
  {
    if k < |q| - 1 {
      RemovalsPositive(q[..|q| - 1], k);
    }
  }
}
