/** The OMCI theorems hold of every ONU of a device, whatever else the device does. */
module DeviceOmci {
  import opened FlowTables
  import opened OnuFsm
  import opened OnuModel
  import opened DeviceModel
  import opened OmciRuns

  // ---------------------------------------------------------------------------
  // What leaves the OMCI state of an ONU alone

  lemma PortsDownKeepsOmci(o: Onu, n: nat)
    requires n <= |o.ports|
    ensures PortsDown(o, n).omci == o.omci
  {
  }

  lemma FireKeepsOmci(c: Cell, sn: nat, e: OnuEvent)
    ensures Fire(c, sn, e).onu.omci == c.onu.omci
  {
    hide DropSn;
    hide PortsDown;
    var o := Send(c.onu.(state := OnuState.Disabled, flows := []), Indication);
    PortsDownKeepsOmci(o, |o.ports|);
  }

  lemma FireTwiceKeepsOmci(c: Cell, sn: nat, e: OnuEvent, e': OnuEvent)
    ensures FireTwice(c, sn, e, e').onu.omci == c.onu.omci
  {
    hide Fire;
    FireKeepsOmci(c, sn, e);
    FireKeepsOmci(Fire(c, sn, e), sn, e');
  }

  lemma PowerOnKeepsOmci(c: Cell, sn: nat)
    ensures PowerOn(c, sn).onu.omci == c.onu.omci
  {
    hide Fire;
    var was := c.onu.state;
    var c1 := if was.Created? || was.Disabled? then Fire(c, sn, Initialize) else c;
    FireKeepsOmci(c, sn, Initialize);
    var c2 := c1.(onu := Send(c1.onu, Indication));
    FireKeepsOmci(c2, sn, Discover);
    FireKeepsOmci(Fire(c2, sn, Discover), sn, OnuEvent.Enable);
  }

  /** The pending request that an ONU is about to handle. */
  predicate Asks(o: Onu, a: OnuAction) {
    a.DoProcess? && Queue(o) != [] && Queue(o)[0].OmciRequest?
  }

  lemma ActKeepsOmci(c: Cell, pon: nat, sn: nat, a: OnuAction, del: bool, rate: nat, crc: string -> nat)
    requires !a.InvalidateMds? && !Asks(c.onu, a)
    ensures ActOnu(c, pon, sn, a, del, rate, crc).onu.omci == c.onu.omci
  {
    hide Fire;
    match a
    case DoRediscover => FireTwiceKeepsOmci(c, sn, Initialize, Discover);
    case DoShutdown =>
      FireKeepsOmci(c, sn, OnuEvent.Disable);
      FireKeepsOmci(c.(onu := Send(c.onu, Indication)), sn, OnuEvent.Disable);
    case DoPowerOn => PowerOnKeepsOmci(c, sn);
    case _ => FireKeepsOmci(c, sn, OnuEvent.Disable);
  }

  /** The ONUs are the same and so is the OMCI state of each. */
  ghost predicate PonKeepsOmci(p: Pon, p': Pon) {
    |p'.onus| == |p.onus| && forall i | 0 <= i < |p.onus| :: p'.onus[i].omci == p.onus[i].omci
  }

  lemma RaiseKeepsOmci(c: Cell, sn: nat, mode: Mode, src: PonState)
    ensures RaiseOnu(c, sn, mode, src).onu.omci == c.onu.omci
  {
    hide Fire;
    FireKeepsOmci(c, sn, Initialize);
    FireKeepsOmci(c, sn, Discover);
    FireKeepsOmci(c, sn, OnuEvent.Enable);
    FireTwiceKeepsOmci(c, sn, Initialize, Discover);
  }

  lemma RaiseAllKeepsOmci(p: Pon, mode: Mode, src: PonState, n: nat)
    requires n <= |p.onus|
    ensures PonKeepsOmci(p, RaiseOnus(p, mode, src, n))
  {
    hide RaiseOnu;
    if n > 0 {
      RaiseAllKeepsOmci(p, mode, src, n - 1);
      RaiseKeepsOmci(CellAt(RaiseOnus(p, mode, src, n - 1), n - 1), n - 1, mode, src);
    }
  }

  lemma LowerAllKeepsOmci(p: Pon, n: nat)
    requires n <= |p.onus|
    ensures PonKeepsOmci(p, LowerOnus(p, n))
  {
    hide Fire;
    if n > 0 {
      LowerAllKeepsOmci(p, n - 1);
      FireKeepsOmci(CellAt(LowerOnus(p, n - 1), n - 1), n - 1, PonDisable);
    }
  }

  /** The step is about the OMCI state of this ONU. */
  predicate Concerns(s: Olt, a: Action, p: nat, i: nat)
    requires IsOnu(s, p, i)
  {
    a.AtOnu? && a.intf == p && a.sn == i && (a.act.InvalidateMds? || Asks(OnuAt(s, p, i), a.act))
  }

  /** Same configuration and the same ONUs. */
  ghost predicate SameShape(s: Olt, s': Olt) {
    && s'.config == s.config && |s'.pons| == |s.pons|
    && forall p | 0 <= p < |s.pons| :: |s'.pons[p].onus| == |s.pons[p].onus|
  }

  lemma SetCellKeeps(s: Olt, q: nat, j: nat, c: Cell, p: nat, i: nat)
    requires IsOnu(s, q, j) && IsOnu(s, p, i)
    requires q == p && j == i ==> c.onu.omci == OnuAt(s, p, i).omci
    ensures SameShape(s, SetCell(s, q, j, c)) && OnuAt(SetCell(s, q, j, c), p, i).omci == OnuAt(s, p, i).omci
  {
  }

  lemma SetPonKeeps(s: Olt, q: nat, pon: Pon, p: nat, i: nat)
    requires q < |s.pons| && IsOnu(s, p, i) && PonKeepsOmci(s.pons[q], pon)
    ensures SameShape(s, SetPon(s, q, pon)) && OnuAt(SetPon(s, q, pon), p, i).omci == OnuAt(s, p, i).omci
  {
  }

  lemma OltStepKeepsShape(s: Olt, e: OltTransition)
    ensures SameShape(s, OltStep(s, e))
  {
  }

  lemma StepKeepsShape(s: Olt, a: Action, crc: string -> nat)
    ensures SameShape(s, Step(s, a, crc))
  {
    hide OltStep;
    hide Register;
    hide AddFlowStep;
    hide RemoveFlowStep;
    hide ActOnu;
    hide ActivateCell;
    hide EnablePon;
    hide DisablePon;
    match a
    case FlowAdd(f) => AddSameOnus(s, f);
    case FlowRemove(f) => RemoveSameOnus(s, f);
    case OltEvent(e) => OltStepKeepsShape(s, e);
    case _ =>
  }

  lemma EnableKeepsOmci(p: Pon, mode: Mode)
    ensures PonKeepsOmci(p, EnablePon(p, mode)) && PonKeepsOmci(p, DisablePon(p))
  {
    hide RaiseOnu;
    hide LowerOnu;
    RaiseAllKeepsOmci(p.(state := PonEnabled), mode, p.state, |p.onus|);
    LowerAllKeepsOmci(p.(state := PonDown), |p.onus|);
  }

  lemma ActivateKeepsOmci(s: Olt, intf: nat, onuId: nat, sn: nat, p: nat, i: nat)
    requires IsOnu(s, p, i)
    ensures SameShape(s, ActivateStep(s, intf, onuId, sn))
    ensures OnuAt(ActivateStep(s, intf, onuId, sn), p, i).omci == OnuAt(s, p, i).omci
  {
    hide Fire;
    hide Register;
    if IsOnu(s, intf, sn) {
      var c := CellAt(s.pons[intf], sn);
      FireKeepsOmci(c.(onu := c.onu.(id := onuId)), sn, OnuEvent.Enable);
    }
  }

  lemma StepKeepsOmci(s: Olt, a: Action, crc: string -> nat, p: nat, i: nat)
    requires IsOnu(s, p, i) && !Concerns(s, a, p, i)
    ensures SameShape(s, Step(s, a, crc)) && OnuAt(Step(s, a, crc), p, i).omci == OnuAt(s, p, i).omci
  {
    hide OltStep;
    hide SetCell;
    hide SetPon;
    hide AddFlowStep;
    hide RemoveFlowStep;
    hide ActivateStep;
    hide ActOnu;
    hide EnablePon;
    hide DisablePon;
    match a
    case FlowAdd(f) => AddSameOnus(s, f);
    case FlowRemove(f) => RemoveSameOnus(s, f);
    case Activate(intf, onuId, sn) => ActivateKeepsOmci(s, intf, onuId, sn, p, i);
    case PonUp(intf) =>
      if intf < |s.pons| {
        EnableKeepsOmci(s.pons[intf], s.config.mode);
        SetPonKeeps(s, intf, EnablePon(s.pons[intf], s.config.mode), p, i);
      }
    case PonLow(intf) =>
      if intf < |s.pons| {
        EnableKeepsOmci(s.pons[intf], s.config.mode);
        SetPonKeeps(s, intf, DisablePon(s.pons[intf]), p, i);
      }
    case AtOnu(intf, sn, act) =>
      if IsOnu(s, intf, sn) {
        var c := CellAt(s.pons[intf], sn);
        if intf == p && sn == i {
          ActKeepsOmci(c, p, i, act, s.state.OltDeleted?, s.config.rate, crc);
        }
        SetCellKeeps(s, intf, sn, ActOnu(c, intf, sn, act, s.state.OltDeleted?, s.config.rate, crc), p, i);
      }
    case OltEvent(e) => OltStepKeepsOmci(s, e, p, i);
  }

  lemma OltStepKeepsOmci(s: Olt, e: OltTransition, p: nat, i: nat)
    requires IsOnu(s, p, i)
    ensures SameShape(s, OltStep(s, e)) && OnuAt(OltStep(s, e), p, i).omci == OnuAt(s, p, i).omci
  {
  }

  // ---------------------------------------------------------------------------
  // The run of one ONU in a run of the device

  function At(s: Olt, p: nat, i: nat): Cell
    requires IsOnu(s, p, i)
  {
    CellAt(s.pons[p], i)
  }

  /** What a step of the device is for the OMCI state of the ONU. */
  function InputOf(s: Olt, a: Action, s': Olt, p: nat, i: nat): Input
    requires IsOnu(s, p, i) && IsOnu(s', p, i)
  {
    if !Concerns(s, a, p, i) then Other(At(s', p, i))
    else if a.act.InvalidateMds? then Spoil(a.act.random)
    else
      var c, q := At(s, p, i), Queue(OnuAt(s, p, i));
      Ask(q[0].request, c.(onu := c.onu.(channel := c.onu.channel.(queue := q[1..]))))
  }

  lemma InputFollows(s: Olt, a: Action, crc: string -> nat, p: nat, i: nat)
    requires IsOnu(s, p, i)
    ensures IsOnu(Step(s, a, crc), p, i)
    ensures OnuFollows(At(s, p, i), InputOf(s, a, Step(s, a, crc), p, i), At(Step(s, a, crc), p, i),
                    Setting(p, i, s.config.rate, crc))
  {
    StepKeepsShape(s, a, crc);
    if !Concerns(s, a, p, i) {
      OtherFollows(s, a, crc, p, i);
    } else {
      OwnFollows(s, a.act, crc, p, i);
    }
  }

  lemma OtherFollows(s: Olt, a: Action, crc: string -> nat, p: nat, i: nat)
    requires IsOnu(s, p, i) && !Concerns(s, a, p, i) && IsOnu(Step(s, a, crc), p, i)
    ensures OnuFollows(At(s, p, i), Other(At(Step(s, a, crc), p, i)), At(Step(s, a, crc), p, i),
                    Setting(p, i, s.config.rate, crc))
  {
    hide Step;
    StepKeepsOmci(s, a, crc, p, i);
  }

  lemma OwnFollows(s: Olt, act: OnuAction, crc: string -> nat, p: nat, i: nat)
    requires IsOnu(s, p, i) && Concerns(s, AtOnu(p, i, act), p, i)
    ensures var a := AtOnu(p, i, act);
            var s' := Step(s, a, crc);
            && IsOnu(s', p, i)
            && OnuFollows(At(s, p, i), InputOf(s, a, s', p, i), At(s', p, i), Setting(p, i, s.config.rate, crc))
  {
    hide HandleOmci;
    hide Invalidate;
  }

  /** The ONU is there in every state. */
  ghost predicate Has(states: seq<Olt>, p: nat, i: nat) {
    forall k | 0 <= k < |states| :: IsOnu(states[k], p, i)
  }

  function CellsOf(states: seq<Olt>, p: nat, i: nat): (cells: seq<Cell>)
    requires Has(states, p, i)
    ensures |cells| == |states| && forall k | 0 <= k < |states| :: cells[k] == At(states[k], p, i)
  {
    seq(|states|, k requires 0 <= k < |states| => At(states[k], p, i))
  }

  function InputsOf(states: seq<Olt>, run: seq<Action>, p: nat, i: nat): (inputs: seq<Input>)
    requires Has(states, p, i) && |states| == |run| + 1
    ensures |inputs| == |run|
    ensures forall k: nat | k < |run| :: inputs[k] == InputOf(states[k], run[k], states[k + 1], p, i)
  {
    seq(|run|, k requires 0 <= k < |run| => InputOf(states[k], run[k], states[k + 1], p, i))
  }

  lemma {:induction false} TraceKeepsShape(states: seq<Olt>, run: seq<Action>, crc: string -> nat, n: nat)
    requires Trace(states, run, crc) && n <= |run|
    ensures SameShape(states[0], states[n])
  {
    hide Step;
    if n > 0 {
      TraceKeepsShape(states, run, crc, n - 1);
      TraceNext(states, run, crc, n - 1);
      StepKeepsShape(states[n - 1], run[n - 1], crc);
    }
  }

  /** Along every run of a device, each of its ONUs goes through a run of OmciRuns. */
  lemma OnuGoesThrough(states: seq<Olt>, run: seq<Action>, crc: string -> nat, p: nat, i: nat)
    requires Trace(states, run, crc) && IsOnu(states[0], p, i)
    ensures Has(states, p, i)
    ensures OnuTrace(CellsOf(states, p, i), InputsOf(states, run, p, i),
                           Setting(p, i, states[0].config.rate, crc))
  {
    hide Step;
    hide OnuFollows;
    forall k: nat | k < |states|
      ensures IsOnu(states[k], p, i) && states[k].config == states[0].config
    {
      TraceKeepsShape(states, run, crc, k);
    }
    forall k: nat | k < |run|
      ensures OnuFollows(CellsOf(states, p, i)[k], InputsOf(states, run, p, i)[k], CellsOf(states, p, i)[k + 1],
                               Setting(p, i, states[0].config.rate, crc))
    {
      TraceNext(states, run, crc, k);
      InputFollows(states[k], run[k], crc, p, i);
    }
  }

  // ---------------------------------------------------------------------------
  // The theorems on the device

  lemma NewOnuOmci(pons: nat, onus: nat, ports: nat, config: Config, p: nat, i: nat)
    requires p < pons && i < onus
    ensures var s := NewOlt(pons, onus, ports, config);
            IsOnu(s, p, i) && OnuAt(s, p, i).omci == NEW_OMCI && s.config == config
  {
  }

  lemma TraceSplits(states: seq<Olt>, run: seq<Action>, crc: string -> nat, m: nat)
    requires Trace(states, run, crc) && m <= |run|
    ensures Trace(states[..m + 1], run[..m], crc) && Trace(states[m..], run[m..], crc)
  {
    hide Step;
    hide DeviceModel.Follows;
    forall k: nat | k < |run| - m
      ensures DeviceModel.Follows(states[m..][k], run[m..][k], states[m..][k + 1], crc)
    {
      assert DeviceModel.Follows(states[m + k], run[m + k], states[m + k + 1], crc);
    }
  }

  /**
    An ONU of a created device handles, of the first n requests that reach it,
    n/10 * min(rate, 10) + min(n mod 10, rate), and min(rate, 10) of any ten in a row,
    whatever else the device does in between.
   */
  lemma DeviceResponseRate(
      pons: nat, onus: nat, ports: nat, config: Config,
      states: seq<Olt>, run: seq<Action>, crc: string -> nat, m: nat, p: nat, i: nat)
    requires Trace(states, run, crc) && states[0] == NewOlt(pons, onus, ports, config)
    requires p < pons && i < onus && m <= |run|
    ensures Has(states[..m + 1], p, i) && Has(states[m..], p, i)
    ensures var cells, inputs := CellsOf(states[..m + 1], p, i), InputsOf(states[..m + 1], run[..m], p, i);
            var n := Asked(inputs);
            Processed(cells, inputs, Setting(p, i, config.rate, crc)) ==
              n / 10 * Min(config.rate, 10) + Min(n % 10, config.rate)
    ensures var cells, inputs := CellsOf(states[m..], p, i), InputsOf(states[m..], run[m..], p, i);
            Asked(inputs) == 10 ==> Processed(cells, inputs, Setting(p, i, config.rate, crc)) == Min(config.rate, 10)
  {
    hide Step;
    hide Asked;
    hide Processed;
    hide OnuTrace;
    NewOnuOmci(pons, onus, ports, config, p, i);
    TraceSplits(states, run, crc, m);
    TraceKeepsShape(states, run, crc, m);
    OnuGoesThrough(states[..m + 1], run[..m], crc, p, i);
    OnuGoesThrough(states[m..], run[m..], crc, p, i);
    ResponseRate(CellsOf(states[..m + 1], p, i), InputsOf(states[..m + 1], run[..m], p, i),
                 CellsOf(states[m..], p, i), InputsOf(states[m..], run[m..], p, i), Setting(p, i, config.rate, crc));
  }

  /** The MIB data sync of every ONU after every run of a created device. */
  lemma DeviceMds(
      pons: nat, onus: nat, ports: nat, config: Config,
      states: seq<Olt>, run: seq<Action>, crc: string -> nat, p: nat, i: nat)
    requires Trace(states, run, crc) && states[0] == NewOlt(pons, onus, ports, config) && p < pons && i < onus
    ensures Has(states, p, i)
    ensures MdsIsCount(CellsOf(states, p, i), InputsOf(states, run, p, i), Setting(p, i, config.rate, crc))
  {
    hide Step;
    hide MdsIsCount;
    hide OnuTrace;
    NewOnuOmci(pons, onus, ports, config, p, i);
    OnuGoesThrough(states, run, crc, p, i);
    MdsCountsAcks(CellsOf(states, p, i), InputsOf(states, run, p, i), Setting(p, i, config.rate, crc));
  }

  /** No ONU of a created device loses its committed image if downloads are installed only while it is active. */
  lemma DeviceKeepsPresent(
      pons: nat, onus: nat, ports: nat, config: Config,
      states: seq<Olt>, run: seq<Action>, crc: string -> nat, p: nat, i: nat)
    requires Trace(states, run, crc) && states[0] == NewOlt(pons, onus, ports, config) && p < pons && i < onus
    ensures Has(states, p, i)
    ensures var cells, inputs := CellsOf(states, p, i), InputsOf(states, run, p, i);
            InstallsWhenCommitted(cells, inputs, Setting(p, i, config.rate, crc)) ==>
              Present(OnuAt(states[|run|], p, i).omci)
  {
    hide Step;
    hide InstallsWhenCommitted;
    NewOnuOmci(pons, onus, ports, config, p, i);
    OnuGoesThrough(states, run, crc, p, i);
    var cells, inputs, e := CellsOf(states, p, i), InputsOf(states, run, p, i), Setting(p, i, config.rate, crc);
    if InstallsWhenCommitted(cells, inputs, e) {
      RunKeepsPresent(cells, inputs, e);
    }
  }
}
