/** The OLT with its PON ports and ONUs as one state machine over all its entry points. */
module DeviceModel {
  import opened Basics
  import opened FlowTables
  import opened OnuFsm
  import opened OnuModel

  datatype PonState = PonCreated | PonEnabled | PonDown
  datatype OltState = OltCreated | OltInitialized | OltEnabled | OltDisabled | OltDeleted
  datatype Mode = Default | OnlyOnu | OnlyPon | Both

  datatype Pon = Pon(state: PonState, onus: seq<Onu>, tables: PonTables)

  datatype Config = Config(perf: bool, mode: Mode, rate: nat)

  /** `fault` records a panic outside the ONUs: a nil map write or a nil dereference. */
  datatype Olt = Olt(
    state: OltState, config: Config, gems: Table, allocs: Table, flows: map<nat, Flow>,
    pons: seq<Pon>, fault: bool)

  // ---------------------------------------------------------------------------
  // PON ports

  predicate HasOnu(p: Pon, i: nat) {
    i < |p.onus|
  }

  function CellAt(p: Pon, i: nat): Cell
    requires HasOnu(p, i)
  {
    Cell(p.onus[i], p.tables)
  }

  function PutCell(p: Pon, i: nat, c: Cell): (r: Pon)
    requires HasOnu(p, i)
    ensures |r.onus| == |p.onus|
  {
    p.(onus := p.onus[i := c.onu], tables := c.tables)
  }

  /** GetOnuById: the first ONU with the id, or the number of ONUs when there is none. */
  function FindOnu(onus: seq<Onu>, id: nat): (r: nat)
    ensures r <= |onus|
    ensures r < |onus| ==> onus[r].id == id
    ensures forall i | 0 <= i < r :: onus[i].id != id
  {
    if onus == [] then 0 else if onus[0].id == id then 0 else 1 + FindOnu(onus[1..], id)
  }

  /** What enabling a PON does to one of its ONUs. */
  function RaiseOnu(c: Cell, sn: nat, mode: Mode, src: PonState): Cell {
    if src.PonCreated? then
      if mode.Default? || mode.OnlyPon? then RaiseNew(c, sn) else c
    else if mode.OnlyOnu? || mode.Both? then Fire(c, sn, Initialize)
    else
      match c.onu.state
      case PonDisabled => Fire(c, sn, OnuEvent.Enable)
      case Disabled => FireTwice(c, sn, Initialize, Discover)
      case Initialized => Fire(c, sn, Discover)
      case _ => c
  }

  /** An ONU that cannot be initialized is not discovered either. */
  function RaiseNew(c: Cell, sn: nat): Cell {
    if Allowed(c.onu.state, Initialize) then FireTwice(c, sn, Initialize, Discover) else c
  }

  /** What disabling a PON does to one of its ONUs. */
  function LowerOnu(c: Cell, sn: nat): Cell {
    if c.onu.state.Initialized? || c.onu.state.Disabled? then c else Fire(c, sn, PonDisable)
  }

  /** The loops of the PON callbacks, after the first n ONUs. */
  function RaiseOnus(p: Pon, mode: Mode, src: PonState, n: nat): (r: Pon)
    requires n <= |p.onus|
    ensures |r.onus| == |p.onus| && r.state == p.state
  {
    if n == 0 then p
    else
      var q := RaiseOnus(p, mode, src, n - 1);
      PutCell(q, n - 1, RaiseOnu(CellAt(q, n - 1), n - 1, mode, src))
  }

  function LowerOnus(p: Pon, n: nat): (r: Pon)
    requires n <= |p.onus|
    ensures |r.onus| == |p.onus| && r.state == p.state
  {
    if n == 0 then p
    else
      var q := LowerOnus(p, n - 1);
      PutCell(q, n - 1, LowerOnu(CellAt(q, n - 1), n - 1))
  }

  function EnablePon(p: Pon, mode: Mode): (r: Pon)
    ensures |r.onus| == |p.onus|
  {
    if p.state.PonEnabled? then p
    else RaiseOnus(p.(state := PonEnabled), mode, p.state, |p.onus|)
  }

  function DisablePon(p: Pon): (r: Pon)
    ensures |r.onus| == |p.onus|
  {
    if !p.state.PonEnabled? then p else LowerOnus(p.(state := PonDown), |p.onus|)
  }

  // ---------------------------------------------------------------------------
  // Entry points that concern one ONU

  datatype OnuAction =
    | FireDisable
    | DeleteOnu
    | DoRediscover
    | DoShutdown
    | DoPowerOn
    | DoProcess
    | InvalidateMds(random: nat)
    | OmciMsgOut(request: Request)
    | PacketOut

  function ActOnu(c: Cell, pon: nat, sn: nat, a: OnuAction, oltDeleted: bool, rate: nat, crc: string -> nat): Cell {
    match a
    case FireDisable => Fire(c, sn, OnuEvent.Disable)
    case DeleteOnu => Deactivate(c, sn)
    case DoRediscover => if oltDeleted then c else Rediscover(c, sn)
    case DoShutdown => Shutdown(c, sn)
    case DoPowerOn => if oltDeleted then c else PowerOn(c, sn)
    case DoProcess => Process(c, pon, sn, rate, crc)
    case InvalidateMds(random) => c.(onu := c.onu.(omci := Invalidate(c.onu.omci, random)))
    case OmciMsgOut(request) =>
      if c.onu.state.Disabled? then c else c.(onu := Send(c.onu, OmciRequest(request)))
    case PacketOut => if c.onu.state.Enabled? then c.(onu := Send(c.onu, Indication)) else c
  }

  // ---------------------------------------------------------------------------
  // The OLT

  /**
    An entry point of the device, or one pass of one of its loops.  A reboot is the
    sequence Delete, FireDisable for every ONU, Initialize, so that other calls
    may come in between.  In Activate the serial number is given as the position
    of the ONU it belongs to; a position past the end belongs to no ONU.
   */
  datatype Action =
    | FlowAdd(flow: Flow)
    | FlowRemove(flow: Flow)
    | Activate(intf: nat, onuId: nat, sn: nat)
    | PonUp(intf: nat)
    | PonLow(intf: nat)
    | AtOnu(intf: nat, sn: nat, act: OnuAction)
    | OltEvent(event: OltTransition)

  datatype OltTransition = TxInitialize | TxEnable | TxDisable | TxDelete

  /** Nothing but the PON ports differs. */
  predicate OnlyPons(s: Olt, r: Olt) {
    r == s.(pons := r.pons) && |r.pons| == |s.pons|
  }

  function SetPon(s: Olt, p: nat, pon: Pon): (r: Olt)
    requires p < |s.pons|
    ensures OnlyPons(s, r)
  {
    s.(pons := s.pons[p := pon])
  }

  function SetCell(s: Olt, p: nat, i: nat, c: Cell): (r: Olt)
    requires p < |s.pons| && HasOnu(s.pons[p], i)
    ensures OnlyPons(s, r)
  {
    SetPon(s, p, PutCell(s.pons[p], i, c))
  }

  function Step(s: Olt, a: Action, crc: string -> nat): Olt {
    match a
    case FlowAdd(flow) => AddFlowStep(s, flow)
    case FlowRemove(flow) => RemoveFlowStep(s, flow)
    case Activate(intf, onuId, sn) => ActivateStep(s, intf, onuId, sn)
    case PonUp(intf) =>
      if intf < |s.pons| then SetPon(s, intf, EnablePon(s.pons[intf], s.config.mode)) else s.(fault := true)
    case PonLow(intf) =>
      if intf < |s.pons| then SetPon(s, intf, DisablePon(s.pons[intf])) else s.(fault := true)
    case AtOnu(intf, sn, act) =>
      if intf < |s.pons| && HasOnu(s.pons[intf], sn) then
        SetCell(s, intf, sn,
                ActOnu(CellAt(s.pons[intf], sn), intf, sn, act, s.state.OltDeleted?, s.config.rate, crc))
      else s
    case OltEvent(event) => OltStep(s, event)
  }

  predicate IsOnu(s: Olt, p: nat, i: nat) {
    p < |s.pons| && HasOnu(s.pons[p], i)
  }

  function OnuAt(s: Olt, p: nat, i: nat): Onu
    requires IsOnu(s, p, i)
  {
    s.pons[p].onus[i]
  }

  predicate Follows(s: Olt, a: Action, s': Olt, crc: string -> nat) {
    s' == Step(s, a, crc)
  }

  /** The states a device goes through along a run. */
  ghost predicate Trace(states: seq<Olt>, run: seq<Action>, crc: string -> nat) {
    |states| == |run| + 1 && forall i: nat | i < |run| :: Follows(states[i], run[i], states[i + 1], crc)
  }

  lemma TraceNext(states: seq<Olt>, run: seq<Action>, crc: string -> nat, n: nat)
    requires Trace(states, run, crc) && n < |run|
    ensures states[n + 1] == Step(states[n], run[n], crc)
  {
    hide Step;
    assert Follows(states[n], run[n], states[n + 1], crc);
  }

  // FlowAdd ---------------------------------------------------------------------

  function StoreFlow(s: Olt, f: Flow): Olt {
    if s.config.perf then s else s.(flows := s.flows[f.flowId := f])
  }

  function AddFlowStep(s: Olt, f: Flow): Olt {
    var s1 := StoreFlow(s, f);
    if f.accessIntfId == -1 || f.multicast then s1
    else if U32(f.accessIntfId) >= |s.pons| then s1.(fault := true)
    else AddOnuFlow(s1, f, U32(f.accessIntfId), FindOnu(s.pons[U32(f.accessIntfId)].onus, U32(f.onuId)))
  }

  function AddOnuFlow(s: Olt, f: Flow, p: nat, i: nat): Olt
    requires p < |s.pons|
  {
    if !HasOnu(s.pons[p], i) then s
    else if IsOff(s.pons[p].onus[i].state) then s
    else StoreResources(RecordFlow(s, p, i, f.flowId), f, p, i)
  }

  function RecordFlow(s: Olt, p: nat, i: nat, key: nat): (r: Olt)
    requires p < |s.pons| && HasOnu(s.pons[p], i)
    ensures OnlyPons(s, r) && HasOnu(r.pons[p], i)
  {
    if s.config.perf then s
    else
      var o := s.pons[p].onus[i];
      SetCell(s, p, i, Cell(o.(flows := o.flows + [key]), s.pons[p].tables))
  }

  /** validateFlow, then the two stores, then the message to the ONU. */
  function StoreResources(s: Olt, f: Flow, p: nat, i: nat): Olt
    requires p < |s.pons| && HasOnu(s.pons[p], i)
  {
    var onu := U32(f.onuId);
    if Conflicts(s.gems, p, onu, Gems(f)) || Conflicts(s.allocs, p, onu, {f.allocId}) then s
    else if !Registered(s.gems, p, onu) && Gems(f) != {} then s
    else
      var gems := if Registered(s.gems, p, onu) then Put(s.gems, p, onu, f.portNo, Gems(f), f.flowId) else s.gems;
      if !Registered(s.allocs, p, onu) then s.(gems := gems, fault := true)
      else
        var s1 := s.(gems := gems, allocs := Put(s.allocs, p, onu, f.portNo, {f.allocId}, f.flowId));
        var o := Send(s1.pons[p].onus[i], OnuModel.AddFlow(f));
        SetCell(s1, p, i, Cell(o, s1.pons[p].tables))
  }

  predicate OnuLists(onu: OnuTable, ids: set<Int32>) {
    exists port, id | port in onu && id in ids :: id in onu[port]
  }

  /** The decision of validateFlow, computed; FindConflict is the loop. */
  predicate Conflicts(t: Table, pon: nat, onu: nat, ids: set<Int32>)
    ensures Conflicts(t, pon, onu, ids) <==> Conflict(t, pon, onu, ids)
  {
    var hit := pon in t && (exists o | o in t[pon] :: o != onu && OnuLists(t[pon][o], ids));
    assert hit ==> Conflict(t, pon, onu, ids) by {
      if hit {
        var o :| o in t[pon] && o != onu && OnuLists(t[pon][o], ids);
        var port, id :| port in t[pon][o] && id in ids && id in t[pon][o][port];
        assert Listed(t, Key(pon, o, port, id));
      }
    }
    assert Conflict(t, pon, onu, ids) ==> hit by {
      if k: Key :| Listed(t, k) && k.pon == pon && k.onu != onu && k.id in ids {
        assert k.port in t[pon][k.onu] && k.id in t[pon][k.onu][k.port];
      }
    }
    hit
  }

  // FlowRemove ------------------------------------------------------------------

  /** The ONU the stored copy of a flow leads to, if its PON and ONU still resolve. */
  function Owner(s: Olt, f: Flow): Option<(nat, nat)> {
    var p := U32(f.accessIntfId);
    if p >= |s.pons| then None
    else
      var i := FindOnu(s.pons[p].onus, U32(f.onuId));
      if HasOnu(s.pons[p], i) then Some((p, i)) else None
  }

  function RemoveFlowStep(s: Olt, f: Flow): Olt {
    var s1 := s.(gems := Free(s.gems, f.flowId), allocs := Free(s.allocs, f.flowId));
    if s.config.perf then NotifyRemoval(s1, f)
    else if f.flowId !in s.flows then s1
    else
      var stored := s.flows[f.flowId];
      if stored.accessIntfId == -1 then NotifyRemoval(s1.(flows := s1.flows - {f.flowId}), f)
      else if Owner(s, stored).None? then s1
      else
        var (p, i) := Owner(s, stored).value;
        NotifyRemoval(DeleteFlow(s1, p, i, f.flowId).(flows := s1.flows - {f.flowId}), f)
  }

  /** Onu.DeleteFlow removes the first occurrence of the key. */
  function DeleteFlow(s: Olt, p: nat, i: nat, key: nat): (r: Olt)
    requires p < |s.pons| && HasOnu(s.pons[p], i)
    ensures OnlyPons(s, r)
  {
    var o := s.pons[p].onus[i];
    SetCell(s, p, i, Cell(o.(flows := RemoveFirst(o.flows, key)), s.pons[p].tables))
  }

  /** The first ONU of a PON that has handled the flow. */
  function FindFlowId(onus: seq<Onu>, flow: nat): (r: nat)
    ensures r <= |onus|
    ensures r < |onus| ==> flow in onus[r].flowIds
    ensures forall i | 0 <= i < r :: flow !in onus[i].flowIds
  {
    if onus == [] then 0 else if flow in onus[0].flowIds then 0 else 1 + FindFlowId(onus[1..], flow)
  }

  /** GetOnuByFlowId. */
  function FindByFlowId(pons: seq<Pon>, flow: nat): (r: Option<(nat, nat)>)
    ensures r.Some? ==> r.value.0 < |pons| && HasOnu(pons[r.value.0], r.value.1) &&
                        flow in pons[r.value.0].onus[r.value.1].flowIds
    ensures r.None? ==> forall p, i :: 0 <= p < |pons| && 0 <= i < |pons[p].onus| ==> flow !in pons[p].onus[i].flowIds
    decreases |pons|
  {
    if pons == [] then None
    else
      var i := FindFlowId(pons[0].onus, flow);
      if i < |pons[0].onus| then Some((0, i))
      else
        match FindByFlowId(pons[1..], flow)
        case None => None
        case Some((p, j)) => Some((p + 1, j))
  }

  function NotifyRemoval(s: Olt, f: Flow): (r: Olt)
    ensures OnlyPons(s, r)
  {
    if f.accessIntfId == -1 || f.multicast then s
    else
      match FindByFlowId(s.pons, f.flowId)
      case None => s
      case Some((p, i)) =>
        SetCell(s, p, i, Cell(Send(s.pons[p].onus[i], RemoveFlow(f.flowId)), s.pons[p].tables))
  }

  // ActivateOnu and the life cycle of the OLT -----------------------------------------

  function ActivateStep(s: Olt, intf: nat, onuId: nat, sn: nat): Olt {
    if intf >= |s.pons| then s
    else if intf !in s.allocs || intf !in s.gems then s.(fault := true)
    else
      var s1 := s.(allocs := Register(s.allocs, intf, onuId), gems := Register(s.gems, intf, onuId));
      if !HasOnu(s.pons[intf], sn) then s1.(fault := true)
      else SetCell(s1, intf, sn, ActivateCell(CellAt(s.pons[intf], sn), sn, onuId))
  }

  function ActivateCell(c: Cell, sn: nat, onuId: nat): Cell {
    Fire(c.(onu := c.onu.(id := onuId)), sn, OnuEvent.Enable)
  }

  predicate OltAllowed(s: OltState, e: OltTransition) {
    match e
    case TxInitialize => s.OltCreated? || s.OltDeleted?
    case TxEnable => s.OltInitialized? || s.OltDisabled?
    case TxDisable => s.OltEnabled?
    case TxDelete => s.OltDisabled? || s.OltEnabled?
  }

  function OltStep(s: Olt, e: OltTransition): Olt {
    if !OltAllowed(s.state, e) then s
    else
      match e
      case TxInitialize =>
        s.(state := OltInitialized, gems := ResetPons(s.gems, |s.pons|), allocs := ResetPons(s.allocs, |s.pons|))
      case TxEnable => s.(state := OltEnabled)
      case TxDisable => s.(state := OltDisabled)
      case TxDelete =>
        s.(state := OltDeleted, gems := map[], allocs := map[], pons := ClearTables(s.pons))
  }

  /** The loop of clearAllResources over the PON ports. */
  function ClearTables(pons: seq<Pon>): (r: seq<Pon>)
    ensures |r| == |pons|
    ensures forall p | 0 <= p < |pons| :: r[p] == pons[p].(tables := EMPTY_TABLES)
  {
    if pons == [] then [] else [pons[0].(tables := EMPTY_TABLES)] + ClearTables(pons[1..])
  }

  // ---------------------------------------------------------------------------
  // The device as CreateOLT leaves it

  function NewOnu(id: nat, ports: nat): Onu {
    Onu(id, OnuState.Created, [], [], NoChannel, seq(ports, i => false), NEW_OMCI, false, false, false)
  }

  function NewPon(onus: nat, ports: nat): Pon {
    Pon(PonCreated, seq(onus, j requires 0 <= j => NewOnu(j + 1, ports)), EMPTY_TABLES)
  }

  function NewOlt(pons: nat, onus: nat, ports: nat, config: Config): Olt {
    Olt(OltCreated, config, Fresh(pons), Fresh(pons), map[], seq(pons, i => NewPon(onus, ports)), false)
  }

  // ---------------------------------------------------------------------------
  // What the flow calls leave alone

  /** What the flows of an ONU and its messages do not concern. */
  predicate AlikeOnu(o: Onu, o': Onu) {
    && o'.id == o.id && o'.state == o.state && o'.omci == o.omci
    && o'.ports == o.ports && o'.portFault == o.portFault
  }

  ghost predicate Alike(p: Pon, p': Pon) {
    && |p'.onus| == |p.onus| && p'.tables == p.tables && p'.state == p.state
    && forall i | 0 <= i < |p.onus| :: AlikeOnu(p.onus[i], p'.onus[i])
  }

  /** The same ONUs with the same ids, states, ports and OMCI states, and the same states and tables of the PONs. */
  ghost predicate SameOnus(s: Olt, s': Olt) {
    && s'.config == s.config && s'.state == s.state && |s'.pons| == |s.pons|
    && forall p | 0 <= p < |s.pons| :: Alike(s.pons[p], s'.pons[p])
  }

  lemma SetOnuSameOnus(s: Olt, p: nat, i: nat, c: Cell)
    requires IsOnu(s, p, i) && c.tables == s.pons[p].tables
    requires AlikeOnu(OnuAt(s, p, i), c.onu)
    ensures SameOnus(s, SetCell(s, p, i, c))
  {
  }

  lemma StoreSameOnus(s: Olt, f: Flow, p: nat, i: nat)
    requires IsOnu(s, p, i)
    ensures SameOnus(s, StoreResources(s, f, p, i))
  {
    SetOnuSameOnus(s, p, i, Cell(Send(s.pons[p].onus[i], OnuModel.AddFlow(f)), s.pons[p].tables));
  }

  lemma AddOnuSameOnus(s: Olt, f: Flow, p: nat, i: nat)
    requires p < |s.pons|
    ensures SameOnus(s, AddOnuFlow(s, f, p, i))
  {
    if HasOnu(s.pons[p], i) {
      var o := OnuAt(s, p, i);
      SetOnuSameOnus(s, p, i, Cell(o.(flows := o.flows + [f.flowId]), s.pons[p].tables));
      StoreSameOnus(RecordFlow(s, p, i, f.flowId), f, p, i);
    }
  }

  lemma AddSameOnus(s: Olt, f: Flow)
    ensures SameOnus(s, AddFlowStep(s, f))
  {
    hide StoreResources;
    hide RecordFlow;
    var p: nat := U32(f.accessIntfId);
    if p < |s.pons| {
      AddOnuSameOnus(StoreFlow(s, f), f, p, FindOnu(s.pons[p].onus, U32(f.onuId)));
    }
  }

  lemma NotifySameOnus(s: Olt, f: Flow)
    ensures SameOnus(s, NotifyRemoval(s, f))
  {
    var found := FindByFlowId(s.pons, f.flowId);
    if !(f.accessIntfId == -1 || f.multicast) && found.Some? {
      var (p, i) := found.value;
      SetOnuSameOnus(s, p, i, Cell(Send(s.pons[p].onus[i], RemoveFlow(f.flowId)), s.pons[p].tables));
    }
  }

  lemma DeleteSameOnus(s: Olt, p: nat, i: nat, f: Flow)
    requires IsOnu(s, p, i)
    ensures SameOnus(s, NotifyRemoval(DeleteFlow(s, p, i, f.flowId).(flows := s.flows - {f.flowId}), f))
  {
    var o := OnuAt(s, p, i);
    SetOnuSameOnus(s, p, i, Cell(o.(flows := RemoveFirst(o.flows, f.flowId)), s.pons[p].tables));
    NotifySameOnus(DeleteFlow(s, p, i, f.flowId).(flows := s.flows - {f.flowId}), f);
  }

  lemma RemoveSameOnus(s: Olt, f: Flow)
    ensures SameOnus(s, RemoveFlowStep(s, f))
  {
    var s1 := s.(gems := Free(s.gems, f.flowId), allocs := Free(s.allocs, f.flowId));
    if s.config.perf {
      NotifySameOnus(s1, f);
    } else if f.flowId in s.flows {
      var stored := s.flows[f.flowId];
      if stored.accessIntfId == -1 {
        NotifySameOnus(s1.(flows := s1.flows - {f.flowId}), f);
      } else if Owner(s, stored).Some? {
        var (p, i) := Owner(s, stored).value;
        DeleteSameOnus(s1, p, i, f);
      }
    }
  }
}
