/** The OLT object: its entry points carry out the steps of DeviceModel on the PON ports and ONUs it owns. */
module OltDevices {
  import opened Basics
  import opened FlowTables
  import opened OnuFsm
  import opened OnuModel
  import opened DeviceModel
  import opened OnuDevices
  import RunTheorems

  /** FlowAdd after the flow has been stored. */
  function AddRest(s: Olt, f: Flow): Olt {
    if f.accessIntfId == -1 || f.multicast then s
    else if U32(f.accessIntfId) >= |s.pons| then s.(fault := true)
    else AddOnuFlow(s, f, U32(f.accessIntfId), FindOnu(s.pons[U32(f.accessIntfId)].onus, U32(f.onuId)))
  }

  lemma AddInStages(s: Olt, f: Flow)
    ensures AddFlowStep(s, f) == AddRest(StoreFlow(s, f), f)
  {
  }

  /** What validating a flow and storing its ids does to the two tables. */
  datatype Reservation = Reservation(gems: Table, allocs: Table, ok: bool, panics: bool)

  ghost function Reserve(gems: Table, allocs: Table, f: Flow, p: nat): Reservation {
    var onu := U32(f.onuId);
    if Conflict(gems, p, onu, Gems(f)) || Conflict(allocs, p, onu, {f.allocId}) then
      Reservation(gems, allocs, false, false)
    else if !Registered(gems, p, onu) && Gems(f) != {} then Reservation(gems, allocs, false, false)
    else
      var gems' := if Registered(gems, p, onu) then Put(gems, p, onu, f.portNo, Gems(f), f.flowId) else gems;
      if !Registered(allocs, p, onu) then Reservation(gems', allocs, false, true)
      else Reservation(gems', Put(allocs, p, onu, f.portNo, {f.allocId}, f.flowId), true, false)
  }

  ghost function Reserved(s: Olt, r: Reservation): Olt {
    s.(gems := r.gems, allocs := r.allocs, fault := s.fault || r.panics)
  }

  ghost function Completed(s: Olt, r: Reservation, f: Flow, p: nat, i: nat): Olt
    requires p < |s.pons| && HasOnu(s.pons[p], i)
  {
    if !r.ok then Reserved(s, r)
    else SetCell(Reserved(s, r), p, i, Cell(Send(s.pons[p].onus[i], OnuModel.AddFlow(f)), s.pons[p].tables))
  }

  /** Storing the resources of a flow is reserving its ids and, if that works, telling the ONU. */
  lemma ReserveStores(s: Olt, f: Flow, p: nat, i: nat, r: Reservation)
    requires p < |s.pons| && HasOnu(s.pons[p], i) && r == Reserve(s.gems, s.allocs, f, p)
    ensures StoreResources(s, f, p, i) == Completed(s, r, f, p, i)
  {
  }

  function Freed(s: Olt, flowId: nat): Olt {
    s.(gems := Free(s.gems, flowId), allocs := Free(s.allocs, flowId))
  }

  function Forget(s: Olt, flowId: nat): (Olt, bool) {
    if s.config.perf then (s, true)
    else if flowId !in s.flows then (s, false)
    else if s.flows[flowId].accessIntfId == -1 then (s.(flows := s.flows - {flowId}), true)
    else
      match Owner(s, s.flows[flowId])
      case None => (s, false)
      case Some((p, i)) => (DeleteFlow(s, p, i, flowId).(flows := s.flows - {flowId}), true)
  }

  /** FlowRemove is freeing the ids, forgetting the flow, and telling the ONU that handled it. */
  lemma RemoveInStages(s: Olt, f: Flow)
    ensures var (s1, go) := Forget(Freed(s, f.flowId), f.flowId);
            RemoveFlowStep(s, f) == if go then NotifyRemoval(s1, f) else s1
  {
  }

  class OltDevice {
    const config: Config
    const pons: seq<PonPort>
    var state: OltState
    var gems: Table
    var allocs: Table
    var flows: map<nat, Flow>
    var fault: bool

    /** All ONUs of all PON ports. */
    ghost const onus: set<OnuDevice>

    ghost predicate Valid()
      reads pons
    {
      forall p: nat | p < |pons| :: pons[p].id == p && pons[p].Valid() && forall o | o in pons[p].onus :: o in onus
    }

    ghost function PonValuesTo(n: nat): (r: seq<Pon>)
      requires n <= |pons| && Valid()
      reads pons, onus
      ensures |r| == n
    {
      if n == 0 then [] else PonValuesTo(n - 1) + [pons[n - 1].Abs()]
    }

    ghost function PonValues(): (r: seq<Pon>)
      requires Valid()
      reads pons, onus
      ensures |r| == |pons|
    {
      PonValuesTo(|pons|)
    }

    ghost function Abs(): Olt
      requires Valid()
      reads this, pons, onus
    {
      Olt(state, config, gems, allocs, flows, PonValues(), fault)
    }

    /** The loops of CreateOLT. */
    constructor (numPon: nat, numOnu: nat, ports: nat, config: Config)
      ensures Valid() && fresh(pons) && fresh(onus) && Abs() == NewOlt(numPon, numOnu, ports, config)
    {
      var made: seq<PonPort> := [];
      ghost var devices: set<OnuDevice> := {};
      var table: Table := map[];
      for i := 0 to numPon
        invariant |made| == i && fresh(made) && fresh(devices) && table == ResetPons(map[], i)
        invariant forall p: nat | p < i ::
                    made[p].id == p && made[p].Valid() && forall o | o in made[p].onus :: o in devices
        invariant forall p: nat | p < i :: made[p].Abs() == NewPon(numOnu, ports)
      {
        table := table[i := map[]];
        var pon := new PonPort(i, numOnu, ports);
        made := made + [pon];
        devices := devices + set o | o in pon.onus;
      }
      this.config, pons, state, fault, flows := config, made, OltCreated, false, map[];
      gems, allocs, onus := table, table, devices;
      new;
      PonValuesAre(NewOlt(numPon, numOnu, ports, config).pons);
    }

    lemma PonValueTo(n: nat, p: nat)
      requires Valid() && p < n <= |pons|
      ensures PonValuesTo(n)[p] == pons[p].Abs()
    {
      if p < n - 1 {
        PonValueTo(n - 1, p);
      }
    }

    lemma PonValueAt(p: nat)
      requires Valid() && p < |pons|
      ensures PonValues()[p] == pons[p].Abs()
    {
      PonValueTo(|pons|, p);
    }

    lemma EachPonValue()
      requires Valid()
      ensures forall p: nat | p < |pons| :: PonValues()[p] == pons[p].Abs()
    {
      forall p: nat | p < |pons|
        ensures PonValues()[p] == pons[p].Abs()
      {
        PonValueAt(p);
      }
    }

    lemma PonValuesAre(s: seq<Pon>)
      requires Valid() && |s| == |pons| && forall p: nat | p < |pons| :: s[p] == pons[p].Abs()
      ensures PonValues() == s
    {
      EachPonValue();
    }

    lemma Apart(p: nat)
      requires Valid() && p < |pons|
      ensures forall q: nat | q < |pons| && q != p :: pons[q] != pons[p]
      ensures forall q: nat, i: nat | q < |pons| && q != p && i < |pons[q].onus| :: pons[q].onus[i] !in pons[p].onus
    {
      forall q: nat, i: nat | q < |pons| && q != p && i < |pons[q].onus|
        ensures pons[q].onus[i] !in pons[p].onus
      {
        assert pons[q].Valid() && pons[q].onus[i].pon == pons[q];
        assert pons[p].Valid();
      }
    }

    // PON ports ---------------------------------------------------------------

    /** GetPonById: the number of PON ports when there is none with the id. */
    method GetPonById(id: nat) returns (p: nat)
      requires Valid()
      ensures p == if id < |pons| then id else |pons|
    {
      p := 0;
      while p < |pons|
        invariant p <= |pons| && p <= id
      {
        if pons[p].id == id {
          return;
        }
        p := p + 1;
      }
    }

    /** A PON port that cannot be found is dereferenced as nil. */
    method EnablePonPort(intf: nat)
      requires Valid()
      modifies this`fault, pons, onus
      ensures Valid()
      ensures Abs() == if intf < |pons| then SetPon(old(Abs()), intf, EnablePon(old(Abs()).pons[intf], config.mode))
                       else old(Abs()).(fault := true)
    {
      hide Fire;
      hide PonValuesTo;
      hide EnablePon;
      var p := GetPonById(intf);
      if p == |pons| {
        fault := true;
        return;
      }
      Apart(p);
      EachPonValue();
      pons[p].Enable(config.mode);
      PonValuesAre(old(PonValues())[p := pons[p].Abs()]);
    }

    method DisablePonPort(intf: nat)
      requires Valid()
      modifies this`fault, pons, onus
      ensures Valid() && Abs() == if intf < |pons| then SetPon(old(Abs()), intf, DisablePon(old(Abs()).pons[intf]))
                       else old(Abs()).(fault := true)
    {
      hide Fire;
      hide PonValuesTo;
      hide DisablePon;
      var p := GetPonById(intf);
      if p == |pons| {
        fault := true;
        return;
      }
      Apart(p);
      EachPonValue();
      pons[p].Disable();
      PonValuesAre(old(PonValues())[p := pons[p].Abs()]);
    }

    // One ONU -----------------------------------------------------------------

    method SendToOnu(p: nat, i: nat, m: Message)
      requires Valid() && p < |pons| && HasOnu(Abs().pons[p], i)
      modifies onus
      ensures Valid()
      ensures var pon := old(Abs()).pons[p];
              Abs() == SetCell(old(Abs()), p, i, Cell(Send(pon.onus[i], m), pon.tables))
    {
      PonValueAt(p);
      Apart(p);
      EachPonValue();
      pons[p].onus[i].SendMessage(m);
      assert pons[p].OnuValues() == old(pons[p].OnuValues())[i := pons[p].onus[i].Abs()];
      PonValuesAre(old(PonValues())[p := pons[p].Abs()]);
    }

    method RecordFlowKey(p: nat, i: nat, key: nat)
      requires Valid() && p < |pons| && HasOnu(Abs().pons[p], i)
      modifies onus
      ensures Valid() && Abs() == RecordFlow(old(Abs()), p, i, key)
    {
      if config.perf {
        return;
      }
      PonValueAt(p);
      Apart(p);
      EachPonValue();
      pons[p].onus[i].flows := pons[p].onus[i].flows + [key];
      assert pons[p].OnuValues() == old(pons[p].OnuValues())[i := pons[p].onus[i].Abs()];
      PonValuesAre(old(PonValues())[p := pons[p].Abs()]);
    }

    method DeleteFlowKey(p: nat, i: nat, key: nat)
      requires Valid() && p < |pons| && HasOnu(Abs().pons[p], i)
      modifies onus
      ensures Valid() && Abs() == DeleteFlow(old(Abs()), p, i, key)
    {
      PonValueAt(p);
      Apart(p);
      EachPonValue();
      pons[p].onus[i].DeleteFlowKey(key);
      assert pons[p].OnuValues() == old(pons[p].OnuValues())[i := pons[p].onus[i].Abs()];
      PonValuesAre(old(PonValues())[p := pons[p].Abs()]);
    }

    /** SetID and the enable event in ActivateOnu. */
    method EnableOnu(p: nat, i: nat, onuId: nat)
      requires Valid() && p < |pons| && HasOnu(Abs().pons[p], i)
      modifies pons, onus
      ensures Valid() && Abs() == SetCell(old(Abs()), p, i, ActivateCell(CellAt(old(Abs()).pons[p], i), i, onuId))
    {
      hide ActivateCell;
      PonValueAt(p);
      Apart(p);
      EachPonValue();
      pons[p].ActivateAt(i, onuId);
      PonValuesAre(old(PonValues())[p := pons[p].Abs()]);
    }

    // FlowAdd -----------------------------------------------------------------

    /** validateFlow, storeGemPortIdByFlow and storeAllocId. */
    static method ReserveIds(gems: Table, allocs: Table, f: Flow) returns (r: Reservation)
      ensures r == Reserve(gems, allocs, f, U32(f.accessIntfId))
    {
      var p, onu := U32(f.accessIntfId), U32(f.onuId);
      var used := FindConflict(gems, p, onu, Gems(f));
      if used {
        return Reservation(gems, allocs, false, false);
      }
      used := FindConflict(allocs, p, onu, {f.allocId});
      if used {
        return Reservation(gems, allocs, false, false);
      }
      var ok, gems' := StoreGems(gems, f);
      if !ok {
        return Reservation(gems, allocs, false, false);
      }
      if !Registered(allocs, p, onu) {
        return Reservation(gems', allocs, false, true);
      }
      var allocs' := StoreId(allocs, p, onu, f.portNo, f.allocId, f.flowId);
      r := Reservation(gems', allocs', true, false);
    }

    method ApplyReservation(r: Reservation)
      requires Valid()
      modifies this`gems, this`allocs, this`fault
      ensures Valid() && Abs() == Reserved(old(Abs()), r)
    {
      gems, allocs, fault := r.gems, r.allocs, fault || r.panics;
    }

    /** Stores what has been reserved and, if that worked, tells the ONU. */
    method CompleteAdd(r: Reservation, f: Flow, p: nat, i: nat)
      requires Valid() && p < |pons| && HasOnu(Abs().pons[p], i)
      modifies this`gems, this`allocs, this`fault, onus
      ensures Valid() && Abs() == Completed(old(Abs()), r, f, p, i)
    {
      ApplyReservation(r);
      if r.ok {
        SendToOnu(p, i, OnuModel.AddFlow(f));
      }
    }

    method StoreFlowResources(f: Flow, p: nat, i: nat)
      requires Valid() && p == U32(f.accessIntfId) && p < |pons| && HasOnu(Abs().pons[p], i)
      modifies this`gems, this`allocs, this`fault, onus
      ensures Valid() && Abs() == StoreResources(old(Abs()), f, p, i)
    {
      var r := ReserveIds(gems, allocs, f);
      ReserveStores(Abs(), f, p, i, r);
      CompleteAdd(r, f, p, i);
    }

    method AddFlowAt(f: Flow, p: nat, i: nat)
      requires Valid() && p == U32(f.accessIntfId) && p < |pons|
      modifies this`gems, this`allocs, this`fault, onus
      ensures Valid() && Abs() == AddOnuFlow(old(Abs()), f, p, i)
    {
      PonValueAt(p);
      if i >= |pons[p].onus| {
        return;
      }
      if IsOff(pons[p].onus[i].state) {
        return;
      }
      RecordFlowKey(p, i, f.flowId);
      StoreFlowResources(f, p, i);
    }

    method StoreCopy(f: Flow)
      requires Valid()
      modifies this`flows
      ensures Valid() && Abs() == StoreFlow(old(Abs()), f)
    {
      if !config.perf {
        flows := flows[f.flowId := f];
      }
    }

    method AddStored(f: Flow)
      requires Valid()
      modifies this`gems, this`allocs, this`fault, onus
      ensures Valid() && Abs() == AddRest(old(Abs()), f)
    {
      hide FindOnu;
      hide AddOnuFlow;
      if f.accessIntfId == -1 || f.multicast {
        return;
      }
      var p := GetPonById(U32(f.accessIntfId));
      if p == |pons| {
        fault := true;
        return;
      }
      PonValueAt(p);
      var i := pons[p].GetOnuById(U32(f.onuId));
      AddFlowAt(f, p, i);
    }

    method FlowAdd(f: Flow)
      requires Valid()
      modifies this, onus
      ensures Valid() && Abs() == AddFlowStep(old(Abs()), f)
    {
      AddInStages(Abs(), f);
      StoreCopy(f);
      AddStored(f);
    }

    // FlowRemove --------------------------------------------------------------

    /** GetOnuByFlowId: nested loops over PON ports, ONUs and flow ids. */
    method GetOnuByFlowId(flowId: nat) returns (r: Option<(nat, nat)>)
      requires Valid()
      ensures r == FindByFlowId(PonValues(), flowId)
    {
      hide PonValuesTo;
      hide FindByFlowId;
      EachPonValue();
      for p := 0 to |pons|
        invariant forall q: nat, i: nat | q < p && i < |pons[q].onus| :: flowId !in pons[q].onus[i].flowIds
      {
        for i := 0 to |pons[p].onus|
          invariant forall j: nat | j < i :: flowId !in pons[p].onus[j].flowIds
        {
          var here := Contains(pons[p].onus[i].flowIds, flowId);
          if here {
            FindByFlowIdIs(PonValues(), p, i, flowId);
            return Some((p, i));
          }
        }
      }
      FindByFlowIdNone(PonValues(), flowId);
      r := None;
    }

    static method Contains(s: seq<nat>, x: nat) returns (found: bool)
      ensures found <==> x in s
    {
      for i := 0 to |s|
        invariant x !in s[..i]
      {
        if s[i] == x {
          return true;
        }
      }
      assert s[..|s|] == s;
      found := false;
    }

    method NotifyOnu(f: Flow)
      requires Valid()
      modifies onus
      ensures Valid() && Abs() == NotifyRemoval(old(Abs()), f)
    {
      if f.accessIntfId == -1 || f.multicast {
        return;
      }
      var found := GetOnuByFlowId(f.flowId);
      EachPonValue();
      match found {
        case None =>
        case Some((p, i)) => SendToOnu(p, i, RemoveFlow(f.flowId));
      }
    }

    /** freeGemPortId and freeAllocId. */
    method FreeIds(flowId: nat)
      requires Valid()
      modifies this`gems, this`allocs
      ensures Valid() && Abs() == Freed(old(Abs()), flowId)
    {
      hide PonValues;
      hide Free;
      hide Flat;
      gems := FreeInTable(gems, flowId);
      allocs := FreeInTable(allocs, flowId);
    }

    /** The ONU the stored copy of a flow leads to. */
    method GetOwner(stored: Flow) returns (r: Option<(nat, nat)>)
      requires Valid()
      ensures r == Owner(Abs(), stored)
    {
      var p := GetPonById(U32(stored.accessIntfId));
      if p == |pons| {
        return None;
      }
      PonValueAt(p);
      var i := pons[p].GetOnuById(U32(stored.onuId));
      r := if i == |pons[p].onus| then None else Some((p, i));
    }

    /** Drops the stored flow; false when FlowRemove returns before it tells an ONU. */
    method ForgetFlow(flowId: nat) returns (go: bool)
      requires Valid()
      modifies this`flows, onus
      ensures Valid() && (Abs(), go) == Forget(old(Abs()), flowId)
    {
      if config.perf {
        return true;
      }
      if flowId !in flows {
        return false;
      }
      if flows[flowId].accessIntfId != -1 {
        var owner := GetOwner(flows[flowId]);
        match owner {
          case None => return false;
          case Some((p, i)) => DeleteFlowKey(p, i, flowId);
        }
      }
      flows := flows - {flowId};
      go := true;
    }

    method FlowRemove(f: Flow)
      requires Valid()
      modifies this, onus
      ensures Valid() && Abs() == RemoveFlowStep(old(Abs()), f)
    {
      RemoveInStages(Abs(), f);
      FreeIds(f.flowId);
      var go := ForgetFlow(f.flowId);
      if go {
        NotifyOnu(f);
      }
    }

    // ActivateOnu and reboot --------------------------------------------------

    /** sn is the position of the ONU the serial number belongs to. */
    method ActivateOnu(intf: nat, onuId: nat, sn: nat)
      requires Valid()
      modifies this, pons, onus
      ensures Valid() && Abs() == ActivateStep(old(Abs()), intf, onuId, sn)
    {
      hide PonValuesTo;
      hide ActivateCell;
      hide Register;
      var p := GetPonById(intf);
      if p == |pons| {
        return;
      }
      if intf !in allocs || intf !in gems {
        fault := true;
        return;
      }
      allocs := Register(allocs, intf, onuId);
      gems := Register(gems, intf, onuId);
      assert PonValues() == old(PonValues());
      PonValueAt(p);
      if sn >= |pons[p].onus| {
        fault := true;
        return;
      }
      EnableOnu(p, sn, onuId);
    }

    /** The loop over the PON ports in clearAllResources. */
    method ClearPons()
      requires Valid()
      modifies pons
      ensures Valid() && PonValues() == ClearTables(old(PonValues()))
    {
      hide PonValuesTo;
      EachPonValue();
      ghost var was := PonValues();
      for p := 0 to |pons|
        invariant Valid()
        invariant forall q: nat | q < p :: pons[q].Abs() == was[q].(tables := EMPTY_TABLES)
        invariant forall q: nat | p <= q < |pons| :: pons[q].Abs() == was[q]
      {
        Apart(p);
        pons[p].RemoveAll();
      }
      PonValuesAre(ClearTables(was));
    }

    /** The loop over the PON ports in InitOlt. */
    method ResetTables()
      modifies this`gems, this`allocs
      ensures gems == ResetPons(old(gems), |pons|) && allocs == ResetPons(old(allocs), |pons|)
    {
      for p := 0 to |pons|
        invariant gems == ResetPons(old(gems), p) && allocs == ResetPons(old(allocs), p)
      {
        allocs := allocs[p := map[]];
        gems := gems[p := map[]];
      }
    }

    /** The events of the OLT with their resource callbacks. */
    method FireOltEvent(e: OltTransition)
      requires Valid()
      modifies this, pons
      ensures Valid() && Abs() == OltStep(old(Abs()), e)
    {
      hide PonValuesTo;
      if !OltAllowed(state, e) {
        return;
      }
      match e {
        case TxInitialize =>
          state := OltInitialized;
          ResetTables();
        case TxEnable => state := OltEnabled;
        case TxDisable => state := OltDisabled;
        case TxDelete =>
          state := OltDeleted;
          gems := map[];
          allocs := map[];
          ClearPons();
      }
    }

    // Every entry point -------------------------------------------------------

    method ActAt(intf: nat, sn: nat, a: OnuAction, crc: string -> nat)
      requires Valid() && intf < |pons| && HasOnu(Abs().pons[intf], sn)
      modifies pons, onus
      ensures Valid()
      ensures Abs() ==
                SetCell(old(Abs()), intf, sn,
                        ActOnu(CellAt(old(Abs()).pons[intf], sn), intf, sn, a, state.OltDeleted?, config.rate, crc))
    {
      hide ActOnu;
      PonValueAt(intf);
      Apart(intf);
      EachPonValue();
      pons[intf].onus[sn].Act(a, state.OltDeleted?, config.rate, crc);
      assert pons[intf].OnuValues() == old(pons[intf].OnuValues())[sn := pons[intf].onus[sn].Abs()];
      PonValuesAre(old(PonValues())[intf := pons[intf].Abs()]);
    }

    /** Whichever entry point is called, the objects take the step of the model. */
    method Perform(a: Action, crc: string -> nat)
      requires Valid()
      modifies this, pons, onus
      ensures Valid() && Abs() == Step(old(Abs()), a, crc)
    {
      hide AddFlowStep;
      hide RemoveFlowStep;
      hide ActivateStep;
      hide OltStep;
      hide ActOnu;
      hide EnablePon;
      hide DisablePon;
      match a {
        case FlowAdd(f) => FlowAdd(f);
        case FlowRemove(f) => FlowRemove(f);
        case Activate(intf, onuId, sn) => ActivateOnu(intf, onuId, sn);
        case PonUp(intf) => EnablePonPort(intf);
        case PonLow(intf) => DisablePonPort(intf);
        case AtOnu(intf, sn, act) =>
          if intf < |pons| {
            PonValueAt(intf);
            if sn < |pons[intf].onus| {
              ActAt(intf, sn, act, crc);
            }
          }
        case OltEvent(e) => FireOltEvent(e);
      }
    }
  }

  /**
    A device on which any sequence of calls is made goes through the states of the model, so
    what is proved of every run holds of the objects.
   */
  method Replay(numPon: nat, numOnu: nat, ports: nat, config: Config, calls: seq<Action>, crc: string -> nat)
    returns (olt: OltDevice, ghost states: seq<Olt>)
    ensures Trace(states, calls, crc) && states[0] == NewOlt(numPon, numOnu, ports, config)
    ensures olt.Valid() && olt.Abs() == states[|calls|]
    ensures RunTheorems.Kept(states, calls, crc)
  {
    hide RunTheorems.Kept;
    hide Step;
    olt := new OltDevice(numPon, numOnu, ports, config);
    states := [olt.Abs()];
    for k := 0 to |calls|
      invariant olt.Valid() && fresh(olt) && fresh(olt.pons) && fresh(olt.onus)
      invariant Trace(states, calls[..k], crc) && states[0] == NewOlt(numPon, numOnu, ports, config)
      invariant olt.Abs() == states[k]
    {
      olt.Perform(calls[k], crc);
      assert Follows(states[k], calls[k], olt.Abs(), crc);
      states := states + [olt.Abs()];
    }
    assert calls[..|calls|] == calls;
    RunTheorems.RunKeeps(numPon, numOnu, ports, config, states, calls, crc);
  }

  lemma {:induction false} FindFlowIdIs(onus: seq<Onu>, i: nat, flow: nat)
    requires i < |onus| && flow in onus[i].flowIds
    requires forall j: nat | j < i :: flow !in onus[j].flowIds
    ensures FindFlowId(onus, flow) == i
  {
  }

  lemma FindByFlowIdNone(pons: seq<Pon>, flow: nat)
    requires forall q: nat, j: nat | q < |pons| && j < |pons[q].onus| :: flow !in pons[q].onus[j].flowIds
    ensures FindByFlowId(pons, flow) == None
  {
  }

  lemma {:induction false} FindByFlowIdIs(pons: seq<Pon>, p: nat, i: nat, flow: nat)
    requires p < |pons| && HasOnu(pons[p], i) && flow in pons[p].onus[i].flowIds
    requires forall q: nat, j: nat | q < p && j < |pons[q].onus| :: flow !in pons[q].onus[j].flowIds
    requires forall j: nat | j < i :: flow !in pons[p].onus[j].flowIds
    ensures FindByFlowId(pons, flow) == Some((p, i))
  {
    if p == 0 {
      FindFlowIdIs(pons[0].onus, i, flow);
    } else {
      FindByFlowIdIs(pons[1..], p - 1, i, flow);
      assert FindFlowId(pons[0].onus, flow) == |pons[0].onus|;
    }
  }
}
