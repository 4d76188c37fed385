/** What every run of the device keeps true of the GEM port and alloc id tables. */
module ResourceRuns {
  import opened FlowTables
  import opened OnuFsm
  import opened OnuModel
  import opened DeviceModel

  /** Both tables register the same ONUs, and every PON unless a reboot is in progress. */
  ghost predicate Agree(s: Olt) {
    && (forall p: nat, o: nat :: Registered(s.gems, p, o) <==> Registered(s.allocs, p, o))
    && (s.state.OltDeleted? ==> s.gems == map[] && s.allocs == map[])
    && (!s.state.OltDeleted? ==> forall p: nat :: p < |s.pons| <==> p in s.gems)
    && (!s.state.OltDeleted? ==> forall p: nat :: p < |s.pons| <==> p in s.allocs)
  }

  ghost predicate GoodTable(t: Table) {
    Counted(t) && Exclusive(t)
  }

  ghost predicate GoodTables(s: Olt) {
    GoodTable(s.gems) && GoodTable(s.allocs) && Agree(s)
  }

  lemma ResetPonsKeys(t: Table, n: nat)
    ensures forall p: nat :: p in ResetPons(t, n) <==> p in t || p < n
    ensures forall p: nat :: p < n ==> ResetPons(t, n)[p] == map[]
    ensures forall p: nat :: p in t && p >= n ==> ResetPons(t, n)[p] == t[p]
  {
  }

  /** A table that registers no ONU at all. */
  lemma ResetPonsGood(t: Table, n: nat)
    requires forall p: nat :: p in t ==> p < n
    ensures GoodTable(ResetPons(t, n))
    ensures forall p: nat, o: nat :: !Registered(ResetPons(t, n), p, o)
    ensures ResetPons(t, n) == Fresh(n)
    ensures forall p: nat :: p in ResetPons(t, n) <==> p < n
  {
    ResetPonsKeys(t, n);
    ResetPonsKeys(map[], n);
  }

  lemma PutGood(t: Table, pon: nat, onu: nat, port: nat, ids: set<Int32>, flow: nat)
    requires Registered(t, pon, onu) && GoodTable(t)
    requires !Conflict(t, pon, onu, ids)
    ensures GoodTable(Put(t, pon, onu, port, ids, flow))
    ensures forall p: nat :: p in Put(t, pon, onu, port, ids, flow) <==> p in t
    ensures forall p: nat, o: nat :: Registered(Put(t, pon, onu, port, ids, flow), p, o) <==> Registered(t, p, o)
  {
    PutKeepsCounted(t, pon, onu, port, ids, flow);
    PutKeepsExclusiveIff(t, pon, onu, port, ids, flow);
  }

  lemma FreeGood(t: Table, flow: nat)
    requires GoodTable(t)
    ensures GoodTable(Free(t, flow))
    ensures forall p: nat :: p in Free(t, flow) <==> p in t
    ensures forall p: nat, o: nat :: Registered(Free(t, flow), p, o) <==> Registered(t, p, o)
  {
    FreeKeepsCounted(t, flow);
    FreeHolds(t, flow);
    SubRelationKeepsExclusive(t, Free(t, flow));
  }

  lemma RegisterGood(t: Table, pon: nat, onu: nat)
    requires pon in t && GoodTable(t)
    ensures GoodTable(Register(t, pon, onu))
    ensures forall p: nat :: p in Register(t, pon, onu) <==> p in t
    ensures forall p: nat, o: nat :: Registered(Register(t, pon, onu), p, o) <==>
              Registered(t, p, o) || (p == pon && o == onu)
  {
    RegisterKeepsCounted(t, pon, onu);
    RegisterHolds(t, pon, onu);
    SubRelationKeepsExclusive(t, Register(t, pon, onu));
  }

  lemma StoreKeepsGoodTables(s: Olt, f: Flow, p: nat, i: nat)
    requires p < |s.pons| && HasOnu(s.pons[p], i) && GoodTables(s)
    ensures GoodTables(StoreResources(s, f, p, i)) && |StoreResources(s, f, p, i).pons| == |s.pons|
  {
    var onu := U32(f.onuId);
    if Registered(s.gems, p, onu) && !Conflict(s.gems, p, onu, Gems(f)) {
      PutGood(s.gems, p, onu, f.portNo, Gems(f), f.flowId);
      if !Conflict(s.allocs, p, onu, {f.allocId}) {
        PutGood(s.allocs, p, onu, f.portNo, {f.allocId}, f.flowId);
      }
    }
  }

  lemma AddOnuFlowKeepsGoodTables(s: Olt, f: Flow, p: nat, i: nat)
    requires p < |s.pons| && GoodTables(s)
    ensures GoodTables(AddOnuFlow(s, f, p, i)) && |AddOnuFlow(s, f, p, i).pons| == |s.pons|
  {
    if HasOnu(s.pons[p], i) {
      var s1 := RecordFlow(s, p, i, f.flowId);
      assert GoodTables(s1);
      StoreKeepsGoodTables(s1, f, p, i);
    }
  }

  lemma AddKeepsGoodTables(s: Olt, f: Flow)
    requires GoodTables(s)
    ensures GoodTables(AddFlowStep(s, f)) && |AddFlowStep(s, f).pons| == |s.pons|
  {
    var s1 := StoreFlow(s, f);
    assert GoodTables(s1);
    var p := U32(f.accessIntfId);
    if p < |s.pons| {
      AddOnuFlowKeepsGoodTables(s1, f, p, FindOnu(s.pons[p].onus, U32(f.onuId)));
    }
  }

  lemma RemoveFrees(s: Olt, f: Flow)
    ensures RemoveFlowStep(s, f).gems == Free(s.gems, f.flowId)
    ensures RemoveFlowStep(s, f).allocs == Free(s.allocs, f.flowId)
    ensures RemoveFlowStep(s, f).state == s.state && |RemoveFlowStep(s, f).pons| == |s.pons|
  {
    hide NotifyRemoval;
    hide DeleteFlow;
    hide Owner;
  }

  lemma RemoveKeepsGoodTables(s: Olt, f: Flow)
    requires GoodTables(s)
    ensures GoodTables(RemoveFlowStep(s, f))
  {
    RemoveFrees(s, f);
    FreeGood(s.gems, f.flowId);
    FreeGood(s.allocs, f.flowId);
  }

  lemma ActivateKeepsGoodTables(s: Olt, intf: nat, onuId: nat, sn: nat)
    requires GoodTables(s)
    ensures GoodTables(ActivateStep(s, intf, onuId, sn)) && |ActivateStep(s, intf, onuId, sn).pons| == |s.pons|
  {
    if intf in s.gems && intf in s.allocs {
      RegisterGood(s.gems, intf, onuId);
      RegisterGood(s.allocs, intf, onuId);
    }
  }

  lemma OltStepKeepsGoodTables(s: Olt, e: OltTransition)
    requires GoodTables(s)
    ensures GoodTables(OltStep(s, e)) && |OltStep(s, e).pons| == |s.pons|
  {
    if OltAllowed(s.state, e) && e.TxInitialize? {
      ResetPonsGood(s.gems, |s.pons|);
      ResetPonsGood(s.allocs, |s.pons|);
    }
  }

  lemma StepKeepsGoodTables(s: Olt, a: Action, crc: string -> nat)
    requires GoodTables(s)
    ensures GoodTables(Step(s, a, crc))
    ensures |Step(s, a, crc).pons| == |s.pons|
  {
    match a
    case FlowAdd(f) => AddKeepsGoodTables(s, f);
    case FlowRemove(f) =>
      RemoveKeepsGoodTables(s, f);
      RemoveFrees(s, f);
    case Activate(intf, onuId, sn) => ActivateKeepsGoodTables(s, intf, onuId, sn);
    case OltEvent(e) => OltStepKeepsGoodTables(s, e);
    case _ => assert OnlyPons(s.(fault := Step(s, a, crc).fault), Step(s, a, crc));
  }

  lemma NewOltGoodTables(pons: nat, onus: nat, ports: nat, config: Config)
    ensures GoodTables(NewOlt(pons, onus, ports, config))
  {
    ResetPonsGood(map[], pons);
    ResetPonsKeys(map[], pons);
  }

  /**
    Every state of every run keeps what the created device has: no GEM port and no alloc id of
    a PON is in use on two ONU ids, every id in use is referenced by a flow, and the two
    tables register the same ONUs.
   */
  lemma {:induction false} RunKeepsGoodTables(states: seq<Olt>, run: seq<Action>, crc: string -> nat, n: nat)
    requires Trace(states, run, crc) && GoodTables(states[0]) && n <= |run|
    ensures GoodTables(states[n]) && |states[n].pons| == |states[0].pons|
  {
    hide Step;
    if n > 0 {
      RunKeepsGoodTables(states, run, crc, n - 1);
      TraceNext(states, run, crc, n - 1);
      StepKeepsGoodTables(states[n - 1], run[n - 1], crc);
    }
  }

  /** From creation, no state lets two ONUs of a PON hold the same id, whichever flows put it there. */
  lemma ReachableExclusive(
      pons: nat, onus: nat, ports: nat, config: Config,
      states: seq<Olt>, run: seq<Action>, crc: string -> nat, n: nat, e: Entry, e': Entry)
    requires Trace(states, run, crc) && states[0] == NewOlt(pons, onus, ports, config) && n <= |run|
    requires e.key.pon == e'.key.pon && e.key.id == e'.key.id
    ensures Holds(states[n].gems, e) && Holds(states[n].gems, e') ==> e.key.onu == e'.key.onu
    ensures Holds(states[n].allocs, e) && Holds(states[n].allocs, e') ==> e.key.onu == e'.key.onu
  {
    hide Step;
    NewOltGoodTables(pons, onus, ports, config);
    RunKeepsGoodTables(states, run, crc, n);
  }

  /** Deleting and initializing the OLT gives back the tables it was created with. */
  lemma RebootRestoresTables(s: Olt)
    requires GoodTables(s) && OltAllowed(s.state, TxDelete)
    ensures var s' := OltStep(OltStep(s, TxDelete), TxInitialize);
            && s'.gems == Fresh(|s.pons|) && s'.allocs == Fresh(|s.pons|) && s'.state.OltInitialized?
            && |s'.pons| == |s.pons| && forall p | 0 <= p < |s'.pons| :: s'.pons[p].tables == EMPTY_TABLES
  {
  }

  /**
    Storing the ids of the flow writes into a missing map: it is a replicated flow without any
    GEM port, for an ONU that was never activated, and its alloc id is free.
   */
  ghost predicate StoresInNoMap(s: Olt, f: Flow, p: nat) {
    Gems(f) == {} && !Registered(s.gems, p, U32(f.onuId)) && !Conflict(s.allocs, p, U32(f.onuId), {f.allocId})
  }

  lemma StoreFaultsIff(s: Olt, f: Flow, p: nat, i: nat)
    requires p < |s.pons| && HasOnu(s.pons[p], i) && GoodTables(s)
    ensures StoreResources(s, f, p, i).fault <==> s.fault || StoresInNoMap(s, f, p)
  {
  }

  lemma AddOnuFaultsIff(s: Olt, f: Flow, p: nat, i: nat)
    requires p < |s.pons| && GoodTables(s)
    ensures AddOnuFlow(s, f, p, i).fault <==>
              s.fault || (HasOnu(s.pons[p], i) && !IsOff(s.pons[p].onus[i].state) && StoresInNoMap(s, f, p))
  {
    hide StoreResources;
    hide GoodTables;
    if HasOnu(s.pons[p], i) && !IsOff(s.pons[p].onus[i].state) {
      var s1 := RecordFlow(s, p, i, f.flowId);
      GoodTablesSame(s, s1);
      StoreFaultsIff(s1, f, p, i);
    }
  }

  lemma GoodTablesSame(s: Olt, s': Olt)
    requires GoodTables(s) && s'.gems == s.gems && s'.allocs == s.allocs
    requires s'.state == s.state && |s'.pons| == |s.pons|
    ensures GoodTables(s')
  {
  }

  /**
    FlowAdd panics in a reachable state exactly when the flow names a PON that does not exist, or
    an ONU that is not switched off and its ids would be stored in a missing map.
   */
  lemma AddFaultsIff(s: Olt, f: Flow)
    requires GoodTables(s) && !s.fault
    ensures AddFlowStep(s, f).fault <==>
              && f.accessIntfId != -1 && !f.multicast
              && var p := U32(f.accessIntfId);
                 || p >= |s.pons|
                 || (Owner(s, f).Some? && !IsOff(OnuAt(s, p, Owner(s, f).value.1).state) &&
                     StoresInNoMap(s, f, p))
  {
    hide AddOnuFlow;
    hide GoodTables;
    hide StoresInNoMap;
    var p := U32(f.accessIntfId);
    var s1 := StoreFlow(s, f);
    if p < |s.pons| {
      GoodTablesSame(s, s1);
      AddOnuFaultsIff(s1, f, p, FindOnu(s.pons[p].onus, U32(f.onuId)));
      assert StoresInNoMap(s1, f, p) == StoresInNoMap(s, f, p) by { StoresSame(s, s1, f, p); }
    }
  }

  lemma StoresSame(s: Olt, s': Olt, f: Flow, p: nat)
    requires s'.gems == s.gems && s'.allocs == s.allocs
    ensures StoresInNoMap(s', f, p) == StoresInNoMap(s, f, p)
  {
  }

  /** The second table is the first one plus the references of the flow to the given ids. */
  ghost predicate Gained(t: Table, t': Table, p: nat, f: Flow, ids: set<Int32>) {
    forall e: Entry :: Holds(t', e) <==>
      (Holds(t, e) || (e.key.id in ids && At(e.key, p, U32(f.onuId), f.portNo) && e.flow == f.flowId))
  }

  /** Either every GEM port and the alloc id of the flow are stored, or the tables are untouched. */
  lemma AddIsAllOrNothing(s: Olt, f: Flow, p: nat, i: nat)
    requires p < |s.pons| && HasOnu(s.pons[p], i) && GoodTables(s)
    ensures var s' := StoreResources(s, f, p, i);
            || (s'.gems == s.gems && s'.allocs == s.allocs)
            || (Gained(s.gems, s'.gems, p, f, Gems(f)) && Gained(s.allocs, s'.allocs, p, f, {f.allocId}))
  {
    var onu := U32(f.onuId);
    if Registered(s.gems, p, onu) {
      PutLists(s.gems, p, onu, f.portNo, Gems(f), f.flowId);
      PutLists(s.allocs, p, onu, f.portNo, {f.allocId}, f.flowId);
    }
  }

  /** A flow id the tables do not know: adding and removing the flow leaves both relations as they were. */
  lemma RemoveUndoesAdd(s: Olt, f: Flow)
    requires GoodTables(s)
    requires forall e: Entry :: Holds(s.gems, e) || Holds(s.allocs, e) ==> e.flow != f.flowId
    ensures var s' := RemoveFlowStep(AddFlowStep(s, f), f);
            Flat(s'.gems) == Flat(s.gems) && Flat(s'.allocs) == Flat(s.allocs)
  {
    var s1 := AddFlowStep(s, f);
    RemoveFrees(s1, f);
    FreeHolds(s1.gems, f.flowId);
    FreeHolds(s1.allocs, f.flowId);
    AddTouchesOwnFlow(s, f);
  }

  ghost predicate SameButFor(t: Table, t': Table, flow: nat) {
    forall e: Entry :: e.flow != flow ==> (Holds(t', e) <==> Holds(t, e))
  }

  ghost predicate TouchesOnly(s: Olt, s': Olt, flow: nat) {
    SameButFor(s.gems, s'.gems, flow) && SameButFor(s.allocs, s'.allocs, flow)
  }

  lemma StoreTouchesOwnFlow(s: Olt, f: Flow, p: nat, i: nat)
    requires p < |s.pons| && HasOnu(s.pons[p], i) && GoodTables(s)
    ensures TouchesOnly(s, StoreResources(s, f, p, i), f.flowId)
  {
    AddIsAllOrNothing(s, f, p, i);
  }

  lemma AddOnuTouchesOwnFlow(s: Olt, f: Flow, p: nat, i: nat)
    requires p < |s.pons| && GoodTables(s)
    ensures TouchesOnly(s, AddOnuFlow(s, f, p, i), f.flowId)
  {
    if HasOnu(s.pons[p], i) {
      var s1 := RecordFlow(s, p, i, f.flowId);
      assert GoodTables(s1);
      StoreTouchesOwnFlow(s1, f, p, i);
    }
  }

  lemma AddTouchesOwnFlow(s: Olt, f: Flow)
    requires GoodTables(s)
    ensures TouchesOnly(s, AddFlowStep(s, f), f.flowId)
  {
    var s1 := StoreFlow(s, f);
    assert GoodTables(s1);
    var p: nat := U32(f.accessIntfId);
    if p < |s.pons| {
      AddOnuTouchesOwnFlow(s1, f, p, FindOnu(s.pons[p].onus, U32(f.onuId)));
    }
  }
}
