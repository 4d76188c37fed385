/**
  ActivateOnu and the ONU ids that the two tables of the OLT register: which ids a run has
  registered, and that an ONU that is in service has its own id among them.
 */
module Registrations {
  import opened Basics
  import opened FlowTables
  import opened OnuFsm
  import opened OnuModel
  import opened DeviceModel
  import opened ResourceRuns
  import opened FlowOutcomes
  import opened OnuLifecycle

  /**
    Activating an ONU id on an existing PON registers that id, without entries, in both tables, and
    leaves every other id as it was.
   */
  lemma ActivateRegisters(s: Olt, intf: nat, onuId: nat, sn: nat, p: nat, id: nat)
    requires GoodTables(s) && intf < |s.pons| && !s.state.OltDeleted?
    ensures var s' := ActivateStep(s, intf, onuId, sn);
            && Registered(s'.gems, intf, onuId) && Registered(s'.allocs, intf, onuId)
            && (forall e: Entry | e.key.pon == intf && e.key.onu == onuId :: !Holds(s'.gems, e) && !Holds(s'.allocs, e))
            && (!(p == intf && id == onuId) ==>
                  && (Registered(s'.gems, p, id) <==> Registered(s.gems, p, id))
                  && (Registered(s'.allocs, p, id) <==> Registered(s.allocs, p, id))
                  && (forall e: Entry | e.key.pon == p && e.key.onu == id ::
                        (Holds(s'.gems, e) <==> Holds(s.gems, e)) && (Holds(s'.allocs, e) <==> Holds(s.allocs, e))))
  {
    hide Fire;
    hide Register;
    hide Holds;
    RegisterHolds(s.gems, intf, onuId);
    RegisterHolds(s.allocs, intf, onuId);
    RegisterGood(s.gems, intf, onuId);
    RegisterGood(s.allocs, intf, onuId);
  }

  // ---------------------------------------------------------------------------
  // Which ids are registered

  lemma AddKeepsRegistered(s: Olt, f: Flow, p: nat, id: nat)
    requires GoodTables(s)
    ensures var s' := AddFlowStep(s, f);
            (Registered(s'.gems, p, id) <==> Registered(s.gems, p, id)) &&
            (Registered(s'.allocs, p, id) <==> Registered(s.allocs, p, id))
  {
    hide GoodTables;
    hide StoreResources;
    hide RecordFlow;
    var s1 := StoreFlow(s, f);
    var q := U32(f.accessIntfId);
    if f.accessIntfId != -1 && !f.multicast && q < |s.pons| {
      var i := FindOnu(s.pons[q].onus, U32(f.onuId));
      if HasOnu(s.pons[q], i) && !IsOff(s.pons[q].onus[i].state) {
        var s2 := RecordFlow(s1, q, i, f.flowId);
        GoodTablesSame(s, s2);
        StoreKeepsRegistered(s2, f, q, i, p, id);
      }
    }
  }

  lemma StoreKeepsRegistered(s: Olt, f: Flow, q: nat, i: nat, p: nat, id: nat)
    requires GoodTables(s) && IsOnu(s, q, i)
    ensures var s' := StoreResources(s, f, q, i);
            (Registered(s'.gems, p, id) <==> Registered(s.gems, p, id)) &&
            (Registered(s'.allocs, p, id) <==> Registered(s.allocs, p, id))
  {
    hide Put;
    hide Gems;
    var onu := U32(f.onuId);
    if Registered(s.gems, q, onu) && !Conflict(s.gems, q, onu, Gems(f)) && !Conflict(s.allocs, q, onu, {f.allocId}) {
      PutGood(s.gems, q, onu, f.portNo, Gems(f), f.flowId);
      PutGood(s.allocs, q, onu, f.portNo, {f.allocId}, f.flowId);
    }
  }

  lemma OltRegistered(s: Olt, t: OltTransition, p: nat, id: nat)
    requires GoodTables(s)
    ensures var s' := OltStep(s, t);
            && (Registered(s'.gems, p, id) <==> Registered(s.gems, p, id) && !Clears(s, OltEvent(t)))
            && (Registered(s'.allocs, p, id) <==> Registered(s.allocs, p, id) && !Clears(s, OltEvent(t)))
  {
    if OltAllowed(s.state, t) && t.TxInitialize? {
      ResetPonsGood(s.gems, |s.pons|);
      ResetPonsGood(s.allocs, |s.pons|);
    }
  }

  lemma ActivateRegistered(s: Olt, intf: nat, onuId: nat, sn: nat, p: nat, id: nat)
    requires GoodTables(s)
    ensures var s' := ActivateStep(s, intf, onuId, sn);
            var now := Activates(s, Activate(intf, onuId, sn), p, id);
            && (Registered(s'.gems, p, id) <==> now || Registered(s.gems, p, id))
            && (Registered(s'.allocs, p, id) <==> now || Registered(s.allocs, p, id))
  {
    hide Fire;
    hide Register;
    if intf in s.gems && intf in s.allocs {
      RegisterGood(s.gems, intf, onuId);
      RegisterGood(s.allocs, intf, onuId);
    }
  }

  lemma StepRegistered(s: Olt, a: Action, crc: string -> nat, p: nat, id: nat)
    requires GoodTables(s)
    ensures var s' := Step(s, a, crc);
            && (Registered(s'.gems, p, id) <==> Activates(s, a, p, id) || (Registered(s.gems, p, id) && !Clears(s, a)))
            && (Registered(s'.allocs, p, id) <==>
                  Activates(s, a, p, id) || (Registered(s.allocs, p, id) && !Clears(s, a)))
  {
    hide GoodTables;
    hide AddFlowStep;
    hide RemoveFlowStep;
    hide ActivateStep;
    hide OltStep;
    hide ActOnu;
    hide EnablePon;
    hide DisablePon;
    match a
    case FlowAdd(f) => AddKeepsRegistered(s, f, p, id);
    case FlowRemove(f) =>
      RemoveFrees(s, f);
      FreeKeepsRegistered(s, f.flowId, p, id);
    case Activate(intf, onuId, sn) => ActivateRegistered(s, intf, onuId, sn, p, id);
    case OltEvent(t) => OltRegistered(s, t, p, id);
    case _ =>
  }

  lemma FreeKeepsRegistered(s: Olt, flow: nat, p: nat, id: nat)
    requires GoodTables(s)
    ensures Registered(Free(s.gems, flow), p, id) <==> Registered(s.gems, p, id)
    ensures Registered(Free(s.allocs, flow), p, id) <==> Registered(s.allocs, p, id)
  {
    FreeGood(s.gems, flow);
    FreeGood(s.allocs, flow);
  }

  /** Step m activated the id, and none of the steps up to n cleared the tables. */
  ghost predicate ActivatedAt(states: seq<Olt>, run: seq<Action>, m: nat, n: nat, p: nat, id: nat)
    requires |states| == |run| + 1 && n <= |run|
  {
    m < n && Activates(states[m], run[m], p, id) && forall k | m < k < n :: !Clears(states[k], run[k])
  }

  ghost predicate Activated(states: seq<Olt>, run: seq<Action>, n: nat, p: nat, id: nat)
    requires |states| == |run| + 1 && n <= |run|
  {
    exists m: nat :: ActivatedAt(states, run, m, n, p, id)
  }

  lemma ActivatedNext(states: seq<Olt>, run: seq<Action>, n: nat, p: nat, id: nat)
    requires |states| == |run| + 1 && 0 < n <= |run|
    ensures Activated(states, run, n, p, id) <==>
              || Activates(states[n - 1], run[n - 1], p, id)
              || (Activated(states, run, n - 1, p, id) && !Clears(states[n - 1], run[n - 1]))
  {
    hide Activates;
    hide Clears;
    var l := n - 1;
    if m: nat :| ActivatedAt(states, run, m, n, p, id) {
      if m < l { assert ActivatedAt(states, run, m, l, p, id); }
    }
    if Activates(states[l], run[l], p, id) {
      assert ActivatedAt(states, run, l, n, p, id);
    }
    if m: nat :| ActivatedAt(states, run, m, l, p, id) {
      if !Clears(states[l], run[l]) {
        assert ActivatedAt(states, run, m, n, p, id);
      }
    }
  }

  /**
    In every state of every run of a created device both tables register exactly the ONU ids that
    were activated since they were last cleared.
   */
  lemma {:induction false} RegisteredIff(
      pons: nat, onus: nat, ports: nat, config: Config,
      states: seq<Olt>, run: seq<Action>, crc: string -> nat, n: nat, p: nat, id: nat)
    requires Trace(states, run, crc) && states[0] == NewOlt(pons, onus, ports, config) && n <= |run|
    ensures Registered(states[n].gems, p, id) <==> Activated(states, run, n, p, id)
    ensures Registered(states[n].allocs, p, id) <==> Activated(states, run, n, p, id)
  {
    hide Step;
    hide Activates;
    hide Clears;
    hide GoodTables;
    if n == 0 {
      ResetPonsGood(map[], pons);
    } else {
      RegisteredIff(pons, onus, ports, config, states, run, crc, n - 1, p, id);
      NewOltGoodTables(pons, onus, ports, config);
      RunKeepsGoodTables(states, run, crc, n - 1);
      TraceNext(states, run, crc, n - 1);
      StepRegistered(states[n - 1], run[n - 1], crc, p, id);
      ActivatedNext(states, run, n, p, id);
    }
  }

  // ---------------------------------------------------------------------------
  // The id of an ONU in service

  /** ActivateOnu finds the ONU and the tables. */
  ghost predicate ActivatesOnu(s: Olt, a: Action, p: nat, i: nat) {
    a.Activate? && a.sn == i && Activates(s, a, p, a.onuId)
  }

  lemma SetKeepsId(s: Olt, q: nat, j: nat, c: Cell, p: nat, i: nat)
    requires IsOnu(s, q, j) && IsOnu(s, p, i) && c.onu.id == OnuAt(s, q, j).id
    ensures var s' := SetCell(s, q, j, c); IsOnu(s', p, i) && OnuAt(s', p, i).id == OnuAt(s, p, i).id
  {
  }

  lemma ActKeepsId(c: Cell, pon: nat, sn: nat, a: OnuAction, del: bool, rate: nat, crc: string -> nat)
    ensures ActOnu(c, pon, sn, a, del, rate, crc).onu.id == c.onu.id
  {
    hide Fire;
    hide HandleOmci;
    match a
    case DoProcess =>
      var q := Queue(c.onu);
      if q != [] && q[0].OmciRequest? {
        OmciKeeps(c.(onu := c.onu.(channel := c.onu.channel.(queue := q[1..]))), pon, sn, q[0].request, rate, crc);
      }
    case DoPowerOn =>
      FireId(c, sn, Initialize);
      var c1 := if c.onu.state.Created? || c.onu.state.Disabled? then Fire(c, sn, Initialize) else c;
      var c2 := c1.(onu := Send(c1.onu, Indication));
      FireId(c2, sn, Discover);
      FireId(Fire(c2, sn, Discover), sn, OnuEvent.Enable);
    case DoRediscover =>
      FireId(c, sn, Initialize);
      FireId(Fire(c, sn, Initialize), sn, Discover);
    case DoShutdown =>
      FireId(c, sn, OnuEvent.Disable);
      FireId(c.(onu := Send(c.onu, Indication)), sn, OnuEvent.Disable);
    case _ => FireId(c, sn, OnuEvent.Disable);
  }

  ghost predicate PonKeepsIds(p: Pon, p': Pon) {
    |p'.onus| == |p.onus| && forall i | 0 <= i < |p.onus| :: p'.onus[i].id == p.onus[i].id
  }

  lemma RaiseKeepsId(c: Cell, sn: nat, mode: Mode, src: PonState)
    ensures RaiseOnu(c, sn, mode, src).onu.id == c.onu.id
  {
    hide Fire;
    FireId(c, sn, Initialize);
    FireId(c, sn, Discover);
    FireId(c, sn, OnuEvent.Enable);
    FireId(Fire(c, sn, Initialize), sn, Discover);
  }

  lemma RaiseAllKeepsIds(p: Pon, mode: Mode, src: PonState, n: nat)
    requires n <= |p.onus|
    ensures PonKeepsIds(p, RaiseOnus(p, mode, src, n))
  {
    hide RaiseOnu;
    if n > 0 {
      RaiseAllKeepsIds(p, mode, src, n - 1);
      RaiseKeepsId(CellAt(RaiseOnus(p, mode, src, n - 1), n - 1), n - 1, mode, src);
    }
  }

  lemma LowerAllKeepsIds(p: Pon, n: nat)
    requires n <= |p.onus|
    ensures PonKeepsIds(p, LowerOnus(p, n))
  {
    hide Fire;
    if n > 0 {
      LowerAllKeepsIds(p, n - 1);
      FireId(CellAt(LowerOnus(p, n - 1), n - 1), n - 1, PonDisable);
    }
  }

  lemma CascadeKeepsIds(p: Pon, mode: Mode)
    ensures PonKeepsIds(p, EnablePon(p, mode)) && PonKeepsIds(p, DisablePon(p))
  {
    hide RaiseOnu;
    hide LowerOnu;
    RaiseAllKeepsIds(p.(state := PonEnabled), mode, p.state, |p.onus|);
    LowerAllKeepsIds(p.(state := PonDown), |p.onus|);
  }

  /** The id of an ONU is the one it was last activated with. */
  lemma StepIds(s: Olt, a: Action, crc: string -> nat, p: nat, i: nat)
    requires GoodTables(s) && IsOnu(s, p, i)
    ensures var s' := Step(s, a, crc);
            && IsOnu(s', p, i)
            && OnuAt(s', p, i).id == if ActivatesOnu(s, a, p, i) then a.onuId else OnuAt(s, p, i).id
  {
    hide GoodTables;
    hide OltStep;
    hide AddFlowStep;
    hide RemoveFlowStep;
    hide ActivateStep;
    hide ActOnu;
    hide EnablePon;
    hide DisablePon;
    hide SetCell;
    match a
    case FlowAdd(f) => AddSameOnus(s, f);
    case FlowRemove(f) => RemoveSameOnus(s, f);
    case Activate(intf, onuId, sn) => ActivateState(s, intf, onuId, sn, crc, p, i);
    case PonUp(intf) => if intf < |s.pons| { CascadeKeepsIds(s.pons[intf], s.config.mode); }
    case PonLow(intf) => if intf < |s.pons| { CascadeKeepsIds(s.pons[intf], s.config.mode); }
    case AtOnu(intf, sn, act) =>
      if IsOnu(s, intf, sn) {
        var c := CellAt(s.pons[intf], sn);
        ActKeepsId(c, intf, sn, act, s.state.OltDeleted?, s.config.rate, crc);
        SetKeepsId(s, intf, sn, ActOnu(c, intf, sn, act, s.state.OltDeleted?, s.config.rate, crc), p, i);
      }
    case OltEvent(e) => OltStepStates(s, e, p, i);
  }

  /** The ONU has not been enabled since it was created or initialized anew. */
  predicate Waiting(st: OnuState) {
    st.Created? || st.Initialized? || st.Discovered?
  }

  /** Once an ONU has been activated, no step clears the tables. */
  ghost predicate NoReboot(states: seq<Olt>, run: seq<Action>, n: nat)
    requires |states| == |run| + 1 && n <= |run|
  {
    forall j, k | 0 <= j < k < n && run[j].Activate? :: !Clears(states[k], run[k])
  }

  ghost predicate WasActivated(states: seq<Olt>, run: seq<Action>, n: nat, p: nat, i: nat)
    requires |states| == |run| + 1 && n <= |run|
  {
    exists m: nat :: m < n && ActivatesOnu(states[m], run[m], p, i)
  }

  lemma {:induction false} TraceHasOnu(states: seq<Olt>, run: seq<Action>, crc: string -> nat, n: nat, p: nat, i: nat)
    requires Trace(states, run, crc) && GoodTables(states[0]) && IsOnu(states[0], p, i) && n <= |run|
    ensures IsOnu(states[n], p, i) && GoodTables(states[n])
  {
    hide Step;
    hide GoodTables;
    if n > 0 {
      TraceHasOnu(states, run, crc, n - 1, p, i);
      TraceNext(states, run, crc, n - 1);
      RunKeepsGoodTables(states, run, crc, n);
      StepIds(states[n - 1], run[n - 1], crc, p, i);
    }
  }

  lemma LeavesWaiting(s: Olt, a: Action, crc: string -> nat, p: nat, i: nat)
    requires IsOnu(s, p, i) && Waiting(OnuAt(s, p, i).state) && !Waiting(Stepped(s, a, crc, p, i))
    ensures ActivatesOnu(s, a, p, i)
  {
  }

  /** Only ActivateOnu enables an ONU for the first time. */
  lemma {:induction false} EnabledWasActivated(
      states: seq<Olt>, run: seq<Action>, crc: string -> nat, n: nat, p: nat, i: nat)
    requires Trace(states, run, crc) && GoodTables(states[0]) && IsOnu(states[0], p, i) && n <= |run|
    requires Waiting(OnuAt(states[0], p, i).state)
    ensures IsOnu(states[n], p, i)
    ensures !Waiting(OnuAt(states[n], p, i).state) ==> WasActivated(states, run, n, p, i)
  {
    hide Step;
    hide GoodTables;
    hide ActivatesOnu;
    hide Stepped;
    if n > 0 {
      EnabledWasActivated(states, run, crc, n - 1, p, i);
      TraceHasOnu(states, run, crc, n - 1, p, i);
      TraceNext(states, run, crc, n - 1);
      StepStates(states[n - 1], run[n - 1], crc, p, i);
      if Waiting(OnuAt(states[n - 1], p, i).state) && !Waiting(OnuAt(states[n], p, i).state) {
        LeavesWaiting(states[n - 1], run[n - 1], crc, p, i);
      }
    }
  }

  lemma {:induction false} ActivatedIsRegistered(
      states: seq<Olt>, run: seq<Action>, crc: string -> nat, m: nat, n: nat, p: nat, i: nat)
    requires Trace(states, run, crc) && GoodTables(states[0]) && IsOnu(states[0], p, i)
    requires m < n <= |run| && ActivatesOnu(states[m], run[m], p, i)
    requires forall k | m < k < n :: !Clears(states[k], run[k])
    ensures IsOnu(states[n], p, i)
    ensures Registered(states[n].gems, p, OnuAt(states[n], p, i).id)
    ensures Registered(states[n].allocs, p, OnuAt(states[n], p, i).id)
  {
    hide Step;
    hide GoodTables;
    hide Clears;
    var s, a := states[n - 1], run[n - 1];
    TraceHasOnu(states, run, crc, n - 1, p, i);
    TraceNext(states, run, crc, n - 1);
    StepIds(s, a, crc, p, i);
    StepRegistered(s, a, crc, p, OnuAt(states[n], p, i).id);
    if m < n - 1 {
      ActivatedIsRegistered(states, run, crc, m, n - 1, p, i);
    }
  }

  /**
    An ONU of a created device that was enabled at some time has the id it has now registered in
    both tables, provided the device was not rebooted after an activation.  So a flow of it, while
    it is not switched off, is refused only because another ONU of the PON uses one of its ids.
   */
  lemma EnabledIsRegistered(
      pons: nat, onus: nat, ports: nat, config: Config,
      states: seq<Olt>, run: seq<Action>, crc: string -> nat, l: nat, n: nat, p: nat, i: nat, f: Flow)
    requires Trace(states, run, crc) && states[0] == NewOlt(pons, onus, ports, config)
    requires p < pons && i < onus && l <= n <= |run| && NoReboot(states, run, n)
    requires IsOnu(states[l], p, i) && !Waiting(OnuAt(states[l], p, i).state)
    ensures IsOnu(states[n], p, i)
    ensures Registered(states[n].gems, p, OnuAt(states[n], p, i).id)
    ensures Registered(states[n].allocs, p, OnuAt(states[n], p, i).id)
    ensures Reaches(states[n], f, p, i) ==> (Accepted(states[n], f) <==> !InUse(states[n], f, p))
  {
    hide Step;
    hide GoodTables;
    hide Clears;
    hide InUse;
    NewOltGoodTables(pons, onus, ports, config);
    assert IsOnu(states[0], p, i) && OnuAt(states[0], p, i).state.Created?;
    EnabledWasActivated(states, run, crc, l, p, i);
    var m: nat :| m < l && ActivatesOnu(states[m], run[m], p, i);
    ActivatedIsRegistered(states, run, crc, m, n, p, i);
    if Reaches(states[n], f, p, i) {
      if Accepted(states[n], f) {
        var j: nat :| Accepts(states[n], f, U32(f.accessIntfId), j);
      } else {
        assert !Accepts(states[n], f, U32(f.accessIntfId), i);
      }
    }
  }
}
