/** The agreement between the flows of the OLT and the flow keys its ONUs hold. */
module FlowIndex {
  import opened Basics
  import opened FlowTables
  import opened OnuFsm
  import opened OnuModel
  import opened DeviceModel

  predicate Once(s: seq<nat>) {
    forall i, j :: 0 <= i < j < |s| ==> s[i] != s[j]
  }

  /** Every key is stored and its flow resolves to the ONU that holds it. */
  ghost predicate PointsBack(s: Olt, p: nat, i: nat)
    requires IsOnu(s, p, i)
  {
    forall k :: k in OnuAt(s, p, i).flows ==> k in s.flows && Owner(s, s.flows[k]) == Some((p, i))
  }

  ghost predicate Indexed(s: Olt) {
    && |s.pons| < TWO_32
    && (forall p: nat, i: nat | IsOnu(s, p, i) :: PointsBack(s, p, i))
    && (forall p: nat, i: nat | IsOnu(s, p, i) :: Once(OnuAt(s, p, i).flows))
  }

  /** No key is held by two ONUs. */
  lemma KeysAreUnique(s: Olt, p: nat, i: nat, p': nat, i': nat, k: nat)
    requires Indexed(s) && IsOnu(s, p, i) && IsOnu(s, p', i')
    requires k in OnuAt(s, p, i).flows && k in OnuAt(s, p', i').flows
    ensures p == p' && i == i'
  {
    assert PointsBack(s, p, i) && PointsBack(s, p', i');
  }

  /** GetFlows for one ONU; it panics on a key without a flow, which an indexed device never has. */
  method GetFlows(s: Olt, p: nat, i: nat) returns (panics: bool, flows: seq<Flow>, count: nat)
    requires IsOnu(s, p, i)
    ensures panics <==> exists k :: k in OnuAt(s, p, i).flows && k !in s.flows
    ensures Indexed(s) ==> !panics
    ensures !panics ==> count == |flows| == |OnuAt(s, p, i).flows|
    ensures !panics ==>
              forall n | 0 <= n < count ::
                OnuAt(s, p, i).flows[n] in s.flows && flows[n] == s.flows[OnuAt(s, p, i).flows[n]]
  {
    var keys := s.pons[p].onus[i].flows;
    assert keys == OnuAt(s, p, i).flows && (Indexed(s) ==> PointsBack(s, p, i));
    flows, count := [], 0;
    for n := 0 to |keys|
      invariant |flows| == n
      invariant forall m | 0 <= m < n :: keys[m] in s.flows && flows[m] == s.flows[keys[m]]
    {
      if keys[n] !in s.flows {
        return true, flows, 0;
      }
      flows := flows + [s.flows[keys[n]]];
    }
    panics, count := false, |keys|;
  }

  // ---------------------------------------------------------------------------
  // Which calls keep the index

  /** The flow id is not among the keys of any ONU. */
  ghost predicate FreshKey(s: Olt, key: nat) {
    forall p: nat, i: nat | IsOnu(s, p, i) :: key !in OnuAt(s, p, i).flows
  }

  /**
    The ONU already has the id, or it holds no keys and takes the id from no ONU
    after it that does.
   */
  predicate Reassignable(onus: seq<Onu>, sn: nat, onuId: nat)
    requires sn < |onus|
  {
    || onus[sn].id == onuId
    || (onus[sn].flows == [] && forall k | sn < k < |onus| :: FindOnu(onus, onuId) == k ==> onus[k].flows == [])
  }

  ghost predicate Careful(s: Olt, a: Action) {
    match a
    case FlowAdd(f) => FreshKey(s, f.flowId)
    case Activate(intf, onuId, sn) =>
      IsOnu(s, intf, sn) ==> Reassignable(s.pons[intf].onus, sn, onuId)
    case _ => true
  }

  /** In every state along the run the next call is careful. */
  ghost predicate CarefulRun(states: seq<Olt>, run: seq<Action>)
    requires |states| == |run| + 1
  {
    forall i: nat | i < |run| :: Careful(states[i], run[i])
  }

  // ---------------------------------------------------------------------------
  // Steps that keep the ids of the ONUs and lose keys at most

  ghost predicate SameIds(a: seq<Onu>, b: seq<Onu>) {
    |a| == |b| && forall i | 0 <= i < |a| :: a[i].id == b[i].id
  }

  lemma FindOnuSame(a: seq<Onu>, b: seq<Onu>, id: nat)
    requires SameIds(a, b)
    ensures FindOnu(a, id) == FindOnu(b, id)
  {
  }

  ghost predicate KeepsOrDrops(o: Onu, o': Onu) {
    o'.id == o.id && (o'.flows == o.flows || o'.flows == [])
  }

  ghost predicate PonKeepsOrDrops(p: Pon, p': Pon) {
    |p.onus| == |p'.onus| && forall i | 0 <= i < |p.onus| :: KeepsOrDrops(p.onus[i], p'.onus[i])
  }

  lemma DropKeepsIndexed(s: Olt, s': Olt)
    requires Indexed(s) && s'.flows == s.flows && |s'.pons| == |s.pons|
    requires forall p | 0 <= p < |s.pons| :: PonKeepsOrDrops(s.pons[p], s'.pons[p])
    ensures Indexed(s')
  {
    forall p: nat, i: nat | IsOnu(s', p, i)
      ensures PointsBack(s', p, i) && Once(OnuAt(s', p, i).flows)
    {
      assert PonKeepsOrDrops(s.pons[p], s'.pons[p]) && IsOnu(s, p, i);
      assert KeepsOrDrops(s.pons[p].onus[i], s'.pons[p].onus[i]);
      assert PointsBack(s, p, i) && Once(OnuAt(s, p, i).flows);
      forall k | k in OnuAt(s', p, i).flows
        ensures k in s'.flows && Owner(s', s'.flows[k]) == Some((p, i))
      {
        OwnerSame(s, s', s.flows[k]);
      }
    }
  }

  lemma OwnerSame(s: Olt, s': Olt, f: Flow)
    requires |s'.pons| == |s.pons|
    requires U32(f.accessIntfId) < |s.pons| ==>
               SameIds(s.pons[U32(f.accessIntfId)].onus, s'.pons[U32(f.accessIntfId)].onus)
    ensures Owner(s', f) == Owner(s, f)
  {
    var p := U32(f.accessIntfId);
    if p < |s.pons| {
      FindOnuSame(s.pons[p].onus, s'.pons[p].onus, U32(f.onuId));
    }
  }

  // Every entry point of an ONU keeps its id and at most clears its keys.

  lemma PortsDownKeeps(o: Onu, n: nat)
    requires n <= |o.ports|
    ensures KeepsOrDrops(o, PortsDown(o, n)) && PortsDown(o, n).flows == o.flows
  {
  }

  lemma DisableKeepsOrDrops(c: Cell, sn: nat)
    requires c.onu.state.Disabled?
    ensures KeepsOrDrops(c.onu, Enter(c, sn).onu)
  {
    hide DropSn;
    hide PortsDown;
    var o := Send(c.onu.(flows := []), Indication);
    PortsDownKeeps(o, |o.ports|);
  }

  lemma FireKeepsOrDrops(c: Cell, sn: nat, e: OnuEvent)
    ensures KeepsOrDrops(c.onu, Fire(c, sn, e).onu)
  {
    hide DropSn;
    hide PortsDown;
    if Allowed(c.onu.state, e) && e.Disable? {
      DisableKeepsOrDrops(c.(onu := c.onu.(state := OnuState.Disabled)), sn);
    }
  }

  lemma FireTwiceKeepsOrDrops(c: Cell, sn: nat, e: OnuEvent, e': OnuEvent)
    ensures KeepsOrDrops(c.onu, FireTwice(c, sn, e, e').onu)
  {
    FireKeepsOrDrops(c, sn, e);
    FireKeepsOrDrops(Fire(c, sn, e), sn, e');
  }

  lemma ActKeepsOrDrops(c: Cell, pon: nat, sn: nat, a: OnuAction, del: bool, rate: nat, crc: string -> nat)
    ensures KeepsOrDrops(c.onu, ActOnu(c, pon, sn, a, del, rate, crc).onu)
  {
    match a
    case FireDisable => FireKeepsOrDrops(c, sn, OnuEvent.Disable);
    case DeleteOnu => FireKeepsOrDrops(c, sn, OnuEvent.Disable);
    case DoRediscover => FireTwiceKeepsOrDrops(c, sn, Initialize, Discover);
    case DoShutdown =>
      FireKeepsOrDrops(c, sn, OnuEvent.Disable);
      FireKeepsOrDrops(c.(onu := Send(c.onu, Indication)), sn, OnuEvent.Disable);
    case DoPowerOn => PowerOnKeepsOrDrops(c, sn);
    case DoProcess =>
      var q := Queue(c.onu);
      if q != [] && q[0].OmciRequest? {
        OmciKeeps(c.(onu := c.onu.(channel := c.onu.channel.(queue := q[1..]))), pon, sn, q[0].request, rate, crc);
      }
    case _ =>
  }

  lemma PowerOnKeepsOrDrops(c: Cell, sn: nat)
    ensures KeepsOrDrops(c.onu, PowerOn(c, sn).onu)
  {
    var was := c.onu.state;
    var c1 := if was.Created? || was.Disabled? then Fire(c, sn, Initialize) else c;
    FireKeepsOrDrops(c, sn, Initialize);
    var c2 := c1.(onu := Send(c1.onu, Indication));
    FireKeepsOrDrops(c2, sn, Discover);
    FireTwiceKeepsOrDrops(c2, sn, Discover, OnuEvent.Enable);
  }

  lemma RaiseKeepsOrDrops(c: Cell, sn: nat, mode: Mode, src: PonState)
    ensures KeepsOrDrops(c.onu, RaiseOnu(c, sn, mode, src).onu)
  {
    FireKeepsOrDrops(c, sn, Initialize);
    FireKeepsOrDrops(c, sn, Discover);
    FireKeepsOrDrops(c, sn, OnuEvent.Enable);
    FireTwiceKeepsOrDrops(c, sn, Initialize, Discover);
  }

  lemma RaiseAllKeepsOrDrops(p: Pon, mode: Mode, src: PonState, n: nat)
    requires n <= |p.onus|
    ensures PonKeepsOrDrops(p, RaiseOnus(p, mode, src, n))
  {
    if n > 0 {
      RaiseAllKeepsOrDrops(p, mode, src, n - 1);
      var q := RaiseOnus(p, mode, src, n - 1);
      RaiseKeepsOrDrops(CellAt(q, n - 1), n - 1, mode, src);
    }
  }

  lemma LowerAllKeepsOrDrops(p: Pon, n: nat)
    requires n <= |p.onus|
    ensures PonKeepsOrDrops(p, LowerOnus(p, n))
  {
    if n > 0 {
      LowerAllKeepsOrDrops(p, n - 1);
      FireKeepsOrDrops(CellAt(LowerOnus(p, n - 1), n - 1), n - 1, PonDisable);
    }
  }

  // ---------------------------------------------------------------------------
  // The steps

  /** One PON replaced by one whose ONUs keep their ids. */
  lemma SetPonKeepsIndexed(s: Olt, p: nat, pon: Pon)
    requires Indexed(s) && p < |s.pons| && PonKeepsOrDrops(s.pons[p], pon)
    ensures Indexed(SetPon(s, p, pon))
  {
    DropKeepsIndexed(s, SetPon(s, p, pon));
  }

  lemma SetOnuKeepsIndexed(s: Olt, p: nat, i: nat, c: Cell)
    requires Indexed(s) && IsOnu(s, p, i) && KeepsOrDrops(OnuAt(s, p, i), c.onu)
    ensures Indexed(SetCell(s, p, i, c))
  {
    SetPonKeepsIndexed(s, p, PutCell(s.pons[p], i, c));
  }

  /** Storing a flow under a key that no ONU holds. */
  lemma StoreFlowKeepsIndexed(s: Olt, f: Flow)
    requires Indexed(s) && FreshKey(s, f.flowId)
    ensures Indexed(StoreFlow(s, f)) && FreshKey(StoreFlow(s, f), f.flowId)
  {
    var s' := StoreFlow(s, f);
    forall p: nat, i: nat | IsOnu(s', p, i)
      ensures PointsBack(s', p, i) && Once(OnuAt(s', p, i).flows)
    {
      assert IsOnu(s, p, i) && PointsBack(s, p, i) && Once(OnuAt(s, p, i).flows);
      forall k | k in OnuAt(s', p, i).flows
        ensures k in s'.flows && Owner(s', s'.flows[k]) == Some((p, i))
      {
        OwnerSame(s, s', s.flows[k]);
      }
    }
    forall p: nat, i: nat | IsOnu(s', p, i)
      ensures f.flowId !in OnuAt(s', p, i).flows
    {
      assert IsOnu(s, p, i);
    }
  }

  lemma RecordKeepsIndexed(s: Olt, f: Flow, p: nat, i: nat)
    requires Indexed(s) && FreshKey(s, f.flowId) && IsOnu(s, p, i)
    requires !s.config.perf ==> f.flowId in s.flows && Owner(s, s.flows[f.flowId]) == Some((p, i))
    ensures Indexed(RecordFlow(s, p, i, f.flowId))
  {
    var s' := RecordFlow(s, p, i, f.flowId);
    forall q: nat, j: nat | IsOnu(s', q, j)
      ensures PointsBack(s', q, j) && Once(OnuAt(s', q, j).flows)
    {
      assert IsOnu(s, q, j) && PointsBack(s, q, j) && Once(OnuAt(s, q, j).flows);
      assert f.flowId !in OnuAt(s, q, j).flows;
      forall k | k in OnuAt(s', q, j).flows
        ensures k in s'.flows && Owner(s', s'.flows[k]) == Some((q, j))
      {
        OwnerSame(s, s', s.flows[k]);
      }
    }
  }

  lemma StoreResourcesKeepsIndexed(s: Olt, f: Flow, p: nat, i: nat)
    requires Indexed(s) && IsOnu(s, p, i)
    ensures Indexed(StoreResources(s, f, p, i))
  {
    hide Put;
    hide Conflicts;
    hide Indexed;
    var s' := StoreResources(s, f, p, i);
    forall q | 0 <= q < |s.pons|
      ensures PonKeepsOrDrops(s.pons[q], s'.pons[q])
    {
    }
    DropKeepsIndexed(s, s');
  }

  lemma AddKeepsIndexed(s: Olt, f: Flow)
    requires Indexed(s) && FreshKey(s, f.flowId)
    ensures Indexed(AddFlowStep(s, f))
  {
    var s1 := StoreFlow(s, f);
    StoreFlowKeepsIndexed(s, f);
    var p: nat := U32(f.accessIntfId);
    if f.accessIntfId == -1 || f.multicast {
    } else if p >= |s.pons| {
      DropKeepsIndexed(s1, s1.(fault := true));
    } else {
      var i := FindOnu(s.pons[p].onus, U32(f.onuId));
      if HasOnu(s.pons[p], i) {
        assert Owner(s1, f) == Some((p, i));
        RecordKeepsIndexed(s1, f, p, i);
        StoreResourcesKeepsIndexed(RecordFlow(s1, p, i, f.flowId), f, p, i);
      }
    }
  }

  // FlowRemove ------------------------------------------------------------------

  lemma RemoveFirstOnce(s: seq<nat>, x: nat)
    requires Once(s)
    ensures Once(RemoveFirst(s, x)) && x !in RemoveFirst(s, x)
  {
    if s != [] && s[0] != x {
      RemoveFirstOnce(s[1..], x);
      var r := RemoveFirst(s[1..], x);
      assert s[0] !in s[1..];
      assert RemoveFirst(s, x) == [s[0]] + r;
    }
  }

  /** Deleting the key at its owner and then from the OLT. */
  lemma DeleteKeepsIndexed(s: Olt, p: nat, i: nat, key: nat)
    requires Indexed(s) && IsOnu(s, p, i) && key in s.flows && Owner(s, s.flows[key]) == Some((p, i))
    ensures Indexed(DeleteFlow(s, p, i, key).(flows := s.flows - {key}))
  {
    var s' := DeleteFlow(s, p, i, key).(flows := s.flows - {key});
    forall q: nat, j: nat | IsOnu(s', q, j)
      ensures PointsBack(s', q, j) && Once(OnuAt(s', q, j).flows)
    {
      assert IsOnu(s, q, j) && PointsBack(s, q, j) && Once(OnuAt(s, q, j).flows);
      RemoveFirstOnce(OnuAt(s, q, j).flows, key);
      forall k | k in OnuAt(s', q, j).flows
        ensures k in s'.flows && Owner(s', s'.flows[k]) == Some((q, j))
      {
        OwnerSame(s, s', s.flows[k]);
      }
    }
  }

  /** A key whose flow leads to no ONU is held by none, so it may go. */
  lemma ForgetKeepsIndexed(s: Olt, key: nat)
    requires Indexed(s) && key in s.flows && s.flows[key].accessIntfId == -1
    ensures Indexed(s.(flows := s.flows - {key}))
  {
    var s' := s.(flows := s.flows - {key});
    forall q: nat, j: nat | IsOnu(s', q, j)
      ensures PointsBack(s', q, j) && Once(OnuAt(s', q, j).flows)
    {
      assert IsOnu(s, q, j) && PointsBack(s, q, j) && Once(OnuAt(s, q, j).flows);
      forall k | k in OnuAt(s', q, j).flows
        ensures k in s'.flows && Owner(s', s'.flows[k]) == Some((q, j))
      {
        OwnerSame(s, s', s.flows[k]);
      }
    }
  }

  lemma NotifyKeepsIndexed(s: Olt, f: Flow)
    requires Indexed(s)
    ensures Indexed(NotifyRemoval(s, f))
  {
    var found := FindByFlowId(s.pons, f.flowId);
    if !(f.accessIntfId == -1 || f.multicast) && found.Some? {
      var (p, i) := found.value;
      SetOnuKeepsIndexed(s, p, i, Cell(Send(s.pons[p].onus[i], RemoveFlow(f.flowId)), s.pons[p].tables));
    }
  }

  lemma RemoveKeepsIndexed(s: Olt, f: Flow)
    requires Indexed(s)
    ensures Indexed(RemoveFlowStep(s, f))
  {
    var s1 := s.(gems := Free(s.gems, f.flowId), allocs := Free(s.allocs, f.flowId));
    DropKeepsIndexed(s, s1);
    if s.config.perf {
      NotifyKeepsIndexed(s1, f);
    } else if f.flowId in s.flows {
      var stored := s.flows[f.flowId];
      OwnerSame(s, s1, stored);
      if stored.accessIntfId == -1 {
        ForgetKeepsIndexed(s1, f.flowId);
        NotifyKeepsIndexed(s1.(flows := s1.flows - {f.flowId}), f);
      } else if Owner(s, stored).Some? {
        var (p, i) := Owner(s, stored).value;
        DeleteKeepsIndexed(s1, p, i, f.flowId);
        NotifyKeepsIndexed(DeleteFlow(s1, p, i, f.flowId).(flows := s1.flows - {f.flowId}), f);
      }
    }
  }

  /**
    A removed flow leaves the store unless its PON or its ONU no longer resolves:
    this is where a multicast flow that names no ONU stays behind.
   */
  lemma RemoveForgetsIff(s: Olt, f: Flow)
    requires !s.config.perf && f.flowId in s.flows
    ensures f.flowId !in RemoveFlowStep(s, f).flows <==>
              s.flows[f.flowId].accessIntfId == -1 || Owner(s, s.flows[f.flowId]).Some?
  {
  }

  // ActivateOnu -------------------------------------------------------------------

  lemma FindOnuAfter(onus: seq<Onu>, onus': seq<Onu>, sn: nat, id: nat, i: nat)
    requires sn < |onus| == |onus'| && i < |onus| && i != sn
    requires forall k | 0 <= k < |onus| && k != sn :: onus'[k].id == onus[k].id
    requires FindOnu(onus, id) == i
    ensures FindOnu(onus', id) == i <==> !(sn < i && onus'[sn].id == id)
  {
    if sn < i && onus'[sn].id == id {
    } else {
      forall k | 0 <= k < i
        ensures onus'[k].id != id
      {
      }
    }
  }

  lemma ActivateKeepsIndexed(s: Olt, intf: nat, onuId: nat, sn: nat)
    requires Indexed(s)
    requires IsOnu(s, intf, sn) ==> Reassignable(s.pons[intf].onus, sn, onuId)
    ensures Indexed(ActivateStep(s, intf, onuId, sn))
  {
    var s' := ActivateStep(s, intf, onuId, sn);
    if !IsOnu(s, intf, sn) || intf !in s.allocs || intf !in s.gems {
      DropKeepsIndexed(s, s');
    } else {
      var c := CellAt(s.pons[intf], sn);
      FireKeepsOrDrops(c.(onu := c.onu.(id := onuId)), sn, OnuEvent.Enable);
      if c.onu.id == onuId {
        DropKeepsIndexed(s, s');
      } else {
        forall q: nat, j: nat | IsOnu(s', q, j)
          ensures PointsBack(s', q, j) && Once(OnuAt(s', q, j).flows)
        {
          assert IsOnu(s, q, j) && PointsBack(s, q, j) && Once(OnuAt(s, q, j).flows);
          if q == intf && j != sn {
            forall k | k in OnuAt(s', q, j).flows
              ensures k in s'.flows && Owner(s', s'.flows[k]) == Some((q, j))
            {
              FindOnuAfter(s.pons[q].onus, s'.pons[q].onus, sn, U32(s.flows[k].onuId), j);
            }
          } else if q != intf {
            forall k | k in OnuAt(s', q, j).flows
              ensures k in s'.flows && Owner(s', s'.flows[k]) == Some((q, j))
            {
              OwnerSame(s, s', s.flows[k]);
            }
          }
        }
      }
    }
  }

  // All of them -------------------------------------------------------------------

  lemma StepKeepsIndexed(s: Olt, a: Action, crc: string -> nat)
    requires Indexed(s) && Careful(s, a)
    ensures Indexed(Step(s, a, crc))
  {
    hide EnablePon;
    hide DisablePon;
    hide OltStep;
    hide SetPon;
    hide Indexed;
    hide AddFlowStep;
    hide RemoveFlowStep;
    hide ActivateStep;
    hide ActOnu;
    match a
    case FlowAdd(f) => AddKeepsIndexed(s, f);
    case FlowRemove(f) => RemoveKeepsIndexed(s, f);
    case Activate(intf, onuId, sn) => ActivateKeepsIndexed(s, intf, onuId, sn);
    case PonUp(intf) => PonKeepsIndexed(s, intf);
    case PonLow(intf) => PonKeepsIndexed(s, intf);
    case AtOnu(intf, sn, act) =>
      if IsOnu(s, intf, sn) {
        var c := CellAt(s.pons[intf], sn);
        ActKeepsOrDrops(c, intf, sn, act, s.state.OltDeleted?, s.config.rate, crc);
        SetOnuKeepsIndexed(s, intf, sn, ActOnu(c, intf, sn, act, s.state.OltDeleted?, s.config.rate, crc));
      }
    case OltEvent(e) => OltStepKeepsIndexed(s, e);
  }

  lemma PonKeepsIndexed(s: Olt, intf: nat)
    requires Indexed(s)
    ensures Indexed(s.(fault := true))
    ensures intf < |s.pons| ==> Indexed(SetPon(s, intf, EnablePon(s.pons[intf], s.config.mode)))
    ensures intf < |s.pons| ==> Indexed(SetPon(s, intf, DisablePon(s.pons[intf])))
  {
    hide Indexed;
    hide RaiseOnu;
    hide LowerOnu;
    DropKeepsIndexed(s, s.(fault := true));
    if intf < |s.pons| {
      var p := s.pons[intf];
      RaiseAllKeepsOrDrops(p.(state := PonEnabled), s.config.mode, p.state, |p.onus|);
      SetPonKeepsIndexed(s, intf, EnablePon(p, s.config.mode));
      LowerAllKeepsOrDrops(p.(state := PonDown), |p.onus|);
      SetPonKeepsIndexed(s, intf, DisablePon(p));
    }
  }

  lemma OltStepKeepsIndexed(s: Olt, e: OltTransition)
    requires Indexed(s)
    ensures Indexed(OltStep(s, e))
  {
    hide Indexed;
    DropKeepsIndexed(s, OltStep(s, e));
  }

  /**
    If flow ids are fresh when added and ONUs with flows keep their ids, then in every
    state of the run every key an ONU holds is stored, unique and leads back to it.
   */
  lemma {:induction false} RunKeepsIndexed(states: seq<Olt>, run: seq<Action>, crc: string -> nat, n: nat)
    requires Trace(states, run, crc) && Indexed(states[0]) && CarefulRun(states, run) && n <= |run|
    ensures Indexed(states[n])
  {
    hide Step;
    hide Indexed;
    hide Careful;
    if n > 0 {
      RunKeepsIndexed(states, run, crc, n - 1);
      TraceNext(states, run, crc, n - 1);
      StepKeepsIndexed(states[n - 1], run[n - 1], crc);
    }
  }

  lemma NewOltIndexed(pons: nat, onus: nat, ports: nat, config: Config)
    requires pons < TWO_32
    ensures Indexed(NewOlt(pons, onus, ports, config))
  {
  }

  // ---------------------------------------------------------------------------
  // The two conditions are needed

  /** Activating an ONU keeps the index exactly when the id can be reassigned. */
  lemma ActivateKeepsIndexedIff(s: Olt, intf: nat, onuId: nat, sn: nat)
    requires Indexed(s) && IsOnu(s, intf, sn) && intf in s.allocs && intf in s.gems
    ensures Indexed(ActivateStep(s, intf, onuId, sn)) <==> Reassignable(s.pons[intf].onus, sn, onuId)
  {
    var onus := s.pons[intf].onus;
    var k := FindOnu(onus, onuId);
    if Reassignable(onus, sn, onuId) {
      ActivateKeepsIndexed(s, intf, onuId, sn);
    } else if onus[sn].flows != [] {
      ActivateBreaks(s, intf, onuId, sn, sn);
    } else {
      ActivateBreaks(s, intf, onuId, sn, k);
    }
  }

  /** The keys of the ONU itself, or of the one it takes the id from, lead astray. */
  lemma ActivateBreaks(s: Olt, intf: nat, onuId: nat, sn: nat, k: nat)
    requires Indexed(s) && IsOnu(s, intf, sn) && intf in s.allocs && intf in s.gems
    requires IsOnu(s, intf, k) && OnuAt(s, intf, k).flows != [] && OnuAt(s, intf, sn).id != onuId
    requires k == sn || (sn < k && FindOnu(s.pons[intf].onus, onuId) == k)
    ensures !Indexed(ActivateStep(s, intf, onuId, sn))
  {
    var s' := ActivateStep(s, intf, onuId, sn);
    var c := CellAt(s.pons[intf], sn);
    EnableKeepsFlows(c.(onu := c.onu.(id := onuId)), sn);
    var key := OnuAt(s, intf, k).flows[0];
    assert key in OnuAt(s, intf, k).flows && key in OnuAt(s', intf, k).flows;
    assert PointsBack(s, intf, k) && IsOnu(s', intf, k);
    assert s'.flows == s.flows;
    if k != sn {
      FindOnuAfter(s.pons[intf].onus, s'.pons[intf].onus, sn, onuId, k);
    }
    assert Owner(s', s'.flows[key]) != Some((intf, k));
    assert !PointsBack(s', intf, k);
  }

  lemma EnableKeepsFlows(c: Cell, sn: nat)
    ensures Fire(c, sn, OnuEvent.Enable).onu.flows == c.onu.flows
    ensures Fire(c, sn, OnuEvent.Enable).onu.id == c.onu.id
  {
  }

  /** A flow for an ONU that accepts it keeps the index exactly when its id is fresh. */
  lemma AddKeepsIndexedIff(s: Olt, f: Flow, p: nat, i: nat)
    requires Indexed(s) && !s.config.perf && f.accessIntfId != -1 && !f.multicast
    requires Owner(s, f) == Some((p, i))
    requires !OnuAt(s, p, i).state.PonDisabled? && !OnuAt(s, p, i).state.Disabled?
    ensures Indexed(AddFlowStep(s, f)) <==> FreshKey(s, f.flowId)
  {
    if FreshKey(s, f.flowId) {
      AddKeepsIndexed(s, f);
    } else {
      var q: nat, j: nat :| IsOnu(s, q, j) && f.flowId in OnuAt(s, q, j).flows;
      AddBreaks(s, f, p, i, q, j);
    }
  }

  lemma AddBreaks(s: Olt, f: Flow, p: nat, i: nat, q: nat, j: nat)
    requires Indexed(s) && !s.config.perf && f.accessIntfId != -1 && !f.multicast
    requires Owner(s, f) == Some((p, i))
    requires !OnuAt(s, p, i).state.PonDisabled? && !OnuAt(s, p, i).state.Disabled?
    requires IsOnu(s, q, j) && f.flowId in OnuAt(s, q, j).flows
    ensures !Indexed(AddFlowStep(s, f))
  {
    var s1 := StoreFlow(s, f);
    var s2 := RecordFlow(s1, p, i, f.flowId);
    var s3 := StoreResources(s2, f, p, i);
    assert s3 == AddFlowStep(s, f);
    StoreKeepsKeys(s2, f, p, i, q, j);
    OwnerSame(s, s2, f);
    if q == p && j == i {
      var n :| 0 <= n < |OnuAt(s, q, j).flows| && OnuAt(s, q, j).flows[n] == f.flowId;
      assert OnuAt(s3, q, j).flows[n] == OnuAt(s3, q, j).flows[|OnuAt(s, q, j).flows|];
      assert !Once(OnuAt(s3, q, j).flows);
    } else {
      assert f.flowId in OnuAt(s3, q, j).flows;
      assert !PointsBack(s3, q, j);
    }
  }

  lemma StoreKeepsKeys(s: Olt, f: Flow, p: nat, i: nat, q: nat, j: nat)
    requires IsOnu(s, p, i) && IsOnu(s, q, j)
    ensures var s' := StoreResources(s, f, p, i);
            IsOnu(s', q, j) && OnuAt(s', q, j).flows == OnuAt(s, q, j).flows && s'.flows == s.flows &&
            Owner(s', f) == Owner(s, f)
  {
    hide Owner;
    hide FindOnu;
    hide Put;
    hide Conflicts;
    var s' := StoreResources(s, f, p, i);
    OwnerSame(s, s', f);
  }
}
