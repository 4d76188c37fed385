/**
  What FlowAdd and FlowRemove come to, in terms of the fields of the flow, the entries of the
  tables and the channels of the ONUs, and which entries a run has left in the tables.
 */
module FlowOutcomes {
  import opened Basics
  import opened FlowTables
  import opened OnuFsm
  import opened OnuModel
  import opened DeviceModel
  import opened ResourceRuns

  // ---------------------------------------------------------------------------
  // Who is concerned

  ghost predicate FirstWithId(p: Pon, i: nat, id: nat) {
    i < |p.onus| && p.onus[i].id == id && forall j | 0 <= j < i :: p.onus[j].id != id
  }

  /** The flow is one of ONU i of PON p, and the ONU takes flows. */
  ghost predicate Reaches(s: Olt, f: Flow, p: nat, i: nat) {
    && f.accessIntfId != -1 && !f.multicast
    && p == U32(f.accessIntfId) && p < |s.pons| && FirstWithId(s.pons[p], i, U32(f.onuId))
    && !s.pons[p].onus[i].state.PonDisabled? && !s.pons[p].onus[i].state.Disabled?
  }

  /** Another ONU of the PON uses a GEM port that the flow names, or its alloc id. */
  ghost predicate InUse(s: Olt, f: Flow, p: nat) {
    exists k: Key ::
      && k.pon == p && k.onu != U32(f.onuId)
      && ((Listed(s.gems, k) && Names(f, k.id)) || (Listed(s.allocs, k) && k.id == f.allocId))
  }

  ghost predicate Accepts(s: Olt, f: Flow, p: nat, i: nat) {
    Reaches(s, f, p, i) && Registered(s.gems, p, U32(f.onuId)) && !InUse(s, f, p)
  }

  ghost predicate Accepted(s: Olt, f: Flow) {
    exists i: nat :: Accepts(s, f, U32(f.accessIntfId), i)
  }

  /** The message is at the end of the channel, or was lost where the channel is missing or closed. */
  ghost predicate Hears(o: Onu, o': Onu, m: Message) {
    && o'.channel ==
         (if o.channel.Channel? && !o.channel.closed then Channel(o.channel.queue + [m], false) else o.channel)
    && o'.channelFault == (o.channelFault || (o.channel.Channel? && o.channel.closed))
  }

  /** What a flow call leaves alone in an ONU. */
  ghost predicate OnlyFlows(o: Onu, o': Onu) {
    o' == o.(flows := o'.flows, channel := o'.channel, channelFault := o'.channelFault)
  }

  /** The entry is one that the flow has when it is accepted. */
  ghost predicate GemEntry(f: Flow, e: Entry) {
    At(e.key, U32(f.accessIntfId), U32(f.onuId), f.portNo) && e.flow == f.flowId && Names(f, e.key.id)
  }

  ghost predicate AllocEntry(f: Flow, e: Entry) {
    At(e.key, U32(f.accessIntfId), U32(f.onuId), f.portNo) && e.flow == f.flowId && e.key.id == f.allocId
  }

  /** Nothing but the flow tables and the ONUs changes, and of the ONUs only what flows concern. */
  ghost predicate FlowFrame(s: Olt, s': Olt) {
    && s'.config == s.config && s'.state == s.state && |s'.pons| == |s.pons|
    && forall p | 0 <= p < |s.pons| ::
         && s'.pons[p].state == s.pons[p].state && s'.pons[p].tables == s.pons[p].tables
         && |s'.pons[p].onus| == |s.pons[p].onus|
         && forall i | 0 <= i < |s.pons[p].onus| :: OnlyFlows(s.pons[p].onus[i], s'.pons[p].onus[i])
  }

  // ---------------------------------------------------------------------------
  // FlowAdd

  lemma FirstIsFound(p: Pon, i: nat, id: nat)
    ensures FirstWithId(p, i, id) <==> i < |p.onus| && FindOnu(p.onus, id) == i
  {
  }

  lemma ConflictIsInUse(s: Olt, f: Flow, p: nat)
    ensures Conflict(s.gems, p, U32(f.onuId), Gems(f)) || Conflict(s.allocs, p, U32(f.onuId), {f.allocId}) <==>
              InUse(s, f, p)
  {
    GemsAreNamed(f);
    if k: Key :| Listed(s.gems, k) && k.pon == p && k.onu != U32(f.onuId) && k.id in Gems(f) {
      assert Names(f, k.id);
    }
    if k: Key :| Listed(s.allocs, k) && k.pon == p && k.onu != U32(f.onuId) && k.id in {f.allocId} {
      assert k.id == f.allocId;
    }
    if InUse(s, f, p) {
      var k: Key :| && k.pon == p && k.onu != U32(f.onuId)
                    && ((Listed(s.gems, k) && Names(f, k.id)) || (Listed(s.allocs, k) && k.id == f.allocId));
    }
  }

  /** What the tables hold once the flow has been accepted. */
  ghost predicate Stored(s: Olt, s': Olt, f: Flow) {
    && (forall e: Entry :: Holds(s'.gems, e) <==> Holds(s.gems, e) || GemEntry(f, e))
    && (forall e: Entry :: Holds(s'.allocs, e) <==> Holds(s.allocs, e) || AllocEntry(f, e))
  }

  lemma PutsAreStored(s: Olt, s': Olt, f: Flow)
    requires Registered(s.gems, U32(f.accessIntfId), U32(f.onuId))
    requires Registered(s.allocs, U32(f.accessIntfId), U32(f.onuId))
    requires s'.gems == Put(s.gems, U32(f.accessIntfId), U32(f.onuId), f.portNo, Gems(f), f.flowId)
    requires s'.allocs == Put(s.allocs, U32(f.accessIntfId), U32(f.onuId), f.portNo, {f.allocId}, f.flowId)
    ensures Stored(s, s', f)
  {
    hide Put;
    GemsAreNamed(f);
    PutLists(s.gems, U32(f.accessIntfId), U32(f.onuId), f.portNo, Gems(f), f.flowId);
    PutLists(s.allocs, U32(f.accessIntfId), U32(f.onuId), f.portNo, {f.allocId}, f.flowId);
  }

  lemma StoreOutcome(s: Olt, f: Flow, p: nat, i: nat)
    requires GoodTables(s) && p == U32(f.accessIntfId) && IsOnu(s, p, i)
    ensures var s' := StoreResources(s, f, p, i);
            var ok := Registered(s.gems, p, U32(f.onuId)) && !InUse(s, f, p);
            && s' == s.(gems := s'.gems, allocs := s'.allocs, fault := s'.fault, pons := s'.pons)
            && (ok ==> Stored(s, s', f) &&
                       s'.pons == Swapped(s, p, i, Send(OnuAt(s, p, i), OnuModel.AddFlow(f))))
            && (!ok ==> s'.gems == s.gems && s'.allocs == s.allocs && s'.pons == s.pons)
  {
    hide Put;
    hide Gems;
    hide InUse;
    hide Send;
    ConflictIsInUse(s, f, p);
    if Registered(s.gems, p, U32(f.onuId)) && !InUse(s, f, p) {
      PutsAreStored(s, StoreResources(s, f, p, i), f);
    }
  }

  /** The device after the part of FlowAdd that concerns ONU i of PON p. */
  ghost predicate AddsAt(s: Olt, s': Olt, f: Flow, p: nat, i: nat)
    requires IsOnu(s, p, i) && IsOnu(s', p, i)
  {
    var o, o' := OnuAt(s, p, i), OnuAt(s', p, i);
    && o'.flows == (if s.config.perf then o.flows else o.flows + [f.flowId])
    && (Accepts(s, f, p, i) ==> Hears(o, o', OnuModel.AddFlow(f)))
    && (!Accepts(s, f, p, i) ==> o'.channel == o.channel && o'.channelFault == o.channelFault)
  }

  /** Every ONU but one is as before. */
  ghost predicate Elsewhere(s: Olt, s': Olt, p: nat, i: nat) {
    forall q: nat, j: nat | IsOnu(s, q, j) && !(q == p && j == i) ::
      IsOnu(s', q, j) && OnuAt(s', q, j) == OnuAt(s, q, j)
  }

  /** The PONs with one ONU replaced. */
  function Swapped(s: Olt, p: nat, i: nat, o: Onu): (pons: seq<Pon>)
    requires IsOnu(s, p, i)
  {
    s.pons[p := s.pons[p].(onus := s.pons[p].onus[i := o])]
  }

  lemma SwappedTwice(s: Olt, s': Olt, p: nat, i: nat, o: Onu, o': Onu)
    requires IsOnu(s, p, i) && s'.pons == Swapped(s, p, i, o)
    ensures IsOnu(s', p, i) && OnuAt(s', p, i) == o && Swapped(s', p, i, o') == Swapped(s, p, i, o')
  {
    assert s.pons[p].onus[i := o][i := o'] == s.pons[p].onus[i := o'];
  }

  lemma SwapFrame(s: Olt, s': Olt, p: nat, i: nat, o: Onu)
    requires IsOnu(s, p, i) && s'.pons == Swapped(s, p, i, o) && OnlyFlows(OnuAt(s, p, i), o)
    requires s'.config == s.config && s'.state == s.state
    ensures FlowFrame(s, s') && Elsewhere(s, s', p, i) && IsOnu(s', p, i) && OnuAt(s', p, i) == o
  {
  }

  function Recorded(s: Olt, o: Onu, key: nat): Onu {
    o.(flows := if s.config.perf then o.flows else o.flows + [key])
  }

  lemma RecordOutcome(s: Olt, p: nat, i: nat, key: nat)
    requires IsOnu(s, p, i)
    ensures RecordFlow(s, p, i, key) == s.(pons := Swapped(s, p, i, Recorded(s, OnuAt(s, p, i), key)))
  {
    assert s.pons[p].onus[i := s.pons[p].onus[i]] == s.pons[p].onus;
    assert s.pons[p := s.pons[p]] == s.pons;
  }

  lemma SendOutcome(s: Olt, p: nat, i: nat, m: Message)
    requires IsOnu(s, p, i)
    ensures var o := OnuAt(s, p, i);
            && SetCell(s, p, i, Cell(Send(o, m), s.pons[p].tables)) == s.(pons := Swapped(s, p, i, Send(o, m)))
            && Hears(o, Send(o, m), m) && Send(o, m).flows == o.flows && OnlyFlows(o, Send(o, m))
  {
  }

  lemma AddIs(s: Olt, f: Flow, p: nat, i: nat)
    requires Reaches(s, f, p, i)
    ensures AddFlowStep(s, f) == StoreResources(RecordFlow(StoreFlow(s, f), p, i, f.flowId), f, p, i)
  {
    hide StoreResources;
    hide RecordFlow;
    FirstIsFound(s.pons[p], i, U32(f.onuId));
  }

  function Told(s: Olt, o: Onu, f: Flow, ok: bool): Onu {
    var o1 := Recorded(s, o, f.flowId);
    if ok then Send(o1, OnuModel.AddFlow(f)) else o1
  }

  lemma ReachedValue(s: Olt, f: Flow, p: nat, i: nat)
    requires GoodTables(s) && Reaches(s, f, p, i)
    ensures var s', ok := AddFlowStep(s, f), Accepts(s, f, p, i);
            && s'.config == s.config && s'.state == s.state && s'.flows == StoreFlow(s, f).flows
            && s'.pons == Swapped(s, p, i, Told(s, OnuAt(s, p, i), f, ok))
            && (ok ==> Stored(s, s', f)) && (!ok ==> s'.gems == s.gems && s'.allocs == s.allocs)
  {
    hide StoreResources;
    hide RecordFlow;
    hide GoodTables;
    hide InUse;
    hide Send;
    hide Stored;
    hide Swapped;
    hide AddFlowStep;
    AddIs(s, f, p, i);
    var s1 := StoreFlow(s, f);
    var s2 := RecordFlow(s1, p, i, f.flowId);
    RecordOutcome(s1, p, i, f.flowId);
    var o1 := Recorded(s, OnuAt(s, p, i), f.flowId);
    SwappedSame(s, s1, p, i, o1);
    GoodTablesSame(s, s2);
    InUseSame(s, s2, f, p);
    SwappedTwice(s, s2, p, i, o1, Send(o1, OnuModel.AddFlow(f)));
    StoreOutcome(s2, f, p, i);
    StoredSame(s, s2, AddFlowStep(s, f), f);
  }

  lemma ToldHears(s: Olt, o: Onu, f: Flow, ok: bool)
    ensures var o' := Told(s, o, f, ok);
            && OnlyFlows(o, o') && o'.flows == (if s.config.perf then o.flows else o.flows + [f.flowId])
            && (ok ==> Hears(o, o', OnuModel.AddFlow(f)))
            && (!ok ==> o'.channel == o.channel && o'.channelFault == o.channelFault)
  {
  }

  lemma ReachedOutcome(s: Olt, f: Flow, p: nat, i: nat)
    requires GoodTables(s) && Reaches(s, f, p, i)
    ensures var s' := AddFlowStep(s, f);
            && FlowFrame(s, s') && Elsewhere(s, s', p, i) && IsOnu(s', p, i) && AddsAt(s, s', f, p, i)
            && s'.flows == (if s.config.perf then s.flows else s.flows[f.flowId := f])
            && (Accepts(s, f, p, i) ==> Stored(s, s', f))
            && (!Accepts(s, f, p, i) ==> s'.gems == s.gems && s'.allocs == s.allocs)
  {
    hide AddFlowStep;
    hide GoodTables;
    hide InUse;
    hide Told;
    hide Hears;
    hide Stored;
    hide Swapped;
    hide FlowFrame;
    hide Elsewhere;
    hide OnlyFlows;
    var o, ok := OnuAt(s, p, i), Accepts(s, f, p, i);
    ReachedValue(s, f, p, i);
    ToldHears(s, o, f, ok);
    SwapFrame(s, AddFlowStep(s, f), p, i, Told(s, o, f, ok));
  }

  lemma StoredSame(s: Olt, s1: Olt, s': Olt, f: Flow)
    requires s1.gems == s.gems && s1.allocs == s.allocs
    ensures Stored(s1, s', f) == Stored(s, s', f)
  {
  }

  lemma SwappedSame(s: Olt, s': Olt, p: nat, i: nat, o: Onu)
    requires IsOnu(s, p, i) && s'.pons == s.pons
    ensures Swapped(s', p, i, o) == Swapped(s, p, i, o)
  {
  }

  lemma InUseSame(s: Olt, s': Olt, f: Flow, p: nat)
    requires s'.gems == s.gems && s'.allocs == s.allocs
    ensures InUse(s', f, p) == InUse(s, f, p)
  {
  }

  /** A flow that reaches no ONU is only stored. */
  lemma UnreachedOutcome(s: Olt, f: Flow)
    requires forall i: nat :: !Reaches(s, f, U32(f.accessIntfId), i)
    ensures var s' := AddFlowStep(s, f);
            && s' == s.(flows := s'.flows, fault := s'.fault)
            && s'.flows == (if s.config.perf then s.flows else s.flows[f.flowId := f])
  {
    var p := U32(f.accessIntfId);
    if f.accessIntfId != -1 && !f.multicast && p < |s.pons| {
      var i := FindOnu(s.pons[p].onus, U32(f.onuId));
      FirstIsFound(s.pons[p], i, U32(f.onuId));
      assert !Reaches(s, f, p, i);
    }
  }

  lemma FirstIsUnique(s: Olt, f: Flow, p: nat, i: nat, q: nat, j: nat)
    requires Reaches(s, f, p, i) && Reaches(s, f, q, j)
    ensures p == q && i == j
  {
  }

  /**
    FlowAdd in a reachable state.  The flow is accepted exactly when it is one of an ONU that is
    registered and takes flows, and no other ONU of the PON uses its ids.  Then the new entries
    are those it names, and the ONU, and no other, hears of it; else the tables stay as they are.
   */
  lemma AddOutcome(s: Olt, f: Flow, p: nat, i: nat)
    requires GoodTables(s) && IsOnu(s, p, i)
    ensures var s' := AddFlowStep(s, f);
            && FlowFrame(s, s') && IsOnu(s', p, i)
            && s'.flows == (if s.config.perf then s.flows else s.flows[f.flowId := f])
            && (Accepted(s, f) ==> Stored(s, s', f))
            && (!Accepted(s, f) ==> s'.gems == s.gems && s'.allocs == s.allocs)
            && (Reaches(s, f, p, i) ==> AddsAt(s, s', f, p, i))
            && (!Reaches(s, f, p, i) ==> OnuAt(s', p, i) == OnuAt(s, p, i))
  {
    hide AddFlowStep;
    hide GoodTables;
    hide InUse;
    hide Stored;
    hide AddsAt;
    var q := U32(f.accessIntfId);
    if j: nat :| Reaches(s, f, q, j) {
      ReachedOutcome(s, f, q, j);
      if Accepted(s, f) {
        var k: nat :| Accepts(s, f, q, k);
        FirstIsUnique(s, f, q, j, q, k);
      }
    } else {
      UnreachedOutcome(s, f);
    }
  }

  /** While a GEM port or alloc id is in use, a flow of another ONU of the PON that names it gets nothing. */
  lemma RefusedWhileInUse(s: Olt, f: Flow, k: Key, p: nat, i: nat)
    requires GoodTables(s) && IsOnu(s, p, i)
    requires k.pon == U32(f.accessIntfId) && k.onu != U32(f.onuId)
    requires (Listed(s.gems, k) && Names(f, k.id)) || (Listed(s.allocs, k) && k.id == f.allocId)
    ensures var s' := AddFlowStep(s, f);
            && s'.gems == s.gems && s'.allocs == s.allocs
            && IsOnu(s', p, i) && OnuAt(s', p, i).channel == OnuAt(s, p, i).channel
  {
    hide AddFlowStep;
    hide GoodTables;
    hide Stored;
    AddOutcome(s, f, p, i);
    assert InUse(s, f, k.pon);
  }

  // ---------------------------------------------------------------------------
  // FlowRemove

  /** The first occurrence of the element is gone. */
  ghost predicate WithoutFirst(xs: seq<nat>, ys: seq<nat>, x: nat) {
    if x !in xs then ys == xs
    else exists k: nat :: k < |xs| && xs[k] == x && x !in xs[..k] && ys == xs[..k] + xs[k + 1..]
  }

  lemma WithoutFirstGrows(y: nat, xs: seq<nat>, ys: seq<nat>, x: nat)
    requires x != y && x in xs && WithoutFirst(xs, ys, x)
    ensures WithoutFirst([y] + xs, [y] + ys, x)
  {
    var k: nat :| k < |xs| && xs[k] == x && x !in xs[..k] && ys == xs[..k] + xs[k + 1..];
    var zs := [y] + xs;
    assert zs[..k + 1] == [y] + xs[..k];
    assert zs[k + 2..] == xs[k + 1..];
    assert [y] + ys == zs[..k + 1] + zs[k + 2..];
    assert x !in zs[..k + 1];
    assert zs[k + 1] == x;
  }

  lemma {:induction false} RemoveFirstIs(xs: seq<nat>, x: nat)
    ensures WithoutFirst(xs, RemoveFirst(xs, x), x)
  {
    if x in xs {
      if xs[0] == x {
        assert xs[..0] + xs[1..] == RemoveFirst(xs, x);
      } else {
        RemoveFirstIs(xs[1..], x);
        WithoutFirstGrows(xs[0], xs[1..], RemoveFirst(xs[1..], x), x);
        assert xs == [xs[0]] + xs[1..];
      }
    }
  }

  /** The stored copy of the flow leads to ONU i of PON p. */
  ghost predicate StoredFor(s: Olt, id: nat, p: nat, i: nat) {
    && !s.config.perf && id in s.flows && s.flows[id].accessIntfId != -1
    && p == U32(s.flows[id].accessIntfId) && p < |s.pons| && FirstWithId(s.pons[p], i, U32(s.flows[id].onuId))
  }

  /** The device forgets a stored flow of its own, or one of an ONU that it still finds. */
  ghost predicate Forgets(s: Olt, id: nat) {
    && !s.config.perf && id in s.flows
    && (s.flows[id].accessIntfId == -1 || exists i: nat :: StoredFor(s, id, U32(s.flows[id].accessIntfId), i))
  }

  /** The first ONU, by PON and position, that has taken the flow up. */
  ghost predicate FirstWithFlow(s: Olt, p: nat, i: nat, id: nat) {
    && IsOnu(s, p, i) && id in OnuAt(s, p, i).flowIds
    && forall q: nat, j: nat | IsOnu(s, q, j) && (q < p || (q == p && j < i)) :: id !in OnuAt(s, q, j).flowIds
  }

  /** In performance mode flows are not stored, and the ONU always hears of the removal. */
  ghost predicate Tells(s: Olt, f: Flow, p: nat, i: nat) {
    && f.accessIntfId != -1 && !f.multicast && (s.config.perf || Forgets(s, f.flowId))
    && FirstWithFlow(s, p, i, f.flowId)
  }

  lemma {:induction false} FoundIsFirst(pons: seq<Pon>, flow: nat)
    ensures var r := FindByFlowId(pons, flow);
            r.Some? ==> forall q: nat, j: nat | q < |pons| && j < |pons[q].onus| &&
                          (q < r.value.0 || (q == r.value.0 && j < r.value.1)) :: flow !in pons[q].onus[j].flowIds
    decreases |pons|
  {
    var r := FindByFlowId(pons, flow);
    if r.Some? && FindFlowId(pons[0].onus, flow) == |pons[0].onus| {
      FoundIsFirst(pons[1..], flow);
      forall q: nat, j: nat | q < |pons| && j < |pons[q].onus| && (q < r.value.0 || (q == r.value.0 && j < r.value.1))
        ensures flow !in pons[q].onus[j].flowIds
      {
        if q > 0 { assert pons[q] == pons[1..][q - 1]; }
      }
    }
  }

  lemma FoundIffFirst(s: Olt, flow: nat, p: nat, i: nat)
    ensures FindByFlowId(s.pons, flow) == Some((p, i)) <==> FirstWithFlow(s, p, i, flow)
  {
    FoundIsFirst(s.pons, flow);
    var r := FindByFlowId(s.pons, flow);
    if FirstWithFlow(s, p, i, flow) {
      assert r.Some?;
      var (q, j) := r.value;
      assert IsOnu(s, q, j) && flow in OnuAt(s, q, j).flowIds;
    }
  }

  ghost predicate SameIds(s: Olt, s': Olt) {
    && |s'.pons| == |s.pons|
    && forall p | 0 <= p < |s.pons| ::
         && |s'.pons[p].onus| == |s.pons[p].onus|
         && forall i | 0 <= i < |s.pons[p].onus| :: s'.pons[p].onus[i].flowIds == s.pons[p].onus[i].flowIds
  }

  lemma FirstWithFlowSame(s: Olt, s': Olt, p: nat, i: nat, id: nat)
    requires SameIds(s, s')
    ensures FirstWithFlow(s', p, i, id) == FirstWithFlow(s, p, i, id)
  {
    forall q: nat, j: nat
      ensures IsOnu(s', q, j) == IsOnu(s, q, j)
      ensures IsOnu(s, q, j) ==> OnuAt(s', q, j).flowIds == OnuAt(s, q, j).flowIds
    {
    }
  }

  /** What telling the ONU changes. */
  lemma NotifyOutcome(s: Olt, f: Flow, p: nat, i: nat)
    requires IsOnu(s, p, i)
    ensures var s' := NotifyRemoval(s, f);
            var told := f.accessIntfId != -1 && !f.multicast && FirstWithFlow(s, p, i, f.flowId);
            && s' == s.(pons := s'.pons) && FlowFrame(s, s') && IsOnu(s', p, i)
            && (told ==> Hears(OnuAt(s, p, i), OnuAt(s', p, i), RemoveFlow(f.flowId)) &&
                         OnuAt(s', p, i).flows == OnuAt(s, p, i).flows)
            && (!told ==> OnuAt(s', p, i) == OnuAt(s, p, i))
  {
    hide FindByFlowId;
    hide FirstWithFlow;
    hide SetCell;
    hide Send;
    hide Swapped;
    FoundIffFirst(s, f.flowId, p, i);
    var r := FindByFlowId(s.pons, f.flowId);
    if r.Some? && f.accessIntfId != -1 && !f.multicast {
      var (q, j) := r.value;
      SendOutcome(s, q, j, RemoveFlow(f.flowId));
      SwapFrame(s, NotifyRemoval(s, f), q, j, Send(OnuAt(s, q, j), RemoveFlow(f.flowId)));
    }
  }

  /** What FlowRemove does to the recorded flows of an ONU. */
  ghost predicate RemovesAt(s: Olt, s': Olt, f: Flow, p: nat, i: nat)
    requires IsOnu(s, p, i) && IsOnu(s', p, i)
  {
    var o, o' := OnuAt(s, p, i), OnuAt(s', p, i);
    && (StoredFor(s, f.flowId, p, i) ==> WithoutFirst(o.flows, o'.flows, f.flowId))
    && (!StoredFor(s, f.flowId, p, i) ==> o'.flows == o.flows)
    && (Tells(s, f, p, i) ==> Hears(o, o', RemoveFlow(f.flowId)))
    && (!Tells(s, f, p, i) ==> o'.channel == o.channel && o'.channelFault == o.channelFault)
  }

  lemma OwnerIsStoredFor(s: Olt, id: nat, p: nat, i: nat)
    requires !s.config.perf && id in s.flows && s.flows[id].accessIntfId != -1
    ensures Owner(s, s.flows[id]) == Some((p, i)) <==> StoredFor(s, id, p, i)
    ensures Owner(s, s.flows[id]).Some? <==> Forgets(s, id)
  {
    var f := s.flows[id];
    var q := U32(f.accessIntfId);
    if q < |s.pons| {
      FirstIsFound(s.pons[q], i, U32(f.onuId));
      FirstIsFound(s.pons[q], FindOnu(s.pons[q].onus, U32(f.onuId)), U32(f.onuId));
      if Owner(s, f).Some? {
        assert StoredFor(s, id, q, Owner(s, f).value.1);
      }
      if Forgets(s, id) {
        var j: nat :| StoredFor(s, id, q, j);
        FirstIsFound(s.pons[q], j, U32(f.onuId));
      }
    }
  }

  lemma DeleteOutcome(s: Olt, q: nat, j: nat, key: nat, p: nat, i: nat)
    requires IsOnu(s, q, j) && IsOnu(s, p, i)
    ensures var s' := DeleteFlow(s, q, j, key);
            var o, o' := OnuAt(s, p, i), OnuAt(s', p, i);
            && s' == s.(pons := s'.pons) && FlowFrame(s, s') && SameIds(s, s')
            && o' == o.(flows := o'.flows)
            && if p == q && i == j then WithoutFirst(o.flows, o'.flows, key) else o'.flows == o.flows
  {
    hide WithoutFirst;
    hide RemoveFirst;
    var o := OnuAt(s, q, j);
    RemoveFirstIs(o.flows, key);
    SwapFrame(s, DeleteFlow(s, q, j, key), q, j, o.(flows := RemoveFirst(o.flows, key)));
  }

  /** The stages of FlowRemove after the ids are freed; `s` is the device before that. */
  lemma OwnedRemoval(s: Olt, s1: Olt, f: Flow, p: nat, i: nat, q: nat, j: nat)
    requires IsOnu(s, p, i) && StoredFor(s, f.flowId, q, j) && s1 == s.(gems := s1.gems, allocs := s1.allocs)
    ensures var s' := NotifyRemoval(DeleteFlow(s1, q, j, f.flowId).(flows := s1.flows - {f.flowId}), f);
            && s' == s1.(pons := s'.pons, flows := s.flows - {f.flowId}) && FlowFrame(s, s')
            && IsOnu(s', p, i) && RemovesAt(s, s', f, p, i)
  {
    hide WithoutFirst;
    hide NotifyRemoval;
    hide DeleteFlow;
    hide FirstWithFlow;
    hide FlowFrame;
    DeleteOutcome(s1, q, j, f.flowId, p, i);
    var s2 := DeleteFlow(s1, q, j, f.flowId).(flows := s1.flows - {f.flowId});
    NotifyOutcome(s2, f, p, i);
    FirstWithFlowSame(s, s2, p, i, f.flowId);
    assert Forgets(s, f.flowId);
    if StoredFor(s, f.flowId, p, i) {
      SameOwner(s, f.flowId, p, i, q, j);
    }
    FrameSame(s1, DeleteFlow(s1, q, j, f.flowId), s, s2);
    FrameJoins(s, s2, NotifyRemoval(s2, f));
  }

  lemma FrameSame(s1: Olt, s2: Olt, s: Olt, s': Olt)
    requires FlowFrame(s1, s2) && s.pons == s1.pons && s'.pons == s2.pons
    requires s.config == s1.config && s.state == s1.state && s'.config == s2.config && s'.state == s2.state
    ensures FlowFrame(s, s')
  {
  }

  lemma FrameSelf(s: Olt, s': Olt)
    requires s'.pons == s.pons && s'.config == s.config && s'.state == s.state
    ensures FlowFrame(s, s')
  {
  }

  lemma FrameJoins(s: Olt, s1: Olt, s2: Olt)
    requires FlowFrame(s, s1) && FlowFrame(s1, s2)
    ensures FlowFrame(s, s2)
  {
    forall p | 0 <= p < |s.pons|
      ensures |s2.pons[p].onus| == |s.pons[p].onus|
      ensures forall i | 0 <= i < |s.pons[p].onus| :: OnlyFlows(s.pons[p].onus[i], s2.pons[p].onus[i])
    {
      forall i | 0 <= i < |s.pons[p].onus|
        ensures OnlyFlows(s.pons[p].onus[i], s2.pons[p].onus[i])
      {
        assert OnlyFlows(s.pons[p].onus[i], s1.pons[p].onus[i]) && OnlyFlows(s1.pons[p].onus[i], s2.pons[p].onus[i]);
      }
    }
  }

  lemma SameOwner(s: Olt, id: nat, p: nat, i: nat, q: nat, j: nat)
    requires StoredFor(s, id, p, i) && StoredFor(s, id, q, j)
    ensures p == q && i == j
  {
  }

  lemma NotStoredFor(s: Olt, f: Flow, p: nat, i: nat)
    requires s.config.perf || f.flowId !in s.flows || s.flows[f.flowId].accessIntfId == -1 || !Forgets(s, f.flowId)
    ensures !StoredFor(s, f.flowId, p, i)
  {
    if StoredFor(s, f.flowId, p, i) { assert Forgets(s, f.flowId); }
  }

  /**
    FlowRemove.  Exactly the entries of the flow id leave the tables.  The stored flow is forgotten
    when it is one of the device or its ONU is still found, and that ONU drops its key once.  The
    first ONU that has taken the flow up hears of it: always in performance mode, else exactly
    when the flow is forgotten.
   */
  lemma RemoveOutcome(s: Olt, f: Flow, p: nat, i: nat)
    requires IsOnu(s, p, i)
    ensures var s' := RemoveFlowStep(s, f);
            && FlowFrame(s, s') && s'.fault == s.fault && IsOnu(s', p, i) && RemovesAt(s, s', f, p, i)
            && (forall e: Entry :: Holds(s'.gems, e) <==> Holds(s.gems, e) && e.flow != f.flowId)
            && (forall e: Entry :: Holds(s'.allocs, e) <==> Holds(s.allocs, e) && e.flow != f.flowId)
            && s'.flows == (if Forgets(s, f.flowId) then s.flows - {f.flowId} else s.flows)
  {
    hide Free;
    hide Owner;
    hide NotifyRemoval;
    hide DeleteFlow;
    hide WithoutFirst;
    hide StoredFor;
    hide FirstWithFlow;
    hide FlowFrame;
    hide Holds;
    FreeHolds(s.gems, f.flowId);
    FreeHolds(s.allocs, f.flowId);
    var s1 := s.(gems := Free(s.gems, f.flowId), allocs := Free(s.allocs, f.flowId));
    if s.config.perf || f.flowId !in s.flows || s.flows[f.flowId].accessIntfId == -1 {
      var s2 := if s.config.perf || f.flowId !in s.flows then s1 else s1.(flows := s1.flows - {f.flowId});
      NotifyOutcome(s2, f, p, i);
      FirstWithFlowSame(s, s2, p, i, f.flowId);
      FrameSame(s2, NotifyRemoval(s2, f), s, NotifyRemoval(s2, f));
      FrameSelf(s, s1);
      NotStoredFor(s, f, p, i);
    } else {
      OwnerIsStoredFor(s, f.flowId, p, i);
      if Owner(s, s.flows[f.flowId]).Some? {
        var (q, j) := Owner(s, s.flows[f.flowId]).value;
        OwnerIsStoredFor(s, f.flowId, q, j);
        OwnedRemoval(s, s1, f, p, i, q, j);
      } else {
        FrameSelf(s, s1);
        NotStoredFor(s, f, p, i);
      }
    }
  }

  // ---------------------------------------------------------------------------
  // Which entries a run has left

  /** The step puts the entry into the GEM port table or, with `alloc`, into the alloc id table. */
  ghost predicate Enters(s: Olt, a: Action, e: Entry, alloc: bool) {
    a.FlowAdd? && Accepted(s, a.flow) && if alloc then AllocEntry(a.flow, e) else GemEntry(a.flow, e)
  }

  /** A reboot clears the tables when it begins and when it ends. */
  ghost predicate Clears(s: Olt, a: Action) {
    || (a == OltEvent(TxDelete) && (s.state.OltEnabled? || s.state.OltDisabled?))
    || (a == OltEvent(TxInitialize) && (s.state.OltCreated? || s.state.OltDeleted?))
  }

  /** ActivateOnu finds the PON and the tables. */
  ghost predicate Activates(s: Olt, a: Action, p: nat, id: nat) {
    a.Activate? && a.intf == p && a.onuId == id && p < |s.pons| && !s.state.OltDeleted?
  }

  /** The step takes the entry out of the table if it is there. */
  ghost predicate Leaves(s: Olt, a: Action, e: Entry) {
    || (a.FlowRemove? && a.flow.flowId == e.flow)
    || Activates(s, a, e.key.pon, e.key.onu)
    || Clears(s, a)
  }

  function TableOf(s: Olt, alloc: bool): Table {
    if alloc then s.allocs else s.gems
  }

  lemma AddEntries(s: Olt, f: Flow)
    requires GoodTables(s)
    ensures var s' := AddFlowStep(s, f);
            && (Accepted(s, f) ==> Stored(s, s', f))
            && (!Accepted(s, f) ==> s'.gems == s.gems && s'.allocs == s.allocs)
  {
    hide AddFlowStep;
    hide GoodTables;
    hide InUse;
    hide Stored;
    var q := U32(f.accessIntfId);
    if j: nat :| Reaches(s, f, q, j) {
      AddOutcome(s, f, q, j);
    } else {
      UnreachedOutcome(s, f);
    }
  }

  lemma ActivateEntries(s: Olt, intf: nat, onuId: nat, sn: nat, e: Entry, alloc: bool)
    requires GoodTables(s)
    ensures Holds(TableOf(ActivateStep(s, intf, onuId, sn), alloc), e) <==>
              Holds(TableOf(s, alloc), e) && !Activates(s, Activate(intf, onuId, sn), e.key.pon, e.key.onu)
  {
    hide Register;
    hide Fire;
    if intf in s.gems && intf in s.allocs {
      RegisterHolds(s.gems, intf, onuId);
      RegisterHolds(s.allocs, intf, onuId);
    }
  }

  lemma OltEntries(s: Olt, t: OltTransition, e: Entry, alloc: bool)
    requires GoodTables(s)
    ensures Holds(TableOf(OltStep(s, t), alloc), e) <==> Holds(TableOf(s, alloc), e) && !Clears(s, OltEvent(t))
  {
    hide Holds;
    if OltAllowed(s.state, t) && t.TxInitialize? {
      ResetPonsGood(s.gems, |s.pons|);
      ResetPonsGood(s.allocs, |s.pons|);
      NoneHeld(ResetPons(s.gems, |s.pons|), e);
      NoneHeld(ResetPons(s.allocs, |s.pons|), e);
    }
    NoneHeld(map[], e);
  }

  lemma NoneHeld(t: Table, e: Entry)
    requires forall p: nat, o: nat :: !Registered(t, p, o)
    ensures !Holds(t, e)
  {
  }

  lemma StepEntries(s: Olt, a: Action, crc: string -> nat, e: Entry, alloc: bool)
    requires GoodTables(s)
    ensures Holds(TableOf(Step(s, a, crc), alloc), e) <==>
              Enters(s, a, e, alloc) || (Holds(TableOf(s, alloc), e) && !Leaves(s, a, e))
  {
    hide GoodTables;
    hide Accepted;
    hide Holds;
    hide AddFlowStep;
    hide RemoveFlowStep;
    hide ActivateStep;
    hide OltStep;
    hide ActOnu;
    hide EnablePon;
    hide DisablePon;
    match a
    case FlowAdd(f) => AddEntries(s, f);
    case FlowRemove(f) =>
      RemoveFrees(s, f);
      FreeHolds(s.gems, f.flowId);
      FreeHolds(s.allocs, f.flowId);
    case Activate(intf, onuId, sn) => ActivateEntries(s, intf, onuId, sn, e, alloc);
    case OltEvent(t) => OltEntries(s, t, e, alloc);
    case _ =>
  }

  /** Step m put the entry in, and none of the steps up to n took it out. */
  ghost predicate EnteredAt(states: seq<Olt>, run: seq<Action>, m: nat, n: nat, e: Entry, alloc: bool)
    requires |states| == |run| + 1 && n <= |run|
  {
    m < n && Enters(states[m], run[m], e, alloc) && forall k | m < k < n :: !Leaves(states[k], run[k], e)
  }

  ghost predicate Entered(states: seq<Olt>, run: seq<Action>, n: nat, e: Entry, alloc: bool)
    requires |states| == |run| + 1 && n <= |run|
  {
    exists m: nat :: EnteredAt(states, run, m, n, e, alloc)
  }

  lemma NewOltHoldsNone(pons: nat, onus: nat, ports: nat, config: Config, e: Entry, alloc: bool)
    ensures !Holds(TableOf(NewOlt(pons, onus, ports, config), alloc), e)
  {
    ResetPonsGood(map[], pons);
  }

  /**
    In every state of every run of a created device a table has an entry exactly when some accepted
    flow named it and since then the flow was not removed, its ONU id was not activated again
    and the device was not rebooted.
   */
  lemma {:induction false} HeldIff(
      pons: nat, onus: nat, ports: nat, config: Config,
      states: seq<Olt>, run: seq<Action>, crc: string -> nat, n: nat, e: Entry, alloc: bool)
    requires Trace(states, run, crc) && states[0] == NewOlt(pons, onus, ports, config) && n <= |run|
    ensures Holds(TableOf(states[n], alloc), e) <==> Entered(states, run, n, e, alloc)
  {
    hide Step;
    hide Enters;
    hide Leaves;
    hide Holds;
    hide GoodTables;
    if n == 0 {
      NewOltHoldsNone(pons, onus, ports, config, e, alloc);
    } else {
      HeldIff(pons, onus, ports, config, states, run, crc, n - 1, e, alloc);
      NewOltGoodTables(pons, onus, ports, config);
      RunKeepsGoodTables(states, run, crc, n - 1);
      TraceNext(states, run, crc, n - 1);
      StepEntries(states[n - 1], run[n - 1], crc, e, alloc);
      EnteredNext(states, run, n, e, alloc);
    }
  }

  lemma EnteredNext(states: seq<Olt>, run: seq<Action>, n: nat, e: Entry, alloc: bool)
    requires |states| == |run| + 1 && 0 < n <= |run|
    ensures Entered(states, run, n, e, alloc) <==>
              || Enters(states[n - 1], run[n - 1], e, alloc)
              || (Entered(states, run, n - 1, e, alloc) && !Leaves(states[n - 1], run[n - 1], e))
  {
    hide Enters;
    hide Leaves;
    if m: nat :| EnteredAt(states, run, m, n, e, alloc) {
      if m < n - 1 { assert EnteredAt(states, run, m, n - 1, e, alloc); }
    }
    if Enters(states[n - 1], run[n - 1], e, alloc) {
      assert EnteredAt(states, run, n - 1, n, e, alloc);
    }
    var l := n - 1;
    if m: nat :| EnteredAt(states, run, m, l, e, alloc) {
      if !Leaves(states[l], run[l], e) {
        assert EnteredAt(states, run, m, n, e, alloc);
      }
    }
  }
}
