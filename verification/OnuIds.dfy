/** The ONU-ID table of a PON port against the states of its ONUs, over every run. */
module OnuIds {
  import opened FlowTables
  import opened OnuFsm
  import opened OnuModel
  import opened DeviceModel
  import opened FlowIndex

  /** Every entry names an ONU of the PON that has the id now and is active. */
  ghost predicate NoStale(p: Pon) {
    forall id | id in p.tables.onuIds ::
      var i := p.tables.onuIds[id];
      i < |p.onus| && p.onus[i].id == id && Active(p.onus[i].state)
  }

  predicate Recorded(p: Pon, i: nat)
    requires HasOnu(p, i)
  {
    p.onus[i].id in p.tables.onuIds && p.tables.onuIds[p.onus[i].id] == i
  }

  /** Every active ONU has its entry. */
  ghost predicate Complete(p: Pon) {
    forall i: nat | HasOnu(p, i) :: Active(p.onus[i].state) ==> Recorded(p, i)
  }

  /** The id of this ONU is used by no other ONU of the PON. */
  ghost predicate OwnId(p: Pon, i: nat)
    requires HasOnu(p, i)
  {
    forall j | 0 <= j < |p.onus| && j != i :: p.onus[j].id != p.onus[i].id
  }

  /** No two ONUs share an id while either is active or waits for its PON. */
  ghost predicate LiveIdsDiffer(p: Pon) {
    forall i: nat | HasOnu(p, i) :: Live(p.onus[i].state) ==> OwnId(p, i)
  }

  /**
    What is kept while the events of ONU i are fired: no stale entry, and, when ids are
    not shared (`strong`), no missing entry either.
   */
  ghost predicate Sound(p: Pon, i: nat, strong: bool)
    requires HasOnu(p, i)
  {
    NoStale(p) && (strong ==> Complete(p) && (Live(p.onus[i].state) ==> OwnId(p, i)))
  }

  // ---------------------------------------------------------------------------
  // One ONU

  predicate SameView(c: Cell, c': Cell) {
    c'.onu.id == c.onu.id && c'.tables.onuIds == c.tables.onuIds &&
    (c'.onu.state == c.onu.state || (Active(c.onu.state) && Active(c'.onu.state)))
  }

  lemma ViewKeepsSound(p: Pon, i: nat, c: Cell, strong: bool)
    requires HasOnu(p, i) && Sound(p, i, strong) && SameView(CellAt(p, i), c)
    ensures Sound(PutCell(p, i, c), i, strong)
  {
    var p' := PutCell(p, i, c);
    assert forall j: nat | HasOnu(p', j) ::
        HasOnu(p, j) && (Recorded(p', j) <==> Recorded(p, j)) && p'.onus[j].id == p.onus[j].id &&
        (Active(p'.onus[j].state) <==> Active(p.onus[j].state));
  }

  lemma PortsDownView(o: Onu, n: nat)
    requires n <= |o.ports|
    ensures PortsDown(o, n).id == o.id && PortsDown(o, n).state == o.state
  {
  }

  lemma EnterView(c: Cell, sn: nat)
    ensures var r := Enter(c, sn);
            && r.onu.id == c.onu.id && r.onu.state == c.onu.state
            && r.tables.onuIds ==
               (if c.onu.state.Enabled? && c.onu.id !in c.tables.onuIds then c.tables.onuIds[c.onu.id := sn]
                else if IsOff(c.onu.state) then c.tables.onuIds - {c.onu.id}
                else c.tables.onuIds)
  {
    hide DropSn;
    hide PortsDown;
    var o := Send(c.onu.(flows := []), Indication);
    PortsDownView(o, |o.ports|);
  }

  /** What an event does to the entry of the ONU. */
  lemma FireView(c: Cell, sn: nat, e: OnuEvent)
    requires Allowed(c.onu.state, e)
    ensures var r := Fire(c, sn, e);
            && r.onu.id == c.onu.id && r.onu.state == Target(e)
            && r.tables.onuIds ==
               (if e.Enable? && c.onu.id !in c.tables.onuIds then c.tables.onuIds[c.onu.id := sn]
                else if e.Disable? || e.PonDisable? then c.tables.onuIds - {c.onu.id}
                else c.tables.onuIds)
  {
    hide Enter;
    EnterView(c.(onu := c.onu.(state := Target(e))), sn);
  }

  lemma FireStays(c: Cell, sn: nat, e: OnuEvent)
    requires !Allowed(c.onu.state, e)
    ensures Fire(c, sn, e) == c
  {
  }

  lemma FireKeepsSound(p: Pon, i: nat, e: OnuEvent, strong: bool)
    requires HasOnu(p, i) && Sound(p, i, strong)
    requires strong && e.Enable? && Allowed(p.onus[i].state, e) ==> OwnId(p, i)
    ensures Sound(PutCell(p, i, Fire(CellAt(p, i), i, e)), i, strong)
  {
    var c := CellAt(p, i);
    var p' := PutCell(p, i, Fire(c, i, e));
    if Allowed(c.onu.state, e) {
      FireView(c, i, e);
      assert forall id | id in p'.tables.onuIds :: id in p.tables.onuIds || (e.Enable? && id == c.onu.id);
      if strong {
        FireKeepsComplete(p, i, e);
        assert Live(p.onus[i].state) || e.Enable? ==> OwnId(p, i);
        OwnIdSame(p, p', i);
      }
    }
  }

  lemma FreeId(p: Pon, i: nat)
    requires HasOnu(p, i) && NoStale(p) && OwnId(p, i) && !Active(p.onus[i].state)
    ensures p.onus[i].id !in p.tables.onuIds
  {
    forall id | id in p.tables.onuIds
      ensures id != p.onus[i].id
    {
      assert p.onus[p.tables.onuIds[id]].id == id;
    }
  }

  lemma OwnIdSame(p: Pon, p': Pon, i: nat)
    requires HasOnu(p, i) && SameIds(p.onus, p'.onus)
    ensures OwnId(p, i) <==> OwnId(p', i)
  {
    assert forall j | 0 <= j < |p.onus| :: p.onus[j].id == p'.onus[j].id;
  }

  lemma FireKeepsComplete(p: Pon, i: nat, e: OnuEvent)
    requires HasOnu(p, i) && NoStale(p) && Complete(p) && Allowed(p.onus[i].state, e)
    requires Live(p.onus[i].state) || e.Enable? ==> OwnId(p, i)
    ensures Complete(PutCell(p, i, Fire(CellAt(p, i), i, e)))
  {
    var c := CellAt(p, i);
    var p' := PutCell(p, i, Fire(c, i, e));
    FireView(c, i, e);
    forall j: nat | HasOnu(p', j) && Active(p'.onus[j].state)
      ensures Recorded(p', j)
    {
      if j != i {
        assert HasOnu(p, j) && Recorded(p, j);
      } else if e.Enable? {
        FreeId(p, i);
      } else {
        assert HasOnu(p, i) && Recorded(p, i);
      }
    }
  }

  lemma FireTwiceKeepsSound(p: Pon, i: nat, e: OnuEvent, e': OnuEvent, strong: bool)
    requires HasOnu(p, i) && Sound(p, i, strong) && !e.Enable?
    requires strong && e'.Enable? ==> OwnId(p, i)
    ensures Sound(PutCell(p, i, FireTwice(CellAt(p, i), i, e, e')), i, strong)
  {
    FireKeepsSound(p, i, e, strong);
    var c := Fire(CellAt(p, i), i, e);
    if Allowed(p.onus[i].state, e) { FireView(CellAt(p, i), i, e); }
    var p1 := PutCell(p, i, c);
    assert CellAt(p1, i) == c;
    OwnIdSame(p, p1, i);
    FireKeepsSound(p1, i, e', strong);
    assert PutCell(p1, i, Fire(c, i, e')) == PutCell(p, i, Fire(c, i, e'));
  }

  /** An event fired after the state was touched in ways that do not matter here. */
  lemma FireAfter(p: Pon, i: nat, c: Cell, e: OnuEvent, strong: bool)
    requires HasOnu(p, i) && Sound(p, i, strong) && SameView(CellAt(p, i), c)
    requires strong && e.Enable? ==> OwnId(p, i)
    ensures Sound(PutCell(p, i, Fire(c, i, e)), i, strong)
  {
    ViewKeepsSound(p, i, c, strong);
    var p1 := PutCell(p, i, c);
    assert CellAt(p1, i) == c;
    OwnIdSame(p, p1, i);
    FireKeepsSound(p1, i, e, strong);
    assert PutCell(p1, i, Fire(c, i, e)) == PutCell(p, i, Fire(c, i, e));
  }

  lemma PowerOnKeepsSound(p: Pon, i: nat, strong: bool)
    requires HasOnu(p, i) && Sound(p, i, strong)
    requires strong && Live(PowerOn(CellAt(p, i), i).onu.state) ==> OwnId(p, i)
    ensures Sound(PutCell(p, i, PowerOn(CellAt(p, i), i)), i, strong)
  {
    hide Fire;
    var c := CellAt(p, i);
    var was := c.onu.state;
    FireKeepsSound(p, i, Initialize, strong);
    var c1 := if was.Created? || was.Disabled? then Fire(c, i, Initialize) else c;
    var p1 := PutCell(p, i, c1);
    assert CellAt(p1, i) == c1 && Sound(p1, i, strong);
    var c2 := c1.(onu := Send(c1.onu, Indication));
    if was.Created? || was.Disabled? { FireView(c, i, Initialize); }
    OwnIdSame(p, p1, i);
    ViewKeepsSound(p1, i, c2, strong);
    FireAfter(p1, i, c2, Discover, strong);
    if was.Disabled? {
      var p2 := PutCell(p1, i, c2);
      assert CellAt(p2, i) == c2 && c2.onu.state.Initialized?;
      FireView(c2, i, Discover);
      FireView(Fire(c2, i, Discover), i, OnuEvent.Enable);
      OwnIdSame(p1, p2, i);
      FireTwiceKeepsSound(p2, i, Discover, OnuEvent.Enable, strong);
      assert PowerOn(c, i) == FireTwice(c2, i, Discover, OnuEvent.Enable);
      assert PutCell(p2, i, PowerOn(c, i)) == PutCell(p, i, PowerOn(c, i));
    } else {
      assert PutCell(p1, i, PowerOn(c, i)) == PutCell(p, i, PowerOn(c, i));
    }
  }

  lemma ProcessView(c: Cell, pon: nat, sn: nat, rate: nat, crc: string -> nat)
    ensures SameView(c, Process(c, pon, sn, rate, crc))
  {
    var q := Queue(c.onu);
    if q != [] && q[0].OmciRequest? {
      OmciKeeps(c.(onu := c.onu.(channel := c.onu.channel.(queue := q[1..]))), pon, sn, q[0].request, rate, crc);
    }
  }

  lemma ActKeepsSound(p: Pon, pon: nat, i: nat, a: OnuAction, del: bool, rate: nat, crc: string -> nat, strong: bool)
    requires HasOnu(p, i) && Sound(p, i, strong)
    requires strong && Live(ActOnu(CellAt(p, i), pon, i, a, del, rate, crc).onu.state) ==> OwnId(p, i)
    ensures Sound(PutCell(p, i, ActOnu(CellAt(p, i), pon, i, a, del, rate, crc)), i, strong)
  {
    var c := CellAt(p, i);
    match a
    case FireDisable => FireKeepsSound(p, i, OnuEvent.Disable, strong);
    case DeleteOnu => FireAfter(p, i, c, OnuEvent.Disable, strong); ViewKeepsSound(p, i, c, strong);
    case DoRediscover =>
      ViewKeepsSound(p, i, c, strong);
      ViewKeepsSound(p, i, c.(onu := Send(c.onu, Indication)), strong);
      FireTwiceKeepsSound(p, i, Initialize, Discover, strong);
    case DoShutdown =>
      FireAfter(p, i, c, OnuEvent.Disable, strong);
      FireAfter(p, i, c.(onu := Send(c.onu, Indication)), OnuEvent.Disable, strong);
    case DoPowerOn =>
      ViewKeepsSound(p, i, c, strong);
      if !del { PowerOnKeepsSound(p, i, strong); }
    case DoProcess =>
      ProcessView(c, pon, i, rate, crc);
      ViewKeepsSound(p, i, Process(c, pon, i, rate, crc), strong);
    case InvalidateMds(random) =>
      ViewKeepsSound(p, i, c.(onu := c.onu.(omci := Invalidate(c.onu.omci, random))), strong);
    case OmciMsgOut(q) =>
      ViewKeepsSound(p, i, c, strong);
      ViewKeepsSound(p, i, c.(onu := Send(c.onu, OmciRequest(q))), strong);
    case PacketOut =>
      ViewKeepsSound(p, i, c, strong);
      ViewKeepsSound(p, i, c.(onu := Send(c.onu, Indication)), strong);
  }

  // ---------------------------------------------------------------------------
  // One PON

  /** No stale entries; no missing ones either while live ids differ. */
  ghost predicate PonSound(p: Pon, strong: bool) {
    NoStale(p) && (strong ==> Complete(p) && LiveIdsDiffer(p))
  }

  lemma OneOfPon(p: Pon, i: nat, c: Cell, strong: bool)
    requires HasOnu(p, i) && PonSound(p, strong)
    requires Sound(PutCell(p, i, c), i, strong)
    requires c.onu.id == p.onus[i].id && (Live(c.onu.state) ==> Live(p.onus[i].state))
    ensures PonSound(PutCell(p, i, c), strong)
  {
    var p' := PutCell(p, i, c);
    if strong {
      forall j: nat | HasOnu(p', j) && Live(p'.onus[j].state)
        ensures OwnId(p', j)
      {
        assert HasOnu(p, j) && OwnId(p, j);
      }
    }
  }

  lemma FireTwiceView(c: Cell, sn: nat)
    ensures var r := FireTwice(c, sn, Initialize, Discover);
            r.onu.id == c.onu.id && (Live(r.onu.state) ==> Live(c.onu.state))
  {
    if Allowed(c.onu.state, Initialize) { FireView(c, sn, Initialize); }
    var c1 := Fire(c, sn, Initialize);
    if Allowed(c1.onu.state, Discover) { FireView(c1, sn, Discover); }
  }

  lemma FireKeepsView(c: Cell, sn: nat, e: OnuEvent)
    requires e.Initialize? || e.Discover? || (e.Enable? && c.onu.state.PonDisabled?)
    ensures var r := Fire(c, sn, e);
            r.onu.id == c.onu.id && (Live(r.onu.state) ==> Live(c.onu.state))
  {
    if Allowed(c.onu.state, e) { FireView(c, sn, e); }
  }

  lemma RaiseView(c: Cell, sn: nat, mode: Mode, src: PonState)
    ensures var r := RaiseOnu(c, sn, mode, src);
            r.onu.id == c.onu.id && (Live(r.onu.state) ==> Live(c.onu.state))
  {
    hide Fire;
    FireKeepsView(c, sn, Initialize);
    FireKeepsView(c, sn, Discover);
    if c.onu.state.PonDisabled? { FireKeepsView(c, sn, OnuEvent.Enable); }
    FireTwiceView(c, sn);
  }

  lemma RaiseOneKeepsSound(p: Pon, i: nat, mode: Mode, src: PonState, strong: bool)
    requires HasOnu(p, i) && PonSound(p, strong)
    ensures PonSound(PutCell(p, i, RaiseOnu(CellAt(p, i), i, mode, src)), strong)
  {
    hide Fire;
    var c := CellAt(p, i);
    assert Sound(p, i, strong);
    ViewKeepsSound(p, i, c, strong);
    FireKeepsSound(p, i, Initialize, strong);
    FireKeepsSound(p, i, Discover, strong);
    if c.onu.state.PonDisabled? { FireKeepsSound(p, i, OnuEvent.Enable, strong); }
    FireTwiceKeepsSound(p, i, Initialize, Discover, strong);
    RaiseView(c, i, mode, src);
    OneOfPon(p, i, RaiseOnu(c, i, mode, src), strong);
  }

  lemma RaiseAllKeepsSound(p: Pon, mode: Mode, src: PonState, n: nat, strong: bool)
    requires n <= |p.onus| && PonSound(p, strong)
    ensures PonSound(RaiseOnus(p, mode, src, n), strong)
  {
    hide RaiseOnu;
    hide PonSound;
    if n > 0 {
      RaiseAllKeepsSound(p, mode, src, n - 1, strong);
      RaiseOneKeepsSound(RaiseOnus(p, mode, src, n - 1), n - 1, mode, src, strong);
    }
  }

  lemma LowerOneKeepsSound(p: Pon, i: nat, strong: bool)
    requires HasOnu(p, i) && PonSound(p, strong)
    ensures PonSound(PutCell(p, i, LowerOnu(CellAt(p, i), i)), strong)
  {
    var c := CellAt(p, i);
    assert Sound(p, i, strong);
    ViewKeepsSound(p, i, c, strong);
    FireKeepsSound(p, i, PonDisable, strong);
    if Allowed(c.onu.state, PonDisable) { FireView(c, i, PonDisable); }
    OneOfPon(p, i, LowerOnu(c, i), strong);
  }

  lemma LowerAllKeepsSound(p: Pon, n: nat, strong: bool)
    requires n <= |p.onus| && PonSound(p, strong)
    ensures PonSound(LowerOnus(p, n), strong)
  {
    hide LowerOnu;
    hide PonSound;
    if n > 0 {
      LowerAllKeepsSound(p, n - 1, strong);
      LowerOneKeepsSound(LowerOnus(p, n - 1), n - 1, strong);
    }
  }

  // ActivateOnu -------------------------------------------------------------------

  function ActivatePon(p: Pon, sn: nat, onuId: nat): Pon
    requires HasOnu(p, sn)
  {
    PutCell(p, sn, ActivateCell(CellAt(p, sn), sn, onuId))
  }

  lemma ActivateKeepsSound(p: Pon, sn: nat, onuId: nat, strong: bool)
    requires HasOnu(p, sn) && PonSound(p, strong)
    requires Recorded(p, sn) ==> p.onus[sn].id == onuId
    requires strong ==> LiveIdsDiffer(ActivatePon(p, sn, onuId))
    ensures PonSound(ActivatePon(p, sn, onuId), strong)
  {
    hide Fire;
    var c := CellAt(p, sn).(onu := p.onus[sn].(id := onuId));
    var p1 := PutCell(p, sn, c);
    if p.onus[sn].id != onuId {
      assert forall id | id in p.tables.onuIds :: p.tables.onuIds[id] != sn;
    }
    assert NoStale(p1);
    if strong {
      forall j: nat | HasOnu(p1, j) && Active(p1.onus[j].state)
        ensures Recorded(p1, j)
      {
        assert HasOnu(p, j) && Recorded(p, j);
      }
      if Allowed(c.onu.state, OnuEvent.Enable) {
        FireView(c, sn, OnuEvent.Enable);
      } else {
        FireStays(c, sn, OnuEvent.Enable);
      }
      var p2 := ActivatePon(p, sn, onuId);
      if Live(p1.onus[sn].state) || Allowed(c.onu.state, OnuEvent.Enable) {
        assert HasOnu(p2, sn) && OwnId(p2, sn);
        OwnIdSame(p1, p2, sn);
      }
    }
    assert CellAt(p1, sn) == c;
    FireKeepsSound(p1, sn, OnuEvent.Enable, strong);
    assert PutCell(p1, sn, Fire(c, sn, OnuEvent.Enable)) == ActivatePon(p, sn, onuId);
  }

  /** Activating an ONU leaves a stale entry exactly when it renames an ONU that has one. */
  lemma ActivateLeavesNoStaleIff(p: Pon, sn: nat, onuId: nat)
    requires HasOnu(p, sn) && NoStale(p)
    ensures NoStale(ActivatePon(p, sn, onuId)) <==> (Recorded(p, sn) ==> p.onus[sn].id == onuId)
  {
    if Recorded(p, sn) && p.onus[sn].id != onuId {
      var id := p.onus[sn].id;
      var p' := ActivatePon(p, sn, onuId);
      assert id in p.tables.onuIds && Active(p.onus[sn].state);
      assert id in p'.tables.onuIds && p'.onus[sn].id == onuId;
    } else {
      ActivateKeepsSound(p, sn, onuId, false);
    }
  }

  /** Clearing the tables in a reboot loses no entry exactly when no ONU is active. */
  lemma ClearKeepsCompleteIff(p: Pon)
    ensures Complete(p.(tables := EMPTY_TABLES)) <==> forall i: nat | HasOnu(p, i) :: !Active(p.onus[i].state)
  {
    var p' := p.(tables := EMPTY_TABLES);
    assert forall i: nat | HasOnu(p', i) :: HasOnu(p, i) && !Recorded(p', i);
    assert forall i: nat | HasOnu(p, i) :: HasOnu(p', i);
  }

  // ---------------------------------------------------------------------------
  // The device

  ghost predicate OltSound(s: Olt, strong: bool) {
    forall p | 0 <= p < |s.pons| :: PonSound(s.pons[p], strong)
  }

  ghost predicate AllLiveIdsDiffer(s: Olt) {
    forall p | 0 <= p < |s.pons| :: LiveIdsDiffer(s.pons[p])
  }

  /** An ONU with an entry is not activated under another id. */
  ghost predicate KeepsEntry(s: Olt, a: Action) {
    a.Activate? && IsOnu(s, a.intf, a.sn) && Recorded(s.pons[a.intf], a.sn) ==> OnuAt(s, a.intf, a.sn).id == a.onuId
  }

  /** While no entry is stale, activating an ONU that is not active is always within the rule. */
  lemma InactiveKeepsEntry(s: Olt, intf: nat, onuId: nat, sn: nat)
    requires OltSound(s, false) && (IsOnu(s, intf, sn) ==> !Active(OnuAt(s, intf, sn).state))
    ensures KeepsEntry(s, Activate(intf, onuId, sn))
  {
    if IsOnu(s, intf, sn) {
      assert PonSound(s.pons[intf], false) && NoStale(s.pons[intf]);
    }
  }

  lemma SameOnusSound(s: Olt, s': Olt, strong: bool)
    requires OltSound(s, strong) && SameOnus(s, s'.(state := s.state))
    ensures OltSound(s', strong)
  {
    forall p | 0 <= p < |s'.pons|
      ensures PonSound(s'.pons[p], strong)
    {
      SamePonSound(s.pons[p], s'.pons[p], strong);
    }
  }

  lemma SamePonSound(p: Pon, p': Pon, strong: bool)
    requires PonSound(p, strong) && Alike(p, p'.(state := p.state))
    ensures PonSound(p', strong)
  {
    if strong {
      forall j: nat | HasOnu(p', j)
        ensures Active(p'.onus[j].state) ==> Recorded(p', j)
        ensures Live(p'.onus[j].state) ==> OwnId(p', j)
      {
        assert HasOnu(p, j) && (Active(p.onus[j].state) ==> Recorded(p, j)) && (Live(p.onus[j].state) ==> OwnId(p, j));
      }
    }
  }

  lemma SetPonKeepsSound(s: Olt, p: nat, pon: Pon, strong: bool)
    requires OltSound(s, strong) && p < |s.pons| && PonSound(pon, strong)
    ensures OltSound(SetPon(s, p, pon), strong)
  {
  }

  lemma AtOnuKeepsSound(s: Olt, p: nat, i: nat, a: OnuAction, crc: string -> nat, strong: bool)
    requires OltSound(s, strong) && IsOnu(s, p, i)
    requires strong ==> AllLiveIdsDiffer(Step(s, AtOnu(p, i, a), crc))
    ensures OltSound(Step(s, AtOnu(p, i, a), crc), strong)
  {
    var pon := s.pons[p];
    var c := ActOnu(CellAt(pon, i), p, i, a, s.state.OltDeleted?, s.config.rate, crc);
    var pon' := PutCell(pon, i, c);
    assert PonSound(pon, strong) && Sound(pon, i, strong);
    ActKeepsOrDrops(CellAt(pon, i), p, i, a, s.state.OltDeleted?, s.config.rate, crc);
    if strong {
      assert Step(s, AtOnu(p, i, a), crc).pons[p] == pon';
      assert LiveIdsDiffer(pon') && HasOnu(pon', i);
      assert Live(c.onu.state) ==> OwnId(pon', i);
      OwnIdSame(pon, pon', i);
    }
    ActKeepsSound(pon, p, i, a, s.state.OltDeleted?, s.config.rate, crc, strong);
    SetPonKeepsSound(s, p, pon', strong);
  }

  lemma StepKeepsSound(s: Olt, a: Action, crc: string -> nat, strong: bool)
    requires OltSound(s, strong) && KeepsEntry(s, a)
    requires strong ==> AllLiveIdsDiffer(Step(s, a, crc)) && a != OltEvent(TxDelete)
    ensures OltSound(Step(s, a, crc), strong)
  {
    hide AddFlowStep;
    hide RemoveFlowStep;
    hide ActivateStep;
    hide ActOnu;
    hide EnablePon;
    hide DisablePon;
    match a
    case FlowAdd(f) => AddSameOnus(s, f); SameOnusSound(s, AddFlowStep(s, f), strong);
    case FlowRemove(f) => RemoveSameOnus(s, f); SameOnusSound(s, RemoveFlowStep(s, f), strong);
    case Activate(intf, onuId, sn) => ActivateStepKeepsSound(s, intf, onuId, sn, strong);
    case PonUp(intf) => if intf < |s.pons| { PonUpKeepsSound(s, intf, strong); }
    case PonLow(intf) => if intf < |s.pons| { PonLowKeepsSound(s, intf, strong); }
    case AtOnu(intf, sn, act) => if IsOnu(s, intf, sn) { AtOnuKeepsSound(s, intf, sn, act, crc, strong); }
    case OltEvent(e) => if e.TxDelete? { DeleteKeepsNoStale(s); } else { SameOnusSound(s, OltStep(s, e), strong); }
  }

  lemma DeleteKeepsNoStale(s: Olt)
    requires OltSound(s, false)
    ensures OltSound(OltStep(s, TxDelete), false)
  {
  }

  lemma PonUpKeepsSound(s: Olt, intf: nat, strong: bool)
    requires OltSound(s, strong) && intf < |s.pons|
    ensures OltSound(SetPon(s, intf, EnablePon(s.pons[intf], s.config.mode)), strong)
  {
    var p := s.pons[intf];
    assert PonSound(p, strong);
    SamePonSound(p, p.(state := PonEnabled), strong);
    RaiseAllKeepsSound(p.(state := PonEnabled), s.config.mode, p.state, |p.onus|, strong);
    SetPonKeepsSound(s, intf, EnablePon(p, s.config.mode), strong);
  }

  lemma PonLowKeepsSound(s: Olt, intf: nat, strong: bool)
    requires OltSound(s, strong) && intf < |s.pons|
    ensures OltSound(SetPon(s, intf, DisablePon(s.pons[intf])), strong)
  {
    var p := s.pons[intf];
    assert PonSound(p, strong);
    SamePonSound(p, p.(state := PonDown), strong);
    LowerAllKeepsSound(p.(state := PonDown), |p.onus|, strong);
    SetPonKeepsSound(s, intf, DisablePon(p), strong);
  }

  lemma ActivateStepKeepsSound(s: Olt, intf: nat, onuId: nat, sn: nat, strong: bool)
    requires OltSound(s, strong) && KeepsEntry(s, Activate(intf, onuId, sn))
    requires strong ==> AllLiveIdsDiffer(ActivateStep(s, intf, onuId, sn))
    ensures OltSound(ActivateStep(s, intf, onuId, sn), strong)
  {
    var s' := ActivateStep(s, intf, onuId, sn);
    if IsOnu(s, intf, sn) && intf in s.allocs && intf in s.gems {
      var p := s.pons[intf];
      assert PonSound(p, strong) && s'.pons[intf] == ActivatePon(p, sn, onuId);
      ActivateKeepsSound(p, sn, onuId, strong);
    }
  }

  lemma NewOltSound(pons: nat, onus: nat, ports: nat, config: Config, strong: bool)
    ensures OltSound(NewOlt(pons, onus, ports, config), strong)
  {
  }

  ghost predicate KeepsEntries(states: seq<Olt>, run: seq<Action>)
    requires |states| == |run| + 1
  {
    forall i: nat | i < |run| :: KeepsEntry(states[i], run[i])
  }

  /** The run does not delete the OLT and no state of it shares a live id. */
  ghost predicate Undisturbed(states: seq<Olt>, run: seq<Action>)
    requires |states| == |run| + 1
  {
    && (forall i: nat | i < |run| :: run[i] != OltEvent(TxDelete))
    && forall i: nat | i <= |run| :: AllLiveIdsDiffer(states[i])
  }

  /**
    In every state of every run that does not rename an ONU with an entry, each entry
    names an active ONU with that id.  If moreover the OLT is not rebooted and live ids are
    never shared, every active ONU has its entry, so the table is exactly the active ONUs.
   */
  lemma {:induction false} RunKeepsSound(
      states: seq<Olt>, run: seq<Action>, crc: string -> nat, n: nat, strong: bool)
    requires Trace(states, run, crc) && OltSound(states[0], strong) && n <= |run|
    requires KeepsEntries(states, run) && (strong ==> Undisturbed(states, run))
    ensures OltSound(states[n], strong)
  {
    hide Step;
    hide OltSound;
    hide KeepsEntry;
    hide AllLiveIdsDiffer;
    if n > 0 {
      RunKeepsSound(states, run, crc, n - 1, strong);
      TraceNext(states, run, crc, n - 1);
      StepKeepsSound(states[n - 1], run[n - 1], crc, strong);
    }
  }

  /** In the latter case an ONU is active exactly when some entry names it. */
  lemma TableIsActiveOnus(
      states: seq<Olt>, run: seq<Action>, crc: string -> nat, n: nat, p: nat, i: nat)
    requires Trace(states, run, crc) && OltSound(states[0], true) && n <= |run|
    requires KeepsEntries(states, run) && Undisturbed(states, run) && IsOnu(states[n], p, i)
    ensures var pon := states[n].pons[p];
            Active(pon.onus[i].state) <==> exists id :: id in pon.tables.onuIds && pon.tables.onuIds[id] == i
  {
    hide Step;
    RunKeepsSound(states, run, crc, n, true);
    var pon := states[n].pons[p];
    assert PonSound(pon, true) && HasOnu(pon, i);
    if Active(pon.onus[i].state) {
      assert Recorded(pon, i);
    }
  }
}
