/**
  The GEM port and alloc id tables of a PON port against the states of its ONUs: switching an
  ONU off drops what it allocated, but a request that was pending then may allocate once more.
 */
module PonTableRuns {
  import opened Basics
  import opened FlowTables
  import opened OnuFsm
  import opened OnuModel
  import opened DeviceModel

  /** The ONU owns a GEM port or an alloc id. */
  ghost predicate Named(t: PonTables, sn: nat) {
    (exists g: nat :: g in t.gemPorts && t.gemPorts[g] == sn) ||
    (exists k: AllocKey :: k in t.allocIds && t.allocIds[k].sn == sn)
  }

  /** Every GEM port and every alloc id belongs to an ONU of the PON that is not switched off. */
  ghost predicate Tidy(p: Pon) {
    forall sn: nat | Named(p.tables, sn) :: HasOnu(p, sn) && !IsOff(p.onus[sn].state)
  }

  ghost predicate TidyOlt(s: Olt) {
    forall p | 0 <= p < |s.pons| :: Tidy(s.pons[p])
  }

  ghost predicate OwnTidy(c: Cell, sn: nat) {
    Named(c.tables, sn) ==> !IsOff(c.onu.state)
  }

  ghost predicate Shrinks(t: PonTables, t': PonTables) {
    forall sn: nat | Named(t', sn) :: Named(t, sn)
  }

  /** Nothing is allocated to another ONU. */
  ghost predicate OnlyOwn(t: PonTables, t': PonTables, own: nat) {
    forall sn: nat | sn != own && Named(t', sn) :: Named(t, sn)
  }

  // ---------------------------------------------------------------------------
  // The state machine of an ONU

  lemma Dropped(t: PonTables, sn: nat)
    ensures Shrinks(t, DropSn(t, sn)) && !Named(DropSn(t, sn), sn)
  {
    var t' := DropSn(t, sn);
    forall x: nat | Named(t', x)
      ensures Named(t, x)
    {
      if g: nat :| g in t'.gemPorts && t'.gemPorts[g] == x {
        assert g in t.gemPorts && t.gemPorts[g] == x;
      } else {
        var k: AllocKey :| k in t'.allocIds && t'.allocIds[k].sn == x;
        assert k in t.allocIds && t.allocIds[k].sn == x;
      }
    }
  }

  lemma SameAllocations(t: PonTables, t': PonTables)
    requires t'.gemPorts == t.gemPorts && t'.allocIds == t.allocIds
    ensures forall sn: nat :: Named(t', sn) <==> Named(t, sn)
  {
  }

  lemma PortsDownState(o: Onu, n: nat)
    requires n <= |o.ports|
    ensures PortsDown(o, n).state == o.state
  {
  }

  lemma EnterTidies(c: Cell, sn: nat)
    ensures Shrinks(c.tables, Enter(c, sn).tables) && Enter(c, sn).onu.state == c.onu.state
    ensures IsOff(c.onu.state) ==> !Named(Enter(c, sn).tables, sn)
  {
    hide Named;
    hide DropSn;
    hide PortsDown;
    var t := c.tables.(onuIds := c.tables.onuIds - {c.onu.id});
    SameAllocations(c.tables, t);
    Dropped(t, sn);
    SameAllocations(c.tables, c.tables.(onuIds := c.tables.onuIds[c.onu.id := sn]));
    var o := Send(c.onu.(flows := []), Indication);
    PortsDownState(o, |o.ports|);
  }

  lemma FireKeepsTidy(c: Cell, sn: nat, e: OnuEvent)
    requires OwnTidy(c, sn)
    ensures OwnTidy(Fire(c, sn, e), sn) && Shrinks(c.tables, Fire(c, sn, e).tables)
  {
    hide Named;
    hide Enter;
    EnterTidies(c.(onu := c.onu.(state := Target(e))), sn);
  }

  lemma FireTwiceKeepsTidy(c: Cell, sn: nat, e: OnuEvent, e': OnuEvent)
    requires OwnTidy(c, sn)
    ensures OwnTidy(FireTwice(c, sn, e, e'), sn) && Shrinks(c.tables, FireTwice(c, sn, e, e').tables)
  {
    hide Named;
    hide Fire;
    FireKeepsTidy(c, sn, e);
    FireKeepsTidy(Fire(c, sn, e), sn, e');
  }

  lemma PowerOnKeepsTidy(c: Cell, sn: nat)
    requires OwnTidy(c, sn)
    ensures OwnTidy(PowerOn(c, sn), sn) && Shrinks(c.tables, PowerOn(c, sn).tables)
  {
    hide Named;
    hide Fire;
    hide FireTwice;
    var was := c.onu.state;
    FireKeepsTidy(c, sn, Initialize);
    var c1 := if was.Created? || was.Disabled? then Fire(c, sn, Initialize) else c;
    var c2 := c1.(onu := Send(c1.onu, Indication));
    FireTwiceKeepsTidy(c2, sn, Discover, Enable);
    FireKeepsTidy(c2, sn, Discover);
  }

  // ---------------------------------------------------------------------------
  // Requests

  /** The request makes an entry: Create takes a free GEM port, Set gives a T-CONT an alloc id. */
  predicate Allocates(t: PonTables, pon: nat, onuId: nat, q: Request) {
    match q
    case Create(gem, ok) => gem.Some? && gem.value != MULTICAST_GEM && gem.value !in t.gemPorts
    case SetTCont(entity, allocId, ok) =>
      allocId != 255 && allocId != 65535 && AllocKey(pon, onuId, entity) !in t.allocIds
    case _ => false
  }

  lemma CreateNames(c: Cell, sn: nat, gem: Option<nat>, ok: bool)
    ensures var t := AnswerCreate(c, sn, gem, ok).cell.tables;
            && OnlyOwn(c.tables, t, sn)
            && (Named(t, sn) <==> Named(c.tables, sn) || Allocates(c.tables, 0, 0, Create(gem, ok)))
  {
    var t := AnswerCreate(c, sn, gem, ok).cell.tables;
    if Allocates(c.tables, 0, 0, Create(gem, ok)) {
      assert gem.value in t.gemPorts && t.gemPorts[gem.value] == sn;
      forall x: nat | x != sn && Named(t, x)
        ensures Named(c.tables, x)
      {
        if g: nat :| g in t.gemPorts && t.gemPorts[g] == x {
          assert g in c.tables.gemPorts && c.tables.gemPorts[g] == x;
        }
      }
    }
  }

  lemma TContNames(c: Cell, pon: nat, sn: nat, entity: nat, allocId: nat, ok: bool)
    ensures var t := AnswerTCont(c, AllocKey(pon, c.onu.id, entity), sn, allocId, ok).cell.tables;
            && OnlyOwn(c.tables, t, sn)
            && (Allocates(c.tables, pon, c.onu.id, SetTCont(entity, allocId, ok)) ==> Named(t, sn))
            && (!Allocates(c.tables, pon, c.onu.id, SetTCont(entity, allocId, ok)) ==> Shrinks(c.tables, t))
  {
    var key := AllocKey(pon, c.onu.id, entity);
    var t := AnswerTCont(c, key, sn, allocId, ok).cell.tables;
    if Allocates(c.tables, pon, c.onu.id, SetTCont(entity, allocId, ok)) {
      assert key in t.allocIds && t.allocIds[key].sn == sn;
    }
    forall x: nat | Named(t, x) && (x == sn ==> !Allocates(c.tables, pon, c.onu.id, SetTCont(entity, allocId, ok)))
      ensures Named(c.tables, x)
    {
      if k: AllocKey :| k in t.allocIds && t.allocIds[k].sn == x {
        assert k in c.tables.allocIds && c.tables.allocIds[k].sn == x;
      }
    }
  }

  lemma DeleteShrinks(t: PonTables, gem: nat)
    ensures Shrinks(t, t.(gemPorts := t.gemPorts - {gem}))
  {
    var t' := t.(gemPorts := t.gemPorts - {gem});
    forall x: nat | Named(t', x)
      ensures Named(t, x)
    {
      if g: nat :| g in t'.gemPorts && t'.gemPorts[g] == x {
        assert g in t.gemPorts && t.gemPorts[g] == x;
      }
    }
  }

  lemma AnswerNames(c: Cell, pon: nat, sn: nat, q: Request, crc: string -> nat)
    ensures var t := Answer(c, pon, sn, q, crc).cell.tables;
            && OnlyOwn(c.tables, t, sn)
            && (Allocates(c.tables, pon, c.onu.id, q) ==> Named(t, sn))
            && (!Allocates(c.tables, pon, c.onu.id, q) ==> Shrinks(c.tables, t))
  {
    hide Named;
    hide DropSn;
    hide SetPortState;
    hide AnswerTCont;
    hide AnswerCreate;
    hide AnswerEnd;
    hide AnswerSection;
    hide Accept;
    if ImageRequest(q) {
      ImageAnswerKeeps(c, pon, sn, q, crc);
    } else {
      match q
      case MibReset(ok) => Dropped(c.tables, sn);
      case SetTCont(entity, allocId, ok) => TContNames(c, pon, sn, entity, allocId, ok);
      case Create(gem, ok) => CreateNames(c, sn, gem, ok);
      case Delete(Some(gem), ok) => DeleteShrinks(c.tables, gem);
      case _ =>
    }
  }

  /** A switched off ONU whose next message makes an entry. */
  predicate LateAllocation(c: Cell, pon: nat, rate: nat) {
    && IsOff(c.onu.state) && Queue(c.onu) != [] && Queue(c.onu)[0].OmciRequest?
    && NextCounter(c.onu.omci.counter) <= rate
    && Allocates(c.tables, pon, c.onu.id, Queue(c.onu)[0].request)
  }

  lemma OmciTidyIff(c: Cell, pon: nat, sn: nat, q: Request, rate: nat, crc: string -> nat)
    requires OwnTidy(c, sn)
    ensures var c' := HandleOmci(c, pon, sn, q, rate, crc).cell;
            && OnlyOwn(c.tables, c'.tables, sn)
            && (OwnTidy(c', sn) <==>
                  !(IsOff(c.onu.state) && NextCounter(c.onu.omci.counter) <= rate &&
                    Allocates(c.tables, pon, c.onu.id, q)))
  {
    hide Named;
    hide Answer;
    hide Allocates;
    OmciKeeps(c, pon, sn, q, rate, crc);
    AnswerNames(c.(onu := c.onu.(omci := c.onu.omci.(counter := NextCounter(c.onu.omci.counter)))), pon, sn, q, crc);
  }

  lemma ProcessTidyIff(c: Cell, pon: nat, sn: nat, rate: nat, crc: string -> nat)
    requires OwnTidy(c, sn)
    ensures var c' := Process(c, pon, sn, rate, crc);
            OnlyOwn(c.tables, c'.tables, sn) && (OwnTidy(c', sn) <==> !LateAllocation(c, pon, rate))
  {
    hide Named;
    hide HandleOmci;
    hide Allocates;
    var q := Queue(c.onu);
    if q != [] && q[0].OmciRequest? {
      OmciTidyIff(c.(onu := c.onu.(channel := c.onu.channel.(queue := q[1..]))), pon, sn, q[0].request, rate, crc);
    }
  }

  lemma ActTidyIff(c: Cell, pon: nat, sn: nat, a: OnuAction, del: bool, rate: nat, crc: string -> nat)
    requires OwnTidy(c, sn)
    ensures var c' := ActOnu(c, pon, sn, a, del, rate, crc);
            && OnlyOwn(c.tables, c'.tables, sn)
            && (OwnTidy(c', sn) <==> !(a.DoProcess? && LateAllocation(c, pon, rate)))
  {
    hide Named;
    hide Fire;
    hide FireTwice;
    hide Process;
    hide PowerOn;
    hide LateAllocation;
    match a
    case DoProcess => ProcessTidyIff(c, pon, sn, rate, crc);
    case DoPowerOn => PowerOnKeepsTidy(c, sn);
    case DoRediscover => FireTwiceKeepsTidy(c, sn, Initialize, Discover);
    case DoShutdown =>
      FireKeepsTidy(c.(onu := Send(c.onu, Indication)), sn, OnuEvent.Disable);
      FireKeepsTidy(c, sn, OnuEvent.Disable);
    case _ => FireKeepsTidy(c, sn, OnuEvent.Disable);
  }

  // ---------------------------------------------------------------------------
  // A PON

  lemma PutTidyIff(p: Pon, i: nat, c: Cell)
    requires HasOnu(p, i) && Tidy(p) && OnlyOwn(p.tables, c.tables, i)
    ensures Tidy(PutCell(p, i, c)) <==> OwnTidy(c, i)
  {
    hide Named;
  }

  lemma RaiseKeepsTidy(c: Cell, sn: nat, mode: Mode, src: PonState)
    requires OwnTidy(c, sn)
    ensures OwnTidy(RaiseOnu(c, sn, mode, src), sn) && Shrinks(c.tables, RaiseOnu(c, sn, mode, src).tables)
  {
    hide Named;
    hide Fire;
    hide FireTwice;
    FireKeepsTidy(c, sn, Initialize);
    FireKeepsTidy(c, sn, Discover);
    FireKeepsTidy(c, sn, OnuEvent.Enable);
    FireTwiceKeepsTidy(c, sn, Initialize, Discover);
  }

  lemma RaiseAllKeepsTidy(p: Pon, mode: Mode, src: PonState, n: nat)
    requires n <= |p.onus| && Tidy(p)
    ensures Tidy(RaiseOnus(p, mode, src, n))
  {
    hide Named;
    hide RaiseOnu;
    if n > 0 {
      RaiseAllKeepsTidy(p, mode, src, n - 1);
      var q := RaiseOnus(p, mode, src, n - 1);
      RaiseKeepsTidy(CellAt(q, n - 1), n - 1, mode, src);
      PutTidyIff(q, n - 1, RaiseOnu(CellAt(q, n - 1), n - 1, mode, src));
    }
  }

  lemma LowerAllKeepsTidy(p: Pon, n: nat)
    requires n <= |p.onus| && Tidy(p)
    ensures Tidy(LowerOnus(p, n))
  {
    hide Named;
    hide Fire;
    if n > 0 {
      LowerAllKeepsTidy(p, n - 1);
      var q := LowerOnus(p, n - 1);
      FireKeepsTidy(CellAt(q, n - 1), n - 1, PonDisable);
      PutTidyIff(q, n - 1, LowerOnu(CellAt(q, n - 1), n - 1));
    }
  }

  lemma PonKeepsTidy(p: Pon, mode: Mode)
    requires Tidy(p)
    ensures Tidy(EnablePon(p, mode)) && Tidy(DisablePon(p))
  {
    hide Named;
    hide RaiseOnu;
    hide LowerOnu;
    RaiseAllKeepsTidy(p.(state := PonEnabled), mode, p.state, |p.onus|);
    LowerAllKeepsTidy(p.(state := PonDown), |p.onus|);
  }

  // ---------------------------------------------------------------------------
  // The device

  /** The step lets a switched off ONU handle a request that makes an entry. */
  predicate AllocatesLate(s: Olt, a: Action) {
    && a.AtOnu? && a.act.DoProcess? && IsOnu(s, a.intf, a.sn)
    && LateAllocation(CellAt(s.pons[a.intf], a.sn), a.intf, s.config.rate)
  }

  lemma SetTidyIff(s: Olt, p: nat, i: nat, c: Cell)
    requires IsOnu(s, p, i) && TidyOlt(s) && OnlyOwn(s.pons[p].tables, c.tables, i)
    ensures TidyOlt(SetCell(s, p, i, c)) <==> OwnTidy(c, i)
  {
    hide Tidy;
    hide OwnTidy;
    hide OnlyOwn;
    PutTidyIff(s.pons[p], i, c);
    assert SetCell(s, p, i, c).pons[p] == PutCell(s.pons[p], i, c);
  }

  lemma SameKeepsTidy(s: Olt, s': Olt)
    requires TidyOlt(s) && SameOnus(s, s')
    ensures TidyOlt(s')
  {
    hide Named;
    forall p | 0 <= p < |s'.pons|
      ensures Tidy(s'.pons[p])
    {
      assert Tidy(s.pons[p]) && Alike(s.pons[p], s'.pons[p]);
    }
  }

  lemma ActivateKeepsTidy(s: Olt, intf: nat, onuId: nat, sn: nat)
    requires TidyOlt(s)
    ensures TidyOlt(ActivateStep(s, intf, onuId, sn))
  {
    hide Named;
    hide Fire;
    if IsOnu(s, intf, sn) && intf in s.allocs && intf in s.gems {
      var c := CellAt(s.pons[intf], sn);
      assert Tidy(s.pons[intf]);
      FireKeepsTidy(c.(onu := c.onu.(id := onuId)), sn, OnuEvent.Enable);
      var s1 := s.(allocs := Register(s.allocs, intf, onuId), gems := Register(s.gems, intf, onuId));
      SetTidyIff(s1, intf, sn, ActivateCell(c, sn, onuId));
    }
  }

  lemma OltStepKeepsTidy(s: Olt, e: OltTransition)
    requires TidyOlt(s)
    ensures TidyOlt(OltStep(s, e))
  {
    forall p | 0 <= p < |s.pons| && OltStep(s, e).state.OltDeleted? && OltAllowed(s.state, e)
      ensures Tidy(s.pons[p].(tables := EMPTY_TABLES))
    {
    }
  }

  lemma ActStepTidyIff(s: Olt, intf: nat, sn: nat, a: OnuAction, crc: string -> nat)
    requires TidyOlt(s) && IsOnu(s, intf, sn)
    ensures var c := CellAt(s.pons[intf], sn);
            TidyOlt(SetCell(s, intf, sn, ActOnu(c, intf, sn, a, s.state.OltDeleted?, s.config.rate, crc))) <==>
              !AllocatesLate(s, AtOnu(intf, sn, a))
  {
    hide Named;
    hide ActOnu;
    hide LateAllocation;
    var c := CellAt(s.pons[intf], sn);
    assert Tidy(s.pons[intf]);
    ActTidyIff(c, intf, sn, a, s.state.OltDeleted?, s.config.rate, crc);
    SetTidyIff(s, intf, sn, ActOnu(c, intf, sn, a, s.state.OltDeleted?, s.config.rate, crc));
  }

  lemma StepTidyIff(s: Olt, a: Action, crc: string -> nat)
    requires TidyOlt(s)
    ensures TidyOlt(Step(s, a, crc)) <==> !AllocatesLate(s, a)
  {
    hide Tidy;
    hide OltStep;
    hide AddFlowStep;
    hide RemoveFlowStep;
    hide ActivateStep;
    hide ActOnu;
    hide EnablePon;
    hide DisablePon;
    hide LateAllocation;
    match a
    case FlowAdd(f) =>
      AddSameOnus(s, f);
      SameKeepsTidy(s, AddFlowStep(s, f));
    case FlowRemove(f) =>
      RemoveSameOnus(s, f);
      SameKeepsTidy(s, RemoveFlowStep(s, f));
    case Activate(intf, onuId, sn) => ActivateKeepsTidy(s, intf, onuId, sn);
    case PonUp(intf) => if intf < |s.pons| { PonKeepsTidy(s.pons[intf], s.config.mode); }
    case PonLow(intf) => if intf < |s.pons| { PonKeepsTidy(s.pons[intf], s.config.mode); }
    case AtOnu(intf, sn, act) => if IsOnu(s, intf, sn) { ActStepTidyIff(s, intf, sn, act, crc); }
    case OltEvent(e) => OltStepKeepsTidy(s, e);
  }

  lemma NewOltTidy(pons: nat, onus: nat, ports: nat, config: Config)
    ensures TidyOlt(NewOlt(pons, onus, ports, config))
  {
  }

  /** No switched off ONU makes an entry. */
  predicate TimelyRun(states: seq<Olt>, run: seq<Action>, n: nat)
    requires |states| == |run| + 1 && n <= |run|
  {
    forall k | 0 <= k < n :: !AllocatesLate(states[k], run[k])
  }

  /** All the tables were tidy up to here exactly when no request was handled late. */
  lemma {:induction false} RunTidyIff(states: seq<Olt>, run: seq<Action>, crc: string -> nat, n: nat)
    requires Trace(states, run, crc) && TidyOlt(states[0]) && n <= |run|
    ensures (forall k | 0 <= k <= n :: TidyOlt(states[k])) <==> TimelyRun(states, run, n)
  {
    hide Step;
    hide TidyOlt;
    hide AllocatesLate;
    if n > 0 {
      RunTidyIff(states, run, crc, n - 1);
      TraceNext(states, run, crc, n - 1);
      if TidyOlt(states[n - 1]) {
        StepTidyIff(states[n - 1], run[n - 1], crc);
      }
    }
  }
}
