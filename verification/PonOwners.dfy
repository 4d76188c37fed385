/**
  Who owns a GEM port or a T-CONT of a PON: over every run it is the ONU that took it last, unless it
  was given back, the ONU dropped what it had, or the device was rebooted since.
 */
module PonOwners {
  import opened Basics
  import opened FlowTables
  import opened OnuFsm
  import opened OnuModel
  import opened DeviceModel
  import opened OnuLifecycle

  /** A GEM port, or an alloc id given to a T-CONT. */
  datatype Item = GemPort(gem: nat) | TCont(key: AllocKey, allocId: nat)

  predicate Owns(t: PonTables, item: Item, sn: nat) {
    match item
    case GemPort(g) => g in t.gemPorts && t.gemPorts[g] == sn
    case TCont(k, x) => k in t.allocIds && t.allocIds[k] == AllocVal(sn, x)
  }

  /** The request takes the item, which is free; GEM port 4069 belongs to no one. */
  predicate Takes(t: PonTables, pon: nat, onuId: nat, q: Request, item: Item) {
    match item
    case GemPort(g) => q.Create? && q.gem == Some(g) && g != 4069 && g !in t.gemPorts
    case TCont(k, x) =>
      q.SetTCont? && q.allocId == x && x != 255 && x != 65535 && k == AllocKey(pon, onuId, q.entity) && k !in t.allocIds
  }

  /** The request gives the item back, whoever owns it. */
  predicate GivesBack(pon: nat, onuId: nat, q: Request, item: Item) {
    match item
    case GemPort(g) => q.Delete? && q.gem == Some(g)
    case TCont(k, x) =>
      q.SetTCont? && (q.allocId == 255 || q.allocId == 65535) && k == AllocKey(pon, onuId, q.entity)
  }

  // ---------------------------------------------------------------------------
  // One ONU


  lemma AnswerOwns(c: Cell, pon: nat, sn: nat, q: Request, crc: string -> nat, item: Item, i: nat)
    requires !ImageRequest(q)
    ensures Owns(Answer(c, pon, sn, q, crc).cell.tables, item, i) <==>
              || (i == sn && Takes(c.tables, pon, c.onu.id, q, item))
              || (Owns(c.tables, item, i) && !GivesBack(pon, c.onu.id, q, item) && !(q.MibReset? && q.ok && i == sn))
  {
    hide AnswerEnd;
    hide AnswerSection;
    hide Accept;
    hide SetPortState;
  }

  /** A request of ONU sn, if it is not skipped. */
  lemma OmciOwns(c: Cell, pon: nat, sn: nat, q: Request, rate: nat, crc: string -> nat, item: Item, i: nat)
    ensures var handled := NextCounter(c.onu.omci.counter) <= rate;
            Owns(HandleOmci(c, pon, sn, q, rate, crc).cell.tables, item, i) <==>
              || (handled && i == sn && Takes(c.tables, pon, c.onu.id, q, item))
              || (Owns(c.tables, item, i) &&
                  !(handled && (GivesBack(pon, c.onu.id, q, item) || (q.MibReset? && q.ok && i == sn))))
  {
    hide Answer;
    var c1 := c.(onu := c.onu.(omci := c.onu.omci.(counter := NextCounter(c.onu.omci.counter))));
    if ImageRequest(q) {
      ImageAnswerKeeps(c1, pon, sn, q, crc);
    } else {
      AnswerOwns(c1, pon, sn, q, crc, item, i);
    }
  }

  /** The events that make an ONU drop what it owns. */
  predicate Drops(st: OnuState, e: OnuEvent) {
    (e.Disable? && CanSwitchOff(st)) || (e.PonDisable? && CanLosePon(st))
  }

  lemma FireOwns(c: Cell, sn: nat, e: OnuEvent, item: Item, i: nat)
    ensures Owns(Fire(c, sn, e).tables, item, i) <==> Owns(c.tables, item, i) && !(Drops(c.onu.state, e) && i == sn)
  {
    hide PortsDown;
  }

  lemma FireTwiceOwns(c: Cell, sn: nat, e: OnuEvent, e': OnuEvent, item: Item, i: nat)
    requires !e.Disable? && !e.PonDisable? && !e'.Disable? && !e'.PonDisable?
    ensures Owns(FireTwice(c, sn, e, e').tables, item, i) <==> Owns(c.tables, item, i)
  {
    hide Fire;
    FireOwns(c, sn, e, item, i);
    FireOwns(Fire(c, sn, e), sn, e', item, i);
  }

  lemma PowerOnOwns(c: Cell, sn: nat, item: Item, i: nat)
    ensures Owns(PowerOn(c, sn).tables, item, i) <==> Owns(c.tables, item, i)
  {
    hide Fire;
    hide FireTwice;
    hide Owns;
    FireOwns(c, sn, Initialize, item, i);
    var c1 := if c.onu.state.Created? || c.onu.state.Disabled? then Fire(c, sn, Initialize) else c;
    var c2 := c1.(onu := Send(c1.onu, Indication));
    FireTwiceOwns(c2, sn, Discover, Enable, item, i);
    FireOwns(c2, sn, Discover, item, i);
  }

  /** The request that the ONU handles next, if there is one and it is not skipped. */
  function NextRequest(o: Onu, rate: nat): Option<Request> {
    if Queue(o) != [] && Queue(o)[0].OmciRequest? && NextCounter(o.omci.counter) <= rate
    then Some(Queue(o)[0].request) else None
  }

  predicate SwitchOff(a: OnuAction) {
    a.FireDisable? || a.DeleteOnu? || a.DoShutdown?
  }

  lemma ActOwns(
      c: Cell, pon: nat, sn: nat, a: OnuAction, del: bool, rate: nat, crc: string -> nat, item: Item, i: nat)
    ensures var q := if a.DoProcess? then NextRequest(c.onu, rate) else None;
            Owns(ActOnu(c, pon, sn, a, del, rate, crc).tables, item, i) <==>
              || (q.Some? && i == sn && Takes(c.tables, pon, c.onu.id, q.value, item))
              || (Owns(c.tables, item, i)
                  && !(q.Some? && GivesBack(pon, c.onu.id, q.value, item))
                  && !(i == sn && q.Some? && q.value.MibReset? && q.value.ok)
                  && !(i == sn && SwitchOff(a) && CanSwitchOff(c.onu.state)))
  {
    hide Fire;
    hide FireTwice;
    hide HandleOmci;
    hide PowerOn;
    hide Owns;
    hide Takes;
    hide GivesBack;
    match a
    case DoProcess =>
      var q := Queue(c.onu);
      if q != [] && q[0].OmciRequest? {
        var c1 := c.(onu := c.onu.(channel := c.onu.channel.(queue := q[1..])));
        OmciOwns(c1, pon, sn, q[0].request, rate, crc, item, i);
      }
    case DoPowerOn => PowerOnOwns(c, sn, item, i);
    case DoRediscover => FireTwiceOwns(c, sn, Initialize, Discover, item, i);
    case DoShutdown =>
      FireOwns(c, sn, OnuEvent.Disable, item, i);
      FireOwns(c.(onu := Send(c.onu, Indication)), sn, OnuEvent.Disable, item, i);
    case _ => FireOwns(c, sn, OnuEvent.Disable, item, i);
  }

  // ---------------------------------------------------------------------------
  // A PON

  lemma RaiseOwns(c: Cell, sn: nat, mode: Mode, src: PonState, item: Item, i: nat)
    ensures Owns(RaiseOnu(c, sn, mode, src).tables, item, i) <==> Owns(c.tables, item, i)
  {
    hide Fire;
    hide FireTwice;
    hide Owns;
    FireOwns(c, sn, Initialize, item, i);
    FireOwns(c, sn, Discover, item, i);
    FireOwns(c, sn, OnuEvent.Enable, item, i);
    FireTwiceOwns(c, sn, Initialize, Discover, item, i);
  }

  lemma {:induction false} RaiseAllOwns(p: Pon, mode: Mode, src: PonState, n: nat, item: Item, i: nat)
    requires n <= |p.onus|
    ensures Owns(RaiseOnus(p, mode, src, n).tables, item, i) <==> Owns(p.tables, item, i)
  {
    hide RaiseOnu;
    hide Owns;
    if n > 0 {
      RaiseAllOwns(p, mode, src, n - 1, item, i);
      RaiseOwns(CellAt(RaiseOnus(p, mode, src, n - 1), n - 1), n - 1, mode, src, item, i);
    }
  }

  lemma {:induction false} LowerAllOwns(p: Pon, n: nat, item: Item, i: nat)
    requires n <= |p.onus|
    ensures Owns(LowerOnus(p, n).tables, item, i) <==>
              Owns(p.tables, item, i) && !(i < n && CanLosePon(p.onus[i].state))
  {
    hide Fire;
    hide Owns;
    if n > 0 {
      LowerAllOwns(p, n - 1, item, i);
      LowerAllStates(p, n - 1);
      FireOwns(CellAt(LowerOnus(p, n - 1), n - 1), n - 1, PonDisable, item, i);
    }
  }

  lemma CascadeOwns(p: Pon, mode: Mode, item: Item, i: nat)
    ensures Owns(EnablePon(p, mode).tables, item, i) <==> Owns(p.tables, item, i)
    ensures Owns(DisablePon(p).tables, item, i) <==>
              Owns(p.tables, item, i) && !(p.state.PonEnabled? && i < |p.onus| && CanLosePon(p.onus[i].state))
  {
    hide RaiseOnu;
    hide LowerOnu;
    hide Owns;
    RaiseAllOwns(p.(state := PonEnabled), mode, p.state, |p.onus|, item, i);
    LowerAllOwns(p.(state := PonDown), |p.onus|, item, i);
  }

  // ---------------------------------------------------------------------------
  // The device

  /** The ONU and the request that it handles in this step, on PON p. */
  ghost predicate HandlesAt(s: Olt, a: Action, p: nat, j: nat, q: Request) {
    a == AtOnu(p, j, DoProcess) && IsOnu(s, p, j) && NextRequest(OnuAt(s, p, j), s.config.rate) == Some(q)
  }

  /** In this step ONU i of PON p takes the item. */
  ghost predicate TakesAt(s: Olt, a: Action, p: nat, item: Item, i: nat) {
    exists q: Request :: HandlesAt(s, a, p, i, q) && Takes(s.pons[p].tables, p, OnuAt(s, p, i).id, q, item)
  }

  /** Some ONU of the PON gives the item back. */
  ghost predicate GivesBackAt(s: Olt, a: Action, p: nat, item: Item) {
    exists j: nat, q: Request :: HandlesAt(s, a, p, j, q) && GivesBack(p, OnuAt(s, p, j).id, q, item)
  }

  ghost predicate ResetsAt(s: Olt, a: Action, p: nat, i: nat) {
    exists q: Request :: HandlesAt(s, a, p, i, q) && q.MibReset? && q.ok
  }

  /** The ONU is switched off or loses its PON. */
  ghost predicate CleansUpAt(s: Olt, a: Action, p: nat, i: nat) {
    && IsOnu(s, p, i)
    && (|| (a.AtOnu? && a.intf == p && a.sn == i && SwitchOff(a.act) && CanSwitchOff(OnuAt(s, p, i).state))
        || (a == PonLow(p) && s.pons[p].state.PonEnabled? && CanLosePon(OnuAt(s, p, i).state)))
  }

  ghost predicate RebootsAt(s: Olt, a: Action) {
    a == OltEvent(TxDelete) && (s.state.OltEnabled? || s.state.OltDisabled?)
  }

  /** The step ends the ownership of ONU i, if it has it. */
  ghost predicate Ends(s: Olt, a: Action, p: nat, item: Item, i: nat) {
    GivesBackAt(s, a, p, item) || ResetsAt(s, a, p, i) || CleansUpAt(s, a, p, i) || RebootsAt(s, a)
  }

  ghost predicate OwnsAt(s: Olt, p: nat, item: Item, i: nat) {
    p < |s.pons| && Owns(s.pons[p].tables, item, i)
  }

  lemma OtherStep(s: Olt, a: Action, p: nat, item: Item, i: nat)
    requires !(a.AtOnu? && a.act.DoProcess? && a.intf == p && IsOnu(s, p, a.sn))
    ensures !TakesAt(s, a, p, item, i) && !GivesBackAt(s, a, p, item) && !ResetsAt(s, a, p, i)
  {
  }

  /** The three ways a message of ONU j may concern the item. */
  lemma ProcessStep(s: Olt, j: nat, p: nat, item: Item, i: nat)
    requires IsOnu(s, p, j)
    ensures var a, r := AtOnu(p, j, DoProcess), NextRequest(OnuAt(s, p, j), s.config.rate);
            && (TakesAt(s, a, p, item, i) <==>
                  r.Some? && i == j && Takes(s.pons[p].tables, p, OnuAt(s, p, j).id, r.value, item))
            && (GivesBackAt(s, a, p, item) <==> r.Some? && GivesBack(p, OnuAt(s, p, j).id, r.value, item))
            && (ResetsAt(s, a, p, i) <==> r.Some? && i == j && r.value.MibReset? && r.value.ok)
  {
    hide Takes;
    hide GivesBack;
    hide NextRequest;
    var a, r := AtOnu(p, j, DoProcess), NextRequest(OnuAt(s, p, j), s.config.rate);
    if r.Some? {
      assert HandlesAt(s, a, p, j, r.value);
    }
  }

  lemma ActStepOwns(s: Olt, j: nat, act: OnuAction, crc: string -> nat, p: nat, item: Item, i: nat)
    requires IsOnu(s, p, j)
    ensures var c, a := CellAt(s.pons[p], j), AtOnu(p, j, act);
            Owns(ActOnu(c, p, j, act, s.state.OltDeleted?, s.config.rate, crc).tables, item, i) <==>
              TakesAt(s, a, p, item, i) || (OwnsAt(s, p, item, i) && !Ends(s, a, p, item, i))
  {
    hide ActOnu;
    hide Owns;
    hide Takes;
    hide GivesBack;
    hide NextRequest;
    hide TakesAt;
    hide GivesBackAt;
    hide ResetsAt;
    ActOwns(CellAt(s.pons[p], j), p, j, act, s.state.OltDeleted?, s.config.rate, crc, item, i);
    if act.DoProcess? {
      ProcessStep(s, j, p, item, i);
    } else {
      OtherStep(s, AtOnu(p, j, act), p, item, i);
    }
  }

  lemma SameTables(s: Olt, s': Olt, p: nat, item: Item, i: nat)
    requires SameOnus(s, s')
    ensures OwnsAt(s', p, item, i) == OwnsAt(s, p, item, i)
  {
    if p < |s.pons| { assert Alike(s.pons[p], s'.pons[p]); }
  }

  lemma ActivateOwns(s: Olt, intf: nat, onuId: nat, sn: nat, p: nat, item: Item, i: nat)
    ensures OwnsAt(ActivateStep(s, intf, onuId, sn), p, item, i) == OwnsAt(s, p, item, i)
  {
    hide Fire;
    hide Owns;
    if IsOnu(s, intf, sn) {
      var c := CellAt(s.pons[intf], sn).(onu := OnuAt(s, intf, sn).(id := onuId));
      FireOwns(c, sn, OnuEvent.Enable, item, i);
    }
  }

  lemma OltStepOwns(s: Olt, e: OltTransition, p: nat, item: Item, i: nat)
    ensures OwnsAt(OltStep(s, e), p, item, i) <==> OwnsAt(s, p, item, i) && !RebootsAt(s, OltEvent(e))
  {
  }

  lemma PonStepOwns(s: Olt, intf: nat, p: nat, item: Item, i: nat)
    requires intf < |s.pons|
    ensures OwnsAt(SetPon(s, intf, EnablePon(s.pons[intf], s.config.mode)), p, item, i) == OwnsAt(s, p, item, i)
    ensures OwnsAt(SetPon(s, intf, DisablePon(s.pons[intf])), p, item, i) <==>
              OwnsAt(s, p, item, i) && !CleansUpAt(s, PonLow(intf), p, i)
  {
    hide EnablePon;
    hide DisablePon;
    hide Owns;
    CascadeOwns(s.pons[intf], s.config.mode, item, i);
  }

  lemma AtOnuOwns(s: Olt, intf: nat, sn: nat, act: OnuAction, crc: string -> nat, p: nat, item: Item, i: nat)
    requires IsOnu(s, intf, sn)
    ensures var a, c := AtOnu(intf, sn, act), CellAt(s.pons[intf], sn);
            var s' := SetCell(s, intf, sn, ActOnu(c, intf, sn, act, s.state.OltDeleted?, s.config.rate, crc));
            OwnsAt(s', p, item, i) <==> TakesAt(s, a, p, item, i) || (OwnsAt(s, p, item, i) && !Ends(s, a, p, item, i))
  {
    hide ActOnu;
    hide Owns;
    hide TakesAt;
    hide GivesBackAt;
    hide ResetsAt;
    if intf == p {
      ActStepOwns(s, sn, act, crc, p, item, i);
    } else {
      OtherStep(s, AtOnu(intf, sn, act), p, item, i);
    }
  }

  lemma StepOwns(s: Olt, a: Action, crc: string -> nat, p: nat, item: Item, i: nat)
    ensures OwnsAt(Step(s, a, crc), p, item, i) <==>
              TakesAt(s, a, p, item, i) || (OwnsAt(s, p, item, i) && !Ends(s, a, p, item, i))
  {
    hide OltStep;
    hide AddFlowStep;
    hide RemoveFlowStep;
    hide ActivateStep;
    hide ActOnu;
    hide EnablePon;
    hide DisablePon;
    hide SetCell;
    hide SetPon;
    hide OwnsAt;
    hide TakesAt;
    hide GivesBackAt;
    hide ResetsAt;
    if !(a.AtOnu? && IsOnu(s, a.intf, a.sn)) {
      OtherStep(s, a, p, item, i);
    }
    match a
    case FlowAdd(f) =>
      AddSameOnus(s, f);
      SameTables(s, AddFlowStep(s, f), p, item, i);
    case FlowRemove(f) =>
      RemoveSameOnus(s, f);
      SameTables(s, RemoveFlowStep(s, f), p, item, i);
    case Activate(intf, onuId, sn) => ActivateOwns(s, intf, onuId, sn, p, item, i);
    case PonUp(intf) => PonFaultOwns(s, intf, p, item, i);
    case PonLow(intf) => PonFaultOwns(s, intf, p, item, i);
    case AtOnu(intf, sn, act) => if IsOnu(s, intf, sn) { AtOnuOwns(s, intf, sn, act, crc, p, item, i); }
    case OltEvent(e) => OltStepOwns(s, e, p, item, i);
  }

  lemma PonFaultOwns(s: Olt, intf: nat, p: nat, item: Item, i: nat)
    ensures OwnsAt(s.(fault := true), p, item, i) == OwnsAt(s, p, item, i)
    ensures intf >= |s.pons| ==> !CleansUpAt(s, PonLow(intf), p, i)
    ensures intf < |s.pons| ==>
              && OwnsAt(SetPon(s, intf, EnablePon(s.pons[intf], s.config.mode)), p, item, i) == OwnsAt(s, p, item, i)
              && (OwnsAt(SetPon(s, intf, DisablePon(s.pons[intf])), p, item, i) <==>
                    OwnsAt(s, p, item, i) && !CleansUpAt(s, PonLow(intf), p, i))
  {
    hide EnablePon;
    hide DisablePon;
    hide Owns;
    if intf < |s.pons| { PonStepOwns(s, intf, p, item, i); }
  }

  // ---------------------------------------------------------------------------
  // Runs

  /** ONU i took the item in step m, and none of the steps up to n ended that. */
  ghost predicate TookAt(states: seq<Olt>, run: seq<Action>, m: nat, n: nat, p: nat, item: Item, i: nat)
    requires |states| == |run| + 1 && n <= |run|
  {
    m < n && TakesAt(states[m], run[m], p, item, i) && forall k | m < k < n :: !Ends(states[k], run[k], p, item, i)
  }

  ghost predicate Took(states: seq<Olt>, run: seq<Action>, n: nat, p: nat, item: Item, i: nat)
    requires |states| == |run| + 1 && n <= |run|
  {
    exists m: nat :: TookAt(states, run, m, n, p, item, i)
  }

  lemma TookNext(states: seq<Olt>, run: seq<Action>, n: nat, p: nat, item: Item, i: nat)
    requires |states| == |run| + 1 && 0 < n <= |run|
    ensures Took(states, run, n, p, item, i) <==>
              || TakesAt(states[n - 1], run[n - 1], p, item, i)
              || (Took(states, run, n - 1, p, item, i) && !Ends(states[n - 1], run[n - 1], p, item, i))
  {
    hide TakesAt;
    hide Ends;
    var l := n - 1;
    if m: nat :| TookAt(states, run, m, n, p, item, i) {
      if m < l { assert TookAt(states, run, m, l, p, item, i); }
    }
    if TakesAt(states[l], run[l], p, item, i) {
      assert TookAt(states, run, l, n, p, item, i);
    }
    if m: nat :| TookAt(states, run, m, l, p, item, i) {
      if !Ends(states[l], run[l], p, item, i) {
        assert TookAt(states, run, m, n, p, item, i);
      }
    }
  }

  /**
    In every state of every run of a created device a GEM port or a T-CONT belongs to an ONU exactly
    when the ONU took it with a request that found it free, and since then no request gave it
    back, the ONU was neither reset nor switched off nor lost its PON, and the device was not
    rebooted.
   */
  lemma {:induction false} OwnedIff(
      pons: nat, onus: nat, ports: nat, config: Config,
      states: seq<Olt>, run: seq<Action>, crc: string -> nat, n: nat, p: nat, item: Item, i: nat)
    requires Trace(states, run, crc) && states[0] == NewOlt(pons, onus, ports, config) && n <= |run|
    ensures OwnsAt(states[n], p, item, i) <==> Took(states, run, n, p, item, i)
  {
    hide Step;
    hide TakesAt;
    hide Ends;
    if n > 0 {
      OwnedIff(pons, onus, ports, config, states, run, crc, n - 1, p, item, i);
      TraceNext(states, run, crc, n - 1);
      StepOwns(states[n - 1], run[n - 1], crc, p, item, i);
      TookNext(states, run, n, p, item, i);
    }
  }

  /**
    A Delete that is not skipped frees the GEM port, whoever owns it, and leaves every other one as
    it was; a Create of it that follows, and is not skipped, is not refused.
   */
  lemma DeleteFrees(c: Cell, pon: nat, sn: nat, gem: nat, ok: bool, rate: nat, crc: string -> nat)
    requires NextCounter(c.onu.omci.counter) <= rate
    ensures var c' := HandleOmci(c, pon, sn, Request.Delete(Some(gem), ok), rate, crc).cell;
            && gem !in c'.tables.gemPorts
            && (forall g: nat | g != gem ::
                  (g in c'.tables.gemPorts <==> g in c.tables.gemPorts) &&
                  (g in c'.tables.gemPorts ==> c'.tables.gemPorts[g] == c.tables.gemPorts[g]))
            && c'.tables.allocIds == c.tables.allocIds && c'.tables.onuIds == c.tables.onuIds
            && forall ok': bool :: HandleOmci(c', pon, sn, Request.Create(Some(gem), ok'), rate, crc).reply != Refused
  {
    hide AnswerEnd;
  }
}
