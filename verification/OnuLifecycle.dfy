/**
  The life cycle of an ONU as tables: from which states each entry point of the device takes it
  where, and what it sends and clears on the way.
 */
module OnuLifecycle {
  import opened Basics
  import opened FlowTables
  import opened OnuFsm
  import opened OnuModel
  import opened OmciRuns
  import opened DeviceModel
  import opened ResourceRuns

  // ---------------------------------------------------------------------------
  // The tables

  predicate CanInitialize(st: OnuState) {
    st.Created? || st.Disabled? || st.PonDisabled?
  }

  predicate CanSwitchOff(st: OnuState) {
    st.Enabled? || st.PonDisabled? || st.ImageActivated? || st.DownloadError? || st.ImageCommitted?
  }

  predicate CanLosePon(st: OnuState) {
    st.Enabled? || st.ImageActivated? || st.DownloadError? || st.ImageCommitted? || st.DownloadComplete?
  }

  /** `first` is the first time that the PON is enabled; in the controlled modes it only initializes later. */
  function Raised(st: OnuState, mode: Mode, first: bool): OnuState {
    if first then
      if (mode.Default? || mode.OnlyPon?) && CanInitialize(st) then Discovered else st
    else if mode.OnlyOnu? || mode.Both? then
      if CanInitialize(st) then Initialized else st
    else if st.PonDisabled? then Enabled
    else if st.Disabled? || st.Initialized? then Discovered
    else st
  }

  /** What a request that is not skipped does to the state. */
  function Requested(st: OnuState, m: Omci, q: Request, crc: string -> nat): OnuState {
    match q
    case StartDownload(_, true) =>
      if st.Enabled? || st.DownloadComplete? || st.DownloadError? || st.ImageCommitted? then DownloadStarted else st
    case Section(Some(data)) =>
      if st.DownloadStarted? && (m.received > 0 || |data| >= 14) then DownloadInProgress else st
    case EndDownload(end, true) =>
      if !st.DownloadInProgress? then st
      else if EndsWell(m, end, crc) then DownloadComplete
      else if EndsBadly(m, end, crc) then DownloadError
      else st
    case ActivateSoftware(_, true) => if st.DownloadComplete? then ImageActivated else st
    case CommitSoftware(_, true) => if st.Enabled? then ImageCommitted else st
    case _ => st
  }

  /** What an entry point of the ONU does to its state. */
  function Acted(o: Onu, a: OnuAction, rebooting: bool, rate: nat, crc: string -> nat): OnuState {
    var st := o.state;
    match a
    case FireDisable => if CanSwitchOff(st) then Disabled else st
    case DeleteOnu => if CanSwitchOff(st) then Disabled else st
    case DoShutdown => if CanSwitchOff(st) then Disabled else st
    case DoRediscover => if !rebooting && (CanInitialize(st) || st.Initialized?) then Discovered else st
    case DoPowerOn =>
      if rebooting then st
      else if st.Created? || st.Initialized? then Discovered
      else if st.Disabled? then Enabled
      else st
    case DoProcess =>
      if Queue(o) != [] && Queue(o)[0].OmciRequest? && NextCounter(o.omci.counter) <= rate
      then Requested(st, o.omci, Queue(o)[0].request, crc) else st
    case _ => st
  }

  /** What a call on the device does to the state of ONU i of PON p. */
  function Stepped(s: Olt, a: Action, crc: string -> nat, p: nat, i: nat): OnuState
    requires IsOnu(s, p, i)
  {
    var st := OnuAt(s, p, i).state;
    match a
    case Activate(intf, onuId, sn) =>
      if intf == p && sn == i && !s.state.OltDeleted? && (st.Discovered? || st.PonDisabled?) then Enabled else st
    case PonUp(intf) =>
      if intf == p && !s.pons[p].state.PonEnabled? then Raised(st, s.config.mode, s.pons[p].state.PonCreated?) else st
    case PonLow(intf) => if intf == p && s.pons[p].state.PonEnabled? && CanLosePon(st) then PonDisabled else st
    case AtOnu(intf, sn, act) =>
      if intf == p && sn == i then Acted(OnuAt(s, p, i), act, s.state.OltDeleted?, s.config.rate, crc) else st
    case _ => st
  }

  // ---------------------------------------------------------------------------
  // The events

  function Ups(ports: seq<bool>): nat {
    if ports == [] then 0 else Ups(ports[..|ports| - 1]) + (if ports[|ports| - 1] then 1 else 0)
  }

  function Indications(n: nat): seq<Message> {
    seq(n, _ => Indication)
  }

  /** The messages are at the end of an open channel; a missing one takes none, a closed one fails. */
  ghost predicate SentOn(o: Onu, o': Onu, n: nat) {
    && (o.channel.NoChannel? ==> o'.channel.NoChannel? && o'.channelFault == o.channelFault)
    && (o.channel.Channel? && !o.channel.closed ==>
          o'.channel.Channel? && o'.channel.queue == o.channel.queue + Indications(n) &&
          o'.channelFault == o.channelFault)
    && (o.channel.Channel? && o.channel.closed ==> o'.channel == o.channel && o'.channelFault)
  }

  /** Everything but what the life cycle changes. */
  ghost predicate OnlyLife(o: Onu, o': Onu) {
    o' == o.(state := o'.state, channel := o'.channel, channelFault := o'.channelFault, portFault := o'.portFault,
             ports := o'.ports, flows := o'.flows)
  }

  /** The ONU has no entry in any table of the PON any longer, and the others have theirs. */
  ghost predicate Cleared(t: PonTables, t': PonTables, id: nat, sn: nat) {
    && (forall k: nat :: k in t'.onuIds <==> k in t.onuIds && k != id)
    && (forall k: nat :: k in t'.onuIds ==> t'.onuIds[k] == t.onuIds[k])
    && (forall g: nat :: g in t'.gemPorts <==> g in t.gemPorts && t.gemPorts[g] != sn)
    && (forall g: nat :: g in t'.gemPorts ==> t'.gemPorts[g] == t.gemPorts[g])
    && (forall k: AllocKey :: k in t'.allocIds <==> k in t.allocIds && t.allocIds[k].sn != sn)
    && (forall k: AllocKey :: k in t'.allocIds ==> t'.allocIds[k] == t.allocIds[k])
  }

  lemma InitializeOutcome(c: Cell, sn: nat)
    ensures var c' := Fire(c, sn, Initialize);
            if CanInitialize(c.onu.state) then
              c' == c.(onu := c.onu.(state := Initialized, channel := Channel([], false)))
            else c' == c
  {
  }

  lemma DiscoverOutcome(c: Cell, sn: nat)
    ensures var c' := Fire(c, sn, Discover);
            if c.onu.state.Initialized? then
              && c'.onu.state.Discovered? && SentOn(c.onu, c'.onu, 1) && c'.tables == c.tables
              && OnlyLife(c.onu, c'.onu) && c'.onu.ports == c.onu.ports && c'.onu.flows == c.onu.flows
              && c'.onu.portFault == c.onu.portFault
            else c' == c
  {
    assert Indications(1) == [Indication];
  }

  /** An ONU whose id is already in the table is not announced again. */
  lemma EnableOutcome(c: Cell, sn: nat)
    ensures var c' := Fire(c, sn, OnuEvent.Enable);
            if c.onu.state.Discovered? || c.onu.state.PonDisabled? then
              if c.onu.id in c.tables.onuIds then c' == c.(onu := c.onu.(state := Enabled))
              else
                && c'.onu.state.Enabled? && SentOn(c.onu, c'.onu, 1)
                && c'.tables == c.tables.(onuIds := c.tables.onuIds[c.onu.id := sn])
                && OnlyLife(c.onu, c'.onu) && c'.onu.ports == c.onu.ports && c'.onu.flows == c.onu.flows
                && c'.onu.portFault == c.onu.portFault
            else c' == c
  {
    assert Indications(1) == [Indication];
  }

  lemma CleanupClears(c: Cell, sn: nat)
    ensures Cleared(c.tables, Cleanup(c, sn).tables, c.onu.id, sn)
  {
  }

  lemma PonDisableOutcome(c: Cell, sn: nat)
    ensures var c' := Fire(c, sn, PonDisable);
            if CanLosePon(c.onu.state) then
              c'.onu == c.onu.(state := PonDisabled, flows := []) && Cleared(c.tables, c'.tables, c.onu.id, sn)
            else c' == c
  {
    hide Cleared;
    hide Cleanup;
    var d := c.(onu := c.onu.(state := PonDisabled));
    CleanupClears(d, sn);
    CleanupOnu(d, sn);
  }

  lemma CleanupOnu(c: Cell, sn: nat)
    ensures Cleanup(c, sn).onu == c.onu.(flows := [])
  {
  }

  lemma {:induction false} DownOnOpen(o: Onu, n: nat)
    requires n <= |o.ports| && o.channel.Channel? && !o.channel.closed
    ensures var o' := PortsDown(o, n);
            && o' == o.(ports := o'.ports, channel := o'.channel)
            && o'.channel == Channel(o.channel.queue + Indications(Ups(o.ports[..n])), false)
            && forall u | 0 <= u < |o.ports| :: o'.ports[u] == (u >= n && o.ports[u])
  {
    if n == 0 {
      assert o.channel.queue + Indications(0) == o.channel.queue;
    } else {
      DownOnOpen(o, n - 1);
      assert o.ports[..n][..n - 1] == o.ports[..n - 1];
      var k := Ups(o.ports[..n - 1]);
      assert Indications(k) + [Indication] == Indications(k + 1);
      assert (o.channel.queue + Indications(k)) + [Indication] == o.channel.queue + Indications(k + 1);
    }
  }

  /**
    Switching an ONU off: it announces that, every port that was up goes down and reports it,
    and an open channel is closed exactly when no flow is left to be removed.
   */
  lemma DisableOutcome(c: Cell, sn: nat)
    requires c.onu.channel.Channel? && !c.onu.channel.closed
    ensures var c' := Fire(c, sn, OnuEvent.Disable);
            if CanSwitchOff(c.onu.state) then
              && c'.onu.state.Disabled? && c'.onu.flows == [] && OnlyLife(c.onu, c'.onu)
              && |c'.onu.ports| == |c.onu.ports| && (forall u | 0 <= u < |c.onu.ports| :: !c'.onu.ports[u])
              && c'.onu.channel ==
                   Channel(c.onu.channel.queue + Indications(1 + Ups(c.onu.ports)), c.onu.flowIds == [])
              && c'.onu.channelFault == c.onu.channelFault && c'.onu.portFault == c.onu.portFault
              && Cleared(c.tables, c'.tables, c.onu.id, sn)
            else c' == c
  {
    hide Cleared;
    hide Cleanup;
    hide PortsDown;
    hide Ups;
    if CanSwitchOff(c.onu.state) {
      var d := c.(onu := c.onu.(state := OnuState.Disabled));
      CleanupClears(d, sn);
      CleanupOnu(d, sn);
      var o := Send(d.onu.(flows := []), Indication);
      DownOnOpen(o, |o.ports|);
      assert o.ports[..|o.ports|] == o.ports;
      IndicationsJoin(c.onu.channel.queue, Ups(c.onu.ports));
    }
  }

  lemma IndicationsJoin(q: seq<Message>, n: nat)
    ensures q + [Indication] + Indications(n) == q + Indications(1 + n)
  {
  }

  // ---------------------------------------------------------------------------
  // The channel

  /** The channel is made anew or kept, and then this many announcements are sent on it. */
  datatype Traffic = Traffic(renewed: bool, sent: nat)

  ghost predicate Carries(o: Onu, o': Onu, t: Traffic) {
    t.renewed || (o.channel.Channel? && !o.channel.closed) ==>
      o'.channel == Channel((if t.renewed then [] else o.channel.queue) + Indications(t.sent), false)
  }

  /** `known` says that the id of the ONU is in the table of the PON. */
  function PowerOnTraffic(st: OnuState, known: bool): Traffic {
    if st.Created? then Traffic(true, 2)
    else if st.Disabled? then Traffic(true, if known then 2 else 3)
    else if st.Initialized? then Traffic(false, 2)
    else Traffic(false, 1)
  }

  function RediscoverTraffic(st: OnuState): Traffic {
    if CanInitialize(st) then Traffic(true, 1)
    else if st.Discovered? || st.Initialized? then Traffic(false, 1)
    else Traffic(false, 0)
  }

  function RaiseTraffic(st: OnuState, mode: Mode, first: bool, known: bool): Traffic {
    if first then
      if (mode.Default? || mode.OnlyPon?) && CanInitialize(st) then Traffic(true, 1) else Traffic(false, 0)
    else if mode.OnlyOnu? || mode.Both? then Traffic(CanInitialize(st), 0)
    else if st.PonDisabled? then Traffic(false, if known then 0 else 1)
    else if st.Disabled? then Traffic(true, 1)
    else Traffic(false, if st.Initialized? then 1 else 0)
  }

  lemma FireCarries(c: Cell, sn: nat, e: OnuEvent)
    requires e.Initialize? || e.Discover? || e.Enable?
    ensures var c' := Fire(c, sn, e);
            && Carries(c.onu, c'.onu,
                       if e.Initialize? then Traffic(CanInitialize(c.onu.state), 0)
                       else if e.Discover? then Traffic(false, if c.onu.state.Initialized? then 1 else 0)
                       else Traffic(false, if (c.onu.state.Discovered? || c.onu.state.PonDisabled?) &&
                                              c.onu.id !in c.tables.onuIds then 1 else 0))
            && c'.onu.id == c.onu.id && (!e.Enable? ==> c'.tables == c.tables)
  {
    assert Indications(1) == [Indication] && Indications(0) == [];
    if c.onu.channel.Channel? {
      assert c.onu.channel.queue + [] == c.onu.channel.queue;
    }
  }

  /** One run of announcements after another. */
  lemma CarriesOn(o: Onu, o1: Onu, o2: Onu, t: Traffic, n: nat)
    requires Carries(o, o1, t) && Carries(o1, o2, Traffic(false, n))
    ensures Carries(o, o2, Traffic(t.renewed, t.sent + n))
  {
    assert Indications(t.sent) + Indications(n) == Indications(t.sent + n);
    if t.renewed || (o.channel.Channel? && !o.channel.closed) {
      var q := if t.renewed then [] else o.channel.queue;
      assert (q + Indications(t.sent)) + Indications(n) == q + Indications(t.sent + n);
    }
  }

  lemma SendCarries(o: Onu)
    ensures Carries(o, Send(o, Indication), Traffic(false, 1))
  {
    assert Indications(1) == [Indication];
  }

  lemma SameCarries(o: Onu)
    ensures Carries(o, o, Traffic(false, 0))
  {
    if o.channel.Channel? { assert o.channel.queue + Indications(0) == o.channel.queue; }
  }

  lemma RediscoverCarries(c: Cell, sn: nat)
    ensures Carries(c.onu, Rediscover(c, sn).onu, RediscoverTraffic(c.onu.state))
  {
    hide Carries;
    hide Fire;
    hide Send;
    if c.onu.state.Discovered? {
      SendCarries(c.onu);
    } else {
      var c1 := Fire(c, sn, Initialize);
      FireCarries(c, sn, Initialize);
      FireState(c, sn, Initialize);
      FireCarries(c1, sn, Discover);
      CarriesOn(c.onu, c1.onu, Fire(c1, sn, Discover).onu, Traffic(CanInitialize(c.onu.state), 0),
                if c1.onu.state.Initialized? then 1 else 0);
    }
  }

  lemma PowerOnCarries(c: Cell, sn: nat)
    ensures Carries(c.onu, PowerOn(c, sn).onu, PowerOnTraffic(c.onu.state, c.onu.id in c.tables.onuIds))
  {
    hide Carries;
    hide Fire;
    hide Send;
    var was := c.onu.state;
    var t1 := Traffic(was.Created? || was.Disabled?, 0);
    var c1 := if t1.renewed then Fire(c, sn, Initialize) else c;
    FireCarries(c, sn, Initialize);
    FireState(c, sn, Initialize);
    SameCarries(c.onu);
    assert Carries(c.onu, c1.onu, t1);
    var c2 := c1.(onu := Send(c1.onu, Indication));
    SendCarries(c1.onu);
    SendKeeps(c1.onu);
    CarriesOn(c.onu, c1.onu, c2.onu, t1, 1);
    var c3 := Fire(c2, sn, Discover);
    FireCarries(c2, sn, Discover);
    FireState(c2, sn, Discover);
    CarriesOn(c.onu, c2.onu, c3.onu, Traffic(t1.renewed, 1), if c2.onu.state.Initialized? then 1 else 0);
    if was.Disabled? {
      FireCarries(c3, sn, OnuEvent.Enable);
      CarriesOn(c.onu, c3.onu, Fire(c3, sn, OnuEvent.Enable).onu, Traffic(true, 2),
                if c3.onu.id !in c3.tables.onuIds then 1 else 0);
    }
  }

  lemma SendKeeps(o: Onu)
    ensures Send(o, Indication).state == o.state && Send(o, Indication).id == o.id
  {
  }

  /** Enabling a PON announces each of its ONUs that it discovers or enables, once. */
  lemma RaiseCarries(c: Cell, sn: nat, mode: Mode, src: PonState)
    requires !src.PonEnabled?
    ensures Carries(c.onu, RaiseOnu(c, sn, mode, src).onu,
                    RaiseTraffic(c.onu.state, mode, src.PonCreated?, c.onu.id in c.tables.onuIds))
  {
    hide Carries;
    hide Fire;
    SameCarries(c.onu);
    var c1 := Fire(c, sn, Initialize);
    FireCarries(c, sn, Initialize);
    FireState(c, sn, Initialize);
    FireCarries(c1, sn, Discover);
    CarriesOn(c.onu, c1.onu, Fire(c1, sn, Discover).onu, Traffic(CanInitialize(c.onu.state), 0),
              if c1.onu.state.Initialized? then 1 else 0);
    FireCarries(c, sn, Discover);
    FireCarries(c, sn, OnuEvent.Enable);
  }

  /** What the other entry points of an ONU put on its channel. */
  lemma MessagesOutcome(c: Cell, pon: nat, sn: nat, q: Request, del: bool, rate: nat, crc: string -> nat)
    requires c.onu.channel.Channel? && !c.onu.channel.closed
    ensures ActOnu(c, pon, sn, OmciMsgOut(q), del, rate, crc) ==
              if c.onu.state.Disabled? then c
              else c.(onu := c.onu.(channel := Channel(c.onu.channel.queue + [OmciRequest(q)], false)))
    ensures ActOnu(c, pon, sn, PacketOut, del, rate, crc) ==
              if c.onu.state.Enabled? then
                c.(onu := c.onu.(channel := Channel(c.onu.channel.queue + [Indication], false)))
              else c
    ensures var c' := c.(onu := c.onu.(channel := Channel(c.onu.channel.queue + [Indication], false)));
            ActOnu(c, pon, sn, DoShutdown, del, rate, crc) ==
              ActOnu(if c.onu.state.Disabled? then c else c', pon, sn, FireDisable, del, rate, crc)
  {
    hide Fire;
  }

  /** Messages are handled in the order they were sent; a flow is kept until it is removed. */
  lemma ProcessOutcome(c: Cell, pon: nat, sn: nat, rate: nat, crc: string -> nat)
    ensures var q, o := Queue(c.onu), Process(c, pon, sn, rate, crc).onu;
            && (q == [] ==> Process(c, pon, sn, rate, crc) == c)
            && (q != [] && !q[0].OmciRequest? ==>
                  && Process(c, pon, sn, rate, crc).tables == c.tables && Queue(o) == q[1..]
                  && o == c.onu.(channel := o.channel, flowIds := o.flowIds, channelFault := o.channelFault))
            && (q != [] && q[0].Indication? ==> o.flowIds == c.onu.flowIds && Closed(o) == Closed(c.onu))
            && (q != [] && q[0].AddFlow? ==>
                  o.flowIds == c.onu.flowIds + [q[0].flow.flowId] && Closed(o) == Closed(c.onu))
            && (q != [] && q[0].RemoveFlow? ==>
                  && o.flowIds == RemoveFirst(c.onu.flowIds, q[0].flowId)
                  && (Closed(o) <==> Closed(c.onu) || (o.flowIds == [] && c.onu.state.Disabled?)))
  {
  }

  // ---------------------------------------------------------------------------
  // The states

  lemma FireState(c: Cell, sn: nat, e: OnuEvent)
    ensures Fire(c, sn, e).onu.state == Next(c.onu.state, e)
  {
    hide PortsDown;
    hide DropSn;
    if e.Disable? && Allowed(c.onu.state, e) {
      var o := Send(c.onu.(state := OnuState.Disabled, flows := []), Indication);
      DownState(o, |o.ports|);
    }
  }

  lemma DownState(o: Onu, n: nat)
    requires n <= |o.ports|
    ensures PortsDown(o, n).state == o.state
  {
  }

  lemma PowerOnState(c: Cell, sn: nat)
    ensures PowerOn(c, sn).onu.state == Acted(c.onu, DoPowerOn, false, 0, _ => 0)
  {
    hide Fire;
    var was := c.onu.state;
    FireState(c, sn, Initialize);
    var c1 := if was.Created? || was.Disabled? then Fire(c, sn, Initialize) else c;
    var c2 := c1.(onu := Send(c1.onu, Indication));
    FireState(c2, sn, Discover);
    FireState(Fire(c2, sn, Discover), sn, OnuEvent.Enable);
  }

  lemma RediscoverState(c: Cell, sn: nat)
    ensures Rediscover(c, sn).onu.state == Acted(c.onu, DoRediscover, false, 0, _ => 0)
  {
    hide Fire;
    FireState(c, sn, Initialize);
    FireState(Fire(c, sn, Initialize), sn, Discover);
  }

  lemma EndState(c: Cell, end: Option<ImageEnd>, ok: bool, crc: string -> nat)
    ensures AnswerEnd(c, end, ok, crc).cell.onu.state == Requested(c.onu.state, c.onu.omci, EndDownload(end, ok), crc)
  {
    hide JudgeEnd;
    hide Stops;
    hide Complete;
    hide EndsBadly;
    if end.Some? {
      VerdictIs(c.onu.omci, end.value, crc);
    } else {
      UnreadEnd(c.onu.omci, crc);
    }
  }

  lemma UnreadEnd(m: Omci, crc: string -> nat)
    ensures !EndsWell(m, None, crc) && EndsBadly(m, None, crc)
  {
  }

  lemma AcceptState(c: Cell, data: string)
    ensures Accept(c, data).onu.state ==
              if c.onu.state.DownloadStarted? && (c.onu.omci.received > 0 || |data| >= 14) then DownloadInProgress
              else c.onu.state
  {
  }

  lemma SectionState(c: Cell, data: Option<string>, ok: bool)
    ensures AnswerSection(c, data, ok).cell.onu.state == c.onu.state
  {
  }

  lemma SwapState(c: Cell, instance: Option<nat>)
    ensures Swap(c, instance).onu.state == c.onu.state && Keep(c, instance).onu.state == c.onu.state
  {
  }

  lemma ImageAnswerState(c: Cell, pon: nat, sn: nat, q: Request, crc: string -> nat)
    requires ImageRequest(q)
    ensures Answer(c, pon, sn, q, crc).cell.onu.state == Requested(c.onu.state, c.onu.omci, q, crc)
  {
    hide AnswerEnd;
    hide AnswerTCont;
    hide AnswerCreate;
    hide SetPortState;
    hide Accept;
    hide AnswerSection;
    hide Swap;
    hide Keep;
    hide EndsWell;
    hide EndsBadly;
    hide DropSn;
    match q
    case EndDownload(end, ok) => EndState(c, end, ok, crc);
    case Section(Some(data)) => AcceptState(c, data);
    case SectionWithResponse(data, ok) => SectionState(c, data, ok);
    case ActivateSoftware(instance, ok) => SwapState(Move(c, ActivateImage), instance);
    case CommitSoftware(instance, ok) => SwapState(c, instance);
    case _ =>
  }

  lemma ConfigAnswerState(c: Cell, pon: nat, sn: nat, q: Request, crc: string -> nat)
    requires !ImageRequest(q)
    ensures Answer(c, pon, sn, q, crc).cell.onu.state == c.onu.state
  {
    hide AnswerEnd;
    hide AnswerSection;
    hide Accept;
    hide DropSn;
  }

  lemma AnswerState(c: Cell, pon: nat, sn: nat, q: Request, crc: string -> nat)
    ensures Answer(c, pon, sn, q, crc).cell.onu.state == Requested(c.onu.state, c.onu.omci, q, crc)
  {
    hide Answer;
    if ImageRequest(q) {
      ImageAnswerState(c, pon, sn, q, crc);
    } else {
      ConfigAnswerState(c, pon, sn, q, crc);
    }
  }

  lemma OmciState(c: Cell, pon: nat, sn: nat, q: Request, rate: nat, crc: string -> nat)
    ensures HandleOmci(c, pon, sn, q, rate, crc).cell.onu.state ==
              if NextCounter(c.onu.omci.counter) <= rate then Requested(c.onu.state, c.onu.omci, q, crc)
              else c.onu.state
  {
    hide Answer;
    var c1 := c.(onu := c.onu.(omci := c.onu.omci.(counter := NextCounter(c.onu.omci.counter))));
    AnswerState(c1, pon, sn, q, crc);
    RequestedSame(c.onu.state, c.onu.omci, c1.onu.omci, q, crc);
  }

  lemma RequestedSame(st: OnuState, m: Omci, m': Omci, q: Request, crc: string -> nat)
    requires m' == m.(counter := m'.counter)
    ensures Requested(st, m', q, crc) == Requested(st, m, q, crc)
  {
  }

  lemma ActState(c: Cell, pon: nat, sn: nat, a: OnuAction, del: bool, rate: nat, crc: string -> nat)
    ensures ActOnu(c, pon, sn, a, del, rate, crc).onu.state == Acted(c.onu, a, del, rate, crc)
  {
    hide Fire;
    hide HandleOmci;
    hide PowerOn;
    hide Rediscover;
    hide Requested;
    match a
    case DoProcess =>
      var q := Queue(c.onu);
      if q != [] && q[0].OmciRequest? {
        OmciState(c.(onu := c.onu.(channel := c.onu.channel.(queue := q[1..]))), pon, sn, q[0].request, rate, crc);
      }
    case DoPowerOn => PowerOnState(c, sn);
    case DoRediscover => RediscoverState(c, sn);
    case DoShutdown =>
      FireState(c, sn, OnuEvent.Disable);
      FireState(c.(onu := Send(c.onu, Indication)), sn, OnuEvent.Disable);
    case _ => FireState(c, sn, OnuEvent.Disable);
  }

  lemma RaiseState(c: Cell, sn: nat, mode: Mode, src: PonState)
    requires !src.PonEnabled?
    ensures RaiseOnu(c, sn, mode, src).onu.state == Raised(c.onu.state, mode, src.PonCreated?)
  {
    hide Fire;
    FireState(c, sn, Initialize);
    FireState(c, sn, Discover);
    FireState(c, sn, OnuEvent.Enable);
    FireState(Fire(c, sn, Initialize), sn, Discover);
  }

  lemma {:induction false} RaiseAllStates(p: Pon, mode: Mode, src: PonState, n: nat)
    requires n <= |p.onus| && !src.PonEnabled?
    ensures var p' := RaiseOnus(p, mode, src, n);
            forall i | 0 <= i < |p.onus| ::
              p'.onus[i].state == if i < n then Raised(p.onus[i].state, mode, src.PonCreated?) else p.onus[i].state
  {
    hide RaiseOnu;
    if n > 0 {
      RaiseAllStates(p, mode, src, n - 1);
      RaiseState(CellAt(RaiseOnus(p, mode, src, n - 1), n - 1), n - 1, mode, src);
    }
  }

  lemma {:induction false} LowerAllStates(p: Pon, n: nat)
    requires n <= |p.onus|
    ensures var p' := LowerOnus(p, n);
            forall i | 0 <= i < |p.onus| ::
              p'.onus[i].state == if i < n && CanLosePon(p.onus[i].state) then PonDisabled else p.onus[i].state
  {
    hide Fire;
    if n > 0 {
      LowerAllStates(p, n - 1);
      FireState(CellAt(LowerOnus(p, n - 1), n - 1), n - 1, PonDisable);
    }
  }

  lemma PonStates(s: Olt, p: nat, i: nat)
    requires IsOnu(s, p, i)
    ensures EnablePon(s.pons[p], s.config.mode).onus[i].state ==
              if s.pons[p].state.PonEnabled? then OnuAt(s, p, i).state
              else Raised(OnuAt(s, p, i).state, s.config.mode, s.pons[p].state.PonCreated?)
    ensures DisablePon(s.pons[p]).onus[i].state ==
              if s.pons[p].state.PonEnabled? && CanLosePon(OnuAt(s, p, i).state) then PonDisabled
              else OnuAt(s, p, i).state
  {
    hide RaiseOnu;
    hide LowerOnu;
    var pon := s.pons[p];
    if !pon.state.PonEnabled? {
      RaiseAllStates(pon.(state := PonEnabled), s.config.mode, pon.state, |pon.onus|);
    }
    LowerAllStates(pon.(state := PonDown), |pon.onus|);
  }

  lemma ActivateState(s: Olt, intf: nat, onuId: nat, sn: nat, crc: string -> nat, p: nat, i: nat)
    requires GoodTables(s) && IsOnu(s, p, i)
    ensures var s' := ActivateStep(s, intf, onuId, sn);
            && IsOnu(s', p, i) && OnuAt(s', p, i).state == Stepped(s, Activate(intf, onuId, sn), crc, p, i)
            && OnuAt(s', p, i).id ==
                 if intf == p && sn == i && !s.state.OltDeleted? then onuId else OnuAt(s, p, i).id
  {
    hide Fire;
    if IsOnu(s, intf, sn) {
      var c := CellAt(s.pons[intf], sn).(onu := OnuAt(s, intf, sn).(id := onuId));
      FireState(c, sn, OnuEvent.Enable);
      FireId(c, sn, OnuEvent.Enable);
    }
  }

  lemma FireId(c: Cell, sn: nat, e: OnuEvent)
    ensures Fire(c, sn, e).onu.id == c.onu.id
  {
    hide PortsDown;
    hide DropSn;
    var o := Send(c.onu.(state := OnuState.Disabled, flows := []), Indication);
    DownId(o, |o.ports|);
  }

  lemma DownId(o: Onu, n: nat)
    requires n <= |o.ports|
    ensures PortsDown(o, n).id == o.id
  {
  }

  lemma OltStepStates(s: Olt, e: OltTransition, p: nat, i: nat)
    requires IsOnu(s, p, i)
    ensures IsOnu(OltStep(s, e), p, i) && OnuAt(OltStep(s, e), p, i) == OnuAt(s, p, i)
  {
  }

  lemma ActStepState(s: Olt, intf: nat, sn: nat, a: OnuAction, crc: string -> nat, p: nat, i: nat)
    requires IsOnu(s, intf, sn) && IsOnu(s, p, i)
    ensures var c := CellAt(s.pons[intf], sn);
            var s' := SetCell(s, intf, sn, ActOnu(c, intf, sn, a, s.state.OltDeleted?, s.config.rate, crc));
            IsOnu(s', p, i) && OnuAt(s', p, i).state == Stepped(s, AtOnu(intf, sn, a), crc, p, i)
  {
    hide ActOnu;
    hide Acted;
    ActState(CellAt(s.pons[intf], sn), intf, sn, a, s.state.OltDeleted?, s.config.rate, crc);
  }

  /** Every call on a device in a reachable state moves every ONU as the tables say. */
  lemma StepStates(s: Olt, a: Action, crc: string -> nat, p: nat, i: nat)
    requires GoodTables(s) && IsOnu(s, p, i)
    ensures IsOnu(Step(s, a, crc), p, i) && OnuAt(Step(s, a, crc), p, i).state == Stepped(s, a, crc, p, i)
  {
    hide GoodTables;
    hide OltStep;
    hide AddFlowStep;
    hide RemoveFlowStep;
    hide ActivateStep;
    hide ActOnu;
    hide Acted;
    hide EnablePon;
    hide DisablePon;
    hide SetCell;
    hide Raised;
    match a
    case FlowAdd(f) => AddSameOnus(s, f);
    case FlowRemove(f) => RemoveSameOnus(s, f);
    case Activate(intf, onuId, sn) => ActivateState(s, intf, onuId, sn, crc, p, i);
    case PonUp(intf) => if intf < |s.pons| { PonStates(s, p, i); }
    case PonLow(intf) => if intf < |s.pons| { PonStates(s, p, i); }
    case AtOnu(intf, sn, act) => if IsOnu(s, intf, sn) { ActStepState(s, intf, sn, act, crc, p, i); }
    case OltEvent(e) => OltStepStates(s, e, p, i);
  }

  // ---------------------------------------------------------------------------
  // The states of the PON ports and of the OLT

  function PonStepped(s: Olt, a: Action, p: nat): PonState
    requires p < |s.pons|
  {
    if a == PonUp(p) then PonEnabled
    else if a == PonLow(p) && s.pons[p].state.PonEnabled? then PonDown
    else s.pons[p].state
  }

  function OltStepped(st: OltState, a: Action): OltState {
    if !a.OltEvent? then st
    else
      match a.event
      case TxInitialize => if st.OltCreated? || st.OltDeleted? then OltInitialized else st
      case TxEnable => if st.OltInitialized? || st.OltDisabled? then OltEnabled else st
      case TxDisable => if st.OltEnabled? then OltDisabled else st
      case TxDelete => if st.OltEnabled? || st.OltDisabled? then OltDeleted else st
  }

  lemma CascadePonStates(p: Pon, mode: Mode)
    ensures EnablePon(p, mode).state.PonEnabled?
    ensures DisablePon(p).state == if p.state.PonEnabled? then PonDown else p.state
  {
  }

  lemma ActivatePonStates(s: Olt, intf: nat, onuId: nat, sn: nat, p: nat)
    requires p < |s.pons|
    ensures var s' := ActivateStep(s, intf, onuId, sn);
            |s'.pons| == |s.pons| && s'.pons[p].state == s.pons[p].state && s'.state == s.state
  {
    hide Fire;
    hide Register;
  }

  lemma OltStepPonStates(s: Olt, e: OltTransition, p: nat)
    requires p < |s.pons|
    ensures var s' := OltStep(s, e);
            |s'.pons| == |s.pons| && s'.pons[p].state == s.pons[p].state && s'.state == OltStepped(s.state, OltEvent(e))
  {
  }

  /** Every call moves every PON port and the OLT as these tables say. */
  lemma StepPonStates(s: Olt, a: Action, crc: string -> nat, p: nat)
    requires p < |s.pons|
    ensures var s' := Step(s, a, crc);
            p < |s'.pons| && s'.pons[p].state == PonStepped(s, a, p) && s'.state == OltStepped(s.state, a)
  {
    hide AddFlowStep;
    hide RemoveFlowStep;
    hide ActivateStep;
    hide OltStep;
    hide ActOnu;
    hide EnablePon;
    hide DisablePon;
    match a
    case FlowAdd(f) => AddSameOnus(s, f);
    case FlowRemove(f) => RemoveSameOnus(s, f);
    case Activate(intf, onuId, sn) => ActivatePonStates(s, intf, onuId, sn, p);
    case PonUp(intf) => CascadePonStates(s.pons[p], s.config.mode);
    case PonLow(intf) => CascadePonStates(s.pons[p], s.config.mode);
    case AtOnu(intf, sn, act) =>
    case OltEvent(e) => OltStepPonStates(s, e, p);
  }

  /** The device as created: every ONU of every PON, with the ids 1, 2, ... in order, and empty tables. */
  lemma NewOltIs(pons: nat, onus: nat, ports: nat, config: Config, p: nat, i: nat)
    requires p < pons
    ensures var s := NewOlt(pons, onus, ports, config);
            && s.state.OltCreated? && s.config == config && s.flows == map[] && !s.fault && |s.pons| == pons
            && s.pons[p].state.PonCreated? && |s.pons[p].onus| == onus
            && s.pons[p].tables.onuIds == map[] && s.pons[p].tables.gemPorts == map[]
            && s.pons[p].tables.allocIds == map[]
            && (i < onus ==>
                  var o := OnuAt(s, p, i);
                  && o.id == i + 1 && o.state.Created? && o.flows == [] && o.flowIds == [] && o.channel.NoChannel?
                  && |o.ports| == ports && (forall u | 0 <= u < ports :: !o.ports[u])
                  && o.omci.mds == 0 && o.omci.counter == 0 && o.omci.active == o.omci.committed == "BBSM_IMG_00001"
                  && o.omci.standby == "BBSM_IMG_00000")
  {
  }
}
