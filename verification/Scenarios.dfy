/** Runs of a created device that reach the states in which a promise fails. */
module Scenarios {
  import opened Basics
  import opened FlowTables
  import opened OnuFsm
  import opened OnuModel
  import opened DeviceModel
  import ChannelProtocol
  import PonTableRuns
  import ResourceRuns

  const CONFIG := Config(false, Default, 10)

  /** One PON with one ONU of one port. */
  const SMALL := NewOlt(1, 1, 1, CONFIG)

  /**
    The two rules of the channel protocol: no addition is pending at a switch-off, and no flow is
    removed while a removal of it is pending.
   */
  datatype Rules = Both | OnlyRemovals | OnlyAdditions

  /** The step keeps the rules; a switch-off comes from AtOnu and a removal from FlowRemove. */
  ghost predicate Keeps(s: Olt, a: Action, rules: Rules) {
    || ChannelProtocol.Quiet(s, a, false)
    || (rules.OnlyRemovals? && a.AtOnu?)
    || (rules.OnlyAdditions? && a.FlowRemove?)
  }

  /** A run of the small device that keeps the rules, told by its states. */
  ghost predicate Told(states: seq<Olt>, run: seq<Action>, crc: string -> nat, rules: Rules) {
    && Trace(states, run, crc) && states[0] == SMALL
    && forall k: nat | k < |run| :: Keeps(states[k], run[k], rules)
  }

  lemma Then(states: seq<Olt>, run: seq<Action>, crc: string -> nat, rules: Rules, a: Action)
    returns (states': seq<Olt>, run': seq<Action>)
    requires Told(states, run, crc, rules) && Keeps(states[|run|], a, rules)
    ensures Told(states', run', crc, rules) && run' == run + [a]
    ensures states' == states + [Step(states[|run|], a, crc)]
  {
    hide Step;
    hide Keeps;
    run' := run + [a];
    states' := states + [Step(states[|run|], a, crc)];
    assert Follows(states'[|run|], a, states'[|run| + 1], crc);
  }

  function ReadyOnu(queue: seq<Message>, omci: Omci): Onu {
    Onu(1, OnuState.Enabled, [], [], Channel(queue, false), [false], omci, false, false, false)
  }

  const TABLES := PonTables(map[1 := 0], map[], map[])

  /** The device with its one ONU and the tables of its PON replaced. */
  function With(s: Olt, c: Cell): Olt {
    s.(pons := [Pon(PonEnabled, [c.onu], c.tables)])
  }

  const REGISTERED: Table := map[0 := map[1 := map[]]]

  /** The device once its ONU has been activated. */
  function ReadyOlt(c: Cell): Olt {
    With(Olt(OltCreated, CONFIG, REGISTERED, REGISTERED, map[], [], false), c)
  }

  lemma Replaced(s: Olt, p: Pon, c: Cell)
    requires |s.pons| == 1 && |p.onus| == 1
    ensures PutCell(p, 0, c) == Pon(p.state, [c.onu], c.tables)
    ensures SetPon(s, 0, PutCell(p, 0, c)) == s.(pons := [Pon(p.state, [c.onu], c.tables)])
  {
    assert p.onus[0 := c.onu] == [c.onu];
    var p' := PutCell(p, 0, c);
    assert s.pons[0 := p'] == [p'];
  }

  lemma Raised(crc: string -> nat)
    ensures var o := Onu(1, OnuState.Discovered, [], [], Channel([Indication], false), [false], NEW_OMCI,
                         false, false, false);
            Step(SMALL, PonUp(0), crc) == SMALL.(pons := [Pon(PonEnabled, [o], EMPTY_TABLES)])
  {
    var p := SMALL.pons[0];
    assert p == Pon(PonCreated, [NewOnu(1, 1)], EMPTY_TABLES) && NewOnu(1, 1).ports == [false];
    var p1 := p.(state := PonEnabled);
    assert RaiseOnus(p1, Default, PonCreated, 0) == p1;
    var c := RaiseOnu(CellAt(p1, 0), 0, Default, PonCreated);
    assert [] + [Indication] == [Indication];
    assert RaiseOnus(p1, Default, PonCreated, 1) == PutCell(p1, 0, c);
    Replaced(SMALL, p1, c);
  }

  lemma Activated(o: Onu, crc: string -> nat)
    requires o == Onu(1, OnuState.Discovered, [], [], Channel([Indication], false), [false], NEW_OMCI,
                      false, false, false)
    ensures Step(SMALL.(pons := [Pon(PonEnabled, [o], EMPTY_TABLES)]), Activate(0, 1, 0), crc) ==
            ReadyOlt(Cell(ReadyOnu([Indication, Indication], NEW_OMCI), TABLES))
  {
    var s := SMALL.(pons := [Pon(PonEnabled, [o], EMPTY_TABLES)]);
    assert s.gems == map[0 := map[]] && s.allocs == map[0 := map[]];
    assert Register(s.gems, 0, 1) == map[0 := map[1 := map[]]];
    var c := CellAt(s.pons[0], 0);
    assert c.onu.(id := 1) == o && [Indication] + [Indication] == [Indication, Indication];
    assert ActivateCell(c, 0, 1) ==
        Cell(ReadyOnu([Indication, Indication], NEW_OMCI), TABLES);
    var s1 := s.(allocs := Register(s.allocs, 0, 1), gems := Register(s.gems, 0, 1));
    Replaced(s1, s.pons[0], ActivateCell(c, 0, 1));
  }

  /** The ONU is enabled and has handled its two indications. */
  lemma Ready(crc: string -> nat, rules: Rules) returns (states: seq<Olt>, run: seq<Action>)
    ensures Told(states, run, crc, rules) && states[|run|] == ReadyOlt(Cell(ReadyOnu([], NEW_OMCI), TABLES))
  {
    hide ActOnu;
    hide Step;
    states, run := [SMALL], [];
    Raised(crc);
    states, run := Then(states, run, crc, rules, PonUp(0));
    Activated(states[|run|].pons[0].onus[0], crc);
    states, run := Then(states, run, crc, rules, Activate(0, 1, 0));
    Heard(ReadyOnu([Indication, Indication], NEW_OMCI), TABLES, crc);
    states, run := Acts(states, run, crc, rules, Cell(ReadyOnu([Indication, Indication], NEW_OMCI), TABLES), DoProcess);
    Heard(ReadyOnu([Indication], NEW_OMCI), TABLES, crc);
    states, run := Acts(states, run, crc, rules, Cell(ReadyOnu([Indication], NEW_OMCI), TABLES), DoProcess);
  }

  /** An indication leaves the channel. */
  lemma Heard(o: Onu, t: PonTables, crc: string -> nat)
    requires o.channel.Channel? && o.channel.queue != [] && o.channel.queue[0] == Indication
    ensures ActOnu(Cell(o, t), 0, 0, DoProcess, false, 10, crc) ==
            Cell(o.(channel := o.channel.(queue := o.channel.queue[1..])), t)
  {
  }

  /** An entry point of the ONU. */
  lemma Acts(states: seq<Olt>, run: seq<Action>, crc: string -> nat, rules: Rules, c: Cell, a: OnuAction)
    returns (states': seq<Olt>, run': seq<Action>)
    requires Told(states, run, crc, rules) && states[|run|] == With(states[|run|], c)
    requires states[|run|].config == CONFIG && !states[|run|].state.OltDeleted?
    requires rules.OnlyRemovals? || ChannelProtocol.QuietAct(c.onu, a, false)
    ensures Told(states', run', crc, rules) && run' == run + [AtOnu(0, 0, a)]
    ensures states' == states + [With(states[|run|], ActOnu(c, 0, 0, a, false, 10, crc))]
  {
    hide ActOnu;
    var s := states[|run|];
    assert CellAt(s.pons[0], 0) == c;
    Replaced(s, s.pons[0], ActOnu(c, 0, 0, a, false, 10, crc));
    states', run' := Then(states, run, crc, rules, AtOnu(0, 0, a));
  }

  // ---------------------------------------------------------------------------
  // The rules of the channel protocol are needed

  const FIRST := Flow(0, 1, 16, 1, 1024, 1024, false, false, map[])

  /** The device has one ONU, with the id 1. */
  ghost predicate Holding(s: Olt, c: Cell) {
    s == With(s, c) && s.config == CONFIG && !s.state.OltDeleted? && c.onu.id == 1
  }

  /** FIRST is stored and reaches the channel of the ONU. */
  lemma Added(s: Olt, c: Cell)
    requires Holding(s, c) && c.onu.state.Enabled? && Passes(s, FIRST, 0)
    ensures var o := Send(c.onu.(flows := c.onu.flows + [1]), OnuModel.AddFlow(FIRST));
            AddFlowStep(s, FIRST) ==
            With(s.(flows := s.flows[1 := FIRST], gems := Put(s.gems, 0, 1, 16, {1024}, 1),
                    allocs := Put(s.allocs, 0, 1, 16, {1024}, 1)), Cell(o, c.tables))
  {
    hide Put;
    var s1 := StoreFlow(s, FIRST);
    assert FindOnu(s.pons[0].onus, 1) == 0;
    var c1 := Cell(c.onu.(flows := c.onu.flows + [1]), c.tables);
    Replaced(s1, s1.pons[0], c1);
    var s2 := RecordFlow(s1, 0, 0, 1);
    assert s2 == With(s1, c1);
    var s3 := s2.(gems := Put(s.gems, 0, 1, 16, {1024}, 1), allocs := Put(s.allocs, 0, 1, 16, {1024}, 1));
    Replaced(s3, s3.pons[0], Cell(Send(c1.onu, OnuModel.AddFlow(FIRST)), c.tables));
  }

  /** FIRST is forgotten and its removal reaches the channel of the ONU that has it. */
  lemma Removed(s: Olt, c: Cell)
    requires Holding(s, c) && 1 in c.onu.flowIds && 1 in s.flows && s.flows[1] == FIRST
    ensures var o := Send(c.onu.(flows := RemoveFirst(c.onu.flows, 1)), RemoveFlow(1));
            RemoveFlowStep(s, FIRST) ==
            With(s.(flows := s.flows - {1}, gems := Free(s.gems, 1), allocs := Free(s.allocs, 1)), Cell(o, c.tables))
  {
    hide Free;
    var s1 := s.(gems := Free(s.gems, 1), allocs := Free(s.allocs, 1));
    assert FindOnu(s.pons[0].onus, 1) == 0;
    var c1 := Cell(c.onu.(flows := RemoveFirst(c.onu.flows, 1)), c.tables);
    Replaced(s1, s1.pons[0], c1);
    var s2 := DeleteFlow(s1, 0, 0, 1).(flows := s1.flows - {1});
    assert s2 == With(s1, c1).(flows := s1.flows - {1});
    assert FindFlowId(s2.pons[0].onus, 1) == 0;
    assert FindByFlowId(s2.pons, 1) == Some((0, 0));
    Replaced(s2, s2.pons[0], Cell(Send(c1.onu, RemoveFlow(1)), c.tables));
  }

  /** FIRST is stored, but a switched off ONU does not hear of it. */
  lemma AddedOff(s: Olt, c: Cell)
    requires Holding(s, c) && c.onu.state.Disabled?
    ensures AddFlowStep(s, FIRST) == s.(flows := s.flows[1 := FIRST])
  {
    assert FindOnu(s.pons[0].onus, 1) == 0;
  }

  /** The ONU with FIRST in its two lists of flows or not. */
  function FlowOnu(queue: seq<Message>, flows: seq<nat>, flowIds: seq<nat>): Onu {
    ReadyOnu(queue, NEW_OMCI).(flows := flows, flowIds := flowIds)
  }

  function On(queue: seq<Message>, flows: seq<nat>, flowIds: seq<nat>): Cell {
    Cell(FlowOnu(queue, flows, flowIds), TABLES)
  }

  function Off(channel: Channel, flowIds: seq<nat>): Cell {
    Cell(FlowOnu([], [], flowIds).(state := OnuState.Disabled, channel := channel), EMPTY_TABLES)
  }

  const ADD := OnuModel.AddFlow(FIRST)
  const REMOVE := RemoveFlow(1)

  /** The ONU is enabled and the addition of FIRST is pending. */
  lemma FirstAdded(crc: string -> nat, rules: Rules) returns (states: seq<Olt>, run: seq<Action>)
    ensures Told(states, run, crc, rules)
    ensures var s, c := states[|run|], On([ADD], [1], []);
            Holding(s, c) && 1 in s.flows && s.flows[1] == FIRST
  {
    hide AddFlowStep;
    hide Put;
    states, run := Ready(crc, rules);
    var c := Cell(ReadyOnu([], NEW_OMCI), TABLES);
    Added(states[|run|], c);
    assert [] + [1] == [1] && [] + [ADD] == [ADD];
    states, run := Then(states, run, crc, rules, FlowAdd(FIRST));
  }

  lemma SwitchedOff(queue: seq<Message>, flows: seq<nat>, flowIds: seq<nat>, crc: string -> nat)
    ensures ActOnu(On(queue, flows, flowIds), 0, 0, FireDisable, false, 10, crc) ==
            Off(Channel(queue + [Indication], flowIds == []), flowIds)
  {
    var o := Off(Channel(queue + [Indication], false), flowIds).onu;
    assert PortsDown(o, 0) == o && PortsDown(o, 1) == o;
    assert DropSn(TABLES.(onuIds := map[]), 0) == EMPTY_TABLES;
  }

  lemma Heeds(crc: string -> nat)
    ensures ActOnu(On([ADD], [1], []), 0, 0, DoProcess, false, 10, crc) ==
            On([], [1], [1])
    ensures ActOnu(Off(Channel([ADD, Indication], true), []), 0, 0, DoProcess, false, 10, crc) ==
            Off(Channel([Indication], true), [1])
    ensures ActOnu(Off(Channel([REMOVE, REMOVE], false), [1]), 0, 0, DoProcess, false, 10, crc) ==
            Off(Channel([REMOVE], true), [])
    ensures ActOnu(Off(Channel([REMOVE], true), []), 0, 0, DoProcess, false, 10, crc).onu.channelFault
  {
    assert [ADD][1..] == [] && [REMOVE][1..] == [] && [] + [1] == [1];
    assert FlowOnu([], [1], []).(flowIds := [1]) == FlowOnu([], [1], [1]);
  }

  /**
    An addition that is pending at the switch-off: the channel is closed, the ONU takes the
    flow and its removal is sent on the closed channel.  Removals keep their rule.
   */
  lemma PendingAdditionFaults(crc: string -> nat) returns (states: seq<Olt>, run: seq<Action>)
    ensures Told(states, run, crc, OnlyRemovals)
    ensures IsOnu(states[|run|], 0, 0) && OnuAt(states[|run|], 0, 0).channelFault
  {
    hide ActOnu;
    hide RemoveFlowStep;
    states, run := FirstAdded(crc, OnlyRemovals);
    SwitchedOff([ADD], [1], [], crc);
    assert [ADD] + [Indication] == [ADD, Indication];
    states, run := Acts(states, run, crc, OnlyRemovals, On([ADD], [1], []), FireDisable);
    Heeds(crc);
    states, run := Acts(states, run, crc, OnlyRemovals, Off(Channel([ADD, Indication], true), []), DoProcess);
    var c := Off(Channel([Indication], true), [1]);
    Removed(states[|run|], c);
    NothingPending(states[|run|], c);
    states, run := Then(states, run, crc, OnlyRemovals, FlowRemove(FIRST));
  }

  lemma NothingPending(s: Olt, c: Cell)
    requires Holding(s, c) && REMOVE !in Queue(c.onu)
    ensures ChannelProtocol.Quiet(s, FlowRemove(FIRST), false)
  {
  }

  /**
    A flow that is removed, added and removed again while its ONU is off: both removals are
    pending and the second one closes the channel again.  Additions keep their rule.
   */
  lemma SecondRemovalFaults(crc: string -> nat) returns (states: seq<Olt>, run: seq<Action>)
    ensures Told(states, run, crc, OnlyAdditions)
    ensures IsOnu(states[|run|], 0, 0) && OnuAt(states[|run|], 0, 0).channelFault
  {
    hide ActOnu;
    hide RemoveFlowStep;
    hide AddFlowStep;
    Heeds(crc);
    states, run := FirstAdded(crc, OnlyAdditions);
    states, run := Acts(states, run, crc, OnlyAdditions, On([ADD], [1], []), DoProcess);
    SwitchedOff([], [1], [1], crc);
    assert [] + [Indication] == [Indication];
    states, run := Acts(states, run, crc, OnlyAdditions, On([], [1], [1]), FireDisable);
    states, run := RemovedTwice(states, run, crc);
    Heard(Off(Channel([Indication, REMOVE, REMOVE], false), [1]).onu, EMPTY_TABLES, crc);
    assert [Indication, REMOVE, REMOVE][1..] == [REMOVE, REMOVE];
    states, run := Acts(states, run, crc, OnlyAdditions,
                        Off(Channel([Indication, REMOVE, REMOVE], false), [1]), DoProcess);
    states, run := Acts(states, run, crc, OnlyAdditions,
                        Off(Channel([REMOVE, REMOVE], false), [1]), DoProcess);
    states, run := Acts(states, run, crc, OnlyAdditions, Off(Channel([REMOVE], true), []), DoProcess);
  }

  lemma RemovedTwice(states: seq<Olt>, run: seq<Action>, crc: string -> nat)
    returns (states': seq<Olt>, run': seq<Action>)
    requires Told(states, run, crc, OnlyAdditions)
    requires Holding(states[|run|], Off(Channel([Indication], false), [1]))
    requires 1 in states[|run|].flows && states[|run|].flows[1] == FIRST
    ensures Told(states', run', crc, OnlyAdditions)
    ensures Holding(states'[|run'|], Off(Channel([Indication, REMOVE, REMOVE], false), [1]))
  {
    hide RemoveFlowStep;
    hide AddFlowStep;
    var c := Off(Channel([Indication], false), [1]);
    Removed(states[|run|], c);
    assert [Indication] + [REMOVE] == [Indication, REMOVE];
    states', run' := Then(states, run, crc, OnlyAdditions, FlowRemove(FIRST));
    var c1 := Off(Channel([Indication, REMOVE], false), [1]);
    AddedOff(states'[|run'|], c1);
    states', run' := Then(states', run', crc, OnlyAdditions, FlowAdd(FIRST));
    Removed(states'[|run'|], c1);
    assert [Indication, REMOVE] + [REMOVE] == [Indication, REMOVE, REMOVE];
    states', run' := Then(states', run', crc, OnlyAdditions, FlowRemove(FIRST));
  }

  // ---------------------------------------------------------------------------
  // A port unlock that is pending when the ONU is switched off

  /** The two rules of the channel protocol hold of this run, and yet a port reports on the closed channel. */
  lemma PendingUnlockFaults(crc: string -> nat) returns (states: seq<Olt>, run: seq<Action>)
    ensures Told(states, run, crc, Rules.Both) && IsOnu(states[|run|], 0, 0) && OnuAt(states[|run|], 0, 0).portFault
  {
    hide ActOnu;
    var unlock := SetPort(0, false, true);
    var m := OmciRequest(unlock);
    states, run := Ready(crc, Rules.Both);
    Asked(ReadyOnu([], NEW_OMCI), TABLES, unlock, crc);
    states, run := Acts(states, run, crc, Rules.Both, Cell(ReadyOnu([], NEW_OMCI), TABLES), OmciMsgOut(unlock));
    SwitchedOff([m], [], [], crc);
    assert [m] + [Indication] == [m, Indication];
    states, run := Acts(states, run, crc, Rules.Both, On([m], [], []), FireDisable);
    Unlocked(crc);
    states, run := Acts(states, run, crc, Rules.Both, Off(Channel([m, Indication], true), []), DoProcess);
  }

  lemma Asked(o: Onu, t: PonTables, q: Request, crc: string -> nat)
    requires o.channel == Channel([], false) && !o.state.Disabled?
    ensures ActOnu(Cell(o, t), 0, 0, OmciMsgOut(q), false, 10, crc) ==
            Cell(o.(channel := Channel([OmciRequest(q)], false)), t)
  {
    assert [] + [OmciRequest(q)] == [OmciRequest(q)];
  }

  lemma Unlocked(crc: string -> nat)
    ensures var m := OmciRequest(SetPort(0, false, true));
            ActOnu(Off(Channel([m, Indication], true), []), 0, 0, DoProcess, false, 10, crc).onu.portFault
  {
  }

  // ---------------------------------------------------------------------------
  // A GEM port that is created after the ONU has been cleaned up

  /** The request is pending at the switch-off, and the GEM port stays with the disabled ONU. */
  lemma LateCreateStays(crc: string -> nat) returns (states: seq<Olt>, run: seq<Action>)
    ensures Told(states, run, crc, Rules.Both) && IsOnu(states[|run|], 0, 0)
    ensures var p := states[|run|].pons[0];
            p.tables.gemPorts == map[1024 := 0] && p.onus[0].state.Disabled? && !PonTableRuns.TidyOlt(states[|run|])
  {
    hide ActOnu;
    var create := Create(Some(1024), true);
    var m := OmciRequest(create);
    states, run := Ready(crc, Rules.Both);
    Asked(ReadyOnu([], NEW_OMCI), TABLES, create, crc);
    states, run := Acts(states, run, crc, Rules.Both, Cell(ReadyOnu([], NEW_OMCI), TABLES), OmciMsgOut(create));
    SwitchedOff([m], [], [], crc);
    assert [m] + [Indication] == [m, Indication];
    states, run := Acts(states, run, crc, Rules.Both, On([m], [], []), FireDisable);
    CreatedLate(crc);
    states, run := Acts(states, run, crc, Rules.Both, Off(Channel([m, Indication], true), []), DoProcess);
    var t := states[|run|].pons[0].tables;
    assert 1024 in t.gemPorts && PonTableRuns.Named(t, 0);
    assert !PonTableRuns.Tidy(states[|run|].pons[0]);
  }

  lemma CreatedLate(crc: string -> nat)
    ensures var m := OmciRequest(Create(Some(1024), true));
            var c := ActOnu(Off(Channel([m, Indication], true), []), 0, 0, DoProcess, false, 10, crc);
            c.onu.state.Disabled? && c.tables.gemPorts == map[1024 := 0]
  {
  }

  // ---------------------------------------------------------------------------
  // A flow whose ids are stored in no map

  const BARE := Flow(0, 1, 16, 1, 1024, 1024, false, true, map[])

  /** A replicated flow without GEM ports for an ONU that is not active yet: FlowAdd panics. */
  lemma BareFlowFaults(crc: string -> nat)
    ensures Trace([SMALL, Step(SMALL, FlowAdd(BARE), crc)], [FlowAdd(BARE)], crc)
    ensures Step(SMALL, FlowAdd(BARE), crc).fault
  {
    hide AddFlowStep;
    var s := SMALL;
    assert s.pons[0].onus[0] == NewOnu(1, 1) && FindOnu(s.pons[0].onus, 1) == 0;
    ResourceRuns.NewOltGoodTables(1, 1, 1, CONFIG);
    assert Gems(BARE) == {} && s.gems == map[0 := map[]] && s.allocs == map[0 := map[]];
    ResourceRuns.AddFaultsIff(s, BARE);
    assert Follows(s, FlowAdd(BARE), Step(s, FlowAdd(BARE), crc), crc);
  }

  // ---------------------------------------------------------------------------
  // The MIB data sync at 255

  function Counting(mds: nat): Cell {
    Cell(ReadyOnu([], NEW_OMCI.(mds := mds)), TABLES)
  }

  lemma Invalidated(mds: nat, r: nat, crc: string -> nat)
    requires r < 10 && mds + r < 255
    ensures ActOnu(Counting(mds), 0, 0, InvalidateMds(r), false, 10, crc) == Counting(mds + r + 1)
  {
  }

  lemma {:induction false} Spoiled(crc: string -> nat, n: nat) returns (states: seq<Olt>, run: seq<Action>)
    requires n <= 25
    ensures Told(states, run, crc, Rules.Both) && states[|run|] == ReadyOlt(Counting(10 * n))
  {
    if n == 0 {
      states, run := Ready(crc, Rules.Both);
    } else {
      hide ActOnu;
      states, run := Spoiled(crc, n - 1);
      Invalidated(10 * (n - 1), 9, crc);
      states, run := Acts(states, run, crc, Rules.Both, Counting(10 * (n - 1)), InvalidateMds(9));
    }
  }

  /** Twenty-six invalidations take the counter to 255, and the Set that follows takes it to 0. */
  lemma WrapsToZero(crc: string -> nat) returns (states: seq<Olt>, run: seq<Action>)
    ensures Told(states, run, crc, Rules.Both) && |run| > 0 && run[|run| - 1] == AtOnu(0, 0, DoProcess)
    ensures IsOnu(states[|run| - 1], 0, 0) && OnuAt(states[|run| - 1], 0, 0).omci.mds == 255
    ensures IsOnu(states[|run|], 0, 0) && OnuAt(states[|run|], 0, 0).omci.mds == 0
  {
    hide ActOnu;
    var c := Cell(ReadyOnu([OmciRequest(SetOther(true))], NEW_OMCI.(mds := 255)), TABLES);
    Invalidated(250, 4, crc);
    Asked(Counting(255).onu, TABLES, SetOther(true), crc);
    SetAt255(c, crc);
    states, run := Spoiled(crc, 25);
    states, run := Acts(states, run, crc, Rules.Both, Counting(250), InvalidateMds(4));
    states, run := Acts(states, run, crc, Rules.Both, Counting(255), OmciMsgOut(SetOther(true)));
    states, run := Acts(states, run, crc, Rules.Both, c, DoProcess);
  }

  lemma SetAt255(c: Cell, crc: string -> nat)
    requires c == Cell(ReadyOnu([OmciRequest(SetOther(true))], NEW_OMCI.(mds := 255)), TABLES)
    ensures ActOnu(c, 0, 0, DoProcess, false, 10, crc).onu.omci.mds == 0
  {
  }

  // ---------------------------------------------------------------------------
  // Two ports of one ONU with one GEM port

  /** Same shape, and the ONU has the same id and state. */
  predicate SameOnu(s: Olt, s': Olt, p: nat, i: nat)
    requires IsOnu(s, p, i)
  {
    && IsOnu(s', p, i) && |s'.pons| == |s.pons| && |s'.pons[p].onus| == |s.pons[p].onus|
    && OnuAt(s', p, i).state == OnuAt(s, p, i).state && OnuAt(s', p, i).id == OnuAt(s, p, i).id
  }

  lemma RecordedAt(s: Olt, p: nat, i: nat, key: nat)
    requires IsOnu(s, p, i)
    ensures SameOnu(s, RecordFlow(s, p, i, key), p, i)
  {
  }

  ghost predicate Passes(s: Olt, f: Flow, p: nat) {
    && Registered(s.gems, p, U32(f.onuId)) && Registered(s.allocs, p, U32(f.onuId))
    && !Conflict(s.gems, p, U32(f.onuId), Gems(f)) && !Conflict(s.allocs, p, U32(f.onuId), {f.allocId})
  }

  lemma StoredAt(s: Olt, f: Flow, p: nat, i: nat)
    requires IsOnu(s, p, i) && Passes(s, f, p)
    ensures var s' := StoreResources(s, f, p, i);
            && s'.gems == Put(s.gems, p, U32(f.onuId), f.portNo, Gems(f), f.flowId)
            && s'.allocs == Put(s.allocs, p, U32(f.onuId), f.portNo, {f.allocId}, f.flowId)
            && SameOnu(s, s', p, i)
  {
    hide Put;
  }

  /** What a flow does that passes the validation. */
  lemma Stored(s: Olt, f: Flow, p: nat, i: nat)
    requires !f.multicast && f.accessIntfId >= 0 && Owner(s, f) == Some((p, i)) && Passes(s, f, p)
    requires !OnuAt(s, p, i).state.PonDisabled? && !OnuAt(s, p, i).state.Disabled?
    ensures var s' := AddFlowStep(s, f);
            && s'.gems == Put(s.gems, p, U32(f.onuId), f.portNo, Gems(f), f.flowId)
            && s'.allocs == Put(s.allocs, p, U32(f.onuId), f.portNo, {f.allocId}, f.flowId)
            && SameOnu(s, s', p, i)
  {
    hide Put;
    hide StoreResources;
    hide RecordFlow;
    hide Passes;
    var s1 := StoreFlow(s, f);
    var s2 := RecordFlow(s1, p, i, f.flowId);
    RecordedAt(s1, p, i, f.flowId);
    assert Passes(s2, f, p) by { PassesSame(s, s2, f, p); }
    StoredAt(s2, f, p, i);
    assert AddFlowStep(s, f) == StoreResources(s2, f, p, i);
  }

  lemma PassesSame(s: Olt, s': Olt, f: Flow, p: nat)
    requires Passes(s, f, p) && s'.gems == s.gems && s'.allocs == s.allocs
    ensures Passes(s', f, p)
  {
  }

  const SECOND := Flow(0, 1, 17, 2, 1024, 1024, false, false, map[])

  /** Two flows of one ONU on different ports: both pass validation with the same GEM port. */
  lemma PortExclusivityFails(crc: string -> nat) returns (states: seq<Olt>, run: seq<Action>)
    ensures Told(states, run, crc, Rules.Both) && !PortExclusive(states[|run|].gems)
  {
    hide AddFlowStep;
    hide Put;
    states, run := Ready(crc, Rules.Both);
    var s := states[|run|];
    Stored(s, FIRST, 0, 0);
    states, run := Then(states, run, crc, Rules.Both, FlowAdd(FIRST));
    var s1 := states[|run|];
    NoneElse(s, s1);
    Stored(s1, SECOND, 0, 0);
    states, run := Then(states, run, crc, Rules.Both, FlowAdd(SECOND));
    BothListed(s.gems);
  }

  lemma NoneElse(s: Olt, s1: Olt)
    requires s.gems == map[0 := map[1 := map[]]] && s.allocs == map[0 := map[1 := map[]]]
    requires s1.gems == Put(s.gems, 0, 1, 16, {1024}, 1) && s1.allocs == Put(s.allocs, 0, 1, 16, {1024}, 1)
    ensures Registered(s1.gems, 0, 1) && Registered(s1.allocs, 0, 1)
    ensures !Conflict(s1.gems, 0, 1, {1024}) && !Conflict(s1.allocs, 0, 1, {1024})
  {
    PutLists(s.gems, 0, 1, 16, {1024}, 1);
    PutLists(s.allocs, 0, 1, 16, {1024}, 1);
  }

  lemma BothListed(t: Table)
    requires Registered(t, 0, 1)
    ensures Registered(Put(t, 0, 1, 16, {1024}, 1), 0, 1)
    ensures !PortExclusive(Put(Put(t, 0, 1, 16, {1024}, 1), 0, 1, 17, {1024}, 2))
  {
    var t1 := Put(t, 0, 1, 16, {1024}, 1);
    var t2 := Put(t1, 0, 1, 17, {1024}, 2);
    PutLists(t, 0, 1, 16, {1024}, 1);
    PutLists(t1, 0, 1, 17, {1024}, 2);
    assert Listed(t2, Key(0, 1, 16, 1024)) && Listed(t2, Key(0, 1, 17, 1024));
  }
}
