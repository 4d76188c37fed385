/** The state machine of an ONU: its transition table, without the callbacks. */
module OnuFsm {

  datatype OnuState =
    | Created | Initialized | Discovered | Enabled | Disabled | PonDisabled
    | DownloadStarted | DownloadInProgress | DownloadComplete | DownloadError
    | ImageActivated | ImageCommitted

  datatype OnuEvent =
    | Initialize | Discover | Enable | Disable | PonDisable
    | StartImage | ProgressImage | CompleteImage | FailImage | ActivateImage | CommitImage

  predicate Allowed(s: OnuState, e: OnuEvent) {
    match e
    case Initialize => s.Created? || s.Disabled? || s.PonDisabled?
    case Discover => s.Initialized?
    case Enable => s.Discovered? || s.PonDisabled?
    case Disable =>
      s.Enabled? || s.PonDisabled? || s.ImageActivated? || s.DownloadError? || s.ImageCommitted?
    case PonDisable =>
      s.Enabled? || s.ImageActivated? || s.DownloadError? || s.ImageCommitted? || s.DownloadComplete?
    case StartImage => s.Enabled? || s.DownloadComplete? || s.DownloadError? || s.ImageCommitted?
    case ProgressImage => s.DownloadStarted?
    case CompleteImage => s.DownloadInProgress?
    case FailImage => s.DownloadInProgress?
    case ActivateImage => s.DownloadComplete?
    case CommitImage => s.Enabled?
  }

  /** Switched off, by itself or with its PON. */
  predicate IsOff(s: OnuState) {
    s.PonDisabled? || s.Disabled?
  }

  function Target(e: OnuEvent): OnuState {
    match e
    case Initialize => Initialized
    case Discover => Discovered
    case Enable => Enabled
    case Disable => Disabled
    case PonDisable => PonDisabled
    case StartImage => DownloadStarted
    case ProgressImage => DownloadInProgress
    case CompleteImage => DownloadComplete
    case FailImage => DownloadError
    case ActivateImage => ImageActivated
    case CommitImage => ImageCommitted
  }

  /** An event that is not allowed in the current state changes nothing. */
  function Next(s: OnuState, e: OnuEvent): OnuState {
    if Allowed(s, e) then Target(e) else s
  }

  /** Enabled, or in one of the software image states that only an enabled ONU can reach. */
  predicate Active(s: OnuState) {
    s.Enabled? || s.DownloadStarted? || s.DownloadInProgress? || s.DownloadComplete? ||
    s.DownloadError? || s.ImageActivated? || s.ImageCommitted?
  }

  predicate Live(s: OnuState) {
    Active(s) || s.PonDisabled?
  }
}

/**
  One ONU together with the three allocation tables of its PON port.  A table
  names an ONU by its serial number object, here by the ONU's position on the PON.

  What would stop the process is recorded: `channelFault` for sending on a closed
  channel or closing a channel twice, `portFault` when the send on a closed channel is
  the status of a port, `dataFault` for slicing past the image data.
 */
module OnuModel {
  import opened Basics
  import opened FlowTables
  import opened OnuFsm

  // ---------------------------------------------------------------------------
  // The tables of a PON port

  datatype AllocKey = AllocKey(pon: nat, onu: nat, entity: nat)
  datatype AllocVal = AllocVal(sn: nat, allocId: nat)

  datatype PonTables = PonTables(
    onuIds: map<nat, nat>, gemPorts: map<nat, nat>, allocIds: map<AllocKey, AllocVal>)

  const EMPTY_TABLES := PonTables(map[], map[], map[])

  /** removeAllocIdsForOnuSn and removeGemPortBySn. */
  function DropSn(t: PonTables, sn: nat): (r: PonTables)
    ensures r.onuIds == t.onuIds
  {
    t.(gemPorts := map g | g in t.gemPorts && t.gemPorts[g] != sn :: t.gemPorts[g],
       allocIds := map k | k in t.allocIds && t.allocIds[k].sn != sn :: t.allocIds[k])
  }

  // ---------------------------------------------------------------------------
  // OMCI

  /**
    A parsed OMCI request.  `ok` says whether building the successful response
    works; an Option argument is None when the request body cannot be parsed.
    `Read` stands for the requests that only read the ONU.
   */
  datatype Request =
    | MibReset(ok: bool)
    | SetPort(port: nat, lock: bool, ok: bool)
    | SetOnuG(lockState: nat, ok: bool)
    | SetTCont(entity: nat, allocId: nat, ok: bool)
    | SetOther(ok: bool)
    | Create(gem: Option<nat>, ok: bool)
    | Delete(gem: Option<nat>, ok: bool)
    | StartDownload(sections: nat, ok: bool)
    | Section(data: Option<string>)
    | SectionWithResponse(data: Option<string>, ok: bool)
    | EndDownload(end: Option<ImageEnd>, ok: bool)
    | ActivateSoftware(instance: Option<nat>, ok: bool)
    | CommitSoftware(instance: Option<nat>, ok: bool)
    | Read

  datatype ImageEnd = ImageEnd(size: nat, crc: nat)

  /** What goes back to VOLTHA: nothing, an acknowledgement or a failure code. */
  datatype Reply = Silent | Acked | Refused

  datatype Omci = Omci(
    mds: nat, counter: nat, adminLock: nat,
    expected: nat, received: nat, data: string, inDownload: string,
    activeId: nat, committedId: nat, standby: string, active: string, committed: string)

  const NEW_OMCI := Omci(0, 0, 0, 0, 0, "", "", 0, 0,
                         "BBSM_IMG_00000", "BBSM_IMG_00001", "BBSM_IMG_00001")

  // ---------------------------------------------------------------------------
  // The ONU

  /** The messages on the ONU channel; indications and alarms change no state kept here. */
  datatype Message = AddFlow(flow: Flow) | RemoveFlow(flowId: nat) | OmciRequest(request: Request) | Indication

  datatype Channel = NoChannel | Channel(queue: seq<Message>, closed: bool)

  /**
    `flows` are the keys recorded by the OLT, `flowIds` the flows the ONU itself has
    handled, `ports` the Ethernet and then the POTS ports, true when up.
   */
  datatype Onu = Onu(
    id: nat, state: OnuState, flows: seq<nat>, flowIds: seq<nat>,
    channel: Channel, ports: seq<bool>, omci: Omci,
    channelFault: bool, portFault: bool, dataFault: bool)

  datatype Cell = Cell(onu: Onu, tables: PonTables)

  /** A send on a nil channel blocks its caller for ever, one on a closed channel panics. */
  function Send(o: Onu, m: Message): Onu {
    if o.channel.NoChannel? then o
    else if o.channel.closed then o.(channelFault := true)
    else o.(channel := o.channel.(queue := o.channel.queue + [m]))
  }

  function Close(o: Onu): Onu {
    if o.channel.NoChannel? || o.channel.closed then o.(channelFault := true)
    else o.(channel := o.channel.(closed := true))
  }

  function Queue(o: Onu): seq<Message> {
    if o.channel.NoChannel? then [] else o.channel.queue
  }

  predicate Closed(o: Onu) {
    o.channel.Channel? && o.channel.closed
  }

  /** The status message that a port sends when it goes up or down. */
  function Report(o: Onu): Onu {
    if o.channel.NoChannel? then o
    else if o.channel.closed then o.(portFault := true)
    else o.(channel := o.channel.(queue := o.channel.queue + [Indication]))
  }

  /** Enable and Disable of a UNI or POTS port; only a change of state is reported. */
  function SetPortState(o: Onu, port: nat, up: bool): Onu
    requires port < |o.ports|
  {
    if o.ports[port] == up then o
    else Report(o.(ports := o.ports[port := up]))
  }

  /** The loops over the ports when the ONU is disabled, up to the n-th port. */
  function PortsDown(o: Onu, n: nat): (r: Onu)
    requires n <= |o.ports|
    ensures |r.ports| == |o.ports|
  {
    if n == 0 then o else SetPortState(PortsDown(o, n - 1), n - 1, false)
  }

  /** cleanupOnuState. */
  function Cleanup(c: Cell, sn: nat): Cell {
    Cell(c.onu.(flows := []), DropSn(c.tables.(onuIds := c.tables.onuIds - {c.onu.id}), sn))
  }

  /** The enter callbacks, run after the state has changed. */
  function Enter(c: Cell, sn: nat): Cell {
    match c.onu.state
    case Initialized => c.(onu := c.onu.(channel := Channel([], false)))
    case Discovered => c.(onu := Send(c.onu, Indication))
    case Enabled =>
      if c.onu.id in c.tables.onuIds then c
      else Cell(Send(c.onu, Indication), c.tables.(onuIds := c.tables.onuIds[c.onu.id := sn]))
    case Disabled =>
      var c1 := Cleanup(c, sn);
      var o1 := Send(c1.onu, Indication);
      var o2 := PortsDown(o1, |o1.ports|);
      c1.(onu := if o2.flowIds == [] then Close(o2) else o2)
    case PonDisabled => Cleanup(c, sn)
    case _ => c
  }

  /** InternalState.Event of the ONU. */
  function Fire(c: Cell, sn: nat, e: OnuEvent): Cell {
    if Allowed(c.onu.state, e) then Enter(c.(onu := c.onu.(state := Target(e))), sn) else c
  }

  function FireTwice(c: Cell, sn: nat, e: OnuEvent, e': OnuEvent): Cell {
    Fire(Fire(c, sn, e), sn, e')
  }

  // ---------------------------------------------------------------------------
  // OMCI request handling

  const MAX_OMCI_MSG_COUNTER := 10
  const MULTICAST_GEM := 4069

  function NextCounter(k: nat): nat {
    if k < MAX_OMCI_MSG_COUNTER then k + 1 else 1
  }

  datatype Handled = Handled(cell: Cell, reply: Reply)

  /** handleOmciRequest: past the configured rate a request is dropped. */
  function HandleOmci(c: Cell, pon: nat, sn: nat, q: Request, rate: nat, crc: string -> nat): Handled {
    var c1 := c.(onu := c.onu.(omci := c.onu.omci.(counter := NextCounter(c.onu.omci.counter))));
    if c1.onu.omci.counter > rate then Handled(c1, Silent) else Answer(c1, pon, sn, q, crc)
  }

  function Answer(c: Cell, pon: nat, sn: nat, q: Request, crc: string -> nat): Handled {
    match q
    case MibReset(ok) =>
      if !ok then Handled(c, Silent)
      else Handled(Cell(c.onu.(omci := c.onu.omci.(mds := 0)), DropSn(c.tables, sn)), Acked)
    case SetPort(port, lock, ok) =>
      if port < |c.onu.ports| then Ack(c.(onu := SetPortState(c.onu, port, !lock)), ok)
      else Handled(c, Refused)
    case SetOnuG(lockState, ok) => Ack(c.(onu := c.onu.(omci := c.onu.omci.(adminLock := lockState))), ok)
    case SetTCont(entity, allocId, ok) => AnswerTCont(c, AllocKey(pon, c.onu.id, entity), sn, allocId, ok)
    case SetOther(ok) => Ack(c, ok)
    case Create(gem, ok) => AnswerCreate(c, sn, gem, ok)
    case Delete(gem, ok) =>
      Ack(if gem.Some? then c.(tables := c.tables.(gemPorts := c.tables.gemPorts - {gem.value})) else c, ok)
    case StartDownload(sections, ok) =>
      var c1 := c.(onu := c.onu.(omci := c.onu.omci.(received := 0, data := "", expected := sections)));
      if ok then Ack(Move(c1, StartImage), true) else Handled(c1, Silent)
    case Section(data) => if data.Some? then Handled(Accept(c, data.value), Silent) else Handled(c, Silent)
    case SectionWithResponse(data, ok) => AnswerSection(c, data, ok)
    case EndDownload(end, ok) => AnswerEnd(c, end, ok, crc)
    case ActivateSoftware(instance, ok) =>
      if !ok then Handled(c, Silent) else Ack(Swap(Move(c, ActivateImage), instance), true)
    case CommitSoftware(instance, ok) =>
      if !ok then Handled(c, Silent) else Ack(Move(Keep(c, instance), CommitImage), true)
    case Read => Handled(c, Silent)
  }

  /** A successful change: the MIB data sync, a uint8, counts it when the response is built. */
  function Ack(c: Cell, ok: bool): Handled {
    if ok then Handled(c.(onu := c.onu.(omci := c.onu.omci.(mds := (c.onu.omci.mds + 1) % 256))), Acked)
    else Handled(c, Silent)
  }

  /** An event of the ONU that has no enter callback. */
  function Move(c: Cell, e: OnuEvent): Cell {
    c.(onu := c.onu.(state := Next(c.onu.state, e)))
  }

  function AnswerTCont(c: Cell, k: AllocKey, sn: nat, allocId: nat, ok: bool): Handled {
    if allocId == 255 || allocId == 65535 then
      Ack(c.(tables := c.tables.(allocIds := c.tables.allocIds - {k})), ok)
    else if k in c.tables.allocIds then Handled(c, Refused)
    else Ack(c.(tables := c.tables.(allocIds := c.tables.allocIds[k := AllocVal(sn, allocId)])), ok)
  }

  function AnswerCreate(c: Cell, sn: nat, gem: Option<nat>, ok: bool): Handled {
    if gem.None? || gem.value == MULTICAST_GEM then Ack(c, ok)
    else if gem.value in c.tables.gemPorts then Handled(c, Refused)
    else Ack(c.(tables := c.tables.(gemPorts := c.tables.gemPorts[gem.value := sn])), ok)
  }

  /** A section without acknowledgement; the first one names the image. */
  function Accept(c: Cell, data: string): Cell {
    var m := c.onu.omci;
    if m.received == 0 && |data| < 14 then c.(onu := c.onu.(dataFault := true))
    else
      var m1 := if m.received == 0 then m.(inDownload := data[..14]) else m;
      var m2 := m1.(data := m.data + data, received := (m.received + 1) % TWO_32);
      Move(c.(onu := c.onu.(omci := m2)), ProgressImage)
  }

  function AnswerSection(c: Cell, data: Option<string>, ok: bool): Handled {
    if data.None? then Handled(c, Silent)
    else
      var m := c.onu.omci.(data := c.onu.omci.data + data.value);
      var m1 := if ok then m.(received := (m.received + 1) % TWO_32) else m;
      Handled(c.(onu := c.onu.(omci := m1)), if ok then Acked else Silent)
  }

  datatype EndResult = Aborted | Short | Overrun | BadCrc | Verified

  /**
    The verdict of handleEndSoftwareDownloadRequest on a parsed request.  `crc` is the
    checksum of the image data in network byte order.
   */
  function JudgeEnd(m: Omci, end: ImageEnd, crc: string -> nat): EndResult {
    if m.received > 0 && end.size == 0 && end.crc == 0xFFFF_FFFF then Aborted
    else if m.expected != m.received then Short
    else if end.size > |m.data| then Overrun
    else if end.crc != crc(m.data[..end.size]) then BadCrc
    else Verified
  }

  function AnswerEnd(c: Cell, end: Option<ImageEnd>, ok: bool, crc: string -> nat): Handled {
    var m := c.onu.omci;
    if end.None? then FailEnd(c, ok)
    else
      match JudgeEnd(m, end.value, crc)
      case Aborted => FinishEnd(c.(onu := c.onu.(omci := m.(received := 0))), ok)
      case Overrun => Handled(c.(onu := c.onu.(dataFault := true)), Silent)
      case Verified => FinishEnd(c.(onu := c.onu.(omci := m.(standby := m.inDownload))), ok)
      case _ => FailEnd(c, ok)
  }

  function FinishEnd(c: Cell, ok: bool): Handled {
    if ok then Ack(Move(c, CompleteImage), true) else Handled(c, Silent)
  }

  function FailEnd(c: Cell, ok: bool): Handled {
    if ok then Handled(Move(c, FailImage), Refused) else Handled(c, Silent)
  }

  /** ActivateSoftware exchanges the active and the standby image. */
  function Swap(c: Cell, instance: Option<nat>): Cell {
    var m := c.onu.omci;
    if instance.None? then c
    else c.(onu := c.onu.(omci := m.(activeId := instance.value, active := m.standby, standby := m.active)))
  }

  /** CommitSoftware: the committed image becomes standby, the active one committed. */
  function Keep(c: Cell, instance: Option<nat>): Cell {
    var m := c.onu.omci;
    if instance.None? then c
    else c.(onu := c.onu.(omci := m.(activeId := instance.value, committedId := instance.value,
                                     standby := m.committed, committed := m.active)))
  }

  /** InvalidateMibDataSync with the random value r + 1; zero is skipped. */
  function Invalidate(m: Omci, r: nat): Omci {
    var v := (m.mds + r % 10 + 1) % 256;
    m.(mds := if v == 0 then 1 else v)
  }

  // ---------------------------------------------------------------------------
  // The messages of the ONU

  /** handleFlowRemove drops the first occurrence of the id. */
  function RemoveFirst(s: seq<nat>, x: nat): (r: seq<nat>)
    ensures x !in s ==> r == s
    ensures forall y :: y != x ==> (y in r <==> y in s)
    ensures x in s ==> |r| == |s| - 1
    ensures forall y :: y in r ==> y in s
  {
    if s == [] then [] else if s[0] == x then s[1..] else [s[0]] + RemoveFirst(s[1..], x)
  }

  function HandleMessage(c: Cell, pon: nat, sn: nat, m: Message, rate: nat, crc: string -> nat): Cell {
    match m
    case AddFlow(flow) => c.(onu := c.onu.(flowIds := c.onu.flowIds + [flow.flowId]))
    case RemoveFlow(flowId) =>
      var o := c.onu.(flowIds := RemoveFirst(c.onu.flowIds, flowId));
      c.(onu := if o.flowIds == [] && o.state.Disabled? then Close(o) else o)
    case OmciRequest(q) => HandleOmci(c, pon, sn, q, rate, crc).cell
    case Indication => c
  }

  /** One round of ProcessOnuMessages; a closed channel still delivers what it holds. */
  function Process(c: Cell, pon: nat, sn: nat, rate: nat, crc: string -> nat): Cell {
    var q := Queue(c.onu);
    if q == [] then c
    else HandleMessage(c.(onu := c.onu.(channel := c.onu.channel.(queue := q[1..]))), pon, sn, q[0], rate, crc)
  }

  /** HandleShutdownONU. */
  function Shutdown(c: Cell, sn: nat): Cell {
    Fire(if c.onu.state.Disabled? then c else c.(onu := Send(c.onu, Indication)), sn, OnuEvent.Disable)
  }

  /** HandlePowerOnONU: an ONU that was switched off is enabled again at once. */
  function PowerOn(c: Cell, sn: nat): Cell {
    var was := c.onu.state;
    var c1 := if was.Created? || was.Disabled? then Fire(c, sn, Initialize) else c;
    var c2 := c1.(onu := Send(c1.onu, Indication));
    if !Allowed(c2.onu.state, Discover) then c2
    else if was.Disabled? then FireTwice(c2, sn, Discover, Enable)
    else Fire(c2, sn, Discover)
  }

  /** ReDiscoverOnu while the OLT is not being rebooted. */
  function Rediscover(c: Cell, sn: nat): Cell {
    if c.onu.state.Discovered? then c.(onu := Send(c.onu, Indication))
    else FireTwice(c, sn, Initialize, Discover)
  }

  /** DeleteOnu up to the re-discovery. */
  function Deactivate(c: Cell, sn: nat): Cell {
    if c.onu.state.Disabled? then c else Fire(c, sn, OnuEvent.Disable)
  }

  // ---------------------------------------------------------------------------
  // What an OMCI request leaves alone

  ghost predicate SameChannel(o: Onu, o': Onu) {
    o'.channel == o.channel && o'.ports == o.ports &&
    o'.channelFault == o.channelFault && o'.portFault == o.portFault
  }

  ghost predicate OmciFrame(c: Cell, c': Cell) {
    && c'.onu.id == c.onu.id && c'.onu.flows == c.onu.flows && c'.onu.flowIds == c.onu.flowIds
    && c'.tables.onuIds == c.tables.onuIds
    && (c'.onu.state == c.onu.state || (Active(c.onu.state) && Active(c'.onu.state)))
  }

  predicate ImageRequest(q: Request) {
    q.StartDownload? || q.Section? || q.SectionWithResponse? || q.EndDownload? ||
    q.ActivateSoftware? || q.CommitSoftware?
  }

  /** A request about a software image also leaves the PON tables alone. */
  ghost predicate ImageFrame(c: Cell, c': Cell) {
    OmciFrame(c, c') && SameChannel(c.onu, c'.onu) && c'.tables == c.tables
  }

  lemma FinishKeeps(c: Cell, ok: bool)
    ensures ImageFrame(c, FinishEnd(c, ok).cell) && ImageFrame(c, FailEnd(c, ok).cell)
  {
  }

  lemma EndKeeps(c: Cell, end: Option<ImageEnd>, ok: bool, crc: string -> nat)
    ensures ImageFrame(c, AnswerEnd(c, end, ok, crc).cell)
  {
    hide JudgeEnd;
    hide FinishEnd;
    hide FailEnd;
    var m := c.onu.omci;
    FinishKeeps(c, ok);
    FinishKeeps(c.(onu := c.onu.(omci := m.(received := 0))), ok);
    FinishKeeps(c.(onu := c.onu.(omci := m.(standby := m.inDownload))), ok);
  }

  lemma SectionKeeps(c: Cell, data: Option<string>, ok: bool)
    ensures data.Some? ==> ImageFrame(c, Accept(c, data.value))
    ensures ImageFrame(c, AnswerSection(c, data, ok).cell)
  {
  }

  lemma SwapKeeps(c: Cell, instance: Option<nat>)
    ensures ImageFrame(c, Ack(Swap(Move(c, ActivateImage), instance), true).cell)
    ensures ImageFrame(c, Ack(Move(Keep(c, instance), CommitImage), true).cell)
  {
  }

  lemma ImageAnswerKeeps(c: Cell, pon: nat, sn: nat, q: Request, crc: string -> nat)
    requires ImageRequest(q)
    ensures ImageFrame(c, Answer(c, pon, sn, q, crc).cell)
  {
    hide Accept;
    hide AnswerSection;
    hide Swap;
    hide Keep;
    hide AnswerEnd;
    match q
    case StartDownload(sections, ok) =>
    case Section(data) => SectionKeeps(c, data, true);
    case SectionWithResponse(data, ok) => SectionKeeps(c, data, ok);
    case EndDownload(end, ok) => EndKeeps(c, end, ok, crc);
    case ActivateSoftware(instance, ok) => SwapKeeps(c, instance);
    case CommitSoftware(instance, ok) => SwapKeeps(c, instance);
  }

  lemma PortAnswerKeeps(c: Cell, pon: nat, sn: nat, q: Request, crc: string -> nat)
    requires q.SetPort?
    ensures OmciFrame(c, Answer(c, pon, sn, q, crc).cell)
  {
  }

  lemma TableAnswerKeeps(c: Cell, k: AllocKey, sn: nat, allocId: nat, gem: Option<nat>, ok: bool)
    ensures var c' := AnswerTCont(c, k, sn, allocId, ok).cell; OmciFrame(c, c') && SameChannel(c.onu, c'.onu)
    ensures var c' := AnswerCreate(c, sn, gem, ok).cell; OmciFrame(c, c') && SameChannel(c.onu, c'.onu)
  {
  }

  lemma ConfigAnswerKeeps(c: Cell, pon: nat, sn: nat, q: Request, crc: string -> nat)
    requires !ImageRequest(q)
    ensures OmciFrame(c, Answer(c, pon, sn, q, crc).cell)
    ensures !q.SetPort? ==> SameChannel(c.onu, Answer(c, pon, sn, q, crc).cell.onu)
  {
    hide DropSn;
    hide SetPortState;
    hide AnswerTCont;
    hide AnswerCreate;
    match q
    case SetPort(port, lock, ok) => PortAnswerKeeps(c, pon, sn, q, crc);
    case SetTCont(entity, allocId, ok) => TableAnswerKeeps(c, AllocKey(pon, c.onu.id, entity), sn, allocId, None, ok);
    case Create(gem, ok) => TableAnswerKeeps(c, AllocKey(pon, 0, 0), sn, 0, gem, ok);
    case _ =>
  }

  /** An OMCI request never moves an ONU out of the active states, nor changes its id, flows or ONU-id entry. */
  lemma OmciKeeps(c: Cell, pon: nat, sn: nat, q: Request, rate: nat, crc: string -> nat)
    ensures OmciFrame(c, HandleOmci(c, pon, sn, q, rate, crc).cell)
    ensures !q.SetPort? ==> SameChannel(c.onu, HandleOmci(c, pon, sn, q, rate, crc).cell.onu)
  {
    var c1 := c.(onu := c.onu.(omci := c.onu.omci.(counter := NextCounter(c.onu.omci.counter))));
    if ImageRequest(q) {
      ImageAnswerKeeps(c1, pon, sn, q, crc);
    } else {
      ConfigAnswerKeeps(c1, pon, sn, q, crc);
    }
  }

  // What it does to the OMCI state

  /** A request that is not about a software image changes no more than these. */
  ghost predicate OnlyMds(m: Omci, m': Omci) {
    m' == m.(mds := m'.mds, adminLock := m'.adminLock)
  }

  lemma PortAnswerOmci(c: Cell, pon: nat, sn: nat, q: Request, crc: string -> nat)
    requires q.SetPort?
    ensures OnlyMds(c.onu.omci, Answer(c, pon, sn, q, crc).cell.onu.omci)
  {
  }

  lemma TableAnswerOmci(c: Cell, k: AllocKey, sn: nat, allocId: nat, gem: Option<nat>, ok: bool)
    ensures OnlyMds(c.onu.omci, AnswerTCont(c, k, sn, allocId, ok).cell.onu.omci)
    ensures OnlyMds(c.onu.omci, AnswerCreate(c, sn, gem, ok).cell.onu.omci)
  {
  }

  lemma ConfigAnswerOmci(c: Cell, pon: nat, sn: nat, q: Request, crc: string -> nat)
    requires !ImageRequest(q)
    ensures OnlyMds(c.onu.omci, Answer(c, pon, sn, q, crc).cell.onu.omci)
  {
    hide DropSn;
    hide SetPortState;
    hide AnswerTCont;
    hide AnswerCreate;
    match q
    case SetPort(port, lock, ok) => PortAnswerOmci(c, pon, sn, q, crc);
    case SetTCont(entity, allocId, ok) => TableAnswerOmci(c, AllocKey(pon, c.onu.id, entity), sn, allocId, None, ok);
    case Create(gem, ok) => TableAnswerOmci(c, AllocKey(pon, 0, 0), sn, 0, gem, ok);
    case _ =>
  }

  lemma EndKeepsCounter(c: Cell, end: Option<ImageEnd>, ok: bool, crc: string -> nat)
    ensures AnswerEnd(c, end, ok, crc).cell.onu.omci.counter == c.onu.omci.counter
  {
    hide JudgeEnd;
  }

  /** The request counter is left to handleOmciRequest itself. */
  lemma AnswerKeepsCounter(c: Cell, pon: nat, sn: nat, q: Request, crc: string -> nat)
    ensures Answer(c, pon, sn, q, crc).cell.onu.omci.counter == c.onu.omci.counter
  {
    hide DropSn;
    hide AnswerEnd;
    if q.EndDownload? { EndKeepsCounter(c, q.end, q.ok, crc); }
  }
}
