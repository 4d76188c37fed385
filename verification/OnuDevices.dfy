/**
  PON ports and ONUs as the objects of the program.  Every method is tied to the step of
  OnuModel or DeviceModel it carries out: the value of the objects afterwards is that step
  applied to their value before.
 */
module OnuDevices {
  import opened Basics
  import opened FlowTables
  import opened OnuFsm
  import opened OnuModel
  import opened DeviceModel

  lemma FindOnuIs(onus: seq<Onu>, i: nat, id: nat)
    requires i <= |onus| && (i < |onus| ==> onus[i].id == id)
    requires forall j: nat | j < i :: onus[j].id != id
    ensures FindOnu(onus, id) == i
  {
  }

  lemma {:induction false} RemoveFirstAt(s: seq<nat>, x: nat, i: nat)
    requires i < |s| && s[i] == x && x !in s[..i]
    ensures RemoveFirst(s, x) == s[..i] + s[i + 1..]
  {
    if i > 0 {
      assert s[1..][..i - 1] == s[..i][1..];
      RemoveFirstAt(s[1..], x, i - 1);
      assert s[1..][i..] == s[i + 1..];
    }
  }

  class PonPort {
    const id: nat
    var state: PonState
    var onus: seq<OnuDevice>
    var onuIds: map<nat, nat>
    var gemPorts: map<nat, nat>
    var allocIds: map<AllocKey, AllocVal>

    /** The ONUs know their PON port and their place on it; so no ONU is listed twice. */
    ghost predicate Valid()
      reads this
    {
      forall i: nat | i < |onus| :: onus[i].pon == this && onus[i].sn == i
    }

    ghost function Tables(): PonTables
      reads this
    {
      PonTables(onuIds, gemPorts, allocIds)
    }

    ghost function OnuValues(): (r: seq<Onu>)
      reads this, onus
      ensures |r| == |onus|
    {
      seq(|onus|, i requires 0 <= i < |onus| reads this, onus => onus[i].Abs())
    }

    ghost function Abs(): Pon
      reads this, onus
    {
      Pon(state, OnuValues(), Tables())
    }

    /** CreatePonPort and the loop that creates its ONUs. */
    constructor (id: nat, numOnu: nat, ports: nat)
      ensures Valid() && fresh(onus) && this.id == id && Abs() == NewPon(numOnu, ports)
    {
      this.id, state, onus, onuIds, gemPorts, allocIds := id, PonCreated, [], map[], map[], map[];
      new;
      for j := 0 to numOnu
        invariant |onus| == j && fresh(onus) && Valid() && state == PonCreated && Tables() == EMPTY_TABLES
        invariant forall i: nat | i < j :: onus[i].Abs() == NewOnu(i + 1, ports)
      {
        var onu := new OnuDevice(this, j, j + 1, ports);
        onus := onus + [onu];
      }
      assert OnuValues() == NewPon(numOnu, ports).onus;
    }

    // The allocation tables ---------------------------------------------------

    method RemoveGemPortBySn(sn: nat)
      modifies this`gemPorts
      ensures gemPorts == map g | g in old(gemPorts) && old(gemPorts)[g] != sn :: old(gemPorts)[g]
    {
      var todo := gemPorts.Keys;
      while todo != {}
        invariant todo <= old(gemPorts.Keys)
        invariant forall g: nat :: g in gemPorts <==> g in old(gemPorts) && (g in todo || old(gemPorts)[g] != sn)
        invariant forall g: nat :: g in gemPorts ==> gemPorts[g] == old(gemPorts)[g]
        decreases |todo|
      {
        var g :| g in todo;
        if gemPorts[g] == sn {
          gemPorts := gemPorts - {g};
        }
        todo := todo - {g};
      }
    }

    method RemoveAllocIdsForOnuSn(sn: nat)
      modifies this`allocIds
      ensures allocIds == map k | k in old(allocIds) && old(allocIds)[k].sn != sn :: old(allocIds)[k]
    {
      var todo := allocIds.Keys;
      while todo != {}
        invariant todo <= old(allocIds.Keys)
        invariant forall k: AllocKey ::
                    k in allocIds <==> k in old(allocIds) && (k in todo || old(allocIds)[k].sn != sn)
        invariant forall k: AllocKey :: k in allocIds ==> allocIds[k] == old(allocIds)[k]
        decreases |todo|
      {
        var k :| k in todo;
        if allocIds[k].sn == sn {
          allocIds := allocIds - {k};
        }
        todo := todo - {k};
      }
    }

    /** removeAllAllocIds, removeAllGemPorts and removeAllOnuIds. */
    method RemoveAll()
      requires Valid()
      modifies this`onuIds, this`gemPorts, this`allocIds
      ensures Valid() && Abs() == old(Abs()).(tables := EMPTY_TABLES)
    {
      allocIds := map[];
      gemPorts := map[];
      onuIds := map[];
      assert OnuValues() == old(OnuValues());
    }

    // Look-ups and cascades ---------------------------------------------------

    method GetOnuById(id: nat) returns (i: nat)
      ensures i == FindOnu(OnuValues(), id)
    {
      i := 0;
      while i < |onus|
        invariant i <= |onus| && forall j: nat | j < i :: onus[j].id != id
      {
        if onus[i].id == id {
          break;
        }
        i := i + 1;
      }
      FindOnuIs(OnuValues(), i, id);
    }

    /** An event of one ONU, seen from its PON port. */
    method FireOnu(i: nat, e: OnuEvent)
      requires Valid() && i < |onus|
      modifies onus[i], this`onuIds, this`gemPorts, this`allocIds
      ensures Valid() && Abs() == PutCell(old(Abs()), i, Fire(CellAt(old(Abs()), i), i, e))
    {
      onus[i].FireEvent(e);
      assert OnuValues() == old(OnuValues())[i := onus[i].Abs()];
    }

    /** SetID and the enable event in ActivateOnu. */
    method ActivateAt(i: nat, onuId: nat)
      requires Valid() && i < |onus|
      modifies onus[i], this`onuIds, this`gemPorts, this`allocIds
      ensures Valid() && Abs() == PutCell(old(Abs()), i, ActivateCell(CellAt(old(Abs()), i), i, onuId))
    {
      hide Fire;
      onus[i].id := onuId;
      onus[i].FireEvent(OnuEvent.Enable);
      assert OnuValues() == old(OnuValues())[i := onus[i].Abs()];
    }

    method Raise(i: nat, mode: Mode, src: PonState)
      requires Valid() && i < |onus|
      modifies onus[i], this`onuIds, this`gemPorts, this`allocIds
      ensures Valid() && Abs() == PutCell(old(Abs()), i, RaiseOnu(CellAt(old(Abs()), i), i, mode, src))
    {
      hide Fire;
      var onu := onus[i];
      if src.PonCreated? {
        if (mode.Default? || mode.OnlyPon?) && Allowed(onu.state, Initialize) {
          FireOnu(i, Initialize);
          FireOnu(i, Discover);
        }
      } else if mode.OnlyOnu? || mode.Both? {
        FireOnu(i, Initialize);
      } else if onu.state.PonDisabled? {
        FireOnu(i, OnuEvent.Enable);
      } else if onu.state.Disabled? {
        FireOnu(i, Initialize);
        FireOnu(i, Discover);
      } else if onu.state.Initialized? {
        FireOnu(i, Discover);
      }
      assert old(Abs()).onus[i] == old(onu.Abs());
    }

    method Lower(i: nat)
      requires Valid() && i < |onus|
      modifies onus[i], this`onuIds, this`gemPorts, this`allocIds
      ensures Valid() && Abs() == PutCell(old(Abs()), i, LowerOnu(CellAt(old(Abs()), i), i))
    {
      if onus[i].state.Initialized? || onus[i].state.Disabled? {
        assert Abs().onus == old(Abs()).onus[i := old(Abs()).onus[i]];
        return;
      }
      FireOnu(i, PonDisable);
    }

    /** The enable event of the PON and its callback. */
    method Enable(mode: Mode)
      requires Valid()
      modifies this, onus
      ensures Valid() && onus == old(onus) && Abs() == EnablePon(old(Abs()), mode)
    {
      if state.PonEnabled? {
        return;
      }
      var src := state;
      state := PonEnabled;
      ghost var before := Abs();
      assert before.onus == old(OnuValues());
      for i := 0 to |onus|
        invariant Valid() && onus == old(onus) && Abs() == RaiseOnus(before, mode, src, i)
      {
        Raise(i, mode, src);
      }
    }

    method Disable()
      requires Valid()
      modifies this, onus
      ensures Valid() && onus == old(onus) && Abs() == DisablePon(old(Abs()))
    {
      if !state.PonEnabled? {
        return;
      }
      state := PonDown;
      ghost var before := Abs();
      assert before.onus == old(OnuValues());
      for i := 0 to |onus|
        invariant Valid() && onus == old(onus) && Abs() == LowerOnus(before, i)
      {
        Lower(i);
      }
    }
  }

  class OnuDevice {
    const pon: PonPort
    const sn: nat
    var id: nat
    var state: OnuState
    var flows: seq<nat>
    var flowIds: seq<nat>
    var channel: Channel
    var ports: seq<bool>
    var mibDataSync: nat
    var omciMsgCounter: nat
    var adminLockState: nat
    var expectedSections: nat
    var receivedSections: nat
    var imageSectionData: string
    var inDownloadImageVersion: string
    var activeImageEntityId: nat
    var committedImageEntityId: nat
    var standbyImageVersion: string
    var activeImageVersion: string
    var committedImageVersion: string
    var channelFault: bool
    var portFault: bool
    var dataFault: bool

    ghost function OmciValue(): Omci
      reads this
    {
      Omci(mibDataSync, omciMsgCounter, adminLockState, expectedSections, receivedSections,
           imageSectionData, inDownloadImageVersion, activeImageEntityId, committedImageEntityId,
           standbyImageVersion, activeImageVersion, committedImageVersion)
    }

    ghost function Abs(): Onu
      reads this
    {
      Onu(id, state, flows, flowIds, channel, ports, OmciValue(), channelFault, portFault, dataFault)
    }

    ghost function CellValue(): Cell
      reads this, pon
    {
      Cell(Abs(), pon.Tables())
    }

    constructor (pon: PonPort, sn: nat, id: nat, numPorts: nat)
      ensures this.pon == pon && this.sn == sn && Abs() == NewOnu(id, numPorts)
    {
      this.pon, this.sn, this.id := pon, sn, id;
      state, flows, flowIds, channel := OnuState.Created, [], [], NoChannel;
      ports := seq(numPorts, i => false);
      mibDataSync, omciMsgCounter, adminLockState, expectedSections, receivedSections := 0, 0, 0, 0, 0;
      imageSectionData, inDownloadImageVersion, activeImageEntityId, committedImageEntityId := "", "", 0, 0;
      standbyImageVersion, activeImageVersion, committedImageVersion :=
        "BBSM_IMG_00000", "BBSM_IMG_00001", "BBSM_IMG_00001";
      channelFault, portFault, dataFault := false, false, false;
    }

    // The channel and the ports -----------------------------------------------

    method SendMessage(m: Message)
      modifies this`channel, this`channelFault
      ensures Abs() == Send(old(Abs()), m)
    {
      if channel.Channel? {
        if channel.closed {
          channelFault := true;
        } else {
          channel := channel.(queue := channel.queue + [m]);
        }
      }
    }

    method CloseChannel()
      modifies this`channel, this`channelFault
      ensures Abs() == Close(old(Abs()))
    {
      if channel.NoChannel? || channel.closed {
        channelFault := true;
      } else {
        channel := channel.(closed := true);
      }
    }

    /** The status message of a port. */
    method ReportPort()
      modifies this`channel, this`portFault
      ensures Abs() == Report(old(Abs()))
    {
      if channel.Channel? {
        if channel.closed {
          portFault := true;
        } else {
          channel := channel.(queue := channel.queue + [Indication]);
        }
      }
    }

    /** Enable and Disable of a port. */
    method SetPortUp(port: nat, up: bool)
      requires port < |ports|
      modifies this`ports, this`channel, this`portFault
      ensures Abs() == SetPortState(old(Abs()), port, up)
    {
      if ports[port] != up {
        ports := ports[port := up];
        ReportPort();
      }
    }

    // The state machine -------------------------------------------------------

    method CleanupOnuState()
      modifies this`flows, pon`onuIds, pon`gemPorts, pon`allocIds
      ensures CellValue() == Cleanup(old(CellValue()), sn)
    {
      flows := [];
      pon.onuIds := pon.onuIds - {id};
      pon.RemoveAllocIdsForOnuSn(sn);
      pon.RemoveGemPortBySn(sn);
    }

    method EnterDisabled()
      requires state.Disabled?
      modifies this, pon`onuIds, pon`gemPorts, pon`allocIds
      ensures CellValue() == Enter(old(CellValue()), sn)
    {
      hide OmciValue;
      hide DropSn;
      CleanupOnuState();
      SendMessage(Indication);
      ghost var before := CellValue();
      for i := 0 to |ports|
        invariant |ports| == |before.onu.ports|
        invariant CellValue() == before.(onu := PortsDown(before.onu, i))
      {
        SetPortUp(i, false);
      }
      if |flowIds| == 0 {
        CloseChannel();
      }
    }

    method EnterEnabled()
      requires state.Enabled?
      modifies this`channel, this`channelFault, pon`onuIds
      ensures CellValue() == Enter(old(CellValue()), sn)
    {
      if id in pon.onuIds {
        return;
      }
      pon.onuIds := pon.onuIds[id := sn];
      SendMessage(Indication);
    }

    /** InternalState.Event. */
    method FireEvent(e: OnuEvent)
      modifies this, pon`onuIds, pon`gemPorts, pon`allocIds
      ensures CellValue() == Fire(old(CellValue()), sn, e)
    {
      hide PortsDown;
      hide DropSn;
      if !Allowed(state, e) {
        return;
      }
      state := Target(e);
      match state {
        case Initialized => channel := Channel([], false);
        case Discovered => SendMessage(Indication);
        case Enabled => EnterEnabled();
        case Disabled => EnterDisabled();
        case PonDisabled => CleanupOnuState();
        case _ =>
      }
    }

    method HandleShutdownONU()
      modifies this, pon`onuIds, pon`gemPorts, pon`allocIds
      ensures CellValue() == Shutdown(old(CellValue()), sn)
    {
      if !state.Disabled? {
        SendMessage(Indication);
      }
      FireEvent(OnuEvent.Disable);
    }

    method HandlePowerOnONU()
      modifies this, pon`onuIds, pon`gemPorts, pon`allocIds
      ensures CellValue() == PowerOn(old(CellValue()), sn)
    {
      var was := state;
      if was.Created? || was.Disabled? {
        FireEvent(Initialize);
      }
      SendMessage(Indication);
      if !Allowed(state, Discover) {
        return;
      }
      FireEvent(Discover);
      if was.Disabled? {
        FireEvent(OnuEvent.Enable);
      }
    }

    method ReDiscoverOnu()
      modifies this, pon`onuIds, pon`gemPorts, pon`allocIds
      ensures CellValue() == Rediscover(old(CellValue()), sn)
    {
      if state.Discovered? {
        SendMessage(Indication);
        return;
      }
      FireEvent(Initialize);
      FireEvent(Discover);
    }

    // OMCI --------------------------------------------------------------------

    /** The MIB data sync is a uint8. */
    method Acknowledge(ok: bool) returns (reply: Reply)
      modifies this`mibDataSync
      ensures Handled(CellValue(), reply) == Ack(old(CellValue()), ok)
    {
      if ok {
        mibDataSync := (mibDataSync + 1) % 256;
        return Acked;
      }
      reply := Silent;
    }

    /** The events of a software download have no callback. */
    method FireImageEvent(e: OnuEvent)
      modifies this`state
      ensures CellValue() == Move(old(CellValue()), e)
    {
      if Allowed(state, e) {
        state := Target(e);
      }
    }

    method HandleMibReset(ok: bool, ghost crc: string -> nat) returns (reply: Reply)
      modifies this`mibDataSync, pon`gemPorts, pon`allocIds
      ensures Handled(CellValue(), reply) == Answer(old(CellValue()), pon.id, sn, MibReset(ok), crc)
    {
      if !ok {
        return Silent;
      }
      mibDataSync := 0;
      pon.RemoveAllocIdsForOnuSn(sn);
      pon.RemoveGemPortBySn(sn);
      reply := Acked;
    }

    method HandleSetTCont(entity: nat, allocId: nat, ok: bool) returns (reply: Reply)
      modifies this`mibDataSync, pon`allocIds
      ensures Handled(CellValue(), reply) ==
                AnswerTCont(old(CellValue()), AllocKey(pon.id, id, entity), sn, allocId, ok)
    {
      var key := AllocKey(pon.id, id, entity);
      if allocId == 255 || allocId == 65535 {
        pon.allocIds := pon.allocIds - {key};
      } else if key in pon.allocIds {
        return Refused;
      } else {
        pon.allocIds := pon.allocIds[key := AllocVal(sn, allocId)];
      }
      reply := Acknowledge(ok);
    }

    method HandleCreate(gem: Option<nat>, ok: bool) returns (reply: Reply)
      modifies this`mibDataSync, pon`gemPorts
      ensures Handled(CellValue(), reply) == AnswerCreate(old(CellValue()), sn, gem, ok)
    {
      if gem.Some? && gem.value != MULTICAST_GEM {
        if gem.value in pon.gemPorts {
          return Refused;
        }
        pon.gemPorts := pon.gemPorts[gem.value := sn];
      }
      reply := Acknowledge(ok);
    }

    method HandleDelete(gem: Option<nat>, ok: bool, ghost crc: string -> nat) returns (reply: Reply)
      modifies this`mibDataSync, pon`gemPorts
      ensures Handled(CellValue(), reply) == Answer(old(CellValue()), pon.id, sn, Delete(gem, ok), crc)
    {
      if gem.Some? {
        pon.gemPorts := pon.gemPorts - {gem.value};
      }
      reply := Acknowledge(ok);
    }

    method HandleSetPort(port: nat, lock: bool, ok: bool, ghost crc: string -> nat) returns (reply: Reply)
      modifies this`mibDataSync, this`ports, this`channel, this`portFault
      ensures Handled(CellValue(), reply) == Answer(old(CellValue()), pon.id, sn, SetPort(port, lock, ok), crc)
    {
      if port >= |ports| {
        return Refused;
      }
      SetPortUp(port, !lock);
      reply := Acknowledge(ok);
    }

    method BeginImage(sections: nat)
      modifies this`receivedSections, this`imageSectionData, this`expectedSections
      ensures var m := old(OmciValue()).(received := 0, data := "", expected := sections);
              CellValue() == old(CellValue()).(onu := old(Abs()).(omci := m))
    {
      receivedSections := 0;
      imageSectionData := "";
      expectedSections := sections;
    }

    method HandleStartDownload(sections: nat, ok: bool, ghost crc: string -> nat) returns (reply: Reply)
      modifies this`receivedSections, this`imageSectionData, this`expectedSections, this`mibDataSync, this`state
      ensures Handled(CellValue(), reply) == Answer(old(CellValue()), pon.id, sn, StartDownload(sections, ok), crc)
    {
      BeginImage(sections);
      if !ok {
        return Silent;
      }
      reply := Acknowledge(true);
      FireImageEvent(StartImage);
    }

    method AppendSection(sectionData: string)
      modifies this`imageSectionData, this`receivedSections
      ensures OmciValue() ==
                old(OmciValue()).(data := old(imageSectionData) + sectionData,
                                  received := (old(receivedSections) + 1) % TWO_32)
    {
      imageSectionData := imageSectionData + sectionData;
      receivedSections := (receivedSections + 1) % TWO_32;
    }

    method HandleSection(sectionData: string)
      modifies this`inDownloadImageVersion, this`imageSectionData, this`receivedSections, this`state, this`dataFault
      ensures CellValue() == Accept(old(CellValue()), sectionData)
    {
      if receivedSections == 0 {
        if |sectionData| < 14 {
          dataFault := true;
          return;
        }
        inDownloadImageVersion := sectionData[..14];
      }
      AppendSection(sectionData);
      if !state.DownloadInProgress? {
        FireImageEvent(ProgressImage);
      }
    }

    method HandleSectionWithResponse(sectionData: Option<string>, ok: bool) returns (reply: Reply)
      modifies this
      ensures Handled(CellValue(), reply) == AnswerSection(old(CellValue()), sectionData, ok)
    {
      if sectionData.None? {
        return Silent;
      }
      imageSectionData := imageSectionData + sectionData.value;
      if !ok {
        return Silent;
      }
      receivedSections := (receivedSections + 1) % TWO_32;
      reply := Acked;
    }

    /** handleEndSoftwareDownloadRequest on a parsed request. */
    method CheckEndDownload(end: ImageEnd, crc: string -> nat) returns (success: bool, panics: bool)
      modifies this`receivedSections, this`dataFault, this`standbyImageVersion
      ensures var verdict := old(JudgeEnd(OmciValue(), end, crc));
              (success <==> verdict.Aborted? || verdict.Verified?) && (panics <==> verdict.Overrun?)
      ensures var c, m := old(CellValue()), old(OmciValue());
              CellValue() ==
                match old(JudgeEnd(OmciValue(), end, crc))
                case Aborted => c.(onu := c.onu.(omci := m.(received := 0)))
                case Overrun => c.(onu := c.onu.(dataFault := true))
                case Verified => c.(onu := c.onu.(omci := m.(standby := m.inDownload)))
                case _ => c
    {
      if receivedSections > 0 && end.size == 0 && end.crc == 0xFFFF_FFFF {
        receivedSections := 0;
        return true, false;
      }
      if expectedSections != receivedSections {
        return false, false;
      }
      if end.size > |imageSectionData| {
        dataFault := true;
        return false, true;
      }
      if end.crc != crc(imageSectionData[..end.size]) {
        return false, false;
      }
      standbyImageVersion := inDownloadImageVersion;
      success, panics := true, false;
    }

    method HandleEndDownload(end: Option<ImageEnd>, ok: bool, crc: string -> nat) returns (reply: Reply)
      modifies this`receivedSections, this`dataFault, this`standbyImageVersion, this`state, this`mibDataSync
      ensures Handled(CellValue(), reply) == AnswerEnd(old(CellValue()), end, ok, crc)
    {
      var success, panics := false, false;
      if end.Some? {
        success, panics := CheckEndDownload(end.value, crc);
      }
      if panics || !ok {
        return Silent;
      }
      if success {
        reply := Acknowledge(true);
        FireImageEvent(CompleteImage);
      } else {
        FireImageEvent(FailImage);
        reply := Refused;
      }
    }

    method SwapImages(instance: Option<nat>)
      modifies this`activeImageEntityId, this`activeImageVersion, this`standbyImageVersion
      ensures CellValue() == Swap(old(CellValue()), instance)
    {
      if instance.Some? {
        activeImageEntityId := instance.value;
        var previousActiveImage := activeImageVersion;
        activeImageVersion := standbyImageVersion;
        standbyImageVersion := previousActiveImage;
      }
    }

    method HandleActivate(instance: Option<nat>, ok: bool, ghost crc: string -> nat) returns (reply: Reply)
      modifies this`mibDataSync, this`state
      modifies this`activeImageEntityId, this`activeImageVersion, this`standbyImageVersion
      ensures Handled(CellValue(), reply) == Answer(old(CellValue()), pon.id, sn, ActivateSoftware(instance, ok), crc)
    {
      if !ok {
        return Silent;
      }
      reply := Acknowledge(true);
      FireImageEvent(ActivateImage);
      SwapImages(instance);
    }

    method CommitImages(instance: Option<nat>)
      modifies this`activeImageEntityId, this`committedImageEntityId
      modifies this`standbyImageVersion, this`committedImageVersion
      ensures CellValue() == Keep(old(CellValue()), instance)
    {
      if instance.Some? {
        activeImageEntityId := instance.value;
        committedImageEntityId := instance.value;
        standbyImageVersion := committedImageVersion;
        committedImageVersion := activeImageVersion;
      }
    }

    method HandleCommit(instance: Option<nat>, ok: bool, ghost crc: string -> nat) returns (reply: Reply)
      modifies this`mibDataSync, this`state, this`activeImageEntityId, this`committedImageEntityId
      modifies this`standbyImageVersion, this`committedImageVersion
      ensures Handled(CellValue(), reply) == Answer(old(CellValue()), pon.id, sn, CommitSoftware(instance, ok), crc)
    {
      if !ok {
        return Silent;
      }
      reply := Acknowledge(true);
      CommitImages(instance);
      FireImageEvent(CommitImage);
    }

    method AnswerImageRequest(q: Request, crc: string -> nat) returns (reply: Reply)
      requires ImageRequest(q)
      modifies this
      ensures Handled(CellValue(), reply) == Answer(old(CellValue()), pon.id, sn, q, crc)
    {
      hide AnswerEnd;
      hide AnswerSection;
      hide Accept;
      hide Swap;
      hide Keep;
      hide Ack;
      hide Move;
      match q {
        case StartDownload(sections, ok) => reply := HandleStartDownload(sections, ok, crc);
        case Section(sectionData) => {
          if sectionData.Some? {
            HandleSection(sectionData.value);
          }
          reply := Silent;
        }
        case SectionWithResponse(sectionData, ok) => reply := HandleSectionWithResponse(sectionData, ok);
        case EndDownload(end, ok) => reply := HandleEndDownload(end, ok, crc);
        case ActivateSoftware(instance, ok) => reply := HandleActivate(instance, ok, crc);
        case CommitSoftware(instance, ok) => reply := HandleCommit(instance, ok, crc);
      }
    }

    method AnswerConfigRequest(q: Request, ghost crc: string -> nat) returns (reply: Reply)
      requires !ImageRequest(q)
      modifies this, pon`gemPorts, pon`allocIds
      ensures Handled(CellValue(), reply) == Answer(old(CellValue()), pon.id, sn, q, crc)
    {
      hide Answer;
      if q.SetPort? || q.SetOnuG? || q.SetTCont? || q.SetOther? {
        reply := HandleSetRequest(q, crc);
      } else {
        reply := AnswerTableRequest(q, crc);
      }
    }

    method AnswerTableRequest(q: Request, ghost crc: string -> nat) returns (reply: Reply)
      requires q.MibReset? || q.Create? || q.Delete? || q.Read?
      modifies this, pon`gemPorts, pon`allocIds
      ensures Handled(CellValue(), reply) == Answer(old(CellValue()), pon.id, sn, q, crc)
    {
      hide AnswerCreate;
      hide DropSn;
      hide Ack;
      match q {
        case MibReset(ok) => reply := HandleMibReset(ok, crc);
        case Create(gem, ok) => reply := HandleCreate(gem, ok);
        case Delete(gem, ok) => reply := HandleDelete(gem, ok, crc);
        case Read => reply := Silent;
      }
    }

    /** The switch on the class of the managed entity that is set. */
    method HandleSetRequest(q: Request, ghost crc: string -> nat) returns (reply: Reply)
      requires q.SetPort? || q.SetOnuG? || q.SetTCont? || q.SetOther?
      modifies this, pon`gemPorts, pon`allocIds
      ensures Handled(CellValue(), reply) == Answer(old(CellValue()), pon.id, sn, q, crc)
    {
      hide AnswerTCont;
      hide SetPortState;
      hide Ack;
      match q {
        case SetPort(port, lock, ok) => reply := HandleSetPort(port, lock, ok, crc);
        case SetOnuG(lockState, ok) => {
          adminLockState := lockState;
          reply := Acknowledge(ok);
        }
        case SetTCont(entity, allocId, ok) => reply := HandleSetTCont(entity, allocId, ok);
        case SetOther(ok) => reply := Acknowledge(ok);
      }
    }

    /** The switch on the type of the request. */
    method AnswerRequest(q: Request, crc: string -> nat) returns (reply: Reply)
      modifies this, pon`gemPorts, pon`allocIds
      ensures Handled(CellValue(), reply) == Answer(old(CellValue()), pon.id, sn, q, crc)
    {
      hide Answer;
      if ImageRequest(q) {
        reply := AnswerImageRequest(q, crc);
      } else {
        reply := AnswerConfigRequest(q, crc);
      }
    }

    method CountRequest()
      modifies this`omciMsgCounter
      ensures var m := old(OmciValue()).(counter := NextCounter(old(omciMsgCounter)));
              CellValue() == old(CellValue()).(onu := old(Abs()).(omci := m))
    {
      if omciMsgCounter < MAX_OMCI_MSG_COUNTER {
        omciMsgCounter := omciMsgCounter + 1;
      } else {
        omciMsgCounter := 1;
      }
    }

    method HandleOmciRequest(q: Request, rate: nat, crc: string -> nat) returns (reply: Reply)
      modifies this, pon`gemPorts, pon`allocIds
      ensures Handled(CellValue(), reply) == HandleOmci(old(CellValue()), pon.id, sn, q, rate, crc)
    {
      CountRequest();
      if omciMsgCounter > rate {
        return Silent;
      }
      reply := AnswerRequest(q, crc);
    }

    /** r is the random number below 10. */
    method InvalidateMibDataSync(r: nat)
      modifies this`mibDataSync
      ensures Abs() == old(Abs()).(omci := Invalidate(old(OmciValue()), r))
    {
      mibDataSync := (mibDataSync + (r % 10 + 1)) % 256;
      if mibDataSync == 0 {
        mibDataSync := 1;
      }
    }

    // Messages ----------------------------------------------------------------

    /** The loop that drops the first occurrence of an element. */
    static method DropFirst(s: seq<nat>, x: nat) returns (r: seq<nat>)
      ensures r == RemoveFirst(s, x)
    {
      var idx := 0;
      while idx < |s|
        invariant idx <= |s| && x !in s[..idx]
      {
        if s[idx] == x {
          RemoveFirstAt(s, x, idx);
          return s[..idx] + s[idx + 1..];
        }
        idx := idx + 1;
      }
      assert s[..idx] == s;
      r := s;
    }

    method DeleteFlowKey(key: nat)
      modifies this`flows
      ensures Abs() == old(Abs()).(flows := RemoveFirst(old(flows), key))
    {
      flows := DropFirst(flows, key);
    }

    method HandleFlowRemove(flowId: nat, ghost rate: nat, ghost crc: string -> nat)
      modifies this
      ensures CellValue() == HandleMessage(old(CellValue()), pon.id, sn, RemoveFlow(flowId), rate, crc)
    {
      flowIds := DropFirst(flowIds, flowId);
      if |flowIds| == 0 {
        if state.Disabled? {
          CloseChannel();
        }
      }
    }

    /** One round of the loop of ProcessOnuMessages. */
    method ProcessMessage(rate: nat, crc: string -> nat)
      modifies this, pon`gemPorts, pon`allocIds
      ensures CellValue() == Process(old(CellValue()), pon.id, sn, rate, crc)
    {
      if channel.NoChannel? || channel.queue == [] {
        return;
      }
      var m := channel.queue[0];
      channel := channel.(queue := channel.queue[1..]);
      match m {
        case AddFlow(flow) => flowIds := flowIds + [flow.flowId];
        case RemoveFlow(flowId) => HandleFlowRemove(flowId, rate, crc);
        case OmciRequest(q) => {
          var reply := HandleOmciRequest(q, rate, crc);
        }
        case Indication =>
      }
    }

    // Entry points ------------------------------------------------------------

    /** DeleteOnu, up to the re-discovery. */
    method DeactivateOnu()
      modifies this, pon`onuIds, pon`gemPorts, pon`allocIds
      ensures CellValue() == Deactivate(old(CellValue()), sn)
    {
      if !state.Disabled? {
        FireEvent(OnuEvent.Disable);
      }
    }

    /** OmciMsgOut: nothing is sent to an ONU that is switched off. */
    method ReceiveOmci(q: Request)
      modifies this`channel, this`channelFault
      ensures Abs() == if old(state).Disabled? then old(Abs()) else Send(old(Abs()), OmciRequest(q))
    {
      if !state.Disabled? {
        SendMessage(OmciRequest(q));
      }
    }

    /** OnuPacketOut: a packet is passed on to an enabled ONU only. */
    method ForwardPacket()
      modifies this`channel, this`channelFault
      ensures Abs() == if old(state).Enabled? then Send(old(Abs()), Indication) else old(Abs())
    {
      if state.Enabled? {
        SendMessage(Indication);
      }
    }

    /** The entry points of the device that concern one ONU. */
    method Act(a: OnuAction, oltDeleted: bool, rate: nat, crc: string -> nat)
      modifies this, pon`onuIds, pon`gemPorts, pon`allocIds
      ensures CellValue() == ActOnu(old(CellValue()), pon.id, sn, a, oltDeleted, rate, crc)
    {
      hide Fire;
      hide PowerOn;
      hide Shutdown;
      hide Rediscover;
      hide Deactivate;
      hide Process;
      match a {
        case FireDisable => FireEvent(OnuEvent.Disable);
        case DeleteOnu => DeactivateOnu();
        case DoRediscover => if !oltDeleted { ReDiscoverOnu(); }
        case DoShutdown => HandleShutdownONU();
        case DoPowerOn => if !oltDeleted { HandlePowerOnONU(); }
        case DoProcess => ProcessMessage(rate, crc);
        case InvalidateMds(random) => InvalidateMibDataSync(random);
        case OmciMsgOut(request) => ReceiveOmci(request);
        case PacketOut => ForwardPacket();
      }
    }
  }
}
