/** The inventory tree of the device management interface and the transceivers' plugged-in flags. */
module DmiInventory {
  import opened Basics

  /** Name based UUIDs; different names are taken to have different UUIDs. */
  datatype Uuid = OltUuid | CageUuid(id: nat) | TransUuid(id: nat) | PonUuid(id: nat) | NamedUuid(name: string)

  datatype Class = Undefined | Container | TransceiverKind | Port | Fan | Storage | Cpu | Memory | Sensor | PowerSupply

  datatype Component = Component(uuid: Uuid, cls: Class, children: seq<Component>)

  datatype Pon = Pon(id: nat, xgs: bool)

  datatype Technology = Unknown | Gpon | Xgspon | Combo

  datatype Trans = Trans(id: nat, pons: seq<Pon>, technology: Technology, pluggedIn: bool)

  datatype Dmi = Dmi(root: Option<Component>, transceivers: seq<Trans>)

  datatype Answer =
    | Ok | EmptyName | NotStarted | NoSuchTransceiver | NotPluggedIn | AlreadyPluggedIn | NotInTree | NoCage | NoPons

  // ---------------------------------------------------------------------------
  // Building the tree

  function PortOf(p: Pon): Component {
    Component(PonUuid(p.id), Port, [])
  }

  function TransComponent(t: Trans): Component {
    Component(TransUuid(t.id), TransceiverKind, seq(|t.pons|, i requires 0 <= i < |t.pons| => PortOf(t.pons[i])))
  }

  function TechnologyOf(pons: seq<Pon>): Technology {
    if pons == [] then Unknown
    else if |pons| == 1 then (if pons[0].xgs then Xgspon else Gpon)
    else Combo
  }

  /** createTransceiverComponent also records the technology; it fails without PONs. */
  function Described(t: Trans): Trans {
    if t.pons == [] then t else t.(technology := TechnologyOf(t.pons))
  }

  function Cage(t: Trans): Component {
    Component(CageUuid(t.id), Container, if t.pluggedIn then [TransComponent(t)] else [])
  }

  /** One cage per transceiver, except for one that is plugged in without PONs. */
  function Cages(ts: seq<Trans>): seq<Component> {
    if ts == [] then []
    else
      var t := ts[|ts| - 1];
      Cages(ts[..|ts| - 1]) + (if t.pluggedIn && t.pons == [] then [] else [Cage(t)])
  }

  const OTHERS := [
    Component(NamedUuid("Thermal/Fans/System Fan/1"), Fan, []),
    Component(NamedUuid("Thermal/Fans/System Fan/2"), Fan, []),
    Component(NamedUuid("Systems/1/Disk/0"), Storage, []),
    Component(NamedUuid("Systems/1/Processors/0"), Cpu, []),
    Component(NamedUuid("Systems/1/Memory/0"), Memory, []),
    Component(NamedUuid("Systems/1/Sensor/0"), Sensor, []),
    Component(NamedUuid("Thermal/PSU/SystemPSU/0"), PowerSupply, [])]

  function Root(children: seq<Component>): Component {
    Component(OltUuid, Undefined, children)
  }

  function Rebuilt(ts: seq<Trans>): Component {
    Root(Cages(ts) + OTHERS)
  }

  function StartTrans(t: Trans): Trans {
    if t.pluggedIn then Described(t) else t
  }

  function StartAll(ts: seq<Trans>): seq<Trans> {
    seq(|ts|, i requires 0 <= i < |ts| => StartTrans(ts[i]))
  }

  // ---------------------------------------------------------------------------
  // Searching

  /** The index of the first component with the UUID, or the number of components. */
  function Index(cs: seq<Component>, uuid: Uuid): (i: nat)
    ensures i <= |cs| && (i < |cs| ==> cs[i].uuid == uuid)
    ensures forall j | 0 <= j < i :: cs[j].uuid != uuid
  {
    if cs == [] || cs[0].uuid == uuid then 0 else 1 + Index(cs[1..], uuid)
  }

  predicate HoldsTrans(c: Component, id: nat) {
    c.uuid == CageUuid(id) && Index(c.children, TransUuid(id)) < |c.children|
  }

  function HolderIndex(cs: seq<Component>, id: nat): (i: nat)
    ensures i <= |cs| && (i < |cs| ==> HoldsTrans(cs[i], id))
    ensures forall j | 0 <= j < i :: !HoldsTrans(cs[j], id)
  {
    if cs == [] || HoldsTrans(cs[0], id) then 0 else 1 + HolderIndex(cs[1..], id)
  }

  function TransIndex(ts: seq<Trans>, id: nat): (i: nat)
    ensures i <= |ts| && (i < |ts| ==> ts[i].id == id)
    ensures forall j | 0 <= j < i :: ts[j].id != id
  {
    if ts == [] || ts[0].id == id then 0 else 1 + TransIndex(ts[1..], id)
  }

  /** The components of a forest, each before its children. */
  function PreOrder(l: seq<Component>): seq<Component> {
    if l == [] then [] else [l[0]] + PreOrder(l[0].children) + PreOrder(l[1..])
  }

  function OfType(l: seq<Component>, cls: Class): seq<Component> {
    if l == [] then [] else (if l[0].cls == cls then [l[0]] else []) + OfType(l[1..], cls)
  }

  function FirstWith(l: seq<Component>, uuid: Uuid): Option<Component> {
    if l == [] then None else if l[0].uuid == uuid then Some(l[0]) else FirstWith(l[1..], uuid)
  }

  lemma Regroup(a: seq<Component>, b: seq<Component>, c: seq<Component>)
    ensures (a + b) + c == a + (b + c)
  {
  }

  lemma {:induction false} PreOrderConcat(l: seq<Component>, m: seq<Component>)
    ensures PreOrder(l + m) == PreOrder(l) + PreOrder(m)
    decreases |l|
  {
    if l == [] {
      assert l + m == m;
    } else {
      PreOrderConcat(l[1..], m);
      assert (l + m)[1..] == l[1..] + m && (l + m)[0] == l[0];
      Regroup([l[0]] + PreOrder(l[0].children), PreOrder(l[1..]), PreOrder(m));
    }
  }

  lemma {:induction false} OfTypeConcat(l: seq<Component>, m: seq<Component>, cls: Class)
    ensures OfType(l + m, cls) == OfType(l, cls) + OfType(m, cls)
    decreases |l|
  {
    if l == [] {
      assert l + m == m;
    } else {
      OfTypeConcat(l[1..], m, cls);
      assert (l + m)[1..] == l[1..] + m && (l + m)[0] == l[0];
      Regroup(if l[0].cls == cls then [l[0]] else [], OfType(l[1..], cls), OfType(m, cls));
    }
  }

  lemma {:induction false} FirstWithConcat(l: seq<Component>, m: seq<Component>, uuid: Uuid)
    ensures FirstWith(l + m, uuid) == if FirstWith(l, uuid).Some? then FirstWith(l, uuid) else FirstWith(m, uuid)
    decreases |l|
  {
    if l == [] {
      assert l + m == m;
    } else {
      FirstWithConcat(l[1..], m, uuid);
      assert (l + m)[1..] == l[1..] + m;
    }
  }

  lemma PreOrderPush(l: seq<Component>, i: nat)
    requires i < |l|
    ensures PreOrder(l[..i + 1]) == PreOrder(l[..i]) + [l[i]] + PreOrder(l[i].children)
  {
    assert l[..i + 1] == l[..i] + [l[i]];
    PreOrderConcat(l[..i], [l[i]]);
    assert PreOrder([l[i]]) == [l[i]] + PreOrder(l[i].children) + PreOrder([l[i]][1..]);
    assert [l[i]][1..] == [];
  }

  lemma OfTypePush(l: seq<Component>, i: nat, cls: Class)
    requires i < |l|
    ensures OfType(PreOrder(l[..i + 1]), cls) ==
              OfType(PreOrder(l[..i]), cls) + (if l[i].cls == cls then [l[i]] else []) +
              OfType(PreOrder(l[i].children), cls)
  {
    PreOrderPush(l, i);
    OfTypeConcat(PreOrder(l[..i]) + [l[i]], PreOrder(l[i].children), cls);
    OfTypeConcat(PreOrder(l[..i]), [l[i]], cls);
    assert [l[i]][1..] == [];
  }

  /** findComponents: appends to the collector the components of the type, in pre-order. */
  method FindComponents(l: seq<Component>, cls: Class, collector: seq<Component>) returns (found: seq<Component>)
    ensures found == collector + OfType(PreOrder(l), cls)
    decreases l
  {
    found := collector;
    for i := 0 to |l|
      invariant found == collector + OfType(PreOrder(l[..i]), cls)
    {
      OfTypePush(l, i, cls);
      ghost var here := if l[i].cls == cls then [l[i]] else [];
      if l[i].cls == cls {
        found := found + [l[i]];
      }
      assert found == collector + (OfType(PreOrder(l[..i]), cls) + here);
      found := FindComponents(l[i].children, cls, found);
      Regroup(collector, OfType(PreOrder(l[..i]), cls) + here, OfType(PreOrder(l[i].children), cls));
    }
    assert l[..|l|] == l;
  }

  method FindComponentsOfType(l: seq<Component>, cls: Class) returns (found: seq<Component>)
    ensures found == OfType(PreOrder(l), cls)
  {
    found := FindComponents(l, cls, []);
  }

  /** findComponent: the first component with the UUID in pre-order. */
  method FindComponent(l: seq<Component>, uuid: Uuid) returns (found: Option<Component>)
    ensures found == FirstWith(PreOrder(l), uuid)
    decreases l
  {
    for i := 0 to |l|
      invariant FirstWith(PreOrder(l[..i]), uuid) == None
    {
      FirstWithHead(l, i, uuid);
      if l[i].uuid == uuid {
        return Some(l[i]);
      }
      found := FindComponent(l[i].children, uuid);
      if found.Some? {
        return;
      }
    }
    assert l[..|l|] == l;
    found := None;
  }

  /** The search goes to component i, then to its children, then on. */
  lemma FirstWithHead(l: seq<Component>, i: nat, uuid: Uuid)
    requires i < |l| && FirstWith(PreOrder(l[..i]), uuid) == None
    ensures l[i].uuid == uuid ==> FirstWith(PreOrder(l), uuid) == Some(l[i])
    ensures l[i].uuid != uuid ==>
              FirstWith(PreOrder(l[..i + 1]), uuid) == FirstWith(PreOrder(l[i].children), uuid)
    ensures l[i].uuid != uuid && FirstWith(PreOrder(l[i].children), uuid).Some? ==>
              FirstWith(PreOrder(l), uuid) == FirstWith(PreOrder(l[i].children), uuid)
  {
    PreOrderPush(l, i);
    FirstWithConcat(PreOrder(l[..i]) + [l[i]], PreOrder(l[i].children), uuid);
    FirstWithConcat(PreOrder(l[..i]), [l[i]], uuid);
    assert l == l[..i + 1] + l[i + 1..];
    PreOrderConcat(l[..i + 1], l[i + 1..]);
    FirstWithConcat(PreOrder(l[..i + 1]), PreOrder(l[i + 1..]), uuid);
  }

  // ---------------------------------------------------------------------------
  // The steps

  function StartManaging(d: Dmi, name: string): (Dmi, Answer) {
    if name == "" then (d, EmptyName)
    else (Dmi(Some(Rebuilt(d.transceivers)), StartAll(d.transceivers)), Ok)
  }

  function StopManaging(d: Dmi, name: string): (Dmi, Answer) {
    if name == "" then (d, EmptyName) else (d.(root := None), Ok)
  }

  function Without(cs: seq<Component>, i: nat): seq<Component>
    requires i < |cs|
  {
    cs[..i] + cs[i + 1..]
  }

  function PlugOut(d: Dmi, id: nat): (Dmi, Answer) {
    if d.root.None? then (d, NotStarted)
    else
      var t := TransIndex(d.transceivers, id);
      if t == |d.transceivers| then (d, NoSuchTransceiver)
      else if !d.transceivers[t].pluggedIn then (d, NotPluggedIn)
      else
        var cs := d.root.value.children;
        var c := HolderIndex(cs, id);
        if c == |cs| then (d, NotInTree)
        else
          var cage := cs[c].(children := Without(cs[c].children, Index(cs[c].children, TransUuid(id))));
          (Dmi(Some(d.root.value.(children := cs[c := cage])),
               d.transceivers[t := d.transceivers[t].(pluggedIn := false)]), Ok)
  }

  function PlugIn(d: Dmi, id: nat): (Dmi, Answer) {
    if d.root.None? then (d, NotStarted)
    else
      var t := TransIndex(d.transceivers, id);
      if t == |d.transceivers| then (d, NoSuchTransceiver)
      else if d.transceivers[t].pluggedIn then (d, AlreadyPluggedIn)
      else
        var cs := d.root.value.children;
        var c := Index(cs, CageUuid(id));
        if c == |cs| then (d, NoCage)
        else if d.transceivers[t].pons == [] then (d, NoPons)
        else
          var cage := cs[c].(children := cs[c].children + [TransComponent(d.transceivers[t])]);
          (Dmi(Some(d.root.value.(children := cs[c := cage])),
               d.transceivers[t := Described(d.transceivers[t]).(pluggedIn := true)]), Ok)
  }

  datatype Action = Start(name: string) | Stop(name: string) | Out(id: nat) | In(id: nat)

  function Step(d: Dmi, a: Action): Dmi {
    match a
    case Start(name) => StartManaging(d, name).0
    case Stop(name) => StopManaging(d, name).0
    case Out(id) => PlugOut(d, id).0
    case In(id) => PlugIn(d, id).0
  }

  function Run(d: Dmi, run: seq<Action>): Dmi {
    if run == [] then d else Step(Run(d, run[..|run| - 1]), run[|run| - 1])
  }

  function NewTrans(id: nat, pons: seq<Pon>): Trans {
    Trans(id, pons, Unknown, true)
  }

  // ---------------------------------------------------------------------------
  // Agreement of the tree with the flags

  /** Transceiver ids differ and every transceiver has a PON. */
  predicate WellFormed(ts: seq<Trans>) {
    && (forall a: nat, b: nat | a < b < |ts| :: ts[a].id != ts[b].id)
    && forall a: nat | a < |ts| :: ts[a].pons != []
  }

  predicate Agree(d: Dmi) {
    WellFormed(d.transceivers) && (d.root.Some? ==> d.root.value == Rebuilt(d.transceivers))
  }

  /** One transceiver per PON, with distinct PON ids, before the device is managed. */
  lemma NewAgrees(pons: seq<Pon>, ts: seq<Trans>)
    requires |ts| == |pons| && forall a: nat, b: nat | a < b < |pons| :: pons[a].id != pons[b].id
    requires forall k: nat | k < |pons| :: ts[k] == NewTrans(pons[k].id, [pons[k]])
    ensures Agree(Dmi(None, ts)) && forall k: nat | k < |ts| :: ts[k].pluggedIn
  {
  }

  lemma {:induction false} CagesAt(ts: seq<Trans>)
    requires forall a: nat | a < |ts| :: ts[a].pons != []
    ensures |Cages(ts)| == |ts|
    ensures forall a: nat | a < |ts| :: Cages(ts)[a] == Cage(ts[a])
  {
    if ts != [] {
      CagesAt(ts[..|ts| - 1]);
    }
  }

  lemma StartKeepsCages(ts: seq<Trans>)
    requires WellFormed(ts)
    ensures WellFormed(StartAll(ts)) && Cages(StartAll(ts)) == Cages(ts)
  {
    SameCages(ts, StartAll(ts));
  }

  lemma IndexIs(cs: seq<Component>, t: nat, uuid: Uuid)
    requires t < |cs| && cs[t].uuid == uuid && forall j: nat | j < t :: cs[j].uuid != uuid
    ensures Index(cs, uuid) == t
  {
  }

  lemma TransIndexIs(ts: seq<Trans>, t: nat, id: nat)
    requires t < |ts| && ts[t].id == id && forall j: nat | j < t :: ts[j].id != id
    ensures TransIndex(ts, id) == t
  {
  }

  lemma HolderIs(cs: seq<Component>, t: nat, id: nat)
    requires t < |cs| && HoldsTrans(cs[t], id) && forall j: nat | j < t :: cs[j].uuid != CageUuid(id)
    ensures HolderIndex(cs, id) == t
  {
  }

  /** In the rebuilt tree the cage of a transceiver is where the transceiver is in the list. */
  lemma CageFound(ts: seq<Trans>, t: nat)
    requires WellFormed(ts) && t < |ts|
    ensures |Cages(ts)| == |ts| && Cages(ts)[t] == Cage(ts[t])
    ensures Index(Cages(ts) + OTHERS, CageUuid(ts[t].id)) == t
    ensures ts[t].pluggedIn ==> HolderIndex(Cages(ts) + OTHERS, ts[t].id) == t
  {
    CagesAt(ts);
    var cs, id := Cages(ts) + OTHERS, ts[t].id;
    assert cs[t] == Cage(ts[t]);
    forall j: nat | j < t
      ensures cs[j].uuid != CageUuid(id)
    {
      assert cs[j] == Cage(ts[j]);
    }
    IndexIs(cs, t, CageUuid(id));
    if ts[t].pluggedIn {
      IndexIs(cs[t].children, 0, TransUuid(id));
      HolderIs(cs, t, id);
    }
  }

  lemma FlagUpdates(ts: seq<Trans>, t: nat, t': Trans)
    requires WellFormed(ts) && t < |ts| && t'.id == ts[t].id && t'.pons == ts[t].pons
    ensures WellFormed(ts[t := t'])
    ensures |Cages(ts)| == |ts| && Cages(ts[t := t']) + OTHERS == (Cages(ts) + OTHERS)[t := Cage(t')]
  {
    CagesAt(ts);
    CagesAt(ts[t := t']);
    assert Cages(ts[t := t']) == Cages(ts)[t := Cage(t')];
  }

  /** The transceiver list with one flag changed, and the tree built from it. */
  function Flagged(d: Dmi, t: nat, t': Trans): Dmi
    requires t < |d.transceivers|
  {
    Dmi(Some(Rebuilt(d.transceivers[t := t'])), d.transceivers[t := t'])
  }

  lemma PlugOutRebuilds(d: Dmi, id: nat)
    requires Agree(d) && d.root.Some?
    requires var t := TransIndex(d.transceivers, id); t < |d.transceivers| && d.transceivers[t].pluggedIn
    ensures var t := TransIndex(d.transceivers, id);
            PlugOut(d, id) == (Flagged(d, t, d.transceivers[t].(pluggedIn := false)), Ok)
    ensures WellFormed(PlugOut(d, id).0.transceivers)
  {
    var ts := d.transceivers;
    var t := TransIndex(ts, id);
    CageFound(ts, t);
    FlagUpdates(ts, t, ts[t].(pluggedIn := false));
    var cage := Cages(ts)[t];
    assert Without(cage.children, Index(cage.children, TransUuid(id))) == [];
  }

  lemma PlugInRebuilds(d: Dmi, id: nat)
    requires Agree(d) && d.root.Some?
    requires var t := TransIndex(d.transceivers, id); t < |d.transceivers| && !d.transceivers[t].pluggedIn
    ensures var t := TransIndex(d.transceivers, id);
            PlugIn(d, id) == (Flagged(d, t, Described(d.transceivers[t]).(pluggedIn := true)), Ok)
    ensures WellFormed(PlugIn(d, id).0.transceivers)
  {
    var ts := d.transceivers;
    var t := TransIndex(ts, id);
    CageFound(ts, t);
    var t' := Described(ts[t]).(pluggedIn := true);
    FlagUpdates(ts, t, t');
    assert TransComponent(t') == TransComponent(ts[t]);
    assert Cages(ts)[t].children + [TransComponent(ts[t])] == [TransComponent(t')];
  }

  predicate Known(d: Dmi, id: nat) {
    exists k: nat :: k < |d.transceivers| && d.transceivers[k].id == id
  }

  /** When a transceiver can be plugged out, and that the tree keeps agreeing. */
  lemma PlugOutKeepsAgree(d: Dmi, id: nat)
    requires Agree(d)
    ensures Agree(PlugOut(d, id).0)
    ensures PlugOut(d, id).1 ==
              if d.root.None? then NotStarted
              else if !Known(d, id) then NoSuchTransceiver
              else if d.transceivers[TransIndex(d.transceivers, id)].pluggedIn then Ok
              else NotPluggedIn
  {
    var t := TransIndex(d.transceivers, id);
    if d.root.Some? && t < |d.transceivers| && d.transceivers[t].pluggedIn {
      PlugOutRebuilds(d, id);
    }
  }

  lemma PlugInKeepsAgree(d: Dmi, id: nat)
    requires Agree(d)
    ensures Agree(PlugIn(d, id).0)
    ensures PlugIn(d, id).1 ==
              if d.root.None? then NotStarted
              else if !Known(d, id) then NoSuchTransceiver
              else if d.transceivers[TransIndex(d.transceivers, id)].pluggedIn then AlreadyPluggedIn
              else Ok
  {
    var t := TransIndex(d.transceivers, id);
    if d.root.Some? && t < |d.transceivers| && !d.transceivers[t].pluggedIn {
      PlugInRebuilds(d, id);
    }
  }

  lemma StepKeepsAgree(d: Dmi, a: Action)
    requires Agree(d)
    ensures Agree(Step(d, a))
  {
    match a
    case Start(name) => StartKeepsCages(d.transceivers);
    case Stop(name) =>
    case Out(id) => PlugOutKeepsAgree(d, id);
    case In(id) => PlugInKeepsAgree(d, id);
  }

  /**
    Through any run, while the device is managed the tree is the one that would be built afresh
    from the current flags: plugging in and out keeps it exact.
   */
  lemma {:induction false} RunKeepsAgree(d: Dmi, run: seq<Action>)
    requires Agree(d)
    ensures Agree(Run(d, run)) && |Run(d, run).transceivers| == |d.transceivers|
  {
    if run != [] {
      RunKeepsAgree(d, run[..|run| - 1]);
      StepKeepsAgree(Run(d, run[..|run| - 1]), run[|run| - 1]);
    }
  }

  function WithUuid(cs: seq<Component>, uuid: Uuid): nat {
    if cs == [] then 0 else (if cs[0].uuid == uuid then 1 else 0) + WithUuid(cs[1..], uuid)
  }

  /** After any run, a transceiver is plugged in exactly when its cage holds exactly one component with its UUID. */
  lemma PluggedIffInCage(d: Dmi, run: seq<Action>, t: nat)
    requires Agree(d) && t < |d.transceivers| && Run(d, run).root.Some?
    ensures var e := Run(d, run);
            && |e.transceivers| == |d.transceivers|
            && var cs := e.root.value.children;
               var c := Index(cs, CageUuid(e.transceivers[t].id));
               && c < |cs|
               && WithUuid(cs[c].children, TransUuid(e.transceivers[t].id)) == |cs[c].children|
               && |cs[c].children| == if e.transceivers[t].pluggedIn then 1 else 0
  {
    RunKeepsAgree(d, run);
    var ts := Run(d, run).transceivers;
    CageFound(ts, t);
    CagesAt(ts);
    var cs := Cages(ts) + OTHERS;
    assert cs[t] == Cage(ts[t]);
    if ts[t].pluggedIn {
      assert [TransComponent(ts[t])][1..] == [];
    }
  }

  function Plugged(ts: seq<Trans>): nat {
    if ts == [] then 0 else Plugged(ts[..|ts| - 1]) + (if ts[|ts| - 1].pluggedIn then 1 else 0)
  }

  lemma {:induction false} LeavesPreOrder(l: seq<Component>)
    requires forall c | c in l :: c.children == [] && c.cls != TransceiverKind
    ensures OfType(PreOrder(l), TransceiverKind) == []
    decreases |l|
  {
    if l != [] {
      LeavesPreOrder(l[1..]);
      assert PreOrder(l) == [l[0]] + PreOrder(l[1..]);
      assert PreOrder(l)[1..] == PreOrder(l[1..]);
    }
  }

  lemma CageCount(t: Trans)
    ensures |OfType(PreOrder([Cage(t)]), TransceiverKind)| == if t.pluggedIn then 1 else 0
  {
    var c := Cage(t);
    assert [c][1..] == [];
    assert PreOrder([c]) == [c] + PreOrder(c.children);
    assert PreOrder([c])[1..] == PreOrder(c.children);
    if t.pluggedIn {
      var x := TransComponent(t);
      assert [x][1..] == [];
      assert PreOrder([x]) == [x] + PreOrder(x.children);
      LeavesPreOrder(x.children);
      assert PreOrder([x])[1..] == PreOrder(x.children);
    }
  }

  lemma {:induction false} CagesCount(ts: seq<Trans>)
    requires forall a: nat | a < |ts| :: ts[a].pons != []
    ensures |OfType(PreOrder(Cages(ts)), TransceiverKind)| == Plugged(ts)
  {
    if ts != [] {
      var rest, t := ts[..|ts| - 1], ts[|ts| - 1];
      CagesCount(rest);
      PreOrderConcat(Cages(rest), [Cage(t)]);
      OfTypeConcat(PreOrder(Cages(rest)), PreOrder([Cage(t)]), TransceiverKind);
      CageCount(t);
    }
  }

  /** After any run, the transceivers found in the tree are as many as are plugged in. */
  lemma TransceiverCount(d: Dmi, run: seq<Action>)
    requires Agree(d) && Run(d, run).root.Some?
    ensures |OfType(PreOrder(Run(d, run).root.value.children), TransceiverKind)| == Plugged(Run(d, run).transceivers)
  {
    RunKeepsAgree(d, run);
    RebuiltCount(Run(d, run).transceivers);
  }

  lemma RebuiltCount(ts: seq<Trans>)
    requires WellFormed(ts)
    ensures |OfType(PreOrder(Cages(ts) + OTHERS), TransceiverKind)| == Plugged(ts)
  {
    hide Cages;
    hide Plugged;
    hide PreOrder;
    CagesCount(ts);
    PreOrderConcat(Cages(ts), OTHERS);
    OfTypeConcat(PreOrder(Cages(ts)), PreOrder(OTHERS), TransceiverKind);
    LeavesPreOrder(OTHERS);
  }

  /** The cage of a transceiver: empty, or with the transceiver and one port for each of its PONs. */
  ghost predicate IsCageOf(c: Component, t: Trans) {
    && c.uuid == CageUuid(t.id) && c.cls == Container && |c.children| == (if t.pluggedIn then 1 else 0)
    && (t.pluggedIn ==>
          && c.children[0].uuid == TransUuid(t.id) && c.children[0].cls == TransceiverKind
          && |c.children[0].children| == |t.pons|
          && forall i | 0 <= i < |t.pons| ::
               c.children[0].children[i].uuid == PonUuid(t.pons[i].id) && c.children[0].children[i].cls == Port &&
               c.children[0].children[i].children == [])
  }

  /**
    After any run, the tree of a managed device has the cages of all transceivers in their order, and
    then two fans, a disk, a processor, a memory, a sensor and a power supply.
   */
  lemma TreeIs(d: Dmi, run: seq<Action>)
    requires Agree(d) && Run(d, run).root.Some?
    ensures var e := Run(d, run);
            var cs, n := e.root.value.children, |e.transceivers|;
            && e.root.value.uuid == OltUuid && |cs| == n + 7
            && (forall k: nat | k < n :: IsCageOf(cs[k], e.transceivers[k]))
            && (forall k: nat | n <= k < n + 7 :: cs[k].uuid.NamedUuid? && cs[k].children == [])
            && cs[n].cls == Fan && cs[n + 1].cls == Fan && cs[n + 2].cls == Storage && cs[n + 3].cls == Cpu
            && cs[n + 4].cls == Memory && cs[n + 5].cls == Sensor && cs[n + 6].cls == PowerSupply
  {
    hide Cage;
    hide Cages;
    hide IsCageOf;
    hide Step;
    RunKeepsAgree(d, run);
    var e := Run(d, run);
    CagesAt(e.transceivers);
    forall k: nat | k < |e.transceivers|
      ensures IsCageOf(e.root.value.children[k], e.transceivers[k])
    {
      CageIs(e.transceivers[k]);
    }
    OthersFollow(Cages(e.transceivers), e.root.value.children);
  }

  lemma CageIs(t: Trans)
    ensures IsCageOf(Cage(t), t)
  {
  }

  lemma OthersFollow(cages: seq<Component>, cs: seq<Component>)
    requires cs == cages + OTHERS
    ensures var n := |cages|;
            && |cs| == n + 7
            && (forall k: nat | n <= k < n + 7 :: cs[k].uuid.NamedUuid? && cs[k].children == [])
            && cs[n].cls == Fan && cs[n + 1].cls == Fan && cs[n + 2].cls == Storage && cs[n + 3].cls == Cpu
            && cs[n + 4].cls == Memory && cs[n + 5].cls == Sensor && cs[n + 6].cls == PowerSupply
  {
    assert forall k: nat | k < 7 :: OTHERS[k].uuid.NamedUuid? && OTHERS[k].children == [];
  }

  /** One PON gives its own technology, several are combined. */
  predicate HasTechnology(t: Trans) {
    t.pons != [] ==> t.technology == if |t.pons| > 1 then Combo else if t.pons[0].xgs then Xgspon else Gpon
  }

  predicate Recorded(d: Dmi) {
    d.root.Some? ==>
      forall k: nat | k < |d.transceivers| :: d.transceivers[k].pluggedIn ==> HasTechnology(d.transceivers[k])
  }

  /** After any run, a managed device has recorded the technology of every transceiver that is plugged in. */
  lemma {:induction false} TechnologyIs(d: Dmi, run: seq<Action>)
    requires Agree(d) && d.root.None?
    ensures Recorded(Run(d, run))
  {
    if run != [] {
      var e, a := Run(d, run[..|run| - 1]), run[|run| - 1];
      TechnologyIs(d, run[..|run| - 1]);
      RunKeepsAgree(d, run[..|run| - 1]);
      StepRecords(e, a);
    }
  }

  lemma StepRecords(d: Dmi, a: Action)
    requires Recorded(d)
    ensures Recorded(Step(d, a))
  {
  }

  /** In the order of the search the first child of a component comes right after it. */
  lemma {:induction false} ChildFollows(l: seq<Component>, k: nat)
    requires k < |PreOrder(l)|
    ensures PreOrder(l)[0] == l[0]
    ensures PreOrder(l)[k].children != [] ==>
              k + 1 < |PreOrder(l)| && PreOrder(l)[k + 1] == PreOrder(l)[k].children[0]
    decreases l
  {
    var first, below, rest := [l[0]], PreOrder(l[0].children), PreOrder(l[1..]);
    assert PreOrder(l) == first + below + rest;
    if k == 0 {
      if l[0].children != [] {
        assert below != [];
        ChildFollows(l[0].children, 0);
      }
    } else if k <= |below| {
      ChildFollows(l[0].children, k - 1);
    } else {
      ChildFollows(l[1..], k - 1 - |below|);
    }
  }

  /** The search finds the first component with the UUID. */
  lemma {:induction false} FoundFirst(l: seq<Component>, uuid: Uuid, k: nat)
    requires k < |l| && l[k].uuid == uuid && forall j | 0 <= j < k :: l[j].uuid != uuid
    ensures FirstWith(l, uuid) == Some(l[k])
  {
    if k > 0 {
      FoundFirst(l[1..], uuid, k - 1);
    }
  }

  /** Plugging out and in again restores the flag and the tree. */
  lemma OutThenIn(d: Dmi, id: nat)
    requires Agree(d) && PlugOut(d, id).1 == Ok
    ensures var e := PlugIn(PlugOut(d, id).0, id);
            && e.1 == Ok && e.0.root == d.root
            && |e.0.transceivers| == |d.transceivers|
            && forall k: nat | k < |d.transceivers| :: e.0.transceivers[k].pluggedIn == d.transceivers[k].pluggedIn
  {
    var ts := d.transceivers;
    var t := TransIndex(ts, id);
    PlugOutKeepsAgree(d, id);
    PlugOutRebuilds(d, id);
    var o := ts[t := ts[t].(pluggedIn := false)];
    TransIndexIs(o, t, id);
    PlugInRebuilds(PlugOut(d, id).0, id);
    SameCages(ts, o[t := Described(o[t]).(pluggedIn := true)]);
  }

  lemma SameCages(ts: seq<Trans>, ts': seq<Trans>)
    requires WellFormed(ts) && WellFormed(ts') && |ts| == |ts'|
    requires forall k: nat | k < |ts| ::
               ts[k].id == ts'[k].id && ts[k].pons == ts'[k].pons && ts[k].pluggedIn == ts'[k].pluggedIn
    ensures Cages(ts) == Cages(ts')
  {
    CagesAt(ts);
    CagesAt(ts');
    forall k: nat | k < |ts|
      ensures Cages(ts)[k] == Cages(ts')[k]
    {
      assert TransComponent(ts[k]) == TransComponent(ts'[k]);
    }
  }

  // ---------------------------------------------------------------------------
  // The objects

  class Transceiver {
    const id: nat
    const pons: seq<Pon>
    var technology: Technology
    var pluggedIn: bool

    ghost function Abs(): Trans
      reads this
    {
      Trans(id, pons, technology, pluggedIn)
    }

    constructor (id: nat, pons: seq<Pon>)
      ensures Abs() == NewTrans(id, pons)
    {
      this.id, this.pons, technology, pluggedIn := id, pons, Unknown, true;
    }

    /** createTransceiverComponent. */
    method CreateComponent() returns (ok: bool, c: Component)
      modifies this
      ensures ok <==> pons != []
      ensures Abs() == Described(old(Abs()))
      ensures ok ==> c == TransComponent(Abs())
    {
      c := Component(TransUuid(id), TransceiverKind, []);
      if |pons| == 0 {
        return false, c;
      } else if |pons| <= 1 {
        technology := if pons[0].xgs then Xgspon else Gpon;
      } else {
        technology := Combo;
      }
      var ports: seq<Component> := [];
      for i := 0 to |pons|
        invariant ports == seq(i, q requires 0 <= q < i => PortOf(pons[q]))
      {
        ports := ports + [Component(PonUuid(pons[i].id), Port, [])];
      }
      ok, c := true, Component(TransUuid(id), TransceiverKind, ports);
    }
  }

  class Server {
    const transceivers: seq<Transceiver>
    var root: Option<Component>

    ghost predicate Valid() {
      forall a: nat, b: nat | a < b < |transceivers| :: transceivers[a] != transceivers[b]
    }

    ghost function List(): (ts: seq<Trans>)
      reads transceivers
      ensures |ts| == |transceivers|
    {
      seq(|transceivers|, k requires 0 <= k < |transceivers| reads transceivers => transceivers[k].Abs())
    }

    ghost function Abs(): Dmi
      reads this, transceivers
    {
      Dmi(root, List())
    }

    /** One transceiver per PON, as the DMI server is started. */
    constructor (pons: seq<Pon>)
      ensures Valid() && fresh(transceivers) && root == None
      ensures |transceivers| == |pons|
      ensures forall k: nat | k < |pons| :: transceivers[k].Abs() == NewTrans(pons[k].id, [pons[k]])
    {
      var made: seq<Transceiver> := [];
      for k := 0 to |pons|
        invariant |made| == k && fresh(made)
        invariant forall a: nat, b: nat | a < b < k :: made[a] != made[b]
        invariant forall a: nat | a < k :: made[a].Abs() == NewTrans(pons[a].id, [pons[a]])
      {
        var t := new Transceiver(pons[k].id, [pons[k]]);
        made := made + [t];
      }
      transceivers, root := made, None;
    }

    /** The transceivers before k were described if plugged in, the others are as before. */
    twostate predicate Started(k: nat)
      requires k <= |transceivers|
      reads transceivers
    {
      && (forall a: nat | a < k :: transceivers[a].Abs() == StartTrans(old(transceivers[a].Abs())))
      && forall a: nat | k <= a < |transceivers| :: transceivers[a].Abs() == old(transceivers[a].Abs())
    }

    method StartManagingDevice(name: string) returns (answer: Answer)
      requires Valid()
      modifies this, transceivers
      ensures (Abs(), answer) == StartManaging(old(Abs()), name)
    {
      if name == "" {
        return EmptyName;
      }
      var components: seq<Component> := [];
      for k := 0 to |transceivers|
        invariant Started(k) && components == Cages(old(List())[..k])
      {
        var t := transceivers[k];
        ghost var was := old(List());
        assert was[..k + 1][..k] == was[..k] && was[k] == old(transceivers[k].Abs());
        var children: seq<Component> := [];
        var good := true;
        if t.pluggedIn {
          var c;
          good, c := t.CreateComponent();
          children := [c];
          assert good ==> c == TransComponent(was[k]);
        }
        if good {
          components := components + [Component(CageUuid(t.id), Container, children)];
        }
      }
      assert old(List())[..|transceivers|] == old(List());
      root := Some(Root(components + OTHERS));
      assert List() == StartAll(old(List()));
      answer := Ok;
    }

    method StopManagingDevice(name: string) returns (answer: Answer)
      modifies this
      ensures (Abs(), answer) == StopManaging(old(Abs()), name)
    {
      if name == "" {
        return EmptyName;
      }
      root := None;
      answer := Ok;
    }

    /** getTransceiverWithId. */
    method GetTransceiverWithId(id: nat) returns (i: nat)
      ensures i == TransIndex(List(), id)
    {
      i := 0;
      while i < |transceivers|
        invariant i <= |transceivers| && forall j: nat | j < i :: transceivers[j].id != id
      {
        if transceivers[i].id == id {
          TransIndexIs(List(), i, id);
          return;
        }
        i := i + 1;
      }
      assert List()[..|transceivers|] == List();
    }

    /** The labelled loops that look for the cage and the place of the transceiver in it. */
    static method FindInCages(cs: seq<Component>, id: nat) returns (c: nat, j: nat)
      ensures c == HolderIndex(cs, id)
      ensures c < |cs| ==> j == Index(cs[c].children, TransUuid(id)) < |cs[c].children|
    {
      c, j := 0, 0;
      while c < |cs|
        invariant c <= |cs| && forall q: nat | q < c :: !HoldsTrans(cs[q], id)
      {
        if cs[c].uuid == CageUuid(id) {
          j := 0;
          while j < |cs[c].children|
            invariant j <= |cs[c].children|
            invariant forall q: nat | q < j :: cs[c].children[q].uuid != TransUuid(id)
          {
            if cs[c].children[j].uuid == TransUuid(id) {
              IndexIs(cs[c].children, j, TransUuid(id));
              return;
            }
            j := j + 1;
          }
        }
        c := c + 1;
      }
    }

    static method FindCage(cs: seq<Component>, id: nat) returns (c: nat)
      ensures c == Index(cs, CageUuid(id))
    {
      c := 0;
      while c < |cs|
        invariant c <= |cs| && forall q: nat | q < c :: cs[q].uuid != CageUuid(id)
      {
        if cs[c].uuid == CageUuid(id) {
          IndexIs(cs, c, CageUuid(id));
          return;
        }
        c := c + 1;
      }
    }

    method PlugoutTransceiver(id: nat) returns (answer: Answer)
      requires Valid()
      modifies this, transceivers
      ensures (Abs(), answer) == PlugOut(old(Abs()), id)
    {
      if root.None? {
        return NotStarted;
      }
      var t := GetTransceiverWithId(id);
      if t == |transceivers| {
        return NoSuchTransceiver;
      }
      if !transceivers[t].pluggedIn {
        return NotPluggedIn;
      }
      var cs := root.value.children;
      var c, j := FindInCages(cs, id);
      if c == |cs| {
        return NotInTree;
      }
      var cage := cs[c].(children := cs[c].children[..j] + cs[c].children[j + 1..]);
      root := Some(root.value.(children := cs[c := cage]));
      transceivers[t].pluggedIn := false;
      assert List() == old(List())[t := old(List())[t].(pluggedIn := false)];
      answer := Ok;
    }

    method PluginTransceiver(id: nat) returns (answer: Answer)
      requires Valid()
      modifies this, transceivers
      ensures (Abs(), answer) == PlugIn(old(Abs()), id)
    {
      if root.None? {
        return NotStarted;
      }
      var t := GetTransceiverWithId(id);
      if t == |transceivers| {
        return NoSuchTransceiver;
      }
      if transceivers[t].pluggedIn {
        return AlreadyPluggedIn;
      }
      var cs := root.value.children;
      var c := FindCage(cs, id);
      if c == |cs| {
        return NoCage;
      }
      var ok, comp := transceivers[t].CreateComponent();
      if !ok {
        assert List() == old(List());
        return NoPons;
      }
      assert comp == TransComponent(old(List())[t]);
      root := Some(root.value.(children := cs[c := cs[c].(children := cs[c].children + [comp])]));
      transceivers[t].pluggedIn := true;
      assert List() == old(List())[t := Described(old(List())[t]).(pluggedIn := true)];
      answer := Ok;
    }
  }
}
