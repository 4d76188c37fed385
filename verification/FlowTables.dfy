/**
  The two resource tables of the OLT, `GemPortIDs` and `AllocIDs`:
  PON -> ONU id -> port number -> GEM port or alloc id -> set of flow ids.

  A table is read through its flattening, the relation of all
  (pon, onu, port, id, flow) entries it holds.  The methods are the loops of
  olt.go; Go leaves the iteration order of a map open, so every loop picks its
  next key arbitrarily and the contracts hold for all orders.
 */
module FlowTables {
  import opened Basics

  /** The Go conversion uint32(x). */
  function U32(x: int): (r: nat)
    ensures r < TWO_32
  {
    x % TWO_32
  }

  type Int32 = x: int | -0x8000_0000 <= x < 0x8000_0000

  /** The Go conversion int32(x). */
  function I32(x: int): Int32 {
    var m := x % TWO_32;
    if m < 0x8000_0000 then m else m - TWO_32
  }

  type FlowSet = set<nat>
  type UniTable = map<Int32, FlowSet>
  type OnuTable = map<nat, UniTable>
  type PonTable = map<nat, OnuTable>
  type Table = map<nat, PonTable>

  /** The fields of openolt.Flow that the device reads. */
  datatype Flow = Flow(
    accessIntfId: Int32, onuId: Int32, portNo: nat, flowId: nat, allocId: Int32, gemportId: Int32,
    multicast: bool, replicate: bool, pbitToGemport: map<nat, nat>)

  /** The GEM ports a flow asks for: a replicated flow carries one per p-bit. */
  function Gems(f: Flow): set<Int32> {
    if f.replicate then set pbit | pbit in f.pbitToGemport :: I32(f.pbitToGemport[pbit])
    else {f.gemportId}
  }

  /** Equal modulo 2^32. */
  predicate Same32(x: int, y: int) {
    (x - y) % TWO_32 == 0
  }

  /**
    The id is one of the GEM ports that the flow names: a replicated flow names one for each of
    its p-bits, as a uint32 that is converted to an int32, any other flow has one field for it.
   */
  ghost predicate Names(f: Flow, id: Int32) {
    if f.replicate then exists b :: b in f.pbitToGemport && Same32(id, f.pbitToGemport[b]) else id == f.gemportId
  }

  lemma ConversionIs(x: int, id: Int32)
    ensures id == I32(x) <==> Same32(id, x)
    ensures 0 <= x < 0x8000_0000 ==> (Same32(id, x) <==> id == x)
  {
    var m := x % TWO_32;
    assert x == x / TWO_32 * TWO_32 + m;
  }

  lemma GemsAreNamed(f: Flow)
    ensures forall id: Int32 :: id in Gems(f) <==> Names(f, id)
  {
    forall id: Int32
      ensures id in Gems(f) <==> Names(f, id)
    {
      if f.replicate {
        forall b | b in f.pbitToGemport
          ensures id == I32(f.pbitToGemport[b]) <==> Same32(id, f.pbitToGemport[b])
        {
          ConversionIs(f.pbitToGemport[b], id);
        }
      }
    }
  }

  // ---------------------------------------------------------------------------
  // Reading a table

  datatype Key = Key(pon: nat, onu: nat, port: nat, id: Int32)
  datatype Entry = Entry(key: Key, flow: nat)

  predicate Registered(t: Table, pon: nat, onu: nat) {
    pon in t && onu in t[pon]
  }

  /** The id is a key of the table, which is what validateFlow calls "in use". */
  predicate Listed(t: Table, k: Key) {
    Registered(t, k.pon, k.onu) && k.port in t[k.pon][k.onu] && k.id in t[k.pon][k.onu][k.port]
  }

  function FlowsOf(t: Table, k: Key): FlowSet
    requires Listed(t, k)
  {
    t[k.pon][k.onu][k.port][k.id]
  }

  predicate Holds(t: Table, e: Entry) {
    Listed(t, e.key) && e.flow in FlowsOf(t, e.key)
  }

  ghost function Flat(t: Table): iset<Entry> {
    iset e: Entry | Holds(t, e)
  }

  /** No id is kept without a flow that references it. */
  ghost predicate Counted(t: Table) {
    forall k: Key :: Listed(t, k) ==> FlowsOf(t, k) != {}
  }

  /** No id of a PON is used by two of its ONUs. */
  ghost predicate Exclusive(t: Table) {
    forall k: Key, k': Key ::
      Listed(t, k) && Listed(t, k') && k.pon == k'.pon && k.id == k'.id ==> k.onu == k'.onu
  }

  /** An id of the set is in use on another ONU of the same PON. */
  ghost predicate Conflict(t: Table, pon: nat, onu: nat, ids: set<Int32>) {
    exists k: Key :: Listed(t, k) && k.pon == pon && k.onu != onu && k.id in ids
  }

  /** The loops of CreateOLT and InitOlt: an empty map for each of the first n PONs. */
  function ResetPons(t: Table, n: nat): Table {
    if n == 0 then t else ResetPons(t, n - 1)[n - 1 := map[]]
  }

  function Fresh(n: nat): Table {
    ResetPons(map[], n)
  }

  // ---------------------------------------------------------------------------
  // Changing a table

  function SetUni(t: Table, pon: nat, onu: nat, port: nat, uni: UniTable): Table
    requires Registered(t, pon, onu)
  {
    SetOnu(t, pon, onu, t[pon][onu][port := uni])
  }

  function SetOnu(t: Table, pon: nat, onu: nat, ports: OnuTable): Table
    requires pon in t
  {
    var p: PonTable := t[pon];
    t[pon := p[onu := ports]]
  }

  function UniOf(t: Table, pon: nat, onu: nat, port: nat): UniTable
    requires Registered(t, pon, onu)
  {
    if port in t[pon][onu] then t[pon][onu][port] else map[]
  }

  function AddFlow(uni: UniTable, ids: set<Int32>, flow: nat): UniTable {
    map id | id in uni.Keys + ids ::
      if id !in ids then uni[id] else if id in uni then uni[id] + {flow} else {flow}
  }

  /** The flow references every id of the set. */
  function Put(t: Table, pon: nat, onu: nat, port: nat, ids: set<Int32>, flow: nat): Table
    requires Registered(t, pon, onu)
  {
    if ids == {} then t
    else SetUni(t, pon, onu, port, AddFlow(UniOf(t, pon, onu, port), ids, flow))
  }

  function FreeUni(uni: UniTable, flow: nat): UniTable {
    map id | id in uni && uni[id] != {flow} :: uni[id] - {flow}
  }

  function FreeOnu(onu: OnuTable, flow: nat): OnuTable {
    map port | port in onu :: FreeUni(onu[port], flow)
  }

  function FreePon(pon: PonTable, flow: nat): PonTable {
    map onu | onu in pon :: FreeOnu(pon[onu], flow)
  }

  /** No id references the flow any longer. */
  function Free(t: Table, flow: nat): Table {
    map pon | pon in t :: FreePon(t[pon], flow)
  }

  /** ActivateOnu gives the ONU id an empty map of its own. */
  function Register(t: Table, pon: nat, onu: nat): Table
    requires pon in t
  {
    SetOnu(t, pon, onu, map[])
  }

  // ---------------------------------------------------------------------------
  // What the changes mean for the relation

  predicate At(k: Key, pon: nat, onu: nat, port: nat) {
    k.pon == pon && k.onu == onu && k.port == port
  }

  lemma PutLists(t: Table, pon: nat, onu: nat, port: nat, ids: set<Int32>, flow: nat)
    requires Registered(t, pon, onu)
    ensures forall k: Key :: Listed(Put(t, pon, onu, port, ids, flow), k) <==>
              Listed(t, k) || (k.id in ids && At(k, pon, onu, port))
    ensures forall e: Entry :: Holds(Put(t, pon, onu, port, ids, flow), e) <==>
              Holds(t, e) || (e.key.id in ids && At(e.key, pon, onu, port) && e.flow == flow)
  {
    if ids != {} {
      var t' := Put(t, pon, onu, port, ids, flow);
      assert t'[pon][onu][port] == AddFlow(UniOf(t, pon, onu, port), ids, flow);
      forall k: Key
        ensures Listed(t', k) <==> Listed(t, k) || (k.id in ids && At(k, pon, onu, port))
      {
      }
      forall e: Entry
        ensures Holds(t', e) <==>
                  Holds(t, e) || (e.key.id in ids && At(e.key, pon, onu, port) && e.flow == flow)
      {
      }
    }
  }

  lemma FreeHolds(t: Table, flow: nat)
    ensures forall e: Entry :: Holds(Free(t, flow), e) <==> Holds(t, e) && e.flow != flow
  {
    forall e: Entry
      ensures Holds(Free(t, flow), e) <==> Holds(t, e) && e.flow != flow
    {
      var k := e.key;
      if Registered(t, k.pon, k.onu) && k.port in t[k.pon][k.onu] {
        assert Free(t, flow)[k.pon][k.onu][k.port] == FreeUni(t[k.pon][k.onu][k.port], flow);
      }
    }
  }

  lemma RegisterHolds(t: Table, pon: nat, onu: nat)
    requires pon in t
    ensures forall e: Entry ::
              Holds(Register(t, pon, onu), e) <==> Holds(t, e) && !(e.key.pon == pon && e.key.onu == onu)
  {
  }

  /** An id is in use exactly when a live flow references it. */
  lemma ListedIffReferenced(t: Table, k: Key)
    requires Counted(t)
    ensures Listed(t, k) <==> exists flow: nat :: Holds(t, Entry(k, flow))
  {
    if Listed(t, k) {
      var flow :| flow in FlowsOf(t, k);
      assert Holds(t, Entry(k, flow));
    }
  }

  /** Adding a flow and removing it again is the identity on the relation, for a flow id not in the table. */
  lemma FreeUndoesPut(t: Table, pon: nat, onu: nat, port: nat, ids: set<Int32>, flow: nat)
    requires Registered(t, pon, onu)
    requires forall e: Entry :: Holds(t, e) ==> e.flow != flow
    ensures Flat(Free(Put(t, pon, onu, port, ids, flow), flow)) == Flat(t)
  {
    PutLists(t, pon, onu, port, ids, flow);
    FreeHolds(Put(t, pon, onu, port, ids, flow), flow);
  }

  lemma PutKeepsCounted(t: Table, pon: nat, onu: nat, port: nat, ids: set<Int32>, flow: nat)
    requires Registered(t, pon, onu) && Counted(t)
    ensures Counted(Put(t, pon, onu, port, ids, flow))
  {
    var t' := Put(t, pon, onu, port, ids, flow);
    PutLists(t, pon, onu, port, ids, flow);
    forall k: Key | Listed(t', k)
      ensures FlowsOf(t', k) != {}
    {
      if Listed(t, k) {
        ListedIffReferenced(t, k);
        var f: nat :| Holds(t, Entry(k, f));
        assert Holds(t', Entry(k, f));
      } else {
        assert Holds(t', Entry(k, flow));
      }
    }
  }

  lemma FreeKeepsCounted(t: Table, flow: nat)
    requires Counted(t)
    ensures Counted(Free(t, flow))
  {
    var t' := Free(t, flow);
    forall k: Key | Listed(t', k)
      ensures FlowsOf(t', k) != {}
    {
      assert t'[k.pon][k.onu][k.port] == FreeUni(t[k.pon][k.onu][k.port], flow);
      assert Listed(t, k) && FlowsOf(t, k) != {flow};
      var f :| f in FlowsOf(t, k) && f != flow;
      assert f in FlowsOf(t', k);
    }
  }

  lemma RegisterKeepsCounted(t: Table, pon: nat, onu: nat)
    requires pon in t && Counted(t)
    ensures Counted(Register(t, pon, onu))
  {
    var t' := Register(t, pon, onu);
    forall k: Key | Listed(t', k)
      ensures FlowsOf(t', k) != {}
    {
      assert Listed(t, k);
    }
  }

  /** In a counted table, one relation inside another carries exclusivity down. */
  lemma SubRelationKeepsExclusive(t: Table, t': Table)
    requires Counted(t') && Exclusive(t)
    requires forall e: Entry :: Holds(t', e) ==> Holds(t, e)
    ensures Exclusive(t')
  {
    forall k: Key | Listed(t', k)
      ensures Listed(t, k)
    {
      ListedIffReferenced(t', k);
    }
  }

  /** The check of validateFlow is exactly what keeps a table exclusive. */
  lemma PutKeepsExclusiveIff(t: Table, pon: nat, onu: nat, port: nat, ids: set<Int32>, flow: nat)
    requires Registered(t, pon, onu) && Exclusive(t)
    ensures Exclusive(Put(t, pon, onu, port, ids, flow)) <==> !Conflict(t, pon, onu, ids)
  {
    var t' := Put(t, pon, onu, port, ids, flow);
    PutLists(t, pon, onu, port, ids, flow);
    if Conflict(t, pon, onu, ids) {
      var k: Key :| Listed(t, k) && k.pon == pon && k.onu != onu && k.id in ids;
      assert Listed(t', k) && Listed(t', Key(pon, onu, port, k.id));
    }
  }

  /** Neither is an id used by two ports of one ONU, which is what the comment on validateFlow promises. */
  ghost predicate PortExclusive(t: Table) {
    forall k: Key, k': Key ::
      Listed(t, k) && Listed(t, k') && k.pon == k'.pon && k.id == k'.id ==> k.onu == k'.onu && k.port == k'.port
  }

  /** validateFlow skips the ONU of the flow, so it does not look at this. */
  ghost predicate PortConflict(t: Table, pon: nat, onu: nat, port: nat, ids: set<Int32>) {
    exists k: Key :: Listed(t, k) && k.pon == pon && k.onu == onu && k.port != port && k.id in ids
  }

  lemma PutKeepsPortExclusiveIff(t: Table, pon: nat, onu: nat, port: nat, ids: set<Int32>, flow: nat)
    requires Registered(t, pon, onu) && PortExclusive(t) && !Conflict(t, pon, onu, ids)
    ensures PortExclusive(Put(t, pon, onu, port, ids, flow)) <==> !PortConflict(t, pon, onu, port, ids)
  {
    var t' := Put(t, pon, onu, port, ids, flow);
    PutLists(t, pon, onu, port, ids, flow);
    if PortConflict(t, pon, onu, port, ids) {
      var k: Key :| Listed(t, k) && k.pon == pon && k.onu == onu && k.port != port && k.id in ids;
      assert Listed(t', k) && Listed(t', Key(pon, onu, port, k.id));
    }
  }

  // ---------------------------------------------------------------------------
  // The loops of olt.go

  /** freeGemPortId and freeAllocId, the two innermost loops: ids of one port and their flows. */
  method FreeInUni(uni: UniTable, flow: nat) returns (r: UniTable)
    ensures r == FreeUni(uni, flow)
  {
    r := uni;
    var ids := uni.Keys;
    while ids != {}
      invariant ids <= uni.Keys
      invariant forall id :: id in r <==> id in uni && (id in ids || uni[id] != {flow})
      invariant forall id :: id in r ==> r[id] == if id in ids then uni[id] else uni[id] - {flow}
      decreases |ids|
    {
      var id :| id in ids;
      r := FreeInId(r, id, flow);
      ids := ids - {id};
    }
  }

  /** The flows of one id are visited in any order while they are being deleted. */
  method FreeInId(uni: UniTable, id: Int32, flow: nat) returns (r: UniTable)
    requires id in uni
    ensures r == if uni[id] == {flow} then uni - {id} else uni[id := uni[id] - {flow}]
  {
    r := uni;
    var flows := uni[id];
    assert flow !in flows ==> uni[id] - {flow} == uni[id];
    while flows != {}
      invariant flows <= uni[id]
      invariant r == if uni[id] == {flow} && flows == {} then uni - {id}
                     else if flow in flows then uni
                     else uni[id := uni[id] - {flow}]
      decreases |flows|
    {
      var f :| f in flows;
      flows := flows - {f};
      if f == flow {
        r := r[id := r[id] - {flow}];
      }
      if r[id] == {} {
        r := r - {id};
      }
    }
  }

  method FreeInOnu(onu: OnuTable, flow: nat) returns (r: OnuTable)
    ensures r == FreeOnu(onu, flow)
  {
    r := onu;
    var ports := onu.Keys;
    while ports != {}
      invariant ports <= onu.Keys && r.Keys == onu.Keys
      invariant forall u :: u in r ==> r[u] == if u in ports then onu[u] else FreeUni(onu[u], flow)
      decreases |ports|
    {
      var u :| u in ports;
      var uni := FreeInUni(r[u], flow);
      r := r[u := uni];
      ports := ports - {u};
    }
  }

  method FreeInPon(pon: PonTable, flow: nat) returns (r: PonTable)
    ensures r == FreePon(pon, flow)
  {
    r := pon;
    var onus := pon.Keys;
    while onus != {}
      invariant onus <= pon.Keys && r.Keys == pon.Keys
      invariant forall o :: o in r ==> r[o] == if o in onus then pon[o] else FreeOnu(pon[o], flow)
      decreases |onus|
    {
      var o :| o in onus;
      var onu := FreeInOnu(r[o], flow);
      r := r[o := onu];
      onus := onus - {o};
    }
  }

  /** freeGemPortId / freeAllocId: exactly the entries of this flow id are dropped. */
  method FreeInTable(t: Table, flow: nat) returns (r: Table)
    ensures r == Free(t, flow)
    ensures Flat(r) == iset e: Entry | Holds(t, e) && e.flow != flow
  {
    r := t;
    var pons := t.Keys;
    while pons != {}
      invariant pons <= t.Keys && r.Keys == t.Keys
      invariant forall p :: p in r ==> r[p] == if p in pons then t[p] else FreePon(t[p], flow)
      decreases |pons|
    {
      var p :| p in pons;
      var pon := FreeInPon(r[p], flow);
      r := r[p := pon];
      pons := pons - {p};
    }
    assert r == Free(t, flow);
    FreeHolds(t, flow);
  }

  /** storeGemPortId and the tail of storeAllocId: one id at a time, creating the missing levels. */
  method StoreId(t: Table, pon: nat, onu: nat, port: nat, id: Int32, flow: nat) returns (r: Table)
    requires Registered(t, pon, onu)
    ensures r == Put(t, pon, onu, port, {id}, flow)
  {
    ghost var was := UniOf(t, pon, onu, port);
    r := t;
    if port !in r[pon][onu] {
      SetUniTwice(t, pon, onu, port, map[], AddFlow(was, {id}, flow));
      SetUniTwice(t, pon, onu, port, map[], was[id := {}]);
      r := SetUni(r, pon, onu, port, map[]);
    }
    assert UniOf(r, pon, onu, port) == was;
    assert SetUni(r, pon, onu, port, AddFlow(was, {id}, flow)) == SetUni(t, pon, onu, port, AddFlow(was, {id}, flow));
    if id !in r[pon][onu][port] {
      SetUniTwice(r, pon, onu, port, was[id := {}], AddFlow(was, {id}, flow));
      r := SetUni(r, pon, onu, port, r[pon][onu][port][id := {}]);
    }
    var flows := r[pon][onu][port][id];
    assert {} + {flow} == {flow};
    assert r[pon][onu][port] == if id in was then was else was[id := {}];
    assert r[pon][onu][port][id := flows + {flow}] == AddFlow(was, {id}, flow);
    r := SetUni(r, pon, onu, port, r[pon][onu][port][id := flows + {flow}]);
  }

  lemma AddFlowTwice(uni: UniTable, ids: set<Int32>, id: Int32, flow: nat)
    ensures AddFlow(AddFlow(uni, ids, flow), {id}, flow) == AddFlow(uni, ids + {id}, flow)
  {
    var a, b := AddFlow(AddFlow(uni, ids, flow), {id}, flow), AddFlow(uni, ids + {id}, flow);
    assert a.Keys == b.Keys;
    forall i | i in a
      ensures a[i] == b[i]
    {
    }
  }

  lemma PutTwice(t: Table, pon: nat, onu: nat, port: nat, ids: set<Int32>, id: Int32, flow: nat)
    requires Registered(t, pon, onu)
    ensures Registered(Put(t, pon, onu, port, ids, flow), pon, onu)
    ensures Put(Put(t, pon, onu, port, ids, flow), pon, onu, port, {id}, flow)
         == Put(t, pon, onu, port, ids + {id}, flow)
  {
    if ids == {} {
      assert ids + {id} == {id};
    } else {
      var uni := AddFlow(UniOf(t, pon, onu, port), ids, flow);
      AddFlowTwice(UniOf(t, pon, onu, port), ids, id, flow);
      SetUniTwice(t, pon, onu, port, uni, AddFlow(uni, {id}, flow));
    }
  }

  lemma SetUniTwice(t: Table, pon: nat, onu: nat, port: nat, a: UniTable, b: UniTable)
    requires Registered(t, pon, onu)
    ensures Registered(SetUni(t, pon, onu, port, a), pon, onu)
    ensures UniOf(SetUni(t, pon, onu, port, a), pon, onu, port) == a
    ensures SetUni(SetUni(t, pon, onu, port, a), pon, onu, port, b) == SetUni(t, pon, onu, port, b)
  {
    var t1 := SetUni(t, pon, onu, port, a);
    assert t1[pon][onu][port := b] == t[pon][onu][port := b];
    assert t1[pon][onu := t[pon][onu][port := b]] == t[pon][onu := t[pon][onu][port := b]];
  }

  /**
    A known ONU gets exactly one entry for each GEM port that the flow names; an unknown one gets
    none and the store fails, unless the flow names none.
   */
  ghost predicate StoresNamed(t: Table, t': Table, ok: bool, pon: nat, onu: nat, f: Flow) {
    && (ok <==> Registered(t, pon, onu) || forall id: Int32 :: !Names(f, id))
    && forall e: Entry :: Holds(t', e) <==>
         || Holds(t, e)
         || (Registered(t, pon, onu) && At(e.key, pon, onu, f.portNo) && e.flow == f.flowId && Names(f, e.key.id))
  }

  lemma PutStoresNamed(t: Table, pon: nat, onu: nat, f: Flow)
    ensures Registered(t, pon, onu) ==>
              StoresNamed(t, Put(t, pon, onu, f.portNo, Gems(f), f.flowId), true, pon, onu, f)
    ensures !Registered(t, pon, onu) ==> StoresNamed(t, t, Gems(f) == {}, pon, onu, f)
  {
    GemsAreNamed(f);
    if Registered(t, pon, onu) {
      PutLists(t, pon, onu, f.portNo, Gems(f), f.flowId);
    } else if Gems(f) != {} {
      var id: Int32 :| id in Gems(f);
      assert Names(f, id);
    }
  }

  /** storeGemPortIdByFlow: all the GEM ports of the flow are stored, or none is. */
  method StoreGems(t: Table, f: Flow) returns (ok: bool, r: Table)
    ensures ok <==> Registered(t, U32(f.accessIntfId), U32(f.onuId)) || Gems(f) == {}
    ensures r == if Registered(t, U32(f.accessIntfId), U32(f.onuId))
                 then Put(t, U32(f.accessIntfId), U32(f.onuId), f.portNo, Gems(f), f.flowId) else t
    ensures StoresNamed(t, r, ok, U32(f.accessIntfId), U32(f.onuId), f)
  {
    var pon, onu := U32(f.accessIntfId), U32(f.onuId);
    if f.replicate {
      ok, r := StorePbits(t, pon, onu, f);
    } else if !Registered(t, pon, onu) {
      ok, r := false, t;
    } else {
      r := StoreId(t, pon, onu, f.portNo, f.gemportId, f.flowId);
      ok := true;
    }
    PutStoresNamed(t, pon, onu, f);
  }

  function GemsBut(f: Flow, pbits: set<nat>): set<Int32> {
    set pbit | pbit in f.pbitToGemport && pbit !in pbits :: I32(f.pbitToGemport[pbit])
  }

  lemma GemsButOne(f: Flow, pbits: set<nat>, b: nat)
    requires b in pbits && pbits <= f.pbitToGemport.Keys
    ensures GemsBut(f, pbits - {b}) == GemsBut(f, pbits) + {I32(f.pbitToGemport[b])}
  {
  }

  method StorePbits(t: Table, pon: nat, onu: nat, f: Flow) returns (ok: bool, r: Table)
    requires f.replicate
    ensures ok <==> Registered(t, pon, onu) || Gems(f) == {}
    ensures r == if Registered(t, pon, onu) then Put(t, pon, onu, f.portNo, Gems(f), f.flowId) else t
    ensures StoresNamed(t, r, ok, pon, onu, f)
  {
    PutStoresNamed(t, pon, onu, f);
    r := t;
    var pbits := f.pbitToGemport.Keys;
    while pbits != {}
      invariant pbits <= f.pbitToGemport.Keys
      invariant if Registered(t, pon, onu)
                then Registered(r, pon, onu) && r == Put(t, pon, onu, f.portNo, GemsBut(f, pbits), f.flowId)
                else r == t && pbits == f.pbitToGemport.Keys
      decreases |pbits|
    {
      var b :| b in pbits;
      var gem := I32(f.pbitToGemport[b]);
      if !Registered(r, pon, onu) {
        assert gem in Gems(f);
        return false, r;
      }
      PutTwice(t, pon, onu, f.portNo, GemsBut(f, pbits), gem, f.flowId);
      GemsButOne(f, pbits, b);
      r := StoreId(r, pon, onu, f.portNo, gem, f.flowId);
      pbits := pbits - {b};
    }
    assert GemsBut(f, {}) == Gems(f);
    ok := true;
  }

  /** validateFlow, the loop over the ids of one port. */
  method UniUses(uni: UniTable, ids: set<Int32>) returns (used: bool)
    ensures used <==> exists id: Int32 :: id in uni && id in ids
  {
    var todo := uni.Keys;
    while todo != {}
      invariant todo <= uni.Keys
      invariant forall id: Int32 :: id in uni && id !in todo ==> id !in ids
      decreases |todo|
    {
      var id :| id in todo;
      if id in ids {
        return true;
      }
      todo := todo - {id};
    }
    return false;
  }

  method OnuUses(onu: OnuTable, ids: set<Int32>) returns (used: bool)
    ensures used <==> exists port: nat, id: Int32 :: port in onu && id in onu[port] && id in ids
  {
    var todo := onu.Keys;
    while todo != {}
      invariant todo <= onu.Keys
      invariant forall port: nat, id: Int32 :: port in onu && port !in todo && id in onu[port] ==> id !in ids
      decreases |todo|
    {
      var port :| port in todo;
      var hit := UniUses(onu[port], ids);
      if hit {
        return true;
      }
      todo := todo - {port};
    }
    return false;
  }

  /** One half of validateFlow: every ONU of the PON but the flow's own is searched. */
  method FindConflict(t: Table, pon: nat, onu: nat, ids: set<Int32>) returns (found: bool)
    ensures found <==> Conflict(t, pon, onu, ids)
  {
    if pon !in t {
      return false;
    }
    var todo := t[pon].Keys;
    while todo != {}
      invariant todo <= t[pon].Keys
      invariant forall k: Key ::
        k.pon == pon && k.onu != onu && k.onu !in todo && k.id in ids ==> !Listed(t, k)
      decreases |todo|
    {
      var o :| o in todo;
      todo := todo - {o};
      if o != onu {
        var hit := OnuUses(t[pon][o], ids);
        if hit {
          var port, id :| port in t[pon][o] && id in t[pon][o][port] && id in ids;
          assert Listed(t, Key(pon, o, port, id));
          return true;
        }
      }
    }
    return false;
  }
}
