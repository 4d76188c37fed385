/** Disabling a PON port and enabling it again. */
module PonRoundTrip {
  import opened OnuFsm
  import opened OnuModel
  import opened DeviceModel

  /** The table records exactly the ONUs lo, ..., hi - 1. */
  ghost predicate Records(m: map<nat, nat>, onus: seq<Onu>, lo: nat, hi: nat)
    requires hi <= |onus|
  {
    && (forall i: nat | lo <= i < hi :: onus[i].id in m && m[onus[i].id] == i)
    && (forall id | id in m :: lo <= m[id] < hi && onus[m[id]].id == id)
  }

  lemma RecordsUnique(m: map<nat, nat>, m': map<nat, nat>, onus: seq<Onu>, lo: nat, hi: nat)
    requires hi <= |onus| && Records(m, onus, lo, hi) && Records(m', onus, lo, hi)
    ensures m == m'
  {
  }

  ghost predicate DistinctIds(onus: seq<Onu>) {
    forall i, j :: 0 <= i < j < |onus| ==> onus[i].id != onus[j].id
  }

  /** The tables without the entries of the first n serial numbers. */
  function DropBelow(t: PonTables, n: nat): PonTables {
    t.(gemPorts := map g | g in t.gemPorts && t.gemPorts[g] >= n :: t.gemPorts[g],
       allocIds := map k | k in t.allocIds && t.allocIds[k].sn >= n :: t.allocIds[k])
  }

  lemma DropNext(t: PonTables, n: nat)
    ensures DropSn(DropBelow(t, n), n) == DropBelow(t, n + 1)
  {
  }

  function Lowered(o: Onu): Onu {
    o.(state := OnuState.PonDisabled, flows := [])
  }

  function Restored(o: Onu): Onu {
    Send(o.(flows := []), Indication)
  }

  ghost predicate Enabled(onus: seq<Onu>) {
    DistinctIds(onus) && forall i | 0 <= i < |onus| :: onus[i].state == OnuState.Enabled
  }

  /** All ONUs are enabled under distinct ids and the table records exactly them. */
  ghost predicate AllEnabled(p: Pon) {
    p.state.PonEnabled? && Enabled(p.onus) && Records(p.tables.onuIds, p.onus, 0, |p.onus|)
  }

  ghost predicate LoweredUpTo(p: Pon, r: Pon, n: nat) {
    && |r.onus| == |p.onus| && n <= |p.onus|
    && (forall i | 0 <= i < |p.onus| :: r.onus[i] == if i < n then Lowered(p.onus[i]) else p.onus[i])
    && Records(r.tables.onuIds, p.onus, n, |p.onus|)
    && r.tables == DropBelow(p.tables, n).(onuIds := r.tables.onuIds)
  }

  lemma LowerOne(c: Cell, sn: nat)
    requires c.onu.state == OnuState.Enabled
    ensures LowerOnu(c, sn) == Cell(Lowered(c.onu), DropSn(c.tables.(onuIds := c.tables.onuIds - {c.onu.id}), sn))
  {
  }

  lemma RaiseOne(c: Cell, sn: nat, mode: Mode, o: Onu)
    requires c.onu == Lowered(o) && o.state == OnuState.Enabled && o.id !in c.tables.onuIds
    requires mode.Default? || mode.OnlyPon?
    ensures RaiseOnu(c, sn, mode, PonDown) == Cell(Restored(o), c.tables.(onuIds := c.tables.onuIds[o.id := sn]))
  {
  }

  lemma RecordsShrink(m: map<nat, nat>, onus: seq<Onu>, lo: nat, hi: nat)
    requires lo < hi <= |onus| && DistinctIds(onus) && Records(m, onus, lo, hi)
    ensures Records(m - {onus[lo].id}, onus, lo + 1, hi)
  {
  }

  lemma RecordsGrow(m: map<nat, nat>, onus: seq<Onu>, hi: nat)
    requires hi < |onus| && DistinctIds(onus) && Records(m, onus, 0, hi)
    ensures onus[hi].id !in m && Records(m[onus[hi].id := hi], onus, 0, hi + 1)
  {
    assert forall id | id in m :: id != onus[hi].id;
  }

  lemma LowerNext(p: Pon, r: Pon, n: nat)
    requires n < |p.onus| && Enabled(p.onus) && LoweredUpTo(p, r, n)
    ensures LoweredUpTo(p, PutCell(r, n, LowerOnu(CellAt(r, n), n)), n + 1)
  {
    LowerOne(CellAt(r, n), n);
    RecordsShrink(r.tables.onuIds, p.onus, n, |p.onus|);
    DropNext(p.tables, n);
  }

  lemma {:induction false} LowerAll(p: Pon, n: nat)
    requires n <= |p.onus| && Enabled(p.onus) && LoweredUpTo(p, p, 0)
    ensures LoweredUpTo(p, LowerOnus(p, n), n)
  {
    hide LowerOnu;
    hide LoweredUpTo;
    if n > 0 {
      LowerAll(p, n - 1);
      LowerNext(p, LowerOnus(p, n - 1), n - 1);
    }
  }

  ghost predicate RaisedUpTo(onus: seq<Onu>, r: Pon, n: nat) {
    && |r.onus| == |onus| && n <= |onus|
    && (forall i | 0 <= i < |onus| :: r.onus[i] == if i < n then Restored(onus[i]) else Lowered(onus[i]))
    && Records(r.tables.onuIds, onus, 0, n)
  }

  lemma RaiseNext(onus: seq<Onu>, r: Pon, mode: Mode, n: nat)
    requires n < |onus| && Enabled(onus) && RaisedUpTo(onus, r, n)
    requires mode.Default? || mode.OnlyPon?
    ensures RaisedUpTo(onus, PutCell(r, n, RaiseOnu(CellAt(r, n), n, mode, PonDown)), n + 1)
  {
    RecordsGrow(r.tables.onuIds, onus, n);
    RaiseOne(CellAt(r, n), n, mode, onus[n]);
  }

  lemma {:induction false} RaiseAll(onus: seq<Onu>, d: Pon, mode: Mode, n: nat)
    requires n <= |onus| && Enabled(onus) && RaisedUpTo(onus, d, 0)
    requires mode.Default? || mode.OnlyPon?
    ensures RaisedUpTo(onus, RaiseOnus(d, mode, PonDown, n), n)
  {
    hide Restored;
    hide Lowered;
    hide Records;
    hide Enabled;
    hide RaiseOnu;
    if n > 0 {
      RaiseAll(onus, d, mode, n - 1);
      RaiseNext(onus, RaiseOnus(d, mode, PonDown, n - 1), mode, n - 1);
    }
  }

  /**
    Disabling moves every ONU to pon_disabled and empties the ONU-ID table and the GEM port
    and T-CONT entries of the ONUs; enabling restores the states and the same ONU-ID table.
    What the round trip loses are the flow keys, what it adds is one indication per ONU.
   */
  lemma DisableThenEnable(p: Pon, mode: Mode)
    requires AllEnabled(p) && (mode.Default? || mode.OnlyPon?)
    ensures var d := DisablePon(p);
            && d.tables == DropBelow(p.tables, |p.onus|).(onuIds := map[]) && |d.onus| == |p.onus|
            && forall i | 0 <= i < |p.onus| :: d.onus[i] == Lowered(p.onus[i])
    ensures var r := EnablePon(DisablePon(p), mode);
            && r.state == p.state && r.tables.onuIds == p.tables.onuIds && |r.onus| == |p.onus|
            && forall i | 0 <= i < |p.onus| :: r.onus[i] == Restored(p.onus[i])
  {
    var p0 := p.(state := PonDown);
    var d := DisablePon(p);
    assert DropBelow(p.tables, 0) == p.tables;
    LowerAll(p0, |p.onus|);
    assert LoweredUpTo(p0, d, |p.onus|);
    assert d.tables.onuIds == map[];
    var d1 := d.(state := PonEnabled);
    RaiseAll(p.onus, d1, mode, |p.onus|);
    var r := EnablePon(d, mode);
    RecordsUnique(r.tables.onuIds, p.tables.onuIds, p.onus, 0, |p.onus|);
  }

  /** In the controlled activation modes the ONUs come back merely initialized and unrecorded. */
  lemma ControlledModeDoesNotRestore(p: Pon, mode: Mode, i: nat)
    requires AllEnabled(p) && (mode.OnlyOnu? || mode.Both?) && i < |p.onus|
    ensures var r := EnablePon(DisablePon(p), mode);
            |r.onus| == |p.onus| && r.onus[i].state == OnuState.Initialized && r.tables.onuIds == map[]
  {
    var p0 := p.(state := PonDown);
    assert DropBelow(p.tables, 0) == p.tables;
    LowerAll(p0, |p.onus|);
    var d1 := DisablePon(p).(state := PonEnabled);
    assert d1.tables.onuIds == map[];
    InitializeAll(d1, mode, |p.onus|);
  }

  lemma {:induction false} InitializeAll(d: Pon, mode: Mode, n: nat)
    requires n <= |d.onus| && (mode.OnlyOnu? || mode.Both?)
    requires forall i | 0 <= i < |d.onus| :: d.onus[i].state == OnuState.PonDisabled
    ensures var r := RaiseOnus(d, mode, PonDown, n);
            && r.tables == d.tables
            && forall i | 0 <= i < |d.onus| ::
                 if i < n then r.onus[i].state == OnuState.Initialized else r.onus[i] == d.onus[i]
  {
    if n > 0 {
      InitializeAll(d, mode, n - 1);
    }
  }
}
