/** The OMCI transaction ids an emulated VOLTHA gives out, section 11.2.1 of ITU-T G.988. */
module TransactionIds {

  const TWO_16 := 0x1_0000
  const HIGH := 0x8000

  datatype Tids = Tids(tid: nat, hpTid: nat)

  const FIRST := Tids(1, HIGH)

  /** The uint16 increments of getNextTid. */
  function Advance(t: Tids, high: bool): Tids {
    if high then
      var n := (t.hpTid + 1) % TWO_16;
      t.(hpTid := if n < HIGH then HIGH else n)
    else
      var n := (t.tid + 1) % TWO_16;
      t.(tid := if n >= HIGH then 1 else n)
  }

  function Given(t: Tids, high: bool): nat {
    if high then t.hpTid else t.tid
  }

  class Generator {
    var tid: nat
    var hpTid: nat

    ghost function Abs(): Tids
      reads this
    {
      Tids(tid, hpTid)
    }

    constructor ()
      ensures Abs() == FIRST
    {
      tid, hpTid := 1, HIGH;
    }

    /** getNextTid. */
    method Next(high: bool) returns (next: nat)
      modifies this
      ensures next == Given(old(Abs()), high)
      ensures Abs() == Advance(old(Abs()), high)
    {
      if high {
        next := hpTid;
        hpTid := (hpTid + 1) % TWO_16;
        if hpTid < HIGH {
          hpTid := HIGH;
        }
      } else {
        next := tid;
        tid := (tid + 1) % TWO_16;
        if tid >= HIGH {
          tid := 1;
        }
      }
    }
  }

  /** The generator after a sequence of calls, true for a high priority one. */
  function After(calls: seq<bool>): Tids {
    if calls == [] then FIRST else Advance(After(calls[..|calls| - 1]), calls[|calls| - 1])
  }

  function Calls(calls: seq<bool>, high: bool): nat {
    if calls == [] then 0
    else Calls(calls[..|calls| - 1], high) + (if calls[|calls| - 1] == high then 1 else 0)
  }

  /** Each class cycles through its own range, unaffected by calls of the other class. */
  lemma {:induction false} ClosedForm(calls: seq<bool>)
    ensures After(calls).tid == 1 + Calls(calls, false) % 0x7FFF
    ensures After(calls).hpTid == HIGH + Calls(calls, true) % HIGH
  {
    hide Advance;
    if calls != [] {
      var before := calls[..|calls| - 1];
      ClosedForm(before);
      AdvanceCycles(Calls(before, false), Calls(before, true), calls[|calls| - 1]);
    }
  }

  lemma AdvanceCycles(n: nat, m: nat, high: bool)
    ensures Advance(Tids(1 + n % 0x7FFF, HIGH + m % HIGH), high) ==
            if high then Tids(1 + n % 0x7FFF, HIGH + (m + 1) % HIGH) else Tids(1 + (n + 1) % 0x7FFF, HIGH + m % HIGH)
  {
    assert (n + 1) % 0x7FFF == if n % 0x7FFF == 0x7FFE then 0 else n % 0x7FFF + 1;
    assert (m + 1) % HIGH == if m % HIGH == HIGH - 1 then 0 else m % HIGH + 1;
  }

  function Period(high: bool): nat {
    if high then HIGH else 0x7FFF
  }

  /**
    Under every interleaving, normal ids lie in 1..0x7FFF and high priority ids in 0x8000..0xFFFF,
    and two ids of one class are equal exactly when a multiple of the full period lies between them.
   */
  lemma IdsRepeatIff(calls: seq<bool>, calls': seq<bool>, high: bool)
    ensures var id := Given(After(calls), high);
            if high then HIGH <= id < TWO_16 else 1 <= id < HIGH
    ensures Given(After(calls), high) == Given(After(calls'), high) <==>
              Calls(calls, high) % Period(high) == Calls(calls', high) % Period(high)
  {
    ClosedForm(calls);
    ClosedForm(calls');
  }
}
