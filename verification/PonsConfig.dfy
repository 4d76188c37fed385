/** The configuration of the PON ports: validation, look-up, and the ranges announced to VOLTHA. */
module PonsConfig {
  import opened Basics

  type Uint32 = x: int | 0 <= x < TWO_32

  datatype IdRange = IdRange(start: Uint32, end: Uint32)

  datatype PonRange = PonRange(pons: IdRange, tech: string, onus: IdRange, allocs: IdRange, gems: IdRange)

  datatype Config = Config(number: Uint32, ranges: seq<PonRange>)

  datatype Verdict =
    | Accepted
    | NoPonPorts
    | BadTechnology(range: nat)
    | BadPonLimits(range: nat)
    | PortBeyondMax(port: nat, range: nat)
    | DuplicatePort(port: nat, range: nat)
    | BadOnuLimits(range: nat)
    | BadAllocLimits(range: nat)
    | BadGemLimits(range: nat)
    | PortNotDefined(port: nat)

  predicate KnownTechnology(tech: string) {
    tech == "GPON" || tech == "XGS-PON"
  }

  predicate Ordered(r: IdRange) {
    r.start <= r.end
  }

  predicate WellFormed(r: PonRange) {
    KnownTechnology(r.tech) && Ordered(r.pons) && Ordered(r.onus) && Ordered(r.allocs) && Ordered(r.gems)
  }

  predicate Covers(c: Config, r: nat, p: int)
    requires r < |c.ranges|
  {
    c.ranges[r].pons.start <= p <= c.ranges[r].pons.end
  }

  predicate CoveredBelow(c: Config, k: nat, p: int)
    requires k <= |c.ranges|
  {
    exists r: nat | r < k :: Covers(c, r, p)
  }

  /** No port lies in two of the first k ranges. */
  ghost predicate Disjoint(c: Config, k: nat)
    requires k <= |c.ranges|
  {
    forall r: nat, r': nat, p: int | r < r' < k :: !(Covers(c, r, p) && Covers(c, r', p))
  }

  /** The PON ranges divide 0..number-1 among themselves. */
  ghost predicate Partition(c: Config) {
    && Disjoint(c, |c.ranges|)
    && forall p: int :: 0 <= p < c.number <==> CoveredBelow(c, |c.ranges|, p)
  }

  ghost predicate Valid(c: Config) {
    && c.number > 0 && Partition(c)
    && forall r | 0 <= r < |c.ranges| :: WellFormed(c.ranges[r])
  }

  // ---------------------------------------------------------------------------
  // validatePonsConfig

  /** The first k ranges have passed and the counters say which ports they cover. */
  ghost predicate Checked(c: Config, k: nat, defined: seq<int>)
    requires k <= |c.ranges|
  {
    && |defined| == c.number && c.number > 0
    && (forall r | 0 <= r < k :: WellFormed(c.ranges[r]) && c.ranges[r].pons.end < c.number)
    && Disjoint(c, k)
    && forall p | 0 <= p < |defined| :: defined[p] == if CoveredBelow(c, k, p) then 1 else 0
  }

  method Validate(c: Config) returns (v: Verdict)
    ensures v.Accepted? <==> Valid(c)
  {
    if c.number == 0 {
      return NoPonPorts;
    }
    var defined := new int[c.number](i => 0);
    for k := 0 to |c.ranges|
      invariant Checked(c, k, defined[..])
    {
      v := ValidateRange(c, k, defined);
      if !v.Accepted? {
        return;
      }
    }
    for i := 0 to defined.Length
      invariant Checked(c, |c.ranges|, defined[..])
      invariant forall p | 0 <= p < i :: CoveredBelow(c, |c.ranges|, p)
    {
      if defined[i] < 1 {
        assert !CoveredBelow(c, |c.ranges|, i);
        return PortNotDefined(i);
      }
      assert defined[..][i] == 1;
    }
    AllChecked(c, defined[..]);
    v := Accepted;
  }

  lemma AllChecked(c: Config, defined: seq<int>)
    requires Checked(c, |c.ranges|, defined)
    requires forall p | 0 <= p < c.number :: CoveredBelow(c, |c.ranges|, p)
    ensures Valid(c)
  {
    forall p: int
      ensures 0 <= p < c.number <==> CoveredBelow(c, |c.ranges|, p)
    {
      if CoveredBelow(c, |c.ranges|, p) {
        var r: nat :| r < |c.ranges| && Covers(c, r, p);
        assert WellFormed(c.ranges[r]) && c.ranges[r].pons.end < c.number;
      }
    }
  }

  /** One round of the loop over the ranges. */
  method ValidateRange(c: Config, k: nat, defined: array<int>) returns (v: Verdict)
    requires k < |c.ranges| && Checked(c, k, defined[..])
    modifies defined
    ensures v.Accepted? ==> Checked(c, k + 1, defined[..])
    ensures !v.Accepted? ==> !Valid(c)
  {
    var r := c.ranges[k];
    if !KnownTechnology(r.tech) {
      return BadTechnology(k);
    }
    if r.pons.end < r.pons.start {
      return BadPonLimits(k);
    }
    v := MarkPorts(c, k, defined);
    if !v.Accepted? {
      return;
    }
    if r.onus.end < r.onus.start {
      return BadOnuLimits(k);
    }
    if r.allocs.end < r.allocs.start {
      return BadAllocLimits(k);
    }
    if r.gems.end < r.gems.start {
      return BadGemLimits(k);
    }
    RangeChecked(c, k, defined[..]);
  }

  /** Counters after the ports up to (not including) q of range k have been marked. */
  ghost predicate Marked(c: Config, k: nat, q: int, defined: seq<int>)
    requires k < |c.ranges|
  {
    && |defined| == c.number && c.number > 0
    && (forall r | 0 <= r < k :: WellFormed(c.ranges[r]) && c.ranges[r].pons.end < c.number)
    && Disjoint(c, k)
    && (forall p: int | c.ranges[k].pons.start <= p < q :: !CoveredBelow(c, k, p))
    && forall p | 0 <= p < |defined| ::
         defined[p] == if CoveredBelow(c, k, p) || c.ranges[k].pons.start <= p < q then 1 else 0
  }

  /**
    The uint32 loop over the ports of a range.  It ends even for the end id 2^32 - 1: a port
    past the last one is refused before the loop variable can wrap around.
   */
  method MarkPorts(c: Config, k: nat, defined: array<int>) returns (v: Verdict)
    requires k < |c.ranges| && Checked(c, k, defined[..]) && Ordered(c.ranges[k].pons)
    modifies defined
    ensures v.Accepted? ==> Marked(c, k, c.ranges[k].pons.end + 1, defined[..]) && c.ranges[k].pons.end < c.number
    ensures !v.Accepted? ==> !Valid(c)
  {
    var p: Uint32 := c.ranges[k].pons.start;
    while p <= c.ranges[k].pons.end
      invariant c.ranges[k].pons.start <= p <= c.ranges[k].pons.end + 1
      invariant p <= c.number || p == c.ranges[k].pons.start
      invariant Marked(c, k, p, defined[..])
      decreases TWO_32 - p
    {
      if p > c.number - 1 {
        Uncoverable(c, k, p);
        return PortBeyondMax(p, k);
      }
      defined[p] := defined[p] + 1;
      if defined[p] > 1 {
        Overlap(c, k, p);
        return DuplicatePort(p, k);
      }
      assert !CoveredBelow(c, k, p);
      p := (p + 1) % TWO_32;
    }
    v := Accepted;
  }

  lemma Uncoverable(c: Config, k: nat, p: int)
    requires k < |c.ranges| && Covers(c, k, p) && p >= c.number
    ensures !Valid(c)
  {
    assert CoveredBelow(c, |c.ranges|, p);
  }

  lemma Overlap(c: Config, k: nat, p: int)
    requires k < |c.ranges| && Covers(c, k, p) && CoveredBelow(c, k, p)
    ensures !Valid(c)
  {
    var r: nat :| r < k && Covers(c, r, p);
  }

  lemma RangeChecked(c: Config, k: nat, defined: seq<int>)
    requires k < |c.ranges| && WellFormed(c.ranges[k]) && c.ranges[k].pons.end < c.number
    requires Marked(c, k, c.ranges[k].pons.end + 1, defined)
    ensures Checked(c, k + 1, defined)
  {
    forall p: int
      ensures CoveredBelow(c, k + 1, p) <==> CoveredBelow(c, k, p) || Covers(c, k, p)
    {
      if CoveredBelow(c, k + 1, p) {
        var r: nat :| r < k + 1 && Covers(c, r, p);
        assert r < k ==> CoveredBelow(c, k, p);
      }
    }
    forall r: nat, p: int | r < k && Covers(c, r, p)
      ensures !Covers(c, k, p)
    {
      assert CoveredBelow(c, k, p);
    }
    assert Disjoint(c, k + 1);
    forall p | 0 <= p < |defined|
      ensures defined[p] == if CoveredBelow(c, k + 1, p) then 1 else 0
    {
      assert Covers(c, k, p) <==> c.ranges[k].pons.start <= p < c.ranges[k].pons.end + 1;
    }
  }

  // ---------------------------------------------------------------------------
  // GetPonConfigById

  /** The first range that contains the id; the number of ranges when there is none. */
  method GetPonConfigById(c: Config, id: Uint32) returns (r: nat)
    ensures r <= |c.ranges| && (r < |c.ranges| ==> Covers(c, r, id))
    ensures forall q: nat | q < r :: !Covers(c, q, id)
    ensures Valid(c) ==> (r < |c.ranges| <==> id < c.number)
    ensures Valid(c) && r < |c.ranges| ==> forall q: nat | q < |c.ranges| && q != r :: !Covers(c, q, id)
  {
    r := 0;
    while r < |c.ranges|
      invariant r <= |c.ranges|
      invariant forall q: nat | q < r :: !Covers(c, q, id)
    {
      if c.ranges[r].pons.start <= id && id <= c.ranges[r].pons.end {
        assert Covers(c, r, id) && CoveredBelow(c, |c.ranges|, id);
        return;
      }
      r := r + 1;
    }
    assert !CoveredBelow(c, |c.ranges|, id);
  }

  // ---------------------------------------------------------------------------
  // GetDeviceInfo

  function Interval(start: nat, n: nat): seq<nat> {
    seq(n, i requires 0 <= i => start + i)
  }

  /** The ids of a range, in order; none if its limits are reversed. */
  function IdsOf(r: IdRange): seq<nat> {
    if Ordered(r) then Interval(r.start, r.end - r.start + 1) else []
  }

  /**
    The loop that lists the ids of one range.  Its uint32 variable has to reach end + 1, which
    wraps around to 0 for the end id 2^32 - 1; no valid configuration has that one.
   */
  method ListIds(r: IdRange) returns (ids: seq<nat>)
    requires Ordered(r) && r.end < TWO_32 - 1
    ensures ids == IdsOf(r)
  {
    ids := [];
    var i := r.start;
    while i <= r.end
      invariant r.start <= i <= r.end + 1
      invariant ids == Interval(r.start, i - r.start)
      decreases r.end - i + 1
    {
      ids := ids + [i];
      i := (i + 1) % TWO_32;
    }
  }

  /** The interface ids announced to VOLTHA: with a valid configuration each PON is listed exactly once. */
  method DeviceInfoRanges(c: Config) returns (lists: seq<seq<nat>>)
    requires Valid(c)
    ensures |lists| == |c.ranges|
    ensures forall r: nat | r < |lists| :: lists[r] == IdsOf(c.ranges[r].pons)
    ensures forall p: nat :: p < c.number <==> Listed(lists, p)
    ensures forall r: nat, i: nat, r': nat, i': nat ::
              r < |lists| && i < |lists[r]| && r' < |lists| && i' < |lists[r']| && lists[r][i] == lists[r'][i'] ==>
                r == r' && i == i'
  {
    lists := [];
    for k := 0 to |c.ranges|
      invariant |lists| == k
      invariant forall r: nat | r < k :: lists[r] == IdsOf(c.ranges[r].pons)
    {
      EndsBelow(c, k);
      var ids := ListIds(c.ranges[k].pons);
      lists := lists + [ids];
    }
    ListedOnce(c, lists);
  }

  lemma EndsBelow(c: Config, r: nat)
    requires Valid(c) && r < |c.ranges|
    ensures Ordered(c.ranges[r].pons) && c.ranges[r].pons.end < c.number
  {
    assert Covers(c, r, c.ranges[r].pons.end);
    assert CoveredBelow(c, |c.ranges|, c.ranges[r].pons.end);
  }

  ghost predicate Listed(lists: seq<seq<nat>>, p: nat) {
    exists r: nat :: r < |lists| && p in lists[r]
  }

  lemma ListedOnce(c: Config, lists: seq<seq<nat>>)
    requires Valid(c) && |lists| == |c.ranges|
    requires forall r: nat | r < |lists| :: Ordered(c.ranges[r].pons) && lists[r] == IdsOf(c.ranges[r].pons)
    ensures forall p: nat :: p < c.number <==> Listed(lists, p)
    ensures forall r: nat, i: nat, r': nat, i': nat ::
              r < |lists| && i < |lists[r]| && r' < |lists| && i' < |lists[r']| && lists[r][i] == lists[r'][i'] ==>
                r == r' && i == i'
  {
    forall r: nat, p: nat | r < |lists|
      ensures p in lists[r] <==> Covers(c, r, p)
    {
      if Covers(c, r, p) {
        assert lists[r][p - c.ranges[r].pons.start] == p;
      }
    }
    forall p: nat
      ensures p < c.number <==> Listed(lists, p)
    {
      if p < c.number {
        assert CoveredBelow(c, |c.ranges|, p);
      }
      if Listed(lists, p) {
        var r: nat :| r < |lists| && p in lists[r];
        assert Covers(c, r, p) && CoveredBelow(c, |c.ranges|, p);
      }
    }
    forall r: nat, i: nat, r': nat, i': nat |
      r < |lists| && i < |lists[r]| && r' < |lists| && i' < |lists[r']| && lists[r][i] == lists[r'][i']
      ensures r == r' && i == i'
    {
      assert lists[r][i] in lists[r] && lists[r'][i'] in lists[r'];
      assert Covers(c, r, lists[r][i]) && Covers(c, r', lists[r][i]);
    }
  }

  // ---------------------------------------------------------------------------
  // getDefaultPonsConfig

  function Times(x: Uint32, y: Uint32): Uint32 {
    x * y % TWO_32
  }

  lemma TimesFits(x: Uint32, y: Uint32)
    requires x * y < TWO_32
    ensures Times(x, y) == x * y
  {
    Positive(x, y);
    Small(x * y);
  }

  lemma Positive(x: nat, y: nat)
    ensures 0 <= x * y
  {
  }

  lemma Small(z: nat)
    requires z < TWO_32
    ensures z % TWO_32 == z
  {
  }

  function Allocs(onusPerPon: Uint32, uniPorts: Uint32, services: nat): Uint32 {
    Times(onusPerPon, Times(uniPorts, services % TWO_32))
  }

  function Plus(x: Uint32, y: Uint32): Uint32 {
    (x + y) % TWO_32
  }

  /** The uint32 computation of the defaults. */
  function DefaultConfig(ponPorts: Uint32, onusPerPon: Uint32, uniPorts: Uint32, services: nat): Config {
    var allocs := Allocs(onusPerPon, uniPorts, services);
    Config(ponPorts,
           [PonRange(IdRange(0, Plus(ponPorts, TWO_32 - 1)), "XGS-PON",
                     IdRange(1, Plus(1, Plus(onusPerPon, TWO_32 - 1))),
                     IdRange(1024, Plus(1024, allocs)),
                     IdRange(1024, Plus(1024, allocs * 8 % TWO_32)))])
  }

  /**
    The default configuration is valid exactly when there are PON ports and ONUs and neither the
    alloc id nor the GEM port range wraps below its start.
   */
  lemma DefaultValidIff(ponPorts: Uint32, onusPerPon: Uint32, uniPorts: Uint32, services: nat)
    ensures var allocs := Allocs(onusPerPon, uniPorts, services);
            Valid(DefaultConfig(ponPorts, onusPerPon, uniPorts, services)) <==>
              ponPorts > 0 && onusPerPon > 0 && allocs < TWO_32 - 1024 && allocs * 8 % TWO_32 < TWO_32 - 1024
  {
    var c := DefaultConfig(ponPorts, onusPerPon, uniPorts, services);
    var allocs := Allocs(onusPerPon, uniPorts, services);
    PlusWraps(ponPorts, TWO_32 - 1);
    PlusWraps(onusPerPon, TWO_32 - 1);
    PlusWraps(1, Plus(onusPerPon, TWO_32 - 1));
    PlusWraps(1024, allocs);
    PlusWraps(1024, allocs * 8 % TWO_32);
    DefaultPartition(c);
    assert c.ranges[0] in c.ranges;
  }

  lemma PlusWraps(x: Uint32, y: Uint32)
    ensures Plus(x, y) == if x + y < TWO_32 then x + y else x + y - TWO_32
  {
  }

  lemma DefaultPartition(c: Config)
    requires |c.ranges| == 1 && c.number > 0 ==> c.ranges[0].pons == IdRange(0, c.number - 1)
    ensures |c.ranges| == 1 && c.number > 0 ==> Partition(c)
  {
    if |c.ranges| == 1 && c.number > 0 {
      forall p: int
        ensures 0 <= p < c.number <==> CoveredBelow(c, |c.ranges|, p)
      {
        assert Covers(c, 0, p) <==> 0 <= p < c.number;
      }
    }
  }

  /** Positive counts whose products fit give a valid default configuration. */
  lemma DefaultValidWithoutOverflow(ponPorts: Uint32, onusPerPon: Uint32, uniPorts: Uint32, services: nat)
    requires ponPorts > 0 && onusPerPon > 0
    requires services < TWO_32 && onusPerPon * (uniPorts * services) * 8 < TWO_32 - 1024
    ensures Valid(DefaultConfig(ponPorts, onusPerPon, uniPorts, services))
  {
    hide Allocs;
    hide Valid;
    hide DefaultConfig;
    DefaultValidIff(ponPorts, onusPerPon, uniPorts, services);
    AllocsFit(onusPerPon, uniPorts, services);
    Positive(uniPorts, services);
    Positive(onusPerPon, uniPorts * services);
    Small(onusPerPon * (uniPorts * services) * 8);
  }

  /**
    Where nothing overflows the defaults are one range of all PON ports, ONU ids from 1, one alloc id for
    each service of each UNI of each ONU from 1024 on, and eight times as many GEM ports.
   */
  lemma DefaultRanges(ponPorts: Uint32, onusPerPon: Uint32, uniPorts: Uint32, services: nat, n: nat)
    requires ponPorts > 0 && onusPerPon > 0 && services < TWO_32
    requires n == onusPerPon * (uniPorts * services) && n * 8 < TWO_32 - 1024
    ensures var c := DefaultConfig(ponPorts, onusPerPon, uniPorts, services);
            && c.number == ponPorts && |c.ranges| == 1
            && var r := c.ranges[0];
               && r.pons == IdRange(0, ponPorts - 1) && r.tech == "XGS-PON" && r.onus == IdRange(1, onusPerPon)
               && r.allocs == IdRange(1024, 1024 + n) && r.gems == IdRange(1024, 1024 + n * 8)
  {
    hide Allocs;
    hide Plus;
    AllocsFit(onusPerPon, uniPorts, services);
    PlusWraps(ponPorts, TWO_32 - 1);
    PlusWraps(onusPerPon, TWO_32 - 1);
    PlusWraps(1, Plus(onusPerPon, TWO_32 - 1));
    PlusWraps(1024, n);
    PlusWraps(1024, n * 8);
  }

  lemma Grows(k: nat, a: nat)
    requires k > 0
    ensures a <= k * a
  {
    assert 0 <= (k - 1) * a;
    assert k * a == (k - 1) * a + a;
  }

  lemma AllocsFit(onusPerPon: Uint32, uniPorts: Uint32, services: nat)
    requires onusPerPon > 0
    requires services < TWO_32 && onusPerPon * (uniPorts * services) * 8 < TWO_32
    ensures Allocs(onusPerPon, uniPorts, services) == onusPerPon * (uniPorts * services)
  {
    hide Times;
    var a := uniPorts * services;
    Grows(onusPerPon, a);
    assert services % TWO_32 == services;
    TimesFits(uniPorts, services);
    TimesFits(onusPerPon, a);
  }
}
