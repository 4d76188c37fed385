/** What holds of the OMCI state of one ONU over every sequence of requests and other events. */
module OmciRuns {
  import opened Basics
  import opened FlowTables
  import opened OnuFsm
  import opened OnuModel

  /**
    What happens to an ONU: a request, the invalidation of its MIB data sync, or anything else.
    `where` is what the rest of the ONU and its PON tables are by then; only the OMCI
    state comes from the input before.
   */
  datatype Input =
    | Ask(request: Request, where: Cell)
    | Spoil(random: nat)
    | Other(where: Cell)

  /** The ONU: its PON, its serial number, the configured response rate and the checksum. */
  datatype Setting = Setting(pon: nat, sn: nat, rate: nat, crc: string -> nat)

  function In(c: Cell, where: Cell): Cell {
    where.(onu := where.onu.(omci := c.onu.omci))
  }

  function Take(c: Cell, x: Input, e: Setting): Handled {
    match x
    case Ask(q, where) => HandleOmci(In(c, where), e.pon, e.sn, q, e.rate, e.crc)
    case Spoil(random) => Handled(c.(onu := c.onu.(omci := Invalidate(c.onu.omci, random))), Silent)
    case Other(where) => Handled(In(c, where), Silent)
  }

  predicate OnuFollows(c: Cell, x: Input, c': Cell, e: Setting) {
    c' == Take(c, x, e).cell
  }

  /** The states an ONU goes through along a run. */
  ghost predicate OnuTrace(cells: seq<Cell>, run: seq<Input>, e: Setting) {
    |cells| == |run| + 1 && forall i | 0 <= i < |run| :: OnuFollows(cells[i], run[i], cells[i + 1], e)
  }

  lemma TraceInit(cells: seq<Cell>, run: seq<Input>, e: Setting)
    requires OnuTrace(cells, run, e) && run != []
    ensures OnuTrace(cells[..|run|], run[..|run| - 1], e)
  {
  }

  lemma TracePrefix(cells: seq<Cell>, run: seq<Input>, e: Setting, n: nat)
    requires OnuTrace(cells, run, e) && n <= |run|
    ensures OnuTrace(cells[..n + 1], run[..n], e)
  {
  }

  lemma TraceLast(cells: seq<Cell>, run: seq<Input>, e: Setting)
    requires OnuTrace(cells, run, e) && run != []
    ensures cells[|run|] == Take(cells[|run| - 1], run[|run| - 1], e).cell
  {
    assert OnuFollows(cells[|run| - 1], run[|run| - 1], cells[|run|], e);
  }

  // ---------------------------------------------------------------------------
  // The response rate

  predicate Skipped(c: Cell, rate: nat) {
    NextCounter(c.onu.omci.counter) > rate
  }

  /** A skipped request changes nothing but the counter and is not answered. */
  lemma SkippedOnlyCounts(c: Cell, q: Request, e: Setting)
    ensures var h := HandleOmci(c, e.pon, e.sn, q, e.rate, e.crc);
            h.cell.onu.omci.counter == NextCounter(c.onu.omci.counter) &&
            (Skipped(c, e.rate) ==>
               h.reply == Silent &&
               h.cell == c.(onu := c.onu.(omci := c.onu.omci.(counter := NextCounter(c.onu.omci.counter)))))
  {
    var c1 := c.(onu := c.onu.(omci := c.onu.omci.(counter := NextCounter(c.onu.omci.counter))));
    AnswerKeepsCounter(c1, e.pon, e.sn, q, e.crc);
  }

  /** The requests of a run that are processed. */
  function Processed(cells: seq<Cell>, run: seq<Input>, e: Setting): nat
    requires |cells| == |run| + 1
  {
    if run == [] then 0
    else Processed(cells[..|run|], run[..|run| - 1], e) +
         (if run[|run| - 1].Ask? && !Skipped(cells[|run| - 1], e.rate) then 1 else 0)
  }

  function Asked(run: seq<Input>): nat {
    if run == [] then 0 else Asked(run[..|run| - 1]) + (if run[|run| - 1].Ask? then 1 else 0)
  }

  /** The counter after n requests; it cycles through 1, ..., 10. */
  function CounterAfter(k: nat, n: nat): nat {
    if n == 0 then k else NextCounter(CounterAfter(k, n - 1))
  }

  function Min(a: nat, b: nat): nat {
    if a < b then a else b
  }

  lemma CounterCycles(n: nat)
    ensures CounterAfter(0, n) == if n == 0 then 0 else (n - 1) % 10 + 1
  {
  }

  /** How many of the values 1, ..., 10 that the counter takes at requests a+1, ..., a+n pass the rate. */
  function Passing(a: nat, n: nat, rate: nat): nat {
    if n == 0 then 0 else Passing(a, n - 1, rate) + (if (a + n - 1) % 10 + 1 <= rate then 1 else 0)
  }

  lemma {:induction false} PassingFromZero(n: nat, rate: nat)
    ensures Passing(0, n, rate) == n / 10 * Min(rate, 10) + Min(n % 10, rate)
  {
    if n > 0 {
      PassingFromZero(n - 1, rate);
      if n % 10 == 0 {
        assert (n - 1) / 10 == n / 10 - 1 && (n - 1) % 10 == 9;
        assert n / 10 * Min(rate, 10) == (n / 10 - 1) * Min(rate, 10) + Min(rate, 10);
      } else {
        assert (n - 1) / 10 == n / 10 && (n - 1) % 10 == n % 10 - 1;
      }
    }
  }

  lemma {:induction false} PassingSplits(a: nat, n: nat, rate: nat)
    ensures Passing(0, a + n, rate) == Passing(0, a, rate) + Passing(a, n, rate)
  {
    if n > 0 {
      PassingSplits(a, n - 1, rate);
      assert a + n - 1 == a + (n - 1);
    }
  }

  /** In any ten consecutive requests exactly min(rate, 10) are processed. */
  lemma TenInARow(a: nat, rate: nat)
    ensures Passing(a, 10, rate) == Min(rate, 10)
  {
    PassingSplits(a, 10, rate);
    PassingFromZero(a, rate);
    PassingFromZero(a + 10, rate);
    assert (a + 10) / 10 == a / 10 + 1 && (a + 10) % 10 == a % 10;
    assert (a / 10 + 1) * Min(rate, 10) == a / 10 * Min(rate, 10) + Min(rate, 10);
  }

  lemma SkippedAt(c: Cell, rate: nat, n: nat)
    requires c.onu.omci.counter == CounterAfter(0, n)
    ensures NextCounter(c.onu.omci.counter) == CounterAfter(0, n + 1)
    ensures Skipped(c, rate) <==> n % 10 + 1 > rate
  {
    CounterCycles(n);
    CounterCycles(n + 1);
  }

  lemma PassingNext(a: nat, n: nat, rate: nat, skipped: bool)
    requires skipped <==> (a + n) % 10 + 1 > rate
    ensures Passing(a, n + 1, rate) == Passing(a, n, rate) + (if skipped then 0 else 1)
  {
  }

  lemma {:induction false} CounterAlong(cells: seq<Cell>, run: seq<Input>, e: Setting, a: nat)
    requires OnuTrace(cells, run, e) && cells[0].onu.omci.counter == CounterAfter(0, a)
    ensures cells[|run|].onu.omci.counter == CounterAfter(0, a + Asked(run))
  {
    if run != [] {
      TraceInit(cells, run, e);
      TraceLast(cells, run, e);
      CounterAlong(cells[..|run|], run[..|run| - 1], e, a);
      TakeKeepsCounter(cells[|run| - 1], run[|run| - 1], e);
    }
  }

  /** Along a run of an ONU that has seen `a` requests, whatever else happens to it. */
  lemma {:induction false} ProcessedIsPassing(cells: seq<Cell>, run: seq<Input>, e: Setting, a: nat)
    requires OnuTrace(cells, run, e) && cells[0].onu.omci.counter == CounterAfter(0, a)
    ensures Processed(cells, run, e) == Passing(a, Asked(run), e.rate)
  {
    hide CounterAfter;
    hide Take;
    hide NextCounter;
    hide Skipped;
    if run != [] {
      var init := run[..|run| - 1];
      TraceInit(cells, run, e);
      ProcessedIsPassing(cells[..|run|], init, e, a);
      CounterAlong(cells[..|run|], init, e, a);
      SkippedAt(cells[|run| - 1], e.rate, a + Asked(init));
      PassingNext(a, Asked(init), e.rate, Skipped(cells[|run| - 1], e.rate));
    }
  }

  lemma TakeKeepsCounter(c: Cell, x: Input, e: Setting)
    ensures Take(c, x, e).cell.onu.omci.counter ==
              if x.Ask? then NextCounter(c.onu.omci.counter) else c.onu.omci.counter
  {
    match x
    case Ask(q, where) => SkippedOnlyCounts(In(c, where), q, e);
    case _ =>
  }

  /**
    A new ONU processes n/10 * min(rate, 10) + min(n mod 10, rate) of its first n requests, and
    min(rate, 10) of any ten consecutive ones, under every interleaving with other inputs.
   */
  lemma ResponseRate(cells: seq<Cell>, before: seq<Input>, cells': seq<Cell>, run: seq<Input>, e: Setting)
    requires OnuTrace(cells, before, e) && cells[0].onu.omci.counter == 0
    requires OnuTrace(cells', run, e) && cells'[0] == cells[|before|]
    ensures var n := Asked(before);
            Processed(cells, before, e) == n / 10 * Min(e.rate, 10) + Min(n % 10, e.rate)
    ensures Asked(run) == 10 ==> Processed(cells', run, e) == Min(e.rate, 10)
  {
    hide Take;
    hide Skipped;
    hide Passing;
    hide Processed;
    ProcessedIsPassing(cells, before, e, 0);
    PassingFromZero(Asked(before), e.rate);
    CounterAlong(cells, before, e, 0);
    ProcessedIsPassing(cells', run, e, Asked(before));
    TenInARow(Asked(before), e.rate);
  }

  // ---------------------------------------------------------------------------
  // MIB data sync

  /** The requests that change the MIB. */
  predicate Changes(q: Request) {
    q.SetPort? || q.SetOnuG? || q.SetTCont? || q.SetOther? || q.Create? || q.Delete? ||
    q.StartDownload? || q.EndDownload? || q.ActivateSoftware? || q.CommitSoftware?
  }

  /** A change that VOLTHA is told has succeeded. */
  predicate Acknowledged(c: Cell, x: Input, e: Setting) {
    x.Ask? && Changes(x.request) && Take(c, x, e).reply == Acked
  }

  /** A successful MIB reset or an invalidation gives the counter a new base. */
  predicate Rebases(c: Cell, x: Input, e: Setting) {
    x.Spoil? || (x.Ask? && x.request.MibReset? && Take(c, x, e).reply == Acked)
  }

  function Mds(c: Cell): nat {
    c.onu.omci.mds
  }

  lemma EndCounts(c: Cell, end: Option<ImageEnd>, ok: bool, crc: string -> nat)
    requires Mds(c) < 256
    ensures var h := AnswerEnd(c, end, ok, crc);
            Mds(h.cell) == if h.reply == Acked then (Mds(c) + 1) % 256 else Mds(c)
  {
  }

  lemma AnswerCounts(c: Cell, q: Request, e: Setting)
    requires Mds(c) < 256
    ensures var h := Answer(c, e.pon, e.sn, q, e.crc);
            Mds(h.cell) == if q.MibReset? && h.reply == Acked then 0
                           else if Changes(q) && h.reply == Acked then (Mds(c) + 1) % 256
                           else Mds(c)
  {
    if q.EndDownload? { EndCounts(c, q.end, q.ok, e.crc); }
  }

  lemma TakeCounts(c: Cell, x: Input, e: Setting)
    requires Mds(c) < 256
    ensures Mds(Take(c, x, e).cell) < 256
    ensures Acknowledged(c, x, e) ==> Mds(Take(c, x, e).cell) == (Mds(c) + 1) % 256
    ensures !Acknowledged(c, x, e) && !Rebases(c, x, e) ==> Mds(Take(c, x, e).cell) == Mds(c)
    ensures Rebases(c, x, e) && x.Ask? ==> Mds(Take(c, x, e).cell) == 0
    ensures x.Spoil? ==> Mds(Take(c, x, e).cell) != 0 && Mds(Take(c, x, e).cell) != Mds(c)
  {
    match x
    case Ask(q, where) =>
      var d := In(c, where);
      AnswerCounts(d.(onu := d.onu.(omci := d.onu.omci.(counter := NextCounter(d.onu.omci.counter)))), q, e);
    case _ =>
  }

  lemma TakeCountsOn(c: Cell, x: Input, e: Setting, n: nat)
    requires Mds(c) == n % 256 && !Rebases(c, x, e)
    ensures Mds(Take(c, x, e).cell) == (n + AckOf(c, x, e)) % 256
  {
    TakeCounts(c, x, e);
  }

  function AckOf(c: Cell, x: Input, e: Setting): nat {
    if Acknowledged(c, x, e) then 1 else 0
  }

  /** The changes of a run acknowledged from input n on. */
  function Acks(cells: seq<Cell>, run: seq<Input>, e: Setting, n: nat): nat
    requires |cells| == |run| + 1
    decreases |run|
  {
    if |run| <= n then 0
    else Acks(cells[..|run|], run[..|run| - 1], e, n) + AckOf(cells[|run| - 1], run[|run| - 1], e)
  }

  /** The number of inputs up to and including the last one that rebases the counter. */
  function LastRebase(cells: seq<Cell>, run: seq<Input>, e: Setting): (n: nat)
    requires |cells| == |run| + 1
    ensures n <= |run| && (n > 0 ==> Rebases(cells[n - 1], run[n - 1], e))
    ensures forall i | n <= i < |run| :: !Rebases(cells[i], run[i], e)
    decreases |run|
  {
    if run == [] then 0
    else if Rebases(cells[|run| - 1], run[|run| - 1], e) then |run|
    else LastRebase(cells[..|run|], run[..|run| - 1], e)
  }

  /** The counter stays a byte. */
  lemma {:induction false} MdsIsAByte(cells: seq<Cell>, run: seq<Input>, e: Setting)
    requires OnuTrace(cells, run, e) && Mds(cells[0]) < 256
    ensures Mds(cells[|run|]) < 256
  {
    hide Take;
    if run != [] {
      TraceInit(cells, run, e);
      TraceLast(cells, run, e);
      MdsIsAByte(cells[..|run|], run[..|run| - 1], e);
      TakeCounts(cells[|run| - 1], run[|run| - 1], e);
    }
  }

  lemma {:induction false} MdsCounts(cells: seq<Cell>, run: seq<Input>, e: Setting)
    requires OnuTrace(cells, run, e) && Mds(cells[0]) < 256
    ensures var n := LastRebase(cells, run, e);
            Mds(cells[|run|]) == (Mds(cells[n]) + Acks(cells, run, e, n)) % 256
  {
    hide Take;
    hide Acknowledged;
    hide Rebases;
    MdsIsAByte(cells, run, e);
    if run != [] && !Rebases(cells[|run| - 1], run[|run| - 1], e) {
      var init := run[..|run| - 1];
      var n := LastRebase(cells[..|run|], init, e);
      TraceInit(cells, run, e);
      TraceLast(cells, run, e);
      MdsCounts(cells[..|run|], init, e);
      TakeCountsOn(cells[|run| - 1], run[|run| - 1], e, Mds(cells[n]) + Acks(cells[..|run|], init, e, n));
    }
  }

  /**
    The MIB data sync is what the last reset or invalidation set it to, or 0 if there was none, plus
    the number of changes acknowledged since, modulo 256.  A reset sets it to 0, an invalidation
    to something else.
   */
  ghost predicate MdsIsCount(cells: seq<Cell>, run: seq<Input>, e: Setting)
    requires |cells| == |run| + 1
  {
    var n := LastRebase(cells, run, e);
    && Mds(cells[|run|]) == (Mds(cells[n]) + Acks(cells, run, e, n)) % 256
    && (Mds(cells[n]) == 0 <==> n == 0 || run[n - 1].Ask?)
  }

  /** So it is over any run of a new ONU. */
  lemma MdsCountsAcks(cells: seq<Cell>, run: seq<Input>, e: Setting)
    requires OnuTrace(cells, run, e) && Mds(cells[0]) == 0
    ensures MdsIsCount(cells, run, e)
  {
    hide Take;
    hide Acknowledged;
    MdsCounts(cells, run, e);
    var n := LastRebase(cells, run, e);
    if n > 0 {
      TracePrefix(cells, run, e, n - 1);
      MdsIsAByte(cells[..n], run[..n - 1], e);
      TakeCounts(cells[n - 1], run[n - 1], e);
      assert OnuFollows(cells[n - 1], run[n - 1], cells[n], e);
    }
  }

  /**
    Section 9.1.3 of ITU-T G.988 never lets the counter return to 0 by counting.  The code
    keeps that for an acknowledged change exactly when the counter is not at 255.
   */
  lemma SkipsZeroIff(c: Cell, x: Input, e: Setting)
    requires Mds(c) < 256 && Acknowledged(c, x, e)
    ensures Mds(Take(c, x, e).cell) != 0 <==> Mds(c) != 255
  {
    TakeCounts(c, x, e);
  }

  // ---------------------------------------------------------------------------
  // Refused requests

  /** A processed Create is refused exactly for a GEM port, other than the multicast one, that is taken. */
  lemma CreateRefusedIff(c: Cell, gem: Option<nat>, ok: bool, e: Setting)
    requires !Skipped(c, e.rate)
    ensures var h := HandleOmci(c, e.pon, e.sn, Request.Create(gem, ok), e.rate, e.crc);
            && (h.reply == Refused <==> gem.Some? && gem.value != MULTICAST_GEM && gem.value in c.tables.gemPorts)
            && (h.reply == Refused ==> h.cell.tables == c.tables && Mds(h.cell) == Mds(c))
            && (h.reply != Refused && gem.Some? && gem.value != MULTICAST_GEM ==>
                  h.cell.tables.gemPorts == c.tables.gemPorts[gem.value := e.sn])
  {
  }

  /** A processed T-CONT set is refused exactly when it allocates and the T-CONT of this ONU already has an alloc id. */
  lemma TContRefusedIff(c: Cell, entity: nat, allocId: nat, ok: bool, e: Setting)
    requires !Skipped(c, e.rate)
    ensures var h := HandleOmci(c, e.pon, e.sn, SetTCont(entity, allocId, ok), e.rate, e.crc);
            var k := AllocKey(e.pon, c.onu.id, entity);
            && (h.reply == Refused <==> allocId != 255 && allocId != 65535 && k in c.tables.allocIds)
            && (h.reply == Refused ==> h.cell.tables == c.tables && Mds(h.cell) == Mds(c))
  {
  }

  /** A GEM port that one ONU created stays with it until it is deleted or the ONU drops its entries. */
  lemma GemPortStays(c: Cell, q: Request, e: Setting, gem: nat)
    requires gem in c.tables.gemPorts && !(q.Delete? && q.gem == Some(gem))
    requires c.tables.gemPorts[gem] == e.sn ==> !q.MibReset?
    ensures var t := HandleOmci(c, e.pon, e.sn, q, e.rate, e.crc).cell.tables;
            gem in t.gemPorts && t.gemPorts[gem] == c.tables.gemPorts[gem]
  {
    if ImageRequest(q) {
      var m := c.onu.omci.(counter := NextCounter(c.onu.omci.counter));
      ImageAnswerKeeps(c.(onu := c.onu.(omci := m)), e.pon, e.sn, q, e.crc);
    }
  }

  // ---------------------------------------------------------------------------
  // Software download

  /** The request that ends a running download without an image. */
  predicate Stops(m: Omci, end: ImageEnd) {
    m.received > 0 && end.size == 0 && end.crc == 0xFFFF_FFFF
  }

  /** As many sections as announced were counted, and the checksum of the announced size matches. */
  predicate Complete(m: Omci, end: ImageEnd, crc: string -> nat) {
    m.received == m.expected && end.size <= |m.data| && end.crc == crc(m.data[..end.size])
  }

  predicate EndsWell(m: Omci, end: Option<ImageEnd>, crc: string -> nat) {
    end.Some? && (Stops(m, end.value) || Complete(m, end.value, crc))
  }

  /** The end cannot be read, or a section is missing, or the checksum differs. */
  predicate EndsBadly(m: Omci, end: Option<ImageEnd>, crc: string -> nat) {
    end.Some? ==>
      && !Stops(m, end.value)
      && (m.received != m.expected ||
          (end.value.size <= |m.data| && end.value.crc != crc(m.data[..end.value.size])))
  }

  lemma VerdictIs(m: Omci, end: ImageEnd, crc: string -> nat)
    ensures var v := JudgeEnd(m, end, crc);
            && (v.Aborted? <==> Stops(m, end)) && (v.Verified? <==> !Stops(m, end) && Complete(m, end, crc))
            && (v.Short? || v.BadCrc? <==> EndsBadly(m, Some(end), crc))
  {
  }

  /** Data and number of sections that a request adds to a download with `received` sections. */
  function DataOf(q: Request, received: nat): string {
    match q
    case Section(Some(d)) => if received == 0 && |d| < 14 then "" else d
    case SectionWithResponse(Some(d), ok) => d
    case _ => ""
  }

  function CountOf(q: Request, received: nat): nat {
    match q
    case Section(Some(d)) => if received == 0 && |d| < 14 then 0 else 1
    case SectionWithResponse(Some(d), ok) => if ok then 1 else 0
    case _ => 0
  }

  /** The image data that an input adds. */
  function Adds(c: Cell, x: Input, e: Setting): string {
    if !x.Ask? || Skipped(c, e.rate) then "" else DataOf(x.request, c.onu.omci.received)
  }

  /** Whether an input is counted as a received section. */
  function Counts(c: Cell, x: Input, e: Setting): nat {
    if !x.Ask? || Skipped(c, e.rate) then 0 else CountOf(x.request, c.onu.omci.received)
  }

  /** A new download begins, or the one in progress is aborted. */
  predicate Restarts(c: Cell, x: Input, e: Setting) {
    && x.Ask? && !Skipped(c, e.rate)
    && (x.request.StartDownload? ||
        (x.request.EndDownload? && x.request.end.Some? && Stops(c.onu.omci, x.request.end.value)))
  }

  lemma EndAndSections(c: Cell, end: Option<ImageEnd>, ok: bool, crc: string -> nat)
    requires end.Some? ==> !Stops(c.onu.omci, end.value)
    ensures var m := AnswerEnd(c, end, ok, crc).cell.onu.omci;
            m.data == c.onu.omci.data && m.received == c.onu.omci.received && m.expected == c.onu.omci.expected &&
            m.inDownload == c.onu.omci.inDownload
  {
  }

  /** What a request that does not restart the download does to it. */
  ghost predicate Collects(m: Omci, m': Omci, q: Request) {
    && m'.expected == m.expected && m'.received < TWO_32
    && m'.data == m.data + DataOf(q, m.received)
    && m'.received == (m.received + CountOf(q, m.received)) % TWO_32
    && (m.received != 0 ==> m'.inDownload == m.inDownload)
  }

  lemma ResponseSections(c: Cell, data: Option<string>, ok: bool)
    requires c.onu.omci.received < TWO_32
    ensures Collects(c.onu.omci, AnswerSection(c, data, ok).cell.onu.omci, SectionWithResponse(data, ok))
  {
  }

  lemma AcceptSections(c: Cell, data: string)
    requires c.onu.omci.received < TWO_32
    ensures Collects(c.onu.omci, Accept(c, data).onu.omci, Section(Some(data)))
  {
  }

  lemma ImageSections(c: Cell, q: Request, e: Setting)
    requires c.onu.omci.received < TWO_32 && ImageRequest(q) && !q.StartDownload?
    requires q.EndDownload? && q.end.Some? ==> !Stops(c.onu.omci, q.end.value)
    ensures Collects(c.onu.omci, Answer(c, e.pon, e.sn, q, e.crc).cell.onu.omci, q)
  {
    hide AnswerTCont;
    hide AnswerCreate;
    hide DropSn;
    hide SetPortState;
    hide AnswerEnd;
    hide AnswerSection;
    hide Accept;
    hide JudgeEnd;
    match q
    case EndDownload(end, ok) => EndAndSections(c, end, ok, e.crc);
    case Section(Some(data)) => AcceptSections(c, data);
    case SectionWithResponse(data, ok) => ResponseSections(c, data, ok);
    case _ =>
  }

  lemma AnswerSections(c: Cell, q: Request, e: Setting)
    requires c.onu.omci.received < TWO_32 && !q.StartDownload?
    requires q.EndDownload? && q.end.Some? ==> !Stops(c.onu.omci, q.end.value)
    ensures Collects(c.onu.omci, Answer(c, e.pon, e.sn, q, e.crc).cell.onu.omci, q)
  {
    hide Answer;
    if ImageRequest(q) {
      ImageSections(c, q, e);
    } else {
      ConfigAnswerOmci(c, e.pon, e.sn, q, e.crc);
    }
  }

  lemma TakeSections(c: Cell, x: Input, e: Setting)
    requires c.onu.omci.received < TWO_32 && !Restarts(c, x, e)
    ensures var m := Take(c, x, e).cell.onu.omci;
            && m.expected == c.onu.omci.expected && m.received < TWO_32
            && m.data == c.onu.omci.data + Adds(c, x, e)
            && m.received == (c.onu.omci.received + Counts(c, x, e)) % TWO_32
            && (c.onu.omci.received != 0 ==> m.inDownload == c.onu.omci.inDownload)
  {
    match x
    case Ask(q, where) =>
      if !Skipped(c, e.rate) {
        var d := In(c, where);
        AnswerSections(d.(onu := d.onu.(omci := d.onu.omci.(counter := NextCounter(d.onu.omci.counter)))), q, e);
      }
    case _ =>
  }

  lemma TakeSectionsOn(c: Cell, x: Input, e: Setting, data: string, n: nat)
    requires c.onu.omci.received == n % TWO_32 && c.onu.omci.data == data && !Restarts(c, x, e)
    ensures var m := Take(c, x, e).cell.onu.omci;
            && m.data == data + Adds(c, x, e) && m.received == (n + Counts(c, x, e)) % TWO_32
            && m.expected == c.onu.omci.expected
  {
    hide Take;
    hide Adds;
    hide Counts;
    hide Restarts;
    TakeSections(c, x, e);
  }

  /** All the data that a run adds, in order, and the number of sections it counts. */
  function Data(cells: seq<Cell>, run: seq<Input>, e: Setting): string
    requires |cells| == |run| + 1
  {
    if run == [] then ""
    else Data(cells[..|run|], run[..|run| - 1], e) + Adds(cells[|run| - 1], run[|run| - 1], e)
  }

  function Sections(cells: seq<Cell>, run: seq<Input>, e: Setting): nat
    requires |cells| == |run| + 1
  {
    if run == [] then 0
    else Sections(cells[..|run|], run[..|run| - 1], e) + Counts(cells[|run| - 1], run[|run| - 1], e)
  }

  ghost predicate NoRestart(cells: seq<Cell>, run: seq<Input>, e: Setting)
    requires |cells| == |run| + 1
  {
    forall i | 0 <= i < |run| :: !Restarts(cells[i], run[i], e)
  }

  /**
    From the start of a download until the next start or abort, the image data are the accepted
    sections in order, and the received sections are counted modulo 2^32.
   */
  lemma {:induction false} DownloadCollects(cells: seq<Cell>, run: seq<Input>, e: Setting)
    requires OnuTrace(cells, run, e) && NoRestart(cells, run, e) && cells[0].onu.omci.received < TWO_32
    ensures var m, m' := cells[0].onu.omci, cells[|run|].onu.omci;
            && m'.data == m.data + Data(cells, run, e)
            && m'.received == (m.received + Sections(cells, run, e)) % TWO_32
            && m'.expected == m.expected
  {
    hide Take;
    hide Adds;
    hide Counts;
    if run != [] {
      var init, m := run[..|run| - 1], cells[0].onu.omci;
      TraceInit(cells, run, e);
      TraceLast(cells, run, e);
      DownloadCollects(cells[..|run|], init, e);
      TakeSectionsOn(cells[|run| - 1], run[|run| - 1], e,
                     m.data + Data(cells[..|run|], init, e), m.received + Sections(cells[..|run|], init, e));
    }
  }

  /** Once a section has been counted, the name of the image does not change before the next restart. */
  lemma {:induction false} NameIsFixed(cells: seq<Cell>, run: seq<Input>, e: Setting)
    requires OnuTrace(cells, run, e) && NoRestart(cells, run, e)
    requires 0 < cells[0].onu.omci.received && cells[0].onu.omci.received + Sections(cells, run, e) < TWO_32
    ensures cells[|run|].onu.omci.inDownload == cells[0].onu.omci.inDownload
  {
    if run != [] {
      TraceInit(cells, run, e);
      TraceLast(cells, run, e);
      NameIsFixed(cells[..|run|], run[..|run| - 1], e);
      DownloadCollects(cells[..|run|], run[..|run| - 1], e);
      TakeSections(cells[|run| - 1], run[|run| - 1], e);
    }
  }

  /**
    The first counted section names the image exactly when it asks for no acknowledgement; an
    image whose first section is acknowledged keeps the name of the download before it.
   */
  lemma FirstSectionNames(c: Cell, q: Request, where: Cell, e: Setting)
    requires c.onu.omci.received == 0 && Counts(c, Ask(q, where), e) == 1
    ensures var m := Take(c, Ask(q, where), e).cell.onu.omci;
            && m.received == 1
            && (q.Section? ==> |q.data.value| >= 14 && m.inDownload == q.data.value[..14])
            && (q.SectionWithResponse? ==> m.inDownload == c.onu.omci.inDownload)
  {
  }

  lemma EndVerdict(c: Cell, end: ImageEnd, ok: bool, crc: string -> nat)
    ensures var m, m' := c.onu.omci, AnswerEnd(c, Some(end), ok, crc).cell.onu.omci;
            m'.standby == if !Stops(m, end) && Complete(m, end, crc) then m.inDownload else m.standby
  {
    hide JudgeEnd;
    hide Stops;
    hide Complete;
    VerdictIs(c.onu.omci, end, crc);
  }

  /** A processed end of a download changes the standby version exactly when the download is complete. */
  lemma EndInstallsIff(c: Cell, end: ImageEnd, ok: bool, where: Cell, e: Setting)
    requires !Skipped(c, e.rate)
    ensures var m := c.onu.omci;
            Take(c, Ask(EndDownload(Some(end), ok), where), e).cell.onu.omci.standby ==
              if !Stops(m, end) && Complete(m, end, e.crc) then m.inDownload else m.standby
  {
    var d := In(c, where);
    EndVerdict(d.(onu := d.onu.(omci := d.onu.omci.(counter := NextCounter(d.onu.omci.counter)))), end, ok, e.crc);
  }

  /**
    A download from its start to its end is complete exactly when the request does not stop it, as
    many sections were counted as announced, and the checksum of the announced size of the
    collected data matches.
   */
  lemma {:induction false} VerifiedIff(cells: seq<Cell>, run: seq<Input>, end: ImageEnd, e: Setting)
    requires OnuTrace(cells, run, e) && NoRestart(cells, run, e)
    requires cells[0].onu.omci.received == 0 && cells[0].onu.omci.data == ""
    ensures var data := Data(cells, run, e);
            var n := Sections(cells, run, e) % TWO_32;
            JudgeEnd(cells[|run|].onu.omci, end, e.crc).Verified? <==>
              && !(n > 0 && end.size == 0 && end.crc == 0xFFFF_FFFF)
              && cells[0].onu.omci.expected == n
              && end.size <= |data|
              && end.crc == e.crc(data[..end.size])
  {
    hide Take;
    hide Adds;
    hide Counts;
    hide Restarts;
    DownloadCollects(cells, run, e);
    assert "" + Data(cells, run, e) == Data(cells, run, e);
  }

  // ---------------------------------------------------------------------------
  // Image versions

  /** The committed image is on the ONU. */
  predicate Present(m: Omci) {
    m.committed == m.active || m.committed == m.standby
  }

  /** The input ends a download that is complete. */
  predicate Installs(c: Cell, x: Input, e: Setting) {
    && x.Ask? && !Skipped(c, e.rate) && x.request.EndDownload? && x.request.end.Some?
    && !Stops(c.onu.omci, x.request.end.value) && Complete(c.onu.omci, x.request.end.value, e.crc)
  }

  lemma ImageKeepsPresent(c: Cell, q: Request, e: Setting)
    requires Present(c.onu.omci) && ImageRequest(q) && !q.EndDownload?
    ensures Present(Answer(c, e.pon, e.sn, q, e.crc).cell.onu.omci)
  {
    hide AnswerEnd;
    match q
    case ActivateSoftware(instance, ok) =>
    case CommitSoftware(instance, ok) =>
    case _ =>
  }

  lemma AnswerKeepsPresent(c: Cell, q: Request, e: Setting)
    requires Present(c.onu.omci) && !q.EndDownload?
    ensures Present(Answer(c, e.pon, e.sn, q, e.crc).cell.onu.omci)
  {
    hide Answer;
    if ImageRequest(q) {
      ImageKeepsPresent(c, q, e);
    } else {
      ConfigKeepsVersions(c, q, e);
    }
  }

  lemma ConfigKeepsVersions(c: Cell, q: Request, e: Setting)
    requires !ImageRequest(q)
    ensures var m := Answer(c, e.pon, e.sn, q, e.crc).cell.onu.omci;
            m.active == c.onu.omci.active && m.committed == c.onu.omci.committed && m.standby == c.onu.omci.standby
  {
    hide Answer;
    ConfigAnswerOmci(c, e.pon, e.sn, q, e.crc);
  }

  lemma EndVersions(c: Cell, end: Option<ImageEnd>, ok: bool, crc: string -> nat)
    ensures var m := AnswerEnd(c, end, ok, crc).cell.onu.omci;
            m.active == c.onu.omci.active && m.committed == c.onu.omci.committed &&
            (end.None? ==> m.standby == c.onu.omci.standby)
  {
  }

  /**
    An installed download overwrites the standby version: the committed image survives exactly
    when it is active or is the image just installed, that is, not between Activate and Commit.
   */
  lemma PresentKeptIff(c: Cell, x: Input, e: Setting)
    requires Present(c.onu.omci)
    ensures Present(Take(c, x, e).cell.onu.omci) <==>
              (Installs(c, x, e) ==>
                 c.onu.omci.committed == c.onu.omci.active || c.onu.omci.committed == c.onu.omci.inDownload)
  {
    match x
    case Ask(q, where) =>
      var d := In(c, where);
      var c1 := d.(onu := d.onu.(omci := d.onu.omci.(counter := NextCounter(d.onu.omci.counter))));
      if q.EndDownload? {
        EndVersions(c1, q.end, q.ok, e.crc);
        if q.end.Some? { EndVerdict(c1, q.end.value, q.ok, e.crc); }
      } else {
        AnswerKeepsPresent(c1, q, e);
      }
    case _ =>
  }

  ghost predicate InstallsWhenCommitted(cells: seq<Cell>, run: seq<Input>, e: Setting)
    requires |cells| == |run| + 1
  {
    forall i | 0 <= i < |run| ::
      Installs(cells[i], run[i], e) ==> cells[i].onu.omci.committed == cells[i].onu.omci.active
  }

  /** If downloads are installed only while the active image is committed, the committed one is never lost. */
  lemma {:induction false} RunKeepsPresent(cells: seq<Cell>, run: seq<Input>, e: Setting)
    requires OnuTrace(cells, run, e) && Present(cells[0].onu.omci) && InstallsWhenCommitted(cells, run, e)
    ensures Present(cells[|run|].onu.omci)
  {
    if run != [] {
      TraceInit(cells, run, e);
      TraceLast(cells, run, e);
      RunKeepsPresent(cells[..|run|], run[..|run| - 1], e);
      PresentKeptIff(cells[|run| - 1], run[|run| - 1], e);
    }
  }
}
