/**
  What each OMCI request comes to, in terms of its fields and of what the ONU has collected, and
  what a whole software upgrade leaves on the ONU.
 */
module ImageRuns {
  import opened Basics
  import opened FlowTables
  import opened OnuFsm
  import opened OnuModel
  import opened OmciRuns

  // ---------------------------------------------------------------------------
  // The reply

  /** What VOLTHA is told about a request that is not skipped. */
  function ReplyTo(c: Cell, q: Request, e: Setting): Reply {
    match q
    case SetPort(port, lock, ok) => if port >= |c.onu.ports| then Refused else if ok then Acked else Silent
    case SetTCont(entity, allocId, ok) =>
      if allocId != 255 && allocId != 65535 && AllocKey(e.pon, c.onu.id, entity) in c.tables.allocIds then Refused
      else if ok then Acked else Silent
    case Create(gem, ok) =>
      if gem.Some? && gem.value != 4069 && gem.value in c.tables.gemPorts then Refused else if ok then Acked else Silent
    case Section(_) => Silent
    case SectionWithResponse(data, ok) => if data.Some? && ok then Acked else Silent
    case EndDownload(end, ok) =>
      if !ok then Silent
      else if EndsWell(c.onu.omci, end, e.crc) then Acked
      else if EndsBadly(c.onu.omci, end, e.crc) then Refused
      else Silent
    case Read => Silent
    case _ => if q.ok then Acked else Silent
  }

  lemma EndReply(c: Cell, end: Option<ImageEnd>, ok: bool, e: Setting)
    ensures AnswerEnd(c, end, ok, e.crc).reply == ReplyTo(c, EndDownload(end, ok), e)
  {
    hide JudgeEnd;
    hide Stops;
    hide Complete;
    hide EndsBadly;
    if end.Some? {
      VerdictIs(c.onu.omci, end.value, e.crc);
    } else {
      UnreadEnds(c.onu.omci, e.crc);
    }
  }

  lemma UnreadEnds(m: Omci, crc: string -> nat)
    ensures EndsBadly(m, None, crc)
  {
  }

  lemma AnswerReply(c: Cell, q: Request, e: Setting)
    ensures Answer(c, e.pon, e.sn, q, e.crc).reply == ReplyTo(c, q, e)
  {
    hide AnswerEnd;
    hide EndsWell;
    hide EndsBadly;
    hide SetPortState;
    hide DropSn;
    hide Accept;
    match q
    case EndDownload(end, ok) => EndReply(c, end, ok, e);
    case _ =>
  }

  lemma ReplySame(c: Cell, c': Cell, q: Request, e: Setting)
    requires c' == c.(onu := c.onu.(omci := c.onu.omci.(counter := c'.onu.omci.counter)))
    ensures ReplyTo(c', q, e) == ReplyTo(c, q, e)
  {
  }

  /** A request is answered as its fields say, or not at all when it is skipped. */
  lemma ReplyIs(c: Cell, q: Request, e: Setting)
    ensures HandleOmci(c, e.pon, e.sn, q, e.rate, e.crc).reply ==
              if Skipped(c, e.rate) then Silent else ReplyTo(c, q, e)
  {
    hide Answer;
    hide ReplyTo;
    var c1 := c.(onu := c.onu.(omci := c.onu.omci.(counter := NextCounter(c.onu.omci.counter))));
    AnswerReply(c1, q, e);
    ReplySame(c, c1, q, e);
  }

  // ---------------------------------------------------------------------------
  // One input

  /** A request that is not skipped. */
  predicate Handles(c: Cell, x: Input, e: Setting) {
    x.Ask? && !Skipped(c, e.rate)
  }

  predicate Activating(c: Cell, x: Input, e: Setting) {
    Handles(c, x, e) && x.request.ActivateSoftware? && x.request.ok && x.request.instance.Some?
  }

  predicate Committing(c: Cell, x: Input, e: Setting) {
    Handles(c, x, e) && x.request.CommitSoftware? && x.request.ok && x.request.instance.Some?
  }

  /** The versions and the ids of the images after an input. */
  ghost predicate Versions(c: Cell, x: Input, e: Setting, m': Omci) {
    var m := c.onu.omci;
    if Activating(c, x, e) then
      && m'.active == m.standby && m'.standby == m.active && m'.committed == m.committed
      && m'.activeId == x.request.instance.value && m'.committedId == m.committedId
    else if Committing(c, x, e) then
      && m'.standby == m.committed && m'.committed == m.active && m'.active == m.active
      && m'.activeId == x.request.instance.value && m'.committedId == x.request.instance.value
    else
      && m'.standby == (if Installs(c, x, e) then m.inDownload else m.standby)
      && m'.active == m.active && m'.committed == m.committed
      && m'.activeId == m.activeId && m'.committedId == m.committedId
  }

  lemma EndKeepsIds(c: Cell, end: Option<ImageEnd>, ok: bool, crc: string -> nat)
    ensures var m := AnswerEnd(c, end, ok, crc).cell.onu.omci;
            && m.active == c.onu.omci.active && m.committed == c.onu.omci.committed
            && m.activeId == c.onu.omci.activeId && m.committedId == c.onu.omci.committedId
            && (end.None? ==> m.standby == c.onu.omci.standby)
  {
    hide Next;
    hide JudgeEnd;
  }

  ghost predicate SameVersions(m: Omci, m': Omci) {
    && m'.active == m.active && m'.committed == m.committed && m'.standby == m.standby
    && m'.activeId == m.activeId && m'.committedId == m.committedId
  }

  lemma SectionsKeepVersions(c: Cell, q: Request, e: Setting)
    requires q.StartDownload? || q.Section? || q.SectionWithResponse?
    ensures SameVersions(c.onu.omci, Answer(c, e.pon, e.sn, q, e.crc).cell.onu.omci)
  {
    hide AnswerEnd;
    hide AnswerTCont;
    hide AnswerCreate;
    hide SetPortState;
    hide DropSn;
  }

  lemma ConfigKeepsIds(c: Cell, q: Request, e: Setting)
    requires !ImageRequest(q)
    ensures SameVersions(c.onu.omci, Answer(c, e.pon, e.sn, q, e.crc).cell.onu.omci)
  {
    hide Answer;
    ConfigAnswerOmci(c, e.pon, e.sn, q, e.crc);
  }

  lemma SwapVersions(c: Cell, q: Request, e: Setting)
    requires q.ActivateSoftware? || q.CommitSoftware?
    ensures var m, m' := c.onu.omci, Answer(c, e.pon, e.sn, q, e.crc).cell.onu.omci;
            if !q.ok || q.instance.None? then SameVersions(m, m')
            else
              && (q.ActivateSoftware? ==>
                    m'.active == m.standby && m'.standby == m.active && m'.committed == m.committed &&
                    m'.activeId == q.instance.value && m'.committedId == m.committedId)
              && (q.CommitSoftware? ==>
                    m'.standby == m.committed && m'.committed == m.active && m'.active == m.active &&
                    m'.activeId == q.instance.value && m'.committedId == q.instance.value)
  {
    hide AnswerEnd;
    hide AnswerTCont;
    hide AnswerCreate;
    hide SetPortState;
    hide DropSn;
  }

  /**
    Activate exchanges the active and the standby version; commit makes the committed version standby
    and the active one committed; a complete download becomes the standby version.  Nothing else
    changes a version.
   */
  lemma VersionsOutcome(c: Cell, x: Input, e: Setting)
    ensures Versions(c, x, e, Take(c, x, e).cell.onu.omci)
  {
    hide Answer;
    hide Stops;
    hide Complete;
    match x
    case Ask(q, where) =>
      var d := In(c, where);
      var c1 := d.(onu := d.onu.(omci := d.onu.omci.(counter := NextCounter(d.onu.omci.counter))));
      if Skipped(c, e.rate) {
      } else if q.EndDownload? {
        AnswerIsEnd(c1, q.end, q.ok, e);
        EndKeepsIds(c1, q.end, q.ok, e.crc);
        if q.end.Some? {
          EndVerdict(c1, q.end.value, q.ok, e.crc);
          SameSections(c.onu.omci, c1.onu.omci, q.end.value, e.crc);
        }
      } else if q.ActivateSoftware? || q.CommitSoftware? {
        SwapVersions(c1, q, e);
      } else if ImageRequest(q) {
        SectionsKeepVersions(c1, q, e);
      } else {
        ConfigKeepsIds(c1, q, e);
      }
    case _ =>
  }

  lemma AnswerIsEnd(c: Cell, end: Option<ImageEnd>, ok: bool, e: Setting)
    ensures Answer(c, e.pon, e.sn, EndDownload(end, ok), e.crc) == AnswerEnd(c, end, ok, e.crc)
  {
  }

  lemma SameSections(m: Omci, m': Omci, end: ImageEnd, crc: string -> nat)
    requires m' == m.(counter := m'.counter)
    ensures Stops(m', end) == Stops(m, end) && Complete(m', end, crc) == Complete(m, end, crc)
  {
  }

  /** A start that is not skipped empties the download and fixes the number of sections. */
  lemma StartOutcome(c: Cell, sections: nat, ok: bool, where: Cell, e: Setting)
    requires !Skipped(c, e.rate)
    ensures var m := Take(c, Ask(StartDownload(sections, ok), where), e).cell.onu.omci;
            m.received == 0 && m.data == "" && m.expected == sections
  {
  }

  /** An end that stops the download only sets the count back. */
  lemma StopOutcome(c: Cell, end: ImageEnd, ok: bool, where: Cell, e: Setting)
    requires !Skipped(c, e.rate) && Stops(c.onu.omci, end)
    ensures var m, m' := c.onu.omci, Take(c, Ask(EndDownload(Some(end), ok), where), e).cell.onu.omci;
            m'.received == 0 && m'.data == m.data && m'.expected == m.expected && m'.inDownload == m.inDownload
  {
    hide Answer;
    var d := In(c, where);
    var c1 := d.(onu := d.onu.(omci := d.onu.omci.(counter := NextCounter(d.onu.omci.counter))));
    AnswerIsEnd(c1, Some(end), ok, e);
    StopAnswer(c1, end, ok, e.crc);
  }

  lemma StopAnswer(c: Cell, end: ImageEnd, ok: bool, crc: string -> nat)
    requires Stops(c.onu.omci, end)
    ensures var m, m' := c.onu.omci, AnswerEnd(c, Some(end), ok, crc).cell.onu.omci;
            m'.received == 0 && m'.data == m.data && m'.expected == m.expected && m'.inDownload == m.inDownload
  {
    hide JudgeEnd;
    VerdictIs(c.onu.omci, end, crc);
  }

  /** The administrative lock is that of the last Set that was not skipped. */
  lemma LockOutcome(c: Cell, x: Input, e: Setting)
    ensures Take(c, x, e).cell.onu.omci.adminLock ==
              if Handles(c, x, e) && x.request.SetOnuG? then x.request.lockState else c.onu.omci.adminLock
  {
    hide Answer;
    match x
    case Ask(q, where) =>
      var d := In(c, where);
      LockAnswer(d.(onu := d.onu.(omci := d.onu.omci.(counter := NextCounter(d.onu.omci.counter)))), q, e);
    case _ =>
  }

  lemma LockAnswer(c: Cell, q: Request, e: Setting)
    ensures Answer(c, e.pon, e.sn, q, e.crc).cell.onu.omci.adminLock ==
              if q.SetOnuG? then q.lockState else c.onu.omci.adminLock
  {
    hide JudgeEnd;
    hide DropSn;
  }

  /** An invalidation moves the MIB data sync on by one to ten, and past 0. */
  lemma SpoilOutcome(c: Cell, random: nat, e: Setting)
    requires Mds(c) < 256
    ensures var v, v' := Mds(c) + random % 10 + 1, Mds(Take(c, Spoil(random), e).cell);
            v' == if v < 256 then v else if v == 256 then 1 else v - 256
  {
  }

  // ---------------------------------------------------------------------------
  // A whole download

  /** The inputs from m up to n. */
  function Part(cells: seq<Cell>, run: seq<Input>, m: nat, n: nat): (seq<Cell>, seq<Input>)
    requires |cells| == |run| + 1 && m <= n <= |run|
  {
    (cells[m..n + 1], run[m..n])
  }

  lemma TracePart(cells: seq<Cell>, run: seq<Input>, e: Setting, m: nat, n: nat)
    requires OnuTrace(cells, run, e) && m <= n <= |run|
    ensures OnuTrace(Part(cells, run, m, n).0, Part(cells, run, m, n).1, e)
  {
    hide Take;
    var (cs, r) := Part(cells, run, m, n);
    forall i | 0 <= i < |r|
      ensures OnuFollows(cs[i], r[i], cs[i + 1], e)
    {
      assert OnuFollows(cells[m + i], run[m + i], cells[m + i + 1], e);
    }
  }

  /** No download begins or is stopped from m up to n. */
  ghost predicate Unrestarted(cells: seq<Cell>, run: seq<Input>, e: Setting, m: nat, n: nat)
    requires |cells| == |run| + 1 && m <= n <= |run|
  {
    NoRestart(Part(cells, run, m, n).0, Part(cells, run, m, n).1, e)
  }

  /**
    The end of a whole download: input 0 starts it with the announced number of sections, the last
    one ends it, and none between them starts or stops one.  The reply and the state that follows
    are decided by the sections counted and the data collected between them.
   */
  lemma DownloadEnds(
      cells: seq<Cell>, run: seq<Input>, e: Setting, sections: nat, started: bool, end: Option<ImageEnd>, ok: bool,
      where0: Cell, where: Cell)
    requires OnuTrace(cells, run, e) && |run| >= 2
    requires run[0] == Ask(StartDownload(sections, started), where0) && !Skipped(cells[0], e.rate)
    requires run[|run| - 1] == Ask(EndDownload(end, ok), where) && !Skipped(cells[|run| - 1], e.rate)
    requires Unrestarted(cells, run, e, 1, |run| - 1)
    ensures var (cs, r) := Part(cells, run, 1, |run| - 1);
            var data, n := Data(cs, r, e), Sections(cs, r, e) % TWO_32;
            var stop := end.Some? && n > 0 && end.value.size == 0 && end.value.crc == 0xFFFF_FFFF;
            var fits := end.Some? && end.value.size <= |data|;
            var right := fits && end.value.crc == e.crc(data[..end.value.size]);
            var h := Take(cells[|run| - 1], run[|run| - 1], e);
            && (h.reply == Acked <==> ok && (stop || (n == sections && right)))
            && (h.reply == Refused <==> ok && (end.None? || (!stop && (n != sections || (fits && !right)))))
            && (where.onu.state.DownloadInProgress? && h.reply == Acked ==> h.cell.onu.state.DownloadComplete?)
            && (where.onu.state.DownloadInProgress? && h.reply == Refused ==> h.cell.onu.state.DownloadError?)
            && (h.reply == Silent || !where.onu.state.DownloadInProgress? ==> h.cell.onu.state == where.onu.state)
            && (h.cell.onu.omci.standby ==
                  if !stop && n == sections && right then cells[|run| - 1].onu.omci.inDownload
                  else cells[|run| - 1].onu.omci.standby)
  {
    hide Take;
    hide Answer;
    hide Adds;
    hide Counts;
    hide Restarts;
    var (cs, r) := Part(cells, run, 1, |run| - 1);
    var c := cells[|run| - 1];
    assert OnuFollows(cells[0], run[0], cells[1], e);
    StartOutcome(cells[0], sections, started, where0, e);
    TracePart(cells, run, e, 1, |run| - 1);
    DownloadCollects(cs, r, e);
    assert "" + Data(cs, r, e) == Data(cs, r, e);
    EndAt(c, end, ok, where, e);
    VersionsOutcome(c, run[|run| - 1], e);
  }

  /** What an end does that is not skipped. */
  lemma EndAt(c: Cell, end: Option<ImageEnd>, ok: bool, where: Cell, e: Setting)
    requires !Skipped(c, e.rate)
    ensures var h := Take(c, Ask(EndDownload(end, ok), where), e);
            && (h.reply == Acked <==> ok && EndsWell(c.onu.omci, end, e.crc))
            && (h.reply == Refused <==> ok && EndsBadly(c.onu.omci, end, e.crc))
            && (h.reply == Silent || !where.onu.state.DownloadInProgress? ==> h.cell.onu.state == where.onu.state)
            && (where.onu.state.DownloadInProgress? && h.reply == Acked ==> h.cell.onu.state.DownloadComplete?)
            && (where.onu.state.DownloadInProgress? && h.reply == Refused ==> h.cell.onu.state.DownloadError?)
  {
    hide Answer;
    var d := In(c, where);
    var c1 := d.(onu := d.onu.(omci := d.onu.omci.(counter := NextCounter(d.onu.omci.counter))));
    AnswerIsEnd(c1, end, ok, e);
    EndReply(c1, end, ok, e);
    EndMoves(c1, end, ok, e.crc);
    if end.Some? {
      SameSections(c.onu.omci, c1.onu.omci, end.value, e.crc);
    }
  }

  lemma EndMoves(c: Cell, end: Option<ImageEnd>, ok: bool, crc: string -> nat)
    ensures var h := AnswerEnd(c, end, ok, crc);
            && (h.reply == Silent || !c.onu.state.DownloadInProgress? ==> h.cell.onu.state == c.onu.state)
            && (c.onu.state.DownloadInProgress? && h.reply == Acked ==> h.cell.onu.state.DownloadComplete?)
            && (c.onu.state.DownloadInProgress? && h.reply == Refused ==> h.cell.onu.state.DownloadError?)
  {
    hide JudgeEnd;
  }

  // ---------------------------------------------------------------------------
  // A whole upgrade

  /** Requests that can change a version. */
  predicate Reversions(c: Cell, x: Input, e: Setting) {
    Handles(c, x, e) && (x.request.EndDownload? || x.request.ActivateSoftware? || x.request.CommitSoftware?)
  }

  ghost predicate KeepsVersions(cells: seq<Cell>, run: seq<Input>, e: Setting, m: nat, n: nat)
    requires |cells| == |run| + 1 && m <= n <= |run|
  {
    forall k | m <= k < n :: !Reversions(cells[k], run[k], e)
  }

  lemma {:induction false} VersionsStay(cells: seq<Cell>, run: seq<Input>, e: Setting, m: nat, n: nat)
    requires OnuTrace(cells, run, e) && m <= n <= |run| && KeepsVersions(cells, run, e, m, n)
    ensures SameVersions(cells[m].onu.omci, cells[n].onu.omci)
  {
    hide Take;
    hide Stops;
    hide Complete;
    if m < n {
      VersionsStay(cells, run, e, m, n - 1);
      assert OnuFollows(cells[n - 1], run[n - 1], cells[n], e) && !Reversions(cells[n - 1], run[n - 1], e);
      VersionsOutcome(cells[n - 1], run[n - 1], e);
    }
  }

  /**
    Input a completes a download, b activates and c commits, and no other request to end, activate
    or commit is handled between them: the downloaded version is then active and committed, and the
    version that was committed before is standby.
   */
  lemma UpgradeCompletes(cells: seq<Cell>, run: seq<Input>, e: Setting, a: nat, b: nat, c: nat)
    requires OnuTrace(cells, run, e) && a < b < c < |run|
    requires Installs(cells[a], run[a], e) && Activating(cells[b], run[b], e) && Committing(cells[c], run[c], e)
    requires KeepsVersions(cells, run, e, a + 1, b) && KeepsVersions(cells, run, e, b + 1, c)
    ensures var m, m' := cells[a].onu.omci, cells[c + 1].onu.omci;
            m'.active == m.inDownload && m'.committed == m.inDownload && m'.standby == m.committed
  {
    hide Take;
    hide Stops;
    hide Complete;
    assert OnuFollows(cells[a], run[a], cells[a + 1], e);
    assert OnuFollows(cells[b], run[b], cells[b + 1], e);
    assert OnuFollows(cells[c], run[c], cells[c + 1], e);
    VersionsOutcome(cells[a], run[a], e);
    VersionsStay(cells, run, e, a + 1, b);
    VersionsOutcome(cells[b], run[b], e);
    VersionsStay(cells, run, e, b + 1, c);
    VersionsOutcome(cells[c], run[c], e);
  }

  /**
    The first section that is counted after a start names the image: input f carries it, nothing
    was counted before, and the name stays until the end of the download.
   */
  lemma DownloadIsNamed(
      cells: seq<Cell>, run: seq<Input>, e: Setting, sections: nat, started: bool, where0: Cell, f: nat, n: nat)
    requires OnuTrace(cells, run, e) && 1 <= f < n <= |run|
    requires run[0] == Ask(StartDownload(sections, started), where0) && !Skipped(cells[0], e.rate)
    requires Unrestarted(cells, run, e, 1, f) && Unrestarted(cells, run, e, f + 1, n)
    requires Sections(Part(cells, run, 1, f).0, Part(cells, run, 1, f).1, e) == 0
    requires 1 + Sections(Part(cells, run, f + 1, n).0, Part(cells, run, f + 1, n).1, e) < TWO_32
    requires Handles(cells[f], run[f], e) && run[f].request.Section? && run[f].request.data.Some?
    requires |run[f].request.data.value| >= 14
    ensures cells[n].onu.omci.inDownload == run[f].request.data.value[..14]
  {
    hide Take;
    hide Restarts;
    hide Answer;
    var (cs, r) := Part(cells, run, 1, f);
    var (cs', r') := Part(cells, run, f + 1, n);
    assert OnuFollows(cells[0], run[0], cells[1], e);
    StartOutcome(cells[0], sections, started, where0, e);
    TracePart(cells, run, e, 1, f);
    DownloadCollects(cs, r, e);
    assert cells[f].onu.omci.received == 0;
    FirstSectionNames(cells[f], run[f].request, run[f].where, e);
    assert OnuFollows(cells[f], run[f], cells[f + 1], e);
    TracePart(cells, run, e, f + 1, n);
    NameIsFixed(cs', r', e);
  }

  /**
    A software upgrade from start to commit: start, first section, complete end, activate and
    commit, in this order, leave the name in the first fourteen bytes of the first section as
    the active and the committed version.
   */
  lemma UpgradeInstallsName(
      cells: seq<Cell>, run: seq<Input>, e: Setting, sections: nat, started: bool, where0: Cell,
      f: nat, a: nat, b: nat, c: nat)
    requires OnuTrace(cells, run, e) && 1 <= f < a < b < c < |run|
    requires run[0] == Ask(StartDownload(sections, started), where0) && !Skipped(cells[0], e.rate)
    requires Unrestarted(cells, run, e, 1, f) && Unrestarted(cells, run, e, f + 1, a)
    requires Sections(Part(cells, run, 1, f).0, Part(cells, run, 1, f).1, e) == 0
    requires 1 + Sections(Part(cells, run, f + 1, a).0, Part(cells, run, f + 1, a).1, e) < TWO_32
    requires Handles(cells[f], run[f], e) && run[f].request.Section? && run[f].request.data.Some?
    requires |run[f].request.data.value| >= 14
    requires Installs(cells[a], run[a], e) && Activating(cells[b], run[b], e) && Committing(cells[c], run[c], e)
    requires KeepsVersions(cells, run, e, a + 1, b) && KeepsVersions(cells, run, e, b + 1, c)
    ensures var m := cells[c + 1].onu.omci;
            m.active == run[f].request.data.value[..14] && m.committed == run[f].request.data.value[..14]
  {
    hide Take;
    hide Sections;
    hide Unrestarted;
    hide Installs;
    hide KeepsVersions;
    DownloadIsNamed(cells, run, e, sections, started, where0, f, a);
    UpgradeCompletes(cells, run, e, a, b, c);
  }
}
