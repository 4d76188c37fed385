/** What every run of a created device keeps, the theorems of the other modules put together. */
module RunTheorems {
  import opened Basics
  import opened DeviceModel
  import opened ResourceRuns
  import opened FlowIndex
  import opened ChannelProtocol
  import opened OnuIds
  import opened PonTableRuns
  import opened OmciRuns
  import opened DeviceOmci

  /** The ONU goes through a run of OmciRuns, so the theorems of that module hold of it. */
  ghost predicate OmciKept(states: seq<Olt>, run: seq<Action>, crc: string -> nat, p: nat, i: nat)
    requires |states| == |run| + 1
  {
    Has(states, p, i) &&
    OnuTrace(CellsOf(states, p, i), InputsOf(states, run, p, i), Setting(p, i, states[0].config.rate, crc))
  }

  /** What holds of the last state of a run, each part under the condition on the run that it needs. */
  ghost predicate Kept(states: seq<Olt>, run: seq<Action>, crc: string -> nat)
    requires |states| == |run| + 1
  {
    var s := states[|run|];
    && GoodTables(s)
    && (CarefulRun(states, run) && |s.pons| < TWO_32 ==> Indexed(s))
    && (QuietRun(states, run, false) ==> ProperOlt(s, false))
    && (QuietRun(states, run, true) ==> ProperOlt(s, true))
    && (KeepsEntries(states, run) ==> OltSound(s, false))
    && (KeepsEntries(states, run) && Undisturbed(states, run) ==> OltSound(s, true))
    && (TimelyRun(states, run, |run|) ==> TidyOlt(s))
    && forall p: nat, i: nat | IsOnu(states[0], p, i) :: OmciKept(states, run, crc, p, i)
  }

  lemma RunKeeps(
      numPon: nat, numOnu: nat, ports: nat, config: Config, states: seq<Olt>, run: seq<Action>, crc: string -> nat)
    requires Trace(states, run, crc) && states[0] == NewOlt(numPon, numOnu, ports, config)
    ensures Kept(states, run, crc)
  {
    hide Step;
    hide GoodTables;
    hide Indexed;
    hide ProperOlt;
    hide OltSound;
    hide CarefulRun;
    hide QuietRun;
    hide KeepsEntries;
    hide Undisturbed;
    hide OnuTrace;
    hide TidyOlt;
    NewOltGoodTables(numPon, numOnu, ports, config);
    RunKeepsGoodTables(states, run, crc, |run|);
    if numPon < TWO_32 && CarefulRun(states, run) {
      NewOltIndexed(numPon, numOnu, ports, config);
      RunKeepsIndexed(states, run, crc, |run|);
    }
    forall strict | QuietRun(states, run, strict)
      ensures ProperOlt(states[|run|], strict)
    {
      NewOltProper(numPon, numOnu, ports, config, strict);
      RunKeepsProper(states, run, crc, |run|, strict);
    }
    forall strong: bool | KeepsEntries(states, run) && (strong ==> Undisturbed(states, run))
      ensures OltSound(states[|run|], strong)
    {
      NewOltSound(numPon, numOnu, ports, config, strong);
      RunKeepsSound(states, run, crc, |run|, strong);
    }
    NewOltTidy(numPon, numOnu, ports, config);
    RunTidyIff(states, run, crc, |run|);
    forall p: nat, i: nat | IsOnu(states[0], p, i)
      ensures OmciKept(states, run, crc, p, i)
    {
      OnuGoesThrough(states, run, crc, p, i);
    }
  }
}
