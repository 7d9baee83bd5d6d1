/** The RIB and the runs of module HarqRuns side by side: what a message makes of an agent's entry is what the events
    it stands for make of the scheduler's view of the cell. */
module RibRuns {
  import opened ResourceGrid
  import opened TransportBlock
  import opened Pdcch
  import opened Downlink
  import opened HarqRuns
  import opened RibModel
  import opened RibEntries

  function Rntis(ues: seq<UeConfig>): (r: seq<nat>)
    ensures |r| == |ues| && forall k :: 0 <= k < |ues| ==> r[k] == ues[k].rnti
  {
    seq(|ues|, k requires 0 <= k < |ues| => ues[k].rnti)
  }

  /** Same UEs configured, same ones with a MAC entry, and the same feedback and queues in it.  UEs go by RNTI. */
  ghost predicate Matches(a: Agent, s: System) {
    && Formed(s) && s.roster == Rntis(a.ues) && SameMacs(a.mac, s)
  }

  ghost predicate SameMacs(mac: map<nat, Mac>, s: System) {
    && s.known == mac.Keys
    && forall i :: i in mac ==> i < |s.ues| && s.ues[i].fb == mac[i].fb && s.ues[i].queues == mac[i].queues
  }

  // ---------- events one after another ----------

  /** Where a list of events leads; an impossible one changes nothing. */
  ghost function StepAll(t: TbsTable, cfg: CellConfig, s: System, es: seq<Event>): System
    requires Supported(cfg.bw)
  {
    if es == [] then s
    else
      var before, e := StepAll(t, cfg, s, es[..|es| - 1]), es[|es| - 1];
      if Possible(before, e) then Step(t, cfg, before, e) else before
  }

  ghost predicate AllPossible(t: TbsTable, cfg: CellConfig, s: System, es: seq<Event>)
    requires Supported(cfg.bw)
  {
    forall n :: 0 <= n < |es| ==> Possible(StepAll(t, cfg, s, es[..n]), es[n])
  }

  lemma OneMore(t: TbsTable, cfg: CellConfig, s: System, es: seq<Event>, e: Event)
    requires Supported(cfg.bw) && AllPossible(t, cfg, s, es) && Possible(StepAll(t, cfg, s, es), e)
    ensures AllPossible(t, cfg, s, es + [e])
    ensures StepAll(t, cfg, s, es + [e]) == Step(t, cfg, StepAll(t, cfg, s, es), e)
  {
    var all := es + [e];
    assert all[..|es|] == es;
    forall n | 0 <= n < |all|
      ensures Possible(StepAll(t, cfg, s, all[..n]), all[n])
    {
      if n < |es| {
        assert all[..n] == es[..n];
      }
    }
  }

  // ---------- the events of a message ----------

  /** Feedback or a report for a UE without an entry is no event. */
  function FeedEvent(mac: map<nat, Mac>, x: DlInfo): seq<Event> {
    if x.rnti in mac && x.pid < MAX_NUM_HARQ then [HarqReport(x.rnti, x.pid, x.statuses)] else []
  }

  function ReportEvent(mac: map<nat, Mac>, x: UeReport): seq<Event> {
    if x.rnti in mac && x.hasQueues then [QueueReport(x.rnti, x.queues)] else []
  }

  function FeedbackEvents(mac: map<nat, Mac>, infos: seq<DlInfo>, n: nat): seq<Event>
    requires n <= |infos|
  {
    if n == 0 then [] else FeedbackEvents(mac, infos, n - 1) + FeedEvent(FedMacs(mac, infos, n - 1), infos[n - 1])
  }

  function ReportEvents(mac: map<nat, Mac>, rs: seq<UeReport>, n: nat): seq<Event>
    requires n <= |rs|
  {
    if n == 0 then [] else ReportEvents(mac, rs, n - 1) + ReportEvent(ReportedMacs(mac, rs, n - 1), rs[n - 1])
  }

  function ChangeEvents(a: Agent, change: Change, c: UeConfig): seq<Event> {
    match change
    case Activated => [Configure(Rntis(a.ues + [c]))]
    case Deactivated =>
      var k := FindUe(a.ues, c.rnti, 0);
      if k < |a.ues| then [HarqRuns.Deactivate(k)] else []
    case Updated => []
    case Moved => []
  }

  function EventsOf(a: Agent, m: Message): seq<Event> {
    match m
    case StatsReply(reports) => ReportEvents(a.mac, reports, |reports|)
    case SfTrigger(slot, infos) => FeedbackEvents(a.mac, infos, |infos|)
    case UeConfigReply(ues) => [Configure(Rntis(ues))]
    case UeStateChange(change, ue) => ChangeEvents(a, change, ue)
    case _ => []
  }

  /** Feedback and queue reports change MAC entries only. */
  ghost predicate MatchesWith(mac: map<nat, Mac>, a: Agent, s: System, s': System) {
    Formed(s') && |s'.ues| == |s.ues| && s'.roster == Rntis(a.ues) && SameMacs(mac, s')
  }

  /** These events from s on make these MAC entries. */
  ghost predicate Leads(t: TbsTable, cfg: CellConfig, a: Agent, s: System, es: seq<Event>, mac: map<nat, Mac>)
    requires Supported(cfg.bw)
  {
    AllPossible(t, cfg, s, es) && MatchesWith(mac, a, s, StepAll(t, cfg, s, es))
  }

  lemma FeedLeads(t: TbsTable, cfg: CellConfig, a: Agent, s: System, es: seq<Event>, mac: map<nat, Mac>, x: DlInfo)
    requires Supported(cfg.bw) && Leads(t, cfg, a, s, es, mac)
    ensures Leads(t, cfg, a, s, es + FeedEvent(mac, x), FedMac(mac, x))
  {
    if x.rnti in mac && x.pid < MAX_NUM_HARQ {
      FeedMatches(t, cfg, mac, a, s, StepAll(t, cfg, s, es), x);
      OneMore(t, cfg, s, es, HarqReport(x.rnti, x.pid, x.statuses));
    } else {
      assert es + [] == es;
    }
  }

  lemma FeedMatches(t: TbsTable, cfg: CellConfig, mac: map<nat, Mac>, a: Agent, s0: System, s: System, x: DlInfo)
    requires Supported(cfg.bw) && MatchesWith(mac, a, s0, s) && x.rnti in mac && x.pid < MAX_NUM_HARQ
    ensures var e := HarqReport(x.rnti, x.pid, x.statuses);
      Possible(s, e) && MatchesWith(FedMac(mac, x), a, s0, Step(t, cfg, s, e))
  {
  }

  lemma ReportLeads(t: TbsTable, cfg: CellConfig, a: Agent, s: System, es: seq<Event>, mac: map<nat, Mac>,
                    x: UeReport)
    requires Supported(cfg.bw) && Leads(t, cfg, a, s, es, mac)
    ensures Leads(t, cfg, a, s, es + ReportEvent(mac, x), ReportedMac(mac, x))
  {
    if x.rnti in mac && x.hasQueues {
      ReportMatches(t, cfg, mac, a, s, StepAll(t, cfg, s, es), x);
      OneMore(t, cfg, s, es, QueueReport(x.rnti, x.queues));
    } else {
      assert es + [] == es;
    }
  }

  lemma ReportMatches(t: TbsTable, cfg: CellConfig, mac: map<nat, Mac>, a: Agent, s0: System, s: System, x: UeReport)
    requires Supported(cfg.bw) && MatchesWith(mac, a, s0, s) && x.rnti in mac && x.hasQueues
    ensures var e := QueueReport(x.rnti, x.queues);
      Possible(s, e) && MatchesWith(ReportedMac(mac, x), a, s0, Step(t, cfg, s, e))
  {
  }

  lemma {:induction false} FeedbackMatches(t: TbsTable, cfg: CellConfig, a: Agent, s: System, infos: seq<DlInfo>,
                                           n: nat)
    requires Supported(cfg.bw) && Matches(a, s) && n <= |infos|
    ensures Leads(t, cfg, a, s, FeedbackEvents(a.mac, infos, n), FedMacs(a.mac, infos, n))
  {
    if n > 0 {
      FeedbackMatches(t, cfg, a, s, infos, n - 1);
      FeedLeads(t, cfg, a, s, FeedbackEvents(a.mac, infos, n - 1), FedMacs(a.mac, infos, n - 1), infos[n - 1]);
    }
  }

  lemma {:induction false} ReportsMatch(t: TbsTable, cfg: CellConfig, a: Agent, s: System, rs: seq<UeReport>, n: nat)
    requires Supported(cfg.bw) && Matches(a, s) && n <= |rs|
    ensures Leads(t, cfg, a, s, ReportEvents(a.mac, rs, n), ReportedMacs(a.mac, rs, n))
  {
    if n > 0 {
      ReportsMatch(t, cfg, a, s, rs, n - 1);
      ReportLeads(t, cfg, a, s, ReportEvents(a.mac, rs, n - 1), ReportedMacs(a.mac, rs, n - 1), rs[n - 1]);
    }
  }

  lemma OneEvent(t: TbsTable, cfg: CellConfig, s: System, e: Event)
    requires Supported(cfg.bw) && Possible(s, e)
    ensures AllPossible(t, cfg, s, [e]) && StepAll(t, cfg, s, [e]) == Step(t, cfg, s, e)
  {
    assert [e][..0] == [];
  }

  /** Every UE a list names is one of the system. */
  ghost predicate Numbered(ues: seq<UeConfig>, s: System) {
    forall i :: 0 <= i < |ues| ==> ues[i].rnti < |s.ues|
  }

  lemma ListMatches(t: TbsTable, cfg: CellConfig, a: Agent, s: System, ues: seq<UeConfig>)
    requires Supported(cfg.bw) && Matches(a, s) && DistinctRntis(ues) && Numbered(ues, s)
    ensures Possible(s, Configure(Rntis(ues)))
    ensures Matches(WithUes(a, ues), Step(t, cfg, s, Configure(Rntis(ues))))
  {
    InsertMacsKeys(a.mac, ues, |ues|);
    ConfigureStep(t, cfg, s, Rntis(ues));
    InsertedKeys(a, s, ues);
  }

  lemma InsertedKeys(a: Agent, s: System, ues: seq<UeConfig>)
    requires Matches(a, s) && Numbered(ues, s)
    ensures forall r :: r in InsertMacs(a.mac, ues, |ues|) <==> r in s.known || r in Rntis(ues)
    ensures forall r :: r in InsertMacs(a.mac, ues, |ues|) ==> r < |s.ues| && (Joins(s, Rntis(ues), r) <==> r !in a.mac)
  {
    InsertMacsKeys(a.mac, ues, |ues|);
    forall r
      ensures r in Rntis(ues) <==> exists i :: 0 <= i < |ues| && ues[i].rnti == r
    {
      if i :| 0 <= i < |ues| && ues[i].rnti == r {
        assert Rntis(ues)[i] == r;
      }
    }
  }

  lemma ConfigureStep(t: TbsTable, cfg: CellConfig, s: System, list: seq<nat>)
    requires Supported(cfg.bw) && Formed(s) && ValidRoster(list, |s.ues|)
    ensures var s' := Step(t, cfg, s, Configure(list));
      && Formed(s') && |s'.ues| == |s.ues| && s'.roster == list
      && (forall r :: r in s'.known <==> r in s.known || r in list)
      && forall i :: 0 <= i < |s.ues| ==> s'.ues[i] == if Joins(s, list, i) then WithNewMac(s.ues[i]) else s.ues[i]
  {
  }

  lemma DeactivationMatches(t: TbsTable, cfg: CellConfig, a: Agent, s: System, c: UeConfig)
    requires Supported(cfg.bw) && Matches(a, s) && DistinctRntis(a.ues)
    requires FindUe(a.ues, c.rnti, 0) < |a.ues|
    ensures var e := HarqRuns.Deactivate(FindUe(a.ues, c.rnti, 0));
      Possible(s, e) && Matches(Changed(a, Change.Deactivated, c), Step(t, cfg, s, e))
  {
    var k := FindUe(a.ues, c.rnti, 0);
    DeactivateStep(t, cfg, s, k);
    assert Rntis(a.ues[..k] + a.ues[k + 1..]) == Rntis(a.ues)[..k] + Rntis(a.ues)[k + 1..];
  }

  lemma DeactivateStep(t: TbsTable, cfg: CellConfig, s: System, k: nat)
    requires Supported(cfg.bw) && Formed(s) && k < |s.roster|
    ensures var s' := Step(t, cfg, s, HarqRuns.Deactivate(k));
      && Formed(s') && s'.ues == s.ues && s'.known == s.known - {s.roster[k]}
      && s'.roster == s.roster[..k] + s.roster[k + 1..]
  {
  }

  /** A message that names the UEs of the system, each once. */
  ghost predicate Fits(a: Agent, m: Message, s: System) {
    match m
    case UeConfigReply(ues) => DistinctRntis(ues) && Numbered(ues, s)
    case UeStateChange(Activated, c) => DistinctRntis(a.ues + [c]) && Numbered(a.ues + [c], s)
    case _ => true
  }

  lemma ActivationIsInsert(a: Agent, c: UeConfig)
    requires AllHaveMac(a)
    ensures WithUes(a, a.ues + [c]) == Changed(a, Activated, c)
  {
    InsertMacsKeys(a.mac, a.ues + [c], |a.ues| + 1);
    InsertMacsKeys(a.mac, a.ues + [c], |a.ues|);
    assert InsertMacs(a.mac, a.ues + [c], |a.ues|) == a.mac;
  }

  /** One message: the entry and the scheduler's view stay the same. */
  lemma MessageMatches(t: TbsTable, cfg: CellConfig, a: Agent, s: System, m: Message)
    requires Supported(cfg.bw) && Matches(a, s) && AgentInv(a) && Fits(a, m, s)
    ensures AllPossible(t, cfg, s, EventsOf(a, m))
    ensures Matches(AgentAfter(a, m), StepAll(t, cfg, s, EventsOf(a, m)))
    ensures |StepAll(t, cfg, s, EventsOf(a, m)).ues| == |s.ues|
  {
    match m
    case StatsReply(reports) => ReportsMatch(t, cfg, a, s, reports, |reports|);
    case SfTrigger(slot, infos) => FeedbackMatches(t, cfg, a, s, infos, |infos|);
    case UeConfigReply(ues) =>
      ListMatches(t, cfg, a, s, ues);
      OneEvent(t, cfg, s, Configure(Rntis(ues)));
    case UeStateChange(change, c) =>
      match change {
        case Activated =>
          ListMatches(t, cfg, a, s, a.ues + [c]);
          OneEvent(t, cfg, s, Configure(Rntis(a.ues + [c])));
          ActivationIsInsert(a, c);
        case Deactivated =>
          if FindUe(a.ues, c.rnti, 0) < |a.ues| {
            DeactivationMatches(t, cfg, a, s, c);
            OneEvent(t, cfg, s, HarqRuns.Deactivate(FindUe(a.ues, c.rnti, 0)));
          }
        case Updated => assert Rntis(Overwritten(a.ues, c)) == Rntis(a.ues);
        case Moved =>
      }
    case _ =>
  }

  // ---------- message sequences ----------

  lemma AllButLast(t: TbsTable, cfg: CellConfig, s: System, es: seq<Event>, e: Event)
    requires Supported(cfg.bw) && AllPossible(t, cfg, s, es + [e])
    ensures AllPossible(t, cfg, s, es) && Possible(StepAll(t, cfg, s, es), e)
    ensures StepAll(t, cfg, s, es + [e]) == Step(t, cfg, StepAll(t, cfg, s, es), e)
  {
    var all := es + [e];
    assert all[..|es|] == es && all[|es|] == e;
    forall n | 0 <= n < |es|
      ensures Possible(StepAll(t, cfg, s, es[..n]), es[n])
    {
      assert es[..n] == all[..n];
    }
  }

  lemma LastApart(a: seq<Event>, b: seq<Event>)
    requires b != []
    ensures b == b[..|b| - 1] + [b[|b| - 1]]
    ensures a + b == a + b[..|b| - 1] + [b[|b| - 1]]
  {
  }

  lemma {:induction false} Concatenated(t: TbsTable, cfg: CellConfig, s: System, a: seq<Event>, b: seq<Event>)
    requires Supported(cfg.bw) && AllPossible(t, cfg, s, a) && AllPossible(t, cfg, StepAll(t, cfg, s, a), b)
    ensures AllPossible(t, cfg, s, a + b)
    ensures StepAll(t, cfg, s, a + b) == StepAll(t, cfg, StepAll(t, cfg, s, a), b)
  {
    if b == [] {
      assert a + b == a;
    } else {
      var init, e := b[..|b| - 1], b[|b| - 1];
      LastApart(a, b);
      AllButLast(t, cfg, StepAll(t, cfg, s, a), init, e);
      Concatenated(t, cfg, s, a, init);
      OneMore(t, cfg, s, a + init, e);
    }
  }

  /** An agent that is not registered is as good as one without UEs. */
  function AgentOf(r: Rib, tag: nat): Agent {
    if tag in r.agents then r.agents[tag] else NewAgent()
  }

  /** The events in what the RIB is told, from the start, as far as one agent is concerned. */
  function AllEvents(tms: seq<Tagged>, tag: nat): seq<Event> {
    if tms == [] then []
    else
      var init, last := tms[..|tms| - 1], tms[|tms| - 1];
      var r := HandleAll(EMPTY, init);
      AllEvents(init, tag) + if Reaches(last, tag) && tag in r.agents then EventsOf(r.agents[tag], last.msg) else []
  }

  /** RNTIs are numbers of UEs of the system. */
  ghost predicate Names(m: Message, n: nat) {
    match m
    case UeConfigReply(ues) => forall i :: 0 <= i < |ues| ==> ues[i].rnti < n
    case UeStateChange(Activated, c) => c.rnti < n
    case _ => true
  }

  lemma ProperFits(r: Rib, tm: Tagged, tag: nat, s: System)
    requires RibModel.Inv(r) && Proper(r, tm) && Reaches(tm, tag) && tag in r.agents
    requires Matches(r.agents[tag], s) && Names(tm.msg, |s.ues|)
    ensures Fits(r.agents[tag], tm.msg, s)
  {
    var a := r.agents[tag];
    assert AgentInv(a);
    forall i | 0 <= i < |a.ues|
      ensures a.ues[i].rnti < |s.ues|
    {
      assert s.roster[i] == a.ues[i].rnti;
    }
  }

  lemma HandleMatches(t: TbsTable, cfg: CellConfig, r: Rib, tm: Tagged, tag: nat, s: System)
    requires Supported(cfg.bw) && RibModel.Inv(r) && Proper(r, tm) && Names(tm.msg, |s.ues|)
    requires Matches(AgentOf(r, tag), s)
    ensures var es := if Reaches(tm, tag) && tag in r.agents then EventsOf(r.agents[tag], tm.msg) else [];
      && AllPossible(t, cfg, s, es) && Matches(AgentOf(Handle(r, tm), tag), StepAll(t, cfg, s, es))
      && |StepAll(t, cfg, s, es).ues| == |s.ues|
  {
    if Reaches(tm, tag) && tag in r.agents {
      ProperFits(r, tm, tag, s);
      assert AgentInv(r.agents[tag]);
      MessageMatches(t, cfg, r.agents[tag], s, tm.msg);
    }
  }

  /** Over every proper message sequence from the start, an agent's entry is what the events in it make of a system in
      which no UE is known yet. */
  lemma {:induction false} EntryFollowsEvents(t: TbsTable, cfg: CellConfig, tms: seq<Tagged>, tag: nat, s: System)
    requires Supported(cfg.bw) && Initial(s) && ProperSequence(EMPTY, tms)
    requires forall n :: 0 <= n < |tms| ==> Names(tms[n].msg, |s.ues|)
    ensures AllPossible(t, cfg, s, AllEvents(tms, tag))
    ensures var s' := StepAll(t, cfg, s, AllEvents(tms, tag));
      Matches(AgentOf(HandleAll(EMPTY, tms), tag), s') && |s'.ues| == |s.ues|
  {
    if tms != [] {
      var init, last := tms[..|tms| - 1], tms[|tms| - 1];
      forall n | 0 <= n < |init|
        ensures Proper(HandleAll(EMPTY, init[..n]), init[n])
      {
        assert init[..n] == tms[..n];
      }
      EntryFollowsEvents(t, cfg, init, tag, s);
      SequenceKeepsInv(EMPTY, init);
      var r, s1 := HandleAll(EMPTY, init), StepAll(t, cfg, s, AllEvents(init, tag));
      HandleMatches(t, cfg, r, last, tag, s1);
      Concatenated(t, cfg, s, AllEvents(init, tag),
                   if Reaches(last, tag) && tag in r.agents then EventsOf(r.agents[tag], last.msg) else []);
    }
  }

  /** Those events are a run: everything proved of runs holds of what the RIB is told. */
  lemma RibMakesARun(t: TbsTable, cfg: CellConfig, tms: seq<Tagged>, tag: nat, s: System) returns (states: seq<System>)
    requires Supported(cfg.bw) && Initial(s) && ProperSequence(EMPTY, tms)
    requires forall n :: 0 <= n < |tms| ==> Names(tms[n].msg, |s.ues|)
    ensures Run(t, cfg, states, AllEvents(tms, tag)) && states[0] == s
    ensures Matches(AgentOf(HandleAll(EMPTY, tms), tag), states[|states| - 1])
  {
    EntryFollowsEvents(t, cfg, tms, tag, s);
    states := StatesOf(t, cfg, s, AllEvents(tms, tag));
  }

  lemma StatesOf(t: TbsTable, cfg: CellConfig, s: System, es: seq<Event>) returns (states: seq<System>)
    requires Supported(cfg.bw) && Initial(s) && AllPossible(t, cfg, s, es)
    ensures Run(t, cfg, states, es) && states[0] == s && states[|es|] == StepAll(t, cfg, s, es)
  {
    states := seq(|es| + 1, n requires 0 <= n <= |es| => StepAll(t, cfg, s, es[..n]));
    assert es[..|es|] == es;
    forall n | 0 <= n < |es|
      ensures Possible(states[n], es[n]) && states[n + 1] == Step(t, cfg, states[n], es[n])
    {
      assert es[..n + 1][..n] == es[..n];
    }
  }
}
