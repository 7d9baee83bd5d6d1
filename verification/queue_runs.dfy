/** Queues over whole runs: what a UE's queues show is what it last reported less what has been requested since. */
module QueueRuns {
  import opened ResourceGrid
  import opened Preprocessor
  import opened TransportBlock
  import opened Pdcch
  import opened SlotTime
  import opened Downlink
  import opened SlotEffects
  import opened HarqRuns

  /** Bytes of channel j; a channel that is not listed has none. */
  function At(s: seq<nat>, j: nat): nat {
    if j < |s| then s[j] else 0
  }

  /** What channel j showed at the last report or new MAC entry among the first k items. */
  function ReportedBytes(h: seq<Item>, j: nat, k: nat): nat
    requires k <= |h|
  {
    if k == 0 || h[k - 1].Joined? then 0
    else if h[k - 1].Told? then At(h[k - 1].queues, j)
    else ReportedBytes(h, j, k - 1)
  }

  /** What the DCIs since then request from channel j. */
  function RequestedSince(h: seq<Item>, j: nat, k: nat): nat
    requires k <= |h|
  {
    if k == 0 || h[k - 1].Joined? || h[k - 1].Told? then 0
    else RequestedSince(h, j, k - 1) + if h[k - 1].Sent? then At(h[k - 1].requests, j) else 0
  }

  lemma {:induction false} SamePrefixSameBytes(h: seq<Item>, x: Item, j: nat, k: nat)
    requires k <= |h|
    ensures ReportedBytes(h + [x], j, k) == ReportedBytes(h, j, k)
    ensures RequestedSince(h + [x], j, k) == RequestedSince(h, j, k)
  {
    if k > 0 {
      SamePrefixSameBytes(h, x, j, k - 1);
    }
  }

  ghost predicate BytesAccounted(queues: seq<nat>, h: seq<Item>) {
    forall j: nat :: RequestedSince(h, j, |h|) + At(queues, j) == ReportedBytes(h, j, |h|)
  }

  lemma NewItem(queues: seq<nat>, h: seq<Item>, x: Item, queues': seq<nat>)
    requires BytesAccounted(queues, h)
    requires match x
      case Fed(pid) => queues' == queues
      case Told(q) => queues' == q
      case Joined => queues' == []
      case Sent(dci, at, requests) =>
        if dci.round == 0 then Split(requests, queues', queues) else requests == [] && queues' == queues
    ensures BytesAccounted(queues', h + [x])
  {
    forall j: nat
      ensures RequestedSince(h + [x], j, |h| + 1) + At(queues', j) == ReportedBytes(h + [x], j, |h| + 1)
    {
      SamePrefixSameBytes(h, x, j, |h|);
    }
  }

  ghost predicate QueueInv(s: System) {
    |s.history| == |s.ues| && forall i :: 0 <= i < |s.ues| ==> BytesAccounted(s.ues[i].queues, s.history[i])
  }

  lemma SlotKeepsQueues(t: TbsTable, cfg: CellConfig, s: System, e: Event, i: nat)
    requires Supported(cfg.bw) && Possible(s, e) && e.Tick? && QueueInv(s) && i < |s.ues|
    ensures BytesAccounted(Step(t, cfg, s, e).ues[i].queues, Step(t, cfg, s, e).history[i])
  {
    if i in s.roster && e.at % 10 != 0 && e.at % 10 != 5 {
      var k := PositionOf(s.roster, i);
      var r := RunSlot(t, cfg, SlotAt(e.at), e.carry, Selected(s), e.reports, e.order);
      SlotQueues(t, cfg, SlotAt(e.at), e.carry, Selected(s), e.reports, e.order, k);
      if r.grants[k].Grant? {
        NewItem(s.ues[i].queues, s.history[i], Sent(r.grants[k].dci, e.at, r.grants[k].requests), r.ues[k].queues);
      }
    }
  }

  lemma StepKeepsQueues(t: TbsTable, cfg: CellConfig, s: System, e: Event)
    requires Supported(cfg.bw) && Possible(s, e) && QueueInv(s)
    ensures QueueInv(Step(t, cfg, s, e))
  {
    var s' := Step(t, cfg, s, e);
    match e
    case HarqReport(ue, pid, statuses) => NewItem(s.ues[ue].queues, s.history[ue], Fed(pid), s.ues[ue].queues);
    case QueueReport(ue, queues) => NewItem(s.ues[ue].queues, s.history[ue], Told(queues), queues);
    case Configure(list) =>
      forall i | 0 <= i < |s.ues|
        ensures BytesAccounted(s'.ues[i].queues, s'.history[i])
      {
        NewItem(s.ues[i].queues, s.history[i], Joined, []);
      }
    case Deactivate(position) =>
    case Tick(at, carry, reports, order) =>
      forall i | 0 <= i < |s.ues|
        ensures BytesAccounted(s'.ues[i].queues, s'.history[i])
      {
        SlotKeepsQueues(t, cfg, s, e, i);
      }
  }

  /** In any run, at any time, for every UE and every channel: the bytes requested since the UE's last report, or since
      it got its MAC entry, plus what its queue still shows are what was reported. */
  lemma RequestedPlusShownIsReported(t: TbsTable, cfg: CellConfig, states: seq<System>, events: seq<Event>, n: nat)
    requires Supported(cfg.bw) && Run(t, cfg, states, events) && n <= |events|
    ensures |states[n].history| == |states[n].ues|
    ensures forall i, j: nat :: 0 <= i < |states[n].ues| ==>
              var h := states[n].history[i];
              RequestedSince(h, j, |h|) + At(states[n].ues[i].queues, j) == ReportedBytes(h, j, |h|)
  {
    RunKeepsQueues(t, cfg, states, events, n);
    forall i, j: nat | 0 <= i < |states[n].ues|
      ensures var h := states[n].history[i];
        RequestedSince(h, j, |h|) + At(states[n].ues[i].queues, j) == ReportedBytes(h, j, |h|)
    {
      assert BytesAccounted(states[n].ues[i].queues, states[n].history[i]);
    }
  }

  lemma {:induction false} RunKeepsQueues(t: TbsTable, cfg: CellConfig, states: seq<System>, events: seq<Event>, n: nat)
    requires Supported(cfg.bw) && Run(t, cfg, states, events) && n <= |events|
    ensures QueueInv(states[n])
  {
    if n > 0 {
      RunKeepsQueues(t, cfg, states, events, n - 1);
      StepKeepsQueues(t, cfg, states[n - 1], events[n - 1]);
    }
  }
}
