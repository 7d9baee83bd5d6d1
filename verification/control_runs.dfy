/** What the slots of a run add up to for one UE: how often its timing advance timer fires, and when it is never served
    although it has data. */
module ControlRuns {
  import opened Words
  import opened ResourceGrid
  import opened Preprocessor
  import opened TransportBlock
  import opened RlcRequests
  import opened Pdcch
  import opened SlotTime
  import opened Downlink
  import opened SlotSafety
  import opened SlotControl
  import opened HarqRuns

  // ---------- turns in a run ----------

  /** A step in which the UE has a turn. */
  ghost predicate Serves(s: System, e: Event, ue: nat) {
    e.Tick? && e.at % 10 != 0 && e.at % 10 != 5 && ue in s.roster
  }

  /** The UE as its turn finds it. */
  ghost function ReadyAt(t: TbsTable, cfg: CellConfig, s: System, e: Event, ue: nat): Ue
    requires Supported(cfg.bw) && Possible(s, e) && Serves(s, e, ue)
  {
    Preprocessed(t, cfg.bw, Selected(s), e.reports, e.order)[PositionOf(s.roster, ue)]
  }

  ghost function ReportAt(s: System, e: Event, ue: nat): Report
    requires Possible(s, e) && Serves(s, e, ue)
  {
    e.reports[PositionOf(s.roster, ue)]
  }

  ghost predicate NewTurnAt(t: TbsTable, cfg: CellConfig, s: System, e: Event, ue: nat)
    requires Supported(cfg.bw) && Possible(s, e)
  {
    Serves(s, e, ue) && NewTurn(ReadyAt(t, cfg, s, e, ue))
  }

  ghost predicate FiresAt(t: TbsTable, cfg: CellConfig, s: System, e: Event, ue: nat)
    requires Supported(cfg.bw) && Possible(s, e)
  {
    Serves(s, e, ue) && Fires(ReadyAt(t, cfg, s, e, ue), ReportAt(s, e, ue))
  }

  // ---------- the timing advance timer ----------

  /** Only its turns for new data touch a UE's timer. */
  lemma StepTimer(t: TbsTable, cfg: CellConfig, s: System, e: Event, ue: nat)
    requires Supported(cfg.bw) && Possible(s, e) && ue < |s.ues|
    ensures var before, after := s.ues[ue].taTimer, Step(t, cfg, s, e).ues[ue].taTimer;
      && after == (if NewTurnAt(t, cfg, s, e, ue) then TaTimer(before, ReportAt(s, e, ue).taPending).1 else before)
      && (FiresAt(t, cfg, s, e, ue)
          <==> NewTurnAt(t, cfg, s, e, ue) && before == 0 && ReportAt(s, e, ue).taPending)
  {
    if Serves(s, e, ue) {
      SlotTimer(t, cfg, SlotAt(e.at), e.carry, Selected(s), e.reports, e.order, PositionOf(s.roster, ue));
    }
  }

  /** The UE's turns for new data from step m up to but not including step n. */
  ghost function NewTurns(t: TbsTable, cfg: CellConfig, states: seq<System>, events: seq<Event>, ue: nat, m: nat,
                          n: nat): nat
    requires Supported(cfg.bw) && Run(t, cfg, states, events) && m <= n <= |events|
  {
    if m == n then 0
    else NewTurns(t, cfg, states, events, ue, m, n - 1)
           + if NewTurnAt(t, cfg, states[n - 1], events[n - 1], ue) then 1 else 0
  }

  lemma {:induction false} SameUes(t: TbsTable, cfg: CellConfig, states: seq<System>, events: seq<Event>, n: nat)
    requires Supported(cfg.bw) && Run(t, cfg, states, events) && n <= |events|
    ensures Formed(states[n]) && |states[n].history| == |states[n].ues| == |states[0].ues|
  {
    if n > 0 {
      SameUes(t, cfg, states, events, n - 1);
    }
  }

  /** The timer never runs faster than the UE's turns for new data, and while it does not fire it follows them down to 0
      exactly. */
  lemma {:induction false} TimerFollowsTurns(t: TbsTable, cfg: CellConfig, states: seq<System>, events: seq<Event>,
                                             ue: nat, m: nat, n: nat)
    requires Supported(cfg.bw) && Run(t, cfg, states, events) && m <= n <= |events| && ue < |states[0].ues|
    ensures ue < |states[m].ues| == |states[n].ues|
    ensures var turns := NewTurns(t, cfg, states, events, ue, m, n);
      && states[n].ues[ue].taTimer >= states[m].ues[ue].taTimer - turns
      && (0 <= states[m].ues[ue].taTimer && (forall j :: m <= j < n ==> !FiresAt(t, cfg, states[j], events[j], ue)) ==>
            states[n].ues[ue].taTimer
              == if turns <= states[m].ues[ue].taTimer then states[m].ues[ue].taTimer - turns else 0)
  {
    SameUes(t, cfg, states, events, m);
    SameUes(t, cfg, states, events, n);
    if m < n {
      TimerFollowsTurns(t, cfg, states, events, ue, m, n - 1);
      StepTimer(t, cfg, states[n - 1], events[n - 1], ue);
    }
  }

  lemma TimerWhenFiring(t: TbsTable, cfg: CellConfig, states: seq<System>, events: seq<Event>, ue: nat, i: nat)
    requires Supported(cfg.bw) && Run(t, cfg, states, events) && i < |events| && ue < |states[0].ues|
    requires FiresAt(t, cfg, states[i], events[i], ue)
    ensures ue < |states[i].ues| == |states[i + 1].ues|
    ensures states[i].ues[ue].taTimer == 0 && states[i + 1].ues[ue].taTimer == TA_PERIOD
  {
    SameUes(t, cfg, states, events, i);
    SameUes(t, cfg, states, events, i + 1);
    StepTimer(t, cfg, states[i], events[i], ue);
  }

  /** In any run, at least 20 turns of a UE for new data lie before its timer first fires ... */
  lemma TimerFiresLate(t: TbsTable, cfg: CellConfig, states: seq<System>, events: seq<Event>, ue: nat, k: nat)
    requires Supported(cfg.bw) && Run(t, cfg, states, events) && k < |events| && ue < |states[0].ues|
    requires FiresAt(t, cfg, states[k], events[k], ue)
    ensures NewTurns(t, cfg, states, events, ue, 0, k) >= 20
  {
    TimerFollowsTurns(t, cfg, states, events, ue, 0, k);
    TimerWhenFiring(t, cfg, states, events, ue, k);
  }

  /** ... and at least 20 between any two times. */
  lemma TimerFiresApart(t: TbsTable, cfg: CellConfig, states: seq<System>, events: seq<Event>, ue: nat, i: nat, k: nat)
    requires Supported(cfg.bw) && Run(t, cfg, states, events) && i < k < |events| && ue < |states[0].ues|
    requires FiresAt(t, cfg, states[i], events[i], ue) && FiresAt(t, cfg, states[k], events[k], ue)
    ensures NewTurns(t, cfg, states, events, ue, i + 1, k) >= 20
  {
    TimerWhenFiring(t, cfg, states, events, ue, i);
    TimerFollowsTurns(t, cfg, states, events, ue, i + 1, k);
    TimerWhenFiring(t, cfg, states, events, ue, k);
  }

  /** Once it has fired, it fires again in the first turn for new data after those 20 that finds a command pending. */
  lemma TimerFiresWhenDue(t: TbsTable, cfg: CellConfig, states: seq<System>, events: seq<Event>, ue: nat, i: nat,
                          k: nat)
    requires Supported(cfg.bw) && Run(t, cfg, states, events) && i < k < |events| && ue < |states[0].ues|
    requires FiresAt(t, cfg, states[i], events[i], ue)
    requires forall j :: i < j < k ==> !FiresAt(t, cfg, states[j], events[j], ue)
    requires NewTurnAt(t, cfg, states[k], events[k], ue) && ReportAt(states[k], events[k], ue).taPending
    ensures FiresAt(t, cfg, states[k], events[k], ue)
       <==> NewTurns(t, cfg, states, events, ue, i + 1, k) >= 20
  {
    TimerWhenFiring(t, cfg, states, events, ue, i);
    TimerFollowsTurns(t, cfg, states, events, ue, i + 1, k);
    StepTimer(t, cfg, states[k], events[k], ue);
  }

  // ---------- starvation ----------

  /** At most three bytes, all of them in the first channel. */
  ghost predicate SmallQueues(qs: seq<nat>) {
    |qs| <= MAX_NUM_LC && forall j :: 0 <= j < |qs| ==> qs[j] <= if j == 0 then 3 else 0
  }

  /** A UE with nothing to repeat and hardly anything to send. */
  ghost predicate Stuck(u: Ue) {
    SmallQueues(u.queues) && forall p :: 0 <= p < MAX_NUM_HARQ ==> u.fb[p].status == 0
  }

  /** A report of scheme 1, whose block on one resource block is three bytes, with no command pending. */
  ghost predicate StuckReport(r: Report) {
    r.csi.Csi? && r.csi.mcs == 1 && !r.taPending
  }

  lemma {:induction false} SumSmall(qs: seq<nat>, n: nat)
    requires SmallQueues(qs) && n <= |qs|
    ensures SumBelow(qs, n) <= 3 && (n <= 1 || SumBelow(qs, n) == qs[0])
  {
    if n > 0 {
      SumSmall(qs, n - 1);
    }
  }

  /** Such a UE asks for one resource block of a 6 RB carrier, whenever it asks at all. */
  lemma StuckAsksForOne(t: TbsTable, ues: seq<Ue>, reports: seq<Report>, order: seq<nat>, k: nat)
    requires |reports| == |ues| && ValidOrder(order, |ues|) && k < |ues| && HasOneRbColumn(t)
    requires Stuck(ues[k]) && StuckReport(reports[k])
    ensures var u := Preprocessed(t, 6, ues, reports, order)[k];
      && Stuck(u) && u.taTimer == ues[k].taTimer && u.d.pre <= u.d.required
      && u.d.required == if reports[k].lcs.LcEntry? && Sum(ues[k].queues) > 0 then 1 else 0
  {
    var prepared := Prepared(t, 6, ues, reports);
    SumSmall(ues[k].queues, |ues[k].queues|);
    assert GetTbsDl(t, 1, 1) == 3;
    ReadyForTurn(t, 6, ues, reports, order, k);
    PreparedDemandsFresh(t, 6, ues, reports);
    PreprocessSafe(6, NoGroups(), Demands(prepared), ActiveCount(prepared), order);
  }

  /** A turn that sends nothing leaves it as it is. */
  lemma StuckTurn(t: TbsTable, cfg: CellConfig, target: Slot, ledger: Ledger, carry: Carry, u: Ue, r: Report)
    requires ledger.symbols <= 3 && Stuck(u)
    ensures var turn := TakeTurn(t, cfg, target, ledger, carry, u, r); turn.grant == NoGrant ==> Stuck(turn.u)
  {
    if HasHarq(u.fb) && u.d.pre > 0 {
      RequestsConserve(GetTbsDl(t, SizingMcs(carry, r), u.d.pre), OwnTa(u, r), u.queues, |u.queues|);
    }
  }

  lemma StuckSendsNothing(t: TbsTable, u: Ue, r: Report)
    requires HasOneRbColumn(t) && Stuck(u) && StuckReport(r) && u.d.pre <= 1
    ensures !Sends(t, 1, u, r)
  {
    assert GetTbsDl(t, 1, 1) == 3;
  }

  lemma StuckInSlot(t: TbsTable, cfg: CellConfig, target: Slot, carry: Carry, ues: seq<Ue>, reports: seq<Report>,
                    order: seq<nat>, k: nat)
    requires cfg.bw == 6 && |reports| == |ues| && ValidOrder(order, |ues|) && k < |ues| && HasOneRbColumn(t)
    requires Stuck(ues[k]) && StuckReport(reports[k])
    ensures var s := RunSlot(t, cfg, target, carry, ues, reports, order); s.grants[k] == NoGrant && Stuck(s.ues[k])
  {
    var ready := Preprocessed(t, cfg.bw, ues, reports, order);
    StuckAsksForOne(t, ues, reports, order, k);
    StuckSendsNothing(t, ready[k], reports[k]);
    SlotGrantIff(t, cfg, target, carry, ues, reports, order, k);
    GrantOfTurn(t, cfg, target, carry, ues, reports, order, k);
    var (l, c) := BeforeTurn(t, cfg, target, RoundStart(cfg, 0), carry, ready, reports, k);
    StuckTurn(t, cfg, target, l, c, ready[k], reports[k]);
  }

  /** Whatever happens to other UEs; the UE itself may report such queues, acknowledge, and be configured anew. */
  ghost predicate Quiet(s: System, e: Event, ue: nat) {
    && Possible(s, e)
    && match e
       case HarqReport(who, pid, statuses) => who == ue && statuses != [] ==> W8(statuses[0]) == 0
       case QueueReport(who, queues) => who == ue ==> SmallQueues(queues)
       case Tick(at, carry, reports, order) => Serves(s, e, ue) ==> StuckReport(ReportAt(s, e, ue))
       case _ => true
  }

  ghost predicate AllQuiet(states: seq<System>, events: seq<Event>, ue: nat, m: nat, n: nat)
    requires n <= |events| < |states|
  {
    forall j :: m <= j < n ==> Quiet(states[j], events[j], ue)
  }

  /** h' goes on from h without a DCI. */
  ghost predicate NothingSent(h: seq<Item>, h': seq<Item>) {
    |h| <= |h'| && h'[..|h|] == h && forall i :: |h| <= i < |h'| ==> !h'[i].Sent?
  }

  lemma StuckServed(t: TbsTable, cfg: CellConfig, s: System, e: Event, ue: nat)
    requires cfg.bw == 6 && Possible(s, e) && ue < |s.ues| && HasOneRbColumn(t)
    requires Stuck(s.ues[ue]) && Serves(s, e, ue) && StuckReport(ReportAt(s, e, ue))
    ensures var s' := Step(t, cfg, s, e); Stuck(s'.ues[ue]) && s'.history[ue] == s.history[ue]
  {
    StuckInSlot(t, cfg, SlotAt(e.at), e.carry, Selected(s), e.reports, e.order, PositionOf(s.roster, ue));
  }

  lemma StuckStep(t: TbsTable, cfg: CellConfig, s: System, e: Event, ue: nat)
    requires cfg.bw == 6 && Possible(s, e) && ue < |s.ues| && HasOneRbColumn(t)
    requires Stuck(s.ues[ue]) && Quiet(s, e, ue)
    ensures var s' := Step(t, cfg, s, e); Stuck(s'.ues[ue]) && NothingSent(s.history[ue], s'.history[ue])
  {
    if Serves(s, e, ue) {
      StuckServed(t, cfg, s, e, ue);
    }
  }

  lemma StillNothingSent(h: seq<Item>, h': seq<Item>, h'': seq<Item>)
    requires NothingSent(h, h') && NothingSent(h', h'')
    ensures NothingSent(h, h'')
  {
    assert h''[..|h|] == h''[..|h'|][..|h|];
  }

  lemma StillStuck(t: TbsTable, cfg: CellConfig, states: seq<System>, events: seq<Event>, ue: nat, h: seq<Item>, n: nat)
    requires cfg.bw == 6 && HasOneRbColumn(t) && Run(t, cfg, states, events) && n < |events| && ue < |states[0].ues|
    requires ue < |states[n].ues| == |states[n].history| && Stuck(states[n].ues[ue])
    requires Quiet(states[n], events[n], ue)
    requires NothingSent(h, states[n].history[ue])
    ensures |states[n + 1].history| == |states[n + 1].ues| == |states[0].ues|
    ensures Stuck(states[n + 1].ues[ue]) && NothingSent(h, states[n + 1].history[ue])
  {
    SameUes(t, cfg, states, events, n);
    SameUes(t, cfg, states, events, n + 1);
    var now, after := states[n].history[ue], states[n + 1].history[ue];
    StuckStep(t, cfg, states[n], events[n], ue);
    assert NothingSent(now, after);
    StillNothingSent(h, now, after);
  }

  /** A UE whose channel quality stands for scheme 1 (indicator 2) and that has up to three bytes, all in its first
      channel, is never sent a DCI on a 6 RB carrier, for as long as that lasts: whenever it is given the one resource
      block it asks for, the room computed in the three bytes of its block is zero. */
  lemma {:induction false} StarvesForever(t: TbsTable, cfg: CellConfig, states: seq<System>, events: seq<Event>,
                                          ue: nat,
                                          m: nat, n: nat)
    requires cfg.bw == 6 && HasOneRbColumn(t) && Run(t, cfg, states, events) && m <= n <= |events|
    requires ue < |states[0].ues| && |states[m].ues| == |states[0].ues| && Stuck(states[m].ues[ue])
    requires AllQuiet(states, events, ue, m, n)
    ensures |states[m].history| == |states[n].history| == |states[n].ues| == |states[0].ues|
    ensures Stuck(states[n].ues[ue]) && NothingSent(states[m].history[ue], states[n].history[ue])
  {
    SameUes(t, cfg, states, events, m);
    if m < n {
      StarvesForever(t, cfg, states, events, ue, m, n - 1);
      StillStuck(t, cfg, states, events, ue, states[m].history[ue], n - 1);
    }
  }
}
