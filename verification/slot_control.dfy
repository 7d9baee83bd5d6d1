/** Who is served in a slot, what that costs in control channel elements, and which DCIs announce a timing advance
    command: exact conditions on the UEs as the preprocessor leaves them and on their reports. */
module SlotControl {
  import opened ResourceGrid
  import opened Preprocessor
  import opened TransportBlock
  import opened RlcRequests
  import opened Pdcch
  import opened SlotTime
  import opened Downlink
  import opened Cqi
  import opened SlotSafety

  // ---------- who gets a DCI ----------

  /** What it takes, apart from control channel elements: a free process, groups, and a retransmission that fits into
      them or a channel to be asked. */
  predicate Sends(t: TbsTable, mcs: nat, u: Ue, r: Report) {
    && HasHarq(u.fb) && u.d.pre > 0
    && if u.fb[Pid(u.fb)].status > 0 then u.d.required <= u.d.pre
       else exists j :: 0 <= j < |u.queues| && FirstAsked(GetTbsDl(t, mcs, u.d.pre), OwnTa(u, r), u.queues, j)
  }

  /** A turn sends a DCI if and only if the elements can be reserved and the UE has something to send. */
  lemma TurnGrantIff(t: TbsTable, cfg: CellConfig, target: Slot, ledger: Ledger, carry: Carry, u: Ue, r: Report)
    requires ledger.symbols <= 3
    ensures var turn := TakeTurn(t, cfg, target, ledger, carry, u, r);
      var aggregation := WithCsi(carry, r.csi).aggregation;
      var (reserved, ok) := Reserve(cfg, ledger, aggregation);
      && (turn.grant.Grant? <==> ok && Sends(t, SizingMcs(carry, r), u, r))
      && turn.ledger == (if turn.grant.Grant? then Assign(reserved, Cces(aggregation)) else reserved)
      && turn.carry.aggregation == aggregation
      && (turn.grant.Grant? ==> turn.grant.dci.aggregation == aggregation)
  {
    if HasHarq(u.fb) && u.d.pre > 0 && u.fb[Pid(u.fb)].status == 0 {
      SomethingRequestedIff(GetTbsDl(t, SizingMcs(carry, r), u.d.pre), OwnTa(u, r), u.queues);
    }
  }

  // ---------- control channel elements ----------

  /** The aggregation level of UE k: that of the latest report up to it. */
  function AggregationOf(first: Carry, reports: seq<Report>, k: nat): nat
    requires k < |reports|
  {
    if reports[k].csi.Csi? then reports[k].csi.aggregation
    else if k == 0 then first.aggregation
    else AggregationOf(first, reports, k - 1)
  }

  lemma {:induction false} AggregationCarried(t: TbsTable, cfg: CellConfig, target: Slot, first: Carry, ready: seq<Ue>,
                                              reports: seq<Report>, k: nat)
    requires k < |ready| == |reports|
    ensures var c := BeforeTurn(t, cfg, target, RoundStart(cfg, 0), first, ready, reports, k).1;
      WithCsi(c, reports[k].csi).aggregation == AggregationOf(first, reports, k)
  {
    if k > 0 {
      AggregationCarried(t, cfg, target, first, ready, reports, k - 1);
      var (l, c) := BeforeTurn(t, cfg, target, RoundStart(cfg, 0), first, ready, reports, k - 1);
      TurnGrantIff(t, cfg, target, l, c, ready[k - 1], reports[k - 1]);
    }
  }

  /** The scheme UE k is sized with: its report's, or else whatever the turn before left behind. */
  function McsOf(t: TbsTable, cfg: CellConfig, target: Slot, first: Carry, ready: seq<Ue>, reports: seq<Report>,
                 k: nat): nat
    requires k < |ready| == |reports|
  {
    SizingMcs(BeforeTurn(t, cfg, target, RoundStart(cfg, 0), first, ready, reports, k).1, reports[k])
  }

  /** Elements UE k asks for: those of its aggregation level if it has something to send. */
  function WantOf(t: TbsTable, cfg: CellConfig, target: Slot, first: Carry, ready: seq<Ue>, reports: seq<Report>,
                  k: nat): nat
    requires k < |ready| == |reports|
  {
    if Sends(t, McsOf(t, cfg, target, first, ready, reports, k), ready[k], reports[k])
    then Cces(AggregationOf(first, reports, k)) else 0
  }

  /** Elements asked for by the first n UEs. */
  function CcesWanted(t: TbsTable, cfg: CellConfig, target: Slot, first: Carry, ready: seq<Ue>, reports: seq<Report>,
                      n: nat): nat
    requires n <= |ready| == |reports|
  {
    if n == 0 then 0
    else CcesWanted(t, cfg, target, first, ready, reports, n - 1) + WantOf(t, cfg, target, first, ready, reports, n - 1)
  }

  /** Elements assigned with the first n DCIs. */
  function CcesAssigned(grants: seq<Grant>, n: nat): nat
    requires n <= |grants|
  {
    if n == 0 then 0
    else CcesAssigned(grants, n - 1) + CcesOf(grants[n - 1])
  }

  function CcesOf(g: Grant): nat {
    if g.Grant? then Cces(g.dci.aggregation) else 0
  }

  /** Resource blocks held by the first n UEs. */
  function GivenBelow(ues: seq<Ue>, n: nat): nat
    requires n <= |ues|
  {
    if n == 0 then 0 else GivenBelow(ues, n - 1) + ues[n - 1].d.pre
  }

  lemma {:induction false} GivenBelowGrows(ues: seq<Ue>, m: nat, n: nat)
    requires m <= n <= |ues|
    ensures GivenBelow(ues, m) <= GivenBelow(ues, n)
  {
    if m < n {
      GivenBelowGrows(ues, m, n - 1);
    }
  }

  lemma {:induction false} GivenBelowTotal(ues: seq<Ue>, ds: seq<Demand>, n: nat)
    requires n <= |ues| == |ds| && forall i :: 0 <= i < |ues| ==> ues[i].d == ds[i]
    ensures GivenBelow(ues, n) == TotalGiven(ds[..n])
  {
    if n > 0 {
      GivenBelowTotal(ues, ds, n - 1);
      assert ds[..n][..n - 1] == ds[..n - 1];
    }
  }

  lemma TotalWithinBandwidth(bw: nat, ds: seq<Demand>, total: nat, order: seq<nat>)
    requires Supported(bw) && ValidOrder(order, |ds|) && forall i :: 0 <= i < |ds| ==> Fresh(ds[i])
    ensures TotalGiven(Preprocess(bw, NoGroups(), ds, total, order).ues) <= bw
  {
    PreprocessSafe(bw, NoGroups(), ds, total, order);
  }

  /** The UEs of a cell together hold no more resource blocks than it has. */
  ghost predicate Within(bw: nat, ready: seq<Ue>) {
    Supported(bw) && GivenBelow(ready, |ready|) <= bw
  }

  lemma ReadyWithin(t: TbsTable, bw: nat, ues: seq<Ue>, reports: seq<Report>, order: seq<nat>)
    requires Supported(bw) && |reports| == |ues| && ValidOrder(order, |ues|)
    ensures Within(bw, Preprocessed(t, bw, ues, reports, order))
  {
    var prepared := Prepared(t, bw, ues, reports);
    var total := ActiveCount(prepared);
    var ds := Preprocess(bw, NoGroups(), Demands(prepared), total, order).ues;
    PreparedDemandsFresh(t, bw, ues, reports);
    TotalWithinBandwidth(bw, Demands(prepared), total, order);
    GivenBelowTotal(WithDemands(prepared, ds), ds, |ues|);
    assert ds[..|ues|] == ds;
  }

  /** Before every turn the ledger is still at no symbol, short of exactly what the UEs so far wanted, which their
      resource blocks bound. */
  lemma {:induction false} LedgerInSlot(t: TbsTable, cfg: CellConfig, target: Slot, first: Carry, ready: seq<Ue>,
                                        reports: seq<Report>, k: nat)
    requires Within(cfg.bw, ready) && k <= |ready| == |reports|
    ensures var wanted := CcesWanted(t, cfg, target, first, ready, reports, k);
      var l := BeforeTurn(t, cfg, target, RoundStart(cfg, 0), first, ready, reports, k).0;
      wanted <= 8 * GivenBelow(ready, k) <= 800 && l.symbols == 0 && l.rem + wanted == GetNcceMax(0, cfg)
  {
    ColdStartWraps(cfg);
    GivenBelowGrows(ready, k, |ready|);
    if k > 0 {
      LedgerInSlot(t, cfg, target, first, ready, reports, k - 1);
      var (l, c) := BeforeTurn(t, cfg, target, RoundStart(cfg, 0), first, ready, reports, k - 1);
      AggregationCarried(t, cfg, target, first, ready, reports, k - 1);
      TurnGrantIff(t, cfg, target, l, c, ready[k - 1], reports[k - 1]);
      GrantAtOnce(cfg, 0, l.rem, AggregationOf(first, reports, k - 1));
    }
  }

  lemma AlwaysFeasible(t: TbsTable, cfg: CellConfig, target: Slot, first: Carry, ready: seq<Ue>, reports: seq<Report>,
                       k: nat, aggregation: nat)
    requires Within(cfg.bw, ready) && k <= |ready| == |reports|
    ensures var l := BeforeTurn(t, cfg, target, RoundStart(cfg, 0), first, ready, reports, k).0;
      l.symbols == 0 && Reserve(cfg, l, aggregation) == (l, true)
  {
    var l := BeforeTurn(t, cfg, target, RoundStart(cfg, 0), first, ready, reports, k).0;
    LedgerInSlot(t, cfg, target, first, ready, reports, k);
    ColdStartWraps(cfg);
    GrantAtOnce(cfg, 0, l.rem, aggregation);
  }

  /** In no slot of any cell does the feasibility test ever refuse a UE or add a symbol, at whatever aggregation
      level it asks. */
  lemma NeverInfeasible(t: TbsTable, cfg: CellConfig, target: Slot, carry: Carry, ues: seq<Ue>, reports: seq<Report>,
                        order: seq<nat>, k: nat, aggregation: nat)
    requires Supported(cfg.bw) && |reports| == |ues| && ValidOrder(order, |ues|) && k <= |ues|
    ensures var ready := Preprocessed(t, cfg.bw, ues, reports, order);
      var l := BeforeTurn(t, cfg, target, RoundStart(cfg, 0), carry, ready, reports, k).0;
      l.symbols == 0 && Reserve(cfg, l, aggregation) == (l, true)
  {
    ReadyWithin(t, cfg.bw, ues, reports, order);
    AlwaysFeasible(t, cfg, target, carry, Preprocessed(t, cfg.bw, ues, reports, order), reports, k, aggregation);
  }

  /** Turn k, in terms of the UE and its report alone. */
  lemma TurnOfIff(t: TbsTable, cfg: CellConfig, target: Slot, first: Carry, ready: seq<Ue>, reports: seq<Report>,
                  k: nat)
    requires Within(cfg.bw, ready) && k < |ready| == |reports|
    ensures var turn := TurnOf(t, cfg, target, RoundStart(cfg, 0), first, ready, reports, k);
      var flag := BeforeTurn(t, cfg, target, RoundStart(cfg, 0), first, ready, reports, k).1.taFlag;
      && (turn.grant.Grant? <==> Sends(t, McsOf(t, cfg, target, first, ready, reports, k), ready[k], reports[k]))
      && (turn.grant.Grant? ==> turn.grant.dci.aggregation == AggregationOf(first, reports, k))
      && (turn.carry.taFlag <==> flag || Fires(ready[k], reports[k]))
      && (turn.grant.Grant? ==> turn.grant.dci.ta == turn.carry.taFlag)
      && (Fires(ready[k], reports[k]) ==> turn.u.taTimer == TA_PERIOD)
  {
    var (l, c) := BeforeTurn(t, cfg, target, RoundStart(cfg, 0), first, ready, reports, k);
    AggregationCarried(t, cfg, target, first, ready, reports, k);
    AlwaysFeasible(t, cfg, target, first, ready, reports, k, AggregationOf(first, reports, k));
    TurnGrantIff(t, cfg, target, l, c, ready[k], reports[k]);
    TurnFlag(t, cfg, target, l, c, ready[k], reports[k]);
  }

  /** The grants of a slot are those of its turns. */
  lemma GrantOfTurn(t: TbsTable, cfg: CellConfig, target: Slot, carry: Carry, ues: seq<Ue>, reports: seq<Report>,
                    order: seq<nat>, k: nat)
    requires Supported(cfg.bw) && |reports| == |ues| && ValidOrder(order, |ues|) && k < |ues|
    ensures var s := RunSlot(t, cfg, target, carry, ues, reports, order);
      var ready := Preprocessed(t, cfg.bw, ues, reports, order);
      var turn := TurnOf(t, cfg, target, RoundStart(cfg, 0), carry, ready, reports, k);
      s.grants[k] == turn.grant && s.ues[k] == turn.u
  {
  }

  /** So in every slot a UE is sent a DCI if and only if it has something to send. */
  lemma SlotGrantIff(t: TbsTable, cfg: CellConfig, target: Slot, carry: Carry, ues: seq<Ue>, reports: seq<Report>,
                     order: seq<nat>, k: nat)
    requires Supported(cfg.bw) && |reports| == |ues| && ValidOrder(order, |ues|) && k < |ues|
    ensures var ready := Preprocessed(t, cfg.bw, ues, reports, order);
      var g := RunSlot(t, cfg, target, carry, ues, reports, order).grants[k];
      && (g.Grant? <==> Sends(t, McsOf(t, cfg, target, carry, ready, reports, k), ready[k], reports[k]))
      && (g.Grant? ==> g.dci.aggregation == AggregationOf(carry, reports, k))
  {
    GrantOfTurn(t, cfg, target, carry, ues, reports, order, k);
    ReadyWithin(t, cfg.bw, ues, reports, order);
    TurnOfIff(t, cfg, target, carry, Preprocessed(t, cfg.bw, ues, reports, order), reports, k);
  }

  lemma AssignedIsWantedAt(t: TbsTable, cfg: CellConfig, target: Slot, carry: Carry, ues: seq<Ue>, reports: seq<Report>,
                           order: seq<nat>, k: nat)
    requires Supported(cfg.bw) && |reports| == |ues| && ValidOrder(order, |ues|) && k < |ues|
    ensures CcesOf(RunSlot(t, cfg, target, carry, ues, reports, order).grants[k])
         == WantOf(t, cfg, target, carry, Preprocessed(t, cfg.bw, ues, reports, order), reports, k)
  {
    SlotGrantIff(t, cfg, target, carry, ues, reports, order, k);
  }

  lemma {:induction false} AssignedIsWanted(t: TbsTable, cfg: CellConfig, target: Slot, carry: Carry, ready: seq<Ue>,
                                            reports: seq<Report>, grants: seq<Grant>, n: nat)
    requires n <= |ready| == |reports| == |grants|
    requires forall k :: 0 <= k < n ==> CcesOf(grants[k]) == WantOf(t, cfg, target, carry, ready, reports, k)
    ensures CcesAssigned(grants, n) == CcesWanted(t, cfg, target, carry, ready, reports, n)
  {
    if n > 0 {
      AssignedIsWanted(t, cfg, target, carry, ready, reports, grants, n - 1);
    }
  }

  /** A slot stays within the control channel elements that three symbols provide if and only if the UEs that have
      something to send happen to want no more. */
  lemma SlotWithinCapacityIff(t: TbsTable, cfg: CellConfig, target: Slot, carry: Carry, ues: seq<Ue>,
                              reports: seq<Report>,
                              order: seq<nat>)
    requires Supported(cfg.bw) && |reports| == |ues| && ValidOrder(order, |ues|)
    ensures CcesAssigned(RunSlot(t, cfg, target, carry, ues, reports, order).grants, |ues|) <= GetNcceMax(3, cfg)
       <==> CcesWanted(t, cfg, target, carry, Preprocessed(t, cfg.bw, ues, reports, order), reports, |ues|)
              <= GetNcceMax(3, cfg)
  {
    var ready := Preprocessed(t, cfg.bw, ues, reports, order);
    var grants := RunSlot(t, cfg, target, carry, ues, reports, order).grants;
    forall k | 0 <= k < |ues|
      ensures CcesOf(grants[k]) == WantOf(t, cfg, target, carry, ready, reports, k)
    {
      AssignedIsWantedAt(t, cfg, target, carry, ues, reports, order, k);
    }
    AssignedIsWanted(t, cfg, target, carry, ready, reports, grants, |ues|);
  }

  /** Elements asked for by the first n UEs when each has a report for the cell: nothing but what the preprocessor left
      and what was reported matters. */
  function CcesReported(t: TbsTable, ready: seq<Ue>, reports: seq<Report>, n: nat): nat
    requires n <= |ready| == |reports| && forall k :: 0 <= k < |reports| ==> reports[k].csi.Csi?
  {
    if n == 0 then 0
    else
      var u, r := ready[n - 1], reports[n - 1];
      CcesReported(t, ready, reports, n - 1) + if Sends(t, r.csi.mcs, u, r) then Cces(r.csi.aggregation) else 0
  }

  lemma WantOfReported(t: TbsTable, cfg: CellConfig, target: Slot, first: Carry, ready: seq<Ue>, reports: seq<Report>,
                       k: nat)
    requires k < |ready| == |reports| && reports[k].csi.Csi?
    ensures WantOf(t, cfg, target, first, ready, reports, k)
         == if Sends(t, reports[k].csi.mcs, ready[k], reports[k]) then Cces(reports[k].csi.aggregation) else 0
  {
  }

  lemma {:induction false} ReportedIsWanted(t: TbsTable, cfg: CellConfig, target: Slot, first: Carry, ready: seq<Ue>,
                                            reports: seq<Report>, n: nat)
    requires n <= |ready| == |reports| && forall k :: 0 <= k < |reports| ==> reports[k].csi.Csi?
    ensures CcesReported(t, ready, reports, n) == CcesWanted(t, cfg, target, first, ready, reports, n)
  {
    if n > 0 {
      ReportedIsWanted(t, cfg, target, first, ready, reports, n - 1);
      WantOfReported(t, cfg, target, first, ready, reports, n - 1);
    }
  }

  /** When every UE has a report for the cell, the condition needs nothing of the run. */
  lemma ReportedWithinCapacityIff(t: TbsTable, cfg: CellConfig, target: Slot, carry: Carry, ues: seq<Ue>,
                                  reports: seq<Report>, order: seq<nat>)
    requires Supported(cfg.bw) && |reports| == |ues| && ValidOrder(order, |ues|)
    requires forall k :: 0 <= k < |reports| ==> reports[k].csi.Csi?
    ensures CcesAssigned(RunSlot(t, cfg, target, carry, ues, reports, order).grants, |ues|) <= GetNcceMax(3, cfg)
       <==> CcesReported(t, Preprocessed(t, cfg.bw, ues, reports, order), reports, |ues|) <= GetNcceMax(3, cfg)
  {
    SlotWithinCapacityIff(t, cfg, target, carry, ues, reports, order);
    ReportedIsWanted(t, cfg, target, carry, Preprocessed(t, cfg.bw, ues, reports, order), reports, |ues|);
  }

  // ---------- timing advance ----------

  /** The UE's turn is one for new data. */
  predicate NewTurn(u: Ue) {
    HasHarq(u.fb) && u.d.pre > 0 && u.fb[Pid(u.fb)].status == 0
  }

  /** The UE's turn makes room for a timing advance command, restarts its timer and sets the flag. */
  predicate Fires(u: Ue, r: Report) {
    NewTurn(u) && u.taTimer == 0 && r.taPending
  }

  /** Only turns for new data touch the timer. */
  lemma TurnTimer(t: TbsTable, cfg: CellConfig, target: Slot, ledger: Ledger, carry: Carry, u: Ue, r: Report)
    requires ledger.symbols <= 3 && Reserve(cfg, ledger, WithCsi(carry, r.csi).aggregation).1
    ensures TakeTurn(t, cfg, target, ledger, carry, u, r).u.taTimer
         == if NewTurn(u) then TaTimer(u.taTimer, r.taPending).1 else u.taTimer
  {
  }

  lemma SlotTimer(t: TbsTable, cfg: CellConfig, target: Slot, carry: Carry, ues: seq<Ue>, reports: seq<Report>,
                  order: seq<nat>, k: nat)
    requires Supported(cfg.bw) && |reports| == |ues| && ValidOrder(order, |ues|) && k < |ues|
    ensures var u := Preprocessed(t, cfg.bw, ues, reports, order)[k];
      && u.taTimer == ues[k].taTimer
      && RunSlot(t, cfg, target, carry, ues, reports, order).ues[k].taTimer
          == if NewTurn(u) then TaTimer(u.taTimer, reports[k].taPending).1 else u.taTimer
  {
    var ready := Preprocessed(t, cfg.bw, ues, reports, order);
    var (l, c) := BeforeTurn(t, cfg, target, RoundStart(cfg, 0), carry, ready, reports, k);
    ReadyForTurn(t, cfg.bw, ues, reports, order, k);
    ReadyWithin(t, cfg.bw, ues, reports, order);
    AlwaysFeasible(t, cfg, target, carry, ready, reports, k, WithCsi(c, reports[k].csi).aggregation);
    TurnTimer(t, cfg, target, l, c, ready[k], reports[k]);
    GrantOfTurn(t, cfg, target, carry, ues, reports, order, k);
  }

  lemma TurnFlag(t: TbsTable, cfg: CellConfig, target: Slot, ledger: Ledger, carry: Carry, u: Ue, r: Report)
    requires ledger.symbols <= 3 && Reserve(cfg, ledger, WithCsi(carry, r.csi).aggregation).1
    ensures var turn := TakeTurn(t, cfg, target, ledger, carry, u, r);
      && (turn.carry.taFlag <==> carry.taFlag || Fires(u, r))
      && (turn.grant.Grant? ==> turn.grant.dci.ta == turn.carry.taFlag)
      && (Fires(u, r) ==> turn.u.taTimer == TA_PERIOD)
  {
  }

  /** Some turn before turn k fires. */
  predicate FiredBelow(ready: seq<Ue>, reports: seq<Report>, k: nat)
    requires k <= |ready| == |reports|
  {
    k > 0 && (FiredBelow(ready, reports, k - 1) || Fires(ready[k - 1], reports[k - 1]))
  }

  lemma {:induction false} FiredBelowIff(ready: seq<Ue>, reports: seq<Report>, k: nat)
    requires k <= |ready| == |reports|
    ensures FiredBelow(ready, reports, k) <==> exists j :: 0 <= j < k && Fires(ready[j], reports[j])
  {
    if k > 0 {
      FiredBelowIff(ready, reports, k - 1);
    }
  }

  lemma {:induction false} FlagBefore(t: TbsTable, cfg: CellConfig, target: Slot, first: Carry, ready: seq<Ue>,
                                      reports: seq<Report>, k: nat)
    requires Within(cfg.bw, ready) && k <= |ready| == |reports|
    ensures BeforeTurn(t, cfg, target, RoundStart(cfg, 0), first, ready, reports, k).1.taFlag
       <==> first.taFlag || FiredBelow(ready, reports, k)
  {
    if k > 0 {
      FlagBefore(t, cfg, target, first, ready, reports, k - 1);
      TurnOfIff(t, cfg, target, first, ready, reports, k - 1);
    }
  }

  lemma TurnAnnouncesIff(t: TbsTable, cfg: CellConfig, target: Slot, first: Carry, ready: seq<Ue>,
                         reports: seq<Report>, k: nat)
    requires Within(cfg.bw, ready) && k < |ready| == |reports|
    ensures var g := TurnOf(t, cfg, target, RoundStart(cfg, 0), first, ready, reports, k).grant;
      g.Grant? ==> (g.dci.ta <==> first.taFlag || FiredBelow(ready, reports, k + 1))
  {
    FlagBefore(t, cfg, target, first, ready, reports, k);
    TurnOfIff(t, cfg, target, first, ready, reports, k);
  }

  /** A DCI announces a timing advance command if and only if its own UE's turn or an earlier turn of the same call
      fired (see FiredBelowIff); carry.taFlag stands for the earlier cells and agents of the call. */
  lemma TaAnnouncedIff(t: TbsTable, cfg: CellConfig, target: Slot, carry: Carry, ues: seq<Ue>, reports: seq<Report>,
                       order: seq<nat>, k: nat)
    requires Supported(cfg.bw) && |reports| == |ues| && ValidOrder(order, |ues|) && k < |ues|
    ensures var ready := Preprocessed(t, cfg.bw, ues, reports, order);
      var g := RunSlot(t, cfg, target, carry, ues, reports, order).grants[k];
      g.Grant? ==> (g.dci.ta <==> carry.taFlag || FiredBelow(ready, reports, k + 1))
  {
    GrantOfTurn(t, cfg, target, carry, ues, reports, order, k);
    ReadyWithin(t, cfg.bw, ues, reports, order);
    TurnAnnouncesIff(t, cfg, target, carry, Preprocessed(t, cfg.bw, ues, reports, order), reports, k);
  }

  /** A UE that holds groups for new data has data. */
  lemma NewDataHasData(t: TbsTable, bw: nat, ues: seq<Ue>, reports: seq<Report>, order: seq<nat>,
                       k: nat) returns (j: nat)
    requires Supported(bw) && |reports| == |ues| && ValidOrder(order, |ues|) && k < |ues|
    requires var u := Preprocessed(t, bw, ues, reports, order)[k];
      HasHarq(u.fb) && u.d.pre > 0 && u.fb[Pid(u.fb)].status == 0
    ensures var u := Preprocessed(t, bw, ues, reports, order)[k]; j < |u.queues| && u.queues[j] > 0
  {
    ReadyForTurn(t, bw, ues, reports, order, k);
    j := SomeBusy(ues[k].queues, |ues[k].queues|);
  }

  lemma {:induction false} SomeBusy(qs: seq<nat>, n: nat) returns (j: nat)
    requires n <= |qs| && SumBelow(qs, n) > 0
    ensures j < |qs| && qs[j] > 0
  {
    if qs[n - 1] > 0 {
      j := n - 1;
    } else {
      j := SomeBusy(qs, n - 1);
    }
  }

  /** A turn that fires without any data restarts the timer and sends nothing; the preprocessor never lets it come to
      that (see NewDataHasData). */
  lemma EmptyTurnDropsCommand(t: TbsTable, cfg: CellConfig, target: Slot, ledger: Ledger, carry: Carry, u: Ue,
                              r: Report)
    requires ledger.symbols <= 3 && Reserve(cfg, ledger, WithCsi(carry, r.csi).aggregation).1
    requires Fires(u, r) && forall j :: 0 <= j < |u.queues| ==> u.queues[j] == 0
    ensures var turn := TakeTurn(t, cfg, target, ledger, carry, u, r);
      turn.grant == NoGrant && turn.u.taTimer == TA_PERIOD && turn.carry.taFlag
  {
    TurnGrantIff(t, cfg, target, ledger, carry, u, r);
    TurnFlag(t, cfg, target, ledger, carry, u, r);
  }

  /** When a turn that fires has a channel to ask. */
  lemma FiringSendsIff(t: TbsTable, mcs: nat, u: Ue, r: Report, busy: nat)
    requires Fires(u, r) && busy < |u.queues| && u.queues[busy] > 0
    ensures !Sends(t, mcs, u, r)
       <==> GetTbsDl(t, mcs, u.d.pre) == 5 && forall j :: 1 <= j < |u.queues| ==> u.queues[j] == 0
  {
    var tbs := GetTbsDl(t, mcs, u.d.pre);
    assert OwnTa(u, r) == 2;
    if j :| 0 <= j < |u.queues| && FirstAsked(tbs, OwnTa(u, r), u.queues, j) {
      assert Sends(t, mcs, u, r);
    } else {
      assert !FirstAsked(tbs, OwnTa(u, r), u.queues, busy);
      forall j | 1 <= j < |u.queues|
        ensures u.queues[j] == 0
      {
        assert !FirstAsked(tbs, OwnTa(u, r), u.queues, j);
      }
    }
  }

  /** A turn that fires has its timer restarted in any case, but its own command is dropped, no DCI being sent to its
      UE, if and only if its block would be five bytes long and only its first channel has data. */
  lemma FiredCommandDroppedIff(t: TbsTable, cfg: CellConfig, target: Slot, carry: Carry, ues: seq<Ue>,
                               reports: seq<Report>,
                               order: seq<nat>, k: nat)
    requires Supported(cfg.bw) && |reports| == |ues| && ValidOrder(order, |ues|) && k < |ues|
    requires Fires(Preprocessed(t, cfg.bw, ues, reports, order)[k], reports[k])
    ensures var ready := Preprocessed(t, cfg.bw, ues, reports, order);
      var u, mcs := ready[k], McsOf(t, cfg, target, carry, ready, reports, k);
      var s := RunSlot(t, cfg, target, carry, ues, reports, order);
      && s.ues[k].taTimer == TA_PERIOD
      && (s.grants[k] == NoGrant
          <==> GetTbsDl(t, mcs, u.d.pre) == 5 && forall j :: 1 <= j < |u.queues| ==> u.queues[j] == 0)
  {
    var ready := Preprocessed(t, cfg.bw, ues, reports, order);
    var busy := NewDataHasData(t, cfg.bw, ues, reports, order, k);
    FiringSendsIff(t, McsOf(t, cfg, target, carry, ready, reports, k), ready[k], reports[k], busy);
    GrantOfTurn(t, cfg, target, carry, ues, reports, order, k);
    ReadyWithin(t, cfg.bw, ues, reports, order);
    TurnOfIff(t, cfg, target, carry, ready, reports, k);
  }

  /** In the table a block of five bytes is that of scheme 3, which no channel quality indicator stands for. */
  ghost predicate FiveBytesAtThree(t: TbsTable) {
    forall m, nb :: 0 <= m <= MAX_MCS && 1 <= nb <= 100 && GetTbsDl(t, m, nb) == 5 ==> m == 3
  }

  /** So a UE with a report for the cell never loses its command; one without takes the scheme that the turn before left
      behind, and may. */
  lemma ReportedCommandIsSent(t: TbsTable, cfg: CellConfig, target: Slot, carry: Carry, ues: seq<Ue>,
                              reports: seq<Report>, order: seq<nat>, k: nat)
    requires Supported(cfg.bw) && |reports| == |ues| && ValidOrder(order, |ues|) && k < |ues|
    requires Fires(Preprocessed(t, cfg.bw, ues, reports, order)[k], reports[k])
    requires FiveBytesAtThree(t) && FromCqi(cfg.bw, reports[k]) && reports[k].csi.Csi?
    ensures var g := RunSlot(t, cfg, target, carry, ues, reports, order).grants[k]; g.Grant? && g.dci.ta
  {
    var ready := Preprocessed(t, cfg.bw, ues, reports, order);
    FromCqiIsValid(cfg.bw, reports[k]);
    ReadyForTurn(t, cfg.bw, ues, reports, order, k);
    UsedPlusFree(cfg.bw, ready[k].d.mask);
    FiredCommandDroppedIff(t, cfg, target, carry, ues, reports, order, k);
    TaAnnouncedIff(t, cfg, target, carry, ues, reports, order, k);
  }
}
