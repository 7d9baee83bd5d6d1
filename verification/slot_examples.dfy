/** Concrete slots in which the scheduler does not do what one would expect.  Every report is that of a channel quality
    indicator, and the table entries used are those of TBStable. */
module SlotExamples {
  import opened ResourceGrid
  import opened Preprocessor
  import opened TransportBlock
  import opened DciBitmap
  import opened RlcRequests
  import opened Pdcch
  import opened SlotTime
  import opened Downlink
  import opened Cqi
  import opened SlotSafety
  import opened SlotControl
  import opened LastGroup

  const CELL: CellConfig := CellConfig(6, Unset, false)
  const WIDE: CellConfig := CellConfig(100, Unset, false)

  /** Rows 0 and 26 for up to six resource blocks, in bytes. */
  ghost predicate HasSixRbRows(t: TbsTable) {
    && GetTbsDl(t, 0, 1) == 2 && GetTbsDl(t, 0, 4) == 11
    && GetTbsDl(t, 28, 1) == 89 && GetTbsDl(t, 28, 2) == 185 && GetTbsDl(t, 28, 3) == 277
    && GetTbsDl(t, 28, 4) == 373 && GetTbsDl(t, 28, 5) == 469 && GetTbsDl(t, 28, 6) == 549
  }

  /** The ends of rows 0 and 26, at 100 resource blocks; row 0 has nothing larger before. */
  ghost predicate HasWideEnds(t: TbsTable) {
    && GetTbsDl(t, 0, 100) == 349 && GetTbsDl(t, 28, 100) == 9422
    && forall nb :: 1 <= nb <= 100 ==> GetTbsDl(t, 0, nb) <= 349
  }

  /** A UE with all processes free. */
  function IdleUe(timer: int, queues: seq<nat>): Ue {
    Ue(Demand(true, 0, 0, 0, 0, NoGroups()), seq(MAX_NUM_HARQ, _ => HarqTx(0, 0, 0, 0, NoGroups())),
       seq(MAX_NUM_HARQ, _ => HarqFeedback(true, 0)), timer, Slot(0, 0), queues)
  }

  /** What a UE with this many channels reports, with this indicator. */
  function Reported(bw: nat, cqi: nat, channels: nat, taPending: bool): (r: Report)
    requires cqi < CQI_RANGE
    ensures FromCqi(bw, r)
  {
    Report(LcEntry(channels), CsiOf(bw, cqi), taPending, PowerReport(false, 0, 0))
  }

  // ---------- what a UE asks for and is given ----------

  /** Resource blocks a UE asks for. */
  function Asked(t: TbsTable, bw: nat, u: Ue, r: Report): nat
    requires bw < 0x1_0000
  {
    SizedRbs(t, bw, if r.csi.Csi? then r.csi.mcs else 0, Sum(u.queues))
  }

  ghost predicate IsIdle(u: Ue) {
    forall p :: 0 <= p < MAX_NUM_HARQ ==> u.fb[p] == HarqFeedback(true, 0)
  }

  /** What the UE loop finds: a free process for new data, the same queues and timer. */
  ghost predicate StillIdle(before: Ue, after: Ue) {
    && HasHarq(after.fb) && Pid(after.fb) == 0 && after.fb[0].status == 0
    && after.queues == before.queues && after.taTimer == before.taTimer
  }

  lemma PreparedIdle(t: TbsTable, bw: nat, u: Ue, r: Report)
    requires IsIdle(u) && r.lcs.LcEntry? && bw < 0x1_0000
    ensures var v := WithHarq(Sized(t, bw, u, r));
      && StillIdle(u, v) && v.d.required == Asked(t, bw, u, r) && Fresh(v.d)
      && (|u.queues| > 0 ==> v.d.high == (r.lcs.count <= 2))
  {
  }

  lemma SomeActive(ues: seq<Ue>, i: nat)
    requires i < |ues| && Active(ues[i])
    ensures ActiveCount(ues) > 0
  {
    var active := set k | 0 <= k < |ues| && Active(ues[k]);
    assert i in active && active != {};
  }

  /** A lone UE goes through the preprocessor with nothing but its demand. */
  lemma OneUePrepared(t: TbsTable, bw: nat, u: Ue, r: Report) returns (d: Demand, total: nat)
    requires IsIdle(u) && r.lcs.LcEntry? && bw < 0x1_0000 && Asked(t, bw, u, r) > 0
    ensures Fresh(d) && d.required == Asked(t, bw, u, r) && total > 0
    ensures |u.queues| > 0 ==> d.high == (r.lcs.count <= 2)
    ensures var v := Preprocessed(t, bw, [u], [r], [0])[0];
      StillIdle(u, v) && v.d == Preprocess(bw, NoGroups(), [d], total, [0]).ues[0]
  {
    var prepared := Prepared(t, bw, [u], [r]);
    PreparedIdle(t, bw, u, r);
    SomeActive(prepared, 0);
    d, total := prepared[0].d, ActiveCount(prepared);
    assert Demands(prepared) == [d];
  }

  // ---------- six resource blocks ----------

  /** With groups of one resource block nobody gets too much, and either all is given away or everybody has enough. */
  lemma SixShared(ds: seq<Demand>, total: nat, order: seq<nat>)
    requires ValidOrder(order, |ds|) && total > 0
    requires forall u :: 0 <= u < |ds| ==> u in order && Fresh(ds[u])
    ensures var r := Preprocess(6, NoGroups(), ds, total, order);
      && (forall u :: 0 <= u < |ds| ==> r.ues[u].pre <= ds[u].required)
      && TotalGiven(r.ues) <= 6
      && (TotalGiven(r.ues) == 6 || forall u :: 0 <= u < |ds| ==> r.ues[u].pre == ds[u].required)
  {
    var r := Preprocess(6, NoGroups(), ds, total, order);
    PreprocessSafe(6, NoGroups(), ds, total, order);
    if g :| 0 <= g < NbRbg(6) && !r.vrb[g] {
      forall u | 0 <= u < |ds|
        ensures r.ues[u].pre == ds[u].required
      {
        WorkConserving(6, NoGroups(), ds, total, order, g, u);
      }
    } else {
      RbsBelowNone(6, NoGroups(), NbRbg(6));
      RbsBelowNone(6, Free(r.vrb), NbRbg(6));
    }
  }

  lemma TotalOfOne(ds: seq<Demand>)
    requires |ds| == 1
    ensures TotalGiven(ds) == ds[0].pre
  {
    assert ds[..0] == [];
  }

  lemma TotalOfTwo(ds: seq<Demand>)
    requires |ds| == 2
    ensures TotalGiven(ds) == ds[0].pre + ds[1].pre
  {
    TotalOfOne(ds[..1]);
  }

  lemma TotalOfThree(ds: seq<Demand>)
    requires |ds| == 3
    ensures TotalGiven(ds) == ds[0].pre + ds[1].pre + ds[2].pre
  {
    TotalOfTwo(ds[..2]);
  }

  lemma OneUeReady(t: TbsTable, u: Ue, r: Report)
    requires IsIdle(u) && r.lcs.LcEntry? && 0 < Asked(t, 6, u, r) <= 6
    ensures var v := Preprocessed(t, 6, [u], [r], [0])[0]; StillIdle(u, v) && v.d.pre == Asked(t, 6, u, r)
  {
    var d, total := OneUePrepared(t, 6, u, r);
    SixShared([d], total, [0]);
    TotalOfOne(Preprocess(6, NoGroups(), [d], total, [0]).ues);
  }

  lemma TwoUesReady(t: TbsTable, u0: Ue, u1: Ue, r0: Report, r1: Report)
    requires IsIdle(u0) && r0.lcs.LcEntry? && Asked(t, 6, u0, r0) > 0 && |u0.queues| > 0
    requires IsIdle(u1) && r1.lcs.LcEntry? && Asked(t, 6, u1, r1) > 0 && |u1.queues| > 0
    ensures var ready := Preprocessed(t, 6, [u0, u1], [r0, r1], [0, 1]);
      var a, b, pre0, pre1 := Asked(t, 6, u0, r0), Asked(t, 6, u1, r1), ready[0].d.pre, ready[1].d.pre;
      && StillIdle(u0, ready[0]) && StillIdle(u1, ready[1])
      && pre0 <= a && pre1 <= b && pre0 + pre1 <= 6 && (pre0 + pre1 == 6 || (pre0 == a && pre1 == b))
      && (r0.lcs.count <= 2 < r1.lcs.count && pre1 > 0 ==> pre0 == a)
  {
    var prepared := Prepared(t, 6, [u0, u1], [r0, r1]);
    var demands, total := Demands(prepared), ActiveCount(prepared);
    var ds := Preprocess(6, NoGroups(), demands, total, [0, 1]).ues;
    PreparedIdle(t, 6, u0, r0);
    PreparedIdle(t, 6, u1, r1);
    SomeActive(prepared, 0);
    SixShared(demands, total, [0, 1]);
    TotalOfTwo(ds);
    if r0.lcs.count <= 2 < r1.lcs.count && ds[1].pre > 0 {
      HighPriorityFirst(6, NoGroups(), demands, total, [0, 1], 0, 1);
    }
  }

  /** Two UEs of high priority, and one of normal priority between them that gets what they leave. */
  lemma ThreeUesShare(ds: seq<Demand>, total: nat)
    requires |ds| == 3 && total > 0 && forall u :: 0 <= u < 3 ==> Fresh(ds[u])
    requires ds[0].high && !ds[1].high && ds[2].high
    requires ds[0].required == 1 && ds[1].required == 4 && ds[2].required == 4
    ensures var r := Preprocess(6, NoGroups(), ds, total, [0, 1, 2]).ues; r[0].pre == 1 && r[1].pre == 1
  {
    var order := [0, 1, 2];
    SixShared(ds, total, order);
    TotalOfThree(Preprocess(6, NoGroups(), ds, total, order).ues);
    HighPriorityFirst(6, NoGroups(), ds, total, order, 0, 1);
    HighPriorityFirst(6, NoGroups(), ds, total, order, 2, 1);
  }

  // ---------- a turn that sends ----------

  /** The new block of a turn, once its searches are worked out. */
  lemma NewBlockSent(t: TbsTable, cfg: CellConfig, target: Slot, l: Ledger, c: Carry, v: Ue, r: Report, nb: nat,
                     mcs: nat,
                     tbs: nat)
    requires Supported(cfg.bw) && l.symbols <= 3 && Reserve(cfg, l, WithCsi(c, r.csi).aggregation).1
    requires Sends(t, SizingMcs(c, r), v, r) && v.fb[Pid(v.fb)].status == 0 && v.d.pre == Rbs(cfg.bw, v.d.mask)
    requires var need, start := NewBlockNeed(t, c, v, r), SizingMcs(c, r);
      && nb == RbSearch(t, start, MinRbUnit(cfg.bw), v.d.pre, need, FirstNbRb(cfg.bw, start))
      && mcs == FitMcs(t, nb, need, start) && tbs == GetTbsDl(t, mcs, nb)
    ensures var turn := TakeTurn(t, cfg, target, l, c, v, r);
      var g := turn.grant;
      && g.Grant? && g.dci.round == 0 && g.requests == NewRequests(t, c, v, r).requests
      && g.dci.nbRb == nb && g.dci.mcs == mcs == turn.carry.mcs && g.dci.tbs == tbs
      && (g.dci.ta <==> c.taFlag || OwnTa(v, r) > 0)
  {
    TurnGrantIff(t, cfg, target, l, c, v, r);
    NewBlockParts(t, cfg, target, l, c, v, r);
    GrantLeavesMcs(t, cfg, target, l, c, v, r);
  }

  // ---------- control channel elements ----------

  /** A lone idle UE with data in its first channel is sent a DCI. */
  lemma OneUeSent(t: TbsTable, target: Slot, carry: Carry, u: Ue, r: Report)
    requires IsIdle(u) && r.csi.Csi? && r.lcs.LcEntry? && 0 < Asked(t, 6, u, r) <= 6
    requires |u.queues| > 0 && FirstAsked(GetTbsDl(t, r.csi.mcs, Asked(t, 6, u, r)), OwnTa(u, r), u.queues, 0)
    ensures var g := RunSlot(t, CELL, target, carry, [u], [r], [0]).grants[0];
      g.Grant? && g.dci.aggregation == r.csi.aggregation
  {
    var ready := Preprocessed(t, CELL.bw, [u], [r], [0]);
    OneUeReady(t, u, r);
    assert FirstAsked(GetTbsDl(t, r.csi.mcs, ready[0].d.pre), OwnTa(ready[0], r), ready[0].queues, 0);
    assert Sends(t, r.csi.mcs, ready[0], r);
    SlotGrantIff(t, CELL, target, carry, [u], [r], [0], 0);
  }

  lemma OneGrant(grants: seq<Grant>)
    requires |grants| > 0
    ensures CcesAssigned(grants, 1) == CcesOf(grants[0])
  {
  }

  /** One UE with the worst channel quality is assigned eight control channel elements where three symbols provide
      four. */
  lemma CapacityExceeded(t: TbsTable, target: Slot, carry: Carry, u: Ue, r: Report)
    requires HasSixRbRows(t) && u == IdleUe(20, [10]) && r == Reported(6, 0, 1, false)
    ensures CcesAssigned(RunSlot(t, CELL, target, carry, [u], [r], [0]).grants, 1) == 8 && GetNcceMax(3, CELL) == 4
  {
    assert Sum(u.queues) == 10 && r.csi == Csi(0, 3);
    assert Asked(t, 6, u, r) == 4;
    OneUeSent(t, target, carry, u, r);
    OneGrant(RunSlot(t, CELL, target, carry, [u], [r], [0]).grants);
  }

  // ---------- timing advance ----------

  lemma OneRequest(tbs: nat, q: nat)
    requires 3 < q + 3 <= tbs < 0x1_0000 && q < 128
    ensures ServeAll(tbs, 0, [q]) == Rlc(2, 2, q, [q], [0])
  {
    assert ServeBelow(tbs, 0, [q], 0) == Rlc(0, 0, 0, [], []);
    assert ServeAll(tbs, 0, [q]) == Serve(tbs, 0, Rlc(0, 0, 0, [], []), q);
  }

  /** Searching down from scheme 28 on one resource block ends at this scheme, with a block as large as needed. */
  ghost predicate FoundAt(t: TbsTable, need: nat, start: nat, mcs: nat) {
    RbSearch(t, start, 1, 1, need, 1) == 1 && FitMcs(t, 1, need, start) == mcs && GetTbsDl(t, mcs, 1) == need
  }

  /** 41 bytes are found at scheme 18, five at scheme 3. */
  lemma SearchOneRb(t: TbsTable, need: nat, start: nat, mcs: nat)
    requires HasOneRbColumn(t) && start == 28 && ((need == 41 && mcs == 18) || (need == 5 && mcs == 3))
    ensures FoundAt(t, need, start, mcs)
  {
    var low := LowerMcs(t, 1, need, start);
    LowerMcsStops(t, 1, need, start);
    assert GetTbsDl(t, mcs, 1) == need && GetTbsDl(t, start, 1) == 89;
    forall m | mcs < m <= start
      ensures GetTbsDl(t, m, 1) > need
    {
      if need == 41 {
        OneRbBytesSorted(19, m);
      } else if m <= 6 {
        OneRbBytesSorted(4, m);
      } else {
        OneRbBytesSorted(7, m);
      }
    }
    assert low == mcs;
  }

  /** A UE's turn at scheme 28 with one channel and a single resource block. */
  ghost predicate SmallBlock(t: TbsTable, v: Ue, r: Report, q: nat) {
    && GetTbsDl(t, 28, 1) == 89 && StillIdle(v, v) && r.csi == Csi(28, 0) && OwnTa(v, r) == 0
    && v.d.pre == 1 && v.d.pre == Rbs(CELL.bw, v.d.mask) && v.queues == [q]
  }

  lemma SmallBlockNeed(t: TbsTable, c: Carry, v: Ue, r: Report, q: nat)
    requires SmallBlock(t, v, r, q) && 0 < q < 80
    ensures SizingMcs(c, r) == 28 && NewBlockNeed(t, c, v, r) == q + 1
    ensures NewRequests(t, c, v, r) == Rlc(2, 2, q, [q], [0]) && Sends(t, 28, v, r)
  {
    OneRequest(89, q);
    assert FirstAsked(89, OwnTa(v, r), v.queues, 0);
  }

  lemma SmallBlockSent(t: TbsTable, target: Slot, l: Ledger, c: Carry, v: Ue, r: Report, q: nat, start: nat, mcs: nat)
    requires SmallBlock(t, v, r, q) && 0 < q < 80 && l.symbols <= 3 && Reserve(CELL, l, 0).1
    requires start == r.csi.mcs && FoundAt(t, q + 1, start, mcs)
    ensures var turn := TakeTurn(t, CELL, target, l, c, v, r);
      var g := turn.grant;
      && g.Grant? && g.requests == [q] && (g.dci.ta <==> c.taFlag)
      && turn.carry.mcs == mcs && g.dci.tbs == q + 1
  {
    SmallBlockNeed(t, c, v, r, q);
    NewBlockSent(t, CELL, target, l, c, v, r, 1, mcs, q + 1);
  }

  lemma FortyBytesPdu()
    ensures PduBytes([40], 2, 0) == 41 && PduBytes([40], 2, 2) == 43
  {
    assert SumBelow([40], 1) == 40 && SubheadersBelow([40], 1) == 2;
  }

  lemma TwoSmallUes(t: TbsTable, u0: Ue, r0: Report, u1: Ue, r1: Report)
    requires HasOneRbColumn(t)
    requires u0 == IdleUe(0, [40]) && r0 == Reported(6, 15, 1, true)
    requires u1 == IdleUe(20, [40]) && r1 == Reported(6, 15, 1, false)
    ensures var ready := Preprocessed(t, CELL.bw, [u0, u1], [r0, r1], [0, 1]);
      Fires(ready[0], r0) && SmallBlock(t, ready[1], r1, 40) && FoundAt(t, 41, r1.csi.mcs, 18)
  {
    assert GetTbsDl(t, 28, 1) == 89 && r0.csi == r1.csi == Csi(28, 0);
    assert Sum(u0.queues) == 40 && Asked(t, 6, u0, r0) == 1;
    assert Sum(u1.queues) == 40 && Asked(t, 6, u1, r1) == 1;
    TwoUesReady(t, u0, u1, r0, r1);
    ReadyForTurn(t, CELL.bw, [u0, u1], [r0, r1], [0, 1], 1);
    SearchOneRb(t, 41, r1.csi.mcs, 18);
  }

  lemma SecondTurn(t: TbsTable, target: Slot, first: Carry, ready: seq<Ue>, reports: seq<Report>)
    requires Within(CELL.bw, ready) && |ready| == |reports| == 2
    requires Fires(ready[0], reports[0]) && SmallBlock(t, ready[1], reports[1], 40)
    requires FoundAt(t, 41, reports[1].csi.mcs, 18)
    ensures var g := TurnOf(t, CELL, target, RoundStart(CELL, 0), first, ready, reports, 1).grant;
      g.Grant? && g.requests == [40] && g.dci.ta && g.dci.tbs == 41
  {
    var (l, c) := BeforeTurn(t, CELL, target, RoundStart(CELL, 0), first, ready, reports, 1);
    FlagBefore(t, CELL, target, first, ready, reports, 1);
    assert FiredBelow(ready, reports, 1);
    AlwaysFeasible(t, CELL, target, first, ready, reports, 1, 0);
    SmallBlockSent(t, target, l, c, ready[1], reports[1], 40, reports[1].csi.mcs, 18);
  }

  lemma SecondAnnounced(t: TbsTable, target: Slot, carry: Carry, ues: seq<Ue>, reports: seq<Report>, order: seq<nat>)
    requires |ues| == |reports| == 2 && ValidOrder(order, 2)
    requires var ready := Preprocessed(t, CELL.bw, ues, reports, order);
      Fires(ready[0], reports[0]) && SmallBlock(t, ready[1], reports[1], 40) && FoundAt(t, 41, reports[1].csi.mcs, 18)
    ensures var g := RunSlot(t, CELL, target, carry, ues, reports, order).grants[1];
      g.Grant? && g.requests == [40] && g.dci.ta && g.dci.tbs == 41
  {
    ReadyWithin(t, CELL.bw, ues, reports, order);
    GrantOfTurn(t, CELL, target, carry, ues, reports, order, 1);
    SecondTurn(t, target, carry, Preprocessed(t, CELL.bw, ues, reports, order), reports);
  }

  /** Two UEs with the best channel quality and 40 bytes each: the timing advance command of the first is announced to
      the second as well, whose own timer has just been restarted, and whose block of 41 bytes, made for 40 bytes of
      data and a subheader, has no room for it. */
  lemma CommandInherited(t: TbsTable, target: Slot, carry: Carry, u0: Ue, r0: Report, u1: Ue, r1: Report)
    requires HasOneRbColumn(t)
    requires u0 == IdleUe(0, [40]) && r0 == Reported(6, 15, 1, true)
    requires u1 == IdleUe(20, [40]) && r1 == Reported(6, 15, 1, false)
    ensures var g := RunSlot(t, CELL, target, carry, [u0, u1], [r0, r1], [0, 1]).grants[1];
      && g.Grant? && g.requests == [40] && g.dci.ta && g.dci.tbs == 41
      && PduBytes(g.requests, 2, 0) == 41 && PduBytes(g.requests, 2, AnnouncedTa(g.dci)) == 43
  {
    TwoSmallUes(t, u0, r0, u1, r1);
    SecondAnnounced(t, target, carry, [u0, u1], [r0, r1], [0, 1]);
    FortyBytesPdu();
  }

  lemma ThreeAsk(t: TbsTable, u0: Ue, r0: Report, u1: Ue, r1: Report, u2: Ue, r2: Report)
    requires HasOneRbColumn(t) && GetTbsDl(t, 0, 4) == 11
    requires u0 == IdleUe(20, [4]) && r0 == Reported(6, 15, 1, false)
    requires u1 == IdleUe(0, [5]) && r1 == Reported(6, 15, 3, true).(csi := NoCsi)
    requires u2 == IdleUe(20, [10]) && r2 == Reported(6, 0, 1, false)
    ensures Asked(t, 6, u0, r0) == 1 && Asked(t, 6, u1, r1) == 4 && Asked(t, 6, u2, r2) == 4
    ensures r0.csi == Csi(28, 0) && GetTbsDl(t, 28, 1) == 89 && GetTbsDl(t, 3, 1) == 5
  {
    assert GetTbsDl(t, 28, 1) == 89 && GetTbsDl(t, 3, 1) == 5 && r0.csi == Csi(28, 0) && r2.csi == Csi(0, 3);
    assert Sum(u0.queues) == 4 && Sum(u1.queues) == 5 && Sum(u2.queues) == 10;
  }

  lemma ThreeReady(t: TbsTable, ues: seq<Ue>, reports: seq<Report>, order: seq<nat>)
    requires order == [0, 1, 2]
    requires |ues| == |reports| == 3 && AllIdle(ues)
    requires reports[0].lcs == reports[2].lcs == LcEntry(1) && reports[1].lcs == LcEntry(3)
    requires Asked(t, 6, ues[0], reports[0]) == 1
    requires Asked(t, 6, ues[1], reports[1]) == Asked(t, 6, ues[2], reports[2]) == 4
    ensures var ready := Preprocessed(t, 6, ues, reports, order);
      && StillIdle(ues[0], ready[0]) && StillIdle(ues[1], ready[1])
      && ready[0].d.pre == ready[1].d.pre == 1
  {
    var prepared := Prepared(t, 6, ues, reports);
    forall i | 0 <= i < 3
      ensures StillIdle(ues[i], prepared[i]) && Fresh(prepared[i].d)
      ensures prepared[i].d.required == Asked(t, 6, ues[i], reports[i])
      ensures prepared[i].d.high == (reports[i].lcs.count <= 2)
    {
      PreparedIdle(t, 6, ues[i], reports[i]);
    }
    SomeActive(prepared, 0);
    ThreeUesShare(Demands(prepared), ActiveCount(prepared));
  }

  /** Scheme 3 is what the first turn leaves behind. */
  lemma SchemeLeftBehind(t: TbsTable, target: Slot, first: Carry, ready: seq<Ue>, reports: seq<Report>)
    requires Within(CELL.bw, ready) && |ready| == |reports| == 3 && reports[1].csi.NoCsi?
    requires SmallBlock(t, ready[0], reports[0], 4) && FoundAt(t, 5, reports[0].csi.mcs, 3)
    ensures McsOf(t, CELL, target, first, ready, reports, 1) == 3
  {
    var (l, c) := BeforeTurn(t, CELL, target, RoundStart(CELL, 0), first, ready, reports, 0);
    AlwaysFeasible(t, CELL, target, first, ready, reports, 0, 0);
    SmallBlockSent(t, target, l, c, ready[0], reports[0], 4, reports[0].csi.mcs, 3);
    assert BeforeTurn(t, CELL, target, RoundStart(CELL, 0), first, ready, reports, 1)
        == (TakeTurn(t, CELL, target, l, c, ready[0], reports[0]).ledger,
            TakeTurn(t, CELL, target, l, c, ready[0], reports[0]).carry);
  }

  ghost predicate AllIdle(ues: seq<Ue>) {
    forall i :: 0 <= i < |ues| ==> IsIdle(ues[i]) && |ues[i].queues| > 0
  }

  /** What the three UEs of the example are, and what their searches find. */
  ghost predicate ThreeUes(t: TbsTable, ues: seq<Ue>, reports: seq<Report>) {
    && |ues| == |reports| == 3 && GetTbsDl(t, 28, 1) == 89 && GetTbsDl(t, 3, 1) == 5
    && AllIdle(ues) && reports[0].lcs == reports[2].lcs == LcEntry(1) && reports[1].lcs == LcEntry(3)
    && Asked(t, 6, ues[0], reports[0]) == 1
    && Asked(t, 6, ues[1], reports[1]) == Asked(t, 6, ues[2], reports[2]) == 4
    && reports[0].csi == Csi(28, 0) && FoundAt(t, 5, reports[0].csi.mcs, 3) && !reports[0].taPending
    && ues[0].queues == [4] && ues[1].queues == [5]
    && ues[1].taTimer == 0 && reports[1].taPending && reports[1].csi.NoCsi?
  }

  lemma IdleBecomesSmall(t: TbsTable, u: Ue, v: Ue, r: Report)
    requires StillIdle(u, v) && u.queues == [4] && v.d.pre == 1 == Rbs(CELL.bw, v.d.mask)
    requires GetTbsDl(t, 28, 1) == 89 && r.csi == Csi(28, 0) && !r.taPending
    ensures SmallBlock(t, v, r, 4)
  {
  }

  lemma IdleFires(u: Ue, v: Ue, r: Report)
    requires StillIdle(u, v) && v.d.pre > 0 && u.taTimer == 0 && r.taPending
    ensures Fires(v, r)
  {
  }

  lemma ThreeForLoop(t: TbsTable, ues: seq<Ue>, reports: seq<Report>, order: seq<nat>)
    requires ThreeUes(t, ues, reports) && order == [0, 1, 2]
    ensures var ready := Preprocessed(t, CELL.bw, ues, reports, order);
      && SmallBlock(t, ready[0], reports[0], 4)
      && Fires(ready[1], reports[1]) && ready[1].d.pre == 1 && ready[1].queues == [5]
  {
    var ready := Preprocessed(t, CELL.bw, ues, reports, order);
    ThreeReady(t, ues, reports, order);
    ReadyForTurn(t, CELL.bw, ues, reports, order, 0);
    IdleBecomesSmall(t, ues[0], ready[0], reports[0]);
    IdleFires(ues[1], ready[1], reports[1]);
  }

  lemma SecondDrops(t: TbsTable, target: Slot, first: Carry, ready: seq<Ue>, reports: seq<Report>)
    requires Within(CELL.bw, ready) && |ready| == |reports| == 3 && reports[1].csi.NoCsi?
    requires SmallBlock(t, ready[0], reports[0], 4) && FoundAt(t, 5, reports[0].csi.mcs, 3)
    requires Fires(ready[1], reports[1]) && ready[1].d.pre == 1 && ready[1].queues == [5] && GetTbsDl(t, 3, 1) == 5
    ensures var turn := TurnOf(t, CELL, target, RoundStart(CELL, 0), first, ready, reports, 1);
      turn.grant == NoGrant && turn.u.taTimer == TA_PERIOD
  {
    SchemeLeftBehind(t, target, first, ready, reports);
    FiringSendsIff(t, 3, ready[1], reports[1], 0);
    TurnOfIff(t, CELL, target, first, ready, reports, 1);
  }

  lemma ThreeUesDrop(t: TbsTable, cfg: CellConfig, target: Slot, carry: Carry, ues: seq<Ue>, reports: seq<Report>,
                     order: seq<nat>)
    requires ThreeUes(t, ues, reports) && order == [0, 1, 2] && ValidOrder(order, |ues|) && cfg == CELL
    ensures var ready := Preprocessed(t, cfg.bw, ues, reports, order);
      var s := RunSlot(t, cfg, target, carry, ues, reports, order);
      Fires(ready[1], reports[1]) && s.grants[1] == NoGrant && s.ues[1].taTimer == TA_PERIOD
  {
    ThreeForLoop(t, ues, reports, order);
    ReadyWithin(t, cfg.bw, ues, reports, order);
    SecondDrops(t, target, carry, Preprocessed(t, cfg.bw, ues, reports, order), reports);
    GrantOfTurn(t, cfg, target, carry, ues, reports, order, 1);
  }

  /** A UE without a report for the cell is sized with the scheme that the UE before it was left with: its five bytes
      meet a block of five, its command is dropped, and its timer restarted all the same. */
  lemma CommandDropped(t: TbsTable, target: Slot, carry: Carry, u0: Ue, r0: Report, u1: Ue, r1: Report, u2: Ue,
                       r2: Report)
    requires HasOneRbColumn(t) && GetTbsDl(t, 0, 4) == 11
    requires u0 == IdleUe(20, [4]) && r0 == Reported(6, 15, 1, false)
    requires u1 == IdleUe(0, [5]) && r1 == Reported(6, 15, 3, true).(csi := NoCsi)
    requires u2 == IdleUe(20, [10]) && r2 == Reported(6, 0, 1, false)
    ensures var ready := Preprocessed(t, CELL.bw, [u0, u1, u2], [r0, r1, r2], [0, 1, 2]);
      var s := RunSlot(t, CELL, target, carry, [u0, u1, u2], [r0, r1, r2], [0, 1, 2]);
      Fires(ready[1], r1) && s.grants[1] == NoGrant && s.ues[1].taTimer == TA_PERIOD
  {
    ThreeAre(t, u0, r0, u1, r1, u2, r2);
    ThreeUesDrop(t, CELL, target, carry, [u0, u1, u2], [r0, r1, r2], [0, 1, 2]);
  }

  lemma ThreeAre(t: TbsTable, u0: Ue, r0: Report, u1: Ue, r1: Report, u2: Ue, r2: Report)
    requires HasOneRbColumn(t) && GetTbsDl(t, 0, 4) == 11
    requires u0 == IdleUe(20, [4]) && r0 == Reported(6, 15, 1, false)
    requires u1 == IdleUe(0, [5]) && r1 == Reported(6, 15, 3, true).(csi := NoCsi)
    requires u2 == IdleUe(20, [10]) && r2 == Reported(6, 0, 1, false)
    ensures ThreeUes(t, [u0, u1, u2], [r0, r1, r2])
  {
    ThreeAsk(t, u0, r0, u1, r1, u2, r2);
    SearchOneRb(t, 5, r0.csi.mcs, 3);
  }

  // ---------- blocks that are not what they seem ----------

  /** A UE's turn at scheme 0 with ten bytes queued and a single resource block. */
  ghost predicate TenBytes(t: TbsTable, v: Ue, r: Report) {
    && HasSixRbRows(t) && StillIdle(v, v) && r.csi == Csi(0, 3) && OwnTa(v, r) == 0
    && v.d.pre == 1 && v.d.pre == Rbs(CELL.bw, v.d.mask) && v.queues == [10]
  }

  lemma TenBytesRequested()
    ensures ServeAll(2, 0, [10]) == Rlc(2, 2, 10, [10], [0])
  {
    assert ServeBelow(2, 0, [10], 0) == Rlc(0, 0, 0, [], []);
    assert ServeAll(2, 0, [10]) == Serve(2, 0, Rlc(0, 0, 0, [], []), 10);
  }

  lemma TenBytesSent(t: TbsTable, target: Slot, l: Ledger, c: Carry, v: Ue, r: Report)
    requires TenBytes(t, v, r) && l.symbols <= 3 && Reserve(CELL, l, 3).1
    ensures StartsTooHigh(t, CELL.bw, c, v, r)
    ensures var g := TakeTurn(t, CELL, target, l, c, v, r).grant;
      g.Grant? && g.dci.nbRb == 4 && g.dci.tbs == 11 && Rbs(CELL.bw, Cover(CELL.bw, v.d.mask, g.dci.nbRb)) == 1
  {
    TenBytesRequested();
    assert NewBlockNeed(t, c, v, r) == 11;
    assert FirstAsked(2, OwnTa(v, r), v.queues, 0);
    assert FitMcs(t, 4, 11, 0) == 0;
    NewBlockSent(t, CELL, target, l, c, v, r, 4, 0, 11);
    DciCoverage(CELL.bw, v.d.mask, 4);
  }

  lemma TwoUnequalUes(t: TbsTable, u0: Ue, r0: Report, u1: Ue, r1: Report)
    requires HasSixRbRows(t)
    requires u0 == IdleUe(20, [400]) && r0 == Reported(6, 15, 1, false)
    requires u1 == IdleUe(20, [10]) && r1 == Reported(6, 0, 3, false)
    ensures var ready := Preprocessed(t, CELL.bw, [u0, u1], [r0, r1], [0, 1]); TenBytes(t, ready[1], r1)
  {
    FiveOfSix(t, u0, r0);
    FourOfSix(t, u1, r1);
    TwoUesReady(t, u0, u1, r0, r1);
    ReadyForTurn(t, CELL.bw, [u0, u1], [r0, r1], [0, 1], 1);
  }

  lemma FiveOfSix(t: TbsTable, u: Ue, r: Report)
    requires HasSixRbRows(t) && u == IdleUe(20, [400]) && r == Reported(6, 15, 1, false)
    ensures Asked(t, 6, u, r) == 5
  {
    assert Sum(u.queues) == 400 && r.csi == Csi(28, 0);
    assert RbSearch(t, 28, 1, 6, 400, 3) == RbSearch(t, 28, 1, 6, 400, 4) == 5;
    assert RbSearch(t, 28, 1, 6, 400, 1) == RbSearch(t, 28, 1, 6, 400, 2) == 5;
  }

  lemma FourOfSix(t: TbsTable, u: Ue, r: Report)
    requires HasSixRbRows(t) && u == IdleUe(20, [10]) && r == Reported(6, 0, 3, false)
    ensures Asked(t, 6, u, r) == 4 && r.csi == Csi(0, 3)
  {
    assert Sum(u.queues) == 10;
  }

  /** Beside a UE of high priority that is given five of six resource blocks, a UE with the worst channel quality is
      sent a DCI that announces 11 bytes in four resource blocks and allocates one. */
  lemma AnnouncesMoreThanItAllocates(t: TbsTable, target: Slot, carry: Carry, u0: Ue, r0: Report, u1: Ue, r1: Report)
    requires HasSixRbRows(t)
    requires u0 == IdleUe(20, [400]) && r0 == Reported(6, 15, 1, false)
    requires u1 == IdleUe(20, [10]) && r1 == Reported(6, 0, 3, false)
    ensures var g := RunSlot(t, CELL, target, carry, [u0, u1], [r0, r1], [0, 1]).grants[1];
      var mask := Preprocessed(t, CELL.bw, [u0, u1], [r0, r1], [0, 1])[1].d.mask;
      g.Grant? && g.dci.nbRb == 4 && g.dci.tbs == 11 && Rbs(CELL.bw, Cover(CELL.bw, mask, g.dci.nbRb)) == 1
  {
    var ues, reports, order := [u0, u1], [r0, r1], [0, 1];
    var ready := Preprocessed(t, CELL.bw, ues, reports, order);
    TwoUnequalUes(t, u0, r0, u1, r1);
    ReadyWithin(t, CELL.bw, ues, reports, order);
    GrantOfTurn(t, CELL, target, carry, ues, reports, order, 1);
    AlwaysFeasible(t, CELL, target, carry, ready, reports, 1, 3);
    var (l, c) := BeforeTurn(t, CELL, target, RoundStart(CELL, 0), carry, ready, reports, 1);
    TenBytesSent(t, target, l, c, ready[1], r1);
  }

  /** A UE's turn at scheme 28 with 600 bytes in each of two channels and the whole carrier. */
  ghost predicate TwoBusy(t: TbsTable, v: Ue, r: Report) {
    && HasSixRbRows(t) && StillIdle(v, v) && r.csi == Csi(28, 0) && OwnTa(v, r) == 0
    && v.d.pre == 6 && v.d.pre == Rbs(CELL.bw, v.d.mask) && v.queues == [600, 600]
  }

  lemma TwoBusyPdu()
    ensures PduBytes([546, 600], 3, 0) == 1150
  {
    assert SumBelow([546, 600], 1) == 546 && SubheadersBelow([546, 600], 1) == 3;
  }

  lemma NoneOfSixFits(t: TbsTable, need: nat)
    requires HasSixRbRows(t) && need > 549
    ensures RbSearch(t, 28, 1, 6, need, 1) == 6
  {
    assert RbSearch(t, 28, 1, 6, need, 5) == RbSearch(t, 28, 1, 6, need, 6) == 6;
    assert RbSearch(t, 28, 1, 6, need, 3) == RbSearch(t, 28, 1, 6, need, 4) == 6;
    assert RbSearch(t, 28, 1, 6, need, 2) == 6;
  }

  lemma TwoBusySent(t: TbsTable, target: Slot, l: Ledger, c: Carry, v: Ue, r: Report)
    requires TwoBusy(t, v, r) && l.symbols <= 3 && Reserve(CELL, l, 0).1
    ensures var g := TakeTurn(t, CELL, target, l, c, v, r).grant;
      g.Grant? && g.requests == [546, 600] && g.dci.tbs == 549
  {
    OverrunExample();
    NoneOfSixFits(t, 1150);
    assert NewBlockNeed(t, c, v, r) == 1150;
    assert FirstAsked(549, OwnTa(v, r), v.queues, 0);
    assert FitMcs(t, 6, 1150, 28) == 28;
    NewBlockSent(t, CELL, target, l, c, v, r, 6, 28, 549);
  }

  /** A lone UE with 600 bytes in each of two channels is sent a DCI for 549 bytes that requests 1146. */
  lemma BlockTooSmall(t: TbsTable, target: Slot, carry: Carry, u: Ue, r: Report)
    requires HasSixRbRows(t) && u == IdleUe(20, [600, 600]) && r == Reported(6, 15, 1, false)
    ensures var g := RunSlot(t, CELL, target, carry, [u], [r], [0]).grants[0];
      g.Grant? && g.requests == [546, 600] && g.dci.tbs == 549 && PduBytes(g.requests, 3, 0) == 1150
  {
    var ready := Preprocessed(t, CELL.bw, [u], [r], [0]);
    assert SumBelow(u.queues, 1) == 600 && Sum(u.queues) == 1200 && r.csi == Csi(28, 0);
    NoneOfSixFits(t, 1200);
    assert Asked(t, 6, u, r) == 6;
    OneUeReady(t, u, r);
    ReadyForTurn(t, CELL.bw, [u], [r], [0], 0);
    ReadyWithin(t, CELL.bw, [u], [r], [0]);
    GrantOfTurn(t, CELL, target, carry, [u], [r], [0], 0);
    AlwaysFeasible(t, CELL, target, carry, ready, [r], 0, 0);
    var (l, c) := BeforeTurn(t, CELL, target, RoundStart(CELL, 0), carry, ready, [r], 0);
    TwoBusySent(t, target, l, c, ready[0], r);
    TwoBusyPdu();
  }

  // ---------- other carriers ----------

  /** A lone UE with the worst channel quality and ten bytes asks for four resource blocks of a 50 RB carrier and is
      given five. */
  lemma OneTooMany(t: TbsTable, u: Ue, r: Report)
    requires GetTbsDl(t, 0, 4) == 11 && u == IdleUe(20, [10]) && r == Reported(50, 0, 1, false)
    ensures var v := Preprocessed(t, 50, [u], [r], [0])[0]; v.d.required == 4 && v.d.pre == 5
  {
    assert Sum(u.queues) == 10 && r.csi == Csi(0, 3);
    assert Asked(t, 50, u, r) == 4;
    var d, total := OneUePrepared(t, 50, u, r);
    FourBecomesFive(d, total);
    ReadyForTurn(t, 50, [u], [r], [0], 0);
  }

  lemma FreeGroupCounts(vrb: Groups, g: nat)
    requires g < NbRbg(100) && !vrb[g]
    ensures Rbs(100, Free(vrb)) >= 4
  {
    RbsBelowSet(100, Free(vrb)[g := false], g, NbRbg(100));
    assert Free(vrb)[g := false][g := true] == Free(vrb);
  }

  /** A lone UE that asks for all of a 100 RB carrier is given all of it. */
  lemma WholeCarrier(d: Demand, total: nat)
    requires Fresh(d) && d.required == 100 && total > 0
    ensures Preprocess(100, NoGroups(), [d], total, [0]).ues[0].pre == 100
  {
    var r := Preprocess(100, NoGroups(), [d], total, [0]);
    LoneShare(d, total);
    if g :| 0 <= g < NbRbg(100) && !r.vrb[g] {
      WorkConserving(100, NoGroups(), [d], total, [0], g, 0);
      FreeGroupCounts(r.vrb, g);
      assert false;
    } else {
      RbsBelowNone(100, Free(r.vrb), NbRbg(100));
    }
  }

  lemma LoneShare(d: Demand, total: nat)
    requires Fresh(d)
    ensures var r := Preprocess(100, NoGroups(), [d], total, [0]);
      r.ues[0].required == d.required && r.ues[0].pre + Rbs(100, Free(r.vrb)) == 100
  {
    PreprocessSafe(100, NoGroups(), [d], total, [0]);
    TotalOfOne(Preprocess(100, NoGroups(), [d], total, [0]).ues);
    RbsBelowNone(100, NoGroups(), NbRbg(100));
  }

  lemma {:induction false} NoneOfHundredFits(t: TbsTable, need: nat, nb: nat)
    requires HasWideEnds(t) && need > 349 && 1 <= nb <= 100
    ensures RbSearch(t, 0, 4, 100, need, nb) == 100
    decreases 100 - nb
  {
    if nb + 4 <= 100 {
      NoneOfHundredFits(t, need, nb + 4);
    }
  }

  lemma HighEnough(t: TbsTable, need: nat, mcs: nat)
    requires HasWideEnds(t) && need <= 9422 && mcs == 0
    ensures GetTbsDl(t, FitMcs(t, 100, need, mcs), 100) >= need
  {
    RaiseMcsStops(t, 100, need, LowerMcs(t, 100, need, mcs));
  }

  ghost predicate Backlogged(t: TbsTable, v: Ue, r: Report) {
    && HasWideEnds(t) && StillIdle(v, v) && r.csi == Csi(0, 3) && OwnTa(v, r) == 0
    && v.d.pre == 100 && v.d.pre == Rbs(WIDE.bw, v.d.mask) && v.queues == [400, 70000]
  }

  lemma BackloggedSent(t: TbsTable, target: Slot, l: Ledger, c: Carry, v: Ue, r: Report)
    requires Backlogged(t, v, r) && l.symbols <= 3 && Reserve(WIDE, l, 3).1
    ensures var g := TakeTurn(t, WIDE, target, l, c, v, r).grant;
      && g.Grant? && g.requests == [346, 70000]
      && NewBlockNeed(t, c, v, r) == 4814 <= g.dci.tbs && g.dci.tbs < 0x1_0000
  {
    NeedWrapsExample();
    assert NewBlockNeed(t, c, v, r) == 4814;
    NoneOfHundredFits(t, 4814, 4);
    assert FirstAsked(349, OwnTa(v, r), v.queues, 0);
    HighEnough(t, 4814, SizingMcs(c, r));
    var mcs := FitMcs(t, 100, 4814, SizingMcs(c, r));
    NewBlockSent(t, WIDE, target, l, c, v, r, 100, mcs, GetTbsDl(t, mcs, 100));
  }

  /** On a 100 RB carrier a lone UE with the worst channel quality and 400 and 70000 bytes queued is sent a DCI whose
      requests wrap the 16-bit total: the block is as large as the 4814 bytes counted, and the PDU has 70350. */
  lemma NeedWraps(t: TbsTable, target: Slot, carry: Carry, u: Ue, r: Report)
    requires HasWideEnds(t) && u == IdleUe(20, [400, 70000]) && r == Reported(100, 0, 1, false)
    ensures var g := RunSlot(t, WIDE, target, carry, [u], [r], [0]).grants[0];
      && g.Grant? && g.requests == [346, 70000] && 4814 <= g.dci.tbs < 0x1_0000
      && PduBytes(g.requests, 3, 0) == 70350
  {
    var ready := Preprocessed(t, WIDE.bw, [u], [r], [0]);
    assert SumBelow(u.queues, 1) == 400 && Sum(u.queues) == 70400 && r.csi == Csi(0, 3);
    NoneOfHundredFits(t, 70400, 4);
    assert Asked(t, 100, u, r) == 100;
    var d, total := OneUePrepared(t, 100, u, r);
    WholeCarrier(d, total);
    ReadyForTurn(t, WIDE.bw, [u], [r], [0], 0);
    ReadyWithin(t, WIDE.bw, [u], [r], [0]);
    GrantOfTurn(t, WIDE, target, carry, [u], [r], [0], 0);
    AlwaysFeasible(t, WIDE, target, carry, ready, [r], 0, 3);
    var (l, c) := BeforeTurn(t, WIDE, target, RoundStart(WIDE, 0), carry, ready, [r], 0);
    BackloggedSent(t, target, l, c, ready[0], r);
    NeedWrapsExample();
  }
}
