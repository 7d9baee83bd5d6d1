/** What a slot asks for, hands out and leaves behind for each UE, stated on the UEs before and after it. */
module SlotEffects {
  import opened ResourceGrid
  import opened Preprocessor
  import opened FairShare
  import opened TransportBlock
  import opened RlcRequests
  import opened Pdcch
  import opened SlotTime
  import opened Downlink
  import opened SlotSafety
  import opened SlotControl

  /** A cell, its UEs and their reports, and an order of visits. */
  ghost predicate AnySlot(bw: nat, ues: seq<Ue>, reports: seq<Report>, order: seq<nat>, k: nat) {
    Supported(bw) && |reports| == |ues| && ValidOrder(order, |ues|) && k < |ues|
  }

  predicate IsNewBlock(g: Grant) {
    g.Grant? && g.dci.round == 0
  }

  // ---------- queues ----------

  ghost predicate Split(requests: seq<nat>, left: seq<nat>, queues: seq<nat>) {
    |requests| == |left| == |queues| && forall j :: 0 <= j < |queues| ==> requests[j] + left[j] == queues[j]
  }

  lemma RequestsLeave(tbs: nat, ta: nat, qs: seq<nat>)
    ensures var r := ServeAll(tbs, ta, qs);
      && Split(r.requests, r.queues, qs)
      && ((forall j :: 0 <= j < |r.requests| ==> r.requests[j] == 0) ==> r.queues == qs)
  {
    RequestsSplit(tbs, ta, qs, |qs|);
  }

  lemma TurnQueues(t: TbsTable, cfg: CellConfig, target: Slot, ledger: Ledger, carry: Carry, u: Ue, r: Report)
    requires ledger.symbols <= 3
    ensures var turn := TakeTurn(t, cfg, target, ledger, carry, u, r);
      if IsNewBlock(turn.grant) then Split(turn.grant.requests, turn.u.queues, u.queues)
      else turn.u.queues == u.queues && (turn.grant.Grant? ==> turn.grant.requests == [])
  {
    RequestsLeave(GetTbsDl(t, SizingMcs(carry, r), u.d.pre), OwnTa(u, r), u.queues);
  }

  /** A new block takes from each queue exactly what it requests from the channel; any other turn requests and
      takes nothing. */
  lemma SlotQueues(t: TbsTable, cfg: CellConfig, target: Slot, carry: Carry, ues: seq<Ue>, reports: seq<Report>,
                   order: seq<nat>, k: nat)
    requires AnySlot(cfg.bw, ues, reports, order, k)
    ensures var s := RunSlot(t, cfg, target, carry, ues, reports, order);
      if IsNewBlock(s.grants[k]) then Split(s.grants[k].requests, s.ues[k].queues, ues[k].queues)
      else s.ues[k].queues == ues[k].queues && (s.grants[k].Grant? ==> s.grants[k].requests == [])
  {
    var ready := Preprocessed(t, cfg.bw, ues, reports, order);
    var (l, c) := BeforeTurn(t, cfg, target, RoundStart(cfg, 0), carry, ready, reports, k);
    ReadyForTurn(t, cfg.bw, ues, reports, order, k);
    GrantOfTurn(t, cfg, target, carry, ues, reports, order, k);
    TurnQueues(t, cfg, target, l, c, ready[k], reports[k]);
  }

  // ---------- power ----------

  /** The law that a command obeys and where it leaves the slot of the last update (see SlotTime.CommandControls). */
  ghost predicate Controls(last: Slot, target: Slot, p: PowerReport, tpc: nat, at: Slot) {
    var acts := TpcDue(Number(last), Number(target)) && p.updated;
    && at == (if acts then target else last)
    && (if acts && Distance(p.received, p.wanted) >= 2
        then Distance(p.received + (tpc - 1), p.wanted) < Distance(p.received, p.wanted)
        else tpc == 1)
  }

  lemma TurnPower(t: TbsTable, cfg: CellConfig, target: Slot, ledger: Ledger, carry: Carry, u: Ue, r: Report)
    requires ledger.symbols <= 3
    ensures var turn := TakeTurn(t, cfg, target, ledger, carry, u, r);
      if IsNewBlock(turn.grant) then Controls(u.tpcAt, target, r.power, turn.grant.dci.tpc, turn.u.tpcAt)
      else turn.u.tpcAt == u.tpcAt
  {
    CommandControls(u.tpcAt, target, r.power);
  }

  /** Every new block of a slot carries the command that the control law asks for, and nothing else moves the slot of
      the last update. */
  lemma SlotPower(t: TbsTable, cfg: CellConfig, target: Slot, carry: Carry, ues: seq<Ue>, reports: seq<Report>,
                  order: seq<nat>, k: nat)
    requires AnySlot(cfg.bw, ues, reports, order, k)
    ensures var s := RunSlot(t, cfg, target, carry, ues, reports, order);
      if IsNewBlock(s.grants[k])
      then Controls(ues[k].tpcAt, target, reports[k].power, s.grants[k].dci.tpc, s.ues[k].tpcAt)
      else s.ues[k].tpcAt == ues[k].tpcAt
  {
    var ready := Preprocessed(t, cfg.bw, ues, reports, order);
    var (l, c) := BeforeTurn(t, cfg, target, RoundStart(cfg, 0), carry, ready, reports, k);
    ReadyForTurn(t, cfg.bw, ues, reports, order, k);
    GrantOfTurn(t, cfg, target, carry, ues, reports, order, k);
    TurnPower(t, cfg, target, l, c, ready[k], reports[k]);
  }

  // ---------- HARQ processes ----------

  /** The free process with the lowest number. */
  ghost predicate FirstFree(fb: Feedback, p: nat) {
    p < MAX_NUM_HARQ && fb[p].active && forall i :: 0 <= i < p ==> !fb[i].active
  }

  lemma TurnProcess(t: TbsTable, cfg: CellConfig, target: Slot, ledger: Ledger, carry: Carry, u: Ue, r: Report)
    requires ledger.symbols <= 3
    ensures var turn := TakeTurn(t, cfg, target, ledger, carry, u, r);
      if turn.grant.Grant? then
        var p := turn.grant.dci.harq;
        && FirstFree(u.fb, p) && turn.grant.dci.round == u.fb[p].status
        && turn.u.fb == u.fb[p := u.fb[p].(active := false)]
        && forall q :: 0 <= q < MAX_NUM_HARQ && q != p ==> turn.u.tx[q] == u.tx[q]
      else turn.u.fb == u.fb && turn.u.tx == u.tx
  {
  }

  /** A DCI is for the free process with the lowest number, says whether that is a retransmission, and makes it wait;
      no other process changes. */
  lemma SlotProcess(t: TbsTable, cfg: CellConfig, target: Slot, carry: Carry, ues: seq<Ue>, reports: seq<Report>,
                    order: seq<nat>, k: nat)
    requires AnySlot(cfg.bw, ues, reports, order, k)
    ensures var s := RunSlot(t, cfg, target, carry, ues, reports, order);
      if s.grants[k].Grant? then
        var p := s.grants[k].dci.harq;
        && FirstFree(ues[k].fb, p) && s.grants[k].dci.round == ues[k].fb[p].status
        && s.ues[k].fb == ues[k].fb[p := ues[k].fb[p].(active := false)]
      else s.ues[k].fb == ues[k].fb
  {
    var ready := Preprocessed(t, cfg.bw, ues, reports, order);
    var (l, c) := BeforeTurn(t, cfg, target, RoundStart(cfg, 0), carry, ready, reports, k);
    ReadyForTurn(t, cfg.bw, ues, reports, order, k);
    GrantOfTurn(t, cfg, target, carry, ues, reports, order, k);
    TurnProcess(t, cfg, target, l, c, ready[k], reports[k]);
  }

  lemma FirstFreeIsPid(fb: Feedback, p: nat)
    requires FirstFree(fb, p)
    ensures HasHarq(fb) && Pid(fb) == p
  {
  }

  lemma PreparedProcess(t: TbsTable, bw: nat, u: Ue, r: Report, p: nat)
    requires bw < 0x1_0000 && FirstFree(u.fb, p)
    ensures var v := WithHarq(Sized(t, bw, u, r));
      && v.fb == u.fb
      && (u.fb[p].status == 0 ==> v.tx[p].nbRb == 0)
      && (u.fb[p].status > 0 ==> v.d.required == u.tx[p].nbRb)
  {
    FirstFreeIsPid(u.fb, p);
  }

  /** A process offered new data in a slot either carries a new block afterwards or has forgotten its old one ... */
  lemma OfferedOrForgotten(t: TbsTable, cfg: CellConfig, target: Slot, carry: Carry, ues: seq<Ue>, reports: seq<Report>,
                           order: seq<nat>, k: nat, p: nat)
    requires AnySlot(cfg.bw, ues, reports, order, k)
    requires FirstFree(ues[k].fb, p) && ues[k].fb[p].status == 0
    ensures var s := RunSlot(t, cfg, target, carry, ues, reports, order);
      IsNewBlock(s.grants[k]) || s.ues[k].tx[p].nbRb == 0
  {
    var ready := Preprocessed(t, cfg.bw, ues, reports, order);
    ReadyForTurn(t, cfg.bw, ues, reports, order, k);
    PreparedProcess(t, cfg.bw, ues[k], reports[k], p);
    GrantOfTurn(t, cfg, target, carry, ues, reports, order, k);
    OfferedInTurn(t, cfg, target, carry, ready, reports, k, p);
  }

  lemma OfferedInTurn(t: TbsTable, cfg: CellConfig, target: Slot, first: Carry, ready: seq<Ue>, reports: seq<Report>,
                      k: nat, p: nat)
    requires k < |ready| == |reports| && FirstFree(ready[k].fb, p) && ready[k].fb[p].status == 0
    requires ready[k].tx[p].nbRb == 0
    ensures var turn := TurnOf(t, cfg, target, RoundStart(cfg, 0), first, ready, reports, k);
      IsNewBlock(turn.grant) || turn.u.tx[p].nbRb == 0
  {
    var (l, c) := BeforeTurn(t, cfg, target, RoundStart(cfg, 0), first, ready, reports, k);
    TurnProcess(t, cfg, target, l, c, ready[k], reports[k]);
  }

  /** ... and then a late negative acknowledgement brings no retransmission. */
  lemma ForgottenIsNotRepeated(t: TbsTable, cfg: CellConfig, target: Slot, carry: Carry, ues: seq<Ue>,
                               reports: seq<Report>, order: seq<nat>, k: nat, p: nat)
    requires AnySlot(cfg.bw, ues, reports, order, k)
    requires FirstFree(ues[k].fb, p) && ues[k].fb[p].status > 0 && ues[k].tx[p].nbRb == 0
    ensures RunSlot(t, cfg, target, carry, ues, reports, order).grants[k] == NoGrant
  {
    NothingAskedNothingGiven(t, cfg.bw, ues, reports, order, k, p);
    SlotGrantIff(t, cfg, target, carry, ues, reports, order, k);
  }

  lemma NothingAskedNothingGiven(t: TbsTable, bw: nat, ues: seq<Ue>, reports: seq<Report>, order: seq<nat>, k: nat,
                                 p: nat)
    requires AnySlot(bw, ues, reports, order, k)
    requires FirstFree(ues[k].fb, p) && ues[k].fb[p].status > 0 && ues[k].tx[p].nbRb == 0
    ensures Preprocessed(t, bw, ues, reports, order)[k].d.pre == 0
  {
    ReadyForTurn(t, bw, ues, reports, order, k);
    PreparedProcess(t, bw, ues[k], reports[k], p);
  }

  // ---------- demands ----------

  /** The scheme a demand is sized with. */
  function DemandMcs(r: Report): nat {
    if r.csi.Csi? then r.csi.mcs else 0
  }

  /** What the UE would send next is new data, or nothing. */
  predicate WantsNew(u: Ue) {
    HasHarq(u.fb) ==> u.fb[Pid(u.fb)].status == 0
  }

  /** No smaller number that the search passes holds the bytes. */
  ghost predicate FirstFit(t: TbsTable, bw: nat, mcs: nat, bytes: nat, nb: nat) {
    forall m :: FirstNbRb(bw, mcs) <= m < nb && OnGrid(FirstNbRb(bw, mcs), MinRbUnit(bw), m) ==>
      GetTbsDl(t, mcs, m) < bytes
  }

  lemma SizedEnough(t: TbsTable, bw: nat, mcs: nat, bytes: nat)
    requires Supported(bw) && bytes > 0
    ensures var nb := SizedRbs(t, bw, mcs, bytes);
      && nb > 0 && (GetTbsDl(t, mcs, nb) >= bytes || nb == bw)
      && (nb == bw || nb % MinRbUnit(bw) == if mcs > 0 then 0 else 4 % MinRbUnit(bw))
      && FirstFit(t, bw, mcs, bytes, nb)
  {
    var unit, start := MinRbUnit(bw), FirstNbRb(bw, mcs);
    RbSearchStopsAtFirstFit(t, mcs, unit, bw, bytes, start);
    RbSearchPositive(t, mcs, unit, bw, bytes, start);
    SearchInWholeGroups(t, bw, mcs, bw, bytes);
  }

  /** A UE with new data asks for nothing without data or an LC entry, and otherwise for the first number of whole
      groups that hold everything it has queued at the scheme it reported, or for the whole carrier; a pending
      retransmission asks for what its block had. Priority is high with at most two channels configured, and stays what
      it was if there are no queues to look at. */
  lemma SlotDemand(t: TbsTable, bw: nat, ues: seq<Ue>, reports: seq<Report>, order: seq<nat>, k: nat)
    requires AnySlot(bw, ues, reports, order, k)
    ensures var d := Preprocessed(t, bw, ues, reports, order)[k].d;
      var bytes, mcs := Sum(ues[k].queues), DemandMcs(reports[k]);
      && (WantsNew(ues[k]) ==>
            && (d.required == 0 <==> reports[k].lcs.NoLcEntry? || bytes == 0)
            && (d.required > 0 ==>
                  && (GetTbsDl(t, mcs, d.required) >= bytes || d.required == bw)
                  && (d.required == bw || d.required % MinRbUnit(bw) == if mcs > 0 then 0 else 4 % MinRbUnit(bw))
                  && FirstFit(t, bw, mcs, bytes, d.required)))
      && (!WantsNew(ues[k]) ==> d.required == ues[k].tx[Pid(ues[k].fb)].nbRb)
      && d.high == (if reports[k].lcs.LcEntry? && |ues[k].queues| > 0 then reports[k].lcs.count <= 2 else ues[k].d.high)
  {
    DemandsKept(t, bw, ues, reports, order, k);
    if Sum(ues[k].queues) > 0 {
      SizedEnough(t, bw, DemandMcs(reports[k]), Sum(ues[k].queues));
    }
  }

  /** The rounds change neither demands nor priorities. */
  lemma DemandsKept(t: TbsTable, bw: nat, ues: seq<Ue>, reports: seq<Report>, order: seq<nat>, k: nat)
    requires AnySlot(bw, ues, reports, order, k)
    ensures var before, after := Prepared(t, bw, ues, reports)[k].d, Preprocessed(t, bw, ues, reports, order)[k].d;
      after.required == before.required && after.high == before.high
  {
    var prepared := Prepared(t, bw, ues, reports);
    PreparedDemandsFresh(t, bw, ues, reports);
    PreprocessSafe(bw, NoGroups(), Demands(prepared), ActiveCount(prepared), order);
  }

  /** A new block at a scheme above 0 is for whole groups, or for everything the UE was given. */
  lemma SlotBlocksInWholeGroups(t: TbsTable, cfg: CellConfig, target: Slot, carry: Carry, ues: seq<Ue>,
                                reports: seq<Report>, order: seq<nat>, k: nat)
    requires SlotInput(cfg, carry, ues, reports, order) && k < |ues|
    requires McsOf(t, cfg, target, carry, Preprocessed(t, cfg.bw, ues, reports, order), reports, k) > 0
    ensures var g := RunSlot(t, cfg, target, carry, ues, reports, order).grants[k];
      IsNewBlock(g) ==>
        g.dci.nbRb % MinRbUnit(cfg.bw) == 0 || g.dci.nbRb == Preprocessed(t, cfg.bw, ues, reports, order)[k].d.pre
  {
    var l, c, u := TurnInSlot(t, cfg, target, carry, ues, reports, order, k);
    NewBlockParts(t, cfg, target, l, c, u, reports[k]);
    SearchInWholeGroups(t, cfg.bw, SizingMcs(c, reports[k]), u.d.pre, NewBlockNeed(t, c, u, reports[k]));
  }

  // ---------- sharing ----------

  /** A UE with at most two channels comes before one with more: if the latter is given anything at all, the former does
      not lack a whole group. */
  lemma SlotPriority(t: TbsTable, bw: nat, ues: seq<Ue>, reports: seq<Report>, order: seq<nat>, h: nat, n: nat)
    requires AnySlot(bw, ues, reports, order, h) && n < |ues| && h in order
    requires ActiveCount(Prepared(t, bw, ues, reports)) > 0
    requires reports[h].lcs.LcEntry? && reports[h].lcs.count <= 2 && |ues[h].queues| > 0
    requires reports[n].lcs.LcEntry? && reports[n].lcs.count > 2 && |ues[n].queues| > 0
    ensures var ready := Preprocessed(t, bw, ues, reports, order);
      ready[n].d.pre > 0 ==> ready[h].d.required - ready[h].d.pre < MinRbUnit(bw)
  {
    var prepared := Prepared(t, bw, ues, reports);
    PreparedDemandsFresh(t, bw, ues, reports);
    DemandsKept(t, bw, ues, reports, order, h);
    if Preprocessed(t, bw, ues, reports, order)[n].d.pre > 0 {
      HighPriorityFirst(bw, NoGroups(), Demands(prepared), ActiveCount(prepared), order, h, n);
    }
  }

  function ActiveBelow(ues: seq<Ue>, n: nat): set<nat>
    requires n <= |ues|
  {
    set i: nat | i < n && Active(ues[i])
  }

  lemma ActiveBelowStep(ues: seq<Ue>, n: nat)
    requires n < |ues|
    ensures |ActiveBelow(ues, n + 1)| == |ActiveBelow(ues, n)| + if Active(ues[n]) then 1 else 0
  {
    if Active(ues[n]) {
      assert ActiveBelow(ues, n + 1) == ActiveBelow(ues, n) + {n};
    } else {
      assert ActiveBelow(ues, n + 1) == ActiveBelow(ues, n);
    }
  }

  lemma {:induction false} DemandingIsCount(ues: seq<Ue>, ds: seq<Demand>, n: nat)
    requires n <= |ues| == |ds| && forall i :: 0 <= i < |ues| ==> ues[i].d == ds[i]
    requires forall i :: 0 <= i < |ues| && ues[i].d.required > 0 ==> HasHarq(ues[i].fb)
    ensures Demanding(ds, n) == |ActiveBelow(ues, n)|
  {
    if n > 0 {
      DemandingIsCount(ues, ds, n - 1);
      ActiveBelowStep(ues, n - 1);
    }
  }

  /** Fair division in a slot: when every UE that asks is of normal priority and has a free process, and the carrier
      has a group for each, every UE ends less than one group short of what it asks for or of its equal part. */
  lemma SlotShares(t: TbsTable, bw: nat, ues: seq<Ue>, reports: seq<Report>, order: seq<nat>, k: nat)
    requires AnySlot(bw, ues, reports, order, k) && k in order
    requires forall i :: 0 <= i < |ues| ==>
               var u := Prepared(t, bw, ues, reports)[i]; u.d.required > 0 ==> !u.d.high && HasHarq(u.fb)
    requires 0 < MinRbUnit(bw) * ActiveCount(Prepared(t, bw, ues, reports)) <= bw
    ensures var prepared, ready := Prepared(t, bw, ues, reports), Preprocessed(t, bw, ues, reports, order);
      var part, asked := bw / ActiveCount(prepared), prepared[k].d.required;
      (if asked < part then asked else part) - ready[k].d.pre < MinRbUnit(bw)
  {
    var prepared := Prepared(t, bw, ues, reports);
    var ds, total := Demands(prepared), ActiveCount(prepared);
    PreparedDemandsFresh(t, bw, ues, reports);
    DemandingIsActive(prepared);
    assert OnlyNormal(ds, total);
    EveryoneGetsItsShare(bw, ds, total, order, k);
  }

  lemma DemandingIsActive(ues: seq<Ue>)
    requires forall i :: 0 <= i < |ues| && ues[i].d.required > 0 ==> HasHarq(ues[i].fb)
    ensures Demanding(Demands(ues), |ues|) == ActiveCount(ues)
  {
    DemandingIsCount(ues, Demands(ues), |ues|);
    ActiveBelowAll(ues);
  }

  lemma ActiveBelowAll(ues: seq<Ue>)
    ensures |ActiveBelow(ues, |ues|)| == ActiveCount(ues)
  {
    assert ActiveBelow(ues, |ues|) == set i | 0 <= i < |ues| && Active(ues[i]);
  }

  /** In a slot, among UEs of one priority, the order decides: if the UE visited j-th is given anything at all, the one
      visited i-th, before it, is less than one group short of what the first round may give it. */
  lemma SlotInOrder(t: TbsTable, bw: nat, ues: seq<Ue>, reports: seq<Report>, order: seq<nat>, i: nat, j: nat)
    requires Supported(bw) && |reports| == |ues| && ValidOrder(order, |ues|) && Distinct(order) && i < j < |order|
    requires ActiveCount(Prepared(t, bw, ues, reports)) > 0
    requires var prepared := Prepared(t, bw, ues, reports); prepared[order[i]].d.high == prepared[order[j]].d.high
    ensures var prepared, ready := Prepared(t, bw, ues, reports), Preprocessed(t, bw, ues, reports, order);
      ready[order[j]].d.pre > 0 ==>
        FirstTarget(bw, ActiveCount(prepared), prepared[order[i]].d) - ready[order[i]].d.pre < MinRbUnit(bw)
  {
    var prepared := Prepared(t, bw, ues, reports);
    PreparedDemandsFresh(t, bw, ues, reports);
    if Preprocessed(t, bw, ues, reports, order)[order[j]].d.pre > 0 {
      EarlierServedFirst(bw, NoGroups(), Demands(prepared), ActiveCount(prepared), order, i, j);
    }
  }

  /** The UE has a demand and a free process. */
  predicate AsksAndCan(u: Ue) {
    u.d.required > 0 && exists p :: 0 <= p < MAX_NUM_HARQ && u.fb[p].active
  }

  function WithDemandAndProcess(ues: seq<Ue>): nat {
    |set i | 0 <= i < |ues| && AsksAndCan(ues[i])|
  }

  lemma ActiveIff(u: Ue)
    ensures Active(u) <==> AsksAndCan(u)
  {
  }

  lemma ActiveCountIs(ues: seq<Ue>)
    ensures ActiveCount(ues) == WithDemandAndProcess(ues)
  {
    forall i | 0 <= i < |ues|
      ensures Active(ues[i]) <==> AsksAndCan(ues[i])
    {
      ActiveIff(ues[i]);
    }
    assert (set i | 0 <= i < |ues| && Active(ues[i])) == set i | 0 <= i < |ues| && AsksAndCan(ues[i]);
  }

  /** In a slot whose UEs are all of normal priority, the one that asks first is given its share, to less than one
      group: what it asks for, or the carrier divided by the number of UEs that ask and have a free process, but no less
      than one group. */
  lemma SlotFirstShare(t: TbsTable, bw: nat, ues: seq<Ue>, reports: seq<Report>, order: seq<nat>, k: nat)
    requires Supported(bw) && |reports| == |ues| && ValidOrder(order, |ues|) && Distinct(order)
    requires AsksFirst(Demands(Prepared(t, bw, ues, reports)), order, k)
    requires WithDemandAndProcess(Prepared(t, bw, ues, reports)) > 0
    ensures var prepared, ready := Prepared(t, bw, ues, reports), Preprocessed(t, bw, ues, reports, order);
      FirstTarget(bw, WithDemandAndProcess(prepared), prepared[order[k]].d) - ready[order[k]].d.pre < MinRbUnit(bw)
  {
    var prepared := Prepared(t, bw, ues, reports);
    ActiveCountIs(prepared);
    FirstIsGivenItsShare(bw, Demands(prepared), ActiveCount(prepared), order, k);
  }

  // ---------- the scheme left in the local ----------

  /** What a turn leaves for a UE without a report: the scheme of its DCI; without one, that of the block it could not
      repeat; without that, its own, or, if it never got that far, what it found. */
  lemma TurnLeavesMcs(t: TbsTable, cfg: CellConfig, target: Slot, ledger: Ledger, carry: Carry, u: Ue, r: Report)
    requires ledger.symbols <= 3 && Reserve(cfg, ledger, WithCsi(carry, r.csi).aggregation).1
    ensures var turn := TakeTurn(t, cfg, target, ledger, carry, u, r);
      turn.carry.mcs
        == if turn.grant.Grant? then turn.grant.dci.mcs
           else if !HasHarq(u.fb) || u.d.pre == 0 then carry.mcs
           else if u.fb[Pid(u.fb)].status > 0 then u.tx[Pid(u.fb)].mcs
           else if r.csi.Csi? then r.csi.mcs else carry.mcs
  {
  }
}
