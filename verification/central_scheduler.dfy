/** run_central_scheduler on the mutable scheduling state, for one cell: proved equal to TakeTurn and RunSlot of
    module Downlink, whose properties are the subject of modules SlotSafety and HarqRuns. */
module CentralScheduler {
  import opened Words
  import opened ResourceGrid
  import opened Preprocessor
  import opened TransportBlock
  import opened DciBitmap
  import opened RlcRequests
  import opened Pdcch
  import opened SlotTime
  import opened Downlink
  import opened SchedulingInfo
  import opened SchedulerHelper
  import opened SlotSafety

  /** The end of both branches: the process's memory is written, the process starts waiting for feedback, control
      channel elements are assigned and the DCI is filled in. */
  method SendAllocation(enb: EnbSchedulingInfo, ue: UeSchedulingInfo, mac: UeMacRibInfo, carry: Carry, pid: nat,
                        tx: HarqTx, nbRb: nat, tbs: nat, bitmap: nat, requests: seq<nat>) returns (grant: Grant)
    requires enb.Valid() && ue.Valid() && mac.Valid() && pid < MAX_NUM_HARQ
    modifies enb`nCceRem, ue.harq, mac.harq
    ensures enb.Valid()
    ensures Turn(enb.AsLedger(), carry, UeView(ue, mac), grant)
         == SendDci(old(enb.AsLedger()), carry, old(UeView(ue, mac)), pid, tx, nbRb, tbs, bitmap, requests)
  {
    ue.harq[pid] := tx;
    mac.HarqScheduled(pid);
    enb.AssignCce(Cces(carry.aggregation));
    grant := Grant(Dci(pid, mac.harq[pid].status, tx.ndi, tx.tpc, tx.mcs, tbs, nbRb, carry.aggregation, bitmap,
                       carry.taFlag),
                   requests);
  }

  /** The branch for a block that was not acknowledged. */
  method RetransmitBlock(t: TbsTable, bw: nat, enb: EnbSchedulingInfo, ue: UeSchedulingInfo, mac: UeMacRibInfo,
                         carry: Carry, pid: nat)
      returns (carry': Carry, grant: Grant)
    requires enb.Valid() && ue.Valid() && mac.Valid() && Supported(bw) && pid < MAX_NUM_HARQ
    modifies enb`nCceRem, ue.harq, mac.harq
    ensures enb.Valid()
    ensures Turn(enb.AsLedger(), carry', UeView(ue, mac), grant)
         == Retransmit(t, bw, old(enb.AsLedger()), carry, old(UeView(ue, mac)), pid)
  {
    var mcs := ue.harq[pid].mcs;
    var nbRb := ue.nbRbsRequired;
    carry' := carry.(mcs := mcs);
    grant := NoGrant;
    if nbRb <= ue.preNbRbsAvailable {
      var tbs := GetTbsDl(t, mcs, nbRb);
      var row := MarkGroups(bw, ue.rballocSub, nbRb, ue.preNbRbsAvailable, ue.harq[pid].row);
      var bitmap := AllocatePrbsSub(bw, nbRb, row);
      grant := SendAllocation(enb, ue, mac, carry', pid, ue.harq[pid].(row := row), nbRb, tbs, bitmap, []);
    }
  }

  /** The timing advance part of the new data branch. */
  method TakeTaTimer(ue: UeSchedulingInfo, pending: bool, ghost u: Ue) returns (ta: nat)
    requires ue.Valid() && u.taTimer == ue.taTimer
    modifies ue`taTimer
    ensures (ta, ue.taTimer) == TaLength(u, pending)
  {
    ta := 0;
    if ue.taTimer == 0 {
      if pending {
        ta := 2;
        ue.taTimer := 20;
      }
    } else {
      ue.taTimer := ue.taTimer - 1;
    }
  }

  method UpdateTpc(ue: UeSchedulingInfo, target: Slot, p: PowerReport) returns (tpc: nat)
    requires ue.Valid()
    modifies ue`pucchTpcTx
    ensures (tpc, ue.pucchTpcTx) == Command(old(ue.pucchTpcTx), target, p)
  {
    var last := ue.pucchTpcTx.frame * 10 + ue.pucchTpcTx.subframe;
    var now := target.frame * 10 + target.subframe;
    tpc := 1;
    if last + 10 <= now || (last > now && 10240 - last + now >= 10) {
      if p.updated {
        ue.pucchTpcTx := target;
        if p.received > p.wanted + 1 {
          tpc := 0;
        } else if p.received < p.wanted - 1 {
          tpc := 2;
        }
      }
    }
  }

  /** Resource blocks, groups and scheme for a new block that has to hold `need` bytes. */
  method ChooseBlock(t: TbsTable, bw: nat, ue: UeSchedulingInfo, mcs0: nat, need: nat, row0: Groups)
      returns (nbRb: uint16, row: Groups, mcs: nat, tbs: nat, bitmap: nat)
    requires ue.Valid() && Supported(bw) && mcs0 <= MAX_MCS && ue.preNbRbsAvailable < 0x8000
    ensures nbRb == W16(RbSearch(t, mcs0, MinRbUnit(bw), ue.preNbRbsAvailable, need, FirstNbRb(bw, mcs0)))
    ensures row == Scheduled(bw, ue.AsDemand().mask, nbRb, ue.preNbRbsAvailable, row0)
    ensures mcs == FitMcs(t, nbRb, need, mcs0) && tbs == GetTbsDl(t, mcs, nbRb)
    ensures bitmap == Bitmap(bw, Cover(bw, row, nbRb))
  {
    var sized;
    nbRb, sized := FindNbRb(t, bw, mcs0, ue.preNbRbsAvailable, need);
    row := MarkGroups(bw, ue.rballocSub, nbRb, ue.preNbRbsAvailable, row0);
    mcs, tbs := FindMcs(t, nbRb, need, mcs0, sized);
    bitmap := AllocatePrbsSub(bw, nbRb, row);
  }

  /** Stores the choice in the process's memory, toggles its new-data indicator and sends. */
  method PutNewBlock(target: Slot, enb: EnbSchedulingInfo, ue: UeSchedulingInfo, mac: UeMacRibInfo, carry: Carry,
                     power: PowerReport,
                     pid: nat, nbRb: uint16, row: Groups, mcs: nat, tbs: nat, bitmap: nat, requests: seq<nat>)
      returns (grant: Grant)
    requires enb.Valid() && ue.Valid() && mac.Valid() && pid < MAX_NUM_HARQ
    modifies enb`nCceRem, ue`pucchTpcTx, ue.harq, mac.harq
    ensures enb.Valid()
    ensures Turn(enb.AsLedger(), carry.(mcs := mcs), UeView(ue, mac), grant)
         == PutBlock(target, old(enb.AsLedger()), carry, old(UeView(ue, mac)), power, pid, nbRb, row, mcs, tbs, bitmap,
                     requests)
  {
    var tpc := UpdateTpc(ue, target, power);
    var tx := HarqTx(W8(1 - ue.harq[pid].ndi), tpc, mcs, nbRb, row);
    grant := SendAllocation(enb, ue, mac, carry.(mcs := mcs), pid, tx, nbRb, tbs, bitmap, requests);
  }

  /** Sizes and hands out a new block once there is something to send. */
  method FillNewBlock(t: TbsTable, bw: nat, target: Slot, enb: EnbSchedulingInfo, ue: UeSchedulingInfo,
                      mac: UeMacRibInfo, carry: Carry,
                      power: PowerReport, pid: nat, rlc: Rlc, ta: nat)
      returns (carry': Carry, grant: Grant)
    requires enb.Valid() && ue.Valid() && mac.Valid() && Supported(bw) && pid < MAX_NUM_HARQ
    requires carry.mcs <= MAX_MCS && ue.preNbRbsAvailable < 0x8000
    modifies enb`nCceRem, ue`pucchTpcTx, ue.harq, mac.harq
    ensures enb.Valid()
    ensures Turn(enb.AsLedger(), carry', UeView(ue, mac), grant)
         == FillBlock(t, bw, target, old(enb.AsLedger()), carry, old(UeView(ue, mac)), power, pid, rlc, ta)
  {
    var nbRb, row, mcs, tbs, bitmap := ChooseBlock(t, bw, ue, carry.mcs, BytesNeeded(rlc, ta), ue.harq[pid].row);
    carry' := carry.(mcs := mcs);
    grant := PutNewBlock(target, enb, ue, mac, carry, power, pid, nbRb, row, mcs, tbs, bitmap, rlc.requests);
  }

  /** The branch for new data. */
  method SendNewBlock(t: TbsTable, bw: nat, target: Slot, enb: EnbSchedulingInfo, ue: UeSchedulingInfo,
                      mac: UeMacRibInfo, carry: Carry, r: Report, pid: nat)
      returns (carry': Carry, grant: Grant)
    requires enb.Valid() && ue.Valid() && mac.Valid() && Supported(bw) && pid < MAX_NUM_HARQ
    requires carry.mcs <= MAX_MCS && ue.preNbRbsAvailable < 0x8000
    modifies enb`nCceRem, ue`taTimer, ue`pucchTpcTx, ue.harq, mac`txQueueSizes, mac.harq
    ensures enb.Valid()
    ensures Turn(enb.AsLedger(), carry', UeView(ue, mac), grant)
         == SendNew(t, bw, target, old(enb.AsLedger()), carry, old(UeView(ue, mac)), r, pid)
  {
    ghost var u := UeView(ue, mac);
    var ta := TakeTaTimer(ue, r.taPending, u);
    var rlc := RequestData(GetTbsDl(t, carry.mcs, ue.preNbRbsAvailable), ta, mac.txQueueSizes);
    mac.txQueueSizes := rlc.queues;
    carry', grant := carry, NoGrant;
    if ta > 0 {
      carry' := carry'.(taFlag := true);
    }
    if exists j :: 0 <= j < |rlc.requests| && rlc.requests[j] > 0 {
      carry', grant := FillNewBlock(t, bw, target, enb, ue, mac, carry', r.power, pid, rlc, ta);
    }
  }

  /** Retransmission or new data, whichever the first free process calls for. */
  method ScheduleProcess(t: TbsTable, bw: nat, target: Slot, enb: EnbSchedulingInfo, ue: UeSchedulingInfo,
                         mac: UeMacRibInfo, carry: Carry, r: Report)
      returns (carry': Carry, grant: Grant)
    requires enb.Valid() && ue.Valid() && mac.Valid() && Supported(bw) && HasHarq(mac.harq[..])
    requires carry.mcs <= MAX_MCS && ue.preNbRbsAvailable < 0x8000
    modifies enb`nCceRem, ue`taTimer, ue`pucchTpcTx, ue.harq, mac`txQueueSizes, mac.harq
    ensures enb.Valid()
    ensures Turn(enb.AsLedger(), carry', UeView(ue, mac), grant)
         == UseProcess(t, bw, target, old(enb.AsLedger()), carry, old(UeView(ue, mac)), r)
  {
    var pid := mac.GetNextAvailableHarq();
    if mac.harq[pid].status > 0 {
      carry', grant := RetransmitBlock(t, bw, enb, ue, mac, carry, pid);
    } else {
      carry', grant := SendNewBlock(t, bw, target, enb, ue, mac, carry, r, pid);
    }
  }

  /** A turn either assigns the elements of its aggregation level or leaves the ledger alone. */
  lemma UseProcessAssigns(t: TbsTable, bw: nat, target: Slot, ledger: Ledger, carry: Carry, u: Ue, r: Report)
    requires HasHarq(u.fb)
    ensures var turn := UseProcess(t, bw, target, ledger, carry, u, r);
      && (turn.grant.Grant? ==> turn.grant.dci.aggregation == carry.aggregation)
      && turn.ledger == if turn.grant.Grant? then Assign(ledger, Cces(carry.aggregation)) else ledger
  {
  }

  /** The rest of an iteration of the UE loop, once control channel elements are available. */
  method ScheduleReserved(t: TbsTable, bw: nat, target: Slot, enb: EnbSchedulingInfo, ue: UeSchedulingInfo,
                          mac: UeMacRibInfo, carry: Carry, r: Report)
      returns (carry': Carry, grant: Grant)
    requires enb.Valid() && ue.Valid() && mac.Valid() && Supported(bw) && ValidReport(r)
    requires carry.mcs <= MAX_MCS && ue.preNbRbsAvailable < 0x8000
    requires r.csi.Csi? ==> carry.aggregation == r.csi.aggregation
    modifies enb`nCceRem, ue`taTimer, ue`pucchTpcTx, ue.harq, mac`txQueueSizes, mac.harq
    ensures enb.Valid()
    ensures enb.AsLedger()
         == if grant.Grant? then Assign(old(enb.AsLedger()), Cces(carry.aggregation)) else old(enb.AsLedger())
    ensures grant.Grant? ==> grant.dci.aggregation == carry.aggregation
    ensures var u := old(UeView(ue, mac));
      Turn(enb.AsLedger(), carry', UeView(ue, mac), grant)
        == if !HasHarq(u.fb) || u.d.pre == 0 then Turn(old(enb.AsLedger()), carry, u, NoGrant)
           else UseProcess(t, bw, target, old(enb.AsLedger()), WithCsi(carry, r.csi), u, r)
  {
    carry', grant := carry, NoGrant;
    var available := mac.HasAvailableHarq();
    if !available {
      return;
    }
    if ue.preNbRbsAvailable == 0 {
      return;
    }
    if r.csi.Csi? {
      carry' := carry'.(mcs := r.csi.mcs);
    }
    UseProcessAssigns(t, bw, target, enb.AsLedger(), carry', UeView(ue, mac), r);
    carry', grant := ScheduleProcess(t, bw, target, enb, ue, mac, carry', r);
  }

  /** One iteration of the UE loop. */
  method ScheduleUe(t: TbsTable, cfg: CellConfig, target: Slot, enb: EnbSchedulingInfo, ue: UeSchedulingInfo,
                    mac: UeMacRibInfo, rnti: nat, carry: Carry, r: Report, ghost used: nat)
      returns (carry': Carry, grant: Grant, ghost used': nat)
    requires enb.Valid() && ue.Valid() && mac.Valid() && Supported(cfg.bw) && ValidReport(r)
    requires carry.mcs <= MAX_MCS && carry.aggregation <= 3 && ue.preNbRbsAvailable < 0x8000 && 1 <= rnti < 0x1_0000
    requires InBalance(cfg, enb.AsLedger(), used) && used + 8 <= 0x10_0000
    modifies enb`numPdcchSymbols, enb`nCceRem, ue`taTimer, ue`pucchTpcTx, ue.harq, mac`txQueueSizes, mac.harq
    ensures enb.Valid()
    ensures Turn(enb.AsLedger(), carry', UeView(ue, mac), grant)
         == TakeTurn(t, cfg, target, old(enb.AsLedger()), carry, old(UeView(ue, mac)), r)
    ensures InBalance(cfg, enb.AsLedger(), used')
    ensures used' == used + if grant.Grant? then Cces(grant.dci.aggregation) else 0
  {
    grant, used' := NoGrant, used;
    carry' := carry;
    if r.csi.Csi? {
      carry' := carry'.(aggregation := r.csi.aggregation);
    }
    var infeasible := enb.CceAllocationInfeasible(cfg, rnti, carry'.aggregation, target.subframe, used);
    if infeasible {
      return;
    }
    ghost var aggregation := carry'.aggregation;
    ghost var reserved := enb.AsLedger();
    carry', grant := ScheduleReserved(t, cfg.bw, target, enb, ue, mac, carry', r);
    if grant.Grant? {
      AssignKeepsBalance(cfg, reserved, used, Cces(aggregation));
      used' := used + Cces(aggregation);
    }
  }

  // ---------- the whole cell ----------

  /** The grants of the first k turns. */
  ghost function GrantsOf(t: TbsTable, cfg: CellConfig, target: Slot, carry: Carry, ready: seq<Ue>,
                          reports: seq<Report>, k: nat): (r: seq<Grant>)
    requires k <= |ready| == |reports|
    ensures |r| == k
    ensures forall j :: 0 <= j < k ==>
              r[j] == TurnOf(t, cfg, target, RoundStart(cfg, 0), carry, ready, reports, j).grant
  {
    seq(k, j requires 0 <= j < k => TurnOf(t, cfg, target, RoundStart(cfg, 0), carry, ready, reports, j).grant)
  }

  /** The UEs when the first k have had their turn. */
  ghost function After(t: TbsTable, cfg: CellConfig, target: Slot, carry: Carry, ready: seq<Ue>, reports: seq<Report>,
                       k: nat): (r: seq<Ue>)
    requires |reports| == |ready|
    ensures |r| == |ready|
  {
    seq(|ready|, j requires 0 <= j < |ready| =>
      if j < k then TurnOf(t, cfg, target, RoundStart(cfg, 0), carry, ready, reports, j).u else ready[j])
  }

  /** The UE loop, started with `first` in the locals, has reached UE k with these values. */
  ghost predicate Reached(t: TbsTable, cfg: CellConfig, target: Slot, first: Carry, ready: seq<Ue>,
                          reports: seq<Report>, k: nat,
                          ledger: Ledger, carry: Carry, grants: seq<Grant>, us: seq<Ue>)
    requires k <= |ready| == |reports|
  {
    && carry.mcs <= MAX_MCS && carry.aggregation <= 3 && ledger.symbols <= 3
    && (ledger, carry) == BeforeTurn(t, cfg, target, RoundStart(cfg, 0), first, ready, reports, k)
    && grants == GrantsOf(t, cfg, target, first, ready, reports, k)
    && us == After(t, cfg, target, first, ready, reports, k)
  }

  lemma ReachedFirst(t: TbsTable, cfg: CellConfig, target: Slot, first: Carry, ready: seq<Ue>, reports: seq<Report>)
    requires |reports| == |ready| && first.mcs <= MAX_MCS && first.aggregation <= 3
    ensures Reached(t, cfg, target, first, ready, reports, 0, RoundStart(cfg, 0), first, [], ready)
  {
  }

  lemma GrantsOfNext(t: TbsTable, cfg: CellConfig, target: Slot, carry: Carry, ready: seq<Ue>, reports: seq<Report>,
                     k: nat)
    requires k < |ready| == |reports|
    ensures GrantsOf(t, cfg, target, carry, ready, reports, k + 1)
         == GrantsOf(t, cfg, target, carry, ready, reports, k)
              + [TurnOf(t, cfg, target, RoundStart(cfg, 0), carry, ready, reports, k).grant]
  {
  }

  lemma AfterNext(t: TbsTable, cfg: CellConfig, target: Slot, carry: Carry, ready: seq<Ue>, reports: seq<Report>,
                  k: nat)
    requires k < |ready| == |reports|
    ensures After(t, cfg, target, carry, ready, reports, k)[k] == ready[k]
    ensures After(t, cfg, target, carry, ready, reports, k + 1)
         == After(t, cfg, target, carry, ready, reports, k)
              [k := TurnOf(t, cfg, target, RoundStart(cfg, 0), carry, ready, reports, k).u]
  {
  }

  lemma BeforeTurnNext(t: TbsTable, cfg: CellConfig, target: Slot, carry: Carry, ready: seq<Ue>, reports: seq<Report>,
                       k: nat, ledger: Ledger, current: Carry)
    requires k < |ready| == |reports| && ledger.symbols <= 3
    requires (ledger, current) == BeforeTurn(t, cfg, target, RoundStart(cfg, 0), carry, ready, reports, k)
    ensures var turn := TakeTurn(t, cfg, target, ledger, current, ready[k], reports[k]);
      && turn == TurnOf(t, cfg, target, RoundStart(cfg, 0), carry, ready, reports, k)
      && BeforeTurn(t, cfg, target, RoundStart(cfg, 0), carry, ready, reports, k + 1) == (turn.ledger, turn.carry)
  {
  }

  lemma ReachedNext(t: TbsTable, cfg: CellConfig, target: Slot, first: Carry, ready: seq<Ue>, reports: seq<Report>,
                    k: nat,
                    ledger: Ledger, carry: Carry, grants: seq<Grant>, us: seq<Ue>)
    requires k < |ready| == |reports| && Sane(ready[k]) && ValidReport(reports[k])
    requires Reached(t, cfg, target, first, ready, reports, k, ledger, carry, grants, us)
    ensures us[k] == ready[k]
    ensures var turn := TakeTurn(t, cfg, target, ledger, carry, ready[k], reports[k]);
      Reached(t, cfg, target, first, ready, reports, k + 1, turn.ledger, turn.carry, grants + [turn.grant],
              us[k := turn.u])
  {
    CarryStaysSane(t, cfg, target, ledger, carry, ready[k], reports[k]);
    LedgerStaysValid(t, cfg, target, ledger, carry, ready[k], reports[k]);
    BeforeTurnNext(t, cfg, target, first, ready, reports, k, ledger, carry);
    GrantsOfNext(t, cfg, target, first, ready, reports, k);
    AfterNext(t, cfg, target, first, ready, reports, k);
  }

  /** UE k's turn touches UE k only. */
  method ScheduleUeAt(t: TbsTable, cfg: CellConfig, target: Slot, enb: EnbSchedulingInfo, ues: seq<UeSchedulingInfo>,
                      macs: seq<UeMacRibInfo>,
                      k: nat, rnti: nat, carry: Carry, r: Report, ghost used: nat, ghost us: seq<Ue>)
      returns (carry': Carry, grant: Grant, ghost used': nat)
    requires enb.Valid() && SeparateUes(ues) && SeparateMacs(macs) && |macs| == |ues| && k < |ues|
    requires Supported(cfg.bw) && ValidReport(r) && 1 <= rnti < 0x1_0000
    requires carry.mcs <= MAX_MCS && carry.aggregation <= 3
    requires UesAre(ues, macs, us) && us[k].d.pre < 0x8000
    requires InBalance(cfg, enb.AsLedger(), used) && used + 8 <= 0x10_0000
    modifies enb`numPdcchSymbols, enb`nCceRem, {ues[k]}`taTimer, {ues[k]}`pucchTpcTx, ues[k].harq,
             {macs[k]}`txQueueSizes, macs[k].harq
    ensures enb.Valid() && InBalance(cfg, enb.AsLedger(), used') && used <= used' <= used + 8
    ensures var turn := TakeTurn(t, cfg, target, old(enb.AsLedger()), carry, us[k], r);
      && enb.AsLedger() == turn.ledger && carry' == turn.carry && grant == turn.grant
      && |us| == |ues| && UesAre(ues, macs, us[k := turn.u])
  {
    assert UeView(ues[k], macs[k]) == us[k];
    ghost var turn := TakeTurn(t, cfg, target, enb.AsLedger(), carry, us[k], r);
    carry', grant, used' := ScheduleUe(t, cfg, target, enb, ues[k], macs[k], rnti, carry, r, used);
    assert UeView(ues[k], macs[k]) == turn.u;
    forall j | 0 <= j < |ues| && j != k
      ensures UeView(ues[j], macs[j]) == us[j]
    {
      assert old(UeView(ues[j], macs[j])) == us[j];
    }
  }

  /** One iteration of the UE loop within the loop. */
  method ScheduleNextUe(t: TbsTable, cfg: CellConfig, target: Slot, enb: EnbSchedulingInfo,
                        ues: seq<UeSchedulingInfo>, macs: seq<UeMacRibInfo>,
                        k: nat, rnti: nat, carry: Carry, reports: seq<Report>, grants: seq<Grant>,
                        ghost used: nat, ghost us: seq<Ue>, ghost first: Carry, ghost ready: seq<Ue>)
      returns (carry': Carry, grants': seq<Grant>, ghost used': nat, ghost us': seq<Ue>)
    requires enb.Valid() && SeparateUes(ues) && SeparateMacs(macs)
    requires k < |ues| == |macs| == |reports| == |ready|
    requires Supported(cfg.bw) && ValidReport(reports[k]) && 1 <= rnti < 0x1_0000
    requires Sane(ready[k]) && ready[k].d.pre < 0x8000
    requires UesAre(ues, macs, us)
    requires Reached(t, cfg, target, first, ready, reports, k, enb.AsLedger(), carry, grants, us)
    requires InBalance(cfg, enb.AsLedger(), used) && used + 8 <= 0x10_0000
    modifies enb`numPdcchSymbols, enb`nCceRem, {ues[k]}`taTimer, {ues[k]}`pucchTpcTx, ues[k].harq,
             {macs[k]}`txQueueSizes, macs[k].harq
    ensures enb.Valid() && InBalance(cfg, enb.AsLedger(), used') && used <= used' <= used + 8
    ensures UesAre(ues, macs, us')
    ensures Reached(t, cfg, target, first, ready, reports, k + 1, enb.AsLedger(), carry', grants', us')
  {
    ReachedNext(t, cfg, target, first, ready, reports, k, enb.AsLedger(), carry, grants, us);
    us' := us[k := TakeTurn(t, cfg, target, enb.AsLedger(), carry, us[k], reports[k]).u];
    var grant;
    carry', grant, used' := ScheduleUeAt(t, cfg, target, enb, ues, macs, k, rnti, carry, reports[k], used, us);
    grants' := grants + [grant];
  }

  /** The UE loop. */
  method ScheduleUes(t: TbsTable, cfg: CellConfig, target: Slot, enb: EnbSchedulingInfo, ues: seq<UeSchedulingInfo>,
                     macs: seq<UeMacRibInfo>,
                     rntis: seq<nat>, carry: Carry, reports: seq<Report>, ghost ready: seq<Ue>)
      returns (grants: seq<Grant>)
    requires enb.Valid() && SeparateUes(ues) && SeparateMacs(macs)
    requires |ready| == |rntis| == |reports| == |macs| == |ues| <= 1024
    requires Supported(cfg.bw) && carry.mcs <= MAX_MCS && carry.aggregation <= 3
    requires forall k :: 0 <= k < |ues| ==>
               && ValidReport(reports[k]) && 1 <= rntis[k] < 0x1_0000
               && Sane(ready[k]) && ready[k].d.pre < 0x8000
    requires UesAre(ues, macs, ready) && enb.AsLedger() == RoundStart(cfg, 0)
    modifies enb`numPdcchSymbols, enb`nCceRem, (set u | u in ues)`taTimer, (set u | u in ues)`pucchTpcTx,
             (set u | u in ues :: u.harq), (set m | m in macs)`txQueueSizes, (set m | m in macs :: m.harq)
    ensures enb.Valid() && grants == GrantsOf(t, cfg, target, carry, ready, reports, |ready|)
    ensures UesAre(ues, macs, After(t, cfg, target, carry, ready, reports, |ready|))
  {
    grants := [];
    var current := carry;
    ghost var used: nat, us := 0, ready;
    ReachedFirst(t, cfg, target, carry, ready, reports);
    for k := 0 to |ues|
      invariant enb.Valid() && InBalance(cfg, enb.AsLedger(), used) && used <= 8 * k && UesAre(ues, macs, us)
      invariant Reached(t, cfg, target, carry, ready, reports, k, enb.AsLedger(), current, grants, us)
    {
      current, grants, used, us := ScheduleNextUe(t, cfg, target, enb, ues, macs, k, rntis[k], current, reports, grants,
                                                  used, us, carry, ready);
    }
  }

  lemma ReadyForLoop(t: TbsTable, bw: nat, us: seq<Ue>, reports: seq<Report>, order: seq<nat>)
    requires Supported(bw) && |reports| == |us| && ValidOrder(order, |us|)
    requires forall k :: 0 <= k < |us| ==> Sane(us[k])
    ensures var ready := Preprocessed(t, bw, us, reports, order);
      forall k :: 0 <= k < |us| ==> Sane(ready[k]) && ready[k].d.pre < 0x8000
  {
    var ready := Preprocessed(t, bw, us, reports, order);
    forall k | 0 <= k < |us|
      ensures Sane(ready[k]) && ready[k].d.pre < 0x8000
    {
      assert Sane(us[k]);
      ReadyForTurn(t, bw, us, reports, order, k);
      UsedPlusFree(bw, ready[k].d.mask);
    }
  }

  lemma AfterAll(t: TbsTable, cfg: CellConfig, target: Slot, carry: Carry, us: seq<Ue>, reports: seq<Report>,
                 order: seq<nat>, grants: seq<Grant>)
    requires cfg.bw < 0x1_0000 && |reports| == |us| && ValidOrder(order, |us|)
    requires grants == GrantsOf(t, cfg, target, carry, Preprocessed(t, cfg.bw, us, reports, order), reports, |us|)
    ensures var ready := Preprocessed(t, cfg.bw, us, reports, order);
      RunSlot(t, cfg, target, carry, us, reports, order)
        == SlotState(After(t, cfg, target, carry, ready, reports, |ready|), grants)
  {
  }

  /** Preprocessor and UE loop for a slot that is to be scheduled. */
  method ScheduleSlot(t: TbsTable, cfg: CellConfig, target: Slot, enb: EnbSchedulingInfo, ues: seq<UeSchedulingInfo>,
                      macs: seq<UeMacRibInfo>, rntis: seq<nat>, reports: seq<Report>, order: seq<nat>, carry: Carry,
                      ghost us: seq<Ue>)
      returns (grants: seq<Grant>)
    requires enb.Valid() && SeparateUes(ues) && SeparateMacs(macs)
    requires |us| == |rntis| == |reports| == |macs| == |ues| <= 1024
    requires Outside(enb.vrbMap, ues) && Permutation(order, |ues|) && Supported(cfg.bw)
    requires carry.mcs <= MAX_MCS && carry.aggregation <= 3 && UesAre(ues, macs, us)
    requires forall k :: 0 <= k < |ues| ==> ValidReport(reports[k]) && 1 <= rntis[k] < 0x1_0000 && Sane(us[k])
    modifies enb`numPdcchSymbols, enb`nCceRem, enb.vrbMap, ues, (set u | u in ues :: u.rballocSub),
             (set u | u in ues :: u.harq), (set m | m in macs)`txQueueSizes, (set m | m in macs :: m.harq)
    ensures enb.Valid()
    ensures var s := RunSlot(t, cfg, target, carry, us, reports, order); grants == s.grants && UesAre(ues, macs, s.ues)
  {
    enb.StartNewSchedulingRound(cfg);
    RunDlschSchedulerPreprocessor(t, cfg.bw, enb.vrbMap, ues, macs, reports, order, us);
    ghost var ready := Preprocessed(t, cfg.bw, us, reports, order);
    ReadyForLoop(t, cfg.bw, us, reports, order);
    grants := ScheduleUes(t, cfg, target, enb, ues, macs, rntis, carry, reports, ready);
    AfterAll(t, cfg, target, carry, us, reports, order, grants);
  }

  /** run_central_scheduler for one agent with one cell: nothing happens for a slot already dealt with or when the
      target is a subframe it leaves alone; otherwise the cell goes through exactly one slot. */
  method RunCentralScheduler(t: TbsTable, cfg: CellConfig, current: Slot, ahead: nat, enb: EnbSchedulingInfo,
                             ues: seq<UeSchedulingInfo>, macs: seq<UeMacRibInfo>, rntis: seq<nat>,
                             reports: seq<Report>, order: seq<nat>, carry: Carry, ghost us: seq<Ue>)
      returns (grants: seq<Grant>)
    requires enb.Valid() && SeparateUes(ues) && SeparateMacs(macs)
    requires |us| == |rntis| == |reports| == |macs| == |ues| <= 1024
    requires Outside(enb.vrbMap, ues) && Permutation(order, |ues|) && Supported(cfg.bw)
    requires carry.mcs <= MAX_MCS && carry.aggregation <= 3 && UesAre(ues, macs, us)
    requires forall k :: 0 <= k < |ues| ==> ValidReport(reports[k]) && 1 <= rntis[k] < 0x1_0000 && Sane(us[k])
    modifies enb, enb.vrbMap, ues, (set u | u in ues :: u.rballocSub), (set u | u in ues :: u.harq),
             (set m | m in macs)`txQueueSizes, (set m | m in macs :: m.harq)
    ensures enb.Valid()
    ensures var target := TargetSlot(current, ahead);
      if old(enb.lastChecked) == current || target.subframe == 0 || target.subframe == 5
      then grants == [] && UesAre(ues, macs, us) && enb.lastChecked == old(enb.lastChecked)
      else var s := RunSlot(t, cfg, target, carry, us, reports, order);
        grants == s.grants && UesAre(ues, macs, s.ues) && enb.lastChecked == current
  {
    grants := [];
    if enb.lastChecked != current {
      var target := TargetSlot(current, ahead);
      if target.subframe != 0 && target.subframe != 5 {
        grants := ScheduleSlot(t, cfg, target, enb, ues, macs, rntis, reports, order, carry, us);
        enb.lastChecked := current;
      }
    }
  }
}
