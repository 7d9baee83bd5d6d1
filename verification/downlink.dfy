/** One scheduling slot of one cell, as functions on values: what the preprocessor prepares for each UE and
    what run_central_scheduler decides for it.  The classes and methods of modules SchedulingInfo and
    CentralScheduler are proved equal to these functions. */
module Downlink {
  import opened Words
  import opened ResourceGrid
  import opened Preprocessor
  import opened TransportBlock
  import opened DciBitmap
  import opened RlcRequests
  import opened Pdcch
  import opened SlotTime

  const MAX_NUM_HARQ: nat := 8

  /** What ue_scheduling_info keeps per HARQ process: ndi_, tpc_, mcs_, nb_scheduled_rbs_ and the row of
      rballoc_sub_scheduled_. */
  datatype HarqTx = HarqTx(ndi: nat, tpc: nat, mcs: nat, nbRb: uint16, row: Groups)

  /** What ue_mac_rib_info keeps per HARQ process: active_harq_ and harq_stats_. */
  datatype HarqFeedback = HarqFeedback(active: bool, status: nat)

  type Memory = s: seq<HarqTx> | |s| == MAX_NUM_HARQ witness seq(MAX_NUM_HARQ, _ => HarqTx(0, 0, 0, 0, NoGroups()))
  type Feedback = s: seq<HarqFeedback> | |s| == MAX_NUM_HARQ witness seq(MAX_NUM_HARQ, _ => HarqFeedback(true, 0))

  /** A UE as the scheduler sees it: its scheduling information and its entry in the RIB. */
  datatype Ue = Ue(d: Demand, tx: Memory, fb: Feedback, taTimer: int, tpcAt: Slot, queues: seq<nat>)

  /** Scheme and aggregation level that the latest CQI report for the cell stands for, if there is one. */
  datatype Csi = NoCsi | Csi(mcs: nat, aggregation: nat)

  /** What a slot reads about a UE: the number of logical channels configured (if there is an LC entry for it)
      and its latest MAC report. */
  datatype Report = Report(lcs: Lcs, csi: Csi, taPending: bool, power: PowerReport)
  datatype Lcs = NoLcEntry | LcEntry(count: nat)

  /** Locals of run_central_scheduler that keep their value from one UE to the next; taFlag is the timing advance flag
      of ce_flags, which is cleared once per call and then only ever set. */
  datatype Carry = Carry(mcs: nat, aggregation: nat, taFlag: bool)

  /** A DCI with the control element bitmap that goes with it: ta says whether it announces a timing advance command. */
  datatype Dci = Dci(harq: nat, round: nat, ndi: nat, tpc: nat, mcs: nat, tbs: nat, nbRb: nat, aggregation: nat,
                     bitmap: nat, ta: bool)

  datatype Grant = NoGrant | Grant(dci: Dci, requests: seq<nat>)

  predicate ValidReport(r: Report) {
    r.csi.Csi? ==> r.csi.mcs <= MAX_MCS && r.csi.aggregation <= 3
  }

  // ---------- HARQ processes ----------

  function NextHarq(fb: seq<HarqFeedback>, from: nat): (pid: int)
    requires from <= |fb|
    ensures pid == -1 || from <= pid < |fb|
    ensures pid >= 0 ==> fb[pid].active && forall i :: from <= i < pid ==> !fb[i].active
    ensures pid == -1 ==> forall i :: from <= i < |fb| ==> !fb[i].active
    decreases |fb| - from
  {
    if from == |fb| then -1 else if fb[from].active then from else NextHarq(fb, from + 1)
  }

  predicate HasHarq(fb: Feedback) {
    NextHarq(fb, 0) >= 0
  }

  function Pid(fb: Feedback): (pid: nat)
    requires HasHarq(fb)
    ensures pid < MAX_NUM_HARQ && fb[pid].active
  {
    NextHarq(fb, 0)
  }

  // ---------- preparation ----------

  function SizedRbs(t: TbsTable, bw: nat, mcs: nat, bytes: nat): uint16
    requires bw < 0x1_0000
  {
    if bytes == 0 then 0 else W16(RbSearch(t, mcs, MinRbUnit(bw), bw, bytes, FirstNbRb(bw, mcs)))
  }

  function Cleared(tx: Memory): (r: Memory)
    ensures forall p :: 0 <= p < MAX_NUM_HARQ ==> r[p] == tx[p].(row := NoGroups())
  {
    seq(MAX_NUM_HARQ, p requires 0 <= p < MAX_NUM_HARQ => tx[p].(row := NoGroups()))
  }

  /** start_new_scheduling_round followed by assign_rbs_required (which runs only for a UE with an LC entry). */
  function Sized(t: TbsTable, bw: nat, u: Ue, r: Report): Ue
    requires bw < 0x1_0000
  {
    var high := if r.lcs.LcEntry? && |u.queues| > 0 then r.lcs.count <= 2 else u.d.high;
    var mcs := if r.csi.Csi? then r.csi.mcs else 0;
    var required := if r.lcs.LcEntry? then SizedRbs(t, bw, mcs, Sum(u.queues)) else 0;
    u.(d := Demand(high, required, 0, 0, 0, NoGroups()), tx := Cleared(u.tx))
  }

  /** The HARQ part of the preprocessor: a pending retransmission needs what its first transmission used. */
  function WithHarq(u: Ue): Ue {
    if !HasHarq(u.fb) then u
    else
      var pid := Pid(u.fb);
      if u.fb[pid].status > 0 then u.(d := u.d.(required := u.tx[pid].nbRb))
      else u.(tx := u.tx[pid := u.tx[pid].(nbRb := 0)])
  }

  predicate Active(u: Ue) {
    HasHarq(u.fb) && u.d.required > 0
  }

  /** total_ue_count. */
  function ActiveCount(ues: seq<Ue>): nat {
    |set i | 0 <= i < |ues| && Active(ues[i])|
  }

  function Prepared(t: TbsTable, bw: nat, ues: seq<Ue>, reports: seq<Report>): (r: seq<Ue>)
    requires bw < 0x1_0000 && |reports| == |ues|
    ensures |r| == |ues| && forall i :: 0 <= i < |ues| ==> r[i] == WithHarq(Sized(t, bw, ues[i], reports[i]))
  {
    seq(|ues|, i requires 0 <= i < |ues| => WithHarq(Sized(t, bw, ues[i], reports[i])))
  }

  function Demands(ues: seq<Ue>): (r: seq<Demand>)
    ensures |r| == |ues| && forall i :: 0 <= i < |ues| ==> r[i] == ues[i].d
  {
    seq(|ues|, i requires 0 <= i < |ues| => ues[i].d)
  }

  function WithDemands(ues: seq<Ue>, ds: seq<Demand>): (r: seq<Ue>)
    requires |ds| == |ues|
    ensures |r| == |ues| && forall i :: 0 <= i < |ues| ==> r[i] == ues[i].(d := ds[i])
  {
    seq(|ues|, i requires 0 <= i < |ues| => ues[i].(d := ds[i]))
  }

  /** All UEs of the cell after run_dlsch_scheduler_preprocessor. */
  function Preprocessed(t: TbsTable, bw: nat, ues: seq<Ue>, reports: seq<Report>, order: seq<nat>): (r: seq<Ue>)
    requires bw < 0x1_0000 && |reports| == |ues| && ValidOrder(order, |ues|)
    ensures |r| == |ues|
  {
    var prepared := Prepared(t, bw, ues, reports);
    WithDemands(prepared, Preprocess(bw, NoGroups(), Demands(prepared), ActiveCount(prepared), order).ues)
  }

  // ---------- one UE's turn ----------

  datatype Turn = Turn(ledger: Ledger, carry: Carry, u: Ue, grant: Grant)

  function WithCsi(c: Carry, csi: Csi): Carry {
    if csi.Csi? then c.(mcs := csi.mcs, aggregation := csi.aggregation) else c
  }

  function TaLength(u: Ue, pending: bool): (nat, int) {
    TaTimer(u.taTimer, pending)
  }

  /** What follows either branch once there is a transmission: the process starts waiting for feedback, control
      channel elements are assigned and the DCI is filled in from the process's memory tx. */
  function SendDci(ledger: Ledger, carry: Carry, u: Ue, pid: nat, tx: HarqTx, nb: nat, tbs: nat, bitmap: nat,
                   requests: seq<nat>): Turn
    requires pid < MAX_NUM_HARQ
  {
    Turn(Assign(ledger, Cces(carry.aggregation)), carry,
         u.(tx := u.tx[pid := tx], fb := u.fb[pid := u.fb[pid].(active := false)]),
         Grant(Dci(pid, u.fb[pid].status, tx.ndi, tx.tpc, tx.mcs, tbs, nb, carry.aggregation, bitmap, carry.taFlag),
               requests))
  }

  /** The branch for a process whose last block was not acknowledged. */
  function Retransmit(t: TbsTable, bw: nat, ledger: Ledger, carry: Carry, u: Ue, pid: nat): Turn
    requires pid < MAX_NUM_HARQ
  {
    var tx := u.tx[pid];
    var nb := u.d.required;
    var carry' := carry.(mcs := tx.mcs);
    if nb <= u.d.pre then
      var row := Scheduled(bw, u.d.mask, nb, u.d.pre, tx.row);
      SendDci(ledger, carry', u, pid, tx.(row := row), nb, GetTbsDl(t, tx.mcs, nb), Bitmap(bw, Cover(bw, row, nb)), [])
    else
      Turn(ledger, carry', u, NoGrant)
  }

  /** Puts a new block on process pid and sends it. */
  function PutBlock(target: Slot, ledger: Ledger, carry: Carry, u: Ue, power: PowerReport, pid: nat, nb: uint16,
                    row: Groups, mcs: nat, tbs: nat, bitmap: nat, requests: seq<nat>): Turn
    requires pid < MAX_NUM_HARQ
  {
    var (tpc, at) := Command(u.tpcAt, target, power);
    var tx := HarqTx(W8(1 - u.tx[pid].ndi), tpc, mcs, nb, row);
    SendDci(ledger, carry.(mcs := mcs), u.(tpcAt := at), pid, tx, nb, tbs, bitmap, requests)
  }

  /** Sizes a block for the requests made and hands it to process pid. */
  function FillBlock(t: TbsTable, bw: nat, target: Slot, ledger: Ledger, carry: Carry, u: Ue, power: PowerReport,
                     pid: nat, rlc: Rlc, ta: nat): Turn
    requires pid < MAX_NUM_HARQ
  {
    var need := BytesNeeded(rlc, ta);
    var nb := W16(RbSearch(t, carry.mcs, MinRbUnit(bw), u.d.pre, need, FirstNbRb(bw, carry.mcs)));
    var mcs := FitMcs(t, nb, need, carry.mcs);
    var row := Scheduled(bw, u.d.mask, nb, u.d.pre, u.tx[pid].row);
    PutBlock(target, ledger, carry, u, power, pid, nb, row, mcs, GetTbsDl(t, mcs, nb), Bitmap(bw, Cover(bw, row, nb)),
             rlc.requests)
  }

  /** The branch for a process that is free to carry new data. */
  function SendNew(t: TbsTable, bw: nat, target: Slot, ledger: Ledger, carry: Carry, u: Ue, r: Report, pid: nat): Turn
    requires pid < MAX_NUM_HARQ
  {
    var (ta, timer) := TaLength(u, r.taPending);
    var rlc := ServeAll(GetTbsDl(t, carry.mcs, u.d.pre), ta, u.queues);
    var u1 := u.(taTimer := timer, queues := rlc.queues);
    var flagged := carry.(taFlag := carry.taFlag || ta > 0);
    if exists j :: 0 <= j < |rlc.requests| && rlc.requests[j] > 0 then
      FillBlock(t, bw, target, ledger, flagged, u1, r.power, pid, rlc, ta)
    else
      Turn(ledger, flagged, u1, NoGrant)
  }

  /** Retransmission or new data, whichever the first free process calls for. */
  function UseProcess(t: TbsTable, bw: nat, target: Slot, ledger: Ledger, carry: Carry, u: Ue, r: Report): Turn
    requires HasHarq(u.fb)
  {
    var pid := Pid(u.fb);
    if u.fb[pid].status > 0 then Retransmit(t, bw, ledger, carry, u, pid)
    else SendNew(t, bw, target, ledger, carry, u, r, pid)
  }

  /** One iteration of the UE loop of run_central_scheduler. */
  function TakeTurn(t: TbsTable, cfg: CellConfig, target: Slot, ledger: Ledger, carry: Carry, u: Ue, r: Report): Turn
    requires ledger.symbols <= 3
  {
    var aggregation := WithCsi(carry, r.csi).aggregation;
    var (reserved, ok) := Reserve(cfg, ledger, aggregation);
    var early := Turn(reserved, carry.(aggregation := aggregation), u, NoGrant);
    if !ok then early
    else if !HasHarq(u.fb) then early
    else if u.d.pre == 0 then early
    else UseProcess(t, cfg.bw, target, reserved, WithCsi(carry, r.csi), u, r)
  }

  // ---------- the whole slot ----------

  /** Every stored scheme is one the scheduler chose. */
  ghost predicate Sane(u: Ue) {
    forall p :: 0 <= p < MAX_NUM_HARQ ==> u.tx[p].mcs <= MAX_MCS
  }

  lemma CarryStaysSane(t: TbsTable, cfg: CellConfig, target: Slot, ledger: Ledger, carry: Carry, u: Ue, r: Report)
    requires ledger.symbols <= 3 && ValidReport(r) && Sane(u)
    requires carry.mcs <= MAX_MCS && carry.aggregation <= 3
    ensures var c := TakeTurn(t, cfg, target, ledger, carry, u, r).carry; c.mcs <= MAX_MCS && c.aggregation <= 3
  {
  }

  lemma LedgerStaysValid(t: TbsTable, cfg: CellConfig, target: Slot, ledger: Ledger, carry: Carry, u: Ue, r: Report)
    requires ledger.symbols <= 3
    ensures TakeTurn(t, cfg, target, ledger, carry, u, r).ledger.symbols <= 3
  {
  }

  /** Ledger and carried locals when the UE loop of run_central_scheduler reaches UE k. */
  function BeforeTurn(t: TbsTable, cfg: CellConfig, target: Slot, ledger: Ledger, carry: Carry, ues: seq<Ue>,
                      reports: seq<Report>, k: nat): (r: (Ledger, Carry))
    requires k <= |ues| == |reports| && ledger.symbols <= 3
    ensures r.0.symbols <= 3
  {
    if k == 0 then (ledger, carry)
    else
      var (l, c) := BeforeTurn(t, cfg, target, ledger, carry, ues, reports, k - 1);
      var turn := TakeTurn(t, cfg, target, l, c, ues[k - 1], reports[k - 1]);
      LedgerStaysValid(t, cfg, target, l, c, ues[k - 1], reports[k - 1]);
      (turn.ledger, turn.carry)
  }

  /** The turn of UE k. */
  function TurnOf(t: TbsTable, cfg: CellConfig, target: Slot, ledger: Ledger, carry: Carry, ues: seq<Ue>,
                  reports: seq<Report>, k: nat): Turn
    requires k < |ues| == |reports| && ledger.symbols <= 3
  {
    var (l, c) := BeforeTurn(t, cfg, target, ledger, carry, ues, reports, k);
    TakeTurn(t, cfg, target, l, c, ues[k], reports[k])
  }

  /** UEs and grants after the UE loop. */
  datatype SlotState = SlotState(ues: seq<Ue>, grants: seq<Grant>)

  /** Everything run_central_scheduler does for one cell in one slot.  The carry holds what the locals mcs and
      aggregation contain on entry. */
  function RunSlot(t: TbsTable, cfg: CellConfig, target: Slot, carry: Carry, ues: seq<Ue>, reports: seq<Report>,
                   order: seq<nat>): (s: SlotState)
    requires cfg.bw < 0x1_0000 && |reports| == |ues| && ValidOrder(order, |ues|)
    ensures |s.ues| == |s.grants| == |ues|
  {
    var ready := Preprocessed(t, cfg.bw, ues, reports, order);
    var start := RoundStart(cfg, 0);
    SlotState(seq(|ues|, k requires 0 <= k < |ues| => TurnOf(t, cfg, target, start, carry, ready, reports, k).u),
              seq(|ues|, k requires 0 <= k < |ues| => TurnOf(t, cfg, target, start, carry, ready, reports, k).grant))
  }
}
