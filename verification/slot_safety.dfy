/** What one scheduling slot of a cell guarantees, for any number of UEs. */
module SlotSafety {
  import opened ResourceGrid
  import opened Bits
  import opened Preprocessor
  import opened TransportBlock
  import opened DciBitmap
  import opened RlcRequests
  import opened Pdcch
  import opened SlotTime
  import opened Downlink

  // ---------- a DCI stays inside its UE's groups ----------

  ghost predicate RowsClear(u: Ue) {
    forall p :: 0 <= p < MAX_NUM_HARQ ==> u.tx[p].row == NoGroups()
  }

  /** The DCI of a turn prints the shortest prefix of the UE's own groups that covers its resource blocks. */
  lemma TurnPrintsPrefix(t: TbsTable, cfg: CellConfig, target: Slot, ledger: Ledger, carry: Carry, u: Ue, r: Report)
    requires ledger.symbols <= 3 && RowsClear(u)
    ensures var g := TakeTurn(t, cfg, target, ledger, carry, u, r).grant;
      g.Grant? ==> g.dci.nbRb < 0x1_0000 && g.dci.bitmap == Bitmap(cfg.bw, Cover(cfg.bw, u.d.mask, g.dci.nbRb))
  {
    var turn := TakeTurn(t, cfg, target, ledger, carry, u, r);
    if turn.grant.Grant? {
      DciIsMinimalPrefix(cfg.bw, u.d.mask, turn.grant.dci.nbRb, u.d.pre);
    }
  }

  lemma PreparedRowsClear(t: TbsTable, bw: nat, u: Ue, r: Report)
    requires bw < 0x1_0000
    ensures RowsClear(WithHarq(Sized(t, bw, u, r))) && Fresh(WithHarq(Sized(t, bw, u, r)).d)
  {
  }

  lemma PreparedDemandsFresh(t: TbsTable, bw: nat, ues: seq<Ue>, reports: seq<Report>)
    requires bw < 0x1_0000 && |reports| == |ues|
    ensures forall k :: 0 <= k < |ues| ==> Fresh(Demands(Prepared(t, bw, ues, reports))[k])
  {
    forall k | 0 <= k < |ues|
      ensures Fresh(Demands(Prepared(t, bw, ues, reports))[k])
    {
      PreparedRowsClear(t, bw, ues[k], reports[k]);
    }
  }

  ghost predicate Ready(bw: nat, prepared: Ue, ready: Ue) {
    && RowsClear(ready)
    && ready.d.pre == Rbs(bw, ready.d.mask)
    && (ready.d.pre > 0 ==> ready.d.required > 0)
    && ready == prepared.(d := ready.d)
    && ready.d.required == prepared.d.required
  }

  /** State of a UE when the UE loop starts. */
  lemma ReadyForTurn(t: TbsTable, bw: nat, ues: seq<Ue>, reports: seq<Report>, order: seq<nat>, k: nat)
    requires Supported(bw) && |reports| == |ues| && ValidOrder(order, |ues|) && k < |ues|
    ensures Ready(bw, Prepared(t, bw, ues, reports)[k], Preprocessed(t, bw, ues, reports, order)[k])
  {
    var prepared := Prepared(t, bw, ues, reports);
    PreparedDemandsFresh(t, bw, ues, reports);
    PreparedRowsClear(t, bw, ues[k], reports[k]);
    PreprocessSafe(bw, NoGroups(), Demands(prepared), ActiveCount(prepared), order);
  }

  /** No two UEs enter the UE loop with a common group. */
  lemma ReadyDisjoint(t: TbsTable, bw: nat, ues: seq<Ue>, reports: seq<Report>, order: seq<nat>, i: nat, j: nat)
    requires Supported(bw) && |reports| == |ues| && ValidOrder(order, |ues|) && i < |ues| && j < |ues| && i != j
    ensures var ready := Preprocessed(t, bw, ues, reports, order);
      forall g :: 0 <= g < N_RBG_MAX ==> !(ready[i].d.mask[g] && ready[j].d.mask[g])
  {
    var prepared := Prepared(t, bw, ues, reports);
    PreparedDemandsFresh(t, bw, ues, reports);
    PreprocessSafe(bw, NoGroups(), Demands(prepared), ActiveCount(prepared), order);
  }

  lemma ReadyTurn(t: TbsTable, cfg: CellConfig, target: Slot, carry: Carry, ready: seq<Ue>, reports: seq<Report>,
                  k: nat)
    requires k < |ready| == |reports| && RowsClear(ready[k])
    ensures var g := TurnOf(t, cfg, target, RoundStart(cfg, 0), carry, ready, reports, k).grant;
      g.Grant? ==> g.dci.nbRb < 0x1_0000 && g.dci.bitmap == Bitmap(cfg.bw, Cover(cfg.bw, ready[k].d.mask, g.dci.nbRb))
  {
    var (l, c) := BeforeTurn(t, cfg, target, RoundStart(cfg, 0), carry, ready, reports, k);
    TurnPrintsPrefix(t, cfg, target, l, c, ready[k], reports[k]);
  }

  /** Main result on a slot: the resource bitmaps sent to any two UEs of the cell have no bit in common, and
      each is the shortest prefix, among the groups given to its UE, that covers what it announces. */
  lemma SlotBitmapsDisjoint(t: TbsTable, cfg: CellConfig, target: Slot, carry: Carry, ues: seq<Ue>,
                            reports: seq<Report>, order: seq<nat>, i: nat, j: nat)
    requires Supported(cfg.bw) && |reports| == |ues| && ValidOrder(order, |ues|)
    requires i < |ues| && j < |ues| && i != j
    ensures var s := RunSlot(t, cfg, target, carry, ues, reports, order);
      var ready := Preprocessed(t, cfg.bw, ues, reports, order);
      && (s.grants[i].Grant? && s.grants[j].Grant? ==> NoCommonBit(s.grants[i].dci.bitmap, s.grants[j].dci.bitmap))
      && (s.grants[i].Grant? ==>
            s.grants[i].dci.bitmap == Bitmap(cfg.bw, Cover(cfg.bw, ready[i].d.mask, s.grants[i].dci.nbRb)))
  {
    var ready := Preprocessed(t, cfg.bw, ues, reports, order);
    var s := RunSlot(t, cfg, target, carry, ues, reports, order);
    ReadyDisjoint(t, cfg.bw, ues, reports, order, i, j);
    ReadyForTurn(t, cfg.bw, ues, reports, order, i);
    ReadyForTurn(t, cfg.bw, ues, reports, order, j);
    ReadyTurn(t, cfg, target, carry, ready, reports, i);
    ReadyTurn(t, cfg, target, carry, ready, reports, j);
    if s.grants[i].Grant? && s.grants[j].Grant? {
      BitmapsDisjoint(cfg.bw, Cover(cfg.bw, ready[i].d.mask, s.grants[i].dci.nbRb),
                      Cover(cfg.bw, ready[j].d.mask, s.grants[j].dci.nbRb));
    }
  }

  // ---------- a DCI announces what it allocates ----------

  /** The scheme a new block is sized with. */
  function SizingMcs(carry: Carry, r: Report): nat {
    WithCsi(carry, r.csi).mcs
  }

  /** Bytes the new block of a turn has to hold. */
  function NewBlockNeed(t: TbsTable, carry: Carry, u: Ue, r: Report): nat {
    var (ta, timer) := TaLength(u, r.taPending);
    BytesNeeded(ServeAll(GetTbsDl(t, SizingMcs(carry, r), u.d.pre), ta, u.queues), ta)
  }

  /** The one case in which a new block is sized for resource blocks the UE does not have: the search starts
      above what is available and its starting value is already large enough. */
  predicate StartsTooHigh(t: TbsTable, bw: nat, carry: Carry, u: Ue, r: Report) {
    var mcs := SizingMcs(carry, r);
    FirstNbRb(bw, mcs) > u.d.pre && GetTbsDl(t, mcs, FirstNbRb(bw, mcs)) >= NewBlockNeed(t, carry, u, r)
  }

  /** Bytes of a timing advance command that a UE's own turn makes room for. */
  function OwnTa(u: Ue, r: Report): (ta: nat)
    ensures ta == 0 || ta == 2
  {
    TaLength(u, r.taPending).0
  }

  /** Bytes of a timing advance command in the PDU that a DCI announces. */
  function AnnouncedTa(dci: Dci): nat {
    if dci.ta then 2 else 0
  }

  /** What a new block requests. */
  function NewRequests(t: TbsTable, carry: Carry, u: Ue, r: Report): Rlc {
    ServeAll(GetTbsDl(t, SizingMcs(carry, r), u.d.pre), OwnTa(u, r), u.queues)
  }

  /** The parts a new block is put together from. */
  lemma NewBlockParts(t: TbsTable, cfg: CellConfig, target: Slot, ledger: Ledger, carry: Carry, u: Ue, r: Report)
    requires Supported(cfg.bw) && ledger.symbols <= 3
    requires u.d.pre == Rbs(cfg.bw, u.d.mask)
    ensures var g := TakeTurn(t, cfg, target, ledger, carry, u, r).grant;
      g.Grant? && g.dci.round == 0 ==>
        var mcs, need := SizingMcs(carry, r), NewBlockNeed(t, carry, u, r);
        && u.d.pre > 0
        && g.requests == NewRequests(t, carry, u, r).requests
        && (exists j :: 0 <= j < |g.requests| && g.requests[j] > 0)
        && g.dci.nbRb == RbSearch(t, mcs, MinRbUnit(cfg.bw), u.d.pre, need, FirstNbRb(cfg.bw, mcs))
        && g.dci.mcs == FitMcs(t, g.dci.nbRb, need, mcs)
        && g.dci.tbs == GetTbsDl(t, g.dci.mcs, g.dci.nbRb)
        && (g.dci.ta <==> carry.taFlag || OwnTa(u, r) > 0)
  {
    UsedPlusFree(cfg.bw, u.d.mask);
    if u.d.pre > 0 {
      RbSearchPositive(t, SizingMcs(carry, r), MinRbUnit(cfg.bw), u.d.pre, NewBlockNeed(t, carry, u, r),
                       FirstNbRb(cfg.bw, SizingMcs(carry, r)));
    }
  }

  /** A DCI leaves its scheme in the local for the next UE. */
  lemma GrantLeavesMcs(t: TbsTable, cfg: CellConfig, target: Slot, ledger: Ledger, carry: Carry, u: Ue, r: Report)
    requires ledger.symbols <= 3
    ensures var turn := TakeTurn(t, cfg, target, ledger, carry, u, r);
      turn.grant.Grant? ==> turn.carry.mcs == turn.grant.dci.mcs
  {
  }

  lemma RetransmissionParts(t: TbsTable, cfg: CellConfig, target: Slot, ledger: Ledger, carry: Carry, u: Ue, r: Report)
    requires ledger.symbols <= 3
    ensures var g := TakeTurn(t, cfg, target, ledger, carry, u, r).grant;
      g.Grant? && g.dci.round > 0 ==> 0 < u.d.pre && g.dci.nbRb == u.d.required <= u.d.pre
  {
  }

  /** How many resource blocks a DCI is for. */
  lemma GrantSize(t: TbsTable, cfg: CellConfig, target: Slot, ledger: Ledger, carry: Carry, u: Ue, r: Report)
    requires Supported(cfg.bw) && ledger.symbols <= 3
    requires u.d.pre == Rbs(cfg.bw, u.d.mask) && (u.d.pre > 0 ==> u.d.required > 0)
    ensures var g := TakeTurn(t, cfg, target, ledger, carry, u, r).grant;
      g.Grant? ==>
        && 0 < u.d.pre <= cfg.bw
        && (g.dci.round > 0 ==> 0 < g.dci.nbRb <= u.d.pre)
        && (g.dci.round == 0 ==>
              g.dci.nbRb == RbSearch(t, SizingMcs(carry, r), MinRbUnit(cfg.bw), u.d.pre, NewBlockNeed(t, carry, u, r),
                                     FirstNbRb(cfg.bw, SizingMcs(carry, r))))
  {
    UsedPlusFree(cfg.bw, u.d.mask);
    NewBlockParts(t, cfg, target, ledger, carry, u, r);
    RetransmissionParts(t, cfg, target, ledger, carry, u, r);
  }

  /** The groups of a DCI hold at least the resource blocks its block size assumes, and less than a group
      more, except exactly when a new block's search starts too high. */
  lemma GrantCoversItsBlock(t: TbsTable, cfg: CellConfig, target: Slot, ledger: Ledger, carry: Carry, u: Ue, r: Report)
    requires Supported(cfg.bw) && ledger.symbols <= 3
    requires u.d.pre == Rbs(cfg.bw, u.d.mask) && (u.d.pre > 0 ==> u.d.required > 0)
    ensures var g := TakeTurn(t, cfg, target, ledger, carry, u, r).grant;
      g.Grant? ==>
        (g.dci.nbRb <= Rbs(cfg.bw, Cover(cfg.bw, u.d.mask, g.dci.nbRb)) < g.dci.nbRb + MinRbUnit(cfg.bw)
         <==> !(g.dci.round == 0 && StartsTooHigh(t, cfg.bw, carry, u, r)))
  {
    var g := TakeTurn(t, cfg, target, ledger, carry, u, r).grant;
    GrantSize(t, cfg, target, ledger, carry, u, r);
    if g.Grant? {
      if g.dci.round == 0 {
        var mcs := SizingMcs(carry, r);
        RbSearchStopsAtFirstFit(t, mcs, MinRbUnit(cfg.bw), u.d.pre, NewBlockNeed(t, carry, u, r),
                                FirstNbRb(cfg.bw, mcs));
        RbSearchPositive(t, mcs, MinRbUnit(cfg.bw), u.d.pre, NewBlockNeed(t, carry, u, r), FirstNbRb(cfg.bw, mcs));
      }
      DciCoverage(cfg.bw, u.d.mask, g.dci.nbRb);
    }
  }

  lemma {:induction false} RbSearchPositive(t: TbsTable, mcs: nat, unit: nat, avail: nat, need: nat, nb: nat)
    requires 0 < unit && nb > 0 && avail > 0
    ensures var m := RbSearch(t, mcs, unit, avail, need, nb); m > 0 && (m <= avail || m == nb)
    decreases avail - nb
  {
    if GetTbsDl(t, mcs, nb) < need && nb + unit <= avail {
      RbSearchPositive(t, mcs, unit, avail, need, nb + unit);
    }
  }

  // ---------- a new block holds what it requested ----------

  /** If no scheme beats the highest, the block announced is as large as the need in the scheduler's 16-bit count if and
      only if the highest scheme is good enough on the resource blocks chosen. */
  lemma NewBlockLargeEnoughIff(t: TbsTable, cfg: CellConfig, target: Slot, ledger: Ledger, carry: Carry, u: Ue,
                               r: Report)
    requires Supported(cfg.bw) && ledger.symbols <= 3 && carry.mcs <= MAX_MCS && ValidReport(r)
    requires u.d.pre == Rbs(cfg.bw, u.d.mask)
    ensures var g := TakeTurn(t, cfg, target, ledger, carry, u, r).grant;
      g.Grant? && g.dci.round == 0 && TopIsBest(t, g.dci.nbRb) ==>
        var need := NewBlockNeed(t, carry, u, r);
        g.dci.tbs >= need <==> GetTbsDl(t, MAX_MCS, g.dci.nbRb) >= need
  {
    var g := TakeTurn(t, cfg, target, ledger, carry, u, r).grant;
    var need := NewBlockNeed(t, carry, u, r);
    NewBlockParts(t, cfg, target, ledger, carry, u, r);
    if g.Grant? && g.dci.round == 0 && TopIsBest(t, g.dci.nbRb) {
      FitReachesTop(t, g.dci.nbRb, need, SizingMcs(carry, r), need);
    }
  }

  /** The bytes of a new block's PDU, with a timing advance command of the given length. */
  function NewPdu(t: TbsTable, carry: Carry, u: Ue, r: Report, ta: nat): int {
    PduBytes(NewRequests(t, carry, u, r).requests, NewRequests(t, carry, u, r).last, ta)
  }

  /** The PDU is no larger than the need, unless its requests wrap the 16-bit count, and then no block can hold it. */
  lemma PduAgainstNeed(t: TbsTable, carry: Carry, u: Ue, r: Report)
    requires |u.queues| <= MAX_NUM_LC
    requires exists j :: 0 <= j < |NewRequests(t, carry, u, r).requests| && NewRequests(t, carry, u, r).requests[j] > 0
    ensures NewPdu(t, carry, u, r, OwnTa(u, r)) <= NewBlockNeed(t, carry, u, r)
         || NewPdu(t, carry, u, r, OwnTa(u, r)) > 0x1_0000
  {
    var tbs, rlc := GetTbsDl(t, SizingMcs(carry, r), u.d.pre), NewRequests(t, carry, u, r);
    var j :| 0 <= j < |rlc.requests| && rlc.requests[j] > 0;
    RequestsPositive(rlc.requests, |rlc.requests|, j);
    BytesNeededCoversPdu(tbs, OwnTa(u, r), u.queues);
    if Sum(rlc.requests) >= 0x1_0000 {
      WrappedPduIsHuge(tbs, OwnTa(u, r), u.queues);
    }
  }

  /** If no scheme beats the highest, as in every column of the table, a new block holds everything requested, with its
      subheaders and the UE's own timing advance command, if and only if the block of the highest scheme would: an
      overrun block is rescued exactly when there is a scheme to rescue it. */
  lemma NewBlockHoldsIff(t: TbsTable, cfg: CellConfig, target: Slot, ledger: Ledger, carry: Carry, u: Ue, r: Report)
    requires Supported(cfg.bw) && ledger.symbols <= 3 && carry.mcs <= MAX_MCS && ValidReport(r)
    requires u.d.pre == Rbs(cfg.bw, u.d.mask) && |u.queues| <= MAX_NUM_LC
    ensures var g := TakeTurn(t, cfg, target, ledger, carry, u, r).grant;
      g.Grant? && g.dci.round == 0 && TopIsBest(t, g.dci.nbRb) ==>
        && g.requests == NewRequests(t, carry, u, r).requests
        && (NewPdu(t, carry, u, r, OwnTa(u, r)) <= g.dci.tbs
            <==> NewPdu(t, carry, u, r, OwnTa(u, r)) <= GetTbsDl(t, MAX_MCS, g.dci.nbRb))
  {
    var g := TakeTurn(t, cfg, target, ledger, carry, u, r).grant;
    NewBlockParts(t, cfg, target, ledger, carry, u, r);
    if g.Grant? && g.dci.round == 0 && TopIsBest(t, g.dci.nbRb) {
      PduAgainstNeed(t, carry, u, r);
      FitReachesTop(t, g.dci.nbRb, NewBlockNeed(t, carry, u, r), SizingMcs(carry, r),
                    NewPdu(t, carry, u, r, OwnTa(u, r)));
    }
  }

  /** The channels of the UE leave room for each other (see BlockRespectedIff). */
  ghost predicate FitsItsChannels(t: TbsTable, carry: Carry, u: Ue, r: Report) {
    && |u.queues| <= MAX_NUM_LC
    && forall l :: LastBusy(u.queues, l) ==>
         LeavesRoom(GetTbsDl(t, SizingMcs(carry, r), u.d.pre), OwnTa(u, r), u.queues, l)
  }

  lemma {:induction false} RequestsPositive(s: seq<nat>, n: nat, j: nat)
    requires j < n <= |s| && s[j] > 0
    ensures SumBelow(s, n) > 0
  {
    if j < n - 1 {
      RequestsPositive(s, n - 1, j);
    }
  }

  lemma {:induction false} SomeLastBusy(qs: seq<nat>, n: nat) returns (l: int)
    requires n <= |qs| && forall j :: n <= j < |qs| ==> qs[j] == 0
    ensures l == -1 || (0 <= l < |qs| && LastBusy(qs, l))
    ensures l == -1 ==> forall j :: 0 <= j < |qs| ==> qs[j] == 0
  {
    if n == 0 {
      l := -1;
    } else if qs[n - 1] > 0 {
      l := n - 1;
    } else {
      l := SomeLastBusy(qs, n - 1);
    }
  }

  /** A block that is respected can carry its PDU. */
  lemma BlockFits(tbs: nat, ta: nat, qs: seq<nat>)
    requires Usual(tbs, ta, qs) && forall l :: LastBusy(qs, l) ==> LeavesRoom(tbs, ta, qs, l)
    requires exists j :: 0 <= j < |ServeAll(tbs, ta, qs).requests| && ServeAll(tbs, ta, qs).requests[j] > 0
    ensures var rlc := ServeAll(tbs, ta, qs);
      PduBytes(rlc.requests, rlc.last, ta) <= BytesNeeded(rlc, ta) <= tbs
  {
    var rlc := ServeAll(tbs, ta, qs);
    var j :| 0 <= j < |rlc.requests| && rlc.requests[j] > 0;
    RequestsConserve(tbs, ta, qs, |qs|);
    RequestsPositive(rlc.requests, |rlc.requests|, j);
    var l := SomeLastBusy(qs, |qs|);
    BlockRespectedIff(tbs, ta, qs, l);
    BytesNeededCoversPdu(tbs, ta, qs);
  }

  /** Sizing, resource block search and scheme search together, for queues of any size: unless the channels overrun
      the block, the block that is finally announced holds every requested byte with its subheaders, and the timing
      advance command if the UE's own turn made room for one or none is announced.  Monotonicity is not needed. */
  lemma NewBlockHoldsRequests(t: TbsTable, cfg: CellConfig, target: Slot, ledger: Ledger, carry: Carry, u: Ue,
                              r: Report)
    requires Supported(cfg.bw) && ledger.symbols <= 3 && carry.mcs <= MAX_MCS && ValidReport(r)
    requires u.d.pre == Rbs(cfg.bw, u.d.mask)
    requires FitsItsChannels(t, carry, u, r)
    ensures var g := TakeTurn(t, cfg, target, ledger, carry, u, r).grant;
      g.Grant? && g.dci.round == 0 ==>
        var last := NewRequests(t, carry, u, r).last;
        && NewBlockNeed(t, carry, u, r) <= g.dci.tbs
        && PduBytes(g.requests, last, OwnTa(u, r)) <= g.dci.tbs
        && (OwnTa(u, r) > 0 || !carry.taFlag ==> PduBytes(g.requests, last, AnnouncedTa(g.dci)) <= g.dci.tbs)
  {
    var g := TakeTurn(t, cfg, target, ledger, carry, u, r).grant;
    NewBlockParts(t, cfg, target, ledger, carry, u, r);
    if g.Grant? && g.dci.round == 0 {
      var mcs, need := SizingMcs(carry, r), NewBlockNeed(t, carry, u, r);
      BlockFits(GetTbsDl(t, mcs, u.d.pre), OwnTa(u, r), u.queues);
      RbSearchSuffices(t, mcs, MinRbUnit(cfg.bw), u.d.pre, need, FirstNbRb(cfg.bw, mcs));
      FitMcsKeepsEnough(t, g.dci.nbRb, need, mcs);
    }
  }

  /** The block holds the PDU with the command that its DCI announces, whoever's turn it is announced for, exactly as
      AlsoFits says: a command announced because of an earlier UE was not counted in the need. */
  lemma AnnouncedPduFitsIff(t: TbsTable, cfg: CellConfig, target: Slot, ledger: Ledger, carry: Carry, u: Ue, r: Report)
    requires Supported(cfg.bw) && ledger.symbols <= 3 && carry.mcs <= MAX_MCS && ValidReport(r)
    requires u.d.pre == Rbs(cfg.bw, u.d.mask) && |u.queues| <= MAX_NUM_LC
    ensures var g := TakeTurn(t, cfg, target, ledger, carry, u, r).grant;
      g.Grant? && g.dci.round == 0 && ColumnShape(t, g.dci.nbRb) ==>
        var pdu, need := NewPdu(t, carry, u, r, AnnouncedTa(g.dci)), NewBlockNeed(t, carry, u, r);
        pdu <= g.dci.tbs <==> AlsoFits(t, g.dci.nbRb, need, SizingMcs(carry, r), pdu)
  {
    var g := TakeTurn(t, cfg, target, ledger, carry, u, r).grant;
    NewBlockParts(t, cfg, target, ledger, carry, u, r);
    if g.Grant? && g.dci.round == 0 && ColumnShape(t, g.dci.nbRb) {
      PduAgainstNeed(t, carry, u, r);
      FitReachesIff(t, g.dci.nbRb, NewBlockNeed(t, carry, u, r), SizingMcs(carry, r),
                    NewPdu(t, carry, u, r, AnnouncedTa(g.dci)));
    }
  }

  // ---------- every turn of a slot ----------

  /** What a slot may be run on: sane memory and reports, and any order. */
  ghost predicate SlotInput(cfg: CellConfig, carry: Carry, ues: seq<Ue>, reports: seq<Report>, order: seq<nat>) {
    && Supported(cfg.bw) && |reports| == |ues| && ValidOrder(order, |ues|)
    && carry.mcs <= MAX_MCS && carry.aggregation <= 3
    && forall k :: 0 <= k < |ues| ==> ValidReport(reports[k]) && Sane(ues[k])
  }

  lemma ReadySane(t: TbsTable, bw: nat, ues: seq<Ue>, reports: seq<Report>, order: seq<nat>, k: nat)
    requires Supported(bw) && |reports| == |ues| && ValidOrder(order, |ues|) && k < |ues| && Sane(ues[k])
    ensures Sane(Preprocessed(t, bw, ues, reports, order)[k])
  {
    ReadyForTurn(t, bw, ues, reports, order, k);
  }

  lemma {:induction false} CarryInSlot(t: TbsTable, cfg: CellConfig, target: Slot, ledger: Ledger, carry: Carry,
                                       ready: seq<Ue>, reports: seq<Report>, k: nat)
    requires k <= |ready| == |reports| && ledger.symbols <= 3 && carry.mcs <= MAX_MCS && carry.aggregation <= 3
    requires forall j :: 0 <= j < k ==> ValidReport(reports[j]) && Sane(ready[j])
    ensures var c := BeforeTurn(t, cfg, target, ledger, carry, ready, reports, k).1;
      c.mcs <= MAX_MCS && c.aggregation <= 3
  {
    if k > 0 {
      CarryInSlot(t, cfg, target, ledger, carry, ready, reports, k - 1);
      var (l, c) := BeforeTurn(t, cfg, target, ledger, carry, ready, reports, k - 1);
      CarryStaysSane(t, cfg, target, l, c, ready[k - 1], reports[k - 1]);
    }
  }

  /** Turn k of a slot, as the lemmas on single turns want it. */
  lemma TurnInSlot(t: TbsTable, cfg: CellConfig, target: Slot, carry: Carry, ues: seq<Ue>, reports: seq<Report>,
                   order: seq<nat>, k: nat) returns (l: Ledger, c: Carry, u: Ue)
    requires SlotInput(cfg, carry, ues, reports, order) && k < |ues|
    ensures var ready := Preprocessed(t, cfg.bw, ues, reports, order);
      u == ready[k] && (l, c) == BeforeTurn(t, cfg, target, RoundStart(cfg, 0), carry, ready, reports, k)
    ensures l.symbols <= 3 && c.mcs <= MAX_MCS && c.aggregation <= 3 && Sane(u)
    ensures var turn := TakeTurn(t, cfg, target, l, c, u, reports[k]);
      var s := RunSlot(t, cfg, target, carry, ues, reports, order);
      s.grants[k] == turn.grant && s.ues[k] == turn.u
    ensures Ready(cfg.bw, Prepared(t, cfg.bw, ues, reports)[k], u)
  {
    var ready := Preprocessed(t, cfg.bw, ues, reports, order);
    forall j | 0 <= j < |ues|
      ensures Sane(ready[j])
    {
      ReadySane(t, cfg.bw, ues, reports, order, j);
    }
    CarryInSlot(t, cfg, target, RoundStart(cfg, 0), carry, ready, reports, k);
    ReadyForTurn(t, cfg.bw, ues, reports, order, k);
    var before := BeforeTurn(t, cfg, target, RoundStart(cfg, 0), carry, ready, reports, k);
    l, c, u := before.0, before.1, ready[k];
  }

  /** For every UE of a slot: no DCI without groups; a retransmission fits what the UE was given; the groups printed
      cover the announced resource blocks, by less than one group more, except exactly when a new block's search
      starts too high. */
  lemma SlotGrantsCover(t: TbsTable, cfg: CellConfig, target: Slot, carry: Carry, ues: seq<Ue>, reports: seq<Report>,
                        order: seq<nat>, k: nat)
    requires SlotInput(cfg, carry, ues, reports, order) && k < |ues|
    ensures var ready := Preprocessed(t, cfg.bw, ues, reports, order);
      var c := BeforeTurn(t, cfg, target, RoundStart(cfg, 0), carry, ready, reports, k).1;
      var g := RunSlot(t, cfg, target, carry, ues, reports, order).grants[k];
      g.Grant? ==>
        && 0 < ready[k].d.pre <= cfg.bw
        && (g.dci.round > 0 ==> 0 < g.dci.nbRb <= ready[k].d.pre)
        && (g.dci.nbRb <= Rbs(cfg.bw, Cover(cfg.bw, ready[k].d.mask, g.dci.nbRb)) < g.dci.nbRb + MinRbUnit(cfg.bw)
            <==> !(g.dci.round == 0 && StartsTooHigh(t, cfg.bw, c, ready[k], reports[k])))
  {
    var l, c, u := TurnInSlot(t, cfg, target, carry, ues, reports, order, k);
    GrantSize(t, cfg, target, l, c, u, reports[k]);
    GrantCoversItsBlock(t, cfg, target, l, c, u, reports[k]);
  }

  /** Resource blocks announced are between 1 and 100, so the shape of the table applies. */
  lemma GrantedColumn(t: TbsTable, cfg: CellConfig, target: Slot, ledger: Ledger, carry: Carry, u: Ue, r: Report)
    requires Supported(cfg.bw) && ledger.symbols <= 3 && TableShape(t)
    requires u.d.pre == Rbs(cfg.bw, u.d.mask)
    ensures var g := TakeTurn(t, cfg, target, ledger, carry, u, r).grant;
      g.Grant? && g.dci.round == 0 ==> ColumnShape(t, g.dci.nbRb) && TopIsBest(t, g.dci.nbRb)
  {
    var g := TakeTurn(t, cfg, target, ledger, carry, u, r).grant;
    NewBlockParts(t, cfg, target, ledger, carry, u, r);
    if g.Grant? && g.dci.round == 0 {
      UsedPlusFree(cfg.bw, u.d.mask);
      RbSearchPositive(t, SizingMcs(carry, r), MinRbUnit(cfg.bw), u.d.pre, NewBlockNeed(t, carry, u, r),
                       FirstNbRb(cfg.bw, SizingMcs(carry, r)));
      TopIsBestInColumn(t, g.dci.nbRb);
    }
  }

  /** For every UE of a slot, on a table of the real shape: a new block holds its PDU with the UE's own timing advance
      command exactly when the highest scheme's block would, and always unless its channels overrun it; and it holds the
      PDU with the command that is announced exactly as AlsoFits says. */
  lemma SlotBlocksHold(t: TbsTable, cfg: CellConfig, target: Slot, carry: Carry, ues: seq<Ue>, reports: seq<Report>,
                       order: seq<nat>, k: nat)
    requires SlotInput(cfg, carry, ues, reports, order) && k < |ues| && |ues[k].queues| <= MAX_NUM_LC && TableShape(t)
    ensures var ready := Preprocessed(t, cfg.bw, ues, reports, order);
      var c := BeforeTurn(t, cfg, target, RoundStart(cfg, 0), carry, ready, reports, k).1;
      var g := RunSlot(t, cfg, target, carry, ues, reports, order).grants[k];
      var u, r := ready[k], reports[k];
      var own, need, mcs := NewPdu(t, c, u, r, OwnTa(u, r)), NewBlockNeed(t, c, u, r), SizingMcs(c, r);
      g.Grant? && g.dci.round == 0 ==>
        var announced := NewPdu(t, c, u, r, AnnouncedTa(g.dci));
        && g.requests == NewRequests(t, c, u, r).requests
        && (own <= g.dci.tbs <==> own <= GetTbsDl(t, MAX_MCS, g.dci.nbRb))
        && (FitsItsChannels(t, c, u, r) ==> own <= g.dci.tbs)
        && (announced <= g.dci.tbs <==> AlsoFits(t, g.dci.nbRb, need, mcs, announced))
  {
    var l, c, u := TurnInSlot(t, cfg, target, carry, ues, reports, order, k);
    GrantedColumn(t, cfg, target, l, c, u, reports[k]);
    NewBlockHoldsIff(t, cfg, target, l, c, u, reports[k]);
    AnnouncedPduFitsIff(t, cfg, target, l, c, u, reports[k]);
    if FitsItsChannels(t, c, u, reports[k]) {
      NewBlockHoldsRequests(t, cfg, target, l, c, u, reports[k]);
    }
  }
}
