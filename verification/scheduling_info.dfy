/** The scheduler's mutable state: ue_scheduling_info, enb_scheduling_info and the part of ue_mac_rib_info it
    uses.  Each object is the row that its C++ counterpart keeps for one cell. */
module SchedulingInfo {
  import opened Words
  import opened ResourceGrid
  import opened Preprocessor
  import opened Pdcch
  import opened SlotTime
  import opened Downlink

  class UeSchedulingInfo {
    var taTimer: int
    var highPriority: bool
    var nbRbsRequired: uint16
    var nbRbsRequiredRemaining: uint16
    var nbRbsRequiredRemaining1: uint16
    var preNbRbsAvailable: uint16
    var pucchTpcTx: Slot
    const rballocSub: array<bool>
    const harq: array<HarqTx>

    ghost predicate Valid() {
      rballocSub.Length == N_RBG_MAX && harq.Length == MAX_NUM_HARQ
    }

    ghost function AsDemand(): Demand
      requires Valid()
      reads this, rballocSub
    {
      Demand(highPriority, nbRbsRequired, nbRbsRequiredRemaining1, nbRbsRequiredRemaining, preNbRbsAvailable,
                    rballocSub[..])
    }

    constructor ()
      ensures Valid() && fresh(rballocSub) && fresh(harq)
      ensures AsDemand() == Demand(true, 0, 0, 0, 0, NoGroups())
      ensures forall p :: 0 <= p < MAX_NUM_HARQ ==> harq[p] == HarqTx(0, 0, 0, 0, NoGroups())
      ensures taTimer == 20 && pucchTpcTx == Slot(0, 0)
    {
      taTimer := 20;
      highPriority := true;
      nbRbsRequired, nbRbsRequiredRemaining, nbRbsRequiredRemaining1, preNbRbsAvailable := 0, 0, 0, 0;
      pucchTpcTx := Slot(0, 0);
      rballocSub := new bool[N_RBG_MAX](_ => false);
      harq := new HarqTx[MAX_NUM_HARQ](_ => HarqTx(0, 0, 0, 0, NoGroups()));
      new;
      assert rballocSub[..] == NoGroups();
    }

    /** Forgets the allocation of the previous slot, keeps the HARQ memory. */
    method StartNewSchedulingRound()
      requires Valid()
      modifies this`nbRbsRequired, this`nbRbsRequiredRemaining, this`nbRbsRequiredRemaining1, this`preNbRbsAvailable,
               rballocSub, harq
      ensures AsDemand() == Demand(highPriority, 0, 0, 0, 0, NoGroups())
      ensures harq[..] == Cleared(old(harq[..]))
    {
      forall g | 0 <= g < N_RBG_MAX {
        rballocSub[g] := false;
      }
      nbRbsRequired, nbRbsRequiredRemaining, nbRbsRequiredRemaining1, preNbRbsAvailable := 0, 0, 0, 0;
      forall p | 0 <= p < MAX_NUM_HARQ {
        harq[p] := harq[p].(row := NoGroups());
      }
      assert rballocSub[..] == NoGroups();
    }
  }

  /** HARQ feedback and buffer status of a UE. */
  class UeMacRibInfo {
    const harq: array<HarqFeedback>
    var txQueueSizes: seq<nat>

    ghost predicate Valid() {
      harq.Length == MAX_NUM_HARQ
    }

    constructor ()
      ensures Valid() && fresh(harq)
      ensures forall p :: 0 <= p < MAX_NUM_HARQ ==> harq[p] == HarqFeedback(true, 0)
      ensures txQueueSizes == []
    {
      harq := new HarqFeedback[MAX_NUM_HARQ](_ => HarqFeedback(true, 0));
      txQueueSizes := [];
    }

    method UpdateDlSfInfo(pid: nat, statuses: seq<nat>)
      requires Valid() && pid < MAX_NUM_HARQ
      modifies harq
      ensures harq[..] == if statuses == [] then old(harq[..])
                          else old(harq[..])[pid := HarqFeedback(true, W8(statuses[0]))]
    {
      if |statuses| > 0 {
        harq[pid] := HarqFeedback(true, W8(statuses[0]));
      }
    }

    /** The free process with the lowest number, or -1. */
    method GetNextAvailableHarq() returns (pid: int)
      requires Valid()
      ensures pid == NextHarq(harq[..], 0)
    {
      for i := 0 to MAX_NUM_HARQ
        invariant NextHarq(harq[..], i) == NextHarq(harq[..], 0)
      {
        if harq[i].active {
          return i;
        }
      }
      return -1;
    }

    method HasAvailableHarq() returns (available: bool)
      requires Valid()
      ensures available == HasHarq(harq[..])
    {
      for i := 0 to MAX_NUM_HARQ
        invariant NextHarq(harq[..], i) == NextHarq(harq[..], 0)
      {
        if harq[i].active {
          return true;
        }
      }
      return false;
    }

    method HarqScheduled(pid: nat)
      requires Valid() && pid < MAX_NUM_HARQ
      modifies harq
      ensures harq[..] == old(harq[..])[pid := old(harq[pid]).(active := false)]
    {
      harq[pid] := harq[pid].(active := false);
    }
  }

  /** Group map and control channel ledger of a cell. */
  class EnbSchedulingInfo {
    const vrbMap: array<bool>
    var numPdcchSymbols: nat
    var nCceRem: nat
    var lastChecked: Slot

    ghost predicate Valid()
      reads this
    {
      vrbMap.Length == N_RBG_MAX && numPdcchSymbols <= 3
    }

    ghost function AsLedger(): Ledger
      reads this
    {
      Ledger(numPdcchSymbols, nCceRem)
    }

    constructor ()
      ensures Valid() && fresh(vrbMap)
    {
      vrbMap := new bool[N_RBG_MAX](_ => false);
      numPdcchSymbols, nCceRem := 0, 0;
      lastChecked := Slot(0, 0);
    }

    /** For target subframes other than 0 and 5, the only ones that are scheduled. */
    method StartNewSchedulingRound(cfg: CellConfig)
      requires Valid()
      modifies this`numPdcchSymbols, this`nCceRem, vrbMap
      ensures Valid() && AsLedger() == RoundStart(cfg, 0) && vrbMap[..] == NoGroups()
    {
      forall g | 0 <= g < N_RBG_MAX {
        vrbMap[g] := false;
      }
      numPdcchSymbols := 0;
      nCceRem := GetNcceMax(0, cfg);
      assert vrbMap[..] == NoGroups();
    }

    method IncreaseNumPdcchSymbols(cfg: CellConfig)
      requires Valid() && numPdcchSymbols < 3
      modifies this`numPdcchSymbols, this`nCceRem
      ensures Valid() && AsLedger() == IncreaseSymbols(cfg, old(AsLedger()))
    {
      var prev := GetNcceMax(numPdcchSymbols, cfg);
      numPdcchSymbols := W8(numPdcchSymbols + 1);
      nCceRem := W32(GetNcceMax(numPdcchSymbols, cfg) - W32(prev - nCceRem));
    }

    method AssignCce(n: nat)
      requires Valid()
      modifies this`nCceRem
      ensures Valid() && AsLedger() == Assign(old(AsLedger()), n)
    {
      nCceRem := W32(nCceRem - n);
    }

    /** CCE_allocation_infeasible: raises the number of symbols until the request fits.  The offset search it
        consults needs the ledger to be balanced, and then always succeeds. */
    method CceAllocationInfeasible(cfg: CellConfig, rnti: nat, aggregation: nat, subframe: nat, ghost used: nat)
        returns (infeasible: bool)
      requires Valid() && aggregation <= 3 && 1 <= rnti < 0x1_0000 && InBalance(cfg, AsLedger(), used)
      modifies this`numPdcchSymbols, this`nCceRem
      ensures Valid() && InBalance(cfg, AsLedger(), used)
      ensures (AsLedger(), !infeasible) == Reserve(cfg, old(AsLedger()), aggregation)
    {
      while true
        invariant Valid() && InBalance(cfg, AsLedger(), used)
        invariant Reserve(cfg, AsLedger(), aggregation) == Reserve(cfg, old(AsLedger()), aggregation)
        decreases 3 - numPdcchSymbols
      {
        if Cces(aggregation) > ToInt(nCceRem) {
          if numPdcchSymbols == 3 {
            return true;
          }
          IncreaseKeepsBalance(cfg, AsLedger(), used);
          IncreaseNumPdcchSymbols(cfg);
        } else {
          var nCceMax := GetNcceMax(numPdcchSymbols, cfg);
          var offset := GetNcceOffset(Cces(aggregation), nCceMax, rnti, subframe);
          if offset >= 0 {
            return false;
          }
          assert false;
        }
      }
    }
  }
}
