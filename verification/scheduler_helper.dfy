/** remote_scheduler_helper.cc on the mutable scheduling state: every loop of the downlink preprocessor, proved
    equal to the functions of modules Preprocessor and Downlink. */
module SchedulerHelper {
  import opened Words
  import opened ResourceGrid
  import opened Preprocessor
  import opened TransportBlock
  import opened RlcRequests
  import opened Downlink
  import opened SchedulingInfo

  // ---------- objects and their values ----------

  ghost function UeView(ue: UeSchedulingInfo, mac: UeMacRibInfo): Ue
    requires ue.Valid() && mac.Valid()
    reads ue, ue.rballocSub, ue.harq, mac, mac.harq
  {
    Ue(ue.AsDemand(), ue.harq[..], mac.harq[..], ue.taTimer, ue.pucchTpcTx, mac.txQueueSizes)
  }

  ghost predicate SeparateUes(ues: seq<UeSchedulingInfo>) {
    && (forall i :: 0 <= i < |ues| ==> ues[i].Valid())
    && forall i, j :: 0 <= i < |ues| && 0 <= j < |ues| && i != j ==>
         ues[i] != ues[j] && ues[i].rballocSub != ues[j].rballocSub && ues[i].harq != ues[j].harq
  }

  ghost predicate SeparateMacs(macs: seq<UeMacRibInfo>) {
    && (forall i :: 0 <= i < |macs| ==> macs[i].Valid())
    && forall i, j :: 0 <= i < |macs| && 0 <= j < |macs| && i != j ==>
         macs[i] != macs[j] && macs[i].harq != macs[j].harq
  }

  ghost predicate Outside(vrb: array<bool>, ues: seq<UeSchedulingInfo>) {
    vrb.Length == N_RBG_MAX && forall i :: 0 <= i < |ues| ==> vrb != ues[i].rballocSub
  }

  ghost predicate DemandsAre(ues: seq<UeSchedulingInfo>, ds: seq<Demand>)
    requires SeparateUes(ues)
    reads ues, set u | u in ues :: u.rballocSub
  {
    |ds| == |ues| && forall i :: 0 <= i < |ues| ==> ues[i].AsDemand() == ds[i]
  }

  /** The indices 0..n-1, each exactly once: what sort_UEs returns. */
  ghost predicate Permutation(order: seq<nat>, n: nat) {
    && ValidOrder(order, n)
    && (forall i, j :: 0 <= i < j < |order| ==> order[i] != order[j])
    && (forall i :: 0 <= i < n ==> i in order)
  }

  /** When each index is visited. */
  ghost function Positions(order: seq<nat>, n: nat): (r: seq<nat>)
    requires Permutation(order, n)
    ensures |r| == n && forall j :: 0 <= j < n ==> r[j] == PositionOf(order, j)
  {
    seq(n, j requires 0 <= j < n => PositionOf(order, j))
  }

  /** Step k of the visit changes the status of order[k] and of no other index. */
  lemma VisitStep(order: seq<nat>, n: nat, k: nat, j: nat)
    requires Permutation(order, n) && k < |order| && j < n
    ensures Positions(order, n)[j] == k <==> j == order[k]
  {
  }

  // ---------- allocation ----------

  method PerformPreProcessorAllocation(bw: nat, vrb: array<bool>, ue: UeSchedulingInfo)
    requires ue.Valid() && Outside(vrb, [ue])
    modifies vrb, ue.rballocSub, ue`nbRbsRequiredRemaining, ue`preNbRbsAvailable
    ensures Share(vrb[..], ue.AsDemand()) == AllocateBelow(bw, old(Share(vrb[..], ue.AsDemand())), NbRbg(bw))
  {
    assert vrb != ue.rballocSub by {
      assert [ue][0] == ue;
    }
    ghost var start := Share(vrb[..], ue.AsDemand());
    var unit := MinRbUnit(bw);
    for i := 0 to NbRbg(bw)
      invariant Share(vrb[..], ue.AsDemand()) == AllocateBelow(bw, start, i)
    {
      ghost var before := Share(vrb[..], ue.AsDemand());
      if !vrb[i] && !ue.rballocSub[i] && ue.nbRbsRequiredRemaining > 0 && ue.preNbRbsAvailable < ue.nbRbsRequired {
        if i == NbRbg(bw) - 1 && (bw == 25 || bw == 50) {
          vrb[i] := true;
          ue.rballocSub[i] := true;
          var rem := ue.nbRbsRequiredRemaining - unit + 1;
          ue.nbRbsRequiredRemaining := if rem <= 0 then 0 else W16(rem);
          rem := ue.preNbRbsAvailable + unit - 1;
          ue.preNbRbsAvailable := W16(rem);
        } else if ue.nbRbsRequiredRemaining >= unit {
          vrb[i] := true;
          ue.rballocSub[i] := true;
          var rem := ue.nbRbsRequiredRemaining - unit;
          ue.nbRbsRequiredRemaining := if rem <= 0 then 0 else W16(rem);
          rem := ue.preNbRbsAvailable + unit;
          ue.preNbRbsAvailable := W16(rem);
        }
      }
      assert Share(vrb[..], ue.AsDemand()) == TakeGroup(bw, before, i);
    }
  }

  /** One of the two loops over the sorted UEs that allocate to one priority. */
  method AllocatePass(bw: nat, vrb: array<bool>, ues: seq<UeSchedulingInfo>, order: seq<nat>, high: bool, ghost c: Cell)
    requires SeparateUes(ues) && Outside(vrb, ues) && ValidOrder(order, |ues|)
    requires c.vrb == vrb[..] && DemandsAre(ues, c.ues)
    modifies vrb, (set u | u in ues :: u.rballocSub), (set u | u in ues)`nbRbsRequiredRemaining,
             (set u | u in ues)`preNbRbsAvailable
    ensures vrb[..] == Pass(bw, c, order, high).vrb && DemandsAre(ues, Pass(bw, c, order, high).ues)
  {
    assert order[..|order|] == order;
    for k := 0 to |order|
      invariant vrb[..] == Pass(bw, c, order[..k], high).vrb
      invariant DemandsAre(ues, Pass(bw, c, order[..k], high).ues)
    {
      ghost var p := Pass(bw, c, order[..k], high);
      var i := order[k];
      assert order[..k + 1][..k] == order[..k];
      if ues[i].highPriority == high && ues[i].nbRbsRequired > 0 {
        PerformPreProcessorAllocation(bw, vrb, ues[i]);
        assert Share(vrb[..], ues[i].AsDemand()) == AllocateBelow(bw, Share(p.vrb, p.ues[i]), NbRbg(bw));
        forall j | 0 <= j < |ues| && j != i
          ensures ues[j].AsDemand() == p.ues[j]
        {
        }
      }
    }
  }

  method SetCaps(average: uint16, ues: seq<UeSchedulingInfo>, order: seq<nat>, ghost ds: seq<Demand>)
    requires SeparateUes(ues) && Permutation(order, |ues|) && DemandsAre(ues, ds)
    modifies (set u | u in ues)`nbRbsRequiredRemaining1
    ensures DemandsAre(ues, Capped(average, ds))
  {
    ghost var visit := Positions(order, |ues|);
    for k := 0 to |order|
      invariant forall j :: 0 <= j < |ues| ==>
        ues[j].AsDemand() == if visit[j] < k then WithCap(average, ds[j]) else ds[j]
    {
      var ue := ues[order[k]];
      forall j | 0 <= j < |ues| ensures visit[j] == k <==> j == order[k] {
        VisitStep(order, |ues|, k, j);
      }
      if ue.nbRbsRequired > 0 {
        if ue.highPriority {
          ue.nbRbsRequiredRemaining1 := ue.nbRbsRequired;
        } else {
          ue.nbRbsRequiredRemaining1 := Min(average, ue.nbRbsRequired);
        }
      }
    }
  }

  method RefillRemaining(round: nat, ues: seq<UeSchedulingInfo>, order: seq<nat>, ghost ds: seq<Demand>)
    requires SeparateUes(ues) && Permutation(order, |ues|) && DemandsAre(ues, ds)
    modifies (set u | u in ues)`nbRbsRequiredRemaining
    ensures DemandsAre(ues, Refill(round, ds))
  {
    ghost var visit := Positions(order, |ues|);
    for k := 0 to |order|
      invariant forall j :: 0 <= j < |ues| ==>
        ues[j].AsDemand() == if visit[j] < k then Refilled(round, ds[j]) else ds[j]
    {
      var ue := ues[order[k]];
      forall j | 0 <= j < |ues| ensures visit[j] == k <==> j == order[k] {
        VisitStep(order, |ues|, k, j);
      }
      if ue.nbRbsRequired > 0 {
        if round == 0 {
          ue.nbRbsRequiredRemaining := ue.nbRbsRequiredRemaining1;
        } else {
          ue.nbRbsRequiredRemaining := W16(ue.nbRbsRequired - ue.nbRbsRequiredRemaining1 + ue.nbRbsRequiredRemaining);
        }
      }
    }
  }

  /** The caps and the two allocation rounds. */
  method AllocateRounds(bw: nat, vrb: array<bool>, ues: seq<UeSchedulingInfo>, order: seq<nat>, total: nat,
                        ghost ds: seq<Demand>)
    requires SeparateUes(ues) && Outside(vrb, ues) && Permutation(order, |ues|) && DemandsAre(ues, ds)
    modifies vrb, (set u | u in ues :: u.rballocSub), (set u | u in ues)`nbRbsRequiredRemaining,
             (set u | u in ues)`nbRbsRequiredRemaining1, (set u | u in ues)`preNbRbsAvailable
    ensures var r := Preprocess(bw, old(vrb[..]), ds, total, order); vrb[..] == r.vrb && DemandsAre(ues, r.ues)
  {
    ghost var reserved: Groups := vrb[..];
    var average: uint16 := 0;
    if total == 0 {
      average := 0;
    } else if MinRbUnit(bw) * total <= bw {
      average := W16(bw / total);
    } else {
      average := MinRbUnit(bw);
    }
    SetCaps(average, ues, order, ds);
    ghost var start := Cell(reserved, Capped(AverageRbs(bw, total), ds));
    ghost var c := start;
    for round := 0 to 2
      invariant c == if round == 0 then start
                     else if round == 1 then Round(bw, start, order, total, 0)
                     else Preprocess(bw, reserved, ds, total, order)
      invariant vrb[..] == c.vrb && DemandsAre(ues, c.ues)
    {
      RefillRemaining(round, ues, order, c.ues);
      ghost var c1 := Cell(c.vrb, Refill(round, c.ues));
      if total > 0 {
        AllocatePass(bw, vrb, ues, order, true, c1);
        AllocatePass(bw, vrb, ues, order, false, Pass(bw, c1, order, true));
      }
      c := Round(bw, c, order, total, round);
    }
  }

  // ---------- demand ----------

  ghost predicate UesAre(ues: seq<UeSchedulingInfo>, macs: seq<UeMacRibInfo>, us: seq<Ue>)
    requires SeparateUes(ues) && SeparateMacs(macs) && |macs| == |ues|
    reads ues, (set u | u in ues :: u.rballocSub), (set u | u in ues :: u.harq), macs, (set m | m in macs :: m.harq)
  {
    |us| == |ues| && forall i :: 0 <= i < |ues| ==> UeView(ues[i], macs[i]) == us[i]
  }

  /** The second half of assign_rbs_required: resource blocks for a positive number of bytes. */
  method GrowRbsRequired(t: TbsTable, bw: nat, ue: UeSchedulingInfo, mcs: nat, bytes: nat)
    requires ue.Valid() && Supported(bw) && bytes > 0
    modifies ue`nbRbsRequired
    ensures ue.nbRbsRequired == SizedRbs(t, bw, mcs, bytes)
  {
    if mcs == 0 {
      ue.nbRbsRequired := 4;
    } else {
      ue.nbRbsRequired := MinRbUnit(bw);
    }
    var tbs := GetTbsDl(t, mcs, ue.nbRbsRequired);
    while tbs < bytes
      invariant ue.nbRbsRequired <= 100 && tbs == GetTbsDl(t, mcs, ue.nbRbsRequired)
      invariant RbSearch(t, mcs, MinRbUnit(bw), bw, bytes, ue.nbRbsRequired)
             == RbSearch(t, mcs, MinRbUnit(bw), bw, bytes, FirstNbRb(bw, mcs))
      decreases bw - ue.nbRbsRequired
    {
      ue.nbRbsRequired := ue.nbRbsRequired + MinRbUnit(bw);
      if ue.nbRbsRequired > bw {
        tbs := GetTbsDl(t, mcs, bw);
        ue.nbRbsRequired := bw;
        break;
      }
      tbs := GetTbsDl(t, mcs, ue.nbRbsRequired);
    }
  }

  /** assign_rbs_required; it runs for UEs that have an LC entry. */
  method AssignRbsRequired(t: TbsTable, bw: nat, ue: UeSchedulingInfo, mac: UeMacRibInfo, r: Report)
    requires ue.Valid() && mac.Valid() && Supported(bw) && r.lcs.LcEntry? && ue.nbRbsRequired == 0
    modifies ue`nbRbsRequired, ue`highPriority
    ensures ue.highPriority == if |mac.txQueueSizes| > 0 then r.lcs.count <= 2 else old(ue.highPriority)
    ensures ue.nbRbsRequired == SizedRbs(t, bw, if r.csi.Csi? then r.csi.mcs else 0, Sum(mac.txQueueSizes))
  {
    var mcs := 0;
    if r.csi.Csi? {
      mcs := r.csi.mcs;
    }
    var queues := mac.txQueueSizes;
    var bytes := 0;
    for i := 0 to |queues|
      invariant bytes == SumBelow(queues, i) && ue.nbRbsRequired == 0
      invariant ue.highPriority == if i > 0 then r.lcs.count <= 2 else old(ue.highPriority)
    {
      ue.highPriority := !(r.lcs.count > 2);
      bytes := bytes + queues[i];
    }
    if bytes > 0 {
      GrowRbsRequired(t, bw, ue, mcs, bytes);
    }
  }

  /** The first loop's body: reset a UE and size its demand. */
  method SizeUe(t: TbsTable, bw: nat, ues: seq<UeSchedulingInfo>, macs: seq<UeMacRibInfo>, i: nat, r: Report,
                ghost us: seq<Ue>)
    requires Supported(bw) && SeparateUes(ues) && SeparateMacs(macs) && |macs| == |ues| && i < |ues|
    requires UesAre(ues, macs, us)
    modifies ues[i], ues[i].rballocSub, ues[i].harq
    ensures |us| == |ues| && UesAre(ues, macs, us[i := Sized(t, bw, us[i], r)])
  {
    var ue, mac := ues[i], macs[i];
    assert UeView(ue, mac) == us[i];
    ue.StartNewSchedulingRound();
    if r.lcs.LcEntry? {
      AssignRbsRequired(t, bw, ue, mac, r);
    }
    assert UeView(ue, mac) == Sized(t, bw, us[i], r);
    forall j | 0 <= j < |ues| && j != i
      ensures UeView(ues[j], macs[j]) == us[j]
    {
      assert old(UeView(ues[j], macs[j])) == us[j];
    }
  }

  /** First loop of the preprocessor. */
  method SizeUes(t: TbsTable, bw: nat, ues: seq<UeSchedulingInfo>, macs: seq<UeMacRibInfo>, reports: seq<Report>,
                 ghost us: seq<Ue>)
    requires Supported(bw) && SeparateUes(ues) && SeparateMacs(macs) && |reports| == |macs| == |ues|
    requires UesAre(ues, macs, us)
    modifies ues, (set u | u in ues :: u.rballocSub), (set u | u in ues :: u.harq)
    ensures |us| == |ues|
    ensures UesAre(ues, macs, seq(|us|, i requires 0 <= i < |us| => Sized(t, bw, us[i], reports[i])))
  {
    ghost var current := us;
    for i := 0 to |ues|
      invariant UesAre(ues, macs, current)
      invariant forall j :: 0 <= j < |us| ==> current[j] == if j < i then Sized(t, bw, us[j], reports[j]) else us[j]
    {
      SizeUe(t, bw, ues, macs, i, reports[i], current);
      current := current[i := Sized(t, bw, us[i], reports[i])];
    }
    assert current == seq(|us|, i requires 0 <= i < |us| => Sized(t, bw, us[i], reports[i]));
  }

  /** The second loop's body: the HARQ process a UE would use decides what it needs. */
  method ReadHarqOf(ue: UeSchedulingInfo, mac: UeMacRibInfo, ghost u: Ue) returns (active: bool)
    requires ue.Valid() && mac.Valid() && UeView(ue, mac) == u
    modifies ue`nbRbsRequired, ue.harq
    ensures UeView(ue, mac) == WithHarq(u) && active == Active(WithHarq(u))
  {
    var available := mac.HasAvailableHarq();
    if !available {
      return false;
    }
    var pid := mac.GetNextAvailableHarq();
    if mac.harq[pid].status > 0 {
      ue.nbRbsRequired := ue.harq[pid].nbRb;
    } else {
      ue.harq[pid] := ue.harq[pid].(nbRb := 0);
    }
    return ue.nbRbsRequired > 0;
  }

  method ReadHarqAt(ues: seq<UeSchedulingInfo>, macs: seq<UeMacRibInfo>, i: nat,
                    ghost us: seq<Ue>) returns (active: bool)
    requires SeparateUes(ues) && SeparateMacs(macs) && |macs| == |ues| && i < |ues|
    requires UesAre(ues, macs, us)
    modifies {ues[i]}`nbRbsRequired, ues[i].harq
    ensures |us| == |ues| && UesAre(ues, macs, us[i := WithHarq(us[i])]) && active == Active(WithHarq(us[i]))
  {
    active := ReadHarqOf(ues[i], macs[i], us[i]);
    forall j | 0 <= j < |ues| && j != i
      ensures UeView(ues[j], macs[j]) == us[j]
    {
      assert old(UeView(ues[j], macs[j])) == us[j];
    }
  }

  /** The UEs when those visited before step k have their new values. */
  ghost function Partly(before: seq<Ue>, after: seq<Ue>, visit: seq<nat>, k: nat): (r: seq<Ue>)
    requires |before| == |after| == |visit|
    ensures |r| == |before|
  {
    seq(|before|, j requires 0 <= j < |before| => if visit[j] < k then after[j] else before[j])
  }

  lemma PartlyEnds(before: seq<Ue>, after: seq<Ue>, order: seq<nat>)
    requires |before| == |after| && Permutation(order, |before|)
    ensures var visit := Positions(order, |before|);
      Partly(before, after, visit, 0) == before && Partly(before, after, visit, |order|) == after
  {
  }

  lemma PartlyStep(before: seq<Ue>, after: seq<Ue>, order: seq<nat>, k: nat)
    requires |before| == |after| && Permutation(order, |before|) && k < |order|
    ensures var visit := Positions(order, |before|);
      && Partly(before, after, visit, k)[order[k]] == before[order[k]]
      && Partly(before, after, visit, k + 1) == Partly(before, after, visit, k)[order[k] := after[order[k]]]
  {
    var visit := Positions(order, |before|);
    forall j | 0 <= j < |before| ensures visit[j] == k <==> j == order[k] {
      VisitStep(order, |before|, k, j);
    }
  }

  /** Active UEs among the first k visited. */
  ghost function ActiveAmong(us: seq<Ue>, visit: seq<nat>, k: nat): set<nat>
    requires |visit| == |us|
  {
    set i: nat | i < |us| && visit[i] < k && Active(us[i])
  }

  lemma ActiveAmongStep(us: seq<Ue>, order: seq<nat>, k: nat)
    requires Permutation(order, |us|) && k < |order|
    ensures var visit := Positions(order, |us|);
      |ActiveAmong(us, visit, k + 1)| == |ActiveAmong(us, visit, k)| + if Active(us[order[k]]) then 1 else 0
  {
    var visit := Positions(order, |us|);
    forall j | 0 <= j < |us| ensures visit[j] == k <==> j == order[k] {
      VisitStep(order, |us|, k, j);
    }
    if Active(us[order[k]]) {
      assert ActiveAmong(us, visit, k + 1) == ActiveAmong(us, visit, k) + {order[k]};
    } else {
      assert ActiveAmong(us, visit, k + 1) == ActiveAmong(us, visit, k);
    }
  }

  lemma ActiveAmongAll(us: seq<Ue>, order: seq<nat>)
    requires Permutation(order, |us|)
    ensures |ActiveAmong(us, Positions(order, |us|), 0)| == 0
    ensures |ActiveAmong(us, Positions(order, |us|), |order|)| == ActiveCount(us)
  {
    assert ActiveAmong(us, Positions(order, |us|), 0) == {};
    assert ActiveAmong(us, Positions(order, |us|), |order|) == set i | 0 <= i < |us| && Active(us[i]);
  }

  ghost predicate HarqRead(us: seq<Ue>, prepared: seq<Ue>) {
    |prepared| == |us| && forall i :: 0 <= i < |us| ==> prepared[i] == WithHarq(us[i])
  }

  /** One visit of the second loop. */
  method VisitHarq(ues: seq<UeSchedulingInfo>, macs: seq<UeMacRibInfo>, order: seq<nat>, k: nat, total: nat,
                   ghost us: seq<Ue>, ghost prepared: seq<Ue>) returns (total': nat)
    requires SeparateUes(ues) && SeparateMacs(macs) && |macs| == |ues| == |us| == |prepared|
    requires Permutation(order, |us|) && k < |order| && prepared[order[k]] == WithHarq(us[order[k]])
    requires UesAre(ues, macs, Partly(us, prepared, Positions(order, |us|), k))
    requires total == |ActiveAmong(prepared, Positions(order, |us|), k)|
    modifies {ues[order[k]]}`nbRbsRequired, ues[order[k]].harq
    ensures UesAre(ues, macs, Partly(us, prepared, Positions(order, |us|), k + 1))
    ensures total' == |ActiveAmong(prepared, Positions(order, |us|), k + 1)|
  {
    PartlyStep(us, prepared, order, k);
    ActiveAmongStep(prepared, order, k);
    var active := ReadHarqAt(ues, macs, order[k], Partly(us, prepared, Positions(order, |us|), k));
    total' := if active then total + 1 else total;
  }

  /** Second loop of the preprocessor; counts the active UEs. */
  method ReadHarq(ues: seq<UeSchedulingInfo>, macs: seq<UeMacRibInfo>, order: seq<nat>, ghost us: seq<Ue>,
                  ghost prepared: seq<Ue>)
      returns (total: nat)
    requires SeparateUes(ues) && SeparateMacs(macs) && |macs| == |ues| == |us| == |prepared| && Permutation(order, |us|)
    requires UesAre(ues, macs, us) && HarqRead(us, prepared)
    modifies (set u | u in ues)`nbRbsRequired, (set u | u in ues :: u.harq)
    ensures UesAre(ues, macs, prepared) && total == ActiveCount(prepared)
  {
    PartlyEnds(us, prepared, order);
    ActiveAmongAll(prepared, order);
    total := 0;
    for k := 0 to |order|
      invariant UesAre(ues, macs, Partly(us, prepared, Positions(order, |us|), k))
      invariant total == |ActiveAmong(prepared, Positions(order, |us|), k)|
    {
      total := VisitHarq(ues, macs, order, k, total, us, prepared);
    }
  }

  /** The rounds change nothing but each UE's demand. */
  method AllocateForUes(bw: nat, vrb: array<bool>, ues: seq<UeSchedulingInfo>, macs: seq<UeMacRibInfo>,
                        order: seq<nat>, total: nat, ghost us: seq<Ue>)
    requires SeparateUes(ues) && SeparateMacs(macs) && |macs| == |ues|
    requires Outside(vrb, ues) && Permutation(order, |ues|) && UesAre(ues, macs, us)
    modifies vrb, (set u | u in ues :: u.rballocSub), (set u | u in ues)`nbRbsRequiredRemaining,
             (set u | u in ues)`nbRbsRequiredRemaining1, (set u | u in ues)`preNbRbsAvailable
    ensures UesAre(ues, macs, WithDemands(us, Preprocess(bw, old(vrb[..]), Demands(us), total, order).ues))
  {
    AllocateRounds(bw, vrb, ues, order, total, Demands(us));
    ghost var after := WithDemands(us, Preprocess(bw, old(vrb[..]), Demands(us), total, order).ues);
    forall i | 0 <= i < |ues|
      ensures UeView(ues[i], macs[i]) == after[i]
    {
      assert old(UeView(ues[i], macs[i])) == us[i];
    }
  }

  /** run_dlsch_scheduler_preprocessor for one cell. */
  method RunDlschSchedulerPreprocessor(t: TbsTable, bw: nat, vrb: array<bool>, ues: seq<UeSchedulingInfo>,
                                       macs: seq<UeMacRibInfo>,
                                       reports: seq<Report>, order: seq<nat>, ghost us: seq<Ue>)
    requires Supported(bw) && SeparateUes(ues) && SeparateMacs(macs) && |reports| == |macs| == |ues|
    requires Outside(vrb, ues) && vrb[..] == NoGroups() && Permutation(order, |ues|)
    requires UesAre(ues, macs, us)
    modifies vrb, ues, (set u | u in ues :: u.rballocSub), (set u | u in ues :: u.harq)
    ensures |us| == |ues| && UesAre(ues, macs, Preprocessed(t, bw, us, reports, order))
  {
    SizeUes(t, bw, ues, macs, reports, us);
    ghost var sized := seq(|us|, i requires 0 <= i < |us| => Sized(t, bw, us[i], reports[i]));
    ghost var prepared := Prepared(t, bw, us, reports);
    var total := ReadHarq(ues, macs, order, sized, prepared);
    AllocateForUes(bw, vrb, ues, macs, order, total, prepared);
  }
}
