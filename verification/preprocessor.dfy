/** What run_dlsch_scheduler_preprocessor and perform_pre_processor_allocation compute, as functions on
    values, and the properties of the resulting allocation.  The methods of module SchedulerHelper are
    proved equal to these functions. */
module Preprocessor {
  import opened Words
  import opened ResourceGrid

  /** The per-cell row of ue_scheduling_info that the preprocessor reads and writes: nb_rbs_required_,
      nb_rbs_required_remaining_1_ (cap), nb_rbs_required_remaining_ (left), pre_nb_rbs_available_ and
      rballoc_sub_. */
  datatype Demand = Demand(high: bool, required: uint16, cap: uint16, left: uint16, pre: uint16, mask: Groups)

  /** The carrier's group map together with one UE. */
  datatype Share = Share(vrb: Groups, d: Demand)

  /** The carrier's group map together with all UEs of the cell. */
  datatype Cell = Cell(vrb: Groups, ues: seq<Demand>)

  // ---------- the computation ----------

  /** One iteration of the loop of perform_pre_processor_allocation. */
  function TakeGroup(bw: nat, s: Share, g: nat): Share
    requires g < N_RBG_MAX
  {
    var unit := MinRbUnit(bw);
    if !s.vrb[g] && !s.d.mask[g] && s.d.left > 0 && s.d.pre < s.d.required then
      if ShortGroup(bw, g) then
        var rem := s.d.left - unit + 1;
        Share(s.vrb[g := true],
              s.d.(mask := s.d.mask[g := true],
                   left := if rem <= 0 then 0 else W16(rem),
                   pre := W16(s.d.pre + unit - 1)))
      else if s.d.left >= unit then
        var rem := s.d.left - unit;
        Share(s.vrb[g := true],
              s.d.(mask := s.d.mask[g := true],
                   left := if rem <= 0 then 0 else W16(rem),
                   pre := W16(s.d.pre + unit)))
      else s
    else s
  }

  function AllocateBelow(bw: nat, s: Share, n: nat): Share
    requires n <= N_RBG_MAX
  {
    if n == 0 then s else TakeGroup(bw, AllocateBelow(bw, s, n - 1), n - 1)
  }

  function AllocateTo(bw: nat, c: Cell, i: nat): (r: Cell)
    requires i < |c.ues|
    ensures |r.ues| == |c.ues|
  {
    var s := AllocateBelow(bw, Share(c.vrb, c.ues[i]), NbRbg(bw));
    Cell(s.vrb, c.ues[i := s.d])
  }

  ghost predicate ValidOrder(order: seq<nat>, n: nat) {
    forall k :: 0 <= k < |order| ==> order[k] < n
  }

  /** Where a list of indices has this one. */
  ghost function PositionOf(order: seq<nat>, j: nat): (k: nat)
    requires j in order
    ensures k < |order| && order[k] == j
  {
    var k :| 0 <= k < |order| && order[k] == j;
    k
  }

  /** One pass over the UEs of one priority, in the order given. */
  function Pass(bw: nat, c: Cell, order: seq<nat>, high: bool): (r: Cell)
    requires ValidOrder(order, |c.ues|)
    ensures |r.ues| == |c.ues|
  {
    if order == [] then c
    else
      var p := Pass(bw, c, order[..|order| - 1], high);
      var i := order[|order| - 1];
      if p.ues[i].high == high && p.ues[i].required > 0 then AllocateTo(bw, p, i) else p
  }

  function AverageRbs(bw: nat, total: nat): uint16
  {
    if total == 0 then 0
    else if MinRbUnit(bw) * total <= bw then W16(bw / total)
    else MinRbUnit(bw)
  }

  function WithCap(average: uint16, d: Demand): Demand {
    if d.required <= 0 then d
    else d.(cap := if d.high then d.required else Min(average, d.required))
  }

  function Refilled(round: nat, d: Demand): Demand {
    if d.required <= 0 then d
    else if round == 0 then d.(left := d.cap)
    else d.(left := W16(d.required - d.cap + d.left))
  }

  function Capped(average: uint16, ues: seq<Demand>): (r: seq<Demand>)
    ensures |r| == |ues| && forall u :: 0 <= u < |ues| ==> r[u] == WithCap(average, ues[u])
  {
    seq(|ues|, u requires 0 <= u < |ues| => WithCap(average, ues[u]))
  }

  function Refill(round: nat, ues: seq<Demand>): (r: seq<Demand>)
    ensures |r| == |ues| && forall u :: 0 <= u < |ues| ==> r[u] == Refilled(round, ues[u])
  {
    seq(|ues|, u requires 0 <= u < |ues| => Refilled(round, ues[u]))
  }

  /** One of the two rounds: refill the remaining demand, then high priority UEs, then the rest. */
  function Round(bw: nat, c: Cell, order: seq<nat>, total: nat, round: nat): (r: Cell)
    requires ValidOrder(order, |c.ues|)
    ensures |r.ues| == |c.ues|
  {
    var c1 := Cell(c.vrb, Refill(round, c.ues));
    if total > 0 then Pass(bw, Pass(bw, c1, order, true), order, false) else c1
  }

  function Preprocess(bw: nat, reserved: Groups, ues: seq<Demand>, total: nat, order: seq<nat>): (r: Cell)
    requires ValidOrder(order, |ues|)
    ensures |r.ues| == |ues|
  {
    var c := Cell(reserved, Capped(AverageRbs(bw, total), ues));
    Round(bw, Round(bw, c, order, total, 0), order, total, 1)
  }

  // ---------- one UE ----------

  /** r extends s: whatever r's UE took was free in s, and the map changed in exactly those groups. */
  ghost predicate Grows(s: Share, r: Share) {
    && r.d == s.d.(left := r.d.left, pre := r.d.pre, mask := r.d.mask)
    && (forall g :: 0 <= g < N_RBG_MAX && s.d.mask[g] ==> r.d.mask[g])
    && (forall g :: 0 <= g < N_RBG_MAX && s.vrb[g] ==> r.vrb[g])
    && (forall g :: 0 <= g < N_RBG_MAX ==>
          (r.vrb[g] && !s.vrb[g] <==> r.d.mask[g] && !s.d.mask[g]))
  }

  /** The demand counter agrees with the groups taken: it still owes target RBs in all, or one more when
      the two-RB last group of a 50 RB carrier was taken against a demand of one. */
  ghost predicate Balanced(bw: nat, d: Demand, target: int) {
    || d.pre + d.left == target
    || (bw == 50 && d.mask[NbRbg(bw) - 1] && d.pre + d.left == target + 1)
  }

  /** No free group below n could still be given to d. */
  ghost predicate Saturated(bw: nat, vrb: Groups, d: Demand, n: nat)
    requires n <= N_RBG_MAX
  {
    forall g :: 0 <= g < n && !vrb[g] ==>
      || d.pre >= d.required
      || (if ShortGroup(bw, g) then d.left == 0 else d.left < MinRbUnit(bw))
  }

  lemma TakeGroupCounts(bw: nat, s: Share, g: nat, target: int)
    requires Supported(bw) && g < NbRbg(bw)
    requires s.d.pre == Rbs(bw, s.d.mask)
    requires Balanced(bw, s.d, target)
    ensures var r := TakeGroup(bw, s, g);
      && r.d.pre == Rbs(bw, r.d.mask)
      && Rbs(bw, r.vrb) - Rbs(bw, s.vrb) == r.d.pre - s.d.pre
      && Balanced(bw, r.d, target)
      && s.d.pre <= r.d.pre && r.d.left <= s.d.left
  {
    var r := TakeGroup(bw, s, g);
    if r != s {
      UsedPlusFree(bw, s.d.mask);
      RbsBelowSet(bw, s.d.mask, g, NbRbg(bw));
      RbsBelowSet(bw, s.vrb, g, NbRbg(bw));
    }
  }

  lemma TakeGroupGrows(bw: nat, s: Share, g: nat)
    requires g < N_RBG_MAX
    ensures Grows(s, TakeGroup(bw, s, g))
  {
  }

  lemma GrowsTransitive(s: Share, t: Share, r: Share)
    requires Grows(s, t) && Grows(t, r)
    ensures Grows(s, r)
  {
  }

  lemma TakeGroupSaturates(bw: nat, s: Share, g: nat)
    requires g < NbRbg(bw)
    requires forall k :: 0 <= k < N_RBG_MAX && s.d.mask[k] ==> s.vrb[k]
    requires Saturated(bw, s.vrb, s.d, g)
    requires var r := TakeGroup(bw, s, g); s.d.pre <= r.d.pre && r.d.left <= s.d.left
    ensures var r := TakeGroup(bw, s, g); Saturated(bw, r.vrb, r.d, g + 1)
  {
  }

  lemma {:induction false} AllocateBelowGrows(bw: nat, s: Share, n: nat)
    requires n <= N_RBG_MAX
    ensures Grows(s, AllocateBelow(bw, s, n))
  {
    if n > 0 {
      AllocateBelowGrows(bw, s, n - 1);
      var t := AllocateBelow(bw, s, n - 1);
      TakeGroupGrows(bw, t, n - 1);
      GrowsTransitive(s, t, TakeGroup(bw, t, n - 1));
    }
  }

  lemma {:induction false} AllocateBelowCounts(bw: nat, s: Share, n: nat, target: int)
    requires Supported(bw) && n <= NbRbg(bw)
    requires s.d.pre == Rbs(bw, s.d.mask)
    requires Balanced(bw, s.d, target)
    ensures var r := AllocateBelow(bw, s, n);
      && r.d.pre == Rbs(bw, r.d.mask)
      && Rbs(bw, r.vrb) - Rbs(bw, s.vrb) == r.d.pre - s.d.pre
      && Balanced(bw, r.d, target)
  {
    if n > 0 {
      AllocateBelowCounts(bw, s, n - 1, target);
      TakeGroupCounts(bw, AllocateBelow(bw, s, n - 1), n - 1, target);
    }
  }

  lemma {:induction false} AllocateBelowSaturates(bw: nat, s: Share, n: nat, target: int)
    requires Supported(bw) && n <= NbRbg(bw)
    requires s.d.pre == Rbs(bw, s.d.mask)
    requires forall k :: 0 <= k < N_RBG_MAX && s.d.mask[k] ==> s.vrb[k]
    requires Balanced(bw, s.d, target)
    ensures var r := AllocateBelow(bw, s, n); Saturated(bw, r.vrb, r.d, n)
  {
    if n > 0 {
      var t := AllocateBelow(bw, s, n - 1);
      AllocateBelowSaturates(bw, s, n - 1, target);
      AllocateBelowGrows(bw, s, n - 1);
      AllocateBelowCounts(bw, s, n - 1, target);
      TakeGroupCounts(bw, t, n - 1, target);
      TakeGroupSaturates(bw, t, n - 1);
    }
  }

  // ---------- the whole cell ----------

  function TotalGiven(ues: seq<Demand>): nat {
    if ues == [] then 0 else TotalGiven(ues[..|ues| - 1]) + ues[|ues| - 1].pre
  }

  lemma {:induction false} TotalGivenUpdate(ues: seq<Demand>, i: nat, d: Demand)
    requires i < |ues|
    ensures TotalGiven(ues[i := d]) == TotalGiven(ues) - ues[i].pre + d.pre
  {
    var n := |ues| - 1;
    if i < n {
      assert ues[i := d][..n] == ues[..n][i := d];
      TotalGivenUpdate(ues[..n], i, d);
    } else {
      assert ues[i := d][..n] == ues[..n];
    }
  }

  /** Every group is free, reserved or owned by exactly one UE. */
  ghost predicate Partitioned(reserved: Groups, c: Cell) {
    && (forall g :: 0 <= g < N_RBG_MAX && reserved[g] ==> c.vrb[g])
    && (forall g :: 0 <= g < N_RBG_MAX && c.vrb[g] && !reserved[g] ==>
          exists u :: 0 <= u < |c.ues| && c.ues[u].mask[g])
    && (forall u, g :: 0 <= u < |c.ues| && 0 <= g < N_RBG_MAX && c.ues[u].mask[g] ==> c.vrb[g] && !reserved[g])
    && (forall u, v, g :: 0 <= u < |c.ues| && 0 <= v < |c.ues| && u != v && 0 <= g < N_RBG_MAX ==>
          !(c.ues[u].mask[g] && c.ues[v].mask[g]))
  }

  /** Resource blocks are conserved: every counter equals the groups it stands for, and what the UEs hold,
      what is reserved and what is free add up to the carrier. */
  ghost predicate Conserved(bw: nat, reserved: Groups, c: Cell) {
    && (forall u :: 0 <= u < |c.ues| ==> c.ues[u].pre == Rbs(bw, c.ues[u].mask))
    && TotalGiven(c.ues) + Rbs(bw, reserved) + Rbs(bw, Free(c.vrb)) == bw
  }

  ghost predicate AllBalanced(bw: nat, ues: seq<Demand>, targets: seq<int>) {
    && |targets| == |ues|
    && forall u :: 0 <= u < |ues| ==> Balanced(bw, ues[u], targets[u])
  }

  ghost predicate Sound(bw: nat, reserved: Groups, c: Cell, targets: seq<int>) {
    Partitioned(reserved, c) && Conserved(bw, reserved, c) && AllBalanced(bw, c.ues, targets)
  }

  /** Handing groups that were free to one UE keeps the partition. */
  lemma GrowsKeepsPartition(reserved: Groups, c: Cell, i: nat, t: Share)
    requires i < |c.ues| && Partitioned(reserved, c)
    requires Grows(Share(c.vrb, c.ues[i]), t)
    ensures Partitioned(reserved, Cell(t.vrb, c.ues[i := t.d]))
  {
    var r := Cell(t.vrb, c.ues[i := t.d]);
    forall g | 0 <= g < N_RBG_MAX && r.vrb[g] && !reserved[g]
      ensures exists u :: 0 <= u < |r.ues| && r.ues[u].mask[g]
    {
      if c.vrb[g] {
        var u :| 0 <= u < |c.ues| && c.ues[u].mask[g];
        assert r.ues[u].mask[g];
      } else {
        assert r.ues[i].mask[g];
      }
    }
  }

  lemma AllocateToKeeps(bw: nat, reserved: Groups, c: Cell, i: nat, targets: seq<int>)
    requires Supported(bw) && i < |c.ues|
    requires Sound(bw, reserved, c, targets)
    ensures Sound(bw, reserved, AllocateTo(bw, c, i), targets)
  {
    var s := Share(c.vrb, c.ues[i]);
    var t := AllocateBelow(bw, s, NbRbg(bw));
    AllocateBelowGrows(bw, s, NbRbg(bw));
    AllocateBelowCounts(bw, s, NbRbg(bw), targets[i]);
    GrowsKeepsPartition(reserved, c, i, t);
    TotalGivenUpdate(c.ues, i, t.d);
    UsedPlusFree(bw, c.vrb);
    UsedPlusFree(bw, t.vrb);
  }

  ghost predicate SaturatedIn(bw: nat, c: Cell, u: nat) {
    u < |c.ues| && Saturated(bw, c.vrb, c.ues[u], NbRbg(bw))
  }

  /** Serving another UE cannot make a saturated one unsaturated. */
  lemma AllocateToOther(bw: nat, c: Cell, i: nat, u: nat)
    requires i < |c.ues| && u < |c.ues| && u != i
    requires SaturatedIn(bw, c, u)
    ensures SaturatedIn(bw, AllocateTo(bw, c, i), u)
  {
    AllocateBelowGrows(bw, Share(c.vrb, c.ues[i]), NbRbg(bw));
  }

  lemma AllocateToSaturates(bw: nat, reserved: Groups, c: Cell, i: nat, targets: seq<int>)
    requires Supported(bw) && i < |c.ues|
    requires Sound(bw, reserved, c, targets)
    ensures SaturatedIn(bw, AllocateTo(bw, c, i), i)
  {
    AllocateBelowSaturates(bw, Share(c.vrb, c.ues[i]), NbRbg(bw), targets[i]);
  }

  /** A pass touches only UEs of its own priority that ask for something, and never frees a group. */
  lemma {:induction false} PassFrame(bw: nat, c: Cell, order: seq<nat>, high: bool)
    requires ValidOrder(order, |c.ues|)
    ensures var r := Pass(bw, c, order, high);
      && (forall g :: 0 <= g < N_RBG_MAX && c.vrb[g] ==> r.vrb[g])
      && (forall u :: 0 <= u < |c.ues| ==>
            r.ues[u] == c.ues[u].(left := r.ues[u].left, pre := r.ues[u].pre, mask := r.ues[u].mask))
      && (forall u :: 0 <= u < |c.ues| && (c.ues[u].high != high || c.ues[u].required == 0) ==>
            r.ues[u] == c.ues[u])
  {
    if order != [] {
      var init := order[..|order| - 1];
      PassFrame(bw, c, init, high);
      var p := Pass(bw, c, init, high);
      var i := order[|order| - 1];
      AllocateBelowGrows(bw, Share(p.vrb, p.ues[i]), NbRbg(bw));
    }
  }

  /** A pass keeps the partition, the conservation law and every UE's balance. */
  lemma {:induction false} PassKeeps(bw: nat, reserved: Groups, c: Cell, order: seq<nat>, high: bool, targets: seq<int>)
    requires Supported(bw) && ValidOrder(order, |c.ues|)
    requires Sound(bw, reserved, c, targets)
    ensures Sound(bw, reserved, Pass(bw, c, order, high), targets)
  {
    if order != [] {
      var init := order[..|order| - 1];
      PassKeeps(bw, reserved, c, init, high, targets);
      AllocateToKeeps(bw, reserved, Pass(bw, c, init, high), order[|order| - 1], targets);
    }
  }

  lemma LastOfPassSaturated(bw: nat, reserved: Groups, c: Cell, order: seq<nat>, high: bool, targets: seq<int>)
    requires Supported(bw) && ValidOrder(order, |c.ues|) && order != []
    requires Sound(bw, reserved, c, targets)
    requires var d := c.ues[order[|order| - 1]]; d.high == high && d.required > 0
    ensures SaturatedIn(bw, Pass(bw, c, order, high), order[|order| - 1])
  {
    var init := order[..|order| - 1];
    PassFrame(bw, c, init, high);
    PassKeeps(bw, reserved, c, init, high, targets);
    AllocateToSaturates(bw, reserved, Pass(bw, c, init, high), order[|order| - 1], targets);
  }

  /** After a pass each UE of its priority that it visited is saturated. */
  lemma {:induction false} PassSaturates(bw: nat, reserved: Groups, c: Cell, order: seq<nat>, high: bool,
                                         targets: seq<int>, k: nat)
    requires Supported(bw) && ValidOrder(order, |c.ues|)
    requires Sound(bw, reserved, c, targets)
    requires k < |order| && c.ues[order[k]].high == high && c.ues[order[k]].required > 0
    ensures SaturatedIn(bw, Pass(bw, c, order, high), order[k])
  {
    var init := order[..|order| - 1];
    var i := order[|order| - 1];
    if order[k] == i {
      LastOfPassSaturated(bw, reserved, c, order, high, targets);
    } else {
      assert init[k] == order[k];
      PassSaturates(bw, reserved, c, init, high, targets, k);
      AllocateToOther(bw, Pass(bw, c, init, high), i, order[k]);
    }
  }

  lemma SameMasksSamePartition(reserved: Groups, c: Cell, ues: seq<Demand>)
    requires Partitioned(reserved, c)
    requires |ues| == |c.ues| && forall u :: 0 <= u < |ues| ==> ues[u].mask == c.ues[u].mask
    ensures Partitioned(reserved, Cell(c.vrb, ues))
  {
    forall g | 0 <= g < N_RBG_MAX && c.vrb[g] && !reserved[g]
      ensures exists u :: 0 <= u < |ues| && ues[u].mask[g]
    {
      var u :| 0 <= u < |c.ues| && c.ues[u].mask[g];
      assert ues[u].mask[g];
    }
  }

  /** Refilling the remaining demand moves no group. */
  lemma RefillKeeps(bw: nat, reserved: Groups, c: Cell, round: nat)
    requires Partitioned(reserved, c) && Conserved(bw, reserved, c)
    ensures var c1 := Cell(c.vrb, Refill(round, c.ues));
      Partitioned(reserved, c1) && Conserved(bw, reserved, c1)
  {
    RefillGivesNothing(c.ues, round);
    SameMasksSamePartition(reserved, c, Refill(round, c.ues));
  }

  /** Both passes of one round keep every invariant. */
  lemma RoundKeeps(bw: nat, reserved: Groups, c: Cell, order: seq<nat>, total: nat, round: nat, targets: seq<int>)
    requires Supported(bw) && ValidOrder(order, |c.ues|)
    requires Partitioned(reserved, c) && Conserved(bw, reserved, c)
    requires AllBalanced(bw, Refill(round, c.ues), targets)
    ensures Sound(bw, reserved, Round(bw, c, order, total, round), targets)
  {
    var c1 := Cell(c.vrb, Refill(round, c.ues));
    RefillKeeps(bw, reserved, c, round);
    PassKeeps(bw, reserved, c1, order, true, targets);
    PassKeeps(bw, reserved, Pass(bw, c1, order, true), order, false, targets);
  }

  lemma RoundFrame(bw: nat, c: Cell, order: seq<nat>, total: nat, round: nat)
    requires ValidOrder(order, |c.ues|)
    ensures var r := Round(bw, c, order, total, round);
      && (forall u :: 0 <= u < |c.ues| ==>
            r.ues[u] == c.ues[u].(left := r.ues[u].left, pre := r.ues[u].pre, mask := r.ues[u].mask))
      && (forall u :: 0 <= u < |c.ues| && c.ues[u].required == 0 ==> r.ues[u] == c.ues[u])
  {
    var c1 := Cell(c.vrb, Refill(round, c.ues));
    PassFrame(bw, c1, order, true);
    PassFrame(bw, Pass(bw, c1, order, true), order, false);
  }

  /** After a round with some active UE, every UE that asks for something is saturated. */
  lemma RoundSaturates(bw: nat, reserved: Groups, c: Cell, order: seq<nat>, total: nat, round: nat, targets: seq<int>,
                       k: nat)
    requires Supported(bw) && ValidOrder(order, |c.ues|) && total > 0
    requires Partitioned(reserved, c) && Conserved(bw, reserved, c)
    requires AllBalanced(bw, Refill(round, c.ues), targets)
    requires k < |order| && c.ues[order[k]].required > 0
    ensures var r := Round(bw, c, order, total, round); Saturated(bw, r.vrb, r.ues[order[k]], NbRbg(bw))
  {
    var c1 := Cell(c.vrb, Refill(round, c.ues));
    var c2 := Pass(bw, c1, order, true);
    RefillKeeps(bw, reserved, c, round);
    PassKeeps(bw, reserved, c1, order, true, targets);
    PassFrame(bw, c1, order, true);
    PassFrame(bw, c2, order, false);
    if c.ues[order[k]].high {
      PassSaturates(bw, reserved, c1, order, true, targets, k);
    } else {
      PassSaturates(bw, reserved, c2, order, false, targets, k);
    }
  }

  lemma {:induction false} RefillGivesNothing(ues: seq<Demand>, round: nat)
    ensures TotalGiven(Refill(round, ues)) == TotalGiven(ues)
  {
    if ues != [] {
      var n := |ues| - 1;
      assert Refill(round, ues)[..n] == Refill(round, ues[..n]);
      RefillGivesNothing(ues[..n], round);
    }
  }

  // ---------- main results ----------

  /** A UE at the start of the slot: start_new_scheduling_round has cleared everything but its demand. */
  ghost predicate Fresh(d: Demand) {
    d.cap == 0 && d.left == 0 && d.pre == 0 && d.mask == NoGroups()
  }

  function Required(ues: seq<Demand>): (r: seq<int>)
    ensures |r| == |ues| && forall u :: 0 <= u < |ues| ==> r[u] == ues[u].required
  {
    seq(|ues|, u requires 0 <= u < |ues| => ues[u].required)
  }

  function Caps(ues: seq<Demand>): (r: seq<int>)
    ensures |r| == |ues| && forall u :: 0 <= u < |ues| ==> r[u] == ues[u].cap
  {
    seq(|ues|, u requires 0 <= u < |ues| => ues[u].cap)
  }

  /** State of the cell between the two rounds. */
  function AfterFirstRound(bw: nat, reserved: Groups, ues: seq<Demand>, total: nat, order: seq<nat>): (r: Cell)
    requires ValidOrder(order, |ues|)
    ensures |r.ues| == |ues|
  {
    Round(bw, Cell(reserved, Capped(AverageRbs(bw, total), ues)), order, total, 0)
  }

  /** State after the first round. */
  lemma FirstRound(bw: nat, reserved: Groups, ues: seq<Demand>, total: nat, order: seq<nat>)
    requires Supported(bw) && ValidOrder(order, |ues|)
    requires forall u :: 0 <= u < |ues| ==> Fresh(ues[u])
    ensures var capped := Capped(AverageRbs(bw, total), ues);
      Sound(bw, reserved, Round(bw, Cell(reserved, capped), order, total, 0), Caps(capped))
  {
    var capped := Capped(AverageRbs(bw, total), ues);
    FreshConserved(bw, reserved, capped);
    FirstRefillBalanced(bw, capped);
    RoundKeeps(bw, reserved, Cell(reserved, capped), order, total, 0, Caps(capped));
  }

  /** A UE that has nothing yet owes its cap after the first refill. */
  lemma FirstRefillBalanced(bw: nat, capped: seq<Demand>)
    requires forall u :: 0 <= u < |capped| ==>
               capped[u].pre == 0 && (capped[u].required == 0 ==> capped[u].left == capped[u].cap)
    ensures AllBalanced(bw, Refill(0, capped), Caps(capped))
  {
  }

  lemma FreshConserved(bw: nat, reserved: Groups, ues: seq<Demand>)
    requires Supported(bw)
    requires forall u :: 0 <= u < |ues| ==> ues[u].pre == 0 && ues[u].mask == NoGroups()
    ensures Partitioned(reserved, Cell(reserved, ues)) && Conserved(bw, reserved, Cell(reserved, ues))
  {
    RbsBelowNone(bw, NoGroups(), NbRbg(bw));
    NothingGiven(ues);
    UsedPlusFree(bw, reserved);
  }

  lemma {:induction false} NothingGiven(ues: seq<Demand>)
    requires forall u :: 0 <= u < |ues| ==> ues[u].pre == 0
    ensures TotalGiven(ues) == 0
  {
    if ues != [] {
      NothingGiven(ues[..|ues| - 1]);
    }
  }

  /** The recomputation of the remaining demand at the start of the second round (required - cap + left in
      16 bits) never wraps: it gives each UE back exactly what its share of the first round withheld. */
  lemma SecondRoundRefill(bw: nat, reserved: Groups, ues: seq<Demand>, total: nat, order: seq<nat>, u: nat)
    requires Supported(bw) && ValidOrder(order, |ues|) && u < |ues|
    requires forall v :: 0 <= v < |ues| ==> Fresh(ues[v])
    ensures var d := AfterFirstRound(bw, reserved, ues, total, order).ues[u];
      && 0 <= d.required - d.cap + d.left <= d.required
      && Refilled(1, d).left == d.left + (d.required - d.cap)
  {
    FirstRound(bw, reserved, ues, total, order);
    var c := Cell(reserved, Capped(AverageRbs(bw, total), ues));
    RoundFrame(bw, c, order, total, 0);
    var d := AfterFirstRound(bw, reserved, ues, total, order).ues[u];
    assert Balanced(bw, d, d.cap);
    if d.pre + d.left == d.cap + 1 {
      RbsBelowMonotone(bw, NoGroups(), d.mask, NbRbg(bw) - 1, NbRbg(bw) - 1);
      assert d.pre >= 2;
    }
  }

  /** Both invariants that the second round starts from. */
  lemma SecondRoundStarts(bw: nat, reserved: Groups, ues: seq<Demand>, total: nat, order: seq<nat>)
    requires Supported(bw) && ValidOrder(order, |ues|)
    requires forall v :: 0 <= v < |ues| ==> Fresh(ues[v])
    ensures var c := AfterFirstRound(bw, reserved, ues, total, order);
      && Partitioned(reserved, c) && Conserved(bw, reserved, c)
      && AllBalanced(bw, Refill(1, c.ues), Required(ues))
  {
    var capped := Capped(AverageRbs(bw, total), ues);
    var c := AfterFirstRound(bw, reserved, ues, total, order);
    FirstRound(bw, reserved, ues, total, order);
    RoundFrame(bw, Cell(reserved, capped), order, total, 0);
    forall u | 0 <= u < |ues|
      ensures Balanced(bw, Refill(1, c.ues)[u], Required(ues)[u])
    {
      SecondRoundRefill(bw, reserved, ues, total, order, u);
      assert Balanced(bw, c.ues[u], Caps(capped)[u]);
    }
  }

  /** Main result on the preprocessor.  Whatever the visiting order and whatever was reserved: the groups
      are partitioned, resource blocks are conserved, and no UE gets more than it asked for, except that on
      a 50 RB carrier the two-RB last group may exceed the demand by exactly one. */
  lemma PreprocessSafe(bw: nat, reserved: Groups, ues: seq<Demand>, total: nat, order: seq<nat>)
    requires Supported(bw) && ValidOrder(order, |ues|)
    requires forall u :: 0 <= u < |ues| ==> Fresh(ues[u])
    ensures var r := Preprocess(bw, reserved, ues, total, order);
      && Partitioned(reserved, r)
      && Conserved(bw, reserved, r)
      && (forall u :: 0 <= u < |ues| ==>
            && r.ues[u].high == ues[u].high && r.ues[u].required == ues[u].required
            && Balanced(bw, r.ues[u], ues[u].required)
            && (ues[u].required == 0 ==> r.ues[u].pre == 0)
            && r.ues[u].pre <= ues[u].required + (if bw == 50 && r.ues[u].mask[NbRbg(bw) - 1] then 1 else 0))
  {
    var c := AfterFirstRound(bw, reserved, ues, total, order);
    RoundFrame(bw, Cell(reserved, Capped(AverageRbs(bw, total), ues)), order, total, 0);
    SecondRoundStarts(bw, reserved, ues, total, order);
    RoundKeeps(bw, reserved, c, order, total, 1, Required(ues));
    RoundFrame(bw, c, order, total, 1);
    forall u | 0 <= u < |ues|
      ensures Balanced(bw, Preprocess(bw, reserved, ues, total, order).ues[u], ues[u].required)
    {
      assert Balanced(bw, Preprocess(bw, reserved, ues, total, order).ues[u], Required(ues)[u]);
    }
  }

  /** Work conservation.  If some UE counts as active and a full-size group is still free at the end, every
      UE of the cell lacks less than one group; if the short last group is still free, no UE lacks
      anything. */
  lemma WorkConserving(bw: nat, reserved: Groups, ues: seq<Demand>, total: nat, order: seq<nat>, g: nat, u: nat)
    requires Supported(bw) && ValidOrder(order, |ues|) && u in order
    requires forall v :: 0 <= v < |ues| ==> Fresh(ues[v])
    requires total > 0
    requires g < NbRbg(bw) && !Preprocess(bw, reserved, ues, total, order).vrb[g]
    ensures var d := Preprocess(bw, reserved, ues, total, order).ues[u];
      if ShortGroup(bw, g) then d.pre >= d.required else d.required - d.pre < MinRbUnit(bw)
  {
    PreprocessSafe(bw, reserved, ues, total, order);
    var c := AfterFirstRound(bw, reserved, ues, total, order);
    RoundFrame(bw, Cell(reserved, Capped(AverageRbs(bw, total), ues)), order, total, 0);
    SecondRoundStarts(bw, reserved, ues, total, order);
    var k :| 0 <= k < |order| && order[k] == u;
    var r := Preprocess(bw, reserved, ues, total, order);
    if ues[u].required > 0 {
      RoundSaturates(bw, reserved, c, order, total, 1, Required(ues), k);
      assert Saturated(bw, r.vrb, r.ues[u], NbRbg(bw));
    }
  }

  // ---------- priorities ----------

  /** A pass takes no group away, and gives only groups that were free before it. */
  lemma {:induction false} PassTakesFree(bw: nat, c: Cell, order: seq<nat>, high: bool, u: nat)
    requires ValidOrder(order, |c.ues|) && u < |c.ues|
    ensures var r := Pass(bw, c, order, high);
      && (forall g :: 0 <= g < N_RBG_MAX && c.ues[u].mask[g] ==> r.ues[u].mask[g])
      && (forall g :: 0 <= g < N_RBG_MAX && r.ues[u].mask[g] && !c.ues[u].mask[g] ==> !c.vrb[g])
  {
    if order != [] {
      var init := order[..|order| - 1];
      PassTakesFree(bw, c, init, high, u);
      PassFrame(bw, c, init, high);
      var p := Pass(bw, c, init, high);
      AllocateBelowGrows(bw, Share(p.vrb, p.ues[order[|order| - 1]]), NbRbg(bw));
    }
  }

  /** If a round gives a group to a UE of normal priority, every high priority UE visited in that round ends it
      lacking less than one group. */
  lemma RoundServesHighFirst(bw: nat, reserved: Groups, c: Cell, order: seq<nat>, total: nat, round: nat,
                             targets: seq<int>, h: nat, n: nat, g: nat)
    requires Supported(bw) && ValidOrder(order, |c.ues|) && total > 0
    requires Partitioned(reserved, c) && Conserved(bw, reserved, c)
    requires AllBalanced(bw, Refill(round, c.ues), targets)
    requires h in order && h < |c.ues| && c.ues[h].high && targets[h] == c.ues[h].required > 0
    requires n < |c.ues| && !c.ues[n].high && g < NbRbg(bw)
    requires Round(bw, c, order, total, round).ues[n].mask[g] && !c.ues[n].mask[g]
    ensures var d := Round(bw, c, order, total, round).ues[h]; d.required - d.pre < MinRbUnit(bw)
  {
    var c1 := Cell(c.vrb, Refill(round, c.ues));
    var c2 := Pass(bw, c1, order, true);
    var k :| 0 <= k < |order| && order[k] == h;
    RefillKeeps(bw, reserved, c, round);
    PassKeeps(bw, reserved, c1, order, true, targets);
    PassSaturates(bw, reserved, c1, order, true, targets, k);
    PassFrame(bw, c1, order, true);
    PassFrame(bw, c2, order, false);
    PassTakesFree(bw, c2, order, false, n);
    LacksLessThanGroup(bw, c2.vrb, c2.ues[h], g);
  }

  /** A UE that could take no more although a group was free lacks less than a group. */
  lemma LacksLessThanGroup(bw: nat, vrb: Groups, d: Demand, g: nat)
    requires Supported(bw) && Saturated(bw, vrb, d, NbRbg(bw)) && Balanced(bw, d, d.required)
    requires g < NbRbg(bw) && !vrb[g]
    ensures d.required - d.pre < MinRbUnit(bw)
  {
  }

  /** What a UE has been given never shrinks in a round. */
  lemma RoundGivesMore(bw: nat, reserved: Groups, c: Cell, order: seq<nat>, total: nat, round: nat, targets: seq<int>,
                       u: nat)
    requires Supported(bw) && ValidOrder(order, |c.ues|) && u < |c.ues|
    requires Partitioned(reserved, c) && Conserved(bw, reserved, c)
    requires AllBalanced(bw, Refill(round, c.ues), targets)
    ensures c.ues[u].pre <= Round(bw, c, order, total, round).ues[u].pre
  {
    var c1 := Cell(c.vrb, Refill(round, c.ues));
    RoundKeeps(bw, reserved, c, order, total, round, targets);
    if total > 0 {
      PassTakesFree(bw, c1, order, true, u);
      PassTakesFree(bw, Pass(bw, c1, order, true), order, false, u);
      RbsBelowMonotone(bw, c.ues[u].mask, Round(bw, c, order, total, round).ues[u].mask, NbRbg(bw), NbRbg(bw));
    }
  }

  /** Strict priority over both rounds: if a UE of normal priority is given anything at all, no UE of high priority
      in the order lacks a whole group in the end. */
  lemma HighPriorityFirst(bw: nat, reserved: Groups, ues: seq<Demand>, total: nat, order: seq<nat>, h: nat, n: nat)
    requires Supported(bw) && ValidOrder(order, |ues|) && total > 0
    requires forall v :: 0 <= v < |ues| ==> Fresh(ues[v])
    requires h in order && h < |ues| && ues[h].high
    requires n < |ues| && !ues[n].high && Preprocess(bw, reserved, ues, total, order).ues[n].pre > 0
    ensures var d := Preprocess(bw, reserved, ues, total, order).ues[h]; ues[h].required - d.pre < MinRbUnit(bw)
  {
    if ues[h].required > 0 {
      var g := SomeGroup(bw, reserved, ues, total, order, n);
      if AfterFirstRound(bw, reserved, ues, total, order).ues[n].mask[g] {
        FirstServesHighFirst(bw, reserved, ues, total, order, h, n, g);
        SecondGivesMore(bw, reserved, ues, total, order, h);
      } else {
        SecondServesHighFirst(bw, reserved, ues, total, order, h, n, g);
      }
    }
  }

  lemma SecondGivesMore(bw: nat, reserved: Groups, ues: seq<Demand>, total: nat, order: seq<nat>, u: nat)
    requires Supported(bw) && ValidOrder(order, |ues|) && u < |ues|
    requires forall v :: 0 <= v < |ues| ==> Fresh(ues[v])
    ensures AfterFirstRound(bw, reserved, ues, total, order).ues[u].pre
         <= Preprocess(bw, reserved, ues, total, order).ues[u].pre
  {
    var c := AfterFirstRound(bw, reserved, ues, total, order);
    SecondRoundStarts(bw, reserved, ues, total, order);
    RoundGivesMore(bw, reserved, c, order, total, 1, Required(ues), u);
  }

  lemma SecondServesHighFirst(bw: nat, reserved: Groups, ues: seq<Demand>, total: nat, order: seq<nat>, h: nat, n: nat,
                              g: nat)
    requires Supported(bw) && ValidOrder(order, |ues|) && total > 0
    requires forall v :: 0 <= v < |ues| ==> Fresh(ues[v])
    requires h in order && h < |ues| && ues[h].high && ues[h].required > 0
    requires n < |ues| && !ues[n].high && g < NbRbg(bw)
    requires !AfterFirstRound(bw, reserved, ues, total, order).ues[n].mask[g]
    requires Preprocess(bw, reserved, ues, total, order).ues[n].mask[g]
    ensures ues[h].required - Preprocess(bw, reserved, ues, total, order).ues[h].pre < MinRbUnit(bw)
  {
    var c := AfterFirstRound(bw, reserved, ues, total, order);
    SecondRoundStarts(bw, reserved, ues, total, order);
    RoundFrame(bw, Cell(reserved, Capped(AverageRbs(bw, total), ues)), order, total, 0);
    RoundFrame(bw, c, order, total, 1);
    RoundServesHighFirst(bw, reserved, c, order, total, 1, Required(ues), h, n, g);
  }

  lemma FirstServesHighFirst(bw: nat, reserved: Groups, ues: seq<Demand>, total: nat, order: seq<nat>, h: nat, n: nat,
                             g: nat)
    requires Supported(bw) && ValidOrder(order, |ues|) && total > 0
    requires forall v :: 0 <= v < |ues| ==> Fresh(ues[v])
    requires h in order && h < |ues| && ues[h].high && ues[h].required > 0
    requires n < |ues| && !ues[n].high && g < NbRbg(bw)
    requires AfterFirstRound(bw, reserved, ues, total, order).ues[n].mask[g]
    ensures ues[h].required - AfterFirstRound(bw, reserved, ues, total, order).ues[h].pre < MinRbUnit(bw)
  {
    var capped := Capped(AverageRbs(bw, total), ues);
    var start := Cell(reserved, capped);
    FreshConserved(bw, reserved, capped);
    FirstRefillBalanced(bw, capped);
    RoundFrame(bw, start, order, total, 0);
    RoundServesHighFirst(bw, reserved, start, order, total, 0, Caps(capped), h, n, g);
  }

  lemma SomeGroup(bw: nat, reserved: Groups, ues: seq<Demand>, total: nat, order: seq<nat>, n: nat) returns (g: nat)
    requires Supported(bw) && ValidOrder(order, |ues|) && n < |ues|
    requires forall v :: 0 <= v < |ues| ==> Fresh(ues[v])
    requires Preprocess(bw, reserved, ues, total, order).ues[n].pre > 0
    ensures g < NbRbg(bw) && Preprocess(bw, reserved, ues, total, order).ues[n].mask[g]
  {
    PreprocessSafe(bw, reserved, ues, total, order);
    var d := Preprocess(bw, reserved, ues, total, order).ues[n];
    if forall k :: 0 <= k < NbRbg(bw) ==> !d.mask[k] {
      RbsBelowNone(bw, d.mask, NbRbg(bw));
      assert false;
    }
    g :| 0 <= g < NbRbg(bw) && d.mask[g];
  }
}
