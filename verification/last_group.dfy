/** The two-RB last group of a 50 RB carrier: the only way in which a UE is given more than it asked for. */
module LastGroup {
  import opened ResourceGrid
  import opened Preprocessor

  const LAST: nat := 16

  /** What the caller can check beforehand: the demand leaves one resource block after whole groups, the last group is
      not reserved, and enough resource blocks are free before it. */
  predicate OneOver(bw: nat, reserved: Groups, required: nat) {
    bw == 50 && required % 3 == 1 && !reserved[LAST] && RbsBelow(bw, Free(reserved), LAST) >= required - 1
  }

  /** Whole groups of a 50 RB carrier hold three resource blocks each. */
  lemma {:induction false} WholeGroups(s: Groups, n: nat)
    requires n <= LAST
    ensures RbsBelow(50, s, n) % 3 == 0
  {
    if n > 0 {
      WholeGroups(s, n - 1);
    }
  }

  lemma OneOverHolds(reserved: Groups, mask: Groups, required: nat)
    requires mask[LAST] && Rbs(50, mask) == required + 1
    requires forall g :: 0 <= g < N_RBG_MAX && mask[g] ==> !reserved[g]
    ensures OneOver(50, reserved, required)
  {
    assert Rbs(50, mask) == RbsBelow(50, mask, LAST) + 2;
    WholeGroups(mask, LAST);
    RbsBelowMonotone(50, mask, Free(reserved), LAST, LAST);
  }

  /** A UE is given more than it asked for, and then exactly one resource block more, only if its demand and the
      reserved groups allow it. */
  lemma OverServedOnlyIf(bw: nat, reserved: Groups, ues: seq<Demand>, total: nat, order: seq<nat>, u: nat)
    requires Supported(bw) && ValidOrder(order, |ues|) && u < |ues|
    requires forall v :: 0 <= v < |ues| ==> Fresh(ues[v])
    ensures var d := Preprocess(bw, reserved, ues, total, order).ues[u];
      d.pre > ues[u].required ==> d.pre == ues[u].required + 1 && OneOver(bw, reserved, ues[u].required)
  {
    PreprocessSafe(bw, reserved, ues, total, order);
    var d := Preprocess(bw, reserved, ues, total, order).ues[u];
    if d.pre > ues[u].required {
      OneOverHolds(reserved, d.mask, ues[u].required);
    }
  }

  // ---------- the UE served first ----------

  /** A UE that has taken as many of the free whole groups below n as its demand has whole groups, and nothing else. */
  ghost predicate TookWhole(s: Share, r: Share, n: nat)
    requires n <= LAST
  {
    var free := RbsBelow(50, Free(s.vrb), n);
    && r.d.required == s.d.required
    && r.d.pre == (if free <= s.d.required then free else s.d.required - s.d.required % 3)
    && r.d.left == s.d.required - r.d.pre
    && forall g :: n <= g < N_RBG_MAX ==> r.vrb[g] == s.vrb[g] && !r.d.mask[g]
  }

  lemma TookOneMore(s: Share, r: Share, n: nat)
    requires n < LAST && TookWhole(s, r, n)
    ensures TookWhole(s, TakeGroup(50, r, n), n + 1)
  {
    WholeGroups(Free(s.vrb), n);
  }

  /** What the first visit to a UE takes from the whole groups. */
  lemma {:induction false} FirstTakes(s: Share, n: nat)
    requires s.d.pre == 0 && s.d.left == s.d.required && s.d.mask == NoGroups() && n <= LAST
    ensures TookWhole(s, AllocateBelow(50, s, n), n)
  {
    if n > 0 {
      FirstTakes(s, n - 1);
      TookOneMore(s, AllocateBelow(50, s, n - 1), n - 1);
    }
  }

  lemma FirstTakesLast(s: Share)
    requires s.d.pre == 0 && s.d.left == s.d.required && s.d.mask == NoGroups()
    requires OneOver(50, s.vrb, s.d.required)
    ensures AllocateBelow(50, s, NbRbg(50)).d.pre == s.d.required + 1
  {
    FirstTakes(s, LAST);
    WholeGroups(Free(s.vrb), LAST);
    assert AllocateBelow(50, s, LAST + 1) == TakeGroup(50, AllocateBelow(50, s, LAST), LAST);
  }

  /** The UE at position k of the order is the first that the high priority pass serves. */
  ghost predicate ServedFirst(ues: seq<Demand>, order: seq<nat>, k: nat)
    requires ValidOrder(order, |ues|)
  {
    && k < |order| && ues[order[k]].high && ues[order[k]].required > 0
    && forall j :: 0 <= j < k ==> !ues[order[j]].high || ues[order[j]].required == 0
  }

  lemma {:induction false} NobodyBefore(bw: nat, c: Cell, order: seq<nat>, k: nat)
    requires ValidOrder(order, |c.ues|) && k <= |order|
    requires forall j :: 0 <= j < k ==> !c.ues[order[j]].high || c.ues[order[j]].required == 0
    ensures ValidOrder(order[..k], |c.ues|) && Pass(bw, c, order[..k], true) == c
  {
    if k > 0 {
      NobodyBefore(bw, c, order, k - 1);
      assert order[..k][..k - 1] == order[..k - 1];
    }
  }

  /** A pass goes on from where its beginning left off. */
  lemma {:induction false} PassGivesMore(bw: nat, c: Cell, order: seq<nat>, high: bool, m: nat, u: nat)
    requires ValidOrder(order, |c.ues|) && m <= |order| && u < |c.ues|
    ensures ValidOrder(order[..m], |c.ues|)
    ensures var p, r := Pass(bw, c, order[..m], high), Pass(bw, c, order, high);
      forall g :: 0 <= g < N_RBG_MAX && p.ues[u].mask[g] ==> r.ues[u].mask[g]
  {
    if m == |order| {
      assert order[..m] == order;
    } else {
      var init := order[..|order| - 1];
      assert init[..m] == order[..m];
      PassGivesMore(bw, c, init, high, m, u);
      var p := Pass(bw, c, init, high);
      AllocateBelowGrows(bw, Share(p.vrb, p.ues[order[|order| - 1]]), NbRbg(bw));
    }
  }

  /** The cell before the first pass of the first round. */
  function Start(reserved: Groups, ues: seq<Demand>, total: nat): Cell {
    Cell(reserved, Refill(0, Capped(AverageRbs(50, total), ues)))
  }

  lemma FirstVisit(reserved: Groups, ues: seq<Demand>, total: nat, order: seq<nat>, k: nat)
    requires ValidOrder(order, |ues|) && ServedFirst(ues, order, k)
    requires forall v :: 0 <= v < |ues| ==> Fresh(ues[v])
    requires OneOver(50, reserved, ues[order[k]].required)
    ensures ValidOrder(order[..k + 1], |ues|)
    ensures Pass(50, Start(reserved, ues, total), order[..k + 1], true).ues[order[k]].pre == ues[order[k]].required + 1
  {
    var c := Start(reserved, ues, total);
    NobodyBefore(50, c, order, k);
    assert order[..k + 1][..k] == order[..k];
    FirstTakesLast(Share(c.vrb, c.ues[order[k]]));
  }

  lemma AfterFirstVisit(reserved: Groups, ues: seq<Demand>, total: nat, order: seq<nat>, k: nat)
    requires ValidOrder(order, |ues|) && ServedFirst(ues, order, k) && total > 0
    requires forall v :: 0 <= v < |ues| ==> Fresh(ues[v])
    requires OneOver(50, reserved, ues[order[k]].required)
    ensures AfterFirstRound(50, reserved, ues, total, order).ues[order[k]].pre >= ues[order[k]].required + 1
  {
    var u := order[k];
    var capped := Capped(AverageRbs(50, total), ues);
    var c := Start(reserved, ues, total);
    var visited := Pass(50, c, order[..k + 1], true).ues[u];
    var r := AfterFirstRound(50, reserved, ues, total, order).ues[u];
    FirstVisit(reserved, ues, total, order, k);
    PassGivesMore(50, c, order, true, k + 1, u);
    PassTakesFree(50, Pass(50, c, order, true), order, false, u);
    FreshConserved(50, reserved, capped);
    FirstRefillBalanced(50, capped);
    RefillKeeps(50, reserved, Cell(reserved, capped), 0);
    PassKeeps(50, reserved, c, order[..k + 1], true, Caps(capped));
    FirstRound(50, reserved, ues, total, order);
    RbsBelowMonotone(50, visited.mask, r.mask, NbRbg(50), NbRbg(50));
  }

  /** For the UE served first the condition is exact: it is given one resource block more than it asked for if and only
      if its demand and the reserved groups allow it. */
  lemma FirstOverServedIff(bw: nat, reserved: Groups, ues: seq<Demand>, total: nat, order: seq<nat>, k: nat)
    requires Supported(bw) && ValidOrder(order, |ues|) && ServedFirst(ues, order, k) && total > 0
    requires forall v :: 0 <= v < |ues| ==> Fresh(ues[v])
    ensures var u := order[k];
      var d := Preprocess(bw, reserved, ues, total, order).ues[u];
      d.pre > ues[u].required <==> OneOver(bw, reserved, ues[u].required)
  {
    var u := order[k];
    OverServedOnlyIf(bw, reserved, ues, total, order, u);
    if OneOver(bw, reserved, ues[u].required) {
      AfterFirstVisit(reserved, ues, total, order, k);
      SecondRoundStarts(bw, reserved, ues, total, order);
      RoundGivesMore(bw, reserved, AfterFirstRound(bw, reserved, ues, total, order), order, total, 1, Required(ues), u);
    }
  }

  lemma FourFits()
    ensures OneOver(50, NoGroups(), 4)
  {
    RbsBelowSame(50, Free(NoGroups()), AllGroups(), LAST);
    RbsBelowAll(50, LAST);
  }

  /** A lone UE of high priority that asks for four resource blocks of an empty 50 RB carrier is given five. */
  lemma FourBecomesFive(d: Demand, total: nat)
    requires Fresh(d) && d.high && d.required == 4 && total > 0
    ensures Preprocess(50, NoGroups(), [d], total, [0]).ues[0].pre == 5
  {
    FourFits();
    FirstOverServedIff(50, NoGroups(), [d], total, [0], 0);
    OverServedOnlyIf(50, NoGroups(), [d], total, [0], 0);
  }
}
