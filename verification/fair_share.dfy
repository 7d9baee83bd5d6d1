/** Who gets how much: the share of a UE of normal priority in the first round, and the order of the visits. */
module FairShare {
  import opened Words
  import opened ResourceGrid
  import opened Preprocessor

  /** The share: the carrier divided among the active UEs, but never less than one group. */
  function ShareOf(bw: nat, total: nat): nat
    requires total > 0
  {
    if MinRbUnit(bw) * total <= bw then bw / total else MinRbUnit(bw)
  }

  /** What the first round may give a UE. */
  function FirstTarget(bw: nat, total: nat, d: Demand): nat
    requires total > 0
  {
    if d.high || d.required <= ShareOf(bw, total) then d.required else ShareOf(bw, total)
  }

  lemma CapIsTarget(bw: nat, total: nat, d: Demand)
    requires Supported(bw) && total > 0 && Fresh(d)
    ensures WithCap(AverageRbs(bw, total), d).cap == FirstTarget(bw, total, d)
  {
    QuotientFits(bw, total);
  }

  lemma QuotientFits(bw: nat, total: nat)
    requires Supported(bw) && total > 0
    ensures 0 <= bw / total <= 100
  {
  }

  /** State of one UE after the first round. */
  lemma AfterFirst(bw: nat, reserved: Groups, ues: seq<Demand>, total: nat, order: seq<nat>, u: nat)
    requires Supported(bw) && ValidOrder(order, |ues|) && total > 0 && u < |ues|
    requires forall v :: 0 <= v < |ues| ==> Fresh(ues[v])
    ensures var d := AfterFirstRound(bw, reserved, ues, total, order).ues[u];
      && d.high == ues[u].high && d.required == ues[u].required && d.cap == FirstTarget(bw, total, ues[u])
      && Balanced(bw, d, d.cap) && d.pre == Rbs(bw, d.mask)
  {
    FirstRound(bw, reserved, ues, total, order);
    RoundFrame(bw, Cell(reserved, Capped(AverageRbs(bw, total), ues)), order, total, 0);
    CapIsTarget(bw, total, ues[u]);
    assert Caps(Capped(AverageRbs(bw, total), ues))[u] == FirstTarget(bw, total, ues[u]);
  }

  /** No UE of normal priority holds more than its share after the first round, apart from the one resource block that
      the last group of a 50 RB carrier may add. */
  lemma NoMoreThanShare(bw: nat, reserved: Groups, ues: seq<Demand>, total: nat, order: seq<nat>, u: nat)
    requires Supported(bw) && ValidOrder(order, |ues|) && total > 0 && u < |ues| && !ues[u].high
    requires forall v :: 0 <= v < |ues| ==> Fresh(ues[v])
    ensures var d := AfterFirstRound(bw, reserved, ues, total, order).ues[u];
      d.pre <= ShareOf(bw, total) + if bw == 50 && d.mask[NbRbg(bw) - 1] then 1 else 0
  {
    AfterFirst(bw, reserved, ues, total, order, u);
  }

  // ---------- the share is reached ----------

  /** UEs with a demand. */
  function Demanding(ds: seq<Demand>, n: nat): nat
    requires n <= |ds|
  {
    if n == 0 then 0 else Demanding(ds, n - 1) + if ds[n - 1].required > 0 then 1 else 0
  }

  function CapsBelow(ds: seq<Demand>, n: nat): nat
    requires n <= |ds|
  {
    if n == 0 then 0 else CapsBelow(ds, n - 1) + ds[n - 1].cap
  }

  function PresBelow(ds: seq<Demand>, n: nat): nat
    requires n <= |ds|
  {
    if n == 0 then 0 else PresBelow(ds, n - 1) + ds[n - 1].pre
  }

  /** The one resource block too many. */
  function Over(bw: nat, d: Demand): nat {
    if bw == 50 && d.mask[NbRbg(bw) - 1] then 1 else 0
  }

  function OversBelow(bw: nat, ds: seq<Demand>, n: nat): nat
    requires n <= |ds|
  {
    if n == 0 then 0 else OversBelow(bw, ds, n - 1) + Over(bw, ds[n - 1])
  }

  lemma {:induction false} PresAreTotal(ds: seq<Demand>, n: nat)
    requires n <= |ds|
    ensures PresBelow(ds, n) == TotalGiven(ds[..n])
  {
    if n > 0 {
      PresAreTotal(ds, n - 1);
      assert ds[..n][..n - 1] == ds[..n - 1];
    }
  }

  ghost predicate DisjointMasks(ds: seq<Demand>) {
    forall u, v, g :: 0 <= u < |ds| && 0 <= v < |ds| && u != v && 0 <= g < N_RBG_MAX ==>
      !(ds[u].mask[g] && ds[v].mask[g])
  }

  ghost predicate WithinCaps(bw: nat, ds: seq<Demand>) {
    forall v :: 0 <= v < |ds| ==> ds[v].pre <= ds[v].cap + Over(bw, ds[v])
  }

  /** At most one UE holds the last group. */
  lemma {:induction false} OneOver(bw: nat, ds: seq<Demand>, n: nat)
    requires n <= |ds|
    requires DisjointMasks(ds)
    ensures OversBelow(bw, ds, n) <= 1 && (bw != 50 ==> OversBelow(bw, ds, n) == 0)
    ensures OversBelow(bw, ds, n) == 1 ==> exists u :: 0 <= u < n && ds[u].mask[NbRbg(bw) - 1]
  {
    if n > 0 {
      OneOver(bw, ds, n - 1);
      if Over(bw, ds[n - 1]) == 1 {
        assert ds[n - 1].mask[NbRbg(bw) - 1];
      }
    }
  }

  /** What one UE lacks is bounded by what all lack together. */
  lemma {:induction false} LackBounded(bw: nat, ds: seq<Demand>, u: nat, n: nat)
    requires n <= |ds| && WithinCaps(bw, ds)
    ensures CapsBelow(ds, n) - PresBelow(ds, n) + OversBelow(bw, ds, n) >= if u < n then ds[u].cap - ds[u].pre else 0
  {
    if n > 0 {
      LackBounded(bw, ds, u, n - 1);
    }
  }

  lemma {:induction false} CapsBounded(ds: seq<Demand>, share: nat, n: nat)
    requires n <= |ds| && forall v :: 0 <= v < |ds| ==> ds[v].cap <= if ds[v].required > 0 then share else 0
    ensures CapsBelow(ds, n) <= Demanding(ds, n) * share
  {
    if n > 0 {
      CapsBounded(ds, share, n - 1);
      if ds[n - 1].required > 0 {
        assert Demanding(ds, n) * share == Demanding(ds, n - 1) * share + share;
      }
    }
  }

  lemma {:induction false} SameDemanding(a: seq<Demand>, b: seq<Demand>, n: nat)
    requires n <= |a| == |b| && forall v :: 0 <= v < |a| ==> a[v].required == b[v].required
    ensures Demanding(a, n) == Demanding(b, n)
  {
    if n > 0 {
      SameDemanding(a, b, n - 1);
    }
  }

  lemma SharesFit(bw: nat, total: nat, demanding: nat)
    requires Supported(bw) && total > 0 && demanding <= total && MinRbUnit(bw) * total <= bw
    ensures demanding * ShareOf(bw, total) <= bw
  {
    Products(demanding, total, ShareOf(bw, total));
    QuotientTimesDivisor(bw, total);
  }

  lemma Products(a: nat, b: nat, c: nat)
    requires a <= b
    ensures a * c <= b * c
  {
  }

  lemma QuotientTimesDivisor(x: nat, d: nat)
    requires d > 0
    ensures d * (x / d) <= x
  {
  }

  /** No UE of high priority asks for anything, and no more UEs ask than are counted. */
  ghost predicate OnlyNormal(ues: seq<Demand>, total: nat) {
    && total > 0 && Demanding(ues, |ues|) <= total
    && forall v :: 0 <= v < |ues| ==> Fresh(ues[v]) && (ues[v].high ==> ues[v].required == 0)
  }

  /** UEs that have been given a whole carrier, none more than its cap but for one resource block. */
  ghost predicate GivenWhole(bw: nat, ds: seq<Demand>) {
    && CapsBelow(ds, |ds|) <= bw == PresBelow(ds, |ds|)
    && WithinCaps(bw, ds) && DisjointMasks(ds)
  }

  lemma GivenWholeLacksNothing(bw: nat, ds: seq<Demand>, u: nat)
    requires GivenWhole(bw, ds) && u < |ds|
    ensures ds[u].cap - ds[u].pre <= if bw == 50 then 1 else 0
  {
    OneOver(bw, ds, |ds|);
    LackBounded(bw, ds, u, |ds|);
  }

  lemma CapsFit(bw: nat, ues: seq<Demand>, total: nat, ds: seq<Demand>)
    requires Supported(bw) && OnlyNormal(ues, total) && MinRbUnit(bw) * total <= bw && |ds| == |ues|
    requires forall v :: 0 <= v < |ds| ==>
               ds[v].required == ues[v].required && ds[v].cap <= if ds[v].required > 0 then ShareOf(bw, total) else 0
    ensures CapsBelow(ds, |ds|) <= bw
  {
    CapsBounded(ds, ShareOf(bw, total), |ds|);
    SameDemanding(ds, ues, |ds|);
    SharesFit(bw, total, Demanding(ues, |ues|));
  }

  lemma WholeCarrierGiven(bw: nat, c: Cell)
    requires Supported(bw) && Conserved(bw, NoGroups(), c) && forall g :: 0 <= g < NbRbg(bw) ==> c.vrb[g]
    ensures PresBelow(c.ues, |c.ues|) == bw
  {
    RbsBelowNone(bw, NoGroups(), NbRbg(bw));
    RbsBelowNone(bw, Free(c.vrb), NbRbg(bw));
    assert c.ues[..|c.ues|] == c.ues;
    PresAreTotal(c.ues, |c.ues|);
  }

  lemma NormalAfterFirst(bw: nat, ues: seq<Demand>, total: nat, order: seq<nat>, v: nat)
    requires Supported(bw) && ValidOrder(order, |ues|) && v < |ues| && OnlyNormal(ues, total)
    ensures var d := AfterFirstRound(bw, NoGroups(), ues, total, order).ues[v];
      && d.required == ues[v].required && d.cap == FirstTarget(bw, total, ues[v])
      && d.pre <= d.cap + Over(bw, d) && d.cap <= if d.required > 0 then ShareOf(bw, total) else 0
  {
    AfterFirst(bw, NoGroups(), ues, total, order, v);
  }

  /** If the first round gives the whole carrier away, every UE has its share, but for the one resource block that
      another may have too many. */
  lemma AllGivenAway(bw: nat, ues: seq<Demand>, total: nat, order: seq<nat>, u: nat)
    requires Supported(bw) && ValidOrder(order, |ues|) && u < |ues| && OnlyNormal(ues, total)
    requires MinRbUnit(bw) * total <= bw
    requires forall g :: 0 <= g < NbRbg(bw) ==> AfterFirstRound(bw, NoGroups(), ues, total, order).vrb[g]
    ensures FirstTarget(bw, total, ues[u]) - AfterFirstRound(bw, NoGroups(), ues, total, order).ues[u].pre
         <= if bw == 50 then 1 else 0
  {
    var r := AfterFirstRound(bw, NoGroups(), ues, total, order);
    FirstCell(bw, ues, total, order);
    WholeCarrierGiven(bw, r);
    NormalAfterFirst(bw, ues, total, order, u);
    GivenWholeLacksNothing(bw, r.ues, u);
  }

  lemma FirstCell(bw: nat, ues: seq<Demand>, total: nat, order: seq<nat>)
    requires Supported(bw) && ValidOrder(order, |ues|) && OnlyNormal(ues, total) && MinRbUnit(bw) * total <= bw
    ensures var r := AfterFirstRound(bw, NoGroups(), ues, total, order);
      && Conserved(bw, NoGroups(), r) && CapsBelow(r.ues, |r.ues|) <= bw
      && WithinCaps(bw, r.ues) && DisjointMasks(r.ues)
  {
    SecondRoundStarts(bw, NoGroups(), ues, total, order);
    PartitionedIsDisjoint(NoGroups(), AfterFirstRound(bw, NoGroups(), ues, total, order));
    FirstWithinCaps(bw, ues, total, order);
  }

  lemma PartitionedIsDisjoint(reserved: Groups, c: Cell)
    requires Partitioned(reserved, c)
    ensures DisjointMasks(c.ues)
  {
  }

  lemma FirstWithinCaps(bw: nat, ues: seq<Demand>, total: nat, order: seq<nat>)
    requires Supported(bw) && ValidOrder(order, |ues|) && OnlyNormal(ues, total) && MinRbUnit(bw) * total <= bw
    ensures var r := AfterFirstRound(bw, NoGroups(), ues, total, order);
      CapsBelow(r.ues, |r.ues|) <= bw && WithinCaps(bw, r.ues)
  {
    var ds := AfterFirstRound(bw, NoGroups(), ues, total, order).ues;
    forall v | 0 <= v < |ues|
      ensures ds[v].required == ues[v].required && ds[v].pre <= ds[v].cap + Over(bw, ds[v])
      ensures ds[v].cap <= if ds[v].required > 0 then ShareOf(bw, total) else 0
    {
      NormalAfterFirst(bw, ues, total, order, v);
    }
    CapsFit(bw, ues, total, ds);
  }

  lemma ShareAfterFirstRound(bw: nat, ues: seq<Demand>, total: nat, order: seq<nat>, u: nat)
    requires Supported(bw) && ValidOrder(order, |ues|) && u < |ues| && u in order && OnlyNormal(ues, total)
    requires MinRbUnit(bw) * total <= bw
    ensures FirstTarget(bw, total, ues[u]) - AfterFirstRound(bw, NoGroups(), ues, total, order).ues[u].pre
          < MinRbUnit(bw)
  {
    var r := AfterFirstRound(bw, NoGroups(), ues, total, order);
    var capped := Capped(AverageRbs(bw, total), ues);
    AfterFirst(bw, NoGroups(), ues, total, order, u);
    if g :| 0 <= g < NbRbg(bw) && !r.vrb[g] {
      if ues[u].required > 0 {
        var k :| 0 <= k < |order| && order[k] == u;
        FreshConserved(bw, NoGroups(), capped);
        FirstRefillBalanced(bw, capped);
        RoundSaturates(bw, NoGroups(), Cell(NoGroups(), capped), order, total, 0, Caps(capped), k);
        assert Saturated(bw, r.vrb, r.ues[u], NbRbg(bw));
      }
    } else {
      AllGivenAway(bw, ues, total, order, u);
    }
  }

  /** Fair division: when only UEs of normal priority ask, on an empty carrier, every UE visited ends less than one
      group short of what it asks for or of its equal part of the carrier, whichever is less. */
  lemma EveryoneGetsItsShare(bw: nat, ues: seq<Demand>, total: nat, order: seq<nat>, u: nat)
    requires Supported(bw) && ValidOrder(order, |ues|) && u < |ues| && u in order && OnlyNormal(ues, total)
    requires MinRbUnit(bw) * total <= bw
    ensures var d := Preprocess(bw, NoGroups(), ues, total, order).ues[u];
      Min(ues[u].required, bw / total) - d.pre < MinRbUnit(bw)
  {
    ShareAfterFirstRound(bw, ues, total, order, u);
    SecondRoundStarts(bw, NoGroups(), ues, total, order);
    var c := AfterFirstRound(bw, NoGroups(), ues, total, order);
    RoundGivesMore(bw, NoGroups(), c, order, total, 1, Required(ues), u);
  }

  // ---------- who is visited first ----------

  /** The UE at position k is the first that asks for anything, and nobody of high priority asks. */
  ghost predicate AsksFirst(ues: seq<Demand>, order: seq<nat>, k: nat)
    requires ValidOrder(order, |ues|)
  {
    && k < |order| && !ues[order[k]].high && ues[order[k]].required > 0
    && (forall j :: 0 <= j < k ==> ues[order[j]].required == 0)
    && forall v :: 0 <= v < |ues| ==> Fresh(ues[v]) && (ues[v].high ==> ues[v].required == 0)
  }

  lemma {:induction false} IdlePass(bw: nat, c: Cell, order: seq<nat>, high: bool)
    requires ValidOrder(order, |c.ues|)
    requires forall j :: 0 <= j < |order| ==> c.ues[order[j]].high != high || c.ues[order[j]].required == 0
    ensures Pass(bw, c, order, high) == c
  {
    if order != [] {
      IdlePass(bw, c, order[..|order| - 1], high);
    }
  }

  /** A UE that finds the carrier empty is given what it owes, to less than one group. */
  lemma EmptyCarrierServes(bw: nat, d: Demand)
    requires Supported(bw) && d.pre == 0 && d.mask == NoGroups() && d.left <= d.required && d.left <= bw
    ensures var r := AllocateBelow(bw, Share(NoGroups(), d), NbRbg(bw)); d.left - r.d.pre < MinRbUnit(bw)
  {
    var s := Share(NoGroups(), d);
    var r := AllocateBelow(bw, s, NbRbg(bw));
    RbsBelowNone(bw, NoGroups(), NbRbg(bw));
    AllocateBelowCounts(bw, s, NbRbg(bw), d.left);
    AllocateBelowSaturates(bw, s, NbRbg(bw), d.left);
    AllocateBelowGrows(bw, s, NbRbg(bw));
    if g :| 0 <= g < NbRbg(bw) && !r.vrb[g] {
      assert Saturated(bw, r.vrb, r.d, NbRbg(bw));
    } else {
      GridPartition(bw);
      RbsBelowSame(bw, r.vrb, AllGroups(), NbRbg(bw));
    }
  }

  lemma ShareWithinCarrier(bw: nat, total: nat)
    requires Supported(bw) && total > 0
    ensures ShareOf(bw, total) <= bw
  {
    QuotientFits(bw, total);
    assert bw / total <= bw;
  }

  /** On an empty carrier the UE that asks first is given its share, less than one group short, whoever asks later. */
  lemma FirstIsGivenItsShare(bw: nat, ues: seq<Demand>, total: nat, order: seq<nat>, k: nat)
    requires Supported(bw) && ValidOrder(order, |ues|) && Distinct(order) && total > 0 && AsksFirst(ues, order, k)
    ensures var u := order[k];
      FirstTarget(bw, total, ues[u]) - Preprocess(bw, NoGroups(), ues, total, order).ues[u].pre < MinRbUnit(bw)
  {
    var u := order[k];
    var capped := Capped(AverageRbs(bw, total), ues);
    var c1 := Cell(NoGroups(), Refill(0, capped));
    FirstVisitServes(bw, ues, total, order, k);
    VisitedKeeps(bw, c1, order, k);
    IdlePass(bw, c1, order, true);
    SecondRoundStarts(bw, NoGroups(), ues, total, order);
    var c := AfterFirstRound(bw, NoGroups(), ues, total, order);
    RoundGivesMore(bw, NoGroups(), c, order, total, 1, Required(ues), u);
  }

  lemma FirstVisitServes(bw: nat, ues: seq<Demand>, total: nat, order: seq<nat>, k: nat)
    requires Supported(bw) && ValidOrder(order, |ues|) && total > 0 && AsksFirst(ues, order, k)
    ensures ValidOrder(order[..k + 1], |ues|)
    ensures var c1 := Cell(NoGroups(), Refill(0, Capped(AverageRbs(bw, total), ues)));
      FirstTarget(bw, total, ues[order[k]]) - Pass(bw, c1, order[..k + 1], false).ues[order[k]].pre < MinRbUnit(bw)
  {
    var u := order[k];
    var c1 := Cell(NoGroups(), Refill(0, Capped(AverageRbs(bw, total), ues)));
    assert order[..k + 1][..k] == order[..k];
    IdlePass(bw, c1, order[..k], false);
    CapIsTarget(bw, total, ues[u]);
    ShareWithinCarrier(bw, total);
    EmptyCarrierServes(bw, c1.ues[u]);
  }

  /** A UE visited once keeps what that visit gave it. */
  lemma {:induction false} VisitedKeeps(bw: nat, c: Cell, order: seq<nat>, k: nat)
    requires ValidOrder(order, |c.ues|) && Distinct(order) && k < |order|
    ensures ValidOrder(order[..k + 1], |c.ues|)
    ensures Pass(bw, c, order, false).ues[order[k]] == Pass(bw, c, order[..k + 1], false).ues[order[k]]
  {
    var n := |order| - 1;
    if k == n {
      assert order[..k + 1] == order;
    } else {
      var init := order[..n];
      assert init[k] == order[k] && init[..k + 1] == order[..k + 1] && order[k] != order[n];
      VisitedKeeps(bw, c, init, k);
    }
  }

  // ---------- the order of the visits ----------

  ghost predicate Distinct(order: seq<nat>) {
    forall i, j :: 0 <= i < j < |order| ==> order[i] != order[j]
  }

  /** A pass does not touch a UE it does not visit. */
  lemma {:induction false} NotVisited(bw: nat, c: Cell, order: seq<nat>, high: bool, u: nat)
    requires ValidOrder(order, |c.ues|) && u < |c.ues| && u !in order
    ensures Pass(bw, c, order, high).ues[u] == c.ues[u]
  {
    if order != [] {
      NotVisited(bw, c, order[..|order| - 1], high, u);
    }
  }

  /** If the last visit of a pass is given a group, every UE visited before lacks less than one. */
  lemma LastVisitInOrder(bw: nat, reserved: Groups, c: Cell, order: seq<nat>, high: bool, targets: seq<int>, i: nat,
                         last: nat, g: nat)
    requires Supported(bw) && ValidOrder(order, |c.ues|) && i < |order| && last < |c.ues| && g < NbRbg(bw)
    requires last !in order && Sound(bw, reserved, c, targets)
    requires var d := c.ues[order[i]]; d.high == high && d.required > 0 && targets[order[i]] <= d.required
    requires AllocateTo(bw, Pass(bw, c, order, high), last).ues[last].mask[g] && !c.ues[last].mask[g]
    ensures targets[order[i]] - Pass(bw, c, order, high).ues[order[i]].pre < MinRbUnit(bw)
  {
    var p := Pass(bw, c, order, high);
    PassKeeps(bw, reserved, c, order, high, targets);
    AllocateBelowGrows(bw, Share(p.vrb, p.ues[last]), NbRbg(bw));
    NotVisited(bw, c, order, high, last);
    PassSaturates(bw, reserved, c, order, high, targets, i);
    PassFrame(bw, c, order, high);
    LacksLess(bw, p.vrb, p.ues[order[i]], targets[order[i]], g);
  }

  /** If a pass gives a group to the UE visited j-th, the UE visited i-th, before it, ends less than one group short. */
  lemma {:induction false} PassServesInOrder(bw: nat, reserved: Groups, c: Cell, order: seq<nat>, high: bool,
                                             targets: seq<int>, i: nat, j: nat, g: nat)
    requires Supported(bw) && ValidOrder(order, |c.ues|) && Distinct(order) && i < j < |order| && g < NbRbg(bw)
    requires Sound(bw, reserved, c, targets)
    requires var d := c.ues[order[i]]; d.high == high && d.required > 0 && targets[order[i]] <= d.required
    requires Pass(bw, c, order, high).ues[order[j]].mask[g] && !c.ues[order[j]].mask[g]
    ensures targets[order[i]] - Pass(bw, c, order, high).ues[order[i]].pre < MinRbUnit(bw)
  {
    var n := |order| - 1;
    var init := order[..n];
    assert init[i] == order[i] && order[i] != order[n];
    if j < n {
      assert init[j] == order[j] && order[j] != order[n];
      PassServesInOrder(bw, reserved, c, init, high, targets, i, j, g);
    } else {
      NotVisited(bw, c, init, high, order[n]);
      LastVisitInOrder(bw, reserved, c, init, high, targets, i, order[n], g);
    }
  }

  lemma LacksLess(bw: nat, vrb: Groups, d: Demand, target: int, g: nat)
    requires Supported(bw) && Saturated(bw, vrb, d, NbRbg(bw)) && Balanced(bw, d, target) && target <= d.required
    requires g < NbRbg(bw) && !vrb[g]
    ensures target - d.pre < MinRbUnit(bw)
  {
  }

  /** The same for a round, among UEs of one priority. */
  lemma RoundServesInOrder(bw: nat, reserved: Groups, c: Cell, order: seq<nat>, total: nat, round: nat,
                           targets: seq<int>, i: nat, j: nat, g: nat)
    requires Supported(bw) && ValidOrder(order, |c.ues|) && Distinct(order) && i < j < |order| && g < NbRbg(bw)
    requires Partitioned(reserved, c) && Conserved(bw, reserved, c) && AllBalanced(bw, Refill(round, c.ues), targets)
    requires c.ues[order[i]].high == c.ues[order[j]].high && targets[order[i]] <= c.ues[order[i]].required
    requires Round(bw, c, order, total, round).ues[order[j]].mask[g] && !c.ues[order[j]].mask[g]
    ensures targets[order[i]] - Round(bw, c, order, total, round).ues[order[i]].pre < MinRbUnit(bw)
  {
    var c1 := Cell(c.vrb, Refill(round, c.ues));
    var c2 := Pass(bw, c1, order, true);
    RefillKeeps(bw, reserved, c, round);
    PassKeeps(bw, reserved, c1, order, true, targets);
    PassFrame(bw, c1, order, true);
    PassFrame(bw, c2, order, false);
    if c.ues[order[i]].required > 0 {
      if c.ues[order[i]].high {
        PassServesInOrder(bw, reserved, c1, order, true, targets, i, j, g);
      } else {
        PassServesInOrder(bw, reserved, c2, order, false, targets, i, j, g);
      }
    }
  }

  lemma FirstRoundInOrder(bw: nat, reserved: Groups, ues: seq<Demand>, total: nat, order: seq<nat>, i: nat, j: nat,
                          g: nat)
    requires Supported(bw) && ValidOrder(order, |ues|) && Distinct(order) && i < j < |order| && total > 0
    requires forall v :: 0 <= v < |ues| ==> Fresh(ues[v])
    requires ues[order[i]].high == ues[order[j]].high
    requires g < NbRbg(bw) && AfterFirstRound(bw, reserved, ues, total, order).ues[order[j]].mask[g]
    ensures FirstTarget(bw, total, ues[order[i]]) - AfterFirstRound(bw, reserved, ues, total, order).ues[order[i]].pre
          < MinRbUnit(bw)
  {
    var capped := Capped(AverageRbs(bw, total), ues);
    CapIsTarget(bw, total, ues[order[i]]);
    FreshConserved(bw, reserved, capped);
    FirstRefillBalanced(bw, capped);
    RoundServesInOrder(bw, reserved, Cell(reserved, capped), order, total, 0, Caps(capped), i, j, g);
  }

  /** Among UEs of one priority the order decides: if a UE is given anything at all, every UE visited before it ends
      less than one group short of what the first round may give it, which at high priority is all it asks for. */
  lemma EarlierServedFirst(bw: nat, reserved: Groups, ues: seq<Demand>, total: nat, order: seq<nat>, i: nat, j: nat)
    requires Supported(bw) && ValidOrder(order, |ues|) && Distinct(order) && i < j < |order| && total > 0
    requires forall v :: 0 <= v < |ues| ==> Fresh(ues[v])
    requires ues[order[i]].high == ues[order[j]].high
    requires Preprocess(bw, reserved, ues, total, order).ues[order[j]].pre > 0
    ensures FirstTarget(bw, total, ues[order[i]]) - Preprocess(bw, reserved, ues, total, order).ues[order[i]].pre
          < MinRbUnit(bw)
  {
    var c := AfterFirstRound(bw, reserved, ues, total, order);
    var g := SomeGroup(bw, reserved, ues, total, order, order[j]);
    SecondRoundStarts(bw, reserved, ues, total, order);
    if c.ues[order[j]].mask[g] {
      FirstRoundInOrder(bw, reserved, ues, total, order, i, j, g);
      RoundGivesMore(bw, reserved, c, order, total, 1, Required(ues), order[i]);
    } else {
      AfterFirst(bw, reserved, ues, total, order, order[i]);
      AfterFirst(bw, reserved, ues, total, order, order[j]);
      RoundServesInOrder(bw, reserved, c, order, total, 1, Required(ues), i, j, g);
    }
  }
}
