/** Transport block sizing: the TBS lookup of remote_scheduler_primitives.cc and the searches for a number
    of resource blocks and for a modulation and coding scheme in run_central_scheduler and
    assign_rbs_required (sections 7.1.7.1 and 7.1.7.2 of 3GPP TS 36.213). */
module TransportBlock {
  import opened Words
  import opened ResourceGrid

  const MAX_MCS: nat := 28

  /** TBStable, in bits, by row (I_TBS) and zero-based column (resource blocks minus one). */
  type TbsTable = t: (nat, nat) -> nat | forall i, j :: t(i, j) < 0x8_0000 witness (i: nat, j: nat) => 0

  function GetITbs(mcs: nat): (i: nat)
    ensures mcs <= MAX_MCS ==> i < 27
  {
    if mcs < 10 then mcs
    else if mcs == 10 then 9
    else if mcs < 17 then mcs - 1
    else if mcs == 17 then 15
    else mcs - 2
  }

  /** Bytes that fit into nbRb resource blocks. */
  function GetTbsDl(t: TbsTable, mcs: nat, nbRb: nat): uint16 {
    if nbRb > 0 && mcs < 29 then t(GetITbs(mcs), nbRb - 1) / 8 else 0
  }

  // ---------- resource blocks ----------

  /** The number of resource blocks at which the search starts. */
  function FirstNbRb(bw: nat, mcs: nat): (nb: nat)
    ensures nb > 0
  {
    if mcs == 0 then 4 else MinRbUnit(bw)
  }

  function RbSearch(t: TbsTable, mcs: nat, unit: nat, avail: nat, need: nat, nb: nat): nat
    requires unit > 0
    decreases avail - nb
  {
    if GetTbsDl(t, mcs, nb) >= need then nb
    else if nb + unit > avail then avail
    else RbSearch(t, mcs, unit, avail, need, nb + unit)
  }

  /** m is one of start, start + unit, start + 2 * unit, ... */
  predicate OnGrid(start: nat, unit: nat, m: nat)
    requires unit > 0
    decreases m - start
  {
    m == start || (m >= start + unit && OnGrid(start + unit, unit, m))
  }

  /** The search stops at the first grid point whose block is large enough, or else at everything available.
      It goes past what is available exactly when its starting value already does and is large enough. */
  lemma {:induction false} RbSearchStopsAtFirstFit(t: TbsTable, mcs: nat, unit: nat, avail: nat, need: nat, start: nat)
    requires unit > 0
    ensures var nb := RbSearch(t, mcs, unit, avail, need, start);
      && (GetTbsDl(t, mcs, nb) >= need || nb == avail)
      && (nb > avail <==> start > avail && GetTbsDl(t, mcs, start) >= need)
      && (nb == avail || OnGrid(start, unit, nb))
      && (forall m :: start <= m < nb && OnGrid(start, unit, m) ==> GetTbsDl(t, mcs, m) < need)
    decreases avail - start
  {
    if GetTbsDl(t, mcs, start) < need && start + unit <= avail {
      RbSearchStopsAtFirstFit(t, mcs, unit, avail, need, start + unit);
    }
  }

  /** Whenever all available resource blocks together are enough, the search finds enough. */
  lemma {:induction false} RbSearchSuffices(t: TbsTable, mcs: nat, unit: nat, avail: nat, need: nat, nb: nat)
    requires unit > 0
    requires GetTbsDl(t, mcs, avail) >= need
    ensures GetTbsDl(t, mcs, RbSearch(t, mcs, unit, avail, need, nb)) >= need
    decreases avail - nb
  {
    if GetTbsDl(t, mcs, nb) < need && nb + unit <= avail {
      RbSearchSuffices(t, mcs, unit, avail, need, nb + unit);
    }
  }

  lemma {:induction false} GridMultiple(start: nat, unit: nat, m: nat)
    requires 0 < unit <= 4 && OnGrid(start, unit, m)
    ensures m % unit == start % unit
    decreases m - start
  {
    if m != start {
      GridMultiple(start + unit, unit, m);
      if unit == 1 {
      } else if unit == 2 {
      } else if unit == 3 {
      } else {
      }
    }
  }

  /** At a scheme above 0 the search asks for whole groups or for everything available; at scheme 0 for four resource
      blocks and then whole groups. */
  lemma SearchInWholeGroups(t: TbsTable, bw: nat, mcs: nat, avail: nat, need: nat)
    ensures var nb := RbSearch(t, mcs, MinRbUnit(bw), avail, need, FirstNbRb(bw, mcs));
      nb == avail || nb % MinRbUnit(bw) == if mcs > 0 then 0 else 4 % MinRbUnit(bw)
  {
    var unit, start := MinRbUnit(bw), FirstNbRb(bw, mcs);
    var nb := RbSearch(t, mcs, unit, avail, need, start);
    RbSearchStopsAtFirstFit(t, mcs, unit, avail, need, start);
    if nb != avail {
      GridMultiple(start, unit, nb);
    }
  }

  /** The loop of run_central_scheduler; nbRb is a uint16_t and never wraps. */
  method FindNbRb(t: TbsTable, bw: nat, mcs: nat, avail: uint16, need: nat) returns (nbRb: uint16, tbs: uint16)
    requires avail < 0x8000
    ensures nbRb == RbSearch(t, mcs, MinRbUnit(bw), avail, need, FirstNbRb(bw, mcs))
    ensures tbs == GetTbsDl(t, mcs, nbRb)
  {
    if mcs == 0 {
      nbRb := 4;
    } else {
      nbRb := MinRbUnit(bw);
    }
    tbs := GetTbsDl(t, mcs, nbRb);
    while tbs < need
      invariant nbRb <= 0x8000
      invariant tbs == GetTbsDl(t, mcs, nbRb)
      invariant RbSearch(t, mcs, MinRbUnit(bw), avail, need, nbRb)
             == RbSearch(t, mcs, MinRbUnit(bw), avail, need, FirstNbRb(bw, mcs))
      decreases avail - nbRb
    {
      nbRb := nbRb + MinRbUnit(bw);
      if nbRb > avail {
        tbs := GetTbsDl(t, mcs, avail);
        nbRb := avail;
        break;
      }
      tbs := GetTbsDl(t, mcs, nbRb);
    }
  }

  // ---------- modulation and coding scheme ----------

  function LowerMcs(t: TbsTable, nb: nat, need: nat, mcs: nat): (m: nat)
    ensures m <= mcs
  {
    if GetTbsDl(t, mcs, nb) > need && mcs > 0 then LowerMcs(t, nb, need, mcs - 1) else mcs
  }

  function RaiseMcs(t: TbsTable, nb: nat, need: nat, mcs: nat): (m: nat)
    ensures mcs <= m && (mcs <= MAX_MCS ==> m <= MAX_MCS)
    decreases MAX_MCS - mcs
  {
    if GetTbsDl(t, mcs, nb) < need && mcs < MAX_MCS then RaiseMcs(t, nb, need, mcs + 1) else mcs
  }

  function FitMcs(t: TbsTable, nb: nat, need: nat, mcs: nat): (m: nat)
    ensures mcs <= MAX_MCS ==> m <= MAX_MCS
  {
    RaiseMcs(t, nb, need, LowerMcs(t, nb, need, mcs))
  }

  ghost predicate MonotoneInMcs(t: TbsTable, nb: nat) {
    forall i, j :: 0 <= i <= j <= MAX_MCS ==> GetTbsDl(t, i, nb) <= GetTbsDl(t, j, nb)
  }

  /** m carries the smallest block that is large enough, or is the highest scheme if none is. */
  ghost predicate Tightest(t: TbsTable, nb: nat, need: nat, m: nat) {
    && m <= MAX_MCS
    && (if GetTbsDl(t, m, nb) >= need
        then forall k :: 0 <= k <= MAX_MCS && GetTbsDl(t, k, nb) >= need ==> GetTbsDl(t, m, nb) <= GetTbsDl(t, k, nb)
        else m == MAX_MCS && forall k :: 0 <= k <= MAX_MCS ==> GetTbsDl(t, k, nb) < need)
  }

  lemma {:induction false} LowerMcsStops(t: TbsTable, nb: nat, need: nat, mcs: nat)
    ensures var m := LowerMcs(t, nb, need, mcs);
      && (m == 0 || GetTbsDl(t, m, nb) <= need)
      && (forall k :: m < k <= mcs ==> GetTbsDl(t, k, nb) > need)
  {
    if GetTbsDl(t, mcs, nb) > need && mcs > 0 {
      LowerMcsStops(t, nb, need, mcs - 1);
    }
  }

  lemma {:induction false} RaiseMcsStops(t: TbsTable, nb: nat, need: nat, mcs: nat)
    requires mcs <= MAX_MCS
    ensures var m := RaiseMcs(t, nb, need, mcs);
      && (m == MAX_MCS || GetTbsDl(t, m, nb) >= need)
      && (forall k :: mcs <= k < m ==> GetTbsDl(t, k, nb) < need)
    decreases MAX_MCS - mcs
  {
    if GetTbsDl(t, mcs, nb) < need && mcs < MAX_MCS {
      RaiseMcsStops(t, nb, need, mcs + 1);
    }
  }

  /** Wherever it starts, lowering and then raising the scheme ends at the tightest block, provided the
      block size grows with the scheme for this number of resource blocks. */
  lemma FitMcsIsTightest(t: TbsTable, nb: nat, need: nat, mcs: nat)
    requires mcs <= MAX_MCS && MonotoneInMcs(t, nb)
    ensures Tightest(t, nb, need, FitMcs(t, nb, need, mcs))
  {
    var low := LowerMcs(t, nb, need, mcs);
    LowerMcsStops(t, nb, need, mcs);
    RaiseMcsStops(t, nb, need, low);
    var m := FitMcs(t, nb, need, mcs);
    forall k | 0 <= k <= MAX_MCS && k < m
      ensures GetTbsDl(t, k, nb) < need || GetTbsDl(t, k, nb) == GetTbsDl(t, m, nb)
    {
      if k < low {
        assert GetTbsDl(t, k, nb) <= GetTbsDl(t, low, nb);
        assert low > 0;
      }
    }
  }

  /** Which of the schemes with the tightest block it is: the highest up to the start if that block is exactly what is
      needed, and the lowest otherwise. */
  lemma FitMcsBreaksTies(t: TbsTable, nb: nat, need: nat, mcs: nat)
    requires mcs <= MAX_MCS && MonotoneInMcs(t, nb)
    ensures var m := FitMcs(t, nb, need, mcs);
      if exists k :: 0 <= k <= mcs && GetTbsDl(t, k, nb) == need
      then GetTbsDl(t, m, nb) == need && m <= mcs && forall k :: m < k <= mcs ==> GetTbsDl(t, k, nb) != need
      else forall k :: 0 <= k < m ==> GetTbsDl(t, k, nb) < need
  {
    var low := LowerMcs(t, nb, need, mcs);
    var m := FitMcs(t, nb, need, mcs);
    LowerMcsStops(t, nb, need, mcs);
    RaiseMcsStops(t, nb, need, low);
    if k :| 0 <= k <= mcs && GetTbsDl(t, k, nb) == need {
      assert k <= low && GetTbsDl(t, k, nb) <= GetTbsDl(t, low, nb);
      assert m == low;
    } else {
      forall k | 0 <= k < m
        ensures GetTbsDl(t, k, nb) < need
      {
        if k < low {
          assert GetTbsDl(t, k, nb) <= GetTbsDl(t, low, nb);
        }
      }
    }
  }

  /** A block that was large enough stays large enough through both loops, monotone or not. */
  lemma FitMcsKeepsEnough(t: TbsTable, nb: nat, need: nat, mcs: nat)
    requires mcs <= MAX_MCS && GetTbsDl(t, mcs, nb) >= need
    ensures GetTbsDl(t, FitMcs(t, nb, need, mcs), nb) >= need
  {
    var low := LowerMcs(t, nb, need, mcs);
    LowerMcsStops(t, nb, need, mcs);
    RaiseMcsStops(t, nb, need, low);
  }

  method FindMcs(t: TbsTable, nbRb: nat, need: nat, mcs: nat, tbs: uint16) returns (m: nat, tbs': uint16)
    requires mcs <= MAX_MCS && tbs == GetTbsDl(t, mcs, nbRb)
    ensures m == FitMcs(t, nbRb, need, mcs) && tbs' == GetTbsDl(t, m, nbRb)
  {
    m, tbs' := mcs, tbs;
    while tbs' > need && m > 0
      invariant m <= MAX_MCS && tbs' == GetTbsDl(t, m, nbRb)
      invariant LowerMcs(t, nbRb, need, m) == LowerMcs(t, nbRb, need, mcs)
      decreases m
    {
      m := m - 1;
      tbs' := GetTbsDl(t, m, nbRb);
    }
    while tbs' < need && m < 28
      invariant m <= MAX_MCS && tbs' == GetTbsDl(t, m, nbRb)
      invariant RaiseMcs(t, nbRb, need, m) == FitMcs(t, nbRb, need, mcs)
      decreases MAX_MCS - m
    {
      m := m + 1;
      tbs' := GetTbsDl(t, m, nbRb);
    }
  }

  // ---------- one resource block: where the real table is not monotone ----------

  /** First column of TBStable in bytes, by scheme. */
  function OneRbBytes(mcs: nat): nat {
    match mcs
    case 0 => 2 case 1 => 3 case 2 => 4 case 3 => 5 case 4 => 7 case 5 => 9 case 6 => 41
    case 7 => 13 case 8 => 15 case 9 => 17 case 10 => 17 case 11 => 18 case 12 => 22 case 13 => 26
    case 14 => 28 case 15 => 32 case 16 => 35 case 17 => 35 case 18 => 41 case 19 => 42 case 20 => 47
    case 21 => 51 case 22 => 55 case 23 => 61 case 24 => 65 case 25 => 69 case 26 => 73 case 27 => 77
    case _ => 89
  }

  lemma {:induction false} OneRbBytesSorted(i: nat, j: nat)
    requires i <= j <= MAX_MCS && (j <= 6 || i >= 7)
    ensures OneRbBytes(i) <= OneRbBytes(j)
    decreases j
  {
    if i < j {
      OneRbBytesSorted(i, j - 1);
    }
  }

  ghost predicate HasOneRbColumn(t: TbsTable) {
    forall m :: 0 <= m <= MAX_MCS ==> GetTbsDl(t, m, 1) == OneRbBytes(m)
  }

  /** With a single resource block row 6 of the table is too large for its place, and the search misses the
      tightest block exactly for these needs. */
  predicate MissedAtOneRb(need: nat, mcs: nat) {
    9 < need <= (if mcs <= 6 then 35 else 12)
  }

  lemma FitMcsAtOneRb(t: TbsTable, need: nat, mcs: nat)
    requires mcs <= MAX_MCS && HasOneRbColumn(t)
    ensures Tightest(t, 1, need, FitMcs(t, 1, need, mcs)) <==> !MissedAtOneRb(need, mcs)
  {
    var m := FitMcs(t, 1, need, mcs);
    var low := LowerMcs(t, 1, need, mcs);
    LowerMcsStops(t, 1, need, mcs);
    RaiseMcsStops(t, 1, need, low);
    if MissedAtOneRb(need, mcs) {
      LandsOnRowSix(t, need, mcs);
      assert GetTbsDl(t, if mcs <= 6 then 16 else 7, 1) < 41;
    } else {
      forall k | 0 <= k <= MAX_MCS && GetTbsDl(t, k, 1) >= need
        ensures GetTbsDl(t, m, 1) >= need && GetTbsDl(t, m, 1) <= GetTbsDl(t, k, 1)
      {
        NoTighterAtOneRb(t, need, mcs, k);
      }
    }
  }

  lemma LandsOnRowSix(t: TbsTable, need: nat, mcs: nat)
    requires mcs <= MAX_MCS && HasOneRbColumn(t) && MissedAtOneRb(need, mcs)
    ensures FitMcs(t, 1, need, mcs) == 6
  {
    var m := FitMcs(t, 1, need, mcs);
    var low := LowerMcs(t, 1, need, mcs);
    LowerMcsStops(t, 1, need, mcs);
    RaiseMcsStops(t, 1, need, low);
    assert GetTbsDl(t, 6, 1) == 41;
    if low > 6 {
      OneRbBytesSorted(7, low);
    }
    if m < 6 {
      OneRbBytesSorted(m, 5);
    }
  }

  lemma NoTighterAtOneRb(t: TbsTable, need: nat, mcs: nat, k: nat)
    requires mcs <= MAX_MCS && HasOneRbColumn(t) && !MissedAtOneRb(need, mcs)
    requires k <= MAX_MCS && GetTbsDl(t, k, 1) >= need
    ensures var m := FitMcs(t, 1, need, mcs);
      GetTbsDl(t, m, 1) >= need && GetTbsDl(t, m, 1) <= GetTbsDl(t, k, 1)
  {
    var m := FitMcs(t, 1, need, mcs);
    var low := LowerMcs(t, 1, need, mcs);
    LowerMcsStops(t, 1, need, mcs);
    RaiseMcsStops(t, 1, need, low);
    assert GetTbsDl(t, m, 1) == OneRbBytes(m) && GetTbsDl(t, k, 1) == OneRbBytes(k);
    OneRbExtremes(k);
    if m > low {
      assert GetTbsDl(t, m - 1, 1) == OneRbBytes(m - 1);
      if k < m {
        BelowTheFirstFit(need, k, m);
      } else if m < 6 && k > 6 {
        OneRbBytesSorted(m, 5);
        OneRbBytesSorted(7, k);
      } else if m != 6 {
        OneRbBytesSorted(m, k);
      } else {
        AboveRowSix(need, k, mcs);
      }
    }
  }

  lemma OneRbExtremes(k: nat)
    requires k <= MAX_MCS
    ensures 2 <= OneRbBytes(k) <= 89
  {
  }

  /** A scheme below the one where raising stopped fits only if that one is row 6's rival. */
  lemma BelowTheFirstFit(need: nat, k: nat, m: nat)
    requires k < m <= MAX_MCS
    requires OneRbBytes(m - 1) < need <= OneRbBytes(k)
    ensures OneRbBytes(m) <= OneRbBytes(k)
  {
    if m <= 7 || k >= 7 {
      if k >= 7 {
        OneRbBytesSorted(k, m - 1);
      } else {
        OneRbBytesSorted(k, 6);
        OneRbBytesSorted(k, m - 1);
      }
      assert false;
    } else {
      OneRbBytesSorted(7, m - 1);
      if k < 6 {
        OneRbBytesSorted(k, 5);
        assert false;
      } else {
        assert m <= 18;
        OneRbBytesSorted(m, 18);
      }
    }
  }

  lemma AboveRowSix(need: nat, k: nat, mcs: nat)
    requires 6 <= k <= MAX_MCS && 9 < need <= OneRbBytes(k)
    requires !MissedAtOneRb(need, mcs) && (mcs > 6 ==> need < 13)
    ensures 41 <= OneRbBytes(k)
  {
    if 7 <= k < 18 {
      OneRbBytesSorted(k, 17);
    } else if k >= 18 {
      OneRbBytesSorted(18, k);
    }
  }

  // ---------- how the search ends on the real table ----------

  /** One column of the table: the first is as it is, and in every other block sizes grow with the scheme. */
  ghost predicate ColumnShape(t: TbsTable, nb: nat) {
    if nb == 1 then HasOneRbColumn(t) else MonotoneInMcs(t, nb)
  }

  ghost predicate TableShape(t: TbsTable) {
    forall nb :: 1 <= nb <= 100 ==> ColumnShape(t, nb)
  }

  /** No scheme has a larger block than the highest; so it is in every column of the table. */
  ghost predicate TopIsBest(t: TbsTable, nb: nat) {
    forall m :: 0 <= m <= MAX_MCS ==> GetTbsDl(t, m, nb) <= GetTbsDl(t, MAX_MCS, nb)
  }

  lemma TopIsBestInColumn(t: TbsTable, nb: nat)
    requires ColumnShape(t, nb)
    ensures TopIsBest(t, nb)
  {
    if nb == 1 {
      assert GetTbsDl(t, MAX_MCS, 1) == OneRbBytes(MAX_MCS);
      forall m | 0 <= m <= MAX_MCS
        ensures GetTbsDl(t, m, 1) <= GetTbsDl(t, MAX_MCS, 1)
      {
        OneRbExtremes(m);
      }
    }
  }

  /** Anything up to the need fits the block chosen if and only if it fits the block of the highest scheme. */
  lemma FitReachesTop(t: TbsTable, nb: nat, need: nat, mcs: nat, bytes: int)
    requires mcs <= MAX_MCS && TopIsBest(t, nb) && (bytes <= need || GetTbsDl(t, MAX_MCS, nb) < bytes)
    ensures bytes <= GetTbsDl(t, FitMcs(t, nb, need, mcs), nb) <==> bytes <= GetTbsDl(t, MAX_MCS, nb)
  {
    RaiseMcsStops(t, nb, need, LowerMcs(t, nb, need, mcs));
  }

  /** No scheme has a block from lo up to but not including hi. */
  ghost predicate NoBlockBetween(t: TbsTable, nb: nat, lo: int, hi: int) {
    forall m :: 0 <= m <= MAX_MCS ==> !(lo <= GetTbsDl(t, m, nb) < hi)
  }

  /** The search on one resource block ends at the oversized row 6 although a smaller block would do. */
  predicate SearchMissed(nb: nat, need: nat, mcs: nat) {
    nb == 1 && MissedAtOneRb(need, mcs)
  }

  /** The highest scheme's block holds the bytes and, should the need be met at all, no scheme meets it without holding
      the bytes as well - except where the search on one resource block misses the tightest block anyway. */
  ghost predicate AlsoFits(t: TbsTable, nb: nat, need: nat, mcs: nat, bytes: int) {
    var top := GetTbsDl(t, MAX_MCS, nb);
    bytes <= top && (SearchMissed(nb, need, mcs) || (need <= top ==> NoBlockBetween(t, nb, need, bytes)))
  }

  /** When the block chosen for a need also holds a few bytes more than that. */
  lemma FitReachesIff(t: TbsTable, nb: nat, need: nat, mcs: nat, bytes: int)
    requires mcs <= MAX_MCS && ColumnShape(t, nb) && (bytes <= need + 6 || GetTbsDl(t, MAX_MCS, nb) < bytes)
    ensures bytes <= GetTbsDl(t, FitMcs(t, nb, need, mcs), nb) <==> AlsoFits(t, nb, need, mcs, bytes)
  {
    TopIsBestInColumn(t, nb);
    if SearchMissed(nb, need, mcs) {
      LandsOnRowSix(t, need, mcs);
      assert GetTbsDl(t, 6, 1) == 41;
    } else {
      if nb == 1 {
        FitMcsAtOneRb(t, need, mcs);
      } else {
        FitMcsIsTightest(t, nb, need, mcs);
      }
    }
  }
}
