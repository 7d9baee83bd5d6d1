/** From a UE's groups to the resource allocation field of its DCI: the marking loop of
    run_central_scheduler, which counts in 16 bits and may mark too much, and allocate_prbs_sub, which
    trims with a signed count and prints the bitmap (section 7.1.6.1 of 3GPP TS 36.213). */
module DciBitmap {
  import opened Words
  import opened ResourceGrid
  import opened Bits

  // ---------- marking ----------

  function MarkFrom(bw: nat, mask: Groups, rem: uint16, j: nat, row: Groups): Groups
    requires j <= NbRbg(bw)
    decreases NbRbg(bw) - j
  {
    if rem > 0 && j < NbRbg(bw) then
      if mask[j] then MarkFrom(bw, mask, W16(rem - GroupSize(bw, j)), j + 1, row[j := true])
      else MarkFrom(bw, mask, rem, j + 1, row)
    else row
  }

  function CopyBelow(mask: Groups, row: Groups, n: nat): (r: Groups)
    requires n <= N_RBG_MAX
    ensures forall g :: 0 <= g < N_RBG_MAX ==> r[g] == if g < n then mask[g] else row[g]
  {
    mask[..n] + row[n..]
  }

  /** The row of rballoc_sub_scheduled_ after scheduling nb of the pre resource blocks in mask. */
  function Scheduled(bw: nat, mask: Groups, nb: uint16, pre: uint16, row: Groups): Groups {
    if nb == pre then CopyBelow(mask, row, NbRbg(bw)) else MarkFrom(bw, mask, nb, 0, row)
  }

  /** Marks groups in the row until nb resource blocks are covered. */
  method MarkGroups(bw: nat, rballocSub: array<bool>, nb: uint16, pre: uint16, row: Groups) returns (row': Groups)
    requires rballocSub.Length == N_RBG_MAX
    ensures row' == Scheduled(bw, rballocSub[..], nb, pre, row)
  {
    row' := row;
    ghost var mask: Groups := rballocSub[..];
    if nb == pre {
      for j := 0 to NbRbg(bw)
        invariant row' == CopyBelow(mask, row, j)
      {
        row' := row'[j := rballocSub[j]];
      }
    } else {
      var rem: uint16 := nb;
      var j := 0;
      while rem > 0 && j < NbRbg(bw)
        invariant 0 <= j <= NbRbg(bw)
        invariant MarkFrom(bw, mask, rem, j, row') == MarkFrom(bw, mask, nb, 0, row)
        decreases NbRbg(bw) - j
      {
        if rballocSub[j] {
          row' := row'[j := true];
          if j == NbRbg(bw) - 1 && (bw == 25 || bw == 50) {
            rem := W16(rem - MinRbUnit(bw) + 1);
          } else {
            rem := W16(rem - MinRbUnit(bw));
          }
        }
        j := j + 1;
      }
    }
  }

  // ---------- trimming ----------

  /** The shortest prefix of the groups in s that covers nb resource blocks: a group belongs to it exactly
      when the groups before it do not cover nb yet. */
  function Cover(bw: nat, s: Groups, nb: int): (c: Groups)
    ensures forall g :: 0 <= g < N_RBG_MAX ==> (c[g] <==> g < NbRbg(bw) && s[g] && RbsBelow(bw, s, g) < nb)
  {
    seq(N_RBG_MAX, g requires 0 <= g < N_RBG_MAX => g < NbRbg(bw) && s[g] && RbsBelow(bw, s, g) < nb)
  }

  /** The bitmap with group g at bit NbRbg - 1 - g, restricted to groups below n. */
  function BitmapBelow(bw: nat, s: Groups, n: nat): nat
    requires n <= NbRbg(bw)
  {
    if n == 0 then 0
    else if s[n - 1] then WithBit(BitmapBelow(bw, s, n - 1), NbRbg(bw) - n)
    else BitmapBelow(bw, s, n - 1)
  }

  function Bitmap(bw: nat, s: Groups): nat {
    BitmapBelow(bw, s, NbRbg(bw))
  }

  method AllocatePrbsSub(bw: nat, nbRb: int, rballoc: Groups) returns (dci: nat)
    requires Supported(bw)
    ensures dci == Bitmap(bw, Cover(bw, rballoc, nbRb))
  {
    var nb := nbRb;
    var check := 0;
    dci := 0;
    ghost var cover := Cover(bw, rballoc, nbRb);
    while nb > 0 && check < NbRbg(bw)
      invariant 0 <= check <= NbRbg(bw)
      invariant nb == nbRb - RbsBelow(bw, rballoc, check)
      invariant dci == BitmapBelow(bw, cover, check)
    {
      if rballoc[check] {
        dci := WithBit(dci, NbRbg(bw) - 1 - check);
        match bw {
          case 6 => nb := nb - 1;
          case 25 => nb := if check == NbRbg(bw) - 1 then nb - 1 else nb - 2;
          case 50 => nb := if check == NbRbg(bw) - 1 then nb - 2 else nb - 3;
          case 100 => nb := nb - 4;
          case _ =>
        }
      }
      check := check + 1;
    }
    NothingAfter(bw, rballoc, nbRb, check, NbRbg(bw));
  }

  lemma {:induction false} NothingAfter(bw: nat, s: Groups, nb: int, m: nat, n: nat)
    requires m <= n <= NbRbg(bw)
    requires m == NbRbg(bw) || RbsBelow(bw, s, m) >= nb
    ensures BitmapBelow(bw, Cover(bw, s, nb), n) == BitmapBelow(bw, Cover(bw, s, nb), m)
  {
    if m < n {
      NothingAfter(bw, s, nb, m, n - 1);
      RbsBelowMonotone(bw, s, s, m, n - 1);
    }
  }

  // ---------- what the bits say ----------

  lemma {:induction false} BitmapBelowBits(bw: nat, s: Groups, n: nat, k: nat)
    requires n <= NbRbg(bw)
    ensures Bit(BitmapBelow(bw, s, n), k) <==> k < NbRbg(bw) && NbRbg(bw) - 1 - k < n && s[NbRbg(bw) - 1 - k]
  {
    if n == 0 {
      ZeroHasNoBit(k);
    } else {
      BitmapBelowBits(bw, s, n - 1, k);
      if s[n - 1] {
        WithBitSetsOne(BitmapBelow(bw, s, n - 1), NbRbg(bw) - n, k);
      }
    }
  }

  /** Bit NbRbg - 1 - g of the DCI says whether group g belongs to it; no other bit is ever set. */
  lemma BitmapBits(bw: nat, s: Groups, k: nat)
    ensures Bit(Bitmap(bw, s), k) <==> k < NbRbg(bw) && s[NbRbg(bw) - 1 - k]
  {
    BitmapBelowBits(bw, s, NbRbg(bw), k);
  }

  /** Disjoint groups print as bitmaps without a common bit. */
  lemma BitmapsDisjoint(bw: nat, s: Groups, t: Groups)
    requires forall g :: 0 <= g < N_RBG_MAX ==> !(s[g] && t[g])
    ensures NoCommonBit(Bitmap(bw, s), Bitmap(bw, t))
  {
    forall k: nat
      ensures !(Bit(Bitmap(bw, s), k) && Bit(Bitmap(bw, t), k))
    {
      BitmapBits(bw, s, k);
      BitmapBits(bw, t, k);
    }
  }

  // ---------- main results ----------

  /** The marking loop marks only groups of the UE, and every group that is reached before the count runs
      out, even though its 16-bit count can wrap past zero and mark more. */
  lemma {:induction false} MarkFromMarksEnough(bw: nat, mask: Groups, rem: uint16, j: nat, row: Groups)
    requires j <= NbRbg(bw)
    ensures var r := MarkFrom(bw, mask, rem, j, row);
      && (forall g :: 0 <= g < N_RBG_MAX && row[g] ==> r[g])
      && (forall g :: 0 <= g < N_RBG_MAX && r[g] && !row[g] ==> j <= g < NbRbg(bw) && mask[g])
      && (forall g :: j <= g < NbRbg(bw) && mask[g] && RbsBelow(bw, mask, g) - RbsBelow(bw, mask, j) < rem ==> r[g])
    decreases NbRbg(bw) - j
  {
    if rem > 0 && j < NbRbg(bw) {
      forall g | j < g < NbRbg(bw)
        ensures RbsBelow(bw, mask, j + 1) <= RbsBelow(bw, mask, g)
      {
        RbsBelowMonotone(bw, mask, mask, j + 1, g);
      }
      if mask[j] {
        MarkFromMarksEnough(bw, mask, W16(rem - GroupSize(bw, j)), j + 1, row[j := true]);
      } else {
        MarkFromMarksEnough(bw, mask, rem, j + 1, row);
      }
    } else {
      forall g | j <= g < NbRbg(bw)
        ensures RbsBelow(bw, mask, j) <= RbsBelow(bw, mask, g)
      {
        RbsBelowMonotone(bw, mask, mask, j, g);
      }
    }
  }

  /** Trimming a row that lies between the cover of the mask and the mask gives the cover of the mask. */
  lemma CoverOfRow(bw: nat, mask: Groups, row: Groups, nb: int)
    requires forall g :: 0 <= g < NbRbg(bw) && row[g] ==> mask[g]
    requires forall g :: 0 <= g < NbRbg(bw) && mask[g] && RbsBelow(bw, mask, g) < nb ==> row[g]
    ensures Cover(bw, row, nb) == Cover(bw, mask, nb)
  {
    forall g | 0 <= g < NbRbg(bw)
      ensures Cover(bw, row, nb)[g] == Cover(bw, mask, nb)[g]
    {
      CountsAgree(bw, mask, row, nb, g);
    }
  }

  lemma {:induction false} CountsAgree(bw: nat, mask: Groups, row: Groups, nb: int, n: nat)
    requires n <= NbRbg(bw)
    requires forall g :: 0 <= g < NbRbg(bw) && row[g] ==> mask[g]
    requires forall g :: 0 <= g < NbRbg(bw) && mask[g] && RbsBelow(bw, mask, g) < nb ==> row[g]
    ensures RbsBelow(bw, mask, n) < nb ==> RbsBelow(bw, row, n) == RbsBelow(bw, mask, n)
    ensures RbsBelow(bw, mask, n) >= nb ==> RbsBelow(bw, row, n) >= nb
  {
    if n > 0 {
      CountsAgree(bw, mask, row, nb, n - 1);
    }
  }

  /** The DCI covers exactly the shortest sufficient prefix of the UE's groups, whether the row was copied or
      marked, and although marking may have gone too far. */
  lemma DciIsMinimalPrefix(bw: nat, mask: Groups, nb: uint16, pre: uint16)
    ensures Cover(bw, Scheduled(bw, mask, nb, pre, NoGroups()), nb) == Cover(bw, mask, nb)
  {
    MarkFromMarksEnough(bw, mask, nb, 0, NoGroups());
    CoverOfRow(bw, mask, Scheduled(bw, mask, nb, pre, NoGroups()), nb);
  }

  lemma {:induction false} CoverCount(bw: nat, s: Groups, nb: nat, n: nat)
    requires Supported(bw) && n <= NbRbg(bw)
    ensures RbsBelow(bw, s, n) <= nb ==> RbsBelow(bw, Cover(bw, s, nb), n) == RbsBelow(bw, s, n)
    ensures RbsBelow(bw, s, n) >= nb ==>
      || nb <= RbsBelow(bw, Cover(bw, s, nb), n) < nb + MinRbUnit(bw)
      || (nb == 0 && RbsBelow(bw, Cover(bw, s, nb), n) == 0)
  {
    if n > 0 {
      CoverCount(bw, s, nb, n - 1);
    }
  }

  /** How much the DCI covers: at least nb and less than one group more than nb when the UE holds that many,
      and everything the UE holds, which is then too little, when it does not. */
  lemma DciCoverage(bw: nat, mask: Groups, nb: nat)
    requires Supported(bw) && nb > 0
    ensures var got := Rbs(bw, Cover(bw, mask, nb));
      && (nb <= Rbs(bw, mask) <==> nb <= got < nb + MinRbUnit(bw))
      && (nb > Rbs(bw, mask) ==> got == Rbs(bw, mask))
  {
    CoverCount(bw, mask, nb, NbRbg(bw));
  }
}
