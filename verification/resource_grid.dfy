/** Resource block groups of type 0 allocation (section 7.1.6.1 of 3GPP TS 36.213) as the scheduler sees
    them: how many groups a carrier has, how many resource blocks each holds, and how many resource
    blocks a set of groups adds up to. */
module ResourceGrid {

  const N_RBG_MAX: nat := 25

  /** The bandwidths for which group count and group size agree (see GridPartition). */
  predicate Supported(bw: nat) {
    bw == 6 || bw == 25 || bw == 50 || bw == 100
  }

  function MinRbUnit(bw: nat): nat {
    match bw
    case 6 => 1
    case 25 => 2
    case 50 => 3
    case 100 => 4
    case _ => 2
  }

  function NbRbg(bw: nat): (n: nat)
    ensures n <= N_RBG_MAX
  {
    match bw
    case 100 => 25
    case 75 => 19
    case 50 => 17
    case 25 => 13
    case 15 => 8
    case 6 => 6
    case _ => 0
  }

  /** The last group of a 25 or 50 RB carrier is one resource block short. */
  predicate ShortGroup(bw: nat, g: nat) {
    g + 1 == NbRbg(bw) && (bw == 25 || bw == 50)
  }

  function GroupSize(bw: nat, g: nat): (s: nat)
    ensures s <= MinRbUnit(bw)
    ensures Supported(bw) ==> s > 0
  {
    if ShortGroup(bw, g) then MinRbUnit(bw) - 1 else MinRbUnit(bw)
  }

  /** A set of groups, one flag per group, as in vrb_map_ and rballoc_sub_. */
  type Groups = s: seq<bool> | |s| == N_RBG_MAX witness NoGroups()

  function NoGroups(): (s: seq<bool>)
    ensures |s| == N_RBG_MAX
  {
    seq(N_RBG_MAX, _ => false)
  }

  function AllGroups(): (s: Groups) {
    seq(N_RBG_MAX, _ => true)
  }

  function Free(s: Groups): (f: Groups)
    ensures forall g :: 0 <= g < N_RBG_MAX ==> f[g] == !s[g]
  {
    seq(N_RBG_MAX, g requires 0 <= g < N_RBG_MAX => !s[g])
  }

  /** Resource blocks held by the groups of s below n. */
  function RbsBelow(bw: nat, s: Groups, n: nat): nat
    requires n <= N_RBG_MAX
  {
    if n == 0 then 0 else RbsBelow(bw, s, n - 1) + if s[n - 1] then GroupSize(bw, n - 1) else 0
  }

  /** Resource blocks held by s. */
  function Rbs(bw: nat, s: Groups): nat {
    RbsBelow(bw, s, NbRbg(bw))
  }

  /** Setting one more group adds exactly its size to every count that reaches past it. */
  lemma {:induction false} RbsBelowSet(bw: nat, s: Groups, g: nat, n: nat)
    requires g < N_RBG_MAX && n <= N_RBG_MAX && !s[g]
    ensures RbsBelow(bw, s[g := true], n) == RbsBelow(bw, s, n) + if g < n then GroupSize(bw, g) else 0
  {
    if n > 0 {
      RbsBelowSet(bw, s, g, n - 1);
    }
  }

  lemma {:induction false} RbsBelowMonotone(bw: nat, s: Groups, t: Groups, m: nat, n: nat)
    requires m <= n <= N_RBG_MAX
    requires forall g :: 0 <= g < m && s[g] ==> t[g]
    ensures RbsBelow(bw, s, m) <= RbsBelow(bw, t, n)
    decreases n
  {
    if m < n {
      RbsBelowMonotone(bw, s, t, m, n - 1);
    } else if n > 0 {
      RbsBelowMonotone(bw, s, t, m - 1, n - 1);
    }
  }

  lemma {:induction false} RbsBelowNone(bw: nat, s: Groups, n: nat)
    requires n <= N_RBG_MAX
    requires forall g :: 0 <= g < n ==> !s[g]
    ensures RbsBelow(bw, s, n) == 0
  {
    if n > 0 {
      RbsBelowNone(bw, s, n - 1);
    }
  }

  lemma {:induction false} RbsBelowSame(bw: nat, s: Groups, t: Groups, n: nat)
    requires n <= N_RBG_MAX
    requires forall g :: 0 <= g < n ==> s[g] == t[g]
    ensures RbsBelow(bw, s, n) == RbsBelow(bw, t, n)
  {
    if n > 0 {
      RbsBelowSame(bw, s, t, n - 1);
    }
  }

  lemma {:induction false} RbsBelowFree(bw: nat, s: Groups, n: nat)
    requires n <= N_RBG_MAX
    ensures RbsBelow(bw, s, n) + RbsBelow(bw, Free(s), n) == RbsBelow(bw, AllGroups(), n)
  {
    if n > 0 {
      RbsBelowFree(bw, s, n - 1);
    }
  }

  lemma {:induction false} RbsBelowAll(bw: nat, n: nat)
    requires n <= N_RBG_MAX
    ensures RbsBelow(bw, AllGroups(), n)
         == n * MinRbUnit(bw) - if n > 0 && NbRbg(bw) <= n && (bw == 25 || bw == 50) then 1 else 0
  {
    if n > 0 {
      RbsBelowAll(bw, n - 1);
    }
  }

  /** The groups of a carrier add up to its bandwidth exactly for the supported bandwidths: at 15 and 75
      the group count assumes another group size than get_min_rb_unit returns, and any other value has no
      groups at all. */
  lemma GridPartition(bw: nat)
    requires bw > 0
    ensures Rbs(bw, AllGroups()) == bw <==> Supported(bw)
  {
    RbsBelowAll(bw, NbRbg(bw));
  }

  /** Used and free groups of a supported carrier always add up to its bandwidth. */
  lemma UsedPlusFree(bw: nat, s: Groups)
    requires Supported(bw)
    ensures Rbs(bw, s) + Rbs(bw, Free(s)) == bw
  {
    RbsBelowFree(bw, s, NbRbg(bw));
    GridPartition(bw);
  }
}
