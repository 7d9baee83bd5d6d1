/** The order in which the preprocessor visits UEs: compare_stats and sort_UEs. */
module UeSort {
  import opened Preprocessor
  import opened SchedulerHelper
  import opened LexOrder

  /** The sort key collected for a UE; all zero for a UE of another cell or without a free HARQ process. */
  datatype UeStats = UeStats(bytesInCcch: int, totalBytesInBuffers: int, holDelay: int, cqi: int, harqRound: int)

  predicate CompareStats(a: UeStats, b: UeStats) {
    if a.harqRound > b.harqRound then true
    else if a.harqRound < b.harqRound then false
    else if a.bytesInCcch > b.bytesInCcch then true
    else if a.bytesInCcch < b.bytesInCcch then false
    else if a.holDelay > b.holDelay then true
    else if a.holDelay < b.holDelay then false
    else if a.totalBytesInBuffers > b.totalBytesInBuffers then true
    else if a.totalBytesInBuffers < b.totalBytesInBuffers then false
    else if a.cqi > b.cqi then true
    else if a.cqi < b.cqi then false
    else true
  }

  /** a comes before b whatever the ties. */
  predicate Before(a: UeStats, b: UeStats) {
    CompareStats(a, b) && !CompareStats(b, a)
  }

  /** compare_stats is a total preorder whose ties are exactly the equal keys.  It holds of a key and itself, so
      it is not the strict order std::sort asks for; its strict part is one. */
  lemma CompareStatsIsPreorder(a: UeStats, b: UeStats, c: UeStats)
    ensures CompareStats(a, b) || CompareStats(b, a)
    ensures CompareStats(a, b) && CompareStats(b, c) ==> CompareStats(a, c)
    ensures CompareStats(a, b) && CompareStats(b, a) <==> a == b
    ensures Before(a, b) && Before(b, c) ==> Before(a, c)
    ensures !Before(a, b) && !Before(b, a) && !Before(b, c) && !Before(c, b) ==> !Before(a, c) && !Before(c, a)
  {
  }

  /** The numbers that decide, most important first. */
  function Key(a: UeStats): (k: seq<int>)
    ensures |k| == 5
  {
    [a.harqRound, a.bytesInCcch, a.holDelay, a.totalBytesInBuffers, a.cqi]
  }

  /** compare_stats compares the keys lexicographically. */
  lemma CompareStatsIff(a: UeStats, b: UeStats)
    ensures CompareStats(a, b) <==> LexGeq(Key(a), Key(b))
  {
    var k4, l4 := [a.cqi], [b.cqi];
    var k3, l3 := [a.totalBytesInBuffers] + k4, [b.totalBytesInBuffers] + l4;
    var k2, l2 := [a.holDelay] + k3, [b.holDelay] + l3;
    var k1, l1 := [a.bytesInCcch] + k2, [b.bytesInCcch] + l2;
    LexGeqCons(a.cqi, b.cqi, [], []);
    LexGeqCons(a.totalBytesInBuffers, b.totalBytesInBuffers, k4, l4);
    LexGeqCons(a.holDelay, b.holDelay, k3, l3);
    LexGeqCons(a.bytesInCcch, b.bytesInCcch, k2, l2);
    LexGeqCons(a.harqRound, b.harqRound, k1, l1);
    assert Key(a) == [a.harqRound] + k1 && Key(b) == [b.harqRound] + l1;
    assert k4 == [a.cqi] + [] && l4 == [b.cqi] + [];
  }

  ghost predicate Sorted(stats: seq<UeStats>, order: seq<nat>)
    requires ValidOrder(order, |stats|)
  {
    forall i, j :: 0 <= i < j < |order| ==> CompareStats(stats[order[i]], stats[order[j]])
  }

  /** Places UE i in an order already sorted. */
  function Insert(stats: seq<UeStats>, order: seq<nat>, i: nat): (r: seq<nat>)
    requires ValidOrder(order, |stats|) && i < |stats|
    ensures ValidOrder(r, |stats|)
  {
    if order == [] then [i]
    else if Before(stats[i], stats[order[0]]) then [i] + order
    else [order[0]] + Insert(stats, order[1..], i)
  }

  /** A sort by the strict part of compare_stats, standing for std::sort. */
  function SortBelow(stats: seq<UeStats>, n: nat): (r: seq<nat>)
    requires n <= |stats|
    ensures ValidOrder(r, |stats|)
  {
    if n == 0 then [] else Insert(stats, SortBelow(stats, n - 1), n - 1)
  }

  function SortUes(stats: seq<UeStats>): seq<nat> {
    SortBelow(stats, |stats|)
  }

  lemma {:induction false} InsertKeepsElements(stats: seq<UeStats>, order: seq<nat>, i: nat)
    requires ValidOrder(order, |stats|) && i < |stats|
    ensures multiset(Insert(stats, order, i)) == multiset(order) + multiset{i}
  {
    if order != [] && !Before(stats[i], stats[order[0]]) {
      InsertKeepsElements(stats, order[1..], i);
      assert order == [order[0]] + order[1..];
    }
  }

  lemma {:induction false} InsertKeepsSorted(stats: seq<UeStats>, order: seq<nat>, i: nat)
    requires ValidOrder(order, |stats|) && i < |stats| && Sorted(stats, order)
    ensures Sorted(stats, Insert(stats, order, i))
  {
    if order != [] && !Before(stats[i], stats[order[0]]) {
      var rest := Insert(stats, order[1..], i);
      InsertKeepsSorted(stats, order[1..], i);
      InsertKeepsElements(stats, order[1..], i);
      forall j | 0 <= j < |rest|
        ensures CompareStats(stats[order[0]], stats[rest[j]])
      {
        assert rest[j] in multiset(rest);
        CompareStatsIsPreorder(stats[i], stats[order[0]], stats[i]);
      }
    } else if order != [] {
      forall j | 0 <= j < |order|
        ensures CompareStats(stats[i], stats[order[j]])
      {
        CompareStatsIsPreorder(stats[i], stats[order[0]], stats[order[j]]);
      }
    }
  }

  function Indices(n: nat): multiset<nat> {
    if n == 0 then multiset{} else Indices(n - 1) + multiset{n - 1}
  }

  lemma {:induction false} IndicesCount(n: nat, i: nat)
    ensures Indices(n)[i] == if i < n then 1 else 0
  {
    if n > 0 {
      IndicesCount(n - 1, i);
    }
  }

  lemma {:induction false} SortBelowElements(stats: seq<UeStats>, n: nat)
    requires n <= |stats|
    ensures multiset(SortBelow(stats, n)) == Indices(n)
  {
    if n > 0 {
      var before := SortBelow(stats, n - 1);
      SortBelowElements(stats, n - 1);
      InsertKeepsElements(stats, before, n - 1);
      assert SortBelow(stats, n) == Insert(stats, before, n - 1);
    }
  }

  lemma {:induction false} SortBelowSorted(stats: seq<UeStats>, n: nat)
    requires n <= |stats|
    ensures Sorted(stats, SortBelow(stats, n))
  {
    if n > 0 {
      SortBelowSorted(stats, n - 1);
      InsertKeepsSorted(stats, SortBelow(stats, n - 1), n - 1);
    }
  }

  lemma {:induction false} RepeatedElement(s: seq<nat>, i: nat, j: nat)
    requires i < j < |s| && s[i] == s[j]
    ensures multiset(s)[s[i]] >= 2
  {
    assert s == s[..j] + [s[j]] + s[j + 1..];
    assert s[i] in multiset(s[..j]) by {
      assert s[..j][i] == s[i];
    }
  }

  /** sort_UEs visits every UE exactly once, in non-increasing order of its key. */
  lemma SortUesIsSortedPermutation(stats: seq<UeStats>)
    ensures Permutation(SortUes(stats), |stats|) && Sorted(stats, SortUes(stats))
  {
    var order := SortUes(stats);
    SortBelowElements(stats, |stats|);
    SortBelowSorted(stats, |stats|);
    forall i, j | 0 <= i < j < |order|
      ensures order[i] != order[j]
    {
      if order[i] == order[j] {
        RepeatedElement(order, i, j);
        IndicesCount(|stats|, order[i]);
      }
    }
    forall i | 0 <= i < |stats|
      ensures i in order
    {
      IndicesCount(|stats|, i);
      assert i in multiset(order);
    }
  }

  /** Who is visited earlier never has a smaller key: no lower HARQ round; among equal rounds no fewer bytes for the
      control channels; among equal ones no smaller delay; then no fewer bytes in all; then no worse channel quality. */
  lemma EarlierIsMoreUrgent(stats: seq<UeStats>, i: nat, j: nat)
    requires i < j < |SortUes(stats)|
    ensures var order := SortUes(stats);
      && order[i] < |stats| && order[j] < |stats|
      && var a, b := stats[order[i]], stats[order[j]];
        && a.harqRound >= b.harqRound
        && (a.harqRound == b.harqRound ==>
              && a.bytesInCcch >= b.bytesInCcch
              && (a.bytesInCcch == b.bytesInCcch ==>
                    && a.holDelay >= b.holDelay
                    && (a.holDelay == b.holDelay ==>
                          && a.totalBytesInBuffers >= b.totalBytesInBuffers
                          && (a.totalBytesInBuffers == b.totalBytesInBuffers ==> a.cqi >= b.cqi))))
  {
    SortUesIsSortedPermutation(stats);
  }

  // ---------- the result does not depend on the sorting algorithm ----------

  ghost function FirstOf(order: seq<nat>, k: nat): set<nat>
    requires k <= |order|
  {
    set j | 0 <= j < k :: order[j]
  }

  lemma {:induction false} FirstOfSize(order: seq<nat>, k: nat)
    requires k <= |order| && forall i, j :: 0 <= i < j < |order| ==> order[i] != order[j]
    ensures |FirstOf(order, k)| == k
  {
    if k == 0 {
      assert FirstOf(order, 0) == {};
    } else {
      FirstOfSize(order, k - 1);
      assert FirstOf(order, k) == FirstOf(order, k - 1) + {order[k - 1]};
      assert order[k - 1] !in FirstOf(order, k - 1);
    }
  }

  lemma SubsetNotLarger(a: set<nat>, b: set<nat>)
    requires a <= b
    ensures |a| <= |b|
  {
    assert |b| == |a| + |b - a| by {
      assert b == a + (b - a);
    }
  }

  lemma NoEarlierKey(stats: seq<UeStats>, o: seq<nat>, p: seq<nat>, k: nat)
    requires Permutation(o, |stats|) && Permutation(p, |stats|) && Sorted(stats, o) && Sorted(stats, p)
    requires k < |o| && k < |p|
    ensures !Before(stats[o[k]], stats[p[k]])
  {
    if Before(stats[o[k]], stats[p[k]]) {
      forall j | 0 <= j <= k
        ensures o[j] in FirstOf(p, k)
      {
        var i := PositionOf(p, o[j]);
        CompareStatsIsPreorder(stats[o[j]], stats[o[k]], stats[p[k]]);
        CompareStatsIsPreorder(stats[p[k]], stats[o[j]], stats[o[k]]);
        assert Before(stats[o[j]], stats[p[k]]);
        assert i < k;
      }
      assert FirstOf(o, k + 1) <= FirstOf(p, k);
      SubsetNotLarger(FirstOf(o, k + 1), FirstOf(p, k));
      FirstOfSize(o, k + 1);
      FirstOfSize(p, k);
      assert false;
    }
  }

  /** Any two sorted orders of the same UEs have the same key at every position, so whichever algorithm sorts,
      only UEs with equal keys can change places. */
  lemma SortedOrdersAgree(stats: seq<UeStats>, o: seq<nat>, p: seq<nat>, k: nat)
    requires Permutation(o, |stats|) && Permutation(p, |stats|) && Sorted(stats, o) && Sorted(stats, p)
    requires k < |o| && k < |p|
    ensures stats[o[k]] == stats[p[k]]
  {
    NoEarlierKey(stats, o, p, k);
    NoEarlierKey(stats, p, o, k);
    CompareStatsIsPreorder(stats[o[k]], stats[p[k]], stats[o[k]]);
  }
}
