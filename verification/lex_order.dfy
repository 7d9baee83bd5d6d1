/** Lexicographic order on number sequences of equal length. */
module LexOrder {

  /** a is at least b: at the first difference, if there is one, a is larger. */
  predicate LexGeq(a: seq<int>, b: seq<int>)
    requires |a| == |b|
  {
    |a| == 0 || a[0] > b[0] || (a[0] == b[0] && LexGeq(a[1..], b[1..]))
  }

  ghost predicate SameBelow(a: seq<int>, b: seq<int>, n: nat)
    requires n <= |a| == |b|
  {
    forall i :: 0 <= i < n ==> a[i] == b[i]
  }

  /** Read component by component: among sequences that agree before it, no component of a is smaller. */
  lemma {:induction false} LexGeqMeans(a: seq<int>, b: seq<int>)
    requires |a| == |b|
    ensures LexGeq(a, b) <==> forall n :: 0 <= n < |a| && SameBelow(a, b, n) ==> a[n] >= b[n]
  {
    if |a| > 0 {
      LexGeqMeans(a[1..], b[1..]);
      assert SameBelow(a, b, 0);
      if a[0] == b[0] {
        forall n | 0 <= n < |a| - 1
          ensures SameBelow(a[1..], b[1..], n) <==> SameBelow(a, b, n + 1)
        {
          if SameBelow(a, b, n + 1) {
            forall i | 0 <= i < n
              ensures a[1..][i] == b[1..][i]
            {
              assert a[i + 1] == b[i + 1];
            }
          }
        }
        if LexGeq(a[1..], b[1..]) {
          forall n | 0 <= n < |a| && SameBelow(a, b, n)
            ensures a[n] >= b[n]
          {
            if n > 0 {
              assert SameBelow(a[1..], b[1..], n - 1);
              assert a[n] == a[1..][n - 1] && b[n] == b[1..][n - 1];
            }
          }
        } else {
          var n :| 0 <= n < |a| - 1 && SameBelow(a[1..], b[1..], n) && a[1..][n] < b[1..][n];
          assert SameBelow(a, b, n + 1) && a[n + 1] < b[n + 1];
        }
      }
    }
  }

  lemma {:induction false} LexGeqBothWays(a: seq<int>, b: seq<int>)
    requires |a| == |b| && LexGeq(a, b) && LexGeq(b, a)
    ensures a == b
  {
    if |a| > 0 {
      LexGeqBothWays(a[1..], b[1..]);
      assert a == [a[0]] + a[1..] && b == [b[0]] + b[1..];
    }
  }

  lemma LexGeqCons(x: int, y: int, a: seq<int>, b: seq<int>)
    requires |a| == |b|
    ensures LexGeq([x] + a, [y] + b) <==> x > y || (x == y && LexGeq(a, b))
  {
    assert ([x] + a)[1..] == a && ([y] + b)[1..] == b;
  }
}
