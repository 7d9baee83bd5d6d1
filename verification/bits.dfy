/** Single bits of an unsigned word, by halving: r | (1 << k) is WithBit(r, k). */
module Bits {

  predicate Bit(r: nat, k: nat) {
    if k == 0 then r % 2 == 1 else Bit(r / 2, k - 1)
  }

  function WithBit(r: nat, k: nat): nat {
    if k == 0 then r + 1 - r % 2 else 2 * WithBit(r / 2, k - 1) + r % 2
  }

  ghost predicate NoCommonBit(x: nat, y: nat) {
    forall k :: 0 <= k ==> !(Bit(x, k) && Bit(y, k))
  }

  lemma {:induction false} WithBitSetsOne(r: nat, m: nat, k: nat)
    ensures Bit(WithBit(r, m), k) <==> Bit(r, k) || k == m
  {
    if m > 0 && k > 0 {
      WithBitSetsOne(r / 2, m - 1, k - 1);
    } else if m > 0 {
      assert WithBit(r, m) % 2 == r % 2;
    } else if k > 0 {
      assert WithBit(r, 0) / 2 == r / 2;
    }
  }

  lemma {:induction false} ZeroHasNoBit(k: nat)
    ensures !Bit(0, k)
  {
    if k > 0 {
      ZeroHasNoBit(k - 1);
    }
  }
}
