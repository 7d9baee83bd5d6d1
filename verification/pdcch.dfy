/** Control channel elements: how many the PDCCH symbols of a carrier provide (section 6.8.1 of 3GPP
    TS 36.211, PHICH groups in section 6.9), the ledger of those still unassigned, and the UE-specific
    search space (section 9.1.1 of 3GPP TS 36.213). */
module Pdcch {
  import opened Words
  import opened ResourceGrid

  // ---------- capacity ----------

  datatype PhichResource = OneSixth | Half | One | Two | Unset

  datatype CellConfig = CellConfig(bw: nat, phich: PhichResource, extendedPrefix: bool)

  function GetPhichResource(cfg: CellConfig): nat {
    match cfg.phich
    case OneSixth => 1
    case Half => 3
    case One => 6
    case Two => 12
    case Unset => 0
  }

  /** n_group_PHICH, a uint8_t; the factor m_i is 1 for FDD. */
  function PhichGroups(cfg: CellConfig): nat {
    var product := GetPhichResource(cfg) * cfg.bw;
    var groups := W8(product / 48 + if product % 48 > 0 then 1 else 0);
    if cfg.extendedPrefix then W8(2 * groups) else groups
  }

  /** Resource element groups in the first symbols of a subframe, before PCFICH and PHICH are taken out. */
  function Regs(symbols: nat, bw: nat): int {
    if 1 <= symbols <= 3 then
      match bw
      case 6 => 12 + (symbols - 1) * 18
      case 25 => 50 + (symbols - 1) * 75
      case 50 => 100 + (symbols - 1) * 150
      case 100 => 200 + (symbols - 1) * 300
      case _ => 0
    else 0
  }

  function GetNquad(symbols: nat, cfg: CellConfig): uint16 {
    if 1 <= symbols <= 3 && !Supported(cfg.bw) then 0
    else W16(Regs(symbols, cfg.bw) - 4 - 3 * PhichGroups(cfg))
  }

  function GetNcceMax(symbols: nat, cfg: CellConfig): uint16 {
    GetNquad(symbols, cfg) / 9
  }

  /** N_g of section 6.9 of 3GPP TS 36.211, as a fraction. */
  function Ng(phich: PhichResource): (r: (nat, nat))
    ensures r.1 > 0
  {
    match phich
    case OneSixth => (1, 6)
    case Half => (1, 2)
    case One => (1, 1)
    case Two => (2, 1)
    case Unset => (0, 1)
  }

  /** g is the least number with y * g >= x. */
  predicate LeastMultiple(g: nat, y: nat, x: nat) {
    y * g >= x && (g == 0 || y * (g - 1) < x)
  }

  lemma CeilingOfQuotient(x: nat)
    requires x <= 1200
    ensures var g := x / 48 + if x % 48 > 0 then 1 else 0; LeastMultiple(g, 48, x) && g <= 25
  {
  }

  lemma NormalGroups(cfg: CellConfig)
    requires Supported(cfg.bw)
    ensures var groups, resource := PhichGroups(cfg.(extendedPrefix := false)), GetPhichResource(cfg);
      LeastMultiple(groups, 48, resource * cfg.bw) && PhichGroups(cfg.(extendedPrefix := true)) == 2 * groups
  {
    var product := GetPhichResource(cfg) * cfg.bw;
    ProductBound(cfg);
    CeilingOfQuotient(product);
    var groups := product / 48 + if product % 48 > 0 then 1 else 0;
    assert W8(groups) == groups && W8(2 * groups) == 2 * groups;
  }

  lemma ProductBound(cfg: CellConfig)
    requires Supported(cfg.bw)
    ensures GetPhichResource(cfg) * cfg.bw <= 1200
  {
    assert GetPhichResource(cfg) <= 12 && cfg.bw <= 100;
  }

  /** The PHICH groups of a normal prefix are the least number not below N_g * bw / 8, and an extended prefix
      doubles them. */
  lemma PhichGroupsAreCeiling(cfg: CellConfig)
    requires Supported(cfg.bw)
    ensures var (num, den) := Ng(cfg.phich);
      var groups := PhichGroups(cfg.(extendedPrefix := false));
      LeastMultiple(groups, 8 * den, num * cfg.bw) && PhichGroups(cfg.(extendedPrefix := true)) == 2 * groups
  {
    var groups := PhichGroups(cfg.(extendedPrefix := false));
    NormalGroups(cfg);
    ScaledMultiple(cfg.phich, groups, cfg.bw);
  }

  lemma ScaledMultiple(phich: PhichResource, groups: nat, bw: nat)
    requires LeastMultiple(groups, 48, GetPhichResource(CellConfig(bw, phich, false)) * bw)
    ensures LeastMultiple(groups, 8 * Ng(phich).1, Ng(phich).0 * bw)
  {
  }

  /** Element groups of the control region: four resource elements each, of twelve per resource block and symbol, less
      the four reference signals per resource block of the first symbol. */
  lemma RegsAreResourceElements(symbols: nat, bw: nat)
    requires Supported(bw) && 1 <= symbols <= 3
    ensures 4 * Regs(symbols, bw) == 12 * bw * symbols - 4 * bw
  {
  }

  /** The control region is physically there: this many symbols outweigh PCFICH and PHICH. */
  predicate RealRegion(cfg: CellConfig, symbols: nat) {
    Supported(cfg.bw) && symbols <= 3 && Regs(symbols, cfg.bw) >= 4 + 3 * PhichGroups(cfg)
  }

  /** Where the region is not there the quadruplet count wraps around, and at least 7264 control channel elements seem
      to be available; three real symbols provide at most 88, and a real region grows with the symbols. */
  lemma CapacityWrapsIff(cfg: CellConfig, symbols: nat)
    requires Supported(cfg.bw) && symbols <= 3
    ensures GetNquad(symbols, cfg) == Regs(symbols, cfg.bw) - 4 - 3 * PhichGroups(cfg) <==> RealRegion(cfg, symbols)
    ensures GetNcceMax(symbols, cfg) >= 7264 <==> !RealRegion(cfg, symbols)
    ensures GetNcceMax(3, cfg) <= 88
    ensures forall s :: symbols <= s <= 3 && RealRegion(cfg, symbols) ==>
              RealRegion(cfg, s) && GetNcceMax(symbols, cfg) <= GetNcceMax(s, cfg)
  {
    PhichGroupsBound(cfg);
  }

  /** With no PDCCH symbol at all, where every scheduling round starts, the region is never there. */
  lemma ColdStartWraps(cfg: CellConfig)
    requires Supported(cfg.bw)
    ensures !RealRegion(cfg, 0) && GetNquad(0, cfg) == 65532 - 3 * PhichGroups(cfg) && GetNcceMax(0, cfg) >= 7264
  {
    PhichGroupsBound(cfg);
  }

  lemma PhichGroupsBound(cfg: CellConfig)
    requires Supported(cfg.bw)
    ensures PhichGroups(cfg) <= 50 && (cfg.bw == 6 ==> PhichGroups(cfg) <= 4)
    ensures cfg.bw == 25 ==> PhichGroups(cfg) <= 14
    ensures cfg.bw == 50 ==> PhichGroups(cfg) <= 26
  {
    match cfg.phich {
      case OneSixth =>
      case Half =>
      case One =>
      case Two =>
      case Unset =>
    }
  }

  // ---------- ledger ----------

  /** num_pdcch_symbols_ and nCCE_rem_ (a uint32_t). */
  datatype Ledger = Ledger(symbols: nat, rem: nat)

  /** The conversion of a uint32_t to int. */
  function ToInt(x: nat): int {
    if x < 0x8000_0000 then x else x - 0x1_0000_0000
  }

  function IncreaseSymbols(cfg: CellConfig, l: Ledger): Ledger {
    var prev := GetNcceMax(l.symbols, cfg);
    var symbols := W8(l.symbols + 1);
    Ledger(symbols, W32(GetNcceMax(symbols, cfg) - W32(prev - l.rem)))
  }

  function Assign(l: Ledger, n: nat): Ledger {
    l.(rem := W32(l.rem - n))
  }

  function Cces(aggregation: nat): (n: nat)
    ensures n > 0
  {
    match aggregation
    case 0 => 1
    case 1 => 2
    case 2 => 4
    case _ => 8
  }

  /** One element at level 0, and twice as many with every level. */
  lemma CcesDouble(aggregation: nat)
    requires aggregation < 3
    ensures Cces(0) == 1 && Cces(aggregation + 1) == 2 * Cces(aggregation)
  {
  }

  /** What CCE_allocation_infeasible leaves behind, and whether it found room. */
  function Reserve(cfg: CellConfig, l: Ledger, aggregation: nat): (r: (Ledger, bool))
    requires l.symbols <= 3
    ensures r.0.symbols <= 3
    decreases 3 - l.symbols
  {
    if Cces(aggregation) > ToInt(l.rem) then
      if l.symbols == 3 then (l, false) else Reserve(cfg, IncreaseSymbols(cfg, l), aggregation)
    else (l, true)
  }

  /** The ledger agrees with what has been handed out so far (as a signed number, since the capacity falls
      when a round leaves its wrapped start). */
  ghost predicate InBalance(cfg: CellConfig, l: Ledger, used: nat) {
    && l.symbols <= 3
    && used <= 0x10_0000
    && l.rem < 0x1_0000_0000
    && ToInt(l.rem) == GetNcceMax(l.symbols, cfg) - used
  }

  lemma IncreaseKeepsBalance(cfg: CellConfig, l: Ledger, used: nat)
    requires InBalance(cfg, l, used) && l.symbols < 3
    ensures InBalance(cfg, IncreaseSymbols(cfg, l), used)
  {
    var prev, next := GetNcceMax(l.symbols, cfg), GetNcceMax(l.symbols + 1, cfg);
    SignedDifference(prev, next, l.rem, used);
    assert IncreaseSymbols(cfg, l) == Ledger(l.symbols + 1, W32(next - W32(prev - l.rem)));
  }

  /** prev - rem recovers the elements in use even when rem stands for a negative number. */
  lemma SignedDifference(prev: uint16, next: uint16, rem: nat, used: nat)
    requires used <= 0x10_0000 && rem < 0x1_0000_0000 && ToInt(rem) == prev - used
    ensures ToInt(W32(next - W32(prev - rem))) == next - used
  {
    assert W32(prev - rem) == used by {
      if rem >= 0x8000_0000 {
        assert prev - rem == used - 0x1_0000_0000;
      }
    }
    if next < used {
      assert W32(next - used) == next - used + 0x1_0000_0000;
    }
  }

  lemma AssignKeepsBalance(cfg: CellConfig, l: Ledger, used: nat, n: nat)
    requires InBalance(cfg, l, used) && n <= 8 && used + n <= 0x10_0000
    ensures InBalance(cfg, Assign(l, n), used + n)
  {
  }

  /** The feasibility loop keeps the ledger balanced, only ever adds symbols, and reports room exactly when
      what is left covers the request; it gives up only with all three symbols in use. */
  lemma {:induction false} ReserveKeepsBalance(cfg: CellConfig, l: Ledger, aggregation: nat, used: nat)
    requires InBalance(cfg, l, used)
    ensures var (r, ok) := Reserve(cfg, l, aggregation);
      && InBalance(cfg, r, used)
      && l.symbols <= r.symbols
      && (ok <==> used + Cces(aggregation) <= GetNcceMax(r.symbols, cfg))
      && (!ok ==> r.symbols == 3)
    decreases 3 - l.symbols
  {
    if Cces(aggregation) > ToInt(l.rem) && l.symbols < 3 {
      IncreaseKeepsBalance(cfg, l, used);
      ReserveKeepsBalance(cfg, IncreaseSymbols(cfg, l), aggregation, used);
    }
  }

  // ---------- whole rounds ----------

  /** One UE's turn: it asks for room at its aggregation level and, unless something else stops it, gets its
      elements. */
  datatype CceAsk = CceAsk(aggregation: nat, proceeds: bool)

  /** The ledger and the number of elements in use after a round of asks. */
  function AfterAsks(cfg: CellConfig, l: Ledger, asks: seq<CceAsk>): (r: (Ledger, nat))
    requires l.symbols <= 3
    ensures r.0.symbols <= 3
  {
    if asks == [] then (l, 0)
    else
      var (p, n) := AfterAsks(cfg, l, asks[..|asks| - 1]);
      var a := asks[|asks| - 1];
      var (q, ok) := Reserve(cfg, p, a.aggregation);
      if ok && a.proceeds then (Assign(q, Cces(a.aggregation)), n + Cces(a.aggregation)) else (q, n)
  }

  function RoundStart(cfg: CellConfig, symbols: nat): Ledger {
    Ledger(symbols, GetNcceMax(symbols, cfg))
  }

  /** Whatever number of symbols a round starts with, assigned plus remaining elements equal the capacity after any
      number of requests. */
  lemma {:induction false} LedgerOverRound(cfg: CellConfig, symbols: nat, asks: seq<CceAsk>)
    requires Supported(cfg.bw) && symbols <= 3
    ensures var (l, used) := AfterAsks(cfg, RoundStart(cfg, symbols), asks);
      InBalance(cfg, l, used) && symbols <= l.symbols && used <= 7281
  {
    if asks != [] {
      var init := asks[..|asks| - 1];
      LedgerOverRound(cfg, symbols, init);
      var (p, n) := AfterAsks(cfg, RoundStart(cfg, symbols), init);
      var a := asks[|asks| - 1];
      ReserveKeepsBalance(cfg, p, a.aggregation, n);
      AssignKeepsBalance(cfg, Reserve(cfg, p, a.aggregation).0, n, Cces(a.aggregation));
    }
  }

  /** Started where the control region is really there, a round never assigns more elements than the symbols it ends
      up with provide, whatever is asked in whatever order. */
  lemma {:induction false} NeverBeyondCapacity(cfg: CellConfig, symbols: nat, asks: seq<CceAsk>)
    requires RealRegion(cfg, symbols)
    ensures var (l, used) := AfterAsks(cfg, RoundStart(cfg, symbols), asks);
      InBalance(cfg, l, used) && symbols <= l.symbols && used <= GetNcceMax(l.symbols, cfg) <= GetNcceMax(3, cfg)
  {
    CapacityWrapsIff(cfg, symbols);
    if asks != [] {
      var init := asks[..|asks| - 1];
      NeverBeyondCapacity(cfg, symbols, init);
      var (p, n) := AfterAsks(cfg, RoundStart(cfg, symbols), init);
      var a := asks[|asks| - 1];
      var q := Reserve(cfg, p, a.aggregation).0;
      ReserveKeepsBalance(cfg, p, a.aggregation, n);
      CapacityWrapsIff(cfg, p.symbols);
      CapacityWrapsIff(cfg, q.symbols);
      AssignKeepsBalance(cfg, q, n, Cces(a.aggregation));
    }
  }

  function CceDemand(asks: seq<CceAsk>): nat {
    if asks == [] then 0
    else
      var a := asks[|asks| - 1];
      CceDemand(asks[..|asks| - 1]) + if a.proceeds then Cces(a.aggregation) else 0
  }

  lemma GrantAtOnce(cfg: CellConfig, symbols: nat, rem: nat, aggregation: nat)
    requires 8 <= rem < 0x1_0000 && symbols <= 3
    ensures Reserve(cfg, Ledger(symbols, rem), aggregation) == (Ledger(symbols, rem), true)
    ensures Assign(Ledger(symbols, rem), Cces(aggregation)) == Ledger(symbols, rem - Cces(aggregation))
  {
  }

  /** Started where it is not there, as every round is, a round grants everything it is asked for without ever adding
      a symbol, as long as that stays below the wrapped capacity; beyond that it has handed out nearly all of it. */
  lemma {:induction false} WrappedStartGrantsAll(cfg: CellConfig, symbols: nat, asks: seq<CceAsk>)
    requires Supported(cfg.bw) && symbols <= 3 && !RealRegion(cfg, symbols)
    ensures var start, (l, used) := GetNcceMax(symbols, cfg), AfterAsks(cfg, RoundStart(cfg, symbols), asks);
      if CceDemand(asks) <= start - 8 then l == Ledger(symbols, start - CceDemand(asks)) && used == CceDemand(asks)
      else used > start - 8
  {
    CapacityWrapsIff(cfg, symbols);
    if asks != [] {
      var init := asks[..|asks| - 1];
      WrappedStartGrantsAll(cfg, symbols, init);
      if CceDemand(init) <= GetNcceMax(symbols, cfg) - 8 {
        GrantAtOnce(cfg, symbols, GetNcceMax(symbols, cfg) - CceDemand(init), asks[|asks| - 1].aggregation);
      }
    }
  }

  /** n requests for eight elements each. */
  function WideAsks(n: nat): (asks: seq<CceAsk>)
    ensures |asks| == n
  {
    if n == 0 then [] else WideAsks(n - 1) + [CceAsk(3, true)]
  }

  lemma {:induction false} WideAsksDemand(n: nat)
    ensures CceDemand(WideAsks(n)) == 8 * n
  {
    if n > 0 {
      WideAsksDemand(n - 1);
      assert WideAsks(n)[..n - 1] == WideAsks(n - 1);
    }
  }

  /** The number of symbols a round starts with keeps every round within the capacity of three symbols if and only if
      the control region is there with that many; the 0 of the code never does. */
  lemma CapacityKeptIff(cfg: CellConfig, symbols: nat)
    requires Supported(cfg.bw) && symbols <= 3
    ensures (forall asks :: AfterAsks(cfg, RoundStart(cfg, symbols), asks).1 <= GetNcceMax(3, cfg))
       <==> RealRegion(cfg, symbols)
  {
    CapacityWrapsIff(cfg, symbols);
    if RealRegion(cfg, symbols) {
      forall asks: seq<CceAsk>
        ensures AfterAsks(cfg, RoundStart(cfg, symbols), asks).1 <= GetNcceMax(3, cfg)
      {
        NeverBeyondCapacity(cfg, symbols, asks);
      }
    } else {
      WideAsksDemand(12);
      WrappedStartGrantsAll(cfg, symbols, WideAsks(12));
      assert AfterAsks(cfg, RoundStart(cfg, symbols), WideAsks(12)).1 > GetNcceMax(3, cfg);
    }
  }

  // ---------- search space ----------

  const HASH_FACTOR: nat := 39827
  const HASH_PRIME: nat := 65537
  const HASH_INVERSE: nat := 61772

  /** Y_k of section 9.1.1 of 3GPP TS 36.213, after k steps from the RNTI, in 32 bits. */
  function Y(rnti: nat, k: nat): nat {
    if k == 0 then rnti else W32(Y(rnti, k - 1) * HASH_FACTOR) % HASH_PRIME
  }

  /** 39827 is invertible modulo 65537, so a step of the hash loses nothing. */
  lemma HashStepInjective(x: nat, y: nat)
    requires x < HASH_PRIME && y < HASH_PRIME
    requires x * HASH_FACTOR % HASH_PRIME == y * HASH_FACTOR % HASH_PRIME
    ensures x == y
  {
    var p := x * HASH_FACTOR / HASH_PRIME;
    var q := y * HASH_FACTOR / HASH_PRIME;
    assert (x - y) * HASH_FACTOR == HASH_PRIME * (p - q);
    assert HASH_FACTOR * HASH_INVERSE == HASH_PRIME * 37539 + 1;
    assert x - y == HASH_PRIME * ((p - q) * HASH_INVERSE - (x - y) * 37539);
  }

  /** For every number of steps the hash stays in 1..65536 and its product fits 32 bits. */
  lemma {:induction false} HashStaysInRange(rnti: nat, k: nat)
    requires 1 <= rnti < 0x1_0000
    ensures 1 <= Y(rnti, k) < HASH_PRIME
    ensures Y(rnti, k) * HASH_FACTOR < 0x1_0000_0000
  {
    if k > 0 {
      HashStaysInRange(rnti, k - 1);
      var y := Y(rnti, k - 1);
      if y * HASH_FACTOR % HASH_PRIME == 0 {
        HashStepInjective(y, 0);
      }
    }
  }

  /** Two UEs never hash to the same value in the same subframe. */
  lemma {:induction false} HashKeepsRntisApart(a: nat, b: nat, k: nat)
    requires 1 <= a < 0x1_0000 && 1 <= b < 0x1_0000 && a != b
    ensures Y(a, k) != Y(b, k)
  {
    if k > 0 {
      HashKeepsRntisApart(a, b, k - 1);
      HashStaysInRange(a, k - 1);
      HashStaysInRange(b, k - 1);
      if Y(a, k) == Y(b, k) {
        HashStepInjective(Y(a, k - 1), Y(b, k - 1));
      }
    }
  }

  lemma AlignedCandidate(y: nat, agg: nat, nCce: nat)
    requires agg in {1, 2, 4, 8} && nCce >= agg
    ensures nCce / agg > 0
    ensures y % (nCce / agg) % (nCce / agg) == y % (nCce / agg)
    ensures var offset := y % (nCce / agg) * agg; offset % agg == 0 && 0 <= offset && offset + agg <= nCce
  {
    var n := nCce / agg;
    assert n > 0 && n * agg <= nCce by {
      if agg == 1 {
      } else if agg == 2 {
      } else if agg == 4 {
      } else {
      }
    }
    var r := y % n;
    SmallRemainder(r, n);
    if agg == 1 {
    } else if agg == 2 {
    } else if agg == 4 {
    } else {
    }
  }

  lemma SmallRemainder(r: nat, n: nat)
    requires r < n
    ensures r % n == r
  {
  }

  method HashRnti(rnti: nat, subframe: nat) returns (yk: nat)
    ensures yk == Y(rnti, subframe + 1)
  {
    yk := rnti;
    for i := 0 to subframe + 1
      invariant yk == Y(rnti, i)
    {
      yk := W32(yk * 39827) % 65537;
    }
  }

  /** The offset search.  Its candidate loop accepts the first candidate, so the offset always exists, is
      aligned to the aggregation level and leaves the candidate inside the control region. */
  method GetNcceOffset(agg: nat, nCce: nat, rnti: nat, subframe: nat) returns (offset: int)
    requires agg in {1, 2, 4, 8} && nCce >= agg && 1 <= rnti < 0x1_0000
    ensures offset == Y(rnti, subframe + 1) % (nCce / agg) * agg
    ensures offset % agg == 0 && 0 <= offset && offset + agg <= nCce
  {
    var yk := HashRnti(rnti, subframe);
    AlignedCandidate(yk, agg, nCce);
    var n := nCce / agg;
    yk := yk % n;
    var candidates := if agg == 1 || agg == 2 then 6 else 2;
    for m := 0 to candidates
      invariant m == 0
    {
      return (yk + m) % n * agg;
    }
    assert false;
    return -1;
  }
}
