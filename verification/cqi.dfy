/** What one channel quality indicator stands for: cqi_to_mcs and the table of aggregation levels for DCI format 1. */
module Cqi {
  import opened TransportBlock
  import opened Downlink

  const CQI_RANGE: nat := 16

  function CqiToMcs(cqi: nat): (mcs: nat)
    requires cqi < CQI_RANGE
    ensures mcs <= MAX_MCS && mcs !in {3, 5, 7, 9, 10}
  {
    match cqi
    case 0 => 0 case 1 => 0 case 2 => 1 case 3 => 2 case 4 => 4 case 5 => 6 case 6 => 8 case 7 => 11
    case 8 => 13 case 9 => 16 case 10 => 18 case 11 => 20 case 12 => 23 case 13 => 25 case 14 => 27
    case _ => 28
  }

  /** The better the channel, the fewer control channel elements; the limits depend on the bandwidth. */
  function CqiToAggregation(bw: nat, cqi: nat): (aggregation: nat)
    requires cqi < CQI_RANGE
    ensures aggregation <= 3
  {
    match bw
    case 6 => if cqi < 3 then 3 else if cqi < 5 then 2 else if cqi < 9 then 1 else 0
    case 50 => if cqi < 4 then 3 else if cqi < 7 then 2 else if cqi < 11 then 1 else 0
    case 100 => if cqi < 4 then 3 else if cqi < 8 then 2 else if cqi < 12 then 1 else 0
    case _ => if cqi < 4 then 3 else if cqi < 6 then 2 else if cqi < 10 then 1 else 0
  }

  function CsiOf(bw: nat, cqi: nat): (csi: Csi)
    requires cqi < CQI_RANGE
    ensures csi.Csi?
  {
    Csi(CqiToMcs(cqi), CqiToAggregation(bw, cqi))
  }

  /** Scheme and aggregation level of a report come from one indicator. */
  ghost predicate FromCqi(bw: nat, r: Report) {
    r.csi.Csi? ==> exists cqi :: 0 <= cqi < CQI_RANGE && r.csi == CsiOf(bw, cqi)
  }

  lemma FromCqiIsValid(bw: nat, r: Report)
    requires FromCqi(bw, r)
    ensures ValidReport(r) && (r.csi.Csi? ==> r.csi.mcs != 3)
  {
  }

  /** A better channel never means a lower scheme or more control channel elements. */
  lemma BetterChannelMoreEfficient(bw: nat, a: nat, b: nat)
    requires a <= b < CQI_RANGE
    ensures CqiToMcs(a) <= CqiToMcs(b) && CqiToAggregation(bw, a) >= CqiToAggregation(bw, b)
  {
  }
}
