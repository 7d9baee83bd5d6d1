/** From the network to the RIB: what the I/O thread delivers satisfies what the RIB relies on. */
module RibPipeline {
  import opened Framing
  import SendPipeline
  import opened RibModel
  import opened RibEntries

  /** The messages handled are some of those fetched, in order; a saturated cycle loses the others. */
  ghost predicate Picks(picks: seq<nat>, n: nat) {
    && (forall i :: 0 <= i < |picks| ==> picks[i] < n)
    && forall i, j :: 0 <= i < j < |picks| ==> picks[i] < picks[j]
  }

  /** Fetched messages as the RIB sees them, with whatever the bodies decode to. */
  function Decoded(fetched: seq<SendPipeline.Msg>, picks: seq<nat>, decode: seq<byte> -> Message): (tms: seq<Tagged>)
    requires forall i :: 0 <= i < |picks| ==> picks[i] < |fetched|
    ensures |tms| == |picks|
    ensures forall i :: 0 <= i < |picks| ==>
              tms[i].tag == fetched[picks[i]].tag && tms[i].size == |fetched[picks[i]].body|
  {
    seq(|picks|, i requires 0 <= i < |picks| =>
      Tagged(fetched[picks[i]].tag, |fetched[picks[i]].body|, decode(fetched[picks[i]].body)))
  }

  lemma MarkersArePicked(fetched: seq<SendPipeline.Msg>, picks: seq<nat>, decode: seq<byte> -> Message, j: nat)
    requires SendPipeline.FreshMarkers(fetched) && Picks(picks, |fetched|) && j < |picks|
    requires Decoded(fetched, picks, decode)[j].size == 0
    ensures var tms := Decoded(fetched, picks, decode); Proper(HandleAll(EMPTY, tms[..j]), tms[j])
  {
    var tms := Decoded(fetched, picks, decode);
    forall i | 0 <= i < |tms[..j]|
      ensures tms[..j][i].tag != tms[j].tag
    {
      assert picks[i] < picks[j];
    }
    FreshMarkerIsProper(tms[..j], tms[j]);
  }

  /** In any run of the network side in which no agent sends an empty body, whichever of the fetched messages are
      handled and whatever they decode to, connect markers are proper; so if the configuration replies and activations
      among the messages are, the RIB keeps its invariant. */
  lemma PipelineKeepsRib(states: seq<SendPipeline.State>, steps: seq<SendPipeline.Step>, n: nat, picks: seq<nat>,
                         decode: seq<byte> -> Message)
    requires SendPipeline.Run(states, steps) && n <= |steps|
    requires forall k :: 0 <= k < n && steps[k].Receive? ==> steps[k].m.body != []
    requires Picks(picks, |states[n].fetched|)
    requires var tms := Decoded(states[n].fetched, picks, decode);
      forall j :: 0 <= j < |tms| && tms[j].size > 0 ==> Proper(HandleAll(EMPTY, tms[..j]), tms[j])
    ensures Inv(HandleAll(EMPTY, Decoded(states[n].fetched, picks, decode)))
  {
    var tms := Decoded(states[n].fetched, picks, decode);
    SendPipeline.ConnectMarkersFresh(states, steps, n);
    forall j | 0 <= j < |tms|
      ensures Proper(HandleAll(EMPTY, tms[..j]), tms[j])
    {
      if tms[j].size == 0 {
        MarkersArePicked(states[n].fetched, picks, decode, j);
      }
    }
    SequenceKeepsInv(EMPTY, tms);
  }
}
