/** How run_central_scheduler divides one transport block among a UE's logical channels: for every channel
    it reserves a subheader, requests what still fits and lowers the channel's queue.  The difference it
    tests is unsigned, so once the block is full the test passes for the wrong reason. */
module RlcRequests {
  import opened Words

  /** Loop state: header_len, header_len_last, sdu_length_total, the request made to each channel (0 for no
      request) and the queue each channel is left with. */
  datatype Rlc = Rlc(header: nat, last: nat, sdu: uint16, requests: seq<nat>, queues: seq<nat>)

  const MAX_NUM_LC: nat := 11

  /** Header length, length of the last subheader and request after one more channel with q bytes queued. */
  function RequestFor(tbs: nat, ta: nat, p: Rlc, q: nat): (r: (nat, nat, nat))
    ensures r.2 <= q
  {
    var h := W8(p.header + 3);
    var room := W32(tbs - ta - h - p.sdu);
    if room > 0 then
      if q > 0 then
        var request := Min(room, q);
        if request < 128 then (W8(h - 1), 2, request) else (h, 3, request)
      else (W8(h - 3), p.last, 0)
    else (h, p.last, 0)
  }

  function Serve(tbs: nat, ta: nat, p: Rlc, q: nat): Rlc {
    var (header, last, request) := RequestFor(tbs, ta, p, q);
    Rlc(header, last, W16(p.sdu + request), p.requests + [request], p.queues + [q - request])
  }

  /** One channel in integers; only sdu_length_total can wrap. */
  lemma ServeStep(tbs: nat, ta: nat, p: Rlc, q: nat) returns (header: nat, last: nat, request: nat)
    requires tbs < 0x1_0000 && ta <= 2 && p.header <= 3 * MAX_NUM_LC
    ensures request <= q
    ensures Serve(tbs, ta, p, q)
         == Rlc(header, last, W16(p.sdu + request), p.requests + [request], p.queues + [q - request])
    ensures var room := tbs - ta - p.header - p.sdu;
      && (request == 0 <==> q == 0 || room == 3)
      && (room > 3 ==> request == Min(room - 3, q))
      && header == p.header + (if room == 3 then 3 else if q == 0 then 0 else Subheader(request))
      && last == (if request > 0 then Subheader(request) else p.last)
  {
    var diff := tbs - ta - (p.header + 3) - p.sdu;
    assert diff < 0 ==> W32(diff) == diff + 0x1_0000_0000;
    var r := RequestFor(tbs, ta, p, q);
    header, last, request := r.0, r.1, r.2;
  }

  function Subheader(bytes: nat): nat {
    if bytes < 128 then 2 else 3
  }

  function ServeBelow(tbs: nat, ta: nat, qs: seq<nat>, n: nat): Rlc
    requires n <= |qs|
  {
    if n == 0 then Rlc(0, 0, 0, [], []) else Serve(tbs, ta, ServeBelow(tbs, ta, qs, n - 1), qs[n - 1])
  }

  function ServeAll(tbs: nat, ta: nat, qs: seq<nat>): Rlc {
    ServeBelow(tbs, ta, qs, |qs|)
  }

  /** The decision inside the loop, for one channel. */
  method AskChannel(tbs: nat, ta: nat, ghost p: Rlc, headerLen: nat, headerLenLast: nat, sdu: uint16, queue: nat)
      returns (header: nat, last: nat, dataToRequest: nat)
    requires p.header == headerLen && p.last == headerLenLast && p.sdu == sdu
    ensures (header, last, dataToRequest) == RequestFor(tbs, ta, p, queue)
  {
    header, last, dataToRequest := W8(headerLen + 3), headerLenLast, 0;
    var room := W32(tbs - ta - header - sdu);
    if room > 0 {
      if queue > 0 {
        dataToRequest := Min(room, queue);
        if dataToRequest < 128 {
          header, last := W8(header - 1), 2;
        } else {
          last := 3;
        }
      } else {
        header := W8(header - 3);
      }
    }
  }

  /** The loop over the logical channels of run_central_scheduler. */
  method RequestData(tbs: nat, ta: nat, qs: seq<nat>) returns (r: Rlc)
    ensures r == ServeAll(tbs, ta, qs)
  {
    var header: nat, last: nat, sdu: uint16 := 0, 0, 0;
    var requests: seq<nat>, queues: seq<nat> := [], [];
    for j := 1 to |qs| + 1
      invariant Rlc(header, last, sdu, requests, queues) == ServeBelow(tbs, ta, qs, j - 1)
    {
      var queue := qs[j - 1];
      var dataToRequest;
      header, last, dataToRequest :=
        AskChannel(tbs, ta, ServeBelow(tbs, ta, qs, j - 1), header, last, sdu, queue);
      sdu := W16(sdu + dataToRequest);
      requests, queues := requests + [dataToRequest], queues + [queue - dataToRequest];
    }
    r := Rlc(header, last, sdu, requests, queues);
  }

  // ---------- conservation ----------

  function SumBelow(s: seq<nat>, n: nat): nat
    requires n <= |s|
  {
    if n == 0 then 0 else SumBelow(s, n - 1) + s[n - 1]
  }

  function Sum(s: seq<nat>): nat {
    SumBelow(s, |s|)
  }

  lemma {:induction false} SumBelowAppend(s: seq<nat>, x: nat, n: nat)
    requires n <= |s|
    ensures SumBelow(s + [x], n) == SumBelow(s, n)
  {
    if n > 0 {
      SumBelowAppend(s, x, n - 1);
    }
  }

  lemma {:induction false} SumBelowGrows(s: seq<nat>, m: nat, n: nat)
    requires m <= n <= |s|
    ensures SumBelow(s, m) <= SumBelow(s, n)
  {
    if m < n {
      SumBelowGrows(s, m, n - 1);
    }
  }

  /** Every queue has lost what was requested from it; sdu_length_total is the sum of the requests, in 16 bits. */
  ghost predicate Accounted(r: Rlc, qs: seq<nat>, n: nat)
    requires n <= |qs|
  {
    && r.header <= 3 * n
    && |r.requests| == |r.queues| == n
    && (forall j :: 0 <= j < n ==> r.requests[j] + r.queues[j] == qs[j])
    && r.sdu == W16(SumBelow(r.requests, n))
  }

  lemma WrapTwice(x: nat, y: nat)
    ensures W16(W16(x) + y) == W16(x + y)
  {
  }

  lemma AccountedStep(p: Rlc, qs: seq<nat>, n: nat, header: nat, last: nat, request: nat)
    requires n < |qs| && Accounted(p, qs, n)
    requires header <= p.header + 3 && request <= qs[n]
    ensures Accounted(Rlc(header, last, W16(p.sdu + request), p.requests + [request], p.queues + [qs[n] - request]),
                      qs, n + 1)
  {
    SumBelowAppend(p.requests, request, n);
    WrapTwice(SumBelow(p.requests, n), request);
  }

  /** The source's own limits: a transport block in a uint16_t, a timing advance command of 2 bytes, and no more
      channels than a UE can have.  Queues may be of any size. */
  predicate Usual(tbs: nat, ta: nat, qs: seq<nat>) {
    tbs < 0x1_0000 && ta <= 2 && |qs| <= MAX_NUM_LC
  }

  /** No byte is lost or invented, whatever the queue sizes: every queue loses exactly what was requested from it,
      and the total the rest of the scheduler works with is the sum of the requests modulo 65536. */
  lemma {:induction false} RequestsConserve(tbs: nat, ta: nat, qs: seq<nat>, n: nat)
    requires n <= |qs| && Usual(tbs, ta, qs)
    ensures Accounted(ServeBelow(tbs, ta, qs, n), qs, n)
  {
    if n > 0 {
      RequestsConserve(tbs, ta, qs, n - 1);
      var p := ServeBelow(tbs, ta, qs, n - 1);
      var header, last, request := ServeStep(tbs, ta, p, qs[n - 1]);
      AccountedStep(p, qs, n - 1, header, last, request);
    }
  }

  /** Requests and remaining queues split the queues, whatever the block and however many channels there are. */
  lemma {:induction false} RequestsSplit(tbs: nat, ta: nat, qs: seq<nat>, n: nat)
    requires n <= |qs|
    ensures var r := ServeBelow(tbs, ta, qs, n);
      |r.requests| == |r.queues| == n && forall j :: 0 <= j < n ==> r.requests[j] + r.queues[j] == qs[j]
  {
    if n > 0 {
      RequestsSplit(tbs, ta, qs, n - 1);
    }
  }

  // ---------- when anything is requested at all ----------

  /** Whether channel j is asked, as long as no channel before it was: it has data, and it is not the first channel of
      a block that is exactly one subheader too large to be tested as full. */
  predicate FirstAsked(tbs: nat, ta: nat, qs: seq<nat>, j: nat)
    requires j < |qs|
  {
    qs[j] > 0 && (j > 0 || tbs != ta + 3)
  }

  lemma {:induction false} FirstAskedBelow(tbs: nat, ta: nat, qs: seq<nat>, n: nat)
    requires n <= |qs| && tbs < 0x1_0000 && ta <= 2
    ensures var r := ServeBelow(tbs, ta, qs, n);
      && |r.requests| == n
      && ((exists j :: 0 <= j < n && r.requests[j] > 0) <==> exists j :: 0 <= j < n && FirstAsked(tbs, ta, qs, j))
      && ((forall j :: 0 <= j < n ==> !FirstAsked(tbs, ta, qs, j)) ==>
            r.sdu == 0 && r.header == if n > 0 && tbs == ta + 3 then 3 else 0)
  {
    if n > 0 {
      FirstAskedBelow(tbs, ta, qs, n - 1);
      var p := ServeBelow(tbs, ta, qs, n - 1);
      var r := ServeBelow(tbs, ta, qs, n);
      if exists j :: 0 <= j < n - 1 && FirstAsked(tbs, ta, qs, j) {
        var j :| 0 <= j < n - 1 && p.requests[j] > 0;
        assert r.requests[j] > 0;
      } else {
        var header, last, request := ServeStep(tbs, ta, p, qs[n - 1]);
        assert r.requests[n - 1] == request;
        assert request > 0 <==> FirstAsked(tbs, ta, qs, n - 1);
        assert forall j :: 0 <= j < n - 1 ==> r.requests[j] == p.requests[j];
      }
    }
  }

  /** A block carries data if and only if some channel has some, other than the first channel of a block that is
      exactly a subheader larger than the timing advance command: there the room computed is 0. */
  lemma SomethingRequestedIff(tbs: nat, ta: nat, qs: seq<nat>)
    requires tbs < 0x1_0000 && ta <= 2
    ensures var r := ServeAll(tbs, ta, qs);
      |r.requests| == |qs|
      && ((exists j :: 0 <= j < |qs| && r.requests[j] > 0) <==> exists j :: 0 <= j < |qs| && FirstAsked(tbs, ta, qs, j))
  {
    FirstAskedBelow(tbs, ta, qs, |qs|);
  }

  // ---------- the block is respected exactly when ... ----------

  /** Bytes that the first n channels take when each is served in full. */
  function FullDemand(qs: seq<nat>, n: nat): nat
    requires n <= |qs|
  {
    if n == 0 then 0
    else FullDemand(qs, n - 1) + if qs[n - 1] > 0 then qs[n - 1] + Subheader(qs[n - 1]) else 0
  }

  /** Bytes of the block not yet spoken for after n channels (negative when it is overrun). */
  function Room(tbs: nat, ta: nat, qs: seq<nat>, n: nat): int
    requires n <= |qs|
  {
    var r := ServeBelow(tbs, ta, qs, n);
    tbs - ta - r.header - Sum(r.requests)
  }

  predicate LastBusy(qs: seq<nat>, l: nat) {
    l < |qs| && qs[l] > 0 && forall j :: l < j < |qs| ==> qs[j] == 0
  }

  /** What a caller can check beforehand about the last channel with data, l: when all channels before it
      are served in full, a subheader's worth of room must be left for it, and if it is exactly that much,
      no empty channel may stand right before it. */
  predicate LeavesRoom(tbs: nat, ta: nat, qs: seq<nat>, l: nat)
    requires l < |qs|
  {
    var room := tbs - ta - FullDemand(qs, l);
    room > 3 || (room == 3 && (l == 0 || qs[l - 1] > 0))
  }

  /** What one channel does to the room: it never grows, and as long as the block is not overrun sdu_length_total is
      exact and the change is the one below. */
  lemma RoomStep(tbs: nat, ta: nat, qs: seq<nat>, n: nat)
    requires Usual(tbs, ta, qs) && n < |qs|
    ensures var room, next := Room(tbs, ta, qs, n), Room(tbs, ta, qs, n + 1);
      && next <= room
      && (room == 3 ==> next == 0)
      && (room >= 0 && room != 3 && qs[n] == 0 ==> next == room)
      && (room > 3 && qs[n] > 0 ==> var request := Min(room - 3, qs[n]); next == room - request - Subheader(request))
      && (0 <= room < 3 && qs[n] > 0 ==> next < 0)
  {
    RequestsConserve(tbs, ta, qs, n);
    var p := ServeBelow(tbs, ta, qs, n);
    var header, last, request := ServeStep(tbs, ta, p, qs[n]);
    SumBelowAppend(p.requests, request, n);
  }

  lemma {:induction false} FullDemandGrows(qs: seq<nat>, m: nat, n: nat)
    requires m <= n <= |qs|
    ensures FullDemand(qs, m) <= FullDemand(qs, n)
    ensures m < n && qs[n - 1] > 0 ==> FullDemand(qs, m) + qs[n - 1] < FullDemand(qs, n)
    decreases n
  {
    if m < n {
      FullDemandGrows(qs, m, n - 1);
    }
  }

  /** While there is room for the last busy channel, everything before it is served in full. */
  lemma {:induction false} ServedInFull(tbs: nat, ta: nat, qs: seq<nat>, l: nat, n: nat)
    requires Usual(tbs, ta, qs) && LastBusy(qs, l) && LeavesRoom(tbs, ta, qs, l) && n <= l
    ensures Room(tbs, ta, qs, n) == tbs - ta - FullDemand(qs, n)
  {
    if n > 0 {
      ServedInFull(tbs, ta, qs, l, n - 1);
      RoomStep(tbs, ta, qs, n - 1);
      FullDemandGrows(qs, n, l);
      FullDemandGrows(qs, n - 1, l);
    }
  }

  lemma {:induction false} RoomStaysNonNegative(tbs: nat, ta: nat, qs: seq<nat>, m: nat, n: nat)
    requires Usual(tbs, ta, qs) && m <= n <= |qs|
    requires Room(tbs, ta, qs, m) >= 0 && forall j :: m <= j < n ==> qs[j] == 0
    ensures Room(tbs, ta, qs, n) >= 0
    decreases n
  {
    if m < n {
      RoomStaysNonNegative(tbs, ta, qs, m, n - 1);
      RoomStep(tbs, ta, qs, n - 1);
    }
  }

  /** Either everything so far was served in full, or the block is already full. */
  lemma {:induction false} InFullOrFull(tbs: nat, ta: nat, qs: seq<nat>, n: nat)
    requires Usual(tbs, ta, qs) && n <= |qs|
    ensures Room(tbs, ta, qs, n) == tbs - ta - FullDemand(qs, n) || Room(tbs, ta, qs, n) <= 2
  {
    if n > 0 {
      InFullOrFull(tbs, ta, qs, n - 1);
      RoomStep(tbs, ta, qs, n - 1);
    }
  }

  lemma {:induction false} RoomNeverGrows(tbs: nat, ta: nat, qs: seq<nat>, m: nat, n: nat)
    requires Usual(tbs, ta, qs) && m <= n <= |qs|
    ensures Room(tbs, ta, qs, n) <= Room(tbs, ta, qs, m)
    decreases n
  {
    if m < n {
      RoomNeverGrows(tbs, ta, qs, m, n - 1);
      RoomStep(tbs, ta, qs, n - 1);
    }
  }

  lemma FullBlockOverrun(tbs: nat, ta: nat, qs: seq<nat>, l: nat)
    requires Usual(tbs, ta, qs) && LastBusy(qs, l) && !LeavesRoom(tbs, ta, qs, l)
    ensures Room(tbs, ta, qs, l + 1) < 0
  {
    InFullOrFull(tbs, ta, qs, l);
    if l > 0 && qs[l - 1] == 0 {
      InFullOrFull(tbs, ta, qs, l - 1);
      RoomStep(tbs, ta, qs, l - 1);
    }
    RoomStep(tbs, ta, qs, l);
  }

  /** For queues of any size: requests, subheaders and timing advance stay within the transport block if and only if
      the channels before the last busy one leave room for it.  Once they do not, the unsigned test lets that channel
      request more than there is. */
  lemma BlockRespectedIff(tbs: nat, ta: nat, qs: seq<nat>, l: nat)
    requires Usual(tbs, ta, qs) && LastBusy(qs, l)
    ensures var r := ServeAll(tbs, ta, qs);
      Sum(r.requests) + r.header + ta <= tbs <==> LeavesRoom(tbs, ta, qs, l)
  {
    if LeavesRoom(tbs, ta, qs, l) {
      ServedInFull(tbs, ta, qs, l, l);
      RoomStep(tbs, ta, qs, l);
      RoomStaysNonNegative(tbs, ta, qs, l + 1, |qs|);
    } else {
      FullBlockOverrun(tbs, ta, qs, l);
      RoomNeverGrows(tbs, ta, qs, l + 1, |qs|);
    }
  }

  /** With no data anywhere nothing is requested and the block is trivially respected. */
  lemma NoDataNoRequest(tbs: nat, ta: nat, qs: seq<nat>)
    requires Usual(tbs, ta, qs) && ta <= tbs && forall j :: 0 <= j < |qs| ==> qs[j] == 0
    ensures var r := ServeAll(tbs, ta, qs);
      && |r.requests| == |qs|
      && (forall j :: 0 <= j < |qs| ==> r.requests[j] == 0)
      && Sum(r.requests) + r.header + ta <= tbs
  {
    RequestsConserve(tbs, ta, qs, |qs|);
    RoomStaysNonNegative(tbs, ta, qs, 0, |qs|);
  }

  /** Two channels of 600 bytes in the block of 549 that scheme 28 provides on six resource blocks: 1146 bytes are
      requested. */
  lemma OverrunExample()
    ensures ServeAll(549, 0, [600, 600]) == Rlc(6, 3, 1146, [546, 600], [54, 0])
  {
    assert ServeBelow(549, 0, [600, 600], 0) == Rlc(0, 0, 0, [], []);
    assert ServeBelow(549, 0, [600, 600], 1) == Serve(549, 0, Rlc(0, 0, 0, [], []), 600) == Rlc(3, 3, 546, [546], [54]);
    assert ServeAll(549, 0, [600, 600]) == Serve(549, 0, Rlc(3, 3, 546, [546], [54]), 600);
  }

  // ---------- what the block has to carry ----------

  /** Subheader bytes of the first n requests. */
  function SubheadersBelow(requests: seq<nat>, n: nat): nat
    requires n <= |requests|
  {
    if n == 0 then 0
    else SubheadersBelow(requests, n - 1) + if requests[n - 1] > 0 then Subheader(requests[n - 1]) else 0
  }

  function Subheaders(requests: seq<nat>): nat {
    SubheadersBelow(requests, |requests|)
  }

  lemma {:induction false} SubheadersBelowAppend(s: seq<nat>, x: nat, n: nat)
    requires n <= |s|
    ensures SubheadersBelow(s + [x], n) == SubheadersBelow(s, n)
  {
    if n > 0 {
      SubheadersBelowAppend(s, x, n - 1);
    }
  }

  /** Bytes the chosen block must hold: run_central_scheduler shortens the last subheader to one byte. */
  function BytesNeeded(r: Rlc, ta: nat): nat {
    r.sdu + (if r.header != 0 then W8(r.header - W8(r.last - 1)) else r.header) + ta
  }

  /** Bytes of the MAC PDU itself: all requests, one subheader each, the last of them one byte long. */
  function PduBytes(requests: seq<nat>, last: nat, ta: nat): int {
    Sum(requests) + Subheaders(requests) - last + 1 + ta
  }

  ghost predicate HeadersCounted(r: Rlc) {
    && Subheaders(r.requests) <= r.header
    && (Sum(r.requests) > 0 ==> 2 <= r.last <= 3 && r.last <= Subheaders(r.requests))
  }

  lemma HeadersCountedStep(p: Rlc, q: nat, header: nat, last: nat, request: nat)
    requires HeadersCounted(p) && request <= q
    requires header >= p.header + if request > 0 then Subheader(request) else 0
    requires last == if request > 0 then Subheader(request) else p.last
    ensures HeadersCounted(Rlc(header, last, W16(p.sdu + request), p.requests + [request], p.queues + [q - request]))
  {
    SumBelowAppend(p.requests, request, |p.requests|);
    SubheadersBelowAppend(p.requests, request, |p.requests|);
  }

  lemma {:induction false} SubheadersCounted(tbs: nat, ta: nat, qs: seq<nat>, n: nat)
    requires n <= |qs| && Usual(tbs, ta, qs)
    ensures HeadersCounted(ServeBelow(tbs, ta, qs, n))
  {
    if n > 0 {
      SubheadersCounted(tbs, ta, qs, n - 1);
      RequestsConserve(tbs, ta, qs, n - 1);
      var p := ServeBelow(tbs, ta, qs, n - 1);
      var header, last, request := ServeStep(tbs, ta, p, qs[n - 1]);
      HeadersCountedStep(p, qs[n - 1], header, last, request);
    }
  }

  /** What the search for a block size asks for covers the PDU if and only if the requests add up to less than 65536
      bytes, and it fits the block the requests were made for whenever that block was respected. */
  lemma BytesNeededCoversPdu(tbs: nat, ta: nat, qs: seq<nat>)
    requires Usual(tbs, ta, qs) && Sum(ServeAll(tbs, ta, qs).requests) > 0
    ensures var r := ServeAll(tbs, ta, qs);
      && (PduBytes(r.requests, r.last, ta) <= BytesNeeded(r, ta) <==> Sum(r.requests) < 0x1_0000)
      && (Sum(r.requests) + r.header + ta <= tbs ==> BytesNeeded(r, ta) <= tbs)
  {
    SubheadersCounted(tbs, ta, qs, |qs|);
    RequestsConserve(tbs, ta, qs, |qs|);
    SubheadersBound(ServeAll(tbs, ta, qs).requests, |qs|);
  }

  /** A PDU whose requests wrap the 16-bit total is larger than any block. */
  lemma WrappedPduIsHuge(tbs: nat, ta: nat, qs: seq<nat>)
    requires Usual(tbs, ta, qs) && Sum(ServeAll(tbs, ta, qs).requests) >= 0x1_0000
    ensures var r := ServeAll(tbs, ta, qs); PduBytes(r.requests, r.last, ta) > 0x1_0000
  {
    SubheadersCounted(tbs, ta, qs, |qs|);
  }

  lemma {:induction false} SubheadersBound(requests: seq<nat>, n: nat)
    requires n <= |requests|
    ensures SubheadersBelow(requests, n) <= 3 * n
  {
    if n > 0 {
      SubheadersBound(requests, n - 1);
    }
  }

  /** Channels of 400 and 70000 bytes in the block of 349 that scheme 0 provides on 100 resource blocks: the PDU has
      70350 bytes, and the search for a block is told that 4814 are needed. */
  lemma NeedWrapsExample()
    ensures ServeAll(349, 0, [400, 70000]) == Rlc(6, 3, 4810, [346, 70000], [54, 0])
    ensures BytesNeeded(ServeAll(349, 0, [400, 70000]), 0) == 4814 && PduBytes([346, 70000], 3, 0) == 70350
  {
    assert ServeBelow(349, 0, [400, 70000], 0) == Rlc(0, 0, 0, [], []);
    assert ServeBelow(349, 0, [400, 70000], 1)
        == Serve(349, 0, Rlc(0, 0, 0, [], []), 400) == Rlc(3, 3, 346, [346], [54]);
    assert ServeAll(349, 0, [400, 70000]) == Serve(349, 0, Rlc(3, 3, 346, [346], [54]), 70000);
    assert SumBelow([346, 70000], 1) == 346 && SubheadersBelow([346, 70000], 1) == 3;
  }
}
