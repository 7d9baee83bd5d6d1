/** Length-framed messages: protocol_message and the reading loop of agent_session. */
module Framing {
  import opened Words
  import opened LexOrder

  type byte = x: int | 0 <= x < 0x100

  const HEADER_LENGTH: nat := 4
  const MAX_BODY_LENGTH: nat := 240000

  // ---------- frames as byte strings ----------

  function Header(n: nat): (h: seq<byte>)
    ensures |h| == HEADER_LENGTH
  {
    [n / 0x100_0000 % 0x100, n / 0x1_0000 % 0x100, n / 0x100 % 0x100, n % 0x100]
  }

  function HeaderValue(h: seq<byte>): nat
    requires |h| >= HEADER_LENGTH
  {
    (h[0] as int) * 0x100_0000 + (h[1] as int) * 0x1_0000 + (h[2] as int) * 0x100 + h[3] as int
  }

  /** What set_message puts on the wire: bodies over the limit are cut off. */
  function Frame(body: seq<byte>): seq<byte> {
    var sent := Sendable(body);
    Header(|sent|) + sent
  }

  function Sendable(body: seq<byte>): (s: seq<byte>)
    ensures |s| <= MAX_BODY_LENGTH
  {
    var n := W32(|body|);
    body[..if n > MAX_BODY_LENGTH then MAX_BODY_LENGTH else n]
  }

  function Wire(bodies: seq<seq<byte>>): seq<byte> {
    if bodies == [] then [] else Frame(bodies[0]) + Wire(bodies[1..])
  }

  /** Result of reading a stream: the bodies delivered, the bytes consumed, and whether a bad header made the
      session close its socket. */
  datatype Reading = Reading(delivered: seq<seq<byte>>, consumed: nat, closed: bool)

  /** do_read_header and do_read_body, alternating until the stream runs dry. */
  function Read(stream: seq<byte>): (r: Reading)
    ensures r.consumed <= |stream|
  {
    if |stream| < HEADER_LENGTH then Reading([], 0, false)
    else
      var n := HeaderValue(stream);
      if n > MAX_BODY_LENGTH then Reading([], HEADER_LENGTH, true)
      else if |stream| < HEADER_LENGTH + n then Reading([], 0, false)
      else
        var rest := Read(stream[HEADER_LENGTH + n..]);
        Reading([stream[HEADER_LENGTH..HEADER_LENGTH + n]] + rest.delivered, HEADER_LENGTH + n + rest.consumed,
                rest.closed)
  }

  // ---------- the buffer ----------

  lemma CopiedAt(s: seq<byte>, at: nat, buf: seq<byte>, n: nat)
    requires n <= |buf| && at + n <= |s| && forall i :: at <= i < at + n ==> s[i] == buf[i - at]
    ensures s[at..at + n] == buf[..n]
  {
    forall k | 0 <= k < n
      ensures s[at..at + n][k] == buf[..n][k]
    {
      assert s[at + k] == buf[k];
    }
  }

  class ProtocolMessage {
    const data: array<byte>
    var bodyLength: nat

    ghost predicate Valid()
      reads this
    {
      data.Length == HEADER_LENGTH + MAX_BODY_LENGTH && bodyLength <= MAX_BODY_LENGTH
    }

    constructor ()
      ensures Valid() && fresh(data)
    {
      data := new byte[HEADER_LENGTH + MAX_BODY_LENGTH](_ => 0);
      bodyLength := 0;
    }

    method EncodeHeader()
      requires Valid()
      modifies data
      ensures data[..HEADER_LENGTH] == Header(bodyLength)
      ensures data[HEADER_LENGTH..] == old(data[HEADER_LENGTH..])
    {
      data[0] := bodyLength / 0x100_0000 % 0x100;
      data[1] := bodyLength / 0x1_0000 % 0x100;
      data[2] := bodyLength / 0x100 % 0x100;
      data[3] := bodyLength % 0x100;
    }

    method SetMessage(buf: seq<byte>)
      requires Valid()
      modifies this, data
      ensures Valid() && data[..HEADER_LENGTH + bodyLength] == Frame(buf)
    {
      bodyLength := W32(|buf|);
      if bodyLength > MAX_BODY_LENGTH {
        bodyLength := MAX_BODY_LENGTH;
      }
      EncodeHeader();
      forall i | HEADER_LENGTH <= i < HEADER_LENGTH + bodyLength {
        data[i] := buf[i - HEADER_LENGTH];
      }
      assert data[..HEADER_LENGTH] == Header(bodyLength);
      CopiedAt(data[..], HEADER_LENGTH, buf, bodyLength);
      assert data[..HEADER_LENGTH + bodyLength]
          == data[..HEADER_LENGTH] + data[HEADER_LENGTH..HEADER_LENGTH + bodyLength];
    }

    /** Succeeds exactly for lengths up to the limit. */
    method DecodeHeader() returns (ok: bool)
      requires Valid()
      modifies this
      ensures Valid() && ok == (HeaderValue(data[..]) <= MAX_BODY_LENGTH)
      ensures bodyLength == if ok then HeaderValue(data[..]) else 0
    {
      bodyLength := (data[0] as int) * 0x100_0000 + (data[1] as int) * 0x1_0000 + (data[2] as int) * 0x100
                    + data[3] as int;
      if bodyLength > MAX_BODY_LENGTH {
        bodyLength := 0;
        return false;
      }
      return true;
    }
  }

  /** One header: false if it is refused. */
  method ReadHeader(msg: ProtocolMessage, stream: seq<byte>) returns (ok: bool)
    requires msg.Valid() && HEADER_LENGTH <= |stream|
    modifies msg, msg.data
    ensures msg.Valid() && ok == (HeaderValue(stream) <= MAX_BODY_LENGTH)
    ensures ok ==> msg.bodyLength == HeaderValue(stream)
  {
    forall i | 0 <= i < HEADER_LENGTH {
      msg.data[i] := stream[i];
    }
    assert HeaderValue(msg.data[..]) == HeaderValue(stream);
    ok := msg.DecodeHeader();
  }

  /** A reading that goes on with r after some bodies have been delivered. */
  function Continued(delivered: seq<seq<byte>>, consumed: nat, r: Reading): Reading {
    Reading(delivered + r.delivered, consumed + r.consumed, r.closed)
  }

  lemma BodyDelivered(delivered: seq<seq<byte>>, consumed: nat, rest: seq<byte>, n: nat)
    requires HEADER_LENGTH + n <= |rest| && HeaderValue(rest) == n <= MAX_BODY_LENGTH
    ensures Continued(delivered, consumed, Read(rest))
         == Continued(delivered + [rest[HEADER_LENGTH..HEADER_LENGTH + n]], consumed + HEADER_LENGTH + n,
                      Read(rest[HEADER_LENGTH + n..]))
  {
    var tail := Read(rest[HEADER_LENGTH + n..]);
    var body := rest[HEADER_LENGTH..HEADER_LENGTH + n];
    assert Read(rest) == Reading([body] + tail.delivered, HEADER_LENGTH + n + tail.consumed, tail.closed);
    assert delivered + ([body] + tail.delivered) == (delivered + [body]) + tail.delivered;
  }

  /** The chained reads of a session over everything that has arrived so far. */
  method ReadStream(stream: seq<byte>) returns (r: Reading)
    ensures r == Read(stream)
  {
    ghost var whole := Read(stream);
    var msg := new ProtocolMessage();
    var rest := stream;
    var delivered: seq<seq<byte>> := [];
    while |rest| >= HEADER_LENGTH
      invariant |rest| <= |stream| && msg.Valid() && fresh(msg) && fresh(msg.data)
      invariant whole == Continued(delivered, |stream| - |rest|, Read(rest))
      decreases |rest|
    {
      var ok := ReadHeader(msg, rest);
      if !ok {
        return Reading(delivered, |stream| - |rest| + HEADER_LENGTH, true);
      }
      var n := msg.bodyLength;
      if |rest| < HEADER_LENGTH + n {
        return Reading(delivered, |stream| - |rest|, false);
      }
      BodyDelivered(delivered, |stream| - |rest|, rest, n);
      delivered := delivered + [rest[HEADER_LENGTH..HEADER_LENGTH + n]];
      rest := rest[HEADER_LENGTH + n..];
    }
    return Reading(delivered, |stream| - |rest|, false);
  }

  // ---------- main results ----------

  /** The header carries any 32-bit length. */
  lemma HeaderRoundTrip(n: nat)
    requires n < 0x1_0000_0000
    ensures HeaderValue(Header(n)) == n
  {
    var a, b, c := n / 0x100, n / 0x1_0000, n / 0x100_0000;
    assert n == 0x100 * a + n % 0x100;
    assert a / 0x100 == b && a == 0x100 * b + a % 0x100;
    assert b / 0x100 == c && b == 0x100 * c + b % 0x100;
  }

  /** Most significant byte first: headers are ordered like the lengths they stand for. */
  lemma HeadersOrdered(m: nat, n: nat)
    requires m < 0x1_0000_0000 && n < 0x1_0000_0000
    ensures LexGeq(Header(m), Header(n)) <==> m >= n
  {
    HeaderRoundTrip(m);
    HeaderRoundTrip(n);
    var a: seq<int>, b: seq<int> := Header(m), Header(n);
    LexGeqMeans(a, b);
    if m >= n {
      forall k | 0 <= k < |a| && SameBelow(a, b, k)
        ensures a[k] >= b[k]
      {
        ValueDecides(Header(m), Header(n), k);
      }
    } else {
      LexGeqMeans(b, a);
      forall k | 0 <= k < |b| && SameBelow(b, a, k)
        ensures b[k] >= a[k]
      {
        ValueDecides(Header(n), Header(m), k);
      }
      if LexGeq(a, b) {
        LexGeqBothWays(a, b);
      }
    }
  }

  lemma ValueDecides(a: seq<byte>, b: seq<byte>, k: nat)
    requires |a| == |b| == HEADER_LENGTH && HeaderValue(a) >= HeaderValue(b) && k < HEADER_LENGTH
    requires forall i :: 0 <= i < k ==> a[i] == b[i]
    ensures a[k] >= b[k]
  {
  }

  function AllSendable(bodies: seq<seq<byte>>): (r: seq<seq<byte>>)
    ensures |r| == |bodies| && forall i :: 0 <= i < |bodies| ==> r[i] == Sendable(bodies[i])
  {
    seq(|bodies|, i requires 0 <= i < |bodies| => Sendable(bodies[i]))
  }

  /** A frame at the head of a stream is read as exactly its body. */
  lemma ReadOneFrame(body: seq<byte>, rest: seq<byte>)
    ensures var r := Read(rest);
      Read(Frame(body) + rest) == Reading([Sendable(body)] + r.delivered, |Frame(body)| + r.consumed, r.closed)
  {
    var sent := Sendable(body);
    var stream := Frame(body) + rest;
    HeaderRoundTrip(|sent|);
    assert HeaderValue(stream) == |sent|;
    assert stream[HEADER_LENGTH..HEADER_LENGTH + |sent|] == sent;
    assert stream[HEADER_LENGTH + |sent|..] == rest;
  }

  /** Round trip: reading the frames of any list of messages returns the list, consumes the whole stream and
      keeps the session open.  A message over the limit arrives cut off to its first 240000 bytes. */
  lemma {:induction false} FramingRoundTrip(bodies: seq<seq<byte>>)
    ensures Read(Wire(bodies)) == Reading(AllSendable(bodies), |Wire(bodies)|, false)
  {
    if bodies == [] {
      assert AllSendable(bodies) == [];
    } else {
      FramingRoundTrip(bodies[1..]);
      ReadOneFrame(bodies[0], Wire(bodies[1..]));
      assert AllSendable(bodies) == [Sendable(bodies[0])] + AllSendable(bodies[1..]);
    }
  }

  /** A message arrives as it was sent exactly when it is within the limit. */
  lemma ArrivesUnchangedIff(body: seq<byte>)
    ensures Sendable(body) == body <==> |body| <= MAX_BODY_LENGTH
  {
    if |body| > MAX_BODY_LENGTH {
      assert |Sendable(body)| <= MAX_BODY_LENGTH;
    }
  }

  lemma PartOfFirstFrame(bodies: seq<seq<byte>>, k: nat)
    requires bodies != [] && k < |Frame(bodies[0])|
    ensures k <= |Wire(bodies)|
    ensures Read(Wire(bodies)[..k]).delivered == [] && !Read(Wire(bodies)[..k]).closed
  {
    var n := |Sendable(bodies[0])|;
    HeaderRoundTrip(n);
    if k >= HEADER_LENGTH {
      assert HeaderValue(Wire(bodies)[..k]) == n;
    }
  }

  /** Total length of the first n frames. */
  function Length(bodies: seq<seq<byte>>, n: nat): nat
    requires n <= |bodies|
  {
    if n == 0 then 0 else |Frame(bodies[0])| + Length(bodies[1..], n - 1)
  }

  /** The delivered list is that of the frames complete within the first k bytes. */
  ghost predicate DeliversComplete(bodies: seq<seq<byte>>, delivered: seq<seq<byte>>, k: nat) {
    && |delivered| <= |bodies|
    && (forall i :: 0 <= i < |delivered| ==> delivered[i] == Sendable(bodies[i]))
    && Length(bodies, |delivered|) <= k
    && (|delivered| < |bodies| ==> k < Length(bodies, |delivered| + 1))
  }

  lemma OneMoreComplete(bodies: seq<seq<byte>>, delivered: seq<seq<byte>>, k: nat)
    requires bodies != [] && DeliversComplete(bodies[1..], delivered, k)
    ensures DeliversComplete(bodies, [Sendable(bodies[0])] + delivered, |Frame(bodies[0])| + k)
  {
  }

  /** However the network splits the stream, what has been delivered once k bytes have arrived is the list of the
      messages whose frames are complete by then: never a partial one, never one out of order. */
  lemma {:induction false} PartialStreamDeliversPrefix(bodies: seq<seq<byte>>, k: nat)
    requires k <= |Wire(bodies)|
    ensures var r := Read(Wire(bodies)[..k]); !r.closed && DeliversComplete(bodies, r.delivered, k)
  {
    if bodies != [] {
      var first := Frame(bodies[0]);
      if k < |first| {
        PartOfFirstFrame(bodies, k);
      } else {
        var rest := Wire(bodies[1..])[..k - |first|];
        PartialStreamDeliversPrefix(bodies[1..], k - |first|);
        assert Wire(bodies)[..k] == first + rest;
        ReadOneFrame(bodies[0], rest);
        OneMoreComplete(bodies, Read(rest).delivered, k - |first|);
      }
    }
  }
}
