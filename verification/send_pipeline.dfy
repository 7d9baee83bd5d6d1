/** The way of a message from a controller thread to an agent, async_xface's bounded queue and posted handlers,
    connection_manager's sessions and agent_session's chained writes, and the way back into the bounded queue that the
    RIB is fed from.  Every atomic action of a producer or of
    the single I/O thread is one step; runs are arbitrary interleavings of steps. */
module SendPipeline {
  import opened Framing

  const CAPACITY: nat := 10000

  datatype Msg = Msg(tag: nat, body: seq<byte>)

  /** A session: frames waiting or being written, asynchronous writes outstanding, frames written. */
  datatype Session = Session(queue: seq<seq<byte>>, outstanding: nat, wire: seq<seq<byte>>)

  /** unposted counts producers between their push and their post, posted the handlers not run yet; sent is the
      history of successful pushes; broken records undefined behaviour: popping an empty queue, or a message
      for a session that does not exist; inQueue holds what has come in, a message without a body marking a new
      connection, and fetched is the history of what the RIB took out. */
  datatype State = State(outQueue: seq<Msg>, unposted: nat, posted: nat, sessions: map<nat, Session>, nextId: nat,
                         sent: seq<Msg>, broken: bool, inQueue: seq<Msg>, fetched: seq<Msg>)

  datatype Step =
    | Push(m: Msg)          // send_msg, first half
    | Post                  // send_msg, second half
    | Handle                // forward_msg_to_agent
    | Written(id: nat)      // completion handler of async_write
    | Accept                // completion handler of async_accept
    | Receive(m: Msg)       // completion handler of the read of a body
    | Fetch                 // get_msg_from_network

  // ---------- steps ----------

  function Deliver(s: Session, body: seq<byte>): Session {
    Session(s.queue + [Frame(body)], if s.queue == [] then s.outstanding + 1 else s.outstanding, s.wire)
  }

  function FinishWrite(s: Session): Session
    requires s.queue != [] && s.outstanding > 0
  {
    var rest := s.queue[1..];
    Session(rest, if rest == [] then s.outstanding - 1 else s.outstanding, s.wire + [s.queue[0]])
  }

  function PushMsg(s: State, m: Msg): State {
    if |s.outQueue| < CAPACITY then s.(outQueue := s.outQueue + [m], unposted := s.unposted + 1, sent := s.sent + [m])
    else s
  }

  function HandleNext(s: State): State
    requires s.posted > 0
  {
    if s.outQueue == [] || s.outQueue[0].tag !in s.sessions then s.(broken := true)
    else
      var m := s.outQueue[0];
      s.(outQueue := s.outQueue[1..], posted := s.posted - 1,
         sessions := s.sessions[m.tag := Deliver(s.sessions[m.tag], m.body)])
  }

  function AcceptNew(s: State): State {
    Arrived(s, Msg(s.nextId, [])).(sessions := s.sessions[s.nextId := Session([], 0, [])], nextId := s.nextId + 1)
  }

  /** A push into the queue of the RIB, whose failure nobody notices. */
  function Arrived(s: State, m: Msg): State {
    if |s.inQueue| < CAPACITY then s.(inQueue := s.inQueue + [m]) else s
  }

  function FetchNext(s: State): State {
    if s.inQueue == [] then s else s.(inQueue := s.inQueue[1..], fetched := s.fetched + [s.inQueue[0]])
  }

  /** When a step can happen.  Sessions stay open, so producers address sessions that exist. */
  ghost predicate Enabled(s: State, step: Step) {
    match step
    case Push(m) => m.tag in s.sessions
    case Post => s.unposted > 0
    case Handle => s.posted > 0
    case Written(id) => id in s.sessions && s.sessions[id].outstanding > 0
    case Accept => true
    case Receive(m) => m.tag in s.sessions
    case Fetch => true
  }

  function Next(s: State, step: Step): State
    requires Enabled(s, step)
  {
    match step
    case Push(m) => PushMsg(s, m)
    case Post => s.(unposted := s.unposted - 1, posted := s.posted + 1)
    case Handle => HandleNext(s)
    case Written(id) =>
      if s.sessions[id].queue == [] then s.(broken := true)
      else s.(sessions := s.sessions[id := FinishWrite(s.sessions[id])])
    case Accept => AcceptNew(s)
    case Receive(m) => Arrived(s, m)
    case Fetch => FetchNext(s)
  }

  const START: State := State([], 0, 0, map[], 0, [], false, [], [])

  ghost predicate Run(states: seq<State>, steps: seq<Step>) {
    && |states| == |steps| + 1 && states[0] == START
    && forall n :: 0 <= n < |steps| ==> Enabled(states[n], steps[n]) && states[n + 1] == Next(states[n], steps[n])
  }

  // ---------- who gets what ----------

  function BodiesFor(ms: seq<Msg>, id: nat): seq<seq<byte>> {
    if ms == [] then []
    else (if ms[0].tag == id then [ms[0].body] else []) + BodiesFor(ms[1..], id)
  }

  function FramesOf(bodies: seq<seq<byte>>): (r: seq<seq<byte>>)
    ensures |r| == |bodies| && forall i :: 0 <= i < |bodies| ==> r[i] == Frame(bodies[i])
  {
    seq(|bodies|, i requires 0 <= i < |bodies| => Frame(bodies[i]))
  }

  lemma {:induction false} BodiesForAppend(ms: seq<Msg>, m: Msg, id: nat)
    ensures BodiesFor(ms + [m], id) == BodiesFor(ms, id) + if m.tag == id then [m.body] else []
  {
    if ms == [] {
      assert ms + [m] == [m];
    } else {
      BodiesForAppend(ms[1..], m, id);
      assert (ms + [m])[1..] == ms[1..] + [m];
    }
  }

  lemma {:induction false} NoBodiesFor(ms: seq<Msg>, id: nat)
    requires forall i :: 0 <= i < |ms| ==> ms[i].tag != id
    ensures BodiesFor(ms, id) == []
  {
    if ms != [] {
      NoBodiesFor(ms[1..], id);
    }
  }

  // ---------- the invariant ----------

  /** A session has a write outstanding exactly when it has something queued, and never more than one; what it
      has written, what it still holds and what is on the way to it are what was sent to it, in order. */
  ghost predicate SessionInv(x: Session, coming: seq<seq<byte>>, all: seq<seq<byte>>) {
    && x.outstanding == (if x.queue == [] then 0 else 1)
    && x.wire + x.queue + FramesOf(coming) == FramesOf(all)
  }

  ghost predicate Inv(s: State) {
    && !s.broken
    && s.unposted + s.posted == |s.outQueue| <= CAPACITY
    && (forall i :: 0 <= i < |s.sent| ==> s.sent[i].tag in s.sessions)
    && (forall i :: 0 <= i < |s.outQueue| ==> s.outQueue[i].tag in s.sessions)
    && (forall id :: id in s.sessions ==> id < s.nextId)
    && (forall id :: id in s.sessions ==> SessionInv(s.sessions[id], BodiesFor(s.outQueue, id), BodiesFor(s.sent, id)))
  }

  lemma FramesOfAppend(bodies: seq<seq<byte>>, more: seq<seq<byte>>)
    ensures FramesOf(bodies + more) == FramesOf(bodies) + FramesOf(more)
  {
  }

  lemma PushKeepsInv(s: State, m: Msg)
    requires Inv(s) && m.tag in s.sessions
    ensures Inv(PushMsg(s, m))
  {
    var s' := PushMsg(s, m);
    if s' != s {
      forall id | id in s.sessions
        ensures SessionInv(s.sessions[id], BodiesFor(s'.outQueue, id), BodiesFor(s'.sent, id))
      {
        var more := if m.tag == id then [m.body] else [];
        BodiesForAppend(s.outQueue, m, id);
        BodiesForAppend(s.sent, m, id);
        FramesOfAppend(BodiesFor(s.outQueue, id), more);
        FramesOfAppend(BodiesFor(s.sent, id), more);
      }
    }
  }

  lemma DeliverKeepsSession(x: Session, body: seq<byte>, coming: seq<seq<byte>>, all: seq<seq<byte>>)
    requires SessionInv(x, [body] + coming, all)
    ensures SessionInv(Deliver(x, body), coming, all)
  {
    FramesOfAppend([body], coming);
    assert FramesOf([body]) == [Frame(body)];
    assert x.wire + (x.queue + [Frame(body)]) + FramesOf(coming)
        == x.wire + x.queue + ([Frame(body)] + FramesOf(coming));
  }

  lemma HandleKeepsInv(s: State)
    requires Inv(s) && s.posted > 0
    ensures s.outQueue != [] && Inv(HandleNext(s))
  {
    var m := s.outQueue[0];
    var s' := HandleNext(s);
    forall id | id in s'.sessions
      ensures SessionInv(s'.sessions[id], BodiesFor(s'.outQueue, id), BodiesFor(s'.sent, id))
    {
      assert SessionInv(s.sessions[id], BodiesFor(s.outQueue, id), BodiesFor(s.sent, id));
      if id == m.tag {
        DeliverKeepsSession(s.sessions[id], m.body, BodiesFor(s'.outQueue, id), BodiesFor(s.sent, id));
      } else {
        assert [] + BodiesFor(s.outQueue[1..], id) == BodiesFor(s.outQueue[1..], id);
      }
    }
  }

  lemma WrittenKeepsInv(s: State, id: nat)
    requires Inv(s) && Enabled(s, Written(id))
    ensures s.sessions[id].queue != [] && Inv(Next(s, Written(id)))
  {
    var x := s.sessions[id];
    assert SessionInv(x, BodiesFor(s.outQueue, id), BodiesFor(s.sent, id));
    assert x.wire + [x.queue[0]] + x.queue[1..] == x.wire + x.queue;
    assert SessionInv(FinishWrite(x), BodiesFor(s.outQueue, id), BodiesFor(s.sent, id));
  }

  lemma AcceptKeepsInv(s: State)
    requires Inv(s)
    ensures Inv(AcceptNew(s))
  {
    NoBodiesFor(s.outQueue, s.nextId);
    NoBodiesFor(s.sent, s.nextId);
    assert SessionInv(Session([], 0, []), BodiesFor(s.outQueue, s.nextId), BodiesFor(s.sent, s.nextId));
  }

  lemma StepKeepsInv(s: State, step: Step)
    requires Inv(s) && Enabled(s, step)
    ensures Inv(Next(s, step))
  {
    match step
    case Push(m) => PushKeepsInv(s, m);
    case Post =>
    case Handle => HandleKeepsInv(s);
    case Written(id) => WrittenKeepsInv(s, id);
    case Accept => AcceptKeepsInv(s);
    case Receive(m) =>
    case Fetch =>
  }

  lemma {:induction false} RunKeepsInv(states: seq<State>, steps: seq<Step>, n: nat)
    requires Run(states, steps) && n <= |steps|
    ensures Inv(states[n])
  {
    if n > 0 {
      RunKeepsInv(states, steps, n - 1);
      StepKeepsInv(states[n - 1], steps[n - 1]);
    }
  }

  // ---------- main results ----------

  /** In no interleaving does the I/O thread pop an empty queue: whenever a handler or a completion runs, its
      message is there. */
  lemma NeverPopsEmpty(states: seq<State>, steps: seq<Step>, n: nat)
    requires Run(states, steps) && n <= |steps|
    ensures var s := states[n];
      && !s.broken && s.unposted + s.posted == |s.outQueue|
      && (s.posted > 0 ==> s.outQueue != [])
      && (forall id :: id in s.sessions ==>
            && s.sessions[id].outstanding <= 1
            && (s.sessions[id].outstanding == 1 <==> s.sessions[id].queue != []))
  {
    RunKeepsInv(states, steps, n);
    var s := states[n];
    forall id | id in s.sessions
      ensures s.sessions[id].outstanding == if s.sessions[id].queue == [] then 0 else 1
    {
      assert SessionInv(s.sessions[id], BodiesFor(s.outQueue, id), BodiesFor(s.sent, id));
    }
  }

  function Concat(frames: seq<seq<byte>>): seq<byte> {
    if frames == [] then [] else frames[0] + Concat(frames[1..])
  }

  lemma {:induction false} ConcatOfFrames(bodies: seq<seq<byte>>)
    ensures Concat(FramesOf(bodies)) == Wire(bodies)
  {
    if bodies != [] {
      ConcatOfFrames(bodies[1..]);
      assert FramesOf(bodies) == [Frame(bodies[0])] + FramesOf(bodies[1..]);
    }
  }

  /** End to end, from the producers' pushes through the wire and the agent's framing: at any moment of any run an
      agent reading its connection has received exactly the first messages pushed for it, in the order of the
      pushes, none lost, repeated or reordered, and everything once nothing is left in any queue. */
  lemma AgentReceivesPushOrder(states: seq<State>, steps: seq<Step>, n: nat, id: nat)
    requires Run(states, steps) && n <= |steps| && id in states[n].sessions
    ensures var s := states[n];
      var x := s.sessions[id];
      var bodies := BodiesFor(s.sent, id);
      && |x.wire| <= |bodies|
      && Read(Concat(x.wire)) == Reading(AllSendable(bodies[..|x.wire|]), |Concat(x.wire)|, false)
      && (s.outQueue == [] && x.queue == [] ==> |x.wire| == |bodies|)
  {
    RunKeepsInv(states, steps, n);
    var s := states[n];
    var x := s.sessions[id];
    var bodies := BodiesFor(s.sent, id);
    assert SessionInv(x, BodiesFor(s.outQueue, id), bodies);
    assert |FramesOf(bodies)| == |x.wire| + |x.queue| + |FramesOf(BodiesFor(s.outQueue, id))|;
    assert x.wire == FramesOf(bodies[..|x.wire|]) by {
      forall i | 0 <= i < |x.wire|
        ensures x.wire[i] == Frame(bodies[i])
      {
        assert (x.wire + x.queue + FramesOf(BodiesFor(s.outQueue, id)))[i] == x.wire[i];
      }
    }
    ConcatOfFrames(bodies[..|x.wire|]);
    FramingRoundTrip(bodies[..|x.wire|]);
  }

  // ---------- what the RIB gets ----------

  /** A message without a body is the first one with its tag. */
  ghost predicate FreshMarkers(ms: seq<Msg>) {
    forall i, j :: 0 <= i < j < |ms| && ms[j].body == [] ==> ms[i].tag != ms[j].tag
  }

  ghost predicate InboundInv(s: State) {
    && (forall id :: id in s.sessions ==> id < s.nextId)
    && FreshMarkers(s.fetched + s.inQueue)
    && forall i :: 0 <= i < |s.fetched + s.inQueue| ==> (s.fetched + s.inQueue)[i].tag < s.nextId
  }

  lemma ArrivalKeepsInbound(s: State, m: Msg)
    requires InboundInv(s) && (m.tag == s.nextId || (m.tag < s.nextId && m.body != []))
    ensures FreshMarkers(Arrived(s, m).fetched + Arrived(s, m).inQueue)
    ensures var all := Arrived(s, m).fetched + Arrived(s, m).inQueue;
      forall i :: 0 <= i < |all| ==> all[i].tag < s.nextId || all[i].tag == m.tag
  {
    assert s.fetched + (s.inQueue + [m]) == (s.fetched + s.inQueue) + [m];
  }

  lemma InboundStep(s: State, step: Step)
    requires InboundInv(s) && Enabled(s, step) && (step.Receive? ==> step.m.body != [])
    ensures InboundInv(Next(s, step))
  {
    match step
    case Accept => ArrivalKeepsInbound(s, Msg(s.nextId, []));
    case Receive(m) => ArrivalKeepsInbound(s, m);
    case Fetch =>
      if s.inQueue != [] {
        assert s.fetched + [s.inQueue[0]] + s.inQueue[1..] == s.fetched + s.inQueue;
      }
    case _ =>
  }

  /** As long as no agent sends an empty body, in every interleaving what the RIB takes for a new connection carries an
      id that no earlier message had. */
  lemma {:induction false} ConnectMarkersFresh(states: seq<State>, steps: seq<Step>, n: nat)
    requires Run(states, steps) && n <= |steps|
    requires forall k :: 0 <= k < n && steps[k].Receive? ==> steps[k].m.body != []
    ensures InboundInv(states[n]) && FreshMarkers(states[n].fetched)
  {
    if n > 0 {
      ConnectMarkersFresh(states, steps, n - 1);
      InboundStep(states[n - 1], steps[n - 1]);
    }
    var s := states[n];
    forall i, j | 0 <= i < j < |s.fetched| && s.fetched[j].body == []
      ensures s.fetched[i].tag != s.fetched[j].tag
    {
      var all := s.fetched + s.inQueue;
      assert all[i] == s.fetched[i] && all[j] == s.fetched[j];
    }
  }

  /** What a step brings in, if there is room for it: a marker for a new connection, or a body. */
  function Brings(s: State, step: Step): seq<Msg> {
    match step
    case Accept => [Msg(s.nextId, [])]
    case Receive(m) => [m]
    case _ => []
  }

  /** What the first n steps bring in while the queue is not full, in order. */
  function AcceptedBelow(states: seq<State>, steps: seq<Step>, n: nat): seq<Msg>
    requires n <= |steps| < |states|
  {
    if n == 0 then []
    else AcceptedBelow(states, steps, n - 1)
           + if |states[n - 1].inQueue| < CAPACITY then Brings(states[n - 1], steps[n - 1]) else []
  }

  lemma StepInOrder(s: State, step: Step)
    requires Enabled(s, step)
    ensures Next(s, step).fetched + Next(s, step).inQueue
         == s.fetched + s.inQueue + if |s.inQueue| < CAPACITY then Brings(s, step) else []
  {
    match step
    case Accept => assert s.fetched + (s.inQueue + [Msg(s.nextId, [])]) == s.fetched + s.inQueue + [Msg(s.nextId, [])];
    case Receive(m) => assert s.fetched + (s.inQueue + [m]) == s.fetched + s.inQueue + [m];
    case Fetch =>
      if s.inQueue != [] {
        assert s.fetched + [s.inQueue[0]] + s.inQueue[1..] == s.fetched + s.inQueue;
      }
    case _ =>
  }

  /** In any interleaving, what the RIB has fetched and what is still queued for it are what came in while there was
      room, in the order in which it came in, and the queue never exceeds its capacity. */
  lemma {:induction false} RibFetchesArrivalOrder(states: seq<State>, steps: seq<Step>, n: nat)
    requires Run(states, steps) && n <= |steps|
    ensures states[n].fetched + states[n].inQueue == AcceptedBelow(states, steps, n)
    ensures |states[n].inQueue| <= CAPACITY
  {
    if n > 0 {
      RibFetchesArrivalOrder(states, steps, n - 1);
      StepInOrder(states[n - 1], steps[n - 1]);
    }
  }
}
