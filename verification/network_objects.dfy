/** agent_session, connection_manager and async_xface as objects; each method is one step of SendPipeline. */
module NetworkObjects {
  import opened Framing
  import SendPipeline

  class AgentSession {
    var writeQueue: seq<seq<byte>>
    /** Asynchronous writes started and not completed. */
    var outstanding: nat
    /** Frames that have left through the socket. */
    var written: seq<seq<byte>>

    constructor ()
      ensures AsSession() == SendPipeline.Session([], 0, [])
    {
      writeQueue, outstanding, written := [], 0, [];
    }

    ghost function AsSession(): SendPipeline.Session
      reads this
    {
      SendPipeline.Session(writeQueue, outstanding, written)
    }

    method DoWrite()
      requires writeQueue != []
      modifies this`outstanding
      ensures outstanding == old(outstanding) + 1
    {
      outstanding := outstanding + 1;
    }

    method Deliver(body: seq<byte>)
      modifies this
      ensures AsSession() == SendPipeline.Deliver(old(AsSession()), body)
    {
      var writeInProgress := writeQueue != [];
      var data := new ProtocolMessage();
      data.SetMessage(body);
      writeQueue := writeQueue + [data.data[..HEADER_LENGTH + data.bodyLength]];
      if !writeInProgress {
        DoWrite();
      }
    }

    /** Completion handler of the write of the front frame. */
    method OnWritten()
      requires writeQueue != [] && outstanding > 0
      modifies this
      ensures AsSession() == SendPipeline.FinishWrite(old(AsSession()))
    {
      outstanding := outstanding - 1;
      written := written + [writeQueue[0]];
      writeQueue := writeQueue[1..];
      if writeQueue != [] {
        DoWrite();
      }
    }
  }

  /** async_xface together with the session table of its connection_manager. */
  class AsyncXface {
    var outQueue: seq<SendPipeline.Msg>
    var unposted: nat
    var posted: nat
    var sessions: map<nat, AgentSession>
    var nextId: nat
    var inQueue: seq<SendPipeline.Msg>
    ghost var sent: seq<SendPipeline.Msg>
    ghost var fetched: seq<SendPipeline.Msg>

    ghost predicate Valid()
      reads this
    {
      forall a, b :: a in sessions && b in sessions && a != b ==> sessions[a] != sessions[b]
    }

    ghost function AsState(): SendPipeline.State
      reads this, sessions.Values
    {
      SendPipeline.State(outQueue, unposted, posted, map id | id in sessions :: sessions[id].AsSession(), nextId, sent,
                         false, inQueue, fetched)
    }

    constructor ()
      ensures Valid() && AsState() == SendPipeline.START
    {
      outQueue, unposted, posted, sessions, nextId, sent := [], 0, 0, map[], 0, [];
      inQueue, fetched := [], [];
    }

    /** First half of send_msg: false when the queue is full. */
    method PushMsg(m: SendPipeline.Msg) returns (ok: bool)
      requires Valid()
      modifies this
      ensures Valid() && sessions == old(sessions) && AsState() == SendPipeline.PushMsg(old(AsState()), m)
      ensures ok == (|old(outQueue)| < SendPipeline.CAPACITY)
    {
      ok := |outQueue| < SendPipeline.CAPACITY;
      if ok {
        outQueue := outQueue + [m];
        sent := sent + [m];
        unposted := unposted + 1;
      }
    }

    /** Second half of send_msg: io_service.post. */
    method PostHandler()
      requires Valid() && unposted > 0
      modifies this
      ensures Valid() && sessions == old(sessions)
      ensures AsState() == SendPipeline.Next(old(AsState()), SendPipeline.Post)
    {
      unposted, posted := unposted - 1, posted + 1;
    }

    /** The posted handler. */
    method ForwardMsgToAgent()
      requires Valid() && posted > 0 && outQueue != [] && outQueue[0].tag in sessions
      modifies this, sessions.Values
      ensures Valid() && sessions == old(sessions)
      ensures AsState() == SendPipeline.HandleNext(old(AsState()))
    {
      ghost var before := AsState();
      var msg := outQueue[0];
      outQueue, posted := outQueue[1..], posted - 1;
      var session := sessions[msg.tag];
      session.Deliver(msg.body);
      forall id | id in sessions && id != msg.tag
        ensures sessions[id].AsSession() == before.sessions[id]
      {
        assert sessions[id] != session;
      }
      assert AsState().sessions == before.sessions[msg.tag := SendPipeline.Deliver(before.sessions[msg.tag], msg.body)];
    }

    method CompleteWrite(id: nat)
      requires Valid() && id in sessions && sessions[id].outstanding > 0 && sessions[id].writeQueue != []
      modifies sessions.Values
      ensures Valid() && sessions == old(sessions)
      ensures AsState() == SendPipeline.Next(old(AsState()), SendPipeline.Written(id))
    {
      ghost var before := AsState();
      sessions[id].OnWritten();
      forall other | other in sessions && other != id
        ensures sessions[other].AsSession() == before.sessions[other]
      {
        assert sessions[other] != sessions[id];
      }
      assert AsState().sessions == before.sessions[id := SendPipeline.FinishWrite(before.sessions[id])];
    }

    /** forward_message, and the push of initialize_connection. */
    method ForwardMessage(m: SendPipeline.Msg)
      requires Valid()
      modifies this`inQueue
      ensures AsState() == SendPipeline.Arrived(old(AsState()), m)
    {
      if |inQueue| < SendPipeline.CAPACITY {
        inQueue := inQueue + [m];
      }
    }

    method GetMsgFromNetwork() returns (ok: bool, m: SendPipeline.Msg)
      requires Valid()
      modifies this`inQueue, this`fetched
      ensures AsState() == SendPipeline.FetchNext(old(AsState()))
      ensures ok == (old(inQueue) != []) && (ok ==> m == old(inQueue)[0])
    {
      ok, m := inQueue != [], SendPipeline.Msg(0, []);
      if ok {
        m := inQueue[0];
        fetched := fetched + [m];
        inQueue := inQueue[1..];
      }
    }

    /** A new connection gets the next id, and the RIB is told. */
    method AcceptConnection()
      requires Valid()
      modifies this
      ensures Valid() && AsState() == SendPipeline.AcceptNew(old(AsState()))
    {
      ghost var before := AsState();
      var session := new AgentSession();
      sessions := sessions[nextId := session];
      assert AsState().sessions == before.sessions[nextId := SendPipeline.Session([], 0, [])];
      ForwardMessage(SendPipeline.Msg(nextId, []));
      nextId := nextId + 1;
    }
  }
}
