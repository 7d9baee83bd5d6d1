/** The RAN information base as a state machine: what enb_rib_info, Rib and the handlers of rib_updater do with
    each kind of message, and what every message sequence keeps.  Module RibObjects proves the classes equal to
    these functions. */
module RibModel {
  import opened Words
  import opened SlotTime
  import opened Downlink
  import HarqRuns
  import opened Framing

  datatype EnbConfig = EnbConfig(bandwidth: nat)
  datatype UeConfig = UeConfig(rnti: nat, pcell: nat, transmissionMode: nat)
  datatype LcConfig = LcConfig(rnti: nat, channels: nat)

  /** A UE's entry in ue_mac_info_: HARQ feedback and reported queues. */
  datatype Mac = Mac(fb: Feedback, queues: seq<nat>)

  datatype Agent = Agent(enb: EnbConfig, ues: seq<UeConfig>, lcs: seq<LcConfig>, mac: map<nat, Mac>, current: Slot)

  datatype Rib = Rib(pending: set<nat>, agents: map<nat, Agent>)

  datatype Change = Activated | Deactivated | Updated | Moved

  datatype DlInfo = DlInfo(rnti: nat, pid: nat, statuses: seq<nat>)
  /** A statistics report for one UE; hasQueues says that it carries queue sizes. */
  datatype UeReport = UeReport(rnti: nat, hasQueues: bool, queues: seq<nat>)

  datatype Message =
    | Hello(success: bool)
    | EchoRequest(xid: nat)
    | EchoReply
    | StatsReply(reports: seq<UeReport>)
    | SfTrigger(slot: Slot, infos: seq<DlInfo>)
    | UlSrInfo
    | EnbConfigReply(enb: EnbConfig)
    | UeConfigReply(ues: seq<UeConfig>)
    | LcConfigReply(lcs: seq<LcConfig>)
    | UeStateChange(change: Change, ue: UeConfig)
    | Unrecognised

  /** A message as the network side hands it over; size 0 marks a new connection. */
  datatype Tagged = Tagged(tag: nat, size: nat, msg: Message)

  datatype Request = SendHello | GetEnbConfig | GetUeConfig | GetLcConfig | SendEchoReply(xid: nat)
  datatype Outgoing = Outgoing(tag: nat, request: Request)

  // ---------- one agent ----------

  function NewMac(): Mac {
    Mac(seq(MAX_NUM_HARQ, _ => HarqFeedback(true, 0)), [])
  }

  /** std::map::insert: an entry that exists stays as it is. */
  function InsertMac(mac: map<nat, Mac>, rnti: nat): map<nat, Mac> {
    if rnti in mac then mac else mac[rnti := NewMac()]
  }

  function InsertMacs(mac: map<nat, Mac>, ues: seq<UeConfig>, n: nat): map<nat, Mac>
    requires n <= |ues|
  {
    if n == 0 then mac else InsertMac(InsertMacs(mac, ues, n - 1), ues[n - 1].rnti)
  }

  function WithUes(a: Agent, ues: seq<UeConfig>): Agent {
    a.(ues := ues, mac := InsertMacs(a.mac, ues, |ues|))
  }

  /** Position of the first UE configuration with this RNTI from i on, or the length of the list. */
  function FindUe(ues: seq<UeConfig>, rnti: nat, i: nat): (k: nat)
    requires i <= |ues|
    ensures i <= k <= |ues| && (k < |ues| ==> ues[k].rnti == rnti)
    ensures forall j :: i <= j < k ==> ues[j].rnti != rnti
    decreases |ues| - i
  {
    if i == |ues| || ues[i].rnti == rnti then i else FindUe(ues, rnti, i + 1)
  }

  /** The loop that erases a UE's LC entries.  It deletes in place and still advances, so the entry after a
      deleted one is never looked at. */
  function SweepLcs(lcs: seq<LcConfig>, rnti: nat): seq<LcConfig> {
    if lcs == [] then []
    else if lcs[0].rnti != rnti then [lcs[0]] + SweepLcs(lcs[1..], rnti)
    else if |lcs| == 1 then []
    else [lcs[1]] + SweepLcs(lcs[2..], rnti)
  }

  /** The list in mid-sweep at position j: what comes before is settled, what follows is still to be swept. */
  function SweptFrom(lcs: seq<LcConfig>, rnti: nat, j: nat): seq<LcConfig> {
    if j <= |lcs| then lcs[..j] + SweepLcs(lcs[j..], rnti) else lcs
  }

  lemma SweepAdvance(lcs: seq<LcConfig>, rnti: nat, j: nat)
    requires j < |lcs|
    ensures var next := if lcs[j].rnti == rnti then lcs[..j] + lcs[j + 1..] else lcs;
      SweptFrom(next, rnti, j + 1) == SweptFrom(lcs, rnti, j)
  {
    var rest := lcs[j..];
    if lcs[j].rnti != rnti {
      assert rest[1..] == lcs[j + 1..];
      assert lcs[..j + 1] == lcs[..j] + [rest[0]];
    } else {
      var next := lcs[..j] + lcs[j + 1..];
      if |rest| == 1 {
        assert next == lcs[..j];
      } else {
        assert next[..j + 1] == lcs[..j] + [rest[1]];
        assert next[j + 1..] == rest[2..];
      }
    }
  }

  function Overwritten(ues: seq<UeConfig>, c: UeConfig): (r: seq<UeConfig>)
    ensures |r| == |ues| && forall i :: 0 <= i < |ues| ==> r[i] == if ues[i].rnti == c.rnti then c else ues[i]
  {
    seq(|ues|, i requires 0 <= i < |ues| => if ues[i].rnti == c.rnti then c else ues[i])
  }

  function Changed(a: Agent, change: Change, c: UeConfig): Agent {
    match change
    case Activated => a.(ues := a.ues + [c], mac := InsertMac(a.mac, c.rnti))
    case Deactivated =>
      var i := FindUe(a.ues, c.rnti, 0);
      if i == |a.ues| then a
      else a.(ues := a.ues[..i] + a.ues[i + 1..], mac := a.mac - {c.rnti}, lcs := SweepLcs(a.lcs, c.rnti))
    case Updated => a.(ues := Overwritten(a.ues, c))
    case Moved => a
  }

  function FedMac(mac: map<nat, Mac>, info: DlInfo): map<nat, Mac> {
    if info.rnti in mac && info.pid < MAX_NUM_HARQ then
      mac[info.rnti := mac[info.rnti].(fb := HarqRuns.Fedback(mac[info.rnti].fb, info.pid, info.statuses))]
    else mac
  }

  function FedMacs(mac: map<nat, Mac>, infos: seq<DlInfo>, n: nat): map<nat, Mac>
    requires n <= |infos|
  {
    if n == 0 then mac else FedMac(FedMacs(mac, infos, n - 1), infos[n - 1])
  }

  function ReportedMac(mac: map<nat, Mac>, r: UeReport): map<nat, Mac> {
    if r.rnti in mac && r.hasQueues then mac[r.rnti := mac[r.rnti].(queues := r.queues)] else mac
  }

  function ReportedMacs(mac: map<nat, Mac>, rs: seq<UeReport>, n: nat): map<nat, Mac>
    requires n <= |rs|
  {
    if n == 0 then mac else ReportedMac(ReportedMacs(mac, rs, n - 1), rs[n - 1])
  }

  // ---------- the RIB ----------

  function NewAgent(): Agent {
    Agent(EnbConfig(0), [], [], map[], Slot(0, 0))
  }

  function AgentAfter(a: Agent, m: Message): Agent {
    match m
    case StatsReply(reports) => a.(mac := ReportedMacs(a.mac, reports, |reports|))
    case SfTrigger(slot, infos) => a.(mac := FedMacs(a.mac, infos, |infos|), current := slot)
    case UeConfigReply(ues) => WithUes(a, ues)
    case LcConfigReply(lcs) => a.(lcs := lcs)
    case UeStateChange(change, ue) => Changed(a, change, ue)
    case _ => a
  }

  function Registered(r: Rib, tag: nat, enb: EnbConfig): Rib {
    var a := if tag in r.agents then r.agents[tag] else NewAgent();
    Rib(r.pending - {tag}, r.agents[tag := a.(enb := enb)])
  }

  /** The body of the loop of update_rib. */
  function Handle(r: Rib, tm: Tagged): Rib {
    if tm.size == 0 then r.(pending := r.pending + {tm.tag})
    else if tm.msg.EnbConfigReply? then
      if tm.tag in r.pending then Registered(r, tm.tag, tm.msg.enb) else r
    else if tm.tag in r.agents then r.(agents := r.agents[tm.tag := AgentAfter(r.agents[tm.tag], tm.msg)])
    else r
  }

  /** What the handlers send back. */
  function Replies(r: Rib, tm: Tagged): seq<Outgoing> {
    if tm.size == 0 then [Outgoing(tm.tag, SendHello)]
    else match tm.msg
      case Hello(success) =>
        if !success then []
        else [Outgoing(tm.tag, GetEnbConfig), Outgoing(tm.tag, GetUeConfig), Outgoing(tm.tag, GetLcConfig)]
      case EchoRequest(xid) => [Outgoing(tm.tag, SendEchoReply(xid))]
      case UeStateChange(change, ue) => if tm.tag in r.agents then [Outgoing(tm.tag, GetLcConfig)] else []
      case _ => []
  }

  function HandleAll(r: Rib, tms: seq<Tagged>): Rib {
    if tms == [] then r else Handle(HandleAll(r, tms[..|tms| - 1]), tms[|tms| - 1])
  }

  /** Everything sent back while a list of messages is handled. */
  function AllReplies(r: Rib, tms: seq<Tagged>): seq<Outgoing> {
    if tms == [] then []
    else
      var init := tms[..|tms| - 1];
      AllReplies(r, init) + Replies(HandleAll(r, init), tms[|tms| - 1])
  }

  /** The RIB is what the messages handled so far made of it, and everything sent answers them. */
  ghost predicate CaughtUp(start: Rib, sent: seq<Outgoing>, handled: seq<Tagged>, r: Rib, outgoing: seq<Outgoing>) {
    r == HandleAll(start, handled) && outgoing == sent + AllReplies(start, handled)
  }

  lemma HandleOneMore(start: Rib, sent: seq<Outgoing>, handled: seq<Tagged>, r: Rib, outgoing: seq<Outgoing>,
                      tm: Tagged)
    requires CaughtUp(start, sent, handled, r, outgoing)
    ensures CaughtUp(start, sent, handled + [tm], Handle(r, tm), outgoing + Replies(r, tm))
  {
    assert (handled + [tm])[..|handled|] == handled;
    assert outgoing + Replies(r, tm) == sent + (AllReplies(start, handled) + Replies(r, tm));
  }

  /** Every reply goes to the sender. */
  lemma RepliesGoToSender(r: Rib, tm: Tagged)
    ensures forall i :: 0 <= i < |Replies(r, tm)| ==> Replies(r, tm)[i].tag == tm.tag
  {
  }

  // ---------- agents do not disturb each other ----------

  function MessagesFrom(tms: seq<Tagged>, tag: nat): seq<Tagged> {
    if tms == [] then []
    else
      var last := tms[|tms| - 1];
      MessagesFrom(tms[..|tms| - 1], tag) + if last.tag == tag then [last] else []
  }

  function RepliesTo(outs: seq<Outgoing>, tag: nat): seq<Outgoing> {
    if outs == [] then []
    else
      var last := outs[|outs| - 1];
      RepliesTo(outs[..|outs| - 1], tag) + if last.tag == tag then [last] else []
  }

  /** Two RIBs that agree on one agent. */
  ghost predicate SameFor(a: Rib, b: Rib, tag: nat) {
    && (tag in a.pending <==> tag in b.pending)
    && (tag in a.agents <==> tag in b.agents)
    && (tag in a.agents ==> a.agents[tag] == b.agents[tag])
  }

  lemma HandleSame(a: Rib, b: Rib, tm: Tagged, tag: nat)
    requires SameFor(a, b, tag)
    ensures tm.tag == tag ==> SameFor(Handle(a, tm), Handle(b, tm), tag) && Replies(a, tm) == Replies(b, tm)
    ensures tm.tag != tag ==> SameFor(Handle(a, tm), b, tag)
  {
  }

  lemma {:induction false} RepliesToConcat(a: seq<Outgoing>, b: seq<Outgoing>, tag: nat)
    ensures RepliesTo(a + b, tag) == RepliesTo(a, tag) + RepliesTo(b, tag)
  {
    if b == [] {
      assert a + b == a;
    } else {
      assert (a + b)[..|a + b| - 1] == a + b[..|b| - 1];
      RepliesToConcat(a, b[..|b| - 1], tag);
    }
  }

  lemma {:induction false} AllToOne(outs: seq<Outgoing>, from: nat, tag: nat)
    requires forall i :: 0 <= i < |outs| ==> outs[i].tag == from
    ensures RepliesTo(outs, tag) == if from == tag then outs else []
  {
    if outs != [] {
      AllToOne(outs[..|outs| - 1], from, tag);
      assert outs == outs[..|outs| - 1] + [outs[|outs| - 1]];
    }
  }

  /** Whatever other agents send in between, an agent's entry, whether it is pending, and what is sent to it are those
      of its own messages alone. */
  lemma {:induction false} AgentsDoNotInterfere(r: Rib, tms: seq<Tagged>, tag: nat)
    ensures SameFor(HandleAll(r, tms), HandleAll(r, MessagesFrom(tms, tag)), tag)
    ensures RepliesTo(AllReplies(r, tms), tag) == AllReplies(r, MessagesFrom(tms, tag))
  {
    if tms != [] {
      var init, last := tms[..|tms| - 1], tms[|tms| - 1];
      AgentsDoNotInterfere(r, init, tag);
      if last.tag == tag {
        OneMoreFrom(r, init, last, tag);
      } else {
        OneMoreFromOthers(r, init, last, tag);
      }
    }
  }

  lemma OneMoreFrom(r: Rib, init: seq<Tagged>, last: Tagged, tag: nat)
    requires SameFor(HandleAll(r, init), HandleAll(r, MessagesFrom(init, tag)), tag) && last.tag == tag
    requires RepliesTo(AllReplies(r, init), tag) == AllReplies(r, MessagesFrom(init, tag))
    ensures var own := MessagesFrom(init, tag);
      && SameFor(Handle(HandleAll(r, init), last), HandleAll(r, own + [last]), tag)
      && RepliesTo(AllReplies(r, init) + Replies(HandleAll(r, init), last), tag) == AllReplies(r, own + [last])
  {
    var own, before := MessagesFrom(init, tag), HandleAll(r, init);
    assert (own + [last])[..|own|] == own;
    HandleSame(before, HandleAll(r, own), last, tag);
    RepliesGoToSender(before, last);
    AllToOne(Replies(before, last), last.tag, tag);
    RepliesToConcat(AllReplies(r, init), Replies(before, last), tag);
  }

  lemma OneMoreFromOthers(r: Rib, init: seq<Tagged>, last: Tagged, tag: nat)
    requires SameFor(HandleAll(r, init), HandleAll(r, MessagesFrom(init, tag)), tag) && last.tag != tag
    requires RepliesTo(AllReplies(r, init), tag) == AllReplies(r, MessagesFrom(init, tag))
    ensures var own := MessagesFrom(init, tag);
      && own + [] == own
      && SameFor(Handle(HandleAll(r, init), last), HandleAll(r, own), tag)
      && RepliesTo(AllReplies(r, init) + Replies(HandleAll(r, init), last), tag) == AllReplies(r, own)
  {
    var before := HandleAll(r, init);
    HandleSame(before, HandleAll(r, MessagesFrom(init, tag)), last, tag);
    RepliesGoToSender(before, last);
    AllToOne(Replies(before, last), last.tag, tag);
    RepliesToConcat(AllReplies(r, init), Replies(before, last), tag);
  }

  function HellosTo(outs: seq<Outgoing>, tag: nat): nat {
    if outs == [] then 0
    else HellosTo(outs[..|outs| - 1], tag) + if outs[|outs| - 1] == Outgoing(tag, SendHello) then 1 else 0
  }

  function MarkersOf(tms: seq<Tagged>, tag: nat): nat {
    if tms == [] then 0
    else
      var last := tms[|tms| - 1];
      MarkersOf(tms[..|tms| - 1], tag) + if last.size == 0 && last.tag == tag then 1 else 0
  }

  lemma {:induction false} HellosToConcat(a: seq<Outgoing>, b: seq<Outgoing>, tag: nat)
    ensures HellosTo(a + b, tag) == HellosTo(a, tag) + HellosTo(b, tag)
  {
    if b == [] {
      assert a + b == a;
    } else {
      assert (a + b)[..|a + b| - 1] == a + b[..|b| - 1];
      HellosToConcat(a, b[..|b| - 1], tag);
    }
  }

  lemma {:induction false} NoHellos(outs: seq<Outgoing>, tag: nat)
    requires forall i :: 0 <= i < |outs| ==> outs[i] != Outgoing(tag, SendHello)
    ensures HellosTo(outs, tag) == 0
  {
    if outs != [] {
      NoHellos(outs[..|outs| - 1], tag);
    }
  }

  lemma HelloForMarker(r: Rib, tm: Tagged, tag: nat)
    ensures HellosTo(Replies(r, tm), tag) == if tm.size == 0 && tm.tag == tag then 1 else 0
  {
    if tm.size == 0 {
      assert Replies(r, tm)[..0] == [];
    } else {
      NoHellos(Replies(r, tm), tag);
    }
  }

  /** Over any messages, each connection id is greeted exactly as often as a connect marker came in for it. */
  lemma {:induction false} OneHelloPerMarker(r: Rib, tms: seq<Tagged>, tag: nat)
    ensures HellosTo(AllReplies(r, tms), tag) == MarkersOf(tms, tag)
  {
    if tms != [] {
      var init, last := tms[..|tms| - 1], tms[|tms| - 1];
      OneHelloPerMarker(r, init, tag);
      HelloForMarker(HandleAll(r, init), last, tag);
      HellosToConcat(AllReplies(r, init), Replies(HandleAll(r, init), last), tag);
    }
  }

  // ---------- what an agent's entry keeps ----------

  ghost predicate DistinctRntis(ues: seq<UeConfig>) {
    forall i, j :: 0 <= i < j < |ues| ==> ues[i].rnti != ues[j].rnti
  }

  /** The scheduler dereferences the MAC entry of every configured UE. */
  ghost predicate AllHaveMac(a: Agent) {
    forall i :: 0 <= i < |a.ues| ==> a.ues[i].rnti in a.mac
  }

  /** A full UE configuration makes an entry for every new RNTI and leaves the existing ones alone. */
  lemma {:induction false} InsertMacsKeys(mac: map<nat, Mac>, ues: seq<UeConfig>, n: nat)
    requires n <= |ues|
    ensures forall r :: r in InsertMacs(mac, ues, n) <==> r in mac || exists i :: 0 <= i < n && ues[i].rnti == r
    ensures forall r :: r in InsertMacs(mac, ues, n) ==>
              InsertMacs(mac, ues, n)[r] == if r in mac then mac[r] else NewMac()
  {
    if n > 0 {
      InsertMacsKeys(mac, ues, n - 1);
    }
  }

  lemma {:induction false} FedMacsKeys(mac: map<nat, Mac>, infos: seq<DlInfo>, n: nat)
    requires n <= |infos|
    ensures FedMacs(mac, infos, n).Keys == mac.Keys
  {
    if n > 0 {
      FedMacsKeys(mac, infos, n - 1);
    }
  }

  /** Position of the last status among the first n that a subframe trigger carries for a UE's process, or -1. */
  function LastStatus(infos: seq<DlInfo>, n: nat, rnti: nat, pid: nat): (k: int)
    requires n <= |infos|
    ensures -1 <= k < n
    ensures k >= 0 ==> infos[k].rnti == rnti && infos[k].pid == pid && infos[k].statuses != []
    ensures forall j :: 0 <= j && k < j < n ==> infos[j].rnti != rnti || infos[j].pid != pid || infos[j].statuses == []
  {
    if n == 0 then -1
    else if infos[n - 1].rnti == rnti && infos[n - 1].pid == pid && infos[n - 1].statuses != [] then n - 1
    else LastStatus(infos, n - 1, rnti, pid)
  }

  /** Each process of each known UE ends with the last status reported for it, free again, and is left alone if there
      is none; the queues are left alone. */
  lemma {:induction false} LastStatusWins(mac: map<nat, Mac>, infos: seq<DlInfo>, n: nat, rnti: nat, pid: nat)
    requires n <= |infos| && rnti in mac && pid < MAX_NUM_HARQ
    ensures FedMacs(mac, infos, n).Keys == mac.Keys
    ensures FedMacs(mac, infos, n)[rnti].queues == mac[rnti].queues
    ensures var k := LastStatus(infos, n, rnti, pid);
      FedMacs(mac, infos, n)[rnti].fb[pid]
        == if k == -1 then mac[rnti].fb[pid] else HarqFeedback(true, W8(infos[k].statuses[0]))
  {
    if n > 0 {
      LastStatusWins(mac, infos, n - 1, rnti, pid);
    }
  }

  /** Position of the last of the first n reports that carries a UE's queues, or -1. */
  function LastReport(rs: seq<UeReport>, n: nat, rnti: nat): (k: int)
    requires n <= |rs|
    ensures -1 <= k < n
    ensures k >= 0 ==> rs[k].rnti == rnti && rs[k].hasQueues
    ensures forall j :: 0 <= j && k < j < n ==> rs[j].rnti != rnti || !rs[j].hasQueues
  {
    if n == 0 then -1
    else if rs[n - 1].rnti == rnti && rs[n - 1].hasQueues then n - 1
    else LastReport(rs, n - 1, rnti)
  }

  /** Each known UE ends with the queues of the last report that carries any, and keeps its own if there is none; HARQ
      feedback is left alone. */
  lemma {:induction false} LastReportWins(mac: map<nat, Mac>, rs: seq<UeReport>, n: nat, rnti: nat)
    requires n <= |rs| && rnti in mac
    ensures rnti in ReportedMacs(mac, rs, n)
    ensures var k := LastReport(rs, n, rnti);
      ReportedMacs(mac, rs, n)[rnti] == if k == -1 then mac[rnti] else mac[rnti].(queues := rs[k].queues)
  {
    if n > 0 {
      LastReportWins(mac, rs, n - 1, rnti);
    }
  }

  lemma {:induction false} ReportedMacsKeys(mac: map<nat, Mac>, rs: seq<UeReport>, n: nat)
    requires n <= |rs|
    ensures ReportedMacs(mac, rs, n).Keys == mac.Keys
  {
    if n > 0 {
      ReportedMacsKeys(mac, rs, n - 1);
    }
  }

  /** A deactivation takes the RNTI out of the UE and MAC tables and leaves every other UE with its MAC entry;
      a second configuration with the same RNTI would be left without one, and only that. */
  lemma DeactivationKeepsMacIff(a: Agent, c: UeConfig)
    requires AllHaveMac(a) && FindUe(a.ues, c.rnti, 0) < |a.ues|
    ensures var b := Changed(a, Deactivated, c);
      && c.rnti !in b.mac
      && (AllHaveMac(b) <==> forall i :: 0 <= i < |b.ues| ==> b.ues[i].rnti != c.rnti)
      && (DistinctRntis(a.ues) ==> DistinctRntis(b.ues) && AllHaveMac(b))
  {
    var k := FindUe(a.ues, c.rnti, 0);
    var b := Changed(a, Deactivated, c);
    forall i | 0 <= i < |b.ues|
      ensures b.ues[i] == a.ues[if i < k then i else i + 1]
    {
    }
  }

  ghost predicate Without(lcs: seq<LcConfig>, rnti: nat) {
    forall i :: 0 <= i < |lcs| ==> lcs[i].rnti != rnti
  }

  ghost predicate NoneAdjacent(lcs: seq<LcConfig>, rnti: nat) {
    forall i :: 0 <= i < |lcs| - 1 ==> lcs[i].rnti != rnti || lcs[i + 1].rnti != rnti
  }

  lemma WithoutStep(x: LcConfig, rest: seq<LcConfig>, rnti: nat)
    ensures Without([x] + rest, rnti) <==> x.rnti != rnti && Without(rest, rnti)
  {
    var s := [x] + rest;
    if Without(s, rnti) {
      assert s[0] == x;
      forall i | 0 <= i < |rest|
        ensures rest[i].rnti != rnti
      {
        assert s[i + 1] == rest[i];
      }
    }
  }

  lemma NoneAdjacentStep(lcs: seq<LcConfig>, rnti: nat)
    requires lcs != []
    ensures NoneAdjacent(lcs, rnti)
       <==> (|lcs| == 1 || lcs[0].rnti != rnti || lcs[1].rnti != rnti) && NoneAdjacent(lcs[1..], rnti)
  {
    if NoneAdjacent(lcs, rnti) {
      forall i | 0 <= i < |lcs[1..]| - 1
        ensures lcs[1..][i].rnti != rnti || lcs[1..][i + 1].rnti != rnti
      {
        assert lcs[i + 1].rnti != rnti || lcs[i + 1 + 1].rnti != rnti;
      }
    } else {
      var i :| 0 <= i < |lcs| - 1 && lcs[i].rnti == rnti && lcs[i + 1].rnti == rnti;
      if i > 0 {
        assert lcs[1..][i - 1] == lcs[i] && lcs[1..][i] == lcs[i + 1];
      }
    }
  }

  /** No entry of the RNTI survives the sweep exactly when no two of its entries stood next to each other. */
  lemma {:induction false} SweepRemovesAllIff(lcs: seq<LcConfig>, rnti: nat)
    ensures Without(SweepLcs(lcs, rnti), rnti) <==> NoneAdjacent(lcs, rnti)
  {
    if lcs != [] {
      NoneAdjacentStep(lcs, rnti);
      if lcs[0].rnti != rnti {
        SweepRemovesAllIff(lcs[1..], rnti);
        WithoutStep(lcs[0], SweepLcs(lcs[1..], rnti), rnti);
      } else if |lcs| > 1 {
        SweepRemovesAllIff(lcs[2..], rnti);
        WithoutStep(lcs[1], SweepLcs(lcs[2..], rnti), rnti);
        NoneAdjacentStep(lcs[1..], rnti);
        assert lcs[1..][1..] == lcs[2..];
      }
    }
  }

  // ---------- safety over message sequences ----------

  ghost predicate AgentInv(a: Agent) {
    DistinctRntis(a.ues) && AllHaveMac(a)
  }

  ghost predicate Inv(r: Rib) {
    && r.pending !! r.agents.Keys
    && forall t :: t in r.agents ==> AgentInv(r.agents[t])
  }

  /** Connect markers carry fresh ids, configuration replies name each RNTI once and activations name new ones. */
  ghost predicate Proper(r: Rib, tm: Tagged) {
    if tm.size == 0 then tm.tag !in r.agents
    else match tm.msg
      case UeConfigReply(ues) => DistinctRntis(ues)
      case UeStateChange(Activated, ue) =>
        tm.tag in r.agents ==> forall i :: 0 <= i < |r.agents[tm.tag].ues| ==> r.agents[tm.tag].ues[i].rnti != ue.rnti
      case _ => true
  }

  lemma AgentKeepsInv(a: Agent, m: Message)
    requires AgentInv(a)
    requires m.UeConfigReply? ==> DistinctRntis(m.ues)
    requires m.UeStateChange? && m.change.Activated? ==> forall i :: 0 <= i < |a.ues| ==> a.ues[i].rnti != m.ue.rnti
    ensures AgentInv(AgentAfter(a, m))
  {
    match m
    case StatsReply(reports) => ReportedMacsKeys(a.mac, reports, |reports|);
    case SfTrigger(slot, infos) => FedMacsKeys(a.mac, infos, |infos|);
    case UeConfigReply(ues) => InsertMacsKeys(a.mac, ues, |ues|);
    case UeStateChange(change, ue) =>
      if change.Deactivated? && FindUe(a.ues, ue.rnti, 0) < |a.ues| {
        DeactivationKeepsMacIff(a, ue);
      }
    case _ =>
  }

  lemma HandleKeepsInv(r: Rib, tm: Tagged)
    requires Inv(r) && Proper(r, tm)
    ensures Inv(Handle(r, tm)) && r.agents.Keys <= Handle(r, tm).agents.Keys
  {
    var r' := Handle(r, tm);
    if tm.size != 0 && !tm.msg.EnbConfigReply? && tm.tag in r.agents {
      AgentKeepsInv(r.agents[tm.tag], tm.msg);
    }
    forall t | t in r'.agents
      ensures AgentInv(r'.agents[t])
    {
      if t in r.agents {
        assert AgentInv(r.agents[t]);
      }
    }
  }

  ghost predicate ProperSequence(r: Rib, tms: seq<Tagged>) {
    forall n :: 0 <= n < |tms| ==> Proper(HandleAll(r, tms[..n]), tms[n])
  }

  /** Over every proper message sequence: no agent is both pending and registered, no agent is ever dropped, and
      in every agent's entry RNTIs stay distinct and each configured UE has its MAC entry. */
  lemma {:induction false} SequenceKeepsInv(r: Rib, tms: seq<Tagged>)
    requires Inv(r) && ProperSequence(r, tms)
    ensures Inv(HandleAll(r, tms)) && r.agents.Keys <= HandleAll(r, tms).agents.Keys
  {
    if tms != [] {
      var init := tms[..|tms| - 1];
      forall n | 0 <= n < |init|
        ensures Proper(HandleAll(r, init[..n]), init[n])
      {
        assert init[..n] == tms[..n];
      }
      SequenceKeepsInv(r, init);
      HandleKeepsInv(HandleAll(r, init), tms[|tms| - 1]);
    }
  }

  /** An agent is registered or pending only if its connect marker came in. */
  lemma {:induction false} KnownByTag(tms: seq<Tagged>, tag: nat)
    requires forall i :: 0 <= i < |tms| ==> tms[i].tag != tag
    ensures var r := HandleAll(Rib({}, map[]), tms); tag !in r.agents && tag !in r.pending
  {
    if tms != [] {
      KnownByTag(tms[..|tms| - 1], tag);
    }
  }

  /** Markers with fresh ids, which the network side provides (see SendPipeline.ConnectMarkersFresh), are proper. */
  lemma FreshMarkerIsProper(tms: seq<Tagged>, tm: Tagged)
    requires tm.size == 0 && forall i :: 0 <= i < |tms| ==> tms[i].tag != tm.tag
    ensures Proper(HandleAll(Rib({}, map[]), tms), tm)
  {
    KnownByTag(tms, tm.tag);
  }

  /** Each assumption is needed, step by step: from a good state a message keeps the invariant if and only if it is
      proper, apart from configuration replies and activations that reach no agent. */
  lemma ProperIsNeeded(r: Rib, tm: Tagged)
    requires Inv(r) && (tm.size == 0 || tm.tag in r.agents)
    ensures Inv(Handle(r, tm)) <==> Proper(r, tm)
  {
    if Proper(r, tm) {
      HandleKeepsInv(r, tm);
    } else if tm.size == 0 {
      assert tm.tag in Handle(r, tm).pending && tm.tag in Handle(r, tm).agents.Keys;
    } else {
      var a, b := r.agents[tm.tag], Handle(r, tm).agents[tm.tag];
      if tm.msg.UeConfigReply? {
        assert !DistinctRntis(b.ues);
      } else {
        var i :| 0 <= i < |a.ues| && a.ues[i].rnti == tm.msg.ue.rnti;
        assert b.ues[i].rnti == b.ues[|a.ues|].rnti;
        assert !DistinctRntis(b.ues);
      }
      assert !AgentInv(b);
    }
  }

  /** The framing layer lets a body of length zero through, and the RIB takes it for a new connection: one empty
      frame from a registered agent makes it pending again. */
  lemma EmptyFrameReconnects(r: Rib, tag: nat, m: Message)
    requires Inv(r) && tag in r.agents
    ensures Read(Frame([])).delivered == [[]]
    ensures var r' := Handle(r, Tagged(tag, |Read(Frame([])).delivered[0]|, m));
      tag in r'.pending && tag in r'.agents && !Inv(r')
  {
    assert Frame([]) + [] == Frame([]);
    ReadOneFrame([], []);
    var r' := Handle(r, Tagged(tag, 0, m));
    assert tag in r'.pending && tag in r'.agents.Keys;
  }

  // ---------- the update cycle ----------

  /** One run of update_rib: what it handles, what it takes out without handling, what it leaves, and what came in from
      the network thread meanwhile. */
  datatype Cycle = Cycle(handled: seq<Tagged>, lost: seq<Tagged>, queue: seq<Tagged>, arrived: seq<Tagged>)

  function Budget(messagesToCheck: int): nat {
    if messagesToCheck < 0 then 0 else messagesToCheck
  }

  /** What arrives before the next dequeue, and what before those after it; a list that has run out says nothing. */
  function Next(arrivals: seq<seq<Tagged>>): seq<Tagged> {
    if arrivals == [] then [] else arrivals[0]
  }

  function Later(arrivals: seq<seq<Tagged>>): seq<seq<Tagged>> {
    if arrivals == [] then [] else arrivals[1..]
  }

  /** The dequeue comes before the budget test.  Messages may arrive before any dequeue. */
  function RunCycle(queue: seq<Tagged>, remaining: nat, arrivals: seq<seq<Tagged>>): Cycle
    decreases remaining
  {
    var coming := Next(arrivals);
    var q := queue + coming;
    if q == [] then Cycle([], [], [], coming)
    else if remaining == 0 then Cycle([], [q[0]], q[1..], coming)
    else
      var c := RunCycle(q[1..], remaining - 1, Later(arrivals));
      Cycle([q[0]] + c.handled, c.lost, c.queue, coming + c.arrived)
  }

  /** A cycle that goes on with c after some messages have been handled and some have arrived. */
  function Resumed(handled: seq<Tagged>, arrived: seq<Tagged>, c: Cycle): Cycle {
    Cycle(handled + c.handled, c.lost, c.queue, arrived + c.arrived)
  }

  /** In mid-cycle: tm has been taken out of the queue if ok, and the queue was empty otherwise. */
  ghost predicate InCycle(whole: Cycle, handled: seq<Tagged>, arrived: seq<Tagged>, ok: bool, tm: Tagged,
                          queue: seq<Tagged>, remaining: int, arrivals: seq<seq<Tagged>>)
  {
    if !ok then queue == [] && whole == Cycle(handled, [], [], arrived)
    else if remaining <= 0 then whole == Cycle(handled, [tm], queue, arrived)
    else whole == Resumed(handled + [tm], arrived, RunCycle(queue, Budget(remaining - 1), arrivals))
  }

  lemma CycleBegins(queue: seq<Tagged>, remaining: int, arrivals: seq<seq<Tagged>>)
    ensures var whole, q := RunCycle(queue, Budget(remaining), arrivals), queue + Next(arrivals);
      if q == [] then forall tm :: InCycle(whole, [], Next(arrivals), false, tm, [], remaining, Later(arrivals))
      else InCycle(whole, [], Next(arrivals), true, q[0], q[1..], remaining, Later(arrivals))
  {
  }

  lemma HandledOneMore(whole: Cycle, handled: seq<Tagged>, arrived: seq<Tagged>, tm: Tagged, queue: seq<Tagged>,
                       remaining: int, arrivals: seq<seq<Tagged>>)
    requires remaining > 0 && InCycle(whole, handled, arrived, true, tm, queue, remaining, arrivals)
    ensures var q, so, far := queue + Next(arrivals), handled + [tm], arrived + Next(arrivals);
      if q == [] then InCycle(whole, so, far, false, tm, [], remaining - 1, Later(arrivals))
      else InCycle(whole, so, far, true, q[0], q[1..], remaining - 1, Later(arrivals))
  {
    var q := queue + Next(arrivals);
    if q != [] && remaining > 1 {
      var rest := RunCycle(q[1..], Budget(remaining - 2), Later(arrivals));
      assert handled + [tm] + ([q[0]] + rest.handled) == handled + [tm] + [q[0]] + rest.handled;
      assert arrived + (Next(arrivals) + rest.arrived) == arrived + Next(arrivals) + rest.arrived;
    }
  }

  /** What arrives before the first n dequeues. */
  function ArrivedBy(arrivals: seq<seq<Tagged>>, n: nat): seq<Tagged> {
    if n == 0 then [] else Next(arrivals) + ArrivedBy(Later(arrivals), n - 1)
  }

  /** All of the b + 1 dequeues that the budget allows find something: before the n-th, n messages have come in. */
  ghost predicate Saturated(queue: seq<Tagged>, b: nat, arrivals: seq<seq<Tagged>>) {
    forall n :: 1 <= n <= b + 1 ==> |queue| + |ArrivedBy(arrivals, n)| >= n
  }

  lemma SaturatedLater(queue: seq<Tagged>, b: nat, arrivals: seq<seq<Tagged>>)
    requires b > 0 && queue + Next(arrivals) != []
    ensures Saturated(queue, b, arrivals)
       <==> Saturated((queue + Next(arrivals))[1..], b - 1, Later(arrivals))
  {
    var rest := (queue + Next(arrivals))[1..];
    forall n | 1 <= n <= b
      ensures |queue| + |ArrivedBy(arrivals, n + 1)| == |rest| + |ArrivedBy(Later(arrivals), n)| + 1
    {
    }
    if Saturated(queue, b, arrivals) {
      forall n | 1 <= n <= b
        ensures |rest| + |ArrivedBy(Later(arrivals), n)| >= n
      {
        assert |queue| + |ArrivedBy(arrivals, n + 1)| >= n + 1;
      }
    }
    if Saturated(rest, b - 1, Later(arrivals)) {
      forall n | 1 <= n <= b + 1
        ensures |queue| + |ArrivedBy(arrivals, n)| >= n
      {
        if n == 1 {
          assert ArrivedBy(arrivals, 1) == Next(arrivals);
        } else {
          assert |rest| + |ArrivedBy(Later(arrivals), n - 1)| >= n - 1;
        }
      }
    }
  }

  /** Messages leave the queue in the order in which they came in, whenever they came in; the cycle handles at most b of
      them, empties the queue unless it is saturated, and if it is, handles exactly b and loses exactly the next. */
  lemma {:induction false} CycleLosesOneIffSaturated(queue: seq<Tagged>, b: nat, arrivals: seq<seq<Tagged>>)
    ensures var c := RunCycle(queue, b, arrivals);
      && c.handled + c.lost + c.queue == queue + c.arrived
      && c.arrived == ArrivedBy(arrivals, |c.handled| + 1)
      && |c.handled| <= b
      && if Saturated(queue, b, arrivals) then |c.handled| == b && |c.lost| == 1 else c.lost == [] && c.queue == []
    decreases b
  {
    var coming := Next(arrivals);
    var q := queue + coming;
    assert ArrivedBy(arrivals, 1) == coming;
    if q == [] {
      assert |queue| + |ArrivedBy(arrivals, 1)| == 0;
    } else if b > 0 {
      var c := RunCycle(q[1..], b - 1, Later(arrivals));
      CycleLosesOneIffSaturated(q[1..], b - 1, Later(arrivals));
      SaturatedLater(queue, b, arrivals);
      OneInFront(q[0], c.handled, c.lost, c.queue, queue, coming, c.arrived);
    } else {
      assert [q[0]] + q[1..] == q;
    }
  }

  lemma OneInFront(tm: Tagged, handled: seq<Tagged>, lost: seq<Tagged>, left: seq<Tagged>, queue: seq<Tagged>,
                   coming: seq<Tagged>, arrived: seq<Tagged>)
    requires queue + coming != [] && tm == (queue + coming)[0]
    requires handled + lost + left == (queue + coming)[1..] + arrived
    ensures [tm] + handled + lost + left == queue + (coming + arrived)
  {
    assert [tm] + handled + lost + left == [tm] + (handled + lost + left);
    assert queue + (coming + arrived) == [tm] + ((queue + coming)[1..] + arrived);
  }

  /** With nothing arriving meanwhile, that is the first min(n, b) messages, one lost if there were more, and the
      rest. */
  lemma {:induction false} QuietCycle(queue: seq<Tagged>, b: nat)
    ensures RunCycle(queue, b, [])
         == if |queue| <= b then Cycle(queue, [], [], []) else Cycle(queue[..b], [queue[b]], queue[b + 1..], [])
  {
    assert queue + [] == queue;
    if queue != [] && b > 0 {
      QuietCycle(queue[1..], b - 1);
      assert queue == [queue[0]] + queue[1..];
      if |queue| > b {
        assert queue[..b] == [queue[0]] + queue[1..][..b - 1];
        assert queue[b + 1..] == queue[1..][b..];
      }
    }
  }

  /** The queue that cycle n starts with, when arrivals[i] tells what comes in before each dequeue of cycle i; what
      comes in between two cycles comes before the first dequeue of the second. */
  function QueueBefore(b: nat, arrivals: seq<seq<seq<Tagged>>>, n: nat): seq<Tagged>
    requires n <= |arrivals|
    decreases n, 0
  {
    if n == 0 then [] else CycleAt(b, arrivals, n - 1).queue
  }

  function CycleAt(b: nat, arrivals: seq<seq<seq<Tagged>>>, n: nat): Cycle
    requires n < |arrivals|
    decreases n, 1
  {
    RunCycle(QueueBefore(b, arrivals, n), b, arrivals[n])
  }

  function LostBelow(b: nat, arrivals: seq<seq<seq<Tagged>>>, n: nat): seq<Tagged>
    requires n <= |arrivals|
  {
    if n == 0 then [] else LostBelow(b, arrivals, n - 1) + CycleAt(b, arrivals, n - 1).lost
  }

  function HandledBelow(b: nat, arrivals: seq<seq<seq<Tagged>>>, n: nat): seq<Tagged>
    requires n <= |arrivals|
  {
    if n == 0 then [] else HandledBelow(b, arrivals, n - 1) + CycleAt(b, arrivals, n - 1).handled
  }

  /** Everything taken out of the queue below cycle n, in the order it was taken. */
  function TakenBelow(b: nat, arrivals: seq<seq<seq<Tagged>>>, n: nat): seq<Tagged>
    requires n <= |arrivals|
  {
    if n == 0 then []
    else
      var c := CycleAt(b, arrivals, n - 1);
      TakenBelow(b, arrivals, n - 1) + (c.handled + c.lost)
  }

  function ArrivedBelow(b: nat, arrivals: seq<seq<seq<Tagged>>>, n: nat): seq<Tagged>
    requires n <= |arrivals|
  {
    if n == 0 then [] else ArrivedBelow(b, arrivals, n - 1) + CycleAt(b, arrivals, n - 1).arrived
  }

  ghost function SaturatedBelow(b: nat, arrivals: seq<seq<seq<Tagged>>>, n: nat): nat
    requires n <= |arrivals|
  {
    if n == 0 then 0
    else SaturatedBelow(b, arrivals, n - 1)
           + if Saturated(QueueBefore(b, arrivals, n - 1), b, arrivals[n - 1]) then 1 else 0
  }

  lemma Regroup(taken: seq<Tagged>, before: seq<Tagged>, arrived: seq<Tagged>, c: Cycle)
    requires taken + before == arrived
    requires c.handled + c.lost + c.queue == before + c.arrived
    ensures taken + (c.handled + c.lost) + c.queue == arrived + c.arrived
  {
    assert taken + (c.handled + c.lost) + c.queue == taken + (c.handled + c.lost + c.queue);
    assert taken + (before + c.arrived) == taken + before + c.arrived;
  }

  /** Over any number of cycles, whenever messages arrive, the queue is first-in first-out and nothing is handled twice,
      but exactly one message is lost per saturated cycle: handled, lost and still queued messages together are the
      arrivals. */
  lemma {:induction false} OneLossPerSaturatedCycle(b: nat, arrivals: seq<seq<seq<Tagged>>>, n: nat)
    requires n <= |arrivals|
    ensures |LostBelow(b, arrivals, n)| == SaturatedBelow(b, arrivals, n)
    ensures |TakenBelow(b, arrivals, n)| == |HandledBelow(b, arrivals, n)| + |LostBelow(b, arrivals, n)|
    ensures TakenBelow(b, arrivals, n) + QueueBefore(b, arrivals, n) == ArrivedBelow(b, arrivals, n)
  {
    if n > 0 {
      var c := CycleAt(b, arrivals, n - 1);
      OneLossPerSaturatedCycle(b, arrivals, n - 1);
      CycleLosesOneIffSaturated(QueueBefore(b, arrivals, n - 1), b, arrivals[n - 1]);
      Regroup(TakenBelow(b, arrivals, n - 1), QueueBefore(b, arrivals, n - 1), ArrivedBelow(b, arrivals, n - 1), c);
    }
  }
}
