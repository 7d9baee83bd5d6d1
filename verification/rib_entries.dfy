/** What the RIB comes to hold: when an agent is registered, where each part of its entry comes from, what a change of
    one UE does to the others, and what is asked and answered. */
module RibEntries {
  import opened Words
  import opened Downlink
  import opened RibModel

  const EMPTY: Rib := Rib({}, map[])

  // ---------- registration ----------

  predicate Marker(tm: Tagged, tag: nat) {
    tm.tag == tag && tm.size == 0
  }

  predicate ConfigReply(tm: Tagged, tag: nat) {
    tm.tag == tag && tm.size > 0 && tm.msg.EnbConfigReply?
  }

  ghost predicate Marked(tms: seq<Tagged>, tag: nat) {
    exists i :: 0 <= i < |tms| && Marker(tms[i], tag)
  }

  /** Some connect marker has not been followed by a configuration reply yet. */
  ghost predicate Waiting(tms: seq<Tagged>, tag: nat) {
    exists i :: 0 <= i < |tms| && Marker(tms[i], tag) && forall j :: i < j < |tms| ==> !ConfigReply(tms[j], tag)
  }

  /** Some connect marker has been followed by a configuration reply. */
  ghost predicate Connected(tms: seq<Tagged>, tag: nat) {
    exists i, j :: 0 <= i < j < |tms| && Marker(tms[i], tag) && ConfigReply(tms[j], tag)
  }

  /** Message n is a configuration reply that finds its agent waiting. */
  ghost predicate Registers(tms: seq<Tagged>, n: nat, tag: nat)
    requires n < |tms|
  {
    ConfigReply(tms[n], tag) && Waiting(tms[..n], tag)
  }

  lemma WaitingStep(init: seq<Tagged>, last: Tagged, tag: nat)
    ensures Waiting(init + [last], tag) <==> Marker(last, tag) || (Waiting(init, tag) && !ConfigReply(last, tag))
  {
    var tms := init + [last];
    if Marker(last, tag) {
      assert Marker(tms[|init|], tag);
    } else if Waiting(init, tag) && !ConfigReply(last, tag) {
      var i :| 0 <= i < |init| && Marker(init[i], tag) && forall j :: i < j < |init| ==> !ConfigReply(init[j], tag);
      assert Marker(tms[i], tag);
    }
    if Waiting(tms, tag) && !Marker(last, tag) {
      var i :| 0 <= i < |tms| && Marker(tms[i], tag) && forall j :: i < j < |tms| ==> !ConfigReply(tms[j], tag);
      assert Marker(init[i], tag) && !ConfigReply(tms[|init|], tag);
      forall j | i < j < |init|
        ensures !ConfigReply(init[j], tag)
      {
        assert !ConfigReply(tms[j], tag);
      }
    }
  }

  lemma ConnectedStep(init: seq<Tagged>, last: Tagged, tag: nat)
    ensures Connected(init + [last], tag) <==> Connected(init, tag) || (ConfigReply(last, tag) && Marked(init, tag))
  {
    var tms := init + [last];
    if Connected(init, tag) {
      var i, j :| 0 <= i < j < |init| && Marker(init[i], tag) && ConfigReply(init[j], tag);
      assert Marker(tms[i], tag) && ConfigReply(tms[j], tag);
    } else if ConfigReply(last, tag) && Marked(init, tag) {
      var i :| 0 <= i < |init| && Marker(init[i], tag);
      assert Marker(tms[i], tag) && ConfigReply(tms[|init|], tag);
    }
    if Connected(tms, tag) {
      var i, j :| 0 <= i < j < |tms| && Marker(tms[i], tag) && ConfigReply(tms[j], tag);
      assert Marker(init[i], tag);
      if j < |init| {
        assert ConfigReply(init[j], tag);
      }
    }
  }

  lemma {:induction false} MarkedIsWaitingOrConnected(tms: seq<Tagged>, tag: nat)
    ensures Marked(tms, tag) <==> Waiting(tms, tag) || Connected(tms, tag)
  {
    if tms != [] {
      var init, last := tms[..|tms| - 1], tms[|tms| - 1];
      assert tms == init + [last];
      MarkedIsWaitingOrConnected(init, tag);
      WaitingStep(init, last, tag);
      ConnectedStep(init, last, tag);
      if Marked(init, tag) {
        var i :| 0 <= i < |init| && Marker(init[i], tag);
        assert Marker(tms[i], tag);
      }
    }
  }

  /** Over every message sequence from the start: an agent is pending if and only if some connect marker for it has not
      been followed by a configuration reply, and has an entry if and only if some has. */
  lemma {:induction false} RegisteredIff(tms: seq<Tagged>, tag: nat)
    ensures tag in HandleAll(EMPTY, tms).pending <==> Waiting(tms, tag)
    ensures tag in HandleAll(EMPTY, tms).agents <==> Connected(tms, tag)
  {
    if tms != [] {
      var init, last := tms[..|tms| - 1], tms[|tms| - 1];
      assert tms == init + [last];
      RegisteredIff(init, tag);
      RegisteredStep(HandleAll(EMPTY, init), last, tag);
      WaitingStep(init, last, tag);
      ConnectedStep(init, last, tag);
      MarkedIsWaitingOrConnected(init, tag);
    }
  }

  lemma RegisteredStep(r: Rib, tm: Tagged, tag: nat)
    ensures tag in Handle(r, tm).pending <==> Marker(tm, tag) || (tag in r.pending && !ConfigReply(tm, tag))
    ensures tag in Handle(r, tm).agents <==> tag in r.agents || (ConfigReply(tm, tag) && tag in r.pending)
  {
  }

  ghost predicate LastRegistration(tms: seq<Tagged>, n: nat, tag: nat) {
    n < |tms| && Registers(tms, n, tag) && forall l :: n < l < |tms| ==> !Registers(tms, l, tag)
  }

  lemma LastRegistrationStep(init: seq<Tagged>, last: Tagged, tag: nat, n: nat)
    requires LastRegistration(init, n, tag) && !(ConfigReply(last, tag) && Waiting(init, tag))
    ensures LastRegistration(init + [last], n, tag)
  {
    var tms := init + [last];
    assert tms[..n] == init[..n] && tms[..|init|] == init;
    forall l | n < l < |tms|
      ensures !Registers(tms, l, tag)
    {
      if l < |init| {
        assert tms[..l] == init[..l] && !Registers(init, l, tag);
      }
    }
  }

  /** The configuration of a registered agent is that of the last reply that found it pending. */
  lemma {:induction false} ConfigurationIsOfLastRegistration(tms: seq<Tagged>, tag: nat) returns (n: nat)
    requires tag in HandleAll(EMPTY, tms).agents
    ensures LastRegistration(tms, n, tag) && tms[n].msg.EnbConfigReply?
    ensures HandleAll(EMPTY, tms).agents[tag].enb == tms[n].msg.enb
  {
    var init, last := tms[..|tms| - 1], tms[|tms| - 1];
    assert tms == init + [last];
    RegisteredIff(init, tag);
    if ConfigReply(last, tag) && Waiting(init, tag) {
      n := |init|;
    } else {
      n := ConfigurationIsOfLastRegistration(init, tag);
      LastRegistrationStep(init, last, tag, n);
    }
  }

  // ---------- where the parts of an entry come from ----------

  /** A message that reaches the agent's entry. */
  predicate Reaches(tm: Tagged, tag: nat) {
    tm.tag == tag && tm.size > 0
  }

  predicate SetsSlot(m: Message) {
    m.SfTrigger?
  }

  predicate SetsUes(m: Message) {
    m.UeConfigReply? || (m.UeStateChange? && !m.change.Moved?)
  }

  predicate SetsLcs(m: Message) {
    m.LcConfigReply? || (m.UeStateChange? && m.change.Deactivated?)
  }

  /** One message: each part of an entry is what the message says, or what it was. */
  lemma PartsStep(r: Rib, tm: Tagged, tag: nat)
    requires tag in r.agents
    ensures tag in Handle(r, tm).agents
    ensures var a, b := r.agents[tag], Handle(r, tm).agents[tag];
      && b.current == (if Reaches(tm, tag) && SetsSlot(tm.msg) then tm.msg.slot else a.current)
      && (Reaches(tm, tag) && tm.msg.UeConfigReply? ==> b.ues == tm.msg.ues)
      && (!(Reaches(tm, tag) && SetsUes(tm.msg)) ==> b.ues == a.ues)
      && (Reaches(tm, tag) && tm.msg.LcConfigReply? ==> b.lcs == tm.msg.lcs)
      && (!(Reaches(tm, tag) && SetsLcs(tm.msg)) ==> b.lcs == a.lcs)
  {
  }

  /** Over any messages after the one at position n that found the agent registered, reconnections included: its slot is
      that of the last trigger, and its lists are those of the last reply unless a UE has changed since. */
  lemma {:induction false} StoredUntilChanged(r: Rib, tms: seq<Tagged>, tag: nat, n: nat)
    requires n < |tms| && Reaches(tms[n], tag) && tag in HandleAll(r, tms[..n]).agents
    ensures tag in HandleAll(r, tms).agents
    ensures var a, m := HandleAll(r, tms).agents[tag], tms[n].msg;
      && (m.SfTrigger? && (forall l :: n < l < |tms| ==> !(Reaches(tms[l], tag) && SetsSlot(tms[l].msg))) ==>
            a.current == m.slot)
      && (m.UeConfigReply? && (forall l :: n < l < |tms| ==> !(Reaches(tms[l], tag) && SetsUes(tms[l].msg))) ==>
            a.ues == m.ues)
      && (m.LcConfigReply? && (forall l :: n < l < |tms| ==> !(Reaches(tms[l], tag) && SetsLcs(tms[l].msg))) ==>
            a.lcs == m.lcs)
  {
    var init, last := tms[..|tms| - 1], tms[|tms| - 1];
    if n < |init| {
      assert init[..n] == tms[..n];
      StoredUntilChanged(r, init, tag, n);
    } else {
      assert init == tms[..n];
    }
    PartsStep(HandleAll(r, init), last, tag);
  }

  /** One message and one UE's MAC entry: a trigger leaves it with the last status of each process, a statistics reply
      with the last queues, a deactivation takes it away, and nothing else touches it. */
  lemma MacStep(r: Rib, tm: Tagged, tag: nat, rnti: nat)
    requires tag in r.agents && rnti in r.agents[tag].mac
    ensures tag in Handle(r, tm).agents
    ensures var before, b := r.agents[tag].mac[rnti], Handle(r, tm).agents[tag];
      if Reaches(tm, tag) && tm.msg.SfTrigger? then
        rnti in b.mac && b.mac[rnti].queues == before.queues && FedLast(before, b.mac[rnti], tm.msg.infos, rnti)
      else if Reaches(tm, tag) && tm.msg.StatsReply? then
        rnti in b.mac && b.mac[rnti].fb == before.fb && ReportedLast(before, b.mac[rnti], tm.msg.reports, rnti)
      else if Reaches(tm, tag) && tm.msg.UeStateChange? && tm.msg.change.Deactivated? && tm.msg.ue.rnti == rnti
              && ConfigOf(r.agents[tag].ues, rnti).Present? then
        rnti !in b.mac
      else rnti in b.mac && b.mac[rnti] == before
  {
    var a := r.agents[tag];
    if Reaches(tm, tag) {
      match tm.msg
      case SfTrigger(slot, infos) => FedLastHolds(a.mac, infos, rnti);
      case StatsReply(reports) => LastReportWins(a.mac, reports, |reports|, rnti);
      case UeConfigReply(ues) => InsertMacsKeys(a.mac, ues, |ues|);
      case UeStateChange(change, ue) =>
        ConfigOfMeans(a.ues, ue.rnti);
      case _ =>
    }
  }

  ghost predicate FedLast(before: Mac, after: Mac, infos: seq<DlInfo>, rnti: nat) {
    forall pid :: 0 <= pid < MAX_NUM_HARQ ==>
      var k := LastStatus(infos, |infos|, rnti, pid);
      after.fb[pid] == if k == -1 then before.fb[pid] else HarqFeedback(true, W8(infos[k].statuses[0]))
  }

  ghost predicate ReportedLast(before: Mac, after: Mac, reports: seq<UeReport>, rnti: nat) {
    var k := LastReport(reports, |reports|, rnti);
    after.queues == if k == -1 then before.queues else reports[k].queues
  }

  lemma FedLastHolds(mac: map<nat, Mac>, infos: seq<DlInfo>, rnti: nat)
    requires rnti in mac
    ensures var after := FedMacs(mac, infos, |infos|);
      rnti in after && after[rnti].queues == mac[rnti].queues && FedLast(mac[rnti], after[rnti], infos, rnti)
  {
    forall pid | 0 <= pid < MAX_NUM_HARQ
      ensures FedMacs(mac, infos, |infos|).Keys == mac.Keys
      ensures FedMacs(mac, infos, |infos|)[rnti].queues == mac[rnti].queues
      ensures var k := LastStatus(infos, |infos|, rnti, pid);
        FedMacs(mac, infos, |infos|)[rnti].fb[pid]
          == if k == -1 then mac[rnti].fb[pid] else HarqFeedback(true, W8(infos[k].statuses[0]))
    {
      LastStatusWins(mac, infos, |infos|, rnti, pid);
    }
    LastStatusWins(mac, infos, |infos|, rnti, 0);
  }

  // ---------- a change of one UE ----------

  datatype Lookup = Absent | Present(c: UeConfig)

  /** The configuration of the UE with this RNTI. */
  function ConfigOf(ues: seq<UeConfig>, rnti: nat): Lookup {
    if ues == [] then Absent else if ues[0].rnti == rnti then Present(ues[0]) else ConfigOf(ues[1..], rnti)
  }

  lemma {:induction false} ConfigOfMeans(ues: seq<UeConfig>, rnti: nat)
    ensures match ConfigOf(ues, rnti)
      case Absent => forall i :: 0 <= i < |ues| ==> ues[i].rnti != rnti
      case Present(c) => c in ues && c.rnti == rnti
    ensures DistinctRntis(ues) ==>
              forall i :: 0 <= i < |ues| && ues[i].rnti == rnti ==> ConfigOf(ues, rnti) == Present(ues[i])
  {
    if ues != [] {
      ConfigOfMeans(ues[1..], rnti);
      if DistinctRntis(ues) {
        assert DistinctRntis(ues[1..]);
        forall i | 0 <= i < |ues| && ues[i].rnti == rnti
          ensures ConfigOf(ues, rnti) == Present(ues[i])
        {
          if i > 0 {
            assert ues[1..][i - 1] == ues[i];
          }
        }
      }
    }
  }

  /** Two lists of distinct configurations that hold the same one for this RNTI, or none. */
  lemma SameConfig(a: seq<UeConfig>, b: seq<UeConfig>, rnti: nat)
    requires DistinctRntis(a) && DistinctRntis(b)
    requires forall c: UeConfig :: c.rnti == rnti ==> (c in a <==> c in b)
    ensures ConfigOf(a, rnti) == ConfigOf(b, rnti)
  {
    ConfigOfMeans(a, rnti);
    ConfigOfMeans(b, rnti);
    if ConfigOf(a, rnti).Present? {
      var c := ConfigOf(a, rnti).c;
      assert c in b;
      var i :| 0 <= i < |b| && b[i] == c;
    }
  }

  /** What a change should make of the configuration with this RNTI. */
  function Expected(ues: seq<UeConfig>, change: Change, c: UeConfig, rnti: nat): Lookup {
    var before := ConfigOf(ues, rnti);
    if rnti != c.rnti then before
    else match change
      case Activated => Present(c)
      case Deactivated => Absent
      case Updated => if before.Present? then Present(c) else Absent
      case Moved => before
  }

  /** Looked up by RNTI, an activation adds its configuration, a deactivation removes it, an update replaces it if it is
      there, and no other UE's configuration changes. */
  lemma ChangeByLookup(a: Agent, change: Change, c: UeConfig, rnti: nat)
    requires DistinctRntis(a.ues) && (change.Activated? ==> ConfigOf(a.ues, c.rnti).Absent?)
    ensures ConfigOf(Changed(a, change, c).ues, rnti) == Expected(a.ues, change, c, rnti)
  {
    ConfigOfMeans(a.ues, c.rnti);
    match change
    case Activated => AddedByLookup(a.ues, c, rnti);
    case Deactivated => RemovedByLookup(a, c, rnti);
    case Updated => ReplacedByLookup(a.ues, c, rnti);
    case Moved =>
  }

  lemma AddedByLookup(ues: seq<UeConfig>, c: UeConfig, rnti: nat)
    requires DistinctRntis(ues) && forall i :: 0 <= i < |ues| ==> ues[i].rnti != c.rnti
    ensures ConfigOf(ues + [c], rnti) == if rnti == c.rnti then Present(c) else ConfigOf(ues, rnti)
  {
    var after := ues + [c];
    ConfigOfMeans(after, rnti);
    if rnti == c.rnti {
      assert after[|ues|] == c;
    } else {
      SameConfig(after, ues, rnti);
    }
  }

  lemma RemovedByLookup(a: Agent, c: UeConfig, rnti: nat)
    requires DistinctRntis(a.ues)
    ensures ConfigOf(Changed(a, Deactivated, c).ues, rnti) == if rnti == c.rnti then Absent else ConfigOf(a.ues, rnti)
  {
    var k := FindUe(a.ues, c.rnti, 0);
    if k < |a.ues| {
      OneRemoved(a.ues, k, rnti);
    } else {
      ConfigOfMeans(a.ues, rnti);
    }
  }

  lemma OneRemoved(ues: seq<UeConfig>, k: nat, rnti: nat)
    requires DistinctRntis(ues) && k < |ues|
    ensures ConfigOf(ues[..k] + ues[k + 1..], rnti) == if rnti == ues[k].rnti then Absent else ConfigOf(ues, rnti)
  {
    var after := ues[..k] + ues[k + 1..];
    forall i | 0 <= i < |after|
      ensures after[i] == ues[if i < k then i else i + 1]
    {
    }
    assert DistinctRntis(after);
    ConfigOfMeans(after, rnti);
    if rnti != ues[k].rnti {
      OthersRemain(ues, k, rnti);
      SameConfig(after, ues, rnti);
    }
  }

  lemma OthersRemain(ues: seq<UeConfig>, k: nat, rnti: nat)
    requires k < |ues| && rnti != ues[k].rnti
    ensures forall x: UeConfig :: x.rnti == rnti ==> (x in ues[..k] + ues[k + 1..] <==> x in ues)
  {
    assert ues == ues[..k] + [ues[k]] + ues[k + 1..];
  }

  lemma ReplacedByLookup(ues: seq<UeConfig>, c: UeConfig, rnti: nat)
    requires DistinctRntis(ues)
    ensures var before := ConfigOf(ues, rnti);
      ConfigOf(Overwritten(ues, c), rnti) == if rnti == c.rnti && before.Present? then Present(c) else before
  {
    var after := Overwritten(ues, c);
    assert DistinctRntis(after);
    ConfigOfMeans(ues, rnti);
    ConfigOfMeans(after, rnti);
    if rnti != c.rnti {
      forall x: UeConfig | x.rnti == rnti
        ensures x in after <==> x in ues
      {
        if x in ues {
          var i :| 0 <= i < |ues| && ues[i] == x;
          assert after[i] == x;
        }
      }
      SameConfig(after, ues, rnti);
    } else if ConfigOf(ues, rnti).Present? {
      var i :| 0 <= i < |ues| && ues[i].rnti == rnti;
      assert after[i] == c;
    }
  }

  /** The LC entries of all other UEs, in order. */
  function OthersOf(lcs: seq<LcConfig>, rnti: nat): seq<LcConfig> {
    if lcs == [] then []
    else (if lcs[0].rnti != rnti then [lcs[0]] else []) + OthersOf(lcs[1..], rnti)
  }

  /** A deactivation leaves every other UE's LC entries in place. */
  lemma {:induction false} SweepKeepsOthers(lcs: seq<LcConfig>, rnti: nat)
    ensures OthersOf(SweepLcs(lcs, rnti), rnti) == OthersOf(lcs, rnti)
  {
    if lcs != [] {
      if lcs[0].rnti != rnti {
        SweepKeepsOthers(lcs[1..], rnti);
      } else if |lcs| > 1 {
        SweepKeepsOthers(lcs[2..], rnti);
        assert lcs[1..][1..] == lcs[2..];
      }
    }
  }

  /** A new MAC entry has every process free for new data and shows no queues; one that exists is kept. */
  lemma NewEntriesServe(a: Agent, m: Message, rnti: nat)
    requires m.UeConfigReply? || (m.UeStateChange? && m.change.Activated?)
    requires rnti in AgentAfter(a, m).mac
    ensures var mac := AgentAfter(a, m).mac[rnti];
      if rnti in a.mac then mac == a.mac[rnti]
      else mac.queues == [] && forall p :: 0 <= p < MAX_NUM_HARQ ==> mac.fb[p].active && mac.fb[p].status == 0
  {
    if m.UeConfigReply? {
      InsertMacsKeys(a.mac, m.ues, |m.ues|);
    }
  }

  // ---------- what is asked and answered ----------

  function CountOf(outs: seq<Outgoing>, o: Outgoing): nat {
    if outs == [] then 0 else CountOf(outs[..|outs| - 1], o) + if outs[|outs| - 1] == o then 1 else 0
  }

  lemma {:induction false} CountOfConcat(a: seq<Outgoing>, b: seq<Outgoing>, o: Outgoing)
    ensures CountOf(a + b, o) == CountOf(a, o) + CountOf(b, o)
  {
    if b == [] {
      assert a + b == a;
    } else {
      assert (a + b)[..|a + b| - 1] == a + b[..|b| - 1];
      CountOfConcat(a, b[..|b| - 1], o);
    }
  }

  predicate Greets(tm: Tagged, tag: nat) {
    Reaches(tm, tag) && tm.msg.Hello? && tm.msg.success
  }

  function GreetingsOf(tms: seq<Tagged>, tag: nat): nat {
    if tms == [] then 0 else GreetingsOf(tms[..|tms| - 1], tag) + if Greets(tms[|tms| - 1], tag) then 1 else 0
  }

  /** State changes that find their agent registered. */
  function ChangesOf(r: Rib, tms: seq<Tagged>, tag: nat): nat {
    if tms == [] then 0
    else
      var init, last := tms[..|tms| - 1], tms[|tms| - 1];
      ChangesOf(r, init, tag)
        + if Reaches(last, tag) && last.msg.UeStateChange? && tag in HandleAll(r, init).agents then 1 else 0
  }

  lemma OneReply(o: Outgoing, x: Outgoing)
    ensures CountOf([x], o) == if x == o then 1 else 0
  {
    assert [x][..0] == [];
  }

  lemma ThreeReplies(o: Outgoing, x: Outgoing, y: Outgoing, z: Outgoing)
    ensures CountOf([x, y, z], o)
         == (if x == o then 1 else 0) + (if y == o then 1 else 0) + if z == o then 1 else 0
  {
    assert [x, y, z][..2] == [x, y] && [x, y][..1] == [x];
    OneReply(o, x);
  }

  lemma AskedByOne(r: Rib, tm: Tagged, tag: nat)
    ensures var greets := if Greets(tm, tag) then 1 else 0;
      && CountOf(Replies(r, tm), Outgoing(tag, GetEnbConfig)) == greets
      && CountOf(Replies(r, tm), Outgoing(tag, GetUeConfig)) == greets
      && CountOf(Replies(r, tm), Outgoing(tag, GetLcConfig))
          == greets + if Reaches(tm, tag) && tm.msg.UeStateChange? && tag in r.agents then 1 else 0
  {
    var e, u, l := Outgoing(tag, GetEnbConfig), Outgoing(tag, GetUeConfig), Outgoing(tag, GetLcConfig);
    var replies := Replies(r, tm);
    if |replies| == 1 {
      assert replies == [replies[0]];
      OneReply(e, replies[0]);
      OneReply(u, replies[0]);
      OneReply(l, replies[0]);
    } else if |replies| == 3 {
      assert replies == [replies[0], replies[1], replies[2]];
      ThreeReplies(e, replies[0], replies[1], replies[2]);
      ThreeReplies(u, replies[0], replies[1], replies[2]);
      ThreeReplies(l, replies[0], replies[1], replies[2]);
    }
  }

  /** Over any messages: an agent is asked for each of its three configurations once for every successful hello, and for
      its LC configuration once more for every change of a UE while it is registered. */
  lemma {:induction false} ConfigurationsAskedFor(r: Rib, tms: seq<Tagged>, tag: nat)
    ensures var outs := AllReplies(r, tms);
      && CountOf(outs, Outgoing(tag, GetEnbConfig)) == GreetingsOf(tms, tag)
      && CountOf(outs, Outgoing(tag, GetUeConfig)) == GreetingsOf(tms, tag)
      && CountOf(outs, Outgoing(tag, GetLcConfig)) == GreetingsOf(tms, tag) + ChangesOf(r, tms, tag)
  {
    if tms != [] {
      var init, last := tms[..|tms| - 1], tms[|tms| - 1];
      var before := AllReplies(r, init);
      var replies := Replies(HandleAll(r, init), last);
      ConfigurationsAskedFor(r, init, tag);
      AskedByOne(HandleAll(r, init), last, tag);
      CountOfConcat(before, replies, Outgoing(tag, GetEnbConfig));
      CountOfConcat(before, replies, Outgoing(tag, GetUeConfig));
      CountOfConcat(before, replies, Outgoing(tag, GetLcConfig));
    }
  }

  /** Transaction numbers of the echo requests from an agent, and of the echo replies to it, in order. */
  function EchoesAsked(tms: seq<Tagged>, tag: nat): seq<nat> {
    if tms == [] then []
    else
      var last := tms[|tms| - 1];
      EchoesAsked(tms[..|tms| - 1], tag)
        + if Reaches(last, tag) && last.msg.EchoRequest? then [last.msg.xid] else []
  }

  function EchoesSent(outs: seq<Outgoing>, tag: nat): seq<nat> {
    if outs == [] then []
    else
      var last := outs[|outs| - 1];
      EchoesSent(outs[..|outs| - 1], tag)
        + if last.tag == tag && last.request.SendEchoReply? then [last.request.xid] else []
  }

  lemma {:induction false} EchoesSentConcat(a: seq<Outgoing>, b: seq<Outgoing>, tag: nat)
    ensures EchoesSent(a + b, tag) == EchoesSent(a, tag) + EchoesSent(b, tag)
  {
    if b == [] {
      assert a + b == a;
    } else {
      assert (a + b)[..|a + b| - 1] == a + b[..|b| - 1];
      EchoesSentConcat(a, b[..|b| - 1], tag);
    }
  }

  lemma {:induction false} NoEchoes(outs: seq<Outgoing>, tag: nat)
    requires forall i :: 0 <= i < |outs| ==> !(outs[i].tag == tag && outs[i].request.SendEchoReply?)
    ensures EchoesSent(outs, tag) == []
  {
    if outs != [] {
      NoEchoes(outs[..|outs| - 1], tag);
    }
  }

  lemma EchoOfOne(r: Rib, tm: Tagged, tag: nat)
    ensures EchoesSent(Replies(r, tm), tag) == if Reaches(tm, tag) && tm.msg.EchoRequest? then [tm.msg.xid] else []
  {
    if Reaches(tm, tag) && tm.msg.EchoRequest? {
      assert Replies(r, tm)[..0] == [];
    } else {
      NoEchoes(Replies(r, tm), tag);
    }
  }

  /** Over any messages, every echo request is answered once, in order and with its own transaction number. */
  lemma {:induction false} EchoesAnswered(r: Rib, tms: seq<Tagged>, tag: nat)
    ensures EchoesSent(AllReplies(r, tms), tag) == EchoesAsked(tms, tag)
  {
    if tms != [] {
      var init, last := tms[..|tms| - 1], tms[|tms| - 1];
      EchoesAnswered(r, init, tag);
      EchoOfOne(HandleAll(r, init), last, tag);
      EchoesSentConcat(AllReplies(r, init), Replies(HandleAll(r, init), last), tag);
    }
  }
}
