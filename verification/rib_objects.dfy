/** enb_rib_info, Rib and rib_updater as objects, proved equal to the functions of RibModel. */
module RibObjects {
  import opened Words
  import opened SlotTime
  import opened Downlink
  import RibModel

  class EnbRibInfo {
    var enbConfig: RibModel.EnbConfig
    var ueConfig: seq<RibModel.UeConfig>
    var lcConfig: seq<RibModel.LcConfig>
    var ueMacInfo: map<nat, RibModel.Mac>
    var current: Slot

    ghost function AsAgent(): RibModel.Agent
      reads this
    {
      RibModel.Agent(enbConfig, ueConfig, lcConfig, ueMacInfo, current)
    }

    constructor ()
      ensures AsAgent() == RibModel.NewAgent()
    {
      enbConfig, ueConfig, lcConfig, ueMacInfo, current := RibModel.EnbConfig(0), [], [], map[], Slot(0, 0);
    }

    method UpdateEnbConfig(enb: RibModel.EnbConfig)
      modifies this`enbConfig
      ensures AsAgent() == old(AsAgent()).(enb := enb)
    {
      enbConfig := enb;
    }

    method AddMac(rnti: nat)
      modifies this`ueMacInfo
      ensures ueMacInfo == RibModel.InsertMac(old(ueMacInfo), rnti)
    {
      if rnti !in ueMacInfo {
        ueMacInfo := ueMacInfo[rnti := RibModel.NewMac()];
      }
    }

    /** A full UE configuration. */
    method ReplaceUeConfig(ues: seq<RibModel.UeConfig>)
      modifies this`ueConfig, this`ueMacInfo
      ensures AsAgent() == RibModel.WithUes(old(AsAgent()), ues)
    {
      ueConfig := ues;
      for i := 0 to |ues|
        invariant ueConfig == ues && ueMacInfo == RibModel.InsertMacs(old(ueMacInfo), ues, i)
      {
        AddMac(ues[i].rnti);
      }
    }

    /** The inner loop of a deactivation. */
    method EraseLcs(rnti: nat)
      modifies this`lcConfig
      ensures lcConfig == RibModel.SweepLcs(old(lcConfig), rnti)
    {
      var j := 0;
      assert lcConfig[0..] == lcConfig;
      while j < |lcConfig|
        invariant RibModel.SweptFrom(lcConfig, rnti, j) == RibModel.SweepLcs(old(lcConfig), rnti)
        decreases |lcConfig| - j
      {
        RibModel.SweepAdvance(lcConfig, rnti, j);
        if lcConfig[j].rnti == rnti {
          lcConfig := lcConfig[..j] + lcConfig[j + 1..];
        }
        j := j + 1;
      }
      assert j == |lcConfig| ==> lcConfig[..j] == lcConfig && lcConfig[j..] == [];
    }

    /** A state change of one UE. */
    method ChangeUeConfig(change: RibModel.Change, c: RibModel.UeConfig)
      modifies this`ueConfig, this`ueMacInfo, this`lcConfig
      ensures AsAgent() == RibModel.Changed(old(AsAgent()), change, c)
    {
      if change == RibModel.Activated {
        ueConfig := ueConfig + [c];
        AddMac(c.rnti);
        return;
      }
      for i := 0 to |ueConfig|
        invariant ueMacInfo == old(ueMacInfo) && lcConfig == old(lcConfig) && |ueConfig| == |old(ueConfig)|
        invariant change == RibModel.Deactivated ==>
          ueConfig == old(ueConfig) && RibModel.FindUe(ueConfig, c.rnti, i) == RibModel.FindUe(ueConfig, c.rnti, 0)
        invariant change == RibModel.Moved ==> ueConfig == old(ueConfig)
        invariant change == RibModel.Updated ==>
          forall j :: 0 <= j < |ueConfig| ==>
            ueConfig[j] == if j < i then RibModel.Overwritten(old(ueConfig), c)[j] else old(ueConfig)[j]
      {
        if ueConfig[i].rnti == c.rnti {
          if change == RibModel.Deactivated {
            ueConfig := ueConfig[..i] + ueConfig[i + 1..];
            ueMacInfo := ueMacInfo - {c.rnti};
            EraseLcs(c.rnti);
            return;
          } else if change == RibModel.Updated {
            ueConfig := ueConfig[i := c];
          }
        }
      }
      if change == RibModel.Updated {
        assert ueConfig == RibModel.Overwritten(old(ueConfig), c);
      }
    }

    method UpdateLcConfig(lcs: seq<RibModel.LcConfig>)
      modifies this`lcConfig
      ensures AsAgent() == old(AsAgent()).(lcs := lcs)
    {
      lcConfig := lcs;
    }

    method UpdateSubframe(slot: Slot, infos: seq<RibModel.DlInfo>)
      modifies this`current, this`ueMacInfo
      ensures AsAgent() == old(AsAgent()).(current := slot, mac := RibModel.FedMacs(old(ueMacInfo), infos, |infos|))
    {
      current := slot;
      for i := 0 to |infos|
        invariant current == slot && ueMacInfo == RibModel.FedMacs(old(ueMacInfo), infos, i)
      {
        var info := infos[i];
        if info.rnti in ueMacInfo && info.pid < MAX_NUM_HARQ {
          var mac := ueMacInfo[info.rnti];
          if |info.statuses| > 0 {
            mac := mac.(fb := mac.fb[info.pid := HarqFeedback(true, W8(info.statuses[0]))]);
          }
          ueMacInfo := ueMacInfo[info.rnti := mac];
        }
      }
    }

    method UpdateMacStats(reports: seq<RibModel.UeReport>)
      modifies this`ueMacInfo
      ensures AsAgent() == old(AsAgent()).(mac := RibModel.ReportedMacs(old(ueMacInfo), reports, |reports|))
    {
      for i := 0 to |reports|
        invariant ueMacInfo == RibModel.ReportedMacs(old(ueMacInfo), reports, i)
      {
        var r := reports[i];
        if r.rnti in ueMacInfo && r.hasQueues {
          ueMacInfo := ueMacInfo[r.rnti := ueMacInfo[r.rnti].(queues := r.queues)];
        }
      }
    }

    /** The dispatch of a message that reached a registered agent. */
    method Apply(m: RibModel.Message)
      modifies this
      ensures AsAgent() == RibModel.AgentAfter(old(AsAgent()), m)
    {
      match m {
        case StatsReply(reports) => UpdateMacStats(reports);
        case SfTrigger(slot, infos) => UpdateSubframe(slot, infos);
        case UeConfigReply(ues) => ReplaceUeConfig(ues);
        case LcConfigReply(lcs) => UpdateLcConfig(lcs);
        case UeStateChange(change, ue) => ChangeUeConfig(change, ue);
        case _ =>
      }
    }
  }

  class Rib {
    var pendingAgents: set<nat>
    var enbConfigs: map<nat, EnbRibInfo>

    ghost predicate Valid()
      reads this
    {
      forall a, b :: a in enbConfigs && b in enbConfigs && a != b ==> enbConfigs[a] != enbConfigs[b]
    }

    ghost function AsRib(): RibModel.Rib
      reads this, enbConfigs.Values
    {
      RibModel.Rib(pendingAgents, map t | t in enbConfigs :: enbConfigs[t].AsAgent())
    }

    constructor ()
      ensures Valid() && AsRib() == RibModel.Rib({}, map[]) && enbConfigs == map[]
    {
      pendingAgents, enbConfigs := {}, map[];
    }

    /** A configuration reply from a pending agent: an entry is made unless one exists, and the agent is no longer
        pending. */
    method Register(tag: nat, enb: RibModel.EnbConfig)
      requires Valid() && tag in pendingAgents
      modifies this, enbConfigs.Values
      ensures Valid() && fresh(enbConfigs.Values - old(enbConfigs.Values))
      ensures AsRib() == RibModel.Registered(old(AsRib()), tag, enb)
    {
      ghost var before := AsRib();
      if tag !in enbConfigs {
        var info := new EnbRibInfo();
        enbConfigs := enbConfigs[tag := info];
      }
      pendingAgents := pendingAgents - {tag};
      enbConfigs[tag].UpdateEnbConfig(enb);
      Others(before, tag);
    }

    /** The handling of one message, whichever kind it is. */
    method Handle(tm: RibModel.Tagged)
      requires Valid()
      modifies this, enbConfigs.Values
      ensures Valid() && fresh(enbConfigs.Values - old(enbConfigs.Values))
      ensures AsRib() == RibModel.Handle(old(AsRib()), tm)
    {
      ghost var before := AsRib();
      if tm.size == 0 {
        pendingAgents := pendingAgents + {tm.tag};
      } else if tm.msg.EnbConfigReply? {
        if tm.tag in pendingAgents {
          Register(tm.tag, tm.msg.enb);
        }
      } else if tm.tag in enbConfigs {
        enbConfigs[tm.tag].Apply(tm.msg);
        Others(before, tm.tag);
      }
    }

    lemma Others(before: RibModel.Rib, tag: nat)
      requires Valid() && tag in enbConfigs
      requires enbConfigs.Keys == before.agents.Keys + {tag}
      requires forall t :: t in before.agents && t != tag ==> enbConfigs[t].AsAgent() == before.agents[t]
      ensures AsRib().agents == before.agents[tag := enbConfigs[tag].AsAgent()]
    {
    }
  }

  class RibUpdater {
    const rib: Rib
    const messagesToCheck: int
    var inQueue: seq<RibModel.Tagged>
    var outgoing: seq<RibModel.Outgoing>

    constructor (rib: Rib, messagesToCheck: int)
      ensures this.rib == rib && this.messagesToCheck == messagesToCheck && inQueue == [] && outgoing == []
    {
      this.rib, this.messagesToCheck := rib, messagesToCheck;
      inQueue, outgoing := [], [];
    }

    /** get_msg_from_network, after the network thread has pushed what is coming. */
    method GetMsg(coming: seq<RibModel.Tagged>) returns (ok: bool, tm: RibModel.Tagged)
      modifies this`inQueue
      ensures var q := old(inQueue) + coming;
        ok == (q != []) && if ok then tm == q[0] && inQueue == q[1..] else inQueue == []
    {
      inQueue := inQueue + coming;
      ok := inQueue != [];
      if ok {
        tm := inQueue[0];
        inQueue := inQueue[1..];
      } else {
        tm := RibModel.Tagged(0, 0, RibModel.Unrecognised);
      }
    }

    /** What the handlers send. */
    method SendReplies(tm: RibModel.Tagged)
      modifies this`outgoing
      ensures outgoing == old(outgoing) + RibModel.Replies(rib.AsRib(), tm)
    {
      if tm.size == 0 {
        outgoing := outgoing + [RibModel.Outgoing(tm.tag, RibModel.SendHello)];
      } else {
        match tm.msg {
          case Hello(success) =>
            if success {
              outgoing := outgoing + [RibModel.Outgoing(tm.tag, RibModel.GetEnbConfig),
                                      RibModel.Outgoing(tm.tag, RibModel.GetUeConfig),
                                      RibModel.Outgoing(tm.tag, RibModel.GetLcConfig)];
            }
          case EchoRequest(xid) =>
            outgoing := outgoing + [RibModel.Outgoing(tm.tag, RibModel.SendEchoReply(xid))];
          case UeStateChange(change, ue) =>
            if tm.tag in rib.enbConfigs {
              outgoing := outgoing + [RibModel.Outgoing(tm.tag, RibModel.GetLcConfig)];
            }
          case _ =>
        }
      }
    }

    /** The body of the loop. */
    method HandleNext(ghost start: RibModel.Rib, ghost sent: seq<RibModel.Outgoing>,
                      ghost handled: seq<RibModel.Tagged>,
                      tm: RibModel.Tagged)
      requires rib.Valid() && RibModel.CaughtUp(start, sent, handled, rib.AsRib(), outgoing)
      modifies this`outgoing, rib, rib.enbConfigs.Values
      ensures rib.Valid() && fresh(rib.enbConfigs.Values - old(rib.enbConfigs.Values))
      ensures RibModel.CaughtUp(start, sent, handled + [tm], rib.AsRib(), outgoing)
    {
      RibModel.HandleOneMore(start, sent, handled, rib.AsRib(), outgoing, tm);
      SendReplies(tm);
      rib.Handle(tm);
    }

    /** One period: dequeue, then test the budget, then handle; arrivals tells what the network thread pushes before
        each dequeue. */
    method UpdateRib(arrivals: seq<seq<RibModel.Tagged>>)
      requires rib.Valid()
      modifies this, rib, rib.enbConfigs.Values
      ensures rib.Valid()
      ensures var c := RibModel.RunCycle(old(inQueue), RibModel.Budget(messagesToCheck), arrivals);
        && inQueue == c.queue
        && rib.AsRib() == RibModel.HandleAll(old(rib.AsRib()), c.handled)
        && outgoing == old(outgoing) + RibModel.AllReplies(old(rib.AsRib()), c.handled)
    {
      ghost var start, sent := rib.AsRib(), outgoing;
      ghost var whole := RibModel.RunCycle(inQueue, RibModel.Budget(messagesToCheck), arrivals);
      ghost var handled: seq<RibModel.Tagged>, arrived := [], RibModel.Next(arrivals);
      var remaining, later := messagesToCheck, RibModel.Later(arrivals);
      RibModel.CycleBegins(inQueue, remaining, arrivals);
      var ok, tm := GetMsg(RibModel.Next(arrivals));
      while ok && remaining > 0
        invariant rib.Valid() && fresh(rib.enbConfigs.Values - old(rib.enbConfigs.Values))
        invariant RibModel.CaughtUp(start, sent, handled, rib.AsRib(), outgoing)
        invariant RibModel.InCycle(whole, handled, arrived, ok, tm, inQueue, remaining, later)
        decreases remaining
      {
        RibModel.HandledOneMore(whole, handled, arrived, tm, inQueue, remaining, later);
        HandleNext(start, sent, handled, tm);
        handled, arrived := handled + [tm], arrived + RibModel.Next(later);
        remaining := remaining - 1;
        ok, tm := GetMsg(RibModel.Next(later));
        later := RibModel.Later(later);
      }
    }
  }
}
