/** HARQ over whole runs (section 5.3.2 of 3GPP TS 36.321): any interleaving of HARQ feedback, buffer reports,
    configuration changes and scheduling slots of one cell, with a history per UE of the feedback it gave and the DCIs
    it got. */
module HarqRuns {
  import opened Words
  import opened ResourceGrid
  import opened Preprocessor
  import opened TransportBlock
  import opened Pdcch
  import opened SlotTime
  import opened Downlink
  import opened SlotSafety

  // ---------- runs ----------

  /** Feedback for a process; a report of the queues; the making of a MAC entry, which frees every process and shows no
      queues; or a DCI sent, with the bytes requested from each channel, for the slot numbered
      `at` since start-up. */
  datatype Item = Fed(pid: nat) | Told(queues: seq<nat>) | Joined | Sent(dci: Dci, at: nat, requests: seq<nat>)

  datatype Event =
    | HarqReport(ue: nat, pid: nat, statuses: seq<nat>)
    | QueueReport(ue: nat, queues: seq<nat>)
    | Configure(list: seq<nat>)
    | Deactivate(position: nat)
    | Tick(at: nat, carry: Carry, reports: seq<Report>, order: seq<nat>)

  /** All UEs that ever appear, by index.  The scheduling information of a UE is never erased; known are those with a
      MAC entry at present, and roster lists those configured in the cell. */
  datatype System = System(ues: seq<Ue>, history: seq<seq<Item>>, known: set<nat>, roster: seq<nat>, now: nat)

  /** update_dl_sf_info, for the first transport block. */
  function Fedback(fb: Feedback, pid: nat, statuses: seq<nat>): Feedback
    requires pid < MAX_NUM_HARQ
  {
    if statuses == [] then fb else fb[pid := HarqFeedback(true, W8(statuses[0]))]
  }

  /** A list of configured UEs names each once. */
  ghost predicate ValidRoster(list: seq<nat>, n: nat) {
    && (forall k :: 0 <= k < |list| ==> list[k] < n)
    && forall j, k :: 0 <= j < k < |list| ==> list[j] != list[k]
  }

  ghost predicate Formed(s: System) {
    && |s.history| == |s.ues| && ValidRoster(s.roster, |s.ues|)
    && forall k :: 0 <= k < |s.roster| ==> s.roster[k] in s.known
  }

  /** A tick comes with one report per configured UE, in the order of the roster. */
  ghost predicate Possible(s: System, e: Event) {
    && Formed(s)
    && match e
       case HarqReport(ue, pid, statuses) => ue < |s.ues| && pid < MAX_NUM_HARQ
       case QueueReport(ue, queues) => ue < |s.ues|
       case Configure(list) => ValidRoster(list, |s.ues|)
       case Deactivate(position) => position < |s.roster|
       case Tick(at, carry, reports, order) =>
         && at >= s.now && carry.mcs <= MAX_MCS
         && |reports| == |s.roster| && (forall k :: 0 <= k < |reports| ==> ValidReport(reports[k]))
         && ValidOrder(order, |s.roster|)
  }

  function Extended(h: seq<Item>, g: Grant, at: nat): seq<Item> {
    if g.Grant? then h + [Sent(g.dci, at, g.requests)] else h
  }

  /** A UE with a new MAC entry: all processes free, nothing reported, but the scheduling information it had. */
  function WithNewMac(u: Ue): Ue {
    u.(fb := seq(MAX_NUM_HARQ, _ => HarqFeedback(true, 0)), queues := [])
  }

  ghost predicate Joins(s: System, list: seq<nat>, ue: nat) {
    ue in list && ue !in s.known
  }

  /** The configured UEs, in the order of the roster. */
  ghost function Selected(s: System): (r: seq<Ue>)
    requires Formed(s)
    ensures |r| == |s.roster| && forall k :: 0 <= k < |r| ==> r[k] == s.ues[s.roster[k]]
  {
    seq(|s.roster|, k requires 0 <= k < |s.roster| => s.ues[s.roster[k]])
  }

  ghost function SelectedHistory(s: System): (r: seq<seq<Item>>)
    requires Formed(s)
    ensures |r| == |s.roster| && forall k :: 0 <= k < |r| ==> r[k] == s.history[s.roster[k]]
  {
    seq(|s.roster|, k requires 0 <= k < |s.roster| => s.history[s.roster[k]])
  }

  ghost function AfterSlot(s: System, r: SlotState, at: nat): (s': System)
    requires Formed(s) && |r.ues| == |r.grants| == |s.roster|
    ensures Formed(s') && |s'.ues| == |s.ues|
    ensures forall i :: 0 <= i < |s.ues| ==>
              if i in s.roster then
                s'.ues[i] == r.ues[PositionOf(s.roster, i)]
                && s'.history[i] == Extended(s.history[i], r.grants[PositionOf(s.roster, i)], at)
              else s'.ues[i] == s.ues[i] && s'.history[i] == s.history[i]
  {
    System(seq(|s.ues|, i requires 0 <= i < |s.ues| =>
             if i in s.roster then r.ues[PositionOf(s.roster, i)] else s.ues[i]),
           seq(|s.ues|, i requires 0 <= i < |s.ues| =>
             if i in s.roster then Extended(s.history[i], r.grants[PositionOf(s.roster, i)], at) else s.history[i]),
           s.known, s.roster, at)
  }

  ghost function Configured(s: System, list: seq<nat>): (s': System)
    requires Formed(s) && ValidRoster(list, |s.ues|)
    ensures Formed(s') && |s'.ues| == |s.ues|
    ensures forall i :: 0 <= i < |s.ues| ==>
              && s'.ues[i] == (if Joins(s, list, i) then WithNewMac(s.ues[i]) else s.ues[i])
              && s'.history[i] == if Joins(s, list, i) then s.history[i] + [Joined] else s.history[i]
  {
    System(seq(|s.ues|, i requires 0 <= i < |s.ues| => if Joins(s, list, i) then WithNewMac(s.ues[i]) else s.ues[i]),
           seq(|s.ues|, i requires 0 <= i < |s.ues| =>
             if Joins(s, list, i) then s.history[i] + [Joined] else s.history[i]),
           s.known + (set ue | ue in list), list, s.now)
  }

  ghost function Step(t: TbsTable, cfg: CellConfig, s: System, e: Event): (r: System)
    requires Supported(cfg.bw) && Possible(s, e)
    ensures Formed(r) && |r.ues| == |s.ues|
  {
    match e
    case HarqReport(ue, pid, statuses) =>
      if ue !in s.known then s
      else
        var u := s.ues[ue];
        s.(ues := s.ues[ue := u.(fb := Fedback(u.fb, pid, statuses))],
           history := if statuses == [] then s.history else s.history[ue := s.history[ue] + [Fed(pid)]])
    case QueueReport(ue, queues) =>
      if ue !in s.known then s
      else s.(ues := s.ues[ue := s.ues[ue].(queues := queues)],
              history := s.history[ue := s.history[ue] + [Told(queues)]])
    case Configure(list) => Configured(s, list)
    case Deactivate(position) =>
      s.(known := s.known - {s.roster[position]}, roster := s.roster[..position] + s.roster[position + 1..])
    case Tick(at, carry, reports, order) =>
      if at % 10 == 0 || at % 10 == 5 then s.(now := at)
      else AfterSlot(s, RunSlot(t, cfg, SlotAt(at), carry, Selected(s), reports, order), at)
  }

  /** A system at start-up: no UE known, nothing sent. */
  ghost predicate Initial(s: System) {
    && |s.history| == |s.ues| && s.known == {} && s.roster == []
    && (forall k :: 0 <= k < |s.ues| ==>
          && s.history[k] == [] && s.ues[k].queues == []
          && s.ues[k].tpcAt == SlotAt(0) && s.ues[k].taTimer == TA_PERIOD
          && forall p :: 0 <= p < MAX_NUM_HARQ ==>
               s.ues[k].tx[p].ndi == 0 && s.ues[k].tx[p].nbRb == 0 && s.ues[k].tx[p].mcs == 0)
  }

  /** Any sequence of events; Step keeps every state well-formed, so Possible restricts nothing but the events. */
  ghost predicate Run(t: TbsTable, cfg: CellConfig, states: seq<System>, events: seq<Event>)
    requires Supported(cfg.bw)
  {
    && |states| == |events| + 1
    && Initial(states[0])
    && forall n :: 0 <= n < |events| ==>
         Possible(states[n], events[n]) && states[n + 1] == Step(t, cfg, states[n], events[n])
  }

  // ---------- reading a history ----------

  predicate NewBlock(i: Item, pid: nat) {
    i.Sent? && i.dci.harq == pid && i.dci.round == 0
  }

  predicate PowerChange(i: Item) {
    i.Sent? && i.dci.round == 0 && i.dci.tpc != 1
  }

  /** Position of the last new block on pid before position k, or -1. */
  function LastNew(h: seq<Item>, pid: nat, k: nat): (i: int)
    requires k <= |h|
    ensures i == -1 || (0 <= i < k && NewBlock(h[i], pid))
    ensures forall j :: i < j < k && j >= 0 ==> !NewBlock(h[j], pid)
  {
    if k == 0 then -1 else if NewBlock(h[k - 1], pid) then k - 1 else LastNew(h, pid, k - 1)
  }

  /** A DCI for pid before position k still waits for feedback. */
  predicate Awaiting(h: seq<Item>, pid: nat, k: nat)
    requires k <= |h|
  {
    if k == 0 then false
    else if h[k - 1] == Fed(pid) || h[k - 1] == Joined then false
    else if h[k - 1].Sent? && h[k - 1].dci.harq == pid then true
    else Awaiting(h, pid, k - 1)
  }

  lemma {:induction false} NotAwaitingMeansFed(h: seq<Item>, pid: nat, k: nat, i: nat)
    requires i < k <= |h| && !Awaiting(h, pid, k) && h[i].Sent? && h[i].dci.harq == pid
    ensures exists m :: i < m < k && (h[m] == Fed(pid) || h[m] == Joined)
  {
    if h[k - 1] != Fed(pid) && h[k - 1] != Joined {
      NotAwaitingMeansFed(h, pid, k - 1, i);
    } else {
      assert i < k - 1;
    }
  }

  lemma {:induction false} SamePrefixSameReading(h: seq<Item>, x: Item, pid: nat, k: nat)
    requires k <= |h|
    ensures LastNew(h + [x], pid, k) == LastNew(h, pid, k)
    ensures Awaiting(h + [x], pid, k) == Awaiting(h, pid, k)
  {
    if k > 0 {
      SamePrefixSameReading(h, x, pid, k - 1);
    }
  }

  /** What a DCI at position k owes to the history before it. */
  ghost predicate GoodAt(h: seq<Item>, k: nat)
    requires k < |h|
  {
    h[k].Sent? ==>
      var d := h[k].dci;
      var i := LastNew(h, d.harq, k);
      && !Awaiting(h, d.harq, k)
      && (d.round > 0 ==>
            i >= 0 && d.mcs == h[i].dci.mcs && d.tbs == h[i].dci.tbs && d.ndi == h[i].dci.ndi && d.nbRb == h[i].dci.nbRb
            && d.tpc == h[i].dci.tpc)
      && (d.round == 0 ==> d.ndi == if i == -1 then 1 else 1 - h[i].dci.ndi)
      && (PowerChange(h[k]) ==> forall j :: 0 <= j < k && PowerChange(h[j]) ==> h[k].at >= h[j].at + 10)
  }

  ghost predicate Good(h: seq<Item>) {
    forall k :: 0 <= k < |h| ==> GoodAt(h, k)
  }

  // ---------- the invariant of one UE ----------

  ghost predicate ProcessMatches(t: TbsTable, tx: HarqTx, fb: HarqFeedback, h: seq<Item>, pid: nat) {
    var i := LastNew(h, pid, |h|);
    && tx.mcs <= MAX_MCS
    && (fb.active ==> !Awaiting(h, pid, |h|))
    && tx.ndi == (if i == -1 then 0 else h[i].dci.ndi)
    && tx.ndi <= 1
    && (tx.nbRb > 0 ==>
          && i >= 0 && h[i].dci.mcs == tx.mcs && h[i].dci.nbRb == tx.nbRb
          && h[i].dci.tbs == GetTbsDl(t, tx.mcs, tx.nbRb)
          && h[i].dci.tpc == tx.tpc)
  }

  /** The slot of the last power update is known modulo the frame period, and no command came later. */
  ghost predicate PowerMatches(tpcAt: Slot, h: seq<Item>, now: nat) {
    exists last :: 0 <= last <= now && tpcAt == SlotAt(last) && NoChangeAfter(h, last)
  }

  ghost predicate NoChangeAfter(h: seq<Item>, last: nat) {
    forall j :: 0 <= j < |h| && PowerChange(h[j]) ==> h[j].at <= last
  }

  ghost predicate AllMatch(t: TbsTable, tx: Memory, fb: Feedback, h: seq<Item>) {
    forall p :: 0 <= p < MAX_NUM_HARQ ==> ProcessMatches(t, tx[p], fb[p], h, p)
  }

  ghost predicate UeInv(t: TbsTable, u: Ue, h: seq<Item>, now: nat) {
    && AllMatch(t, u.tx, u.fb, h)
    && PowerMatches(u.tpcAt, h, now)
    && Good(h)
  }

  lemma AppendKeepsGood(h: seq<Item>, x: Item)
    requires Good(h) && GoodAt(h + [x], |h|)
    ensures Good(h + [x])
  {
    var h' := h + [x];
    forall k | 0 <= k < |h'|
      ensures GoodAt(h', k)
    {
      if k < |h| {
        assert GoodAt(h, k);
        if h[k].Sent? {
          SamePrefixSameReading(h, x, h[k].dci.harq, k);
        }
      }
    }
  }

  /** Feedback re-activates exactly its process and changes nothing else. */
  lemma FeedbackKeepsInv(t: TbsTable, u: Ue, h: seq<Item>, now: nat, pid: nat, statuses: seq<nat>)
    requires UeInv(t, u, h, now) && pid < MAX_NUM_HARQ && statuses != []
    ensures UeInv(t, u.(fb := Fedback(u.fb, pid, statuses)), h + [Fed(pid)], now)
  {
    var h' := h + [Fed(pid)];
    AppendKeepsGood(h, Fed(pid));
    forall p | 0 <= p < MAX_NUM_HARQ
      ensures ProcessMatches(t, u.tx[p], Fedback(u.fb, pid, statuses)[p], h', p)
    {
      assert ProcessMatches(t, u.tx[p], u.fb[p], h, p);
      SamePrefixSameReading(h, Fed(pid), p, |h|);
    }
    var last :| 0 <= last <= now && u.tpcAt == SlotAt(last) && NoChangeAfter(h, last);
    assert NoChangeAfter(h', last);
  }

  /** So does a new MAC entry, for all processes. */
  lemma JoinKeepsInv(t: TbsTable, u: Ue, h: seq<Item>, now: nat)
    requires UeInv(t, u, h, now)
    ensures UeInv(t, WithNewMac(u), h + [Joined], now)
  {
    var h' := h + [Joined];
    AppendKeepsGood(h, Joined);
    forall p | 0 <= p < MAX_NUM_HARQ
      ensures ProcessMatches(t, u.tx[p], WithNewMac(u).fb[p], h', p)
    {
      assert ProcessMatches(t, u.tx[p], u.fb[p], h, p);
      SamePrefixSameReading(h, Joined, p, |h|);
    }
    var last :| 0 <= last <= now && u.tpcAt == SlotAt(last) && NoChangeAfter(h, last);
    assert NoChangeAfter(h', last);
  }

  /** A report of the queues changes nothing here. */
  lemma ReportKeepsInv(t: TbsTable, u: Ue, h: seq<Item>, now: nat, queues: seq<nat>)
    requires UeInv(t, u, h, now)
    ensures UeInv(t, u.(queues := queues), h + [Told(queues)], now)
  {
    var h' := h + [Told(queues)];
    AppendKeepsGood(h, Told(queues));
    forall p | 0 <= p < MAX_NUM_HARQ
      ensures ProcessMatches(t, u.tx[p], u.fb[p], h', p)
    {
      assert ProcessMatches(t, u.tx[p], u.fb[p], h, p);
      SamePrefixSameReading(h, Told(queues), p, |h|);
    }
    var last :| 0 <= last <= now && u.tpcAt == SlotAt(last) && NoChangeAfter(h, last);
    assert NoChangeAfter(h', last);
  }

  lemma LaterKeepsInv(t: TbsTable, u: Ue, h: seq<Item>, now: nat, later: nat)
    requires UeInv(t, u, h, now) && now <= later
    ensures UeInv(t, u, h, later)
  {
  }

  /** What the preprocessor leaves a pending retransmission with. */
  ghost predicate RetransmissionSized(u: Ue) {
    HasHarq(u.fb) && u.fb[Pid(u.fb)].status > 0 ==> u.d.required == u.tx[Pid(u.fb)].nbRb
  }

  lemma PrepareKeepsInv(t: TbsTable, bw: nat, u: Ue, r: Report, h: seq<Item>, now: nat)
    requires bw < 0x1_0000 && UeInv(t, u, h, now)
    ensures var p := WithHarq(Sized(t, bw, u, r)); UeInv(t, p, h, now) && RetransmissionSized(p)
  {
    var v := WithHarq(Sized(t, bw, u, r));
    forall p | 0 <= p < MAX_NUM_HARQ
      ensures ProcessMatches(t, v.tx[p], v.fb[p], h, p)
    {
      assert ProcessMatches(t, u.tx[p], u.fb[p], h, p);
    }
  }

  /** A DCI for a process that is not waiting, with the new state of that process, keeps the invariant of all
      eight processes. */
  lemma SentKeepsProcesses(t: TbsTable, u: Ue, h: seq<Item>, now: nat, pid: nat, tx: HarqTx, dci: Dci, at: nat,
                           requests: seq<nat>)
    requires UeInv(t, u, h, now) && pid < MAX_NUM_HARQ && dci.harq == pid
    requires tx.mcs <= MAX_MCS
    requires dci.round > 0 ==> tx == u.tx[pid].(row := tx.row)
    requires dci.round == 0 ==>
      && tx.ndi == 1 - u.tx[pid].ndi == dci.ndi && tx.mcs == dci.mcs
      && tx.nbRb == dci.nbRb && tx.tpc == dci.tpc && dci.tbs == GetTbsDl(t, tx.mcs, tx.nbRb)
    ensures AllMatch(t, u.tx[pid := tx], u.fb[pid := u.fb[pid].(active := false)], h + [Sent(dci, at, requests)])
  {
    var txs, fbs := u.tx[pid := tx], u.fb[pid := u.fb[pid].(active := false)];
    forall p | 0 <= p < MAX_NUM_HARQ
      ensures ProcessMatches(t, txs[p], fbs[p], h + [Sent(dci, at, requests)], p)
    {
      assert ProcessMatches(t, u.tx[p], u.fb[p], h, p);
      SamePrefixSameReading(h, Sent(dci, at, requests), p, |h|);
    }
  }

  lemma RetransmitKeepsInv(t: TbsTable, bw: nat, ledger: Ledger, carry: Carry, u: Ue, pid: nat, h: seq<Item>, now: nat)
    requires UeInv(t, u, h, now) && pid < MAX_NUM_HARQ && u.fb[pid].active && u.fb[pid].status > 0
    requires u.d.required == u.tx[pid].nbRb && u.d.required > 0
    ensures var r := Retransmit(t, bw, ledger, carry, u, pid);
      UeInv(t, r.u, Extended(h, r.grant, now), now)
  {
    var r := Retransmit(t, bw, ledger, carry, u, pid);
    if r.grant.Grant? {
      var x := Sent(r.grant.dci, now, r.grant.requests);
      assert ProcessMatches(t, u.tx[pid], u.fb[pid], h, pid);
      SamePrefixSameReading(h, x, pid, |h|);
      AppendKeepsGood(h, x);
      SentKeepsProcesses(t, u, h, now, pid, r.u.tx[pid], r.grant.dci, now, r.grant.requests);
      var last :| 0 <= last <= now && u.tpcAt == SlotAt(last) && NoChangeAfter(h, last);
      assert NoChangeAfter(h + [x], last);
    }
  }

  /** The power command of a new block is spaced from all earlier ones. */
  lemma CommandKeepsSpacing(tpcAt: Slot, h: seq<Item>, now: nat, p: PowerReport, dci: Dci, requests: seq<nat>)
    requires PowerMatches(tpcAt, h, now)
    requires dci.round == 0 ==> dci.tpc == Command(tpcAt, SlotAt(now), p).0
    ensures PowerMatches(Command(tpcAt, SlotAt(now), p).1, h + [Sent(dci, now, requests)], now)
    ensures PowerChange(Sent(dci, now, requests)) ==>
              forall j :: 0 <= j < |h| && PowerChange(h[j]) ==> now >= h[j].at + 10
  {
    var last :| 0 <= last <= now && tpcAt == SlotAt(last) && NoChangeAfter(h, last);
    var (tpc, at) := Command(tpcAt, SlotAt(now), p);
    if tpc != 1 {
      DueMeansTenLater(last, now);
    }
    if at == tpcAt && !(dci.round == 0 && tpc != 1) {
      assert NoChangeAfter(h + [Sent(dci, now, requests)], last);
    } else {
      assert NoChangeAfter(h + [Sent(dci, now, requests)], now);
    }
  }

  lemma SendNewKeepsInv(t: TbsTable, bw: nat, ledger: Ledger, carry: Carry, u: Ue, r: Report, pid: nat, h: seq<Item>,
                        now: nat)
    requires UeInv(t, u, h, now) && pid < MAX_NUM_HARQ && u.fb[pid].active && u.fb[pid].status == 0
    requires carry.mcs <= MAX_MCS
    ensures var s := SendNew(t, bw, SlotAt(now), ledger, carry, u, r, pid);
      UeInv(t, s.u, Extended(h, s.grant, now), now)
  {
    var s := SendNew(t, bw, SlotAt(now), ledger, carry, u, r, pid);
    if s.grant.Grant? {
      var x := Sent(s.grant.dci, now, s.grant.requests);
      assert ProcessMatches(t, u.tx[pid], u.fb[pid], h, pid);
      SamePrefixSameReading(h, x, pid, |h|);
      CommandKeepsSpacing(u.tpcAt, h, now, r.power, s.grant.dci, s.grant.requests);
      AppendKeepsGood(h, x);
      SentKeepsProcesses(t, u, h, now, pid, s.u.tx[pid], s.grant.dci, now, s.grant.requests);
    }
  }

  lemma TurnKeepsInv(t: TbsTable, cfg: CellConfig, ledger: Ledger, carry: Carry, u: Ue, r: Report, h: seq<Item>,
                     now: nat)
    requires ledger.symbols <= 3 && carry.mcs <= MAX_MCS && ValidReport(r)
    requires UeInv(t, u, h, now) && RetransmissionSized(u)
    requires u.d.pre > 0 ==> u.d.required > 0
    ensures var s := TakeTurn(t, cfg, SlotAt(now), ledger, carry, u, r);
      UeInv(t, s.u, Extended(h, s.grant, now), now) && s.carry.mcs <= MAX_MCS
  {
    var s := TakeTurn(t, cfg, SlotAt(now), ledger, carry, u, r);
    var carry' := WithCsi(carry, r.csi);
    var (reserved, ok) := Reserve(cfg, ledger, carry'.aggregation);
    if ok && HasHarq(u.fb) && u.d.pre > 0 {
      var pid := Pid(u.fb);
      assert ProcessMatches(t, u.tx[pid], u.fb[pid], h, pid);
      if u.fb[pid].status > 0 {
        RetransmitKeepsInv(t, cfg.bw, reserved, carry', u, pid, h, now);
      } else {
        SendNewKeepsInv(t, cfg.bw, reserved, carry', u, r, pid, h, now);
      }
    }
  }

  // ---------- the invariant of the cell ----------

  ghost predicate Inv(t: TbsTable, s: System) {
    && |s.history| == |s.ues|
    && forall k :: 0 <= k < |s.ues| ==> UeInv(t, s.ues[k], s.history[k], s.now)
  }

  lemma {:induction false} CarriedMcs(t: TbsTable, cfg: CellConfig, now: nat, carry: Carry, ready: seq<Ue>,
                                      reports: seq<Report>, history: seq<seq<Item>>, k: nat)
    requires k <= |ready| == |reports| == |history| && carry.mcs <= MAX_MCS
    requires forall i :: 0 <= i < |ready| ==>
      && ValidReport(reports[i]) && UeInv(t, ready[i], history[i], now) && RetransmissionSized(ready[i])
      && (ready[i].d.pre > 0 ==> ready[i].d.required > 0)
    ensures BeforeTurn(t, cfg, SlotAt(now), RoundStart(cfg, 0), carry, ready, reports, k).1.mcs <= MAX_MCS
  {
    if k > 0 {
      CarriedMcs(t, cfg, now, carry, ready, reports, history, k - 1);
      var (l, c) := BeforeTurn(t, cfg, SlotAt(now), RoundStart(cfg, 0), carry, ready, reports, k - 1);
      TurnKeepsInv(t, cfg, l, c, ready[k - 1], reports[k - 1], history[k - 1], now);
    }
  }

  /** A slot keeps the invariant of every configured UE, and that of the others as time passes. */
  lemma TickKeepsInv(t: TbsTable, cfg: CellConfig, s: System, e: Event)
    requires Supported(cfg.bw) && Inv(t, s) && Possible(s, e) && e.Tick?
    ensures Inv(t, Step(t, cfg, s, e))
  {
    var s', now := Step(t, cfg, s, e), e.at;
    forall i | 0 <= i < |s.ues|
      ensures UeInv(t, s'.ues[i], s'.history[i], now)
    {
      LaterKeepsInv(t, s.ues[i], s.history[i], s.now, now);
      if i in s.roster && now % 10 != 0 && now % 10 != 5 {
        var us, hs, k := Selected(s), SelectedHistory(s), PositionOf(s.roster, i);
        forall j | 0 <= j < |us|
          ensures UeInv(t, us[j], hs[j], now)
        {
          LaterKeepsInv(t, us[j], hs[j], s.now, now);
        }
        SlotKeepsInv(t, cfg, now, e.carry, us, e.reports, e.order, hs, k);
      }
    }
  }

  lemma SlotKeepsInv(t: TbsTable, cfg: CellConfig, now: nat, carry: Carry, us: seq<Ue>, reports: seq<Report>,
                     order: seq<nat>, hs: seq<seq<Item>>, k: nat)
    requires Supported(cfg.bw) && carry.mcs <= MAX_MCS && k < |us| == |reports| == |hs| && ValidOrder(order, |us|)
    requires forall j :: 0 <= j < |us| ==> ValidReport(reports[j]) && UeInv(t, us[j], hs[j], now)
    ensures var r := RunSlot(t, cfg, SlotAt(now), carry, us, reports, order);
      UeInv(t, r.ues[k], Extended(hs[k], r.grants[k], now), now)
  {
    var ready := Preprocessed(t, cfg.bw, us, reports, order);
    forall j | 0 <= j < |us|
      ensures UeInv(t, ready[j], hs[j], now) && RetransmissionSized(ready[j])
      ensures ready[j].d.pre > 0 ==> ready[j].d.required > 0
    {
      ReadyForTurn(t, cfg.bw, us, reports, order, j);
      PrepareKeepsInv(t, cfg.bw, us[j], reports[j], hs[j], now);
    }
    CarriedMcs(t, cfg, now, carry, ready, reports, hs, k);
    var (l, c) := BeforeTurn(t, cfg, SlotAt(now), RoundStart(cfg, 0), carry, ready, reports, k);
    TurnKeepsInv(t, cfg, l, c, ready[k], reports[k], hs[k], now);
  }

  lemma StepKeepsInv(t: TbsTable, cfg: CellConfig, s: System, e: Event)
    requires Supported(cfg.bw) && Inv(t, s) && Possible(s, e)
    ensures Inv(t, Step(t, cfg, s, e))
  {
    match e
    case HarqReport(ue, pid, statuses) =>
      if statuses != [] {
        FeedbackKeepsInv(t, s.ues[ue], s.history[ue], s.now, pid, statuses);
      }
    case QueueReport(ue, queues) =>
      ReportKeepsInv(t, s.ues[ue], s.history[ue], s.now, queues);
    case Configure(list) =>
      var s' := Step(t, cfg, s, e);
      forall i | 0 <= i < |s.ues|
        ensures UeInv(t, s'.ues[i], s'.history[i], s.now)
      {
        JoinKeepsInv(t, s.ues[i], s.history[i], s.now);
      }
    case Deactivate(position) =>
    case Tick(at, carry, reports, order) =>
      TickKeepsInv(t, cfg, s, e);
  }

  lemma InitialInv(t: TbsTable, s: System)
    requires Initial(s)
    ensures Inv(t, s)
  {
    forall k | 0 <= k < |s.ues|
      ensures UeInv(t, s.ues[k], s.history[k], s.now)
    {
      assert NoChangeAfter(s.history[k], 0);
    }
  }

  lemma {:induction false} RunKeepsInv(t: TbsTable, cfg: CellConfig, states: seq<System>, events: seq<Event>, n: nat)
    requires Supported(cfg.bw) && Run(t, cfg, states, events) && n <= |events|
    ensures Inv(t, states[n])
  {
    if n == 0 {
      InitialInv(t, states[0]);
    } else {
      RunKeepsInv(t, cfg, states, events, n - 1);
      StepKeepsInv(t, cfg, states[n - 1], events[n - 1]);
    }
  }

  // ---------- main results ----------

  /** Two DCIs for the same process always have feedback for it between them, or a new MAC entry, which a UE gets when
      it is activated again. */
  lemma NoSecondGrantBeforeFeedback(t: TbsTable, cfg: CellConfig, states: seq<System>, events: seq<Event>, n: nat,
                                    ue: nat, i: nat, k: nat)
    requires Supported(cfg.bw) && Run(t, cfg, states, events) && n <= |events|
    requires ue < |states[n].ues| == |states[n].history|
    requires var h := states[n].history[ue];
      i < k < |h| && h[i].Sent? && h[k].Sent? && h[i].dci.harq == h[k].dci.harq
    ensures var h := states[n].history[ue];
      exists m :: i < m < k && (h[m] == Fed(h[i].dci.harq) || h[m] == Joined)
  {
    RunKeepsInv(t, cfg, states, events, n);
    var h := states[n].history[ue];
    assert UeInv(t, states[n].ues[ue], h, states[n].now);
    assert GoodAt(h, k);
    NotAwaitingMeansFed(h, h[k].dci.harq, k, i);
  }

  /** A retransmission repeats scheme, block size, new-data indicator and resource block count of the DCI that
      first sent its block - and its power command, which the UE therefore obeys once more. */
  lemma RetransmissionRepeatsItsBlock(t: TbsTable, cfg: CellConfig, states: seq<System>, events: seq<Event>, n: nat,
                                      ue: nat, k: nat)
    requires Supported(cfg.bw) && Run(t, cfg, states, events) && n <= |events|
    requires ue < |states[n].ues| == |states[n].history|
    requires var h := states[n].history[ue]; k < |h| && h[k].Sent? && h[k].dci.round > 0
    ensures var h := states[n].history[ue];
      exists i :: 0 <= i < k && NewBlock(h[i], h[k].dci.harq)
               && (forall j :: i < j < k ==> !NewBlock(h[j], h[k].dci.harq))
               && h[i].dci.mcs == h[k].dci.mcs && h[i].dci.tbs == h[k].dci.tbs
               && h[i].dci.ndi == h[k].dci.ndi && h[i].dci.nbRb == h[k].dci.nbRb && h[i].dci.tpc == h[k].dci.tpc
  {
    RunKeepsInv(t, cfg, states, events, n);
    var h := states[n].history[ue];
    assert UeInv(t, states[n].ues[ue], h, states[n].now);
    assert GoodAt(h, k);
    var i := LastNew(h, h[k].dci.harq, k);
    assert NewBlock(h[i], h[k].dci.harq);
  }

  /** Each new block on a process toggles its new-data indicator exactly once. */
  lemma NewBlocksToggleNdi(t: TbsTable, cfg: CellConfig, states: seq<System>, events: seq<Event>, n: nat, ue: nat,
                           i: nat, k: nat)
    requires Supported(cfg.bw) && Run(t, cfg, states, events) && n <= |events|
    requires ue < |states[n].ues| == |states[n].history|
    requires var h := states[n].history[ue];
      && i < k < |h| && h[k].Sent? && NewBlock(h[k], h[k].dci.harq) && NewBlock(h[i], h[k].dci.harq)
      && forall j :: i < j < k ==> !NewBlock(h[j], h[k].dci.harq)
    ensures var h := states[n].history[ue]; h[k].dci.ndi == 1 - h[i].dci.ndi
  {
    RunKeepsInv(t, cfg, states, events, n);
    var h := states[n].history[ue];
    assert UeInv(t, states[n].ues[ue], h, states[n].now);
    assert GoodAt(h, k);
    assert LastNew(h, h[k].dci.harq, k) == i;
  }

  /** Power changes sent with new blocks to one UE are at least ten subframes apart, also across the wrap of the
      frame number. */
  lemma PowerChangesTenApart(t: TbsTable, cfg: CellConfig, states: seq<System>, events: seq<Event>, n: nat, ue: nat,
                             i: nat, k: nat)
    requires Supported(cfg.bw) && Run(t, cfg, states, events) && n <= |events|
    requires ue < |states[n].ues| == |states[n].history|
    requires var h := states[n].history[ue]; i < k < |h| && PowerChange(h[i]) && PowerChange(h[k])
    ensures var h := states[n].history[ue]; h[k].at >= h[i].at + 10
  {
    RunKeepsInv(t, cfg, states, events, n);
    var h := states[n].history[ue];
    assert UeInv(t, states[n].ues[ue], h, states[n].now);
    assert GoodAt(h, k);
  }
}
