/** Frame and subframe arithmetic of run_central_scheduler: the slot a decision is made for, and the guard
    that spaces PUCCH power commands. */
module SlotTime {

  /** Subframes until the system frame number comes round. */
  const PERIOD: nat := 10240

  datatype Slot = Slot(frame: nat, subframe: nat)

  function Number(s: Slot): nat {
    s.frame * 10 + s.subframe
  }

  function SlotAt(t: nat): Slot {
    Slot(t / 10 % 1024, t % 10)
  }

  function TargetSlot(current: Slot, ahead: nat): Slot {
    var subframe := (current.subframe + ahead) % 10;
    var frame := if subframe < current.subframe then (current.frame + 1) % 1024 else current.frame;
    Slot((frame + ahead / 10) % 1024, subframe)
  }

  /** The target is the slot `ahead` subframes later, for any look-ahead; the four-bit subframe field could
      also carry 10..15, and then this holds exactly when the carry into the frame is a single one. */
  lemma TargetSlotIsAhead(current: Slot, ahead: nat)
    requires current.subframe < 16
    ensures Number(TargetSlot(current, ahead)) == (Number(current) + ahead) % PERIOD
       <==> current.subframe < 10 || current.subframe + ahead % 10 < 20
  {
    var f, s := current.frame, current.subframe;
    var q, r := ahead / 10, ahead % 10;
    var subframe := (s + ahead) % 10;
    var carry := (s + r) / 10;
    var coded := if subframe < s then 1 else 0;
    SplitSum(s, q, r);
    SlotOfNumber(f + q + carry, subframe);
    FrameSum(f, coded, q);
    assert Number(TargetSlot(current, ahead)) == (f + coded + q) % 1024 * 10 + subframe;
    assert coded == carry <==> s < 10 || s + r < 20;
    if coded != carry {
      FramesDiffer(f + q + coded, f + q + carry);
    }
  }

  lemma SplitSum(s: nat, q: nat, r: nat)
    requires s < 16 && r < 10
    ensures (s + (10 * q + r)) % 10 == (s + r) % 10 == s + r - 10 * ((s + r) / 10)
    ensures (s + r) / 10 <= 2
  {
    assert s + (10 * q + r) == 10 * (q + (s + r) / 10) + (s + r) % 10;
  }

  lemma SlotOfNumber(frames: nat, subframe: nat)
    requires subframe < 10
    ensures (10 * frames + subframe) % PERIOD == frames % 1024 * 10 + subframe
  {
    assert 10 * frames + subframe == PERIOD * (frames / 1024) + (frames % 1024 * 10 + subframe);
  }

  lemma FrameSum(f: nat, coded: nat, q: nat)
    ensures ((f + coded) % 1024 + q) % 1024 == (f + coded + q) % 1024
    ensures (f + q) % 1024 == (f + 0 + q) % 1024
  {
    var g := f + coded;
    assert g + q == 1024 * (g / 1024) + (g % 1024 + q);
  }

  lemma FramesDiffer(a: nat, b: nat)
    requires a - b == 1 || b - a == 1
    ensures a % 1024 != b % 1024
  {
  }

  // ---------- power commands ----------

  /** Subframes from slot number last forward to slot number t, around the frame wrap. */
  function CircularDistance(last: nat, t: nat): nat
    requires last < PERIOD && t < PERIOD
  {
    if t >= last then t - last else t + PERIOD - last
  }

  /** The condition of the scheduler. */
  predicate TpcDue(last: nat, t: nat) {
    last + 10 <= t || (last > t && PERIOD - last + t >= 10)
  }

  lemma TpcDueIffTenApart(last: nat, t: nat)
    requires last < PERIOD && t < PERIOD
    ensures TpcDue(last, t) <==> CircularDistance(last, t) >= 10
  {
  }

  /** What the scheduler knows about the uplink control power of a UE. */
  datatype PowerReport = PowerReport(updated: bool, received: int, wanted: int)

  /** Transmit power command 0, 1 or 2 (down, keep, up) and the slot of the last update. */
  function Command(last: Slot, target: Slot, p: PowerReport): (r: (nat, Slot))
    ensures r.0 <= 2
    ensures r.0 != 1 ==> r.1 == target && TpcDue(Number(last), Number(target))
    ensures r.1 == last || (r.1 == target && TpcDue(Number(last), Number(target)))
  {
    if TpcDue(Number(last), Number(target)) && p.updated then
      (if p.received > p.wanted + 1 then 0 else if p.received < p.wanted - 1 then 2 else 1, target)
    else (1, last)
  }

  function Distance(a: int, b: int): nat {
    if a >= b then a - b else b - a
  }

  /** The control law.  When a command is due and the measurement is new, a power two or more from the wanted one comes
      strictly closer with the step of tpc - 1, and otherwise the UE keeps its power; in every other case it does, too.
      The slot of the last update moves in the first case and in no other. */
  lemma CommandControls(last: Slot, target: Slot, p: PowerReport)
    ensures var (tpc, at) := Command(last, target, p);
      var acts := TpcDue(Number(last), Number(target)) && p.updated;
      && at == (if acts then target else last)
      && (if acts && Distance(p.received, p.wanted) >= 2
          then Distance(p.received + (tpc - 1), p.wanted) < Distance(p.received, p.wanted)
          else tpc == 1)
  {
  }

  /** In absolute time: a command that is due comes at least ten subframes after the last update. */
  lemma DueMeansTenLater(last: nat, t: nat)
    requires last <= t && TpcDue(Number(SlotAt(last)), Number(SlotAt(t)))
    ensures t >= last + 10
  {
    SlotAtNumber(last);
    SlotAtNumber(t);
    DueAcrossPeriods(last / PERIOD, last % PERIOD, t / PERIOD, t % PERIOD);
  }

  lemma DueAcrossPeriods(p: nat, last: nat, q: nat, t: nat)
    requires last < PERIOD && t < PERIOD && PERIOD * p + last <= PERIOD * q + t
    requires TpcDue(last, t)
    ensures PERIOD * q + t >= PERIOD * p + last + 10
  {
  }

  lemma SlotAtNumber(t: nat)
    ensures Number(SlotAt(t)) == t % PERIOD
  {
    SlotOfNumber(t / 10, t % 10);
  }

  // ---------- timing advance ----------

  const TA_PERIOD: int := 20

  /** Bytes of a timing advance command in a new block, and the timer afterwards. */
  function TaTimer(timer: int, pending: bool): (nat, int) {
    if timer == 0 then if pending then (2, TA_PERIOD) else (0, timer)
    else (0, timer - 1)
  }
}
