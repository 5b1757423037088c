// Whole-run timing: in every run of the device without auto-precharge, any two accepted
// commands keep the spacing coded for their kinds and for the relation of their banks.
module DramTiming {
  import opened Common
  import opened DramTypes
  import opened DramBank
  import opened DramDevice

  // ---------------------------------------------------------------- the spacing tables

  // Same bank: the earliest cycle of a `k2` after a `k1` accepted at t.
  function SameEarliest(p: Params, k1: Kind, k2: Kind, t: nat): nat {
    Max(t + 1, Gap(p, k1, k2, t))
  }

  function Gap(p: Params, k1: Kind, k2: Kind, t: nat): nat {
    match k1
    case ACT =>
      if k2.IsCol() then t + p.nRCD
      else if k2.PRE? then t + p.nRAS
      else t + p.nRAS + p.nRP
    case READ => AfterCol(p, k2, t, p.nCCD_L, p.nCWL + p.nBL + p.nWTR, p.nRTP)
    case WRITE => AfterCol(p, k2, t, p.nCWL + p.nBL + p.nWTR_L, p.nCCD_L, p.nCWL + p.nBL + p.nWR)
    case PRE => if k2.IsCol() then t + p.nRP + p.nRCD else t + p.nRP
    case REF => if k2.IsCol() then t + p.nRFC + p.nRCD else t + p.nRFC
    case _ => t
  }

  // After a column command: to a read, to a write, and to the precharge that frees the bank.
  function AfterCol(p: Params, k2: Kind, t: nat, rd: nat, wr: nat, pre: nat): nat {
    match k2
    case READ => t + rd
    case READA => t + rd
    case WRITE => t + wr
    case WRITEA => t + wr
    case PRE => t + pre
    case _ => t + pre + p.nRP
  }

  // Different banks of one channel, by relation (0: the source codes no spacing).
  function CrossEarliest(p: Params, rel: Rel, k1: Kind, k2: Kind, t: nat): int {
    var burst := Max(p.nBL, Min(p.nCCD_S, p.nCCD_L));
    match rel
    case SameGroup =>
      if k1.ACT? && k2.ACT? then t + p.nRRD_L
      else ColSpacing(k1, k2, t, Max(p.nCCD_L, p.nBL), p.nCL + p.nBL + p.nRTW - p.nCWL,
                      p.nCWL + p.nBL + p.nWTR_L, Max(p.nCCD_L, p.nBL))
    case SameRank =>
      if k1.ACT? && k2.ACT? then t + p.nRRD_S
      else ColSpacing(k1, k2, t, Max(p.nCCD_S, p.nBL), p.nCL + p.nBL + p.nRTW - p.nCWL,
                      p.nCWL + p.nBL + p.nWTR_S, Max(p.nCCD_S, p.nBL))
    case SameChannel =>
      ColSpacing(k1, k2, t, burst + p.nERTR, p.nCL + burst + p.nERTW - p.nCWL,
                 p.nCWL + burst + p.nEWTR - p.nCL, burst + p.nEWTW)
    case _ => 0
  }

  function ColSpacing(k1: Kind, k2: Kind, t: nat, rr: int, rw: int, wr: int, ww: int): int {
    if !k1.IsCol() || !k2.IsCol() then 0
    else if k1.READ? || k1.READA? then t + (if k2.READ? || k2.READA? then rr else rw)
    else t + (if k2.READ? || k2.READA? then wr else ww)
  }

  function Earliest(p: Params, rel: Rel, k1: Kind, k2: Kind, t: nat): int {
    if rel.SameBank? then SameEarliest(p, k1, k2, t) else CrossEarliest(p, rel, k1, k2, t)
  }

  ghost predicate NoAuto(trace: seq<Event>) {
    forall e :: e in trace ==> !e.cmd.kind.IsAuto()
  }

  // Every later event respects the spacing from every earlier one, adjacent or not.
  ghost predicate Spaced(p: Params, t: Topology, trace: seq<Event>) {
    forall i, j :: 0 <= i < j < |trace| ==>
      Earliest(p, t.Relate(trace[i].cmd.bank, trace[j].cmd.bank),
               trace[i].cmd.kind, trace[j].cmd.kind, trace[i].cycle) <= trace[j].cycle
  }

  // ---------------------------------------------------------------- the floor of a bank

  // A lower bound on the first cycle at which a bank, left to itself from cycle `now`
  // on, can accept a `k`. It never decreases.
  function Floor(p: Params, b: Bank, now: nat, k: Kind): nat {
    Max(if Accepts(b.st, k) then now else now + 1, StateFloor(p, b, now, k))
  }

  function StateFloor(p: Params, b: Bank, now: nat, k: Kind): nat {
    if RowState(b.st) then Using(p, b.next, b.last, b.st.received, k)
    else if RowOpening(b.st) then Opening(p, b.next, b.last.act, k)
    else if b.st.ReadingA? || b.st.WritingA? then 0
    else Closing(p, b.next, IdleAt(p, b, now), k)
  }

  // The bank holds an ACT it has not opened the row for yet.
  predicate RowOpening(st: BankState) {
    st.Activating? || (st.Idle? && st.received.Some? && st.received.value.kind.ACT?)
  }

  // When a bank without an open row is idle again.
  function IdleAt(p: Params, b: Bank, now: nat): nat {
    match b.st
    case Idle(_, Some(c)) => if c.kind.PRE? then b.last.pre + p.nRP else b.last.ref + p.nRFC
    case Precharging(t) => now + t + 1
    case Refreshing(t) => now + t + 1
    case _ => 0
  }

  // The bank is, or is about to be, idle: not before cycle `idleAt`.
  function Closing(p: Params, n: Cycles, idleAt: nat, k: Kind): nat {
    if k.IsCol() then Max(n.At(k), Max(n.act, idleAt) + p.nRCD) else Max(n.At(k), idleAt)
  }

  // A row is open, and can be precharged from cycle `pre` and column-accessed from `col` on.
  function Opened(p: Params, n: Cycles, pre: nat, col: nat, k: Kind): nat {
    if k.IsCol() then Max(n.At(k), col)
    else if k.PRE? then Max(n.pre, pre)
    else Max(n.At(k), Max(n.pre, pre) + p.nRP)
  }

  // A row is being opened by the ACT of cycle `a`.
  function Opening(p: Params, n: Cycles, a: nat, k: Kind): nat {
    Opened(p, n, a + p.nRAS, a + p.nRCD, k)
  }

  // A row is open; `r` is the command the state holds.
  function Using(p: Params, n: Cycles, last: Cycles, r: Option<Cmd>, k: Kind): nat {
    match r
    case None => Opened(p, n, 0, 0, k)
    case Some(c) =>
      if c.kind.PRE? then Closing(p, n, last.pre + p.nRP, k)
      else Opened(p, n, Gap(p, c.kind, PRE, last.At(c.kind)), Gap(p, c.kind, k, last.At(c.kind)), k)
  }

  // What the states maintain about their timers and last-command cycles.
  predicate Timed(b: Bank, now: nat) {
    match b.st
    case Idle(t, Some(c)) =>
      && t == 1 && (c.kind.ACT? || c.kind.PRE? || c.kind.REF?) && b.last.At(c.kind) == now
      && (c.kind.REF? ==> b.next.ref <= now)
    case Activating(t, _) => t == 0 && b.last.act + 1 == now
    case Active(_, Some(c)) => Holds(b, c, now)
    case Reading(_, _, Some(c)) => Holds(b, c, now)
    case Writing(_, _, Some(c)) => Holds(b, c, now)
    case ReadingA(_, _) => false
    case WritingA(_, _) => false
    case _ => true
  }

  predicate Holds(b: Bank, c: Cmd, now: nat) {
    (c.kind.READ? || c.kind.WRITE? || c.kind.PRE?) && b.last.At(c.kind) <= now
  }

  ghost predicate Above(c: Cycles, d: Cycles) {
    c.act <= d.act && c.read <= d.read && c.reada <= d.reada && c.write <= d.write &&
    c.writea <= d.writea && c.pre <= d.pre && c.ref <= d.ref
  }

  lemma FloorAtLeastNext(p: Params, b: Bank, now: nat, k: Kind)
    requires Timed(b, now)
    ensures b.next.At(k) <= Floor(p, b, now, k)
  {}

  lemma FloorOfAccepted(p: Params, b: Bank, now: nat, k: Kind)
    requires Allowed(b, k, now)
    ensures Floor(p, b, now, k) <= now
  {}

  lemma AboveAt(c: Cycles, d: Cycles, k: Kind)
    requires Above(c, d)
    ensures c.At(k) <= d.At(k)
  {}

  lemma ClosingMonotone(p: Params, n: Cycles, n': Cycles, x: nat, x': nat, k: Kind)
    requires n.At(k) <= n'.At(k) && n.act <= n'.act && x <= x'
    ensures Closing(p, n, x, k) <= Closing(p, n', x', k)
  {}

  lemma OpenedMonotone(p: Params, n: Cycles, n': Cycles, pre: nat, col: nat, k: Kind)
    requires n.At(k) <= n'.At(k) && n.pre <= n'.pre
    ensures Opened(p, n, pre, col, k) <= Opened(p, n', pre, col, k)
  {}

  // The floor of two banks compares as soon as their state floors do.
  lemma FloorFromState(p: Params, b: Bank, now: nat, b': Bank, now': nat, k: Kind)
    requires now < now' || (now == now' && (Accepts(b'.st, k) ==> Accepts(b.st, k)))
    requires StateFloor(p, b, now, k) <= StateFloor(p, b', now', k)
    ensures Floor(p, b, now, k) <= Floor(p, b', now', k)
  {}

  lemma FloorMonotone(p: Params, b: Bank, b': Bank, now: nat, k: Kind)
    requires Above(b.next, b'.next) && b'.st == b.st && b'.last == b.last
    ensures Floor(p, b, now, k) <= Floor(p, b', now, k)
  {
    FloorFromState(p, b, now, b', now, k) by { StateFloorMonotone(p, b, b', now, k); }
  }

  lemma StateFloorMonotone(p: Params, b: Bank, b': Bank, now: nat, k: Kind)
    requires Above(b.next, b'.next) && b'.st == b.st && b'.last == b.last
    ensures StateFloor(p, b, now, k) <= StateFloor(p, b', now, k)
  {
    hide Closing, Opened, Gap;
    AboveAt(b.next, b'.next, k);
    var a := b.last.act;
    OpenedMonotone(p, b.next, b'.next, a + p.nRAS, a + p.nRCD, k);
    OpenedMonotone(p, b.next, b'.next, 0, 0, k);
    ClosingMonotone(p, b.next, b'.next, IdleAt(p, b, now), IdleAt(p, b', now), k);
    if RowState(b.st) && b.st.received.Some? {
      var c := b.st.received.value;
      OpenedMonotone(p, b.next, b'.next, Gap(p, c.kind, PRE, b.last.At(c.kind)), Gap(p, c.kind, k, b.last.At(c.kind)), k);
      ClosingMonotone(p, b.next, b'.next, b.last.pre + p.nRP, b.last.pre + p.nRP, k);
    }
  }

  // ---------------------------------------------------------------- one clock, state by state

  lemma TickIdle(p: Params, b: Bank, now: nat, k: Kind)
    requires Timed(b, now) && b.st.Idle?
    ensures Timed(Tick(p, b, now + 1), now + 1)
    ensures Floor(p, b, now, k) <= Floor(p, Tick(p, b, now + 1), now + 1, k)
  {
    hide Closing, Opened, Floor;
    var b' := Tick(p, b, now + 1);
    assert Above(b.next, b'.next) && b'.last == b.last;
    AboveAt(b.next, b'.next, k);
    if !RowOpening(b.st) {
      ClosingMonotone(p, b.next, b'.next, IdleAt(p, b, now), IdleAt(p, b', now + 1), k);
    }
    FloorFromState(p, b, now, b', now + 1, k);
  }

  lemma TickActivating(p: Params, b: Bank, now: nat, k: Kind)
    requires Timed(b, now) && b.st.Activating?
    ensures Timed(Tick(p, b, now + 1), now + 1)
    ensures Floor(p, b, now, k) <= Floor(p, Tick(p, b, now + 1), now + 1, k)
  {
    hide Closing, Opened, Floor;
    var b' := Tick(p, b, now + 1);
    assert Above(b.next, b'.next) && b'.last == b.last;
    AboveAt(b.next, b'.next, k);
    assert b.last.act + p.nRAS <= b'.next.pre;
    assert k.IsCol() ==> b.last.act + p.nRCD <= b'.next.At(k);
    OpenedSettled(p, b.next, b'.next, b.last.act + p.nRAS, b.last.act + p.nRCD, k);
    FloorFromState(p, b, now, b', now + 1, k);
  }

  // Once the next-command cycles have absorbed what was pending, the plain bound is as high.
  lemma OpenedSettled(p: Params, n: Cycles, n': Cycles, pre: nat, col: nat, k: Kind)
    requires n.At(k) <= n'.At(k) && n.pre <= n'.pre
    requires pre <= n'.pre && (k.IsCol() ==> col <= n'.At(k))
    ensures Opened(p, n, pre, col, k) <= Opened(p, n', 0, 0, k)
  {}

  // Handing over from an open-row state, once its timers have run out.
  lemma HandOver(p: Params, b: Bank, c: Cmd, now: nat, k: Kind)
    requires RowState(b.st) && b.st.received == Some(c) && Holds(b, c, now)
    ensures Timed(EnterNext(p, b, c, now + 1), now + 1)
    ensures Floor(p, b, now, k) <= Floor(p, EnterNext(p, b, c, now + 1), now + 1, k)
  {
    hide Closing, Opened, Gap, Floor;
    var b' := EnterNext(p, b, c, now + 1);
    if c.kind.PRE? {
      ClosingMonotone(p, b.next, b'.next, b.last.pre + p.nRP, IdleAt(p, b', now + 1), k);
    } else {
      HandOverNext(p, b, c, now + 1, k);
      OpenedSettled(p, b.next, b'.next, Gap(p, c.kind, PRE, b.last.At(c.kind)), Gap(p, c.kind, k, b.last.At(c.kind)), k);
    }
    FloorFromState(p, b, now, b', now + 1, k);
  }

  // Entering the read or write state absorbs the spacing of the command that caused it.
  lemma HandOverNext(p: Params, b: Bank, c: Cmd, cycle: nat, k: Kind)
    requires c.kind.READ? || c.kind.WRITE?
    ensures var b' := EnterNext(p, b, c, cycle);
            && b.next.At(k) <= b'.next.At(k) && b.next.pre <= b'.next.pre
            && Gap(p, c.kind, PRE, b.last.At(c.kind)) <= b'.next.pre
            && (k.IsCol() ==> Gap(p, c.kind, k, b.last.At(c.kind)) <= b'.next.At(k))
  {}

  // An open-row state that only counts down keeps its floor.
  lemma TickOpen(p: Params, b: Bank, now: nat, k: Kind)
    requires Timed(b, now) && RowState(b.st)
    ensures Timed(Tick(p, b, now + 1), now + 1)
    ensures Floor(p, b, now, k) <= Floor(p, Tick(p, b, now + 1), now + 1, k)
  {
    hide Using, Floor, EnterNext, ReadExit, WriteExit;
    var b' := Tick(p, b, now + 1);
    if b.st.received.Some? && b' == EnterNext(p, b, b.st.received.value, now + 1) {
      HandOver(p, b, b.st.received.value, now, k);
    } else {
      assert RowState(b'.st) && b'.st.received == b.st.received && b'.next == b.next && b'.last == b.last;
      FloorFromState(p, b, now, b', now + 1, k);
    }
  }

  lemma TickClosing(p: Params, b: Bank, now: nat, k: Kind)
    requires b.st.Precharging? || b.st.Refreshing?
    ensures Timed(Tick(p, b, now + 1), now + 1)
    ensures Floor(p, b, now, k) <= Floor(p, Tick(p, b, now + 1), now + 1, k)
  {
    hide Floor, Closing;
    var b' := Tick(p, b, now + 1);
    if b.st.timer == 0 {
      ClosingSettled(p, b.next, b'.next, now + 1, k);
    }
    FloorFromState(p, b, now, b', now + 1, k);
  }

  lemma ClosingSettled(p: Params, n: Cycles, n': Cycles, idleAt: nat, k: Kind)
    requires n' == n.(act := Max(n.act, idleAt), ref := Max(n.ref, idleAt), pre := Max(n.pre, idleAt))
    ensures Closing(p, n, idleAt, k) <= Closing(p, n', 0, k)
  {}

  lemma TickRaisesFloor(p: Params, b: Bank, now: nat, k: Kind)
    requires Timed(b, now)
    ensures Timed(Tick(p, b, now + 1), now + 1)
    ensures Floor(p, b, now, k) <= Floor(p, Tick(p, b, now + 1), now + 1, k)
  {
    hide Tick, Floor;
    if b.st.Idle? { TickIdle(p, b, now, k); }
    else if b.st.Activating? { TickActivating(p, b, now, k); }
    else if RowState(b.st) { TickOpen(p, b, now, k); }
    else { TickClosing(p, b, now, k); }
  }

  // ---------------------------------------------------------------- accepting a command

  lemma ClosingThenAct(p: Params, n: Cycles, now: nat, k: Kind)
    requires n.act <= now
    ensures Closing(p, n, 0, k) <= Opening(p, n, now, k)
    ensures Gap(p, ACT, k, now) <= Opening(p, n, now, k)
  {}

  lemma ThenClosing(p: Params, n: Cycles, now: nat, c: Kind, k: Kind)
    requires c.PRE? || c.REF?
    ensures Gap(p, c, k, now) <= Closing(p, n, if c.PRE? then now + p.nRP else now + p.nRFC, k)
    ensures n.pre <= now && c.PRE? ==> Opened(p, n, 0, 0, k) <= Closing(p, n, now + p.nRP, k)
  {}

  lemma ThenCol(p: Params, n: Cycles, now: nat, c: Kind, k: Kind)
    requires c.READ? || c.WRITE?
    ensures Opened(p, n, 0, 0, k) <= Opened(p, n, Gap(p, c, PRE, now), Gap(p, c, k, now), k)
    ensures Gap(p, c, k, now) <= Opened(p, n, Gap(p, c, PRE, now), Gap(p, c, k, now), k)
  {}

  lemma HandleRaisesFloor(p: Params, b: Bank, c: Cmd, now: nat, k: Kind)
    requires Timed(b, now) && Allowed(b, c.kind, now) && !c.kind.IsAuto()
    ensures Timed(Handle(b, c, now), now)
    ensures Floor(p, b, now, k) <= Floor(p, Handle(b, c, now), now, k)
    ensures SameEarliest(p, c.kind, k, now) <= Floor(p, Handle(b, c, now), now, k)
  {
    hide Floor, Closing, Opened, Opening, Gap, Handle, Timed;
    var b' := Handle(b, c, now);
    HandleHolds(b, c, now, k);
    if c.kind.ACT? {
      ClosingThenAct(p, b.next, now, k);
    } else if c.kind.PRE? || c.kind.REF? {
      ThenClosing(p, b.next, now, c.kind, k);
      ClosingMonotone(p, b.next, b.next, 0, if c.kind.PRE? then now + p.nRP else now + p.nRFC, k);
    } else {
      ThenCol(p, b.next, now, c.kind, k);
    }
    FloorFromState(p, b, now, b', now, k);
    FloorBounds(p, b', now, k);
  }

  lemma HandleHolds(b: Bank, c: Cmd, now: nat, k: Kind)
    requires Allowed(b, c.kind, now)
    ensures var b' := Handle(b, c, now);
            && b'.next == b.next && b'.last.At(c.kind) == now && !Accepts(b'.st, k)
            && (b.st.Idle? ==> b'.st == Idle(1, Some(c)))
            && (RowState(b.st) ==> RowState(b'.st) && b'.st.received == Some(c))
            && (Timed(b, now) && !c.kind.IsAuto() ==> Timed(b', now))
  {}

  lemma FloorBounds(p: Params, b: Bank, now: nat, k: Kind)
    ensures StateFloor(p, b, now, k) <= Floor(p, b, now, k)
    ensures !Accepts(b.st, k) ==> now + 1 <= Floor(p, b, now, k)
  {}

  lemma PushRaisesFloor(p: Params, rel: Rel, b: Bank, c: Kind, now: nat, k: Kind)
    requires Timed(b, now) && !rel.SameBank?
    ensures Timed(Push(p, rel, b, c, now), now)
    ensures Floor(p, b, now, k) <= Floor(p, Push(p, rel, b, c, now), now, k)
    ensures CrossEarliest(p, rel, c, k, now) <= Floor(p, Push(p, rel, b, c, now), now, k)
  {
    var b' := Push(p, rel, b, c, now);
    PushRaisesNext(p, rel, b, c, now, k);
    FloorMonotone(p, b, b', now, k);
    FloorAtLeastNext(p, b', now, k);
  }

  lemma PushRaisesNext(p: Params, rel: Rel, b: Bank, c: Kind, now: nat, k: Kind)
    requires !rel.SameBank?
    ensures var b' := Push(p, rel, b, c, now);
            && Above(b.next, b'.next) && b' == b.(next := b'.next) && b'.next.ref == b.next.ref
            && CrossEarliest(p, rel, c, k, now) <= b'.next.At(k)
  {
    hide Push, CrossEarliest;
    if c.ACT? { PushActRaises(p, rel, b, now, k); } else { PushOtherRaises(p, rel, b, c, now, k); }
  }

  lemma PushOtherRaises(p: Params, rel: Rel, b: Bank, c: Kind, now: nat, k: Kind)
    requires !rel.SameBank? && !c.ACT?
    ensures var b' := Push(p, rel, b, c, now);
            && Above(b.next, b'.next) && b' == b.(next := b'.next) && b'.next.ref == b.next.ref
            && CrossEarliest(p, rel, c, k, now) <= b'.next.At(k)
  {
    hide PushCol, ColSpacing;
    var burst := Max(p.nBL, Min(p.nCCD_S, p.nCCD_L));
    match rel {
      case SameGroup =>
        PushColRaises(p, b, c, k, now, Max(p.nCCD_L, p.nBL), p.nCL + p.nBL + p.nRTW - p.nCWL,
                      p.nCWL + p.nBL + p.nWTR_L, Max(p.nCCD_L, p.nBL),
                      Sub64(now + p.nCL + p.nBL + p.nRTW, p.nCWL), now + p.nCWL + p.nBL + p.nWTR_L);
      case SameRank =>
        PushColRaises(p, b, c, k, now, Max(p.nCCD_S, p.nBL), p.nCL + p.nBL + p.nRTW - p.nCWL,
                      p.nCWL + p.nBL + p.nWTR_S, Max(p.nCCD_S, p.nBL),
                      Sub64(now + p.nCL + p.nBL + p.nRTW, p.nCWL), now + p.nCWL + p.nBL + p.nWTR_S);
      case SameChannel =>
        PushColRaises(p, b, c, k, now, burst + p.nERTR, p.nCL + burst + p.nERTW - p.nCWL,
                      p.nCWL + burst + p.nEWTR - p.nCL, burst + p.nEWTW,
                      Sub64(now + p.nCL + burst + p.nERTW, p.nCWL), Sub64(now + p.nCWL + burst + p.nEWTR, p.nCL));
      case _ =>
    }
  }

  lemma PushActRaises(p: Params, rel: Rel, b: Bank, now: nat, k: Kind)
    requires !rel.SameBank?
    ensures var b' := Push(p, rel, b, ACT, now);
            && Above(b.next, b'.next) && b' == b.(next := b'.next) && b'.next.ref == b.next.ref
            && CrossEarliest(p, rel, ACT, k, now) <= b'.next.At(k)
  {}

  // `rw` and `wr` are the pushed cycles; a wrapped subtraction only makes them later.
  lemma PushColRaises(p: Params, b: Bank, c: Kind, k: Kind, t: nat, drr: nat, drw: int, dwr: int, dww: nat, rw: nat, wr: nat)
    requires t + drw <= rw && t + dwr <= wr
    ensures var b' := PushCol(p, b, c, t + drr, rw, wr, t + dww);
            && Above(b.next, b'.next) && b' == b.(next := b'.next) && b'.next.ref == b.next.ref
            && ColSpacing(c, k, t, drr, drw, dwr, dww) <= b'.next.At(k)
  {}

  // ---------------------------------------------------------------- every run

  // Each accepted command bounds the floor of every bank for every kind from below.
  ghost predicate Bounded(p: Params, t: Topology, d: Device, e: Event) {
    && e.cycle <= d.now
    && forall i, k :: 0 <= i < |d.banks| ==>
         Earliest(p, t.Relate(e.cmd.bank, i), e.cmd.kind, k, e.cycle) <= Floor(p, d.banks[i], d.now, k)
  }

  // The timing invariant, claimed for runs without auto-precharge.
  ghost predicate TimingInv(p: Params, t: Topology, d: Device) {
    && Fits(t, d)
    && (NoAuto(d.trace) ==>
          && (forall i :: 0 <= i < |d.banks| ==> Timed(d.banks[i], d.now))
          && (forall e :: e in d.trace ==> Bounded(p, t, d, e))
          && Spaced(p, t, d.trace))
  }

  lemma InitialTiming(p: Params, t: Topology)
    ensures TimingInv(p, t, InitialDevice(t))
  {}

  // A clock keeps the bounds: every floor only rises.
  lemma TickTiming(p: Params, t: Topology, d: Device)
    requires TimingInv(p, t, d)
    ensures TimingInv(p, t, DevTick(p, d))
  {
    hide Timed, Floor, Tick, Earliest, Spaced;
    var d' := DevTick(p, d);
    if NoAuto(d.trace) {
      forall i | 0 <= i < |d.banks| ensures Timed(d'.banks[i], d'.now) {
        TickRaisesFloor(p, d.banks[i], d.now, ACT);
      }
      forall e | e in d'.trace ensures Bounded(p, t, d', e) {
        assert Bounded(p, t, d, e);
        forall i, k | 0 <= i < |d'.banks|
          ensures Earliest(p, t.Relate(e.cmd.bank, i), e.cmd.kind, k, e.cycle) <= Floor(p, d'.banks[i], d'.now, k)
        {
          TickRaisesFloor(p, d.banks[i], d.now, k);
        }
      }
    }
  }

  // An accepted command keeps the old bounds and adds its own.
  lemma SendTiming(p: Params, t: Topology, d: Device, c: Cmd)
    requires TimingInv(p, t, d) && CanSend(d, c)
    ensures TimingInv(p, t, DevSend(p, t, d, c))
  {
    hide Timed, Floor, Handle, Push, Earliest, SameEarliest, CrossEarliest, Spaced;
    var d' := DevSend(p, t, d, c);
    var e' := d'.trace[|d.trace|];
    assert d.trace <= d'.trace;
    assert forall e :: e in d'.trace ==> e in d.trace || e == e';
    if NoAuto(d'.trace) {
      assert forall e :: e in d.trace ==> e in d'.trace;
      assert NoAuto(d.trace) && !c.kind.IsAuto() by { assert e' in d'.trace; }
      forall i | 0 <= i < |d.banks| ensures Timed(d'.banks[i], d'.now) {
        SendRaisesFloor(p, t, d, c, i, ACT);
      }
      forall e | e in d'.trace ensures Bounded(p, t, d', e) {
        assert e in d.trace ==> Bounded(p, t, d, e);
        forall i, k | 0 <= i < |d'.banks|
          ensures Earliest(p, t.Relate(e.cmd.bank, i), e.cmd.kind, k, e.cycle) <= Floor(p, d'.banks[i], d'.now, k)
        {
          SendRaisesFloor(p, t, d, c, i, k);
        }
      }
      SpacedExtends(p, t, d, c);
    }
  }

  lemma SendRaisesFloor(p: Params, t: Topology, d: Device, c: Cmd, i: nat, k: Kind)
    requires Fits(t, d) && CanSend(d, c) && !c.kind.IsAuto() && i < |d.banks| && Timed(d.banks[i], d.now)
    ensures var d' := DevSend(p, t, d, c);
            && Timed(d'.banks[i], d.now)
            && Floor(p, d.banks[i], d.now, k) <= Floor(p, d'.banks[i], d.now, k)
            && Earliest(p, t.Relate(c.bank, i), c.kind, k, d.now) <= Floor(p, d'.banks[i], d.now, k)
  {
    hide Timed, Floor, Handle, Push, SameEarliest, CrossEarliest;
    if i == c.bank {
      HandleRaisesFloor(p, d.banks[i], c, d.now, k);
    } else {
      PushRaisesFloor(p, t.Relate(c.bank, i), d.banks[i], c.kind, d.now, k);
    }
  }

  // The accepting bank's floor is the current cycle, so all earlier bounds have passed.
  lemma SpacedExtends(p: Params, t: Topology, d: Device, c: Cmd)
    requires TimingInv(p, t, d) && CanSend(d, c) && NoAuto(d.trace)
    ensures Spaced(p, t, d.trace + [Event(d.now, c, d.banks[c.bank].rowOpen, d.banks[c.bank].openRow)])
  {
    hide Timed, Floor, Earliest;
    var trace := d.trace + [Event(d.now, c, d.banks[c.bank].rowOpen, d.banks[c.bank].openRow)];
    forall i, j | 0 <= i < j < |trace|
      ensures Earliest(p, t.Relate(trace[i].cmd.bank, trace[j].cmd.bank),
                       trace[i].cmd.kind, trace[j].cmd.kind, trace[i].cycle) <= trace[j].cycle
    {
      assert trace[i] == d.trace[i] && trace[i] in d.trace;
      if j < |d.trace| {
        assert trace[j] == d.trace[j];
      } else {
        assert Bounded(p, t, d, trace[i]);
        FloorOfAccepted(p, d.banks[c.bank], d.now, c.kind);
      }
    }
  }

  // Main result: whatever the environment offers and whenever, every pair of accepted
  // commands keeps the coded spacing.
  lemma {:induction false} EveryRunIsSpaced(p: Params, t: Topology, acts: seq<Act>)
    ensures TimingInv(p, t, DevRun(p, t, acts))
  {
    if |acts| == 0 {
      InitialTiming(p, t);
    } else {
      var d := DevRun(p, t, acts[..|acts| - 1]);
      EveryRunIsSpaced(p, t, acts[..|acts| - 1]);
      match acts[|acts| - 1] {
        case Clock => TickTiming(p, t, d);
        case Offer(c) => if CanSend(d, c) { SendTiming(p, t, d, c); }
      }
    }
  }
}
