// One bank of the device: the state objects of the source folded into a datatype,
// the per-cycle step, and the acceptance and handling of commands.
module DramBank {
  import opened Common
  import opened DramTypes

  // `received` is the command a state holds until it hands over to the next state.
  datatype BankState =
    | Idle(timer: nat, received: Option<Cmd>)
    | Activating(timer: nat, cmd: Cmd)
    | Active(timer: nat, received: Option<Cmd>)
    | Reading(timer: nat, timerExit: nat, received: Option<Cmd>)
    | Writing(timer: nat, timerExit: nat, received: Option<Cmd>)
    | ReadingA(timerEnter: nat, timerExit: nat)
    | WritingA(timerEnter: nat, timerExit: nat)
    | Precharging(timer: nat)
    | Refreshing(timer: nat)

  datatype Bank = Bank(st: BankState, rowOpen: bool, openRow: nat, last: Cycles, next: Cycles)

  const INITIAL: Bank := EnterIdle(Bank(Idle(0, None), false, 0, ZeroCycles(), ZeroCycles()), 0)

  // Bank states in which a column command may be accepted.
  predicate RowState(st: BankState) { st.Active? || st.Reading? || st.Writing? }

  // The command kinds a state accepts, and only while it holds no command.
  predicate Accepts(st: BankState, k: Kind) {
    match st
    case Idle(_, r) => r.None? && (k.ACT? || k.REF? || k.PRE?)
    case Active(_, r) => r.None? && (k.IsCol() || k.PRE?)
    case Reading(_, _, r) => r.None? && (k.IsCol() || k.PRE?)
    case Writing(_, _, r) => r.None? && (k.IsCol() || k.PRE?)
    case _ => false
  }

  predicate Allowed(b: Bank, k: Kind, cycle: nat) {
    Accepts(b.st, k) && b.next.At(k) <= cycle
  }

  // A state stores an accepted command and notes its cycle.
  function Handle(b: Bank, c: Cmd, cycle: nat): Bank
    requires Accepts(b.st, c.kind)
  {
    var last := b.last.With(c.kind, cycle);
    match b.st
    case Idle(_, _) => b.(st := Idle(1, Some(c)), last := last)
    case Active(t, _) => b.(st := Active(t, Some(c)), last := last)
    case Reading(t, e, _) => b.(st := Reading(t, e, Some(c)), last := last)
    case Writing(t, e, _) => b.(st := Writing(t, e, Some(c)), last := last)
  }

  function EnterIdle(b: Bank, cycle: nat): Bank {
    b.(st := Idle(0, None), rowOpen := false,
       next := b.next.(act := Max(b.next.act, cycle))
                     .(ref := Max(b.next.ref, cycle))
                     .(pre := Max(b.next.pre, cycle)))
  }

  function EnterActivating(b: Bank, c: Cmd): Bank {
    b.(st := Activating(0, c), rowOpen := true, openRow := c.row)
  }

  function EnterActive(p: Params, b: Bank, c: Cmd, cycle: nat): Bank {
    var col := Sub64(cycle + p.nRCD, 2);
    b.(st := Active(Sub32(p.nCCD_L, 2), None), rowOpen := true, openRow := c.row,
       next := b.next.(read := Max(b.next.read, col))
                     .(reada := Max(b.next.reada, col))
                     .(write := Max(b.next.write, col))
                     .(writea := Max(b.next.writea, col))
                     .(pre := Max(b.next.pre,
                                 Max(b.last.act + p.nRAS,
                                     Max(b.last.write + p.nWR, b.last.read + p.nRTP)))))
  }

  function EnterReading(p: Params, b: Bank): Bank {
    var rd := b.last.read + p.nCCD_L;
    var wr := b.last.read + p.nCWL + p.nBL + p.nWTR;
    b.(st := Reading(Sub32(if p.nCCD_L < p.nBL then p.nBL else p.nCCD_L, 1), 0, None),
       next := b.next.(read := Max(b.next.read, rd))
                     .(reada := Max(b.next.reada, rd))
                     .(write := Max(b.next.write, wr))
                     .(writea := Max(b.next.writea, wr))
                     .(pre := Max(b.next.pre,
                                 Max(b.last.act + p.nRAS,
                                     Max(b.last.reada + p.nRTP, b.last.read + p.nRTP)))))
  }

  function EnterWriting(p: Params, b: Bank): Bank {
    var rd := b.last.write + p.nCWL + p.nBL + p.nWTR_L;
    var wr := b.last.write + p.nCCD_L;
    b.(st := Writing(Max(p.nCCD_L, p.nBL), 0, None),
       next := b.next.(read := Max(b.next.read, rd))
                     .(reada := Max(b.next.reada, rd))
                     .(write := Max(b.next.write, wr))
                     .(writea := Max(b.next.writea, wr))
                     .(pre := Max(b.next.pre,
                                 Max(b.last.act + p.nRAS,
                                     Max(b.last.writea + p.nCWL + p.nBL + p.nWR,
                                         b.last.write + p.nCWL + p.nBL + p.nWR)))))
  }

  function EnterReadingA(p: Params, b: Bank, cycle: nat): Bank {
    var last := b.last.(reada := cycle);
    var rd := last.read + p.nCCD_L;
    var wr := last.read + p.nCWL + p.nBL + p.nWTR;
    b.(st := ReadingA(Sub32(if p.nCCD_L < p.nBL then p.nBL else p.nCCD_L, 1), 0),
       last := last,
       next := b.next.(read := Sub64(Max(b.next.read, rd), 1))
                     .(reada := Sub64(Max(b.next.reada, rd), 1))
                     .(write := Sub64(Max(b.next.write, wr), 1))
                     .(writea := Sub64(Max(b.next.writea, wr), 1))
                     .(pre := Sub64(Max(b.next.pre,
                                       Max(last.act + p.nRAS,
                                           Max(last.reada + p.nRTP, last.read + p.nRTP))), 1)))
  }

  function EnterWritingA(p: Params, b: Bank, cycle: nat): Bank {
    var last := b.last.(writea := cycle);
    var rec := p.nCWL + p.nBL + p.nWR;
    b.(st := WritingA(Sub32(if p.nCCD_L < p.nBL then p.nBL else p.nCCD_L, 1), 0),
       last := last,
       next := b.next.(read := Sub64(Max(b.next.read, last.write) + rec, p.nCL))
                     .(reada := Sub64(Max(b.next.reada, last.write) + rec, p.nCL))
                     .(write := Max(b.next.write, cycle + p.nCCD_L))
                     .(pre := Max(b.next.pre,
                                 Max(Sub64(last.act + p.nRAS, 2),
                                     Max(last.write, Sub64(last.read + p.nRTP, 2)))))
                     .(writea := Sub64(Max(b.next.act + p.nRAS, cycle + rec), 2)))
  }

  function EnterPrecharging(p: Params, b: Bank): Bank {
    b.(st := Precharging(Sub32(p.nRP, 2)), rowOpen := false)
  }

  function EnterRefreshing(p: Params, b: Bank, cycle: nat): Bank {
    b.(st := Refreshing(Sub32(p.nRFC, 2)),
       next := b.next.(ref := Sub64(Max(Sub64(b.next.ref + p.nREFI, 1), cycle + p.nREFI), 1)))
  }

  // The state a held column or precharge command leads to.
  function EnterNext(p: Params, b: Bank, c: Cmd, cycle: nat): Bank {
    match c.kind
    case READ => EnterReading(p, b)
    case WRITE => EnterWriting(p, b)
    case READA => EnterReadingA(p, b, cycle)
    case WRITEA => EnterWritingA(p, b, cycle)
    case PRE => EnterPrecharging(p, b)
    case _ => b
  }

  // Cycles the read state still waits before it hands over (0 or 1: none).
  function ReadExit(p: Params, b: Bank, k: Kind, cycle: nat): nat {
    var since := b.last.read;
    match k
    case WRITE =>
      if cycle > since then (if cycle - since < p.nRTW then p.nRTW - (cycle - since) else 0)
      else p.nRTW
    case PRE =>
      if cycle > since then (if cycle - since < p.nRTP then p.nRTP - (cycle - since) else 0)
      else Sub32(p.nRTP, 1)
    case _ => 0
  }

  // The same for the write state.
  function WriteExit(p: Params, b: Bank, k: Kind, cycle: nat): nat {
    match k
    case READ =>
      var rec := p.nWR + p.nWTR;
      var since := b.last.write + rec;
      if cycle > since then (if cycle - since < rec then rec - (cycle - since) else 0) else rec
    case PRE =>
      var since := b.last.write + p.nWR;
      if cycle > since then (if cycle - since < p.nWR then p.nWR - (cycle - since) else 0) else p.nWR
    case _ => 0
  }

  // The read and write states have no case for an auto-precharge command they
  // hold: the simulation ends there with a fatal error.
  predicate TickFatal(b: Bank) {
    match b.st
    case Reading(t, e, Some(c)) => t == 0 && e == 0 && c.kind.IsAuto()
    case Writing(t, e, Some(c)) => t == 0 && e == 0 && c.kind.IsAuto()
    case _ => false
  }

  // One clock of a bank (unchanged where the source has ended the simulation).
  function Tick(p: Params, b: Bank, cycle: nat): Bank {
    if TickFatal(b) then b else
    match b.st
    case Idle(t, r) =>
      var t' := if 2 < t then t - 1 else Sub64(t, 1);
      if 2 < t || t' == 1 || r.None? then b.(st := Idle(t', r))
      else if r.value.kind.ACT? then EnterActivating(b, r.value)
      else if r.value.kind.REF? then EnterRefreshing(p, b, cycle)
      else EnterPrecharging(p, b)
    case Activating(t, c) =>
      if 0 < t then b.(st := Activating(t - 1, c)) else EnterActive(p, b, c, cycle)
    case Active(t, r) =>
      if 0 < t then b.(st := Active(t - 1, r))
      else if r.None? then b
      else EnterNext(p, b, r.value, cycle)
    case Reading(t, e, r) =>
      if 0 < t then b.(st := Reading(t - 1, e, r))
      else if r.None? then b
      else
        var e' := if e == 0 then ReadExit(p, b, r.value.kind, cycle) else e;
        if 1 < e' then b.(st := Reading(0, e' - 1, r)) else EnterNext(p, b, r.value, cycle)
    case Writing(t, e, r) =>
      if 0 < t then b.(st := Writing(t - 1, e, r))
      else if r.None? then b
      else
        var e' := if e == 0 then WriteExit(p, b, r.value.kind, cycle) else e;
        if 1 < e' then b.(st := Writing(0, e' - 1, r)) else EnterNext(p, b, r.value, cycle)
    case ReadingA(t, e) =>
      if 0 < t then b.(st := ReadingA(t - 1, e))
      else
        var last := if e == 0 then b.last.(pre := cycle) else b.last;
        var target := Sub64(Max(b.next.pre,
                                Max(last.act + p.nRAS,
                                    Max(last.reada + p.nRTP, last.read + p.nRTP))), 1);
        var e' := if e == 0 then (if cycle < target then target - cycle else 0) else e;
        if 1 < e' then b.(st := ReadingA(0, e' - 1), last := last)
        else EnterPrecharging(p, b.(last := last))
    case WritingA(t, e) =>
      if 0 < t then b.(st := WritingA(t - 1, e))
      else
        var last := if e == 0 then b.last.(writea := cycle) else b.last;
        var target := Sub64(Max(b.next.act + p.nRAS, last.writea + p.nCWL + p.nBL + p.nWR), 2);
        var e' := if e == 0 then (if cycle < target then target - cycle else 0) else e;
        if 1 < e' then b.(st := WritingA(0, e' - 1), last := last)
        else EnterPrecharging(p, b.(last := last))
    case Precharging(t) =>
      if 0 < t then b.(st := Precharging(t - 1)) else EnterIdle(b, cycle)
    case Refreshing(t) =>
      if 0 < t then b.(st := Refreshing(t - 1)) else EnterIdle(b, cycle)
  }

  // What a command on another bank does to this bank's earliest cycles, by relation.
  function Push(p: Params, rel: Rel, b: Bank, k: Kind, t: nat): Bank {
    match rel
    case SameGroup =>
      if k.ACT? then b.(next := b.next.(act := Max(b.next.act, t + p.nRRD_L)))
      else PushCol(p, b, k, t + Max(p.nCCD_L, p.nBL), Sub64(t + p.nCL + p.nBL + p.nRTW, p.nCWL),
                   t + p.nCWL + p.nBL + p.nWTR_L, t + Max(p.nCCD_L, p.nBL))
    case SameRank =>
      if k.ACT? then b.(next := b.next.(act := Max(b.next.act, t + p.nRRD_S)))
      else PushCol(p, b, k, t + Max(p.nCCD_S, p.nBL), Sub64(t + p.nCL + p.nBL + p.nRTW, p.nCWL),
                   t + p.nCWL + p.nBL + p.nWTR_S, t + Max(p.nCCD_S, p.nBL))
    case SameChannel =>
      var burst := Max(p.nBL, Min(p.nCCD_S, p.nCCD_L));
      PushCol(p, b, k, t + burst + p.nERTR, Sub64(t + p.nCL + burst + p.nERTW, p.nCWL),
              Sub64(t + p.nCWL + burst + p.nEWTR, p.nCL), t + burst + p.nEWTW)
    case _ => b
  }

  // Column spacing: rr/rw after a read, wr/ww after a write.
  function PushCol(p: Params, b: Bank, k: Kind, rr: nat, rw: nat, wr: nat, ww: nat): Bank {
    if k.IsCol() then
      var isRead := k.READ? || k.READA?;
      var rd := Max(Max(b.next.read, b.next.reada), if isRead then rr else wr);
      var wt := Max(Max(b.next.write, b.next.writea), if isRead then rw else ww);
      b.(next := b.next.(read := rd).(reada := rd).(write := wt).(writea := wt))
    else b
  }
}
