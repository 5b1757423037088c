// A bank as an object: the current state with its timers, the row buffer, and the tables
// of last and earliest command cycles, updated field by field.
module BankInfoObject {
  import opened Common
  import opened DramTypes
  import B = DramBank

  class BankInfo {
    const p: Params
    var st: B.BankState
    var rowOpen: bool
    var openRow: nat
    var last: Cycles
    var next: Cycles

    ghost function Value(): B.Bank
      reads this
    {
      B.Bank(st, rowOpen, openRow, last, next)
    }

    constructor (p: Params)
      ensures this.p == p && Value() == B.INITIAL
    {
      this.p := p;
      st, rowOpen, openRow, last, next := B.Idle(0, None), false, 0, ZeroCycles(), ZeroCycles();
    }

    predicate IsCommandAllowed(k: Kind, cycle: nat): (ok: bool)
      reads this
      ensures ok == B.Allowed(Value(), k, cycle)
    {
      B.Accepts(st, k) && next.At(k) <= cycle
    }

    predicate IsPrecharged()
      reads this
    {
      st.Precharging? || st.Idle?
    }

    // The state keeps the command until it hands over.
    method HandleCommand(c: Cmd, cycle: nat)
      requires B.Accepts(st, c.kind)
      modifies this
      ensures Value() == B.Handle(old(Value()), c, cycle)
    {
      match st {
        case Idle(_, _) => st := B.Idle(1, Some(c));
        case Active(t, _) => st := B.Active(t, Some(c));
        case Reading(t, e, _) => st := B.Reading(t, e, Some(c));
        case Writing(t, e, _) => st := B.Writing(t, e, Some(c));
      }
      last := last.With(c.kind, cycle);
    }

    // A column command or ACT on a bank of the same group, rank or channel.
    method Postpone(rel: Rel, k: Kind, t: nat)
      modifies this
      ensures Value() == B.Push(p, rel, old(Value()), k, t)
    {
      hide Max, Min, Sub64, B.PushCol;
      var burst := Max(p.nBL, Min(p.nCCD_S, p.nCCD_L));
      match rel {
        case SameGroup =>
          if k.ACT? {
            next := next.(act := Max(next.act, t + p.nRRD_L));
          } else {
            PostponeColumns(k, t + Max(p.nCCD_L, p.nBL), Sub64(t + p.nCL + p.nBL + p.nRTW, p.nCWL),
                            t + p.nCWL + p.nBL + p.nWTR_L, t + Max(p.nCCD_L, p.nBL));
          }
        case SameRank =>
          if k.ACT? {
            next := next.(act := Max(next.act, t + p.nRRD_S));
          } else {
            PostponeColumns(k, t + Max(p.nCCD_S, p.nBL), Sub64(t + p.nCL + p.nBL + p.nRTW, p.nCWL),
                            t + p.nCWL + p.nBL + p.nWTR_S, t + Max(p.nCCD_S, p.nBL));
          }
        case SameChannel =>
          PostponeColumns(k, t + burst + p.nERTR, Sub64(t + p.nCL + burst + p.nERTW, p.nCWL),
                          Sub64(t + p.nCWL + burst + p.nEWTR, p.nCL), t + burst + p.nEWTW);
        case _ =>
      }
    }

    method PostponeColumns(k: Kind, rr: nat, rw: nat, wr: nat, ww: nat)
      modifies this
      ensures Value() == B.PushCol(p, old(Value()), k, rr, rw, wr, ww)
    {
      if !k.IsCol() { return; }
      var afterRead := k.READ? || k.READA?;
      var rd := Max(Max(next.read, next.reada), if afterRead then rr else wr);
      var wt := Max(Max(next.write, next.writea), if afterRead then rw else ww);
      next := next.(read := rd, reada := rd);
      next := next.(write := wt, writea := wt);
    }

    // ---------------------------------------------------------------- entering a state

    method EnterIdle(cycle: nat)
      modifies this
      ensures Value() == B.EnterIdle(old(Value()), cycle)
    {
      st := B.Idle(0, None);
      rowOpen := false;
      next := next.(act := Max(next.act, cycle));
      next := next.(ref := Max(next.ref, cycle));
      next := next.(pre := Max(next.pre, cycle));
    }

    method EnterActivating(c: Cmd)
      modifies this
      ensures Value() == B.EnterActivating(old(Value()), c)
    {
      st := B.Activating(0, c);
      openRow := c.row;
      rowOpen := true;
    }

    method EnterActive(c: Cmd, cycle: nat)
      modifies this
      ensures Value() == B.EnterActive(p, old(Value()), c, cycle)
    {
      openRow := c.row;
      rowOpen := true;
      st := B.Active(Sub32(p.nCCD_L, 2), None);
      var col := Sub64(cycle + p.nRCD, 2);
      next := next.(read := Max(next.read, col), reada := Max(next.reada, col));
      next := next.(write := Max(next.write, col), writea := Max(next.writea, col));
      RaisePre(Max(last.act + p.nRAS, Max(last.write + p.nWR, last.read + p.nRTP)));
    }

    method RaisePre(cycle: nat)
      modifies this`next
      ensures next == old(next).(pre := Max(old(next).pre, cycle))
    {
      if next.pre < cycle { next := next.(pre := cycle); }
    }

    method RaiseColumns(rd: nat, wr: nat)
      modifies this`next
      ensures next == old(next).(read := Max(old(next).read, rd)).(reada := Max(old(next).reada, rd))
                              .(write := Max(old(next).write, wr)).(writea := Max(old(next).writea, wr))
    {
      next := next.(read := Max(next.read, rd));
      next := next.(reada := Max(next.reada, rd));
      next := next.(write := Max(next.write, wr));
      next := next.(writea := Max(next.writea, wr));
    }

    method EnterReading()
      modifies this
      ensures Value() == B.EnterReading(p, old(Value()))
    {
      hide Sub64, Sub32, Max;
      st := B.Reading(Sub32(if p.nCCD_L < p.nBL then p.nBL else p.nCCD_L, 1), 0, None);
      RaiseColumns(last.read + p.nCCD_L, last.read + p.nCWL + p.nBL + p.nWTR);
      RaisePre(Max(last.act + p.nRAS, Max(last.reada + p.nRTP, last.read + p.nRTP)));
    }

    method EnterWriting()
      modifies this
      ensures Value() == B.EnterWriting(p, old(Value()))
    {
      hide Sub64, Sub32, Max;
      st := B.Writing(Max(p.nCCD_L, p.nBL), 0, None);
      RaiseColumns(last.write + p.nCWL + p.nBL + p.nWTR_L, last.write + p.nCCD_L);
      RaisePre(Max(last.act + p.nRAS, Max(last.writea + p.nCWL + p.nBL + p.nWR, last.write + p.nCWL + p.nBL + p.nWR)));
    }

    // The auto-precharge states count one cycle less, or several, for what follows.
    method EnterReadingA(cycle: nat)
      modifies this
      ensures Value() == B.EnterReadingA(p, old(Value()), cycle)
    {
      hide Sub64, Sub32, Max;
      last := last.(reada := cycle);
      st := B.ReadingA(Sub32(if p.nCCD_L < p.nBL then p.nBL else p.nCCD_L, 1), 0);
      var rd, wr := last.read + p.nCCD_L, last.read + p.nCWL + p.nBL + p.nWTR;
      next := next.(read := Sub64(Max(next.read, rd), 1));
      next := next.(reada := Sub64(Max(next.reada, rd), 1));
      next := next.(write := Sub64(Max(next.write, wr), 1));
      next := next.(writea := Sub64(Max(next.writea, wr), 1));
      var pre := Max(last.act + p.nRAS, Max(last.reada + p.nRTP, last.read + p.nRTP));
      next := next.(pre := Sub64(Max(next.pre, pre), 1));
    }

    method EnterWritingA(cycle: nat)
      modifies this
      ensures Value() == B.EnterWritingA(p, old(Value()), cycle)
    {
      hide Sub64, Sub32, Max;
      last := last.(writea := cycle);
      st := B.WritingA(Sub32(if p.nCCD_L < p.nBL then p.nBL else p.nCCD_L, 1), 0);
      var rec := p.nCWL + p.nBL + p.nWR;
      next := next.(read := Sub64(Max(next.read, last.write) + rec, p.nCL));
      next := next.(reada := Sub64(Max(next.reada, last.write) + rec, p.nCL));
      next := next.(write := Max(next.write, cycle + p.nCCD_L));
      next := next.(pre := Max(next.pre, Max(Sub64(last.act + p.nRAS, 2), Max(last.write, Sub64(last.read + p.nRTP, 2)))));
      next := next.(writea := Sub64(Max(next.act + p.nRAS, cycle + rec), 2));
    }

    method EnterNext(c: Cmd, cycle: nat)
      modifies this
      ensures Value() == B.EnterNext(p, old(Value()), c, cycle)
    {
      match c.kind {
        case READ => EnterReading();
        case WRITE => EnterWriting();
        case READA => EnterReadingA(cycle);
        case WRITEA => EnterWritingA(cycle);
        case PRE => EnterPrecharging();
        case _ =>
      }
    }

    method EnterPrecharging()
      modifies this
      ensures Value() == B.EnterPrecharging(p, old(Value()))
    {
      st := B.Precharging(Sub32(p.nRP, 2));
      rowOpen := false;
    }

    method EnterRefreshing(cycle: nat)
      modifies this
      ensures Value() == B.EnterRefreshing(p, old(Value()), cycle)
    {
      st := B.Refreshing(Sub32(p.nRFC, 2));
      next := next.(ref := Sub64(Max(Sub64(next.ref + p.nREFI, 1), cycle + p.nREFI), 1));
    }

    // ---------------------------------------------------------------- the clock

    method ClockTic(cycle: nat)
      modifies this
      ensures Value() == B.Tick(p, old(Value()), cycle)
    {
      match st {
        case Idle(t, r) => TickIdle(t, r, cycle);
        case Activating(t, c) =>
          if 0 < t { st := B.Activating(t - 1, c); } else { EnterActive(c, cycle); }
        case Active(t, r) =>
          if 0 < t { st := B.Active(t - 1, r); } else if r.Some? { EnterNext(r.value, cycle); }
        case Reading(t, e, r) => TickReading(t, e, r, cycle);
        case Writing(t, e, r) => TickWriting(t, e, r, cycle);
        case ReadingA(t, e) => TickReadingA(t, e, cycle);
        case WritingA(t, e) => TickWritingA(t, e, cycle);
        case Precharging(t) =>
          if 0 < t { st := B.Precharging(t - 1); } else { EnterIdle(cycle); }
        case Refreshing(t) =>
          if 0 < t { st := B.Refreshing(t - 1); } else { EnterIdle(cycle); }
      }
    }

    method TickIdle(t: nat, r: Option<Cmd>, cycle: nat)
      requires st == B.Idle(t, r)
      modifies this
      ensures Value() == B.Tick(p, old(Value()), cycle)
    {
      if 2 < t {
        st := B.Idle(t - 1, r);
        return;
      }
      var t' := Sub64(t, 1);
      if t' == 1 || r.None? {
        st := B.Idle(t', r);
      } else if r.value.kind.ACT? {
        EnterActivating(r.value);
      } else if r.value.kind.REF? {
        EnterRefreshing(cycle);
      } else {
        EnterPrecharging();
      }
    }

    method TickReading(t: nat, e: nat, r: Option<Cmd>, cycle: nat)
      requires st == B.Reading(t, e, r)
      modifies this
      ensures Value() == B.Tick(p, old(Value()), cycle)
    {
      if 0 < t {
        st := B.Reading(t - 1, e, r);
      } else if r.Some? && !(e == 0 && r.value.kind.IsAuto()) {
        var e' := if e == 0 then B.ReadExit(p, B.Bank(st, rowOpen, openRow, last, next), r.value.kind, cycle) else e;
        if 1 < e' { st := B.Reading(0, e' - 1, r); } else { EnterNext(r.value, cycle); }
      }
    }

    method TickWriting(t: nat, e: nat, r: Option<Cmd>, cycle: nat)
      requires st == B.Writing(t, e, r)
      modifies this
      ensures Value() == B.Tick(p, old(Value()), cycle)
    {
      if 0 < t {
        st := B.Writing(t - 1, e, r);
      } else if r.Some? && !(e == 0 && r.value.kind.IsAuto()) {
        var e' := if e == 0 then B.WriteExit(p, B.Bank(st, rowOpen, openRow, last, next), r.value.kind, cycle) else e;
        if 1 < e' { st := B.Writing(0, e' - 1, r); } else { EnterNext(r.value, cycle); }
      }
    }

    method TickReadingA(t: nat, e: nat, cycle: nat)
      requires st == B.ReadingA(t, e)
      modifies this
      ensures Value() == B.Tick(p, old(Value()), cycle)
    {
      if 0 < t {
        st := B.ReadingA(t - 1, e);
        return;
      }
      var e' := e;
      if e == 0 {
        last := last.(pre := cycle);
        var pre := Max(last.act + p.nRAS, Max(last.reada + p.nRTP, last.read + p.nRTP));
        var target := Sub64(Max(next.pre, pre), 1);
        e' := if cycle < target then target - cycle else 0;
      }
      if 1 < e' { st := B.ReadingA(0, e' - 1); } else { EnterPrecharging(); }
    }

    method TickWritingA(t: nat, e: nat, cycle: nat)
      requires st == B.WritingA(t, e)
      modifies this
      ensures Value() == B.Tick(p, old(Value()), cycle)
    {
      if 0 < t {
        st := B.WritingA(t - 1, e);
        return;
      }
      var e' := e;
      if e == 0 {
        last := last.(writea := cycle);
        var target := Sub64(Max(next.act + p.nRAS, last.writea + p.nCWL + p.nBL + p.nWR), 2);
        e' := if cycle < target then target - cycle else 0;
      }
      if 1 < e' { st := B.WritingA(0, e' - 1); } else { EnterPrecharging(); }
    }
  }
}
