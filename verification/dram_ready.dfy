// Exactly when a bank left to itself is ready again. The spacing results bound commands
// from below; these say to the cycle when each command is accepted after each other.
module DramReady {
  import opened Common
  import opened DramTypes
  import opened DramBank
  import opened DramDevice
  import opened DramTiming
  import opened DramSettle

  // ---------------------------------------------------------------- what every bank keeps

  // No command lies in the future, an exit countdown runs only while a command is held,
  // and an accessed row may be precharged no sooner than the access allows.
  predicate Sound(p: Params, b: Bank, now: nat) {
    && b.last.act <= now && b.last.read <= now && b.last.write <= now
    && (b.st.Reading? && b.st.received.None? ==> b.st.timerExit == 0 && b.last.read + p.nRTP <= b.next.pre)
    && (b.st.Writing? && b.st.received.None? ==> b.st.timerExit == 0 && b.last.write + p.nCWL + p.nBL + p.nWR <= b.next.pre)
  }

  lemma SoundTick(p: Params, b: Bank, now: nat)
    requires Sound(p, b, now)
    ensures Sound(p, Tick(p, b, now + 1), now + 1)
  {
    hide ReadExit, WriteExit, EnterNext, Max, Sub32, Sub64;
    if RowState(b.st) && b.st.received.Some? { SoundNext(p, b, b.st.received.value, now); }
  }

  lemma SoundNext(p: Params, b: Bank, c: Cmd, now: nat)
    requires RowState(b.st) && b.st.received == Some(c) && b.last.act <= now && b.last.read <= now && b.last.write <= now
    ensures Sound(p, EnterNext(p, b, c, now + 1), now + 1)
  {
    hide Sub32, Sub64;
  }

  lemma SoundSend(p: Params, t: Topology, d: Device, c: Cmd, i: nat)
    requires CanSend(d, c) && |d.banks| == t.Banks() && i < |d.banks| && Sound(p, d.banks[i], d.now)
    ensures Sound(p, DevSend(p, t, d, c).banks[i], d.now)
  {
    hide Max, Sub64;
  }

  ghost predicate AllSound(p: Params, d: Device) { forall i :: 0 <= i < |d.banks| ==> Sound(p, d.banks[i], d.now) }

  // In every run of the device.
  lemma {:induction false} EveryBankIsSound(p: Params, t: Topology, acts: seq<Act>)
    ensures AllSound(p, DevRun(p, t, acts))
  {
    hide Sound, Tick, DevSend, CanSend;
    if |acts| == 0 {
      assert Sound(p, INITIAL, 0) by { InitialIsSound(p); }
    } else {
      var d := DevRun(p, t, acts[..|acts| - 1]);
      EveryBankIsSound(p, t, acts[..|acts| - 1]);
      var d' := DevRun(p, t, acts);
      match acts[|acts| - 1] {
        case Clock => forall i | 0 <= i < |d.banks| ensures Sound(p, d'.banks[i], d'.now) { SoundTick(p, d.banks[i], d.now); }
        case Offer(c) =>
          if CanSend(d, c) {
            SendKeepsTime(p, t, d, c);
            forall i | 0 <= i < |d.banks| ensures Sound(p, d'.banks[i], d'.now) { SoundSend(p, t, d, c, i); }
          }
      }
    }
  }

  lemma InitialIsSound(p: Params)
    ensures Sound(p, INITIAL, 0)
  {}

  lemma SendKeepsTime(p: Params, t: Topology, d: Device, c: Cmd)
    requires CanSend(d, c) && |d.banks| == t.Banks()
    ensures DevSend(p, t, d, c).now == d.now && |DevSend(p, t, d, c).banks| == |d.banks|
  {}

  // ---------------------------------------------------------------- busy stretches

  ghost predicate BusyFor(p: Params, b: Bank, now: nat, n: nat) {
    forall i :: 0 <= i < n ==> !Rests(Ticks(p, b, now, i))
  }

  lemma BusyJoin(p: Params, b: Bank, now: nat, n: nat, m: nat)
    requires BusyFor(p, b, now, n) && BusyFor(p, Ticks(p, b, now, n), now + n, m)
    ensures BusyFor(p, b, now, n + m)
    ensures Ticks(p, b, now, n + m) == Ticks(p, Ticks(p, b, now, n), now + n, m)
  {
    hide Ticks, Rests;
    TicksSplit(p, b, now, n, m);
    forall i | 0 <= i < n + m ensures !Rests(Ticks(p, b, now, i)) {
      if i >= n {
        TicksSplit(p, b, now, n, i - n);
        assert !Rests(Ticks(p, Ticks(p, b, now, n), now + n, i - n));
      }
    }
  }

  lemma BusyOne(p: Params, b: Bank, now: nat)
    requires !Rests(b)
    ensures BusyFor(p, b, now, 1) && Ticks(p, b, now, 1) == Tick(p, b, now + 1)
  {
    hide Rests, Tick;
    assert Ticks(p, Tick(p, b, now + 1), now + 1, 0) == Tick(p, b, now + 1);
    assert Ticks(p, b, now, 0) == b;
  }

  // Busy until it rests, a bank accepts what it then accepts, from its earliest cycle on.
  lemma ReadyFrom(p: Params, b: Bank, now: nat, n: nat, k: Kind, m: nat)
    requires BusyFor(p, b, now, n) && Rests(Ticks(p, b, now, n)) && m >= now
    ensures var b' := Ticks(p, b, now, n);
            Allowed(Ticks(p, b, now, m - now), k, m) <==> Accepts(b'.st, k) && m >= now + n && m >= b'.next.At(k)
  {
    hide Ticks, Rests, Accepts;
    var b' := Ticks(p, b, now, n);
    if m < now + n {
      assert !Rests(Ticks(p, b, now, m - now));
      OnlyAtRest(Ticks(p, b, now, m - now), k);
    } else {
      TicksSplit(p, b, now, n, m - now - n);
      RestsOn(p, b', now + n, k, m - now - n);
    }
  }

  lemma OnlyAtRest(b: Bank, k: Kind)
    ensures Accepts(b.st, k) ==> Rests(b)
  {}

  // ---------------------------------------------------------------- countdowns

  // The timer of a state set to t.
  function Counting(st: BankState, t: nat): BankState {
    match st
    case Idle(_, r) => Idle(t, r)
    case Activating(_, c) => Activating(t, c)
    case Active(_, r) => Active(t, r)
    case Reading(_, e, r) => Reading(t, e, r)
    case Writing(_, e, r) => Writing(t, e, r)
    case ReadingA(_, e) => ReadingA(t, e)
    case WritingA(_, e) => WritingA(t, e)
    case Precharging(_) => Precharging(t)
    case Refreshing(_) => Refreshing(t)
  }

  lemma OneLess(p: Params, b: Bank, cycle: nat)
    requires !b.st.Idle? && EnterTimer(b) > 0
    ensures Tick(p, b, cycle) == b.(st := Counting(b.st, EnterTimer(b) - 1))
    ensures Rests(b.(st := Counting(b.st, EnterTimer(b) - 1))) == Rests(b)
  {
    hide EnterNext, EnterIdle, EnterActive, EnterPrecharging, ReadExit, WriteExit, Max, Sub64;
  }

  lemma CountingTwice(st: BankState, t: nat, u: nat)
    ensures Counting(Counting(st, t), u) == Counting(st, u)
  {}

  lemma CountingSelf(b: Bank)
    ensures Counting(b.st, EnterTimer(b)) == b.st
    ensures forall t: nat :: EnterTimer(b.(st := Counting(b.st, t))) == t && (Counting(b.st, t).Idle? <==> b.st.Idle?)
  {}

  lemma {:induction false} CountDown(p: Params, b: Bank, now: nat)
    requires !b.st.Idle? && !Rests(b)
    ensures var n := EnterTimer(b);
            BusyFor(p, b, now, n) && Ticks(p, b, now, n) == b.(st := Counting(b.st, 0)) && !Rests(Ticks(p, b, now, n))
    decreases EnterTimer(b)
  {
    hide Tick, Counting, Rests, EnterTimer, BusyFor;
    var n := EnterTimer(b);
    CountingSelf(b);
    if n == 0 {
      NoClock(p, b, now);
    } else {
      OneLess(p, b, now + 1);
      var b1 := Tick(p, b, now + 1);
      BusyOne(p, b, now);
      CountingTwice(b.st, n - 1, 0);
      CountDown(p, b1, now + 1);
      BusyJoin(p, b, now, 1, n - 1);
    }
  }

  lemma NoClock(p: Params, b: Bank, now: nat)
    ensures BusyFor(p, b, now, 0) && Ticks(p, b, now, 0) == b
  {}

  // n busy clocks lead to b'.
  ghost predicate Leads(p: Params, b: Bank, now: nat, n: nat, b': Bank) {
    BusyFor(p, b, now, n) && Ticks(p, b, now, n) == b'
  }

  lemma LeadsOn(p: Params, b: Bank, now: nat, n: nat, b1: Bank, m: nat, b2: Bank)
    requires Leads(p, b, now, n, b1) && Leads(p, b1, now + n, m, b2)
    ensures Leads(p, b, now, n + m, b2)
  {
    hide BusyFor, Ticks;
    BusyJoin(p, b, now, n, m);
  }

  // ---------------------------------------------------------------- closing

  // A countdown of n less two cycles, which wraps below two, and the two clocks around it.
  function Wrapped(n: u32): nat { if n < 2 then n + TWO32 else n }

  lemma ClosingEnds(p: Params, b: Bank, now: nat)
    requires b.st.Precharging? || b.st.Refreshing?
    ensures Leads(p, b, now, EnterTimer(b) + 1, EnterIdle(b, now + EnterTimer(b) + 1))
  {
    hide BusyFor, Ticks, EnterIdle, Tick;
    var n := EnterTimer(b);
    CountDown(p, b, now);
    var b1 := b.(st := Counting(b.st, 0));
    BusyOne(p, b1, now + n);
    ClosingTick(p, b1, now + n + 1);
    SameIdle(b, b1, now + n + 1);
    LeadsOn(p, b, now, n, b1, 1, EnterIdle(b, now + n + 1));
  }

  lemma ClosingTick(p: Params, b: Bank, cycle: nat)
    requires b.st == Precharging(0) || b.st == Refreshing(0)
    ensures Tick(p, b, cycle) == EnterIdle(b, cycle) && !Rests(b)
  {}

  lemma SameIdle(b: Bank, b1: Bank, cycle: nat)
    requires b1 == b.(st := b1.st)
    ensures EnterIdle(b, cycle) == EnterIdle(b1, cycle)
  {}

  // The precharge begun at the end of cycle x frees the bank nRP - 1 cycles later.
  lemma PrechargeEnds(p: Params, b: Bank, x: nat)
    ensures Leads(p, EnterPrecharging(p, b), x, Wrapped(p.nRP) - 1, EnterIdle(b, x + Wrapped(p.nRP) - 1))
  {
    hide BusyFor, Ticks;
    ClosingEnds(p, EnterPrecharging(p, b), x);
  }

  // ---------------------------------------------------------------- leaving an open row

  // When the read or write state lets go of a command held since x - 1: recovery of r
  // cycles is counted from s, or from x if that is earlier.
  function Recovered(x: nat, s: nat, r: nat): nat {
    if x <= s then x + Max(1, r) - 1 else Max(x + 1, s + r) - 1
  }

  // The cycle in which an open bank leaves its state for a command accepted at t.
  function LeavesAt(p: Params, b: Bank, k: Kind, t: nat): nat {
    match b.st
    case Reading(tm, _, _) =>
      var x := t + tm + 1;
      if k.WRITE? then Max(x + 1, b.last.read + p.nRTW) - 1
      else if k.PRE? then Max(x + 1, b.last.read + p.nRTP) - 1
      else x
    case Writing(tm, _, _) =>
      var x := t + tm + 1;
      if k.READ? then Recovered(x, b.last.write + p.nWR + p.nWTR, p.nWR + p.nWTR)
      else if k.PRE? then Recovered(x, b.last.write + p.nWR, p.nWR)
      else x
    case _ => t + EnterTimer(b) + 1
  }

  // The exit countdown found when the state's own timer is out.
  function ExitOf(p: Params, b: Bank, k: Kind, x: nat): nat {
    if b.st.Reading? then ReadExit(p, b, k, x) else if b.st.Writing? then WriteExit(p, b, k, x) else 0
  }

  lemma ExitCycle(p: Params, b: Bank, k: Kind, t: nat)
    requires Sound(p, b, t) && RowState(b.st)
    ensures var x := t + EnterTimer(b) + 1; x + Max(1, ExitOf(p, b, k, x)) - 1 == LeavesAt(p, b, k, t)
  {}

  // One clock of an open bank that holds a command and has no timer left.
  lemma ExitTick(p: Params, b: Bank, c: Cmd, x: nat)
    requires RowState(b.st) && b.st.received == Some(c) && EnterTimer(b) == 0 && (!b.st.Active? ==> !c.kind.IsAuto())
    ensures !Rests(b)
    ensures var e := if ExitTimer(b) == 0 then ExitOf(p, b, c.kind, x) else ExitTimer(b);
            Tick(p, b, x) == if 1 < e then b.(st := Exiting(b.st, e - 1)) else EnterNext(p, b, c, x)
  {
    hide EnterNext, ReadExit, WriteExit;
  }

  function Exiting(st: BankState, e: nat): BankState {
    match st
    case Reading(_, _, r) => Reading(0, e, r)
    case Writing(_, _, r) => Writing(0, e, r)
    case _ => st
  }

  lemma SameNext(p: Params, b: Bank, c: Cmd, x: nat, st: BankState)
    requires c.kind.IsCol() || c.kind.PRE?
    ensures EnterNext(p, b.(st := st), c, x) == EnterNext(p, b, c, x)
  {
    hide Max, Sub32, Sub64;
  }

  lemma {:induction false} ExitRuns(p: Params, b: Bank, c: Cmd, now: nat)
    requires (b.st.Reading? || b.st.Writing?) && b.st.received == Some(c) && (c.kind.READ? || c.kind.WRITE? || c.kind.PRE?)
    requires EnterTimer(b) == 0 && ExitTimer(b) > 0
    ensures Leads(p, b, now, ExitTimer(b), EnterNext(p, b, c, now + ExitTimer(b)))
    decreases ExitTimer(b)
  {
    hide BusyFor, Ticks, EnterNext, Tick, ExitOf;
    var e := ExitTimer(b);
    ExitTick(p, b, c, now + 1);
    BusyOne(p, b, now);
    if e > 1 {
      var b1 := b.(st := Exiting(b.st, e - 1));
      ExitRuns(p, b1, c, now + 1);
      SameNext(p, b, c, now + e, b1.st);
      LeadsOn(p, b, now, 1, b1, e - 1, EnterNext(p, b, c, now + e));
    }
  }

  // A bank with an open row that has just accepted c.
  predicate Took(p: Params, b: Bank, c: Cmd, t: nat) {
    && Sound(p, b, t) && Accepts(b.st, c.kind) && RowState(b.st)
    && (c.kind.READ? || c.kind.WRITE? || c.kind.PRE? || (c.kind.IsAuto() && b.st.Active?))
  }

  // What decides the exit is not the command just accepted.
  lemma HandledExit(p: Params, b: Bank, c: Cmd, t: nat, x: nat)
    requires Took(p, b, c, t)
    ensures var h := Handle(b, c, t);
            && RowState(h.st) && h.st.received == Some(c) && EnterTimer(h) == EnterTimer(b) && ExitTimer(h) == 0
            && (h.st.Reading? <==> b.st.Reading?) && (h.st.Writing? <==> b.st.Writing?)
            && h.next == b.next && h.last == b.last.With(c.kind, t)
            && ExitOf(p, h, c.kind, x) == ExitOf(p, b, c.kind, x)
  {}

  lemma LeavesOpen(p: Params, b: Bank, c: Cmd, t: nat)
    requires Took(p, b, c, t)
    ensures var x := LeavesAt(p, b, c.kind, t);
            var h := Handle(b, c, t);
            x > t && Leads(p, h, t, x - t, EnterNext(p, h, c, x))
  {
    hide BusyFor, Ticks, EnterNext, Tick, ExitOf, Handle, LeavesAt, Sound;
    var h := Handle(b, c, t);
    var n := EnterTimer(b);
    var x := t + n + 1;
    HandledExit(p, b, c, t, x);
    CountDown(p, h, t);
    var h0 := h.(st := Counting(h.st, 0));
    CountingKeeps(p, h, c.kind, x);
    BusyOne(p, h0, t + n);
    ExitTick(p, h0, c, x);
    ExitCycle(p, b, c.kind, t);
    var e := ExitOf(p, h0, c.kind, x);
    if e > 1 {
      var h1 := h0.(st := Exiting(h0.st, e - 1));
      ActiveHasNoExit(p, h0, c.kind, x);
      LeadsOn(p, h, t, n, h0, 1, h1);
      ExitRuns(p, h1, c, x);
      SameNext(p, h, c, x + e - 1, h1.st);
      LeadsOn(p, h, t, n + 1, h1, e - 1, EnterNext(p, h, c, x + e - 1));
    } else {
      SameNext(p, h, c, x, h0.st);
      LeadsOn(p, h, t, n, h0, 1, EnterNext(p, h, c, x));
    }
  }

  lemma ActiveHasNoExit(p: Params, b: Bank, k: Kind, x: nat)
    ensures b.st.Active? ==> ExitOf(p, b, k, x) == 0
  {}

  lemma CountingKeeps(p: Params, h: Bank, k: Kind, x: nat)
    requires RowState(h.st)
    ensures var h0 := h.(st := Counting(h.st, 0));
            && RowState(h0.st) && h0.st.received == h.st.received && EnterTimer(h0) == 0 && ExitTimer(h0) == ExitTimer(h)
            && (h0.st.Active? <==> h.st.Active?) && ExitOf(p, h0, k, x) == ExitOf(p, h, k, x)
  {}

  // ---------------------------------------------------------------- after a precharge

  // When a bank that accepts a precharge at t is idle.
  function IdleAfterPre(p: Params, b: Bank, t: nat): nat {
    if RowState(b.st) then LeavesAt(p, b, PRE, t) + Wrapped(p.nRP) - 1 else t + Wrapped(p.nRP)
  }

  lemma IdleReady(p: Params, b: Bank, now: nat, n: nat, b1: Bank, k: Kind, m: nat)
    requires Leads(p, b, now, n, EnterIdle(b1, now + n)) && m >= now
    ensures Allowed(Ticks(p, b, now, m - now), k, m) <==>
            (k.ACT? || k.REF? || k.PRE?) && m >= Max(now + n, b1.next.At(k))
  {
    hide BusyFor, Ticks;
    ReadyFrom(p, b, now, n, k, m);
  }

  // Main result: a bank that accepts a precharge at t accepts an ACT, REF or PRE in cycle m
  // exactly if the precharge is over by then and that command's own cycle has come.
  lemma ReadyAfterPre(p: Params, b: Bank, c: Cmd, t: nat, k: Kind, m: nat)
    requires Sound(p, b, t) && Accepts(b.st, PRE) && c.kind.PRE? && m >= t
    ensures Allowed(Ticks(p, Handle(b, c, t), t, m - t), k, m) <==>
            (k.ACT? || k.REF? || k.PRE?) && m >= Max(IdleAfterPre(p, b, t), b.next.At(k))
  {
    hide BusyFor, Ticks, Handle, LeavesAt, Sound, EnterIdle, EnterPrecharging;
    var h := Handle(b, c, t);
    HandledPre(p, b, c, t);
    var b1 := EnterPrecharging(p, h);
    PrechargedNext(p, h);
    if RowState(b.st) {
      var x := LeavesAt(p, b, PRE, t);
      LeavesOpen(p, b, c, t);
      PrechargeEnds(p, h, x);
      LeadsOn(p, h, t, x - t, b1, Wrapped(p.nRP) - 1, EnterIdle(h, x + Wrapped(p.nRP) - 1));
      IdleReady(p, h, t, x - t + Wrapped(p.nRP) - 1, h, k, m);
    } else {
      BusyOne(p, h, t);
      PrechargeEnds(p, h, t + 1);
      LeadsOn(p, h, t, 1, b1, Wrapped(p.nRP) - 1, EnterIdle(h, t + Wrapped(p.nRP)));
      IdleReady(p, h, t, Wrapped(p.nRP), h, k, m);
    }
  }

  lemma PrechargedNext(p: Params, h: Bank)
    ensures EnterPrecharging(p, h).next == h.next
  {}

  lemma HandledPre(p: Params, b: Bank, c: Cmd, t: nat)
    requires Accepts(b.st, PRE) && c.kind.PRE?
    ensures var h := Handle(b, c, t);
            && h.next == b.next && !Rests(h)
            && (!RowState(b.st) ==> Tick(p, h, t + 1) == EnterPrecharging(p, h))
            && (RowState(b.st) ==> EnterNext(p, h, c, LeavesAt(p, b, PRE, t)) == EnterPrecharging(p, h))
  {
    hide LeavesAt, EnterReading, EnterWriting;
  }

  // With its timer run out, a bank begins the precharge in the next cycle, unless it was
  // written so recently that the write state holds it back.
  lemma PrechargeOnTimeExactly(p: Params, b: Bank, t: nat)
    requires Sound(p, b, t) && Allowed(b, PRE, t) && (RowState(b.st) ==> EnterTimer(b) == 0)
    ensures IdleAfterPre(p, b, t) == t + Wrapped(p.nRP) <==> (b.st.Writing? ==> b.last.write + 2 * p.nWR <= t + 2)
  {}

  // Main result in its usual form: the next ACT comes nRP cycles after the precharge, or
  // when its own cycle has come.
  lemma ActAfterPre(p: Params, b: Bank, c: Cmd, t: nat, m: nat)
    requires Sound(p, b, t) && Allowed(b, PRE, t) && c.kind.PRE? && p.nRP >= 2 && m >= t
    requires (RowState(b.st) ==> EnterTimer(b) == 0) && (b.st.Writing? ==> b.last.write + 2 * p.nWR <= t + 2)
    ensures Allowed(Ticks(p, Handle(b, c, t), t, m - t), ACT, m) <==> m >= Max(t + p.nRP, b.next.act)
  {
    hide Ticks, Handle, Sound, Accepts, IdleAfterPre;
    ReadyAfterPre(p, b, c, t, ACT, m);
    PrechargeOnTimeExactly(p, b, t);
  }

  // ---------------------------------------------------------------- after a refresh

  // When the next refresh may come after one accepted at t.
  function NextRef(p: Params, b: Bank, t: nat): nat { Max(b.next.ref + p.nREFI, t + p.nREFI + 2) - 2 }

  // Main result: after a REF at t the bank accepts an ACT or PRE in cycle m exactly if
  // nRFC cycles have passed and that command's own cycle has come; the next REF, if
  // refreshes are some cycles apart, also waits for the refresh interval.
  lemma ReadyAfterRef(p: Params, b: Bank, c: Cmd, t: nat, k: Kind, m: nat)
    requires Accepts(b.st, REF) && c.kind.REF? && m >= t && (k.REF? ==> p.nREFI > 0)
    ensures Allowed(Ticks(p, Handle(b, c, t), t, m - t), k, m) <==>
            (k.ACT? || k.REF? || k.PRE?) && m >= Max(t + Wrapped(p.nRFC), if k.REF? then NextRef(p, b, t) else b.next.At(k))
  {
    hide BusyFor, Ticks, Handle, EnterIdle, EnterRefreshing;
    var h := Handle(b, c, t);
    HandledRef(p, b, c, t);
    var b1 := EnterRefreshing(p, h, t + 1);
    BusyOne(p, h, t);
    ClosingEnds(p, b1, t + 1);
    LeadsOn(p, h, t, 1, b1, Wrapped(p.nRFC) - 1, EnterIdle(b1, t + Wrapped(p.nRFC)));
    IdleReady(p, h, t, Wrapped(p.nRFC), b1, k, m);
  }

  lemma HandledRef(p: Params, b: Bank, c: Cmd, t: nat)
    requires Accepts(b.st, REF) && c.kind.REF?
    ensures var h := Handle(b, c, t);
            var b1 := EnterRefreshing(p, h, t + 1);
            && !Rests(h) && Tick(p, h, t + 1) == b1 && b1.st.Refreshing? && EnterTimer(b1) == Wrapped(p.nRFC) - 2
            && b1.next.act == b.next.act && b1.next.pre == b.next.pre && (p.nREFI > 0 ==> b1.next.ref == NextRef(p, b, t))
  {}

  // ---------------------------------------------------------------- after an ACT

  // When an open row may be precharged, as far as its bank is concerned.
  function Settled(p: Params, b: Bank, act: nat): nat {
    Max(b.next.pre, Max(act + p.nRAS, Max(b.last.write + p.nWR, b.last.read + p.nRTP)))
  }

  // Main result: after an ACT at t the row is open two cycles later; column commands are
  // accepted from t + nRCD on, a precharge when row and earlier accesses have settled,
  // each not before its own cycle.
  lemma ReadyAfterAct(p: Params, b: Bank, c: Cmd, t: nat, k: Kind, m: nat)
    requires Accepts(b.st, ACT) && c.kind.ACT? && m >= t
    ensures Allowed(Ticks(p, Handle(b, c, t), t, m - t), k, m) <==>
            (k.IsCol() && m >= Max(t + 2, Max(t + p.nRCD, b.next.At(k)))) || (k.PRE? && m >= Max(t + 2, Settled(p, b, t)))
    ensures m >= t + 2 ==> var b' := Ticks(p, Handle(b, c, t), t, m - t); b'.rowOpen && b'.openRow == c.row
  {
    hide BusyFor, Ticks, Handle, EnterActive;
    var h := Handle(b, c, t);
    HandledAct(p, b, c, t);
    var b1 := EnterActivating(h, c);
    var b2 := EnterActive(p, b1, c, t + 2);
    BusyOne(p, h, t);
    BusyOne(p, b1, t + 1);
    LeadsOn(p, h, t, 1, b1, 1, b2);
    ReadyFrom(p, h, t, 2, k, m);
    if m >= t + 2 {
      TicksSplit(p, h, t, 2, m - t - 2);
      RestKeepsRow(p, b2, t + 2, m - t - 2);
    }
  }

  lemma HandledAct(p: Params, b: Bank, c: Cmd, t: nat)
    requires Accepts(b.st, ACT) && c.kind.ACT?
    ensures var h := Handle(b, c, t);
            var b1 := EnterActivating(h, c);
            var b2 := EnterActive(p, b1, c, t + 2);
            && !Rests(h) && Tick(p, h, t + 1) == b1 && !Rests(b1) && Tick(p, b1, t + 2) == b2
            && b2.st.Active? && Rests(b2) && b2.rowOpen && b2.openRow == c.row
            && b2.next.pre == Settled(p, b, t) && forall k: Kind :: k.IsCol() ==> b2.next.At(k) == Max(b.next.At(k), t + p.nRCD)
  {
    hide Sub32;
  }

  lemma {:induction false} RestKeepsRow(p: Params, b: Bank, now: nat, n: nat)
    requires Rests(b)
    ensures Ticks(p, b, now, n).rowOpen == b.rowOpen && Ticks(p, b, now, n).openRow == b.openRow
    decreases n
  {
    hide Rests;
    if n > 0 {
      RestStays(p, b, now + 1, ACT);
      assert Tick(p, b, now + 1).rowOpen == b.rowOpen && Tick(p, b, now + 1).openRow == b.openRow by { RestTick(p, b, now + 1); }
      RestKeepsRow(p, Tick(p, b, now + 1), now + 1, n - 1);
    }
  }

  lemma RestTick(p: Params, b: Bank, cycle: nat)
    requires Rests(b)
    ensures Tick(p, b, cycle) == b.(st := Tick(p, b, cycle).st)
  {}

  // ---------------------------------------------------------------- after a read or a write

  // The next cycle of each kind after a read or write at t, for a bank left to itself.
  function NextAfterCol(p: Params, b: Bank, c: Kind, t: nat, k: Kind): nat {
    if k.PRE? then
      Max(Max(b.next.pre, b.last.act + p.nRAS),
          if c.READ? then Max(b.last.reada + p.nRTP, t + p.nRTP)
          else Max(b.last.writea + p.nCWL + p.nBL + p.nWR, t + p.nCWL + p.nBL + p.nWR))
    else Max(b.next.At(k), Gap(p, c, k, t))
  }

  // Main result: after a read or write at t a column command or precharge is accepted in
  // cycle m exactly if the old state has let go, the coded spacing has passed, and the
  // command's own cycle has come.
  lemma ReadyAfterCol(p: Params, b: Bank, c: Cmd, t: nat, k: Kind, m: nat)
    requires Took(p, b, c, t) && (c.kind.READ? || c.kind.WRITE?) && m >= t
    ensures Allowed(Ticks(p, Handle(b, c, t), t, m - t), k, m) <==>
            (k.IsCol() || k.PRE?) && m >= Max(LeavesAt(p, b, c.kind, t), NextAfterCol(p, b, c.kind, t, k))
  {
    hide BusyFor, Ticks, Handle, LeavesAt, EnterNext, NextAfterCol, Sound, Accepts;
    var h := Handle(b, c, t);
    var x := LeavesAt(p, b, c.kind, t);
    LeavesOpen(p, b, c, t);
    HandledCol(p, b, c, t, x, k);
    ReadyFrom(p, h, t, x - t, k, m);
  }

  lemma ReadEntered(p: Params, h: Bank, b: Bank, t: nat, k: Kind)
    requires h.last == b.last.(read := t) && h.next == b.next && (k.IsCol() || k.PRE?)
    ensures EnterReading(p, h).next.At(k) == NextAfterCol(p, b, READ, t, k)
  {
    hide Sub32;
  }

  lemma WriteEntered(p: Params, h: Bank, b: Bank, t: nat, k: Kind)
    requires h.last == b.last.(write := t) && h.next == b.next && (k.IsCol() || k.PRE?)
    ensures EnterWriting(p, h).next.At(k) == NextAfterCol(p, b, WRITE, t, k)
  {}

  lemma HandledCol(p: Params, b: Bank, c: Cmd, t: nat, x: nat, k: Kind)
    requires Took(p, b, c, t) && (c.kind.READ? || c.kind.WRITE?)
    ensures var b' := EnterNext(p, Handle(b, c, t), c, x);
            && Rests(b') && (Accepts(b'.st, k) <==> k.IsCol() || k.PRE?)
            && (k.IsCol() || k.PRE? ==> b'.next.At(k) == NextAfterCol(p, b, c.kind, t, k))
  {
    hide Handle, NextAfterCol, Max, Sub32, Sound;
    HandledExit(p, b, c, t, x);
    if k.IsCol() || k.PRE? {
      if c.kind.READ? { ReadEntered(p, Handle(b, c, t), b, t, k); } else { WriteEntered(p, Handle(b, c, t), b, t, k); }
    }
  }

  // ---------------------------------------------------------------- the bank while it waits

  // What is left of a countdown of t after n clocks.
  function Left(t: nat, n: nat): nat { if n <= t then t - n else 0 }

  // A bank at rest with an open row only counts down.
  lemma {:induction false} RestCounts(p: Params, b: Bank, now: nat, n: nat)
    requires Rests(b) && RowState(b.st)
    ensures Ticks(p, b, now, n) == b.(st := Counting(b.st, Left(EnterTimer(b), n)))
    decreases n
  {
    hide Tick, Counting, Rests, EnterTimer;
    CountingSelf(b);
    if n == 0 {
      NoClock(p, b, now);
    } else {
      RestOneLess(p, b, now + 1);
      var b1 := Tick(p, b, now + 1);
      CountingTwice(b.st, Left(EnterTimer(b), 1), Left(EnterTimer(b1), n - 1));
      RestCounts(p, b1, now + 1, n - 1);
    }
  }

  lemma RestOneLess(p: Params, b: Bank, cycle: nat)
    requires Rests(b) && RowState(b.st)
    ensures var b' := Tick(p, b, cycle);
            && b' == b.(st := Counting(b.st, Left(EnterTimer(b), 1))) && Rests(b') && RowState(b'.st) && EnterTimer(b') == Left(EnterTimer(b), 1)
  {}

  // Main result: the whole bank from two cycles after an ACT on, until it takes the next
  // command: nCCD_L - 2 cycles are counted down, and the row of the ACT is open.
  lemma BankAfterAct(p: Params, b: Bank, c: Cmd, t: nat, m: nat)
    requires Accepts(b.st, ACT) && c.kind.ACT? && m >= t + 2
    ensures var b' := Ticks(p, Handle(b, c, t), t, m - t);
            && b'.st == Active(Left(Sub32(p.nCCD_L, 2), m - t - 2), None)
            && b'.rowOpen && b'.openRow == c.row && b'.last == b.last.(act := t)
  {
    hide BusyFor, Ticks, Handle, EnterActive;
    var h := Handle(b, c, t);
    HandledAct(p, b, c, t);
    var b1 := EnterActivating(h, c);
    var b2 := EnterActive(p, b1, c, t + 2);
    BusyOne(p, h, t);
    BusyOne(p, b1, t + 1);
    LeadsOn(p, h, t, 1, b1, 1, b2);
    TicksSplit(p, h, t, 2, m - t - 2);
    EnteredActive(p, b, c, t);
    RestCounts(p, b2, t + 2, m - t - 2);
  }

  lemma EnteredActive(p: Params, b: Bank, c: Cmd, t: nat)
    requires Accepts(b.st, ACT) && c.kind.ACT?
    ensures var b2 := EnterActive(p, EnterActivating(Handle(b, c, t), c), c, t + 2);
            && b2.st == Active(Sub32(p.nCCD_L, 2), None) && Rests(b2) && b2.rowOpen && b2.openRow == c.row && b2.last == b.last.(act := t)
  {
    hide Max, Sub64;
  }

  // Main result: and from the cycle in which it enters the read or write state: burst or
  // column spacing, whichever is longer, is counted down, one cycle less after a read.
  lemma BankAfterCol(p: Params, b: Bank, c: Cmd, t: nat, m: nat)
    requires Took(p, b, c, t) && (c.kind.READ? || c.kind.WRITE?) && m >= LeavesAt(p, b, c.kind, t)
    ensures var x := LeavesAt(p, b, c.kind, t);
            x > t &&
            var b' := Ticks(p, Handle(b, c, t), t, m - t);
            && b'.st == (if c.kind.READ? then Reading(Left(Sub32(Max(p.nCCD_L, p.nBL), 1), m - x), 0, None)
                         else Writing(Left(Max(p.nCCD_L, p.nBL), m - x), 0, None))
            && b'.rowOpen == b.rowOpen && b'.openRow == b.openRow && b'.last == b.last.With(c.kind, t)
  {
    hide BusyFor, Ticks, Handle, LeavesAt, EnterNext, Sound, Accepts;
    var h := Handle(b, c, t);
    var x := LeavesAt(p, b, c.kind, t);
    LeavesOpen(p, b, c, t);
    EnteredCol(p, b, c, t, x);
    TicksSplit(p, h, t, x - t, m - x);
    RestCounts(p, EnterNext(p, h, c, x), x, m - x);
  }

  lemma EnteredCol(p: Params, b: Bank, c: Cmd, t: nat, x: nat)
    requires Took(p, b, c, t) && (c.kind.READ? || c.kind.WRITE?)
    ensures var b' := EnterNext(p, Handle(b, c, t), c, x);
            && b'.st == (if c.kind.READ? then Reading(Sub32(Max(p.nCCD_L, p.nBL), 1), 0, None) else Writing(Max(p.nCCD_L, p.nBL), 0, None))
            && Rests(b') && b'.rowOpen == b.rowOpen && b'.openRow == b.openRow && b'.last == b.last.With(c.kind, t)
  {
    hide Sub32, Sound;
  }

  // ---------------------------------------------------------------- after an auto-precharging access

  // What a bank entering one of these states at x waits for before it precharges itself:
  // a countdown to y, and then the cycle it aims at.
  function AutoBegins(p: Params, b: Bank, k: Kind, t: nat): nat {
    var x := t + EnterTimer(b) + 1;
    var y := x + Sub32(Max(p.nCCD_L, p.nBL), 1) + 1;
    if k.READA? then
      var own := Max(b.last.act + p.nRAS, Max(x, b.last.read) + p.nRTP);
      Max(y + 2, Max(Max(b.next.pre, own) - 1, own)) - 2
    else Max(y + 3, Max(b.next.act + p.nRAS, y + p.nCWL + p.nBL + p.nWR)) - 3
  }

  // The countdown of the automatic precharge, found when the state's own timer is out.
  function AutoWait(p: Params, b: Bank, y: nat): nat {
    var aim := if b.st.ReadingA?
               then Sub64(Max(b.next.pre, Max(b.last.act + p.nRAS, Max(b.last.reada + p.nRTP, b.last.read + p.nRTP))), 1)
               else Sub64(Max(b.next.act + p.nRAS, y + p.nCWL + p.nBL + p.nWR), 2);
    if y < aim then aim - y else 0
  }

  function Stamped(b: Bank, y: nat): Bank {
    if b.st.ReadingA? then b.(last := b.last.(pre := y)) else b.(last := b.last.(writea := y))
  }

  function AutoExiting(st: BankState, e: nat): BankState {
    if st.ReadingA? then ReadingA(0, e) else WritingA(0, e)
  }

  lemma AutoTick(p: Params, b: Bank, y: nat)
    requires (b.st.ReadingA? || b.st.WritingA?) && EnterTimer(b) == 0
    ensures !Rests(b)
    ensures ExitTimer(b) == 0 ==>
              var e := AutoWait(p, b, y);
              Tick(p, b, y) == if 1 < e then Stamped(b, y).(st := AutoExiting(b.st, e - 1)) else EnterPrecharging(p, Stamped(b, y))
    ensures ExitTimer(b) > 0 ==>
              Tick(p, b, y) == if 1 < ExitTimer(b) then b.(st := AutoExiting(b.st, ExitTimer(b) - 1)) else EnterPrecharging(p, b)
  {
    hide Max, Sub64, Sub32;
  }

  lemma {:induction false} AutoRuns(p: Params, b: Bank, now: nat)
    requires (b.st.ReadingA? || b.st.WritingA?) && EnterTimer(b) == 0 && ExitTimer(b) > 0
    ensures Leads(p, b, now, ExitTimer(b), EnterPrecharging(p, b))
    decreases ExitTimer(b)
  {
    hide BusyFor, Ticks, Tick;
    var e := ExitTimer(b);
    AutoTick(p, b, now + 1);
    BusyOne(p, b, now);
    if e > 1 {
      var b1 := b.(st := AutoExiting(b.st, e - 1));
      AutoRuns(p, b1, now + 1);
      LeadsOn(p, b, now, 1, b1, e - 1, EnterPrecharging(p, b));
    }
  }

  // From the moment the state is entered to the precharge.
  lemma AutoEnds(p: Params, b: Bank, x: nat)
    requires (b.st.ReadingA? || b.st.WritingA?) && ExitTimer(b) == 0
    ensures var y := x + EnterTimer(b) + 1;
            var n := EnterTimer(b) + Max(1, AutoWait(p, b, y));
            Leads(p, b, x, n, EnterPrecharging(p, Stamped(b, y)))
  {
    hide BusyFor, Ticks, Tick, EnterPrecharging, AutoWait, Stamped;
    var n := EnterTimer(b);
    var y := x + n + 1;
    CountDown(p, b, x);
    var b0 := b.(st := Counting(b.st, 0));
    AutoTick(p, b0, y);
    BusyOne(p, b0, x + n);
    CountingAuto(p, b, y);
    var e := AutoWait(p, b, y);
    if e > 1 {
      var b1 := Stamped(b0, y).(st := AutoExiting(b0.st, e - 1));
      LeadsOn(p, b, x, n, b0, 1, b1);
      AutoRuns(p, b1, y);
      SamePrecharge(p, b, b0, b1, y);
      LeadsOn(p, b, x, n + 1, b1, e - 1, EnterPrecharging(p, Stamped(b, y)));
    } else {
      SamePrecharge(p, b, b0, b0, y);
      LeadsOn(p, b, x, n, b0, 1, EnterPrecharging(p, Stamped(b, y)));
    }
  }

  lemma CountingAuto(p: Params, b: Bank, y: nat)
    requires (b.st.ReadingA? || b.st.WritingA?) && ExitTimer(b) == 0
    ensures var b0 := b.(st := Counting(b.st, 0));
            && EnterTimer(b0) == 0 && ExitTimer(b0) == 0 && (b0.st.ReadingA? || b0.st.WritingA?) && AutoWait(p, b0, y) == AutoWait(p, b, y)
  {
    hide Max, Sub64;
  }

  lemma SamePrecharge(p: Params, b: Bank, b0: Bank, b1: Bank, y: nat)
    requires (b.st.ReadingA? || b.st.WritingA?) && b0 == b.(st := Counting(b.st, 0))
    ensures EnterPrecharging(p, Stamped(b0, y)) == EnterPrecharging(p, Stamped(b, y))
    ensures b1 == Stamped(b0, y).(st := b1.st) ==> EnterPrecharging(p, b1) == EnterPrecharging(p, Stamped(b, y))
  {}

  // The precharge cycle of a bank left idle by an automatic precharge.
  function NextPreAfterAuto(p: Params, b: Bank, k: Kind, t: nat): nat {
    var x := t + EnterTimer(b) + 1;
    if k.READA? then Max(b.next.pre, Max(b.last.act + p.nRAS, Max(x, b.last.read) + p.nRTP)) - 1
    else Max(b.next.pre, Max(Sub64(b.last.act + p.nRAS, 2), Max(b.last.write, Sub64(b.last.read + p.nRTP, 2))))
  }

  lemma ReadAutoEntered(p: Params, h: Bank, b: Bank, t: nat)
    requires b.st.Active? && h.last == b.last.(reada := t) && h.next == b.next && b.last.read <= t
    ensures var x := t + EnterTimer(b) + 1;
            var b' := EnterReadingA(p, h, x);
            var y := x + EnterTimer(b') + 1;
            && b'.st.ReadingA? && ExitTimer(b') == 0 && EnterTimer(b') == Sub32(Max(p.nCCD_L, p.nBL), 1)
            && y + Max(1, AutoWait(p, b', y)) - 1 == AutoBegins(p, b, READA, t)
            && b'.next.act == b.next.act && b'.next.ref == b.next.ref && b'.next.pre == NextPreAfterAuto(p, b, READA, t)
  {
    hide Sub32;
  }

  lemma WriteAutoEntered(p: Params, h: Bank, b: Bank, t: nat)
    requires b.st.Active? && h.last == b.last.(writea := t) && h.next == b.next
    ensures var x := t + EnterTimer(b) + 1;
            var b' := EnterWritingA(p, h, x);
            var y := x + EnterTimer(b') + 1;
            && b'.st.WritingA? && ExitTimer(b') == 0 && EnterTimer(b') == Sub32(Max(p.nCCD_L, p.nBL), 1)
            && y + Max(1, AutoWait(p, b', y)) - 1 == AutoBegins(p, b, WRITEA, t)
            && b'.next.act == b.next.act && b'.next.ref == b.next.ref && b'.next.pre == NextPreAfterAuto(p, b, WRITEA, t)
  {
    hide Sub32;
  }

  lemma AutoEntered(p: Params, b: Bank, c: Cmd, t: nat)
    requires Took(p, b, c, t) && c.kind.IsAuto()
    ensures var x := t + EnterTimer(b) + 1;
            var b' := EnterNext(p, Handle(b, c, t), c, x);
            var y := x + EnterTimer(b') + 1;
            && LeavesAt(p, b, c.kind, t) == x
            && (b'.st.ReadingA? || b'.st.WritingA?) && ExitTimer(b') == 0
            && x + EnterTimer(b') + Max(1, AutoWait(p, b', y)) == AutoBegins(p, b, c.kind, t)
            && b'.next.act == b.next.act && b'.next.ref == b.next.ref && b'.next.pre == NextPreAfterAuto(p, b, c.kind, t)
  {
    hide AutoWait, AutoBegins, NextPreAfterAuto, EnterReadingA, EnterWritingA, Max, Sub32, Handle;
    HandledExit(p, b, c, t, 0);
    var h := Handle(b, c, t);
    if c.kind.READA? { ReadAutoEntered(p, h, b, t); } else { WriteAutoEntered(p, h, b, t); }
  }

  // Main result: a bank that takes an auto-precharging access at t accepts the next ACT,
  // REF or PRE exactly nRP - 1 cycles after its precharge begins, or when the command's
  // own cycle has come.
  lemma ReadyAfterAuto(p: Params, b: Bank, c: Cmd, t: nat, k: Kind, m: nat)
    requires Took(p, b, c, t) && c.kind.IsAuto() && m >= t
    ensures Allowed(Ticks(p, Handle(b, c, t), t, m - t), k, m) <==>
            (k.ACT? || k.REF? || k.PRE?) &&
            m >= Max(AutoBegins(p, b, c.kind, t) + Wrapped(p.nRP) - 1,
                     if k.PRE? then NextPreAfterAuto(p, b, c.kind, t) else b.next.At(k))
  {
    hide BusyFor, Ticks, Tick, Handle, EnterNext, EnterPrecharging, AutoWait, Stamped, AutoBegins, LeavesAt, EnterIdle, Sound, NextPreAfterAuto;
    var h := Handle(b, c, t);
    var x := t + EnterTimer(b) + 1;
    LeavesOpen(p, b, c, t);
    AutoEntered(p, b, c, t);
    var b1 := EnterNext(p, h, c, x);
    var y := x + EnterTimer(b1) + 1;
    AutoEnds(p, b1, x);
    var z := AutoBegins(p, b, c.kind, t);
    var b2 := Stamped(b1, y);
    LeadsOn(p, h, t, x - t, b1, z - x, EnterPrecharging(p, b2));
    PrechargeEnds(p, b2, z);
    var done := z + Wrapped(p.nRP) - 1;
    LeadsOn(p, h, t, z - t, EnterPrecharging(p, b2), Wrapped(p.nRP) - 1, EnterIdle(b2, done));
    StampedNext(b1, y);
    IdleReady(p, h, t, done - t, b2, k, m);
  }

  lemma StampedNext(b: Bank, y: nat)
    ensures Stamped(b, y).next == b.next
  {}

  // Taken in the read or write state such an access ends the simulation: the bank keeps
  // holding it and accepts nothing any more.
  lemma {:induction false} AutoInAccessStops(p: Params, b: Bank, c: Cmd, now: nat, n: nat)
    requires (b.st.Reading? || b.st.Writing?) && b.st.received == Some(c) && c.kind.IsAuto() && b.st.timerExit == 0
    ensures Ticks(p, b, now, n) == b.(st := Counting(b.st, Left(EnterTimer(b), n)))
    ensures forall k: Kind :: !Accepts(Ticks(p, b, now, n).st, k)
    decreases n
  {
    hide Tick, Counting, EnterTimer;
    CountingSelf(b);
    if n == 0 {
      NoClock(p, b, now);
    } else {
      HeldOneLess(p, b, c, now + 1);
      var b1 := Tick(p, b, now + 1);
      CountingTwice(b.st, Left(EnterTimer(b), 1), Left(EnterTimer(b1), n - 1));
      AutoInAccessStops(p, b1, c, now + 1, n - 1);
    }
  }

  lemma HeldOneLess(p: Params, b: Bank, c: Cmd, cycle: nat)
    requires (b.st.Reading? || b.st.Writing?) && b.st.received == Some(c) && c.kind.IsAuto() && b.st.timerExit == 0
    ensures var b' := Tick(p, b, cycle);
            && b' == b.(st := Counting(b.st, Left(EnterTimer(b), 1))) && EnterTimer(b') == Left(EnterTimer(b), 1)
            && (b'.st.Reading? || b'.st.Writing?) && b'.st.received == Some(c) && b'.st.timerExit == 0
  {
    hide EnterNext, ReadExit, WriteExit;
  }

  // ---------------------------------------------------------------- what other banks' commands do

  // Main result: a command on a related bank moves this bank's earliest cycles exactly to
  // the coded spacing, unless they lie later already; everything else is left alone.
  lemma PushedExactly(p: Params, rel: Rel, b: Bank, c: Kind, t: nat, k: Kind)
    requires !rel.SameBank? && CrossEarliest(p, rel, c, k, t) >= 0
    ensures var b' := Push(p, rel, b, c, t);
            && b' == b.(next := b'.next)
            && (c.ACT? && k.ACT? && (rel.SameGroup? || rel.SameRank?) ==>
                  b'.next.act == Max(b.next.act, CrossEarliest(p, rel, c, k, t)))
            && (c.IsCol() && (k.READ? || k.READA?) && !rel.Unrelated? ==>
                  b'.next.At(k) == Max(Max(b.next.read, b.next.reada), CrossEarliest(p, rel, c, k, t)))
            && (c.IsCol() && (k.WRITE? || k.WRITEA?) && !rel.Unrelated? ==>
                  b'.next.At(k) == Max(Max(b.next.write, b.next.writea), CrossEarliest(p, rel, c, k, t)))
            && ((c.IsCol() != k.IsCol()) || (!k.IsCol() && !(c.ACT? && k.ACT?)) || rel.Unrelated? || (rel.SameChannel? && !k.IsCol()) ==>
                  b'.next.At(k) == b.next.At(k))
  {
    hide PushCol, ColSpacing;
    var burst := Max(p.nBL, Min(p.nCCD_S, p.nCCD_L));
    match rel {
      case SameGroup =>
        if !c.ACT? { PushColExactly(p, b, c, t, k, Max(p.nCCD_L, p.nBL), p.nCL + p.nBL + p.nRTW, p.nCWL, p.nCWL + p.nBL + p.nWTR_L, 0, Max(p.nCCD_L, p.nBL)); }
      case SameRank =>
        if !c.ACT? { PushColExactly(p, b, c, t, k, Max(p.nCCD_S, p.nBL), p.nCL + p.nBL + p.nRTW, p.nCWL, p.nCWL + p.nBL + p.nWTR_S, 0, Max(p.nCCD_S, p.nBL)); }
      case SameChannel =>
        PushColExactly(p, b, c, t, k, burst + p.nERTR, p.nCL + burst + p.nERTW, p.nCWL, p.nCWL + burst + p.nEWTR, p.nCL, burst + p.nEWTW);
      case _ =>
    }
  }

  // A spacing written as a difference.
  lemma PushColExactly(p: Params, b: Bank, c: Kind, t: nat, k: Kind, rr: nat, rw: nat, rwLess: u32, wr: nat, wrLess: u32, ww: nat)
    requires ColSpacing(c, k, t, rr, rw - rwLess, wr - wrLess, ww) >= 0
    ensures var b' := PushCol(p, b, c, t + rr, Sub64(t + rw, rwLess), Sub64(t + wr, wrLess), t + ww);
            var n := ColSpacing(c, k, t, rr, rw - rwLess, wr - wrLess, ww);
            && b' == b.(next := b'.next)
            && (c.IsCol() && (k.READ? || k.READA?) ==> b'.next.At(k) == Max(Max(b.next.read, b.next.reada), n))
            && (c.IsCol() && (k.WRITE? || k.WRITEA?) ==> b'.next.At(k) == Max(Max(b.next.write, b.next.writea), n))
            && (!c.IsCol() || !k.IsCol() ==> b'.next.At(k) == b.next.At(k))
  {}
}
