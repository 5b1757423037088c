// Left to itself a bank comes to rest: whatever it is doing, after finitely many clocks it
// accepts every command its row allows, and goes on accepting it.
module DramSettle {
  import opened Common
  import opened DramTypes
  import opened DramBank
  import opened DramRows

  // The bank after n clocks without a command.
  function Ticks(p: Params, b: Bank, now: nat, n: nat): Bank
    decreases n
  {
    if n == 0 then b else Ticks(p, Tick(p, b, now + 1), now + 1, n - 1)
  }

  lemma {:induction false} TicksAppend(p: Params, b: Bank, now: nat, n: nat)
    ensures Ticks(p, b, now, n + 1) == Tick(p, Ticks(p, b, now, n), now + n + 1)
    decreases n
  {
    hide Tick;
    if n > 0 { TicksAppend(p, Tick(p, b, now + 1), now + 1, n - 1); }
  }

  lemma {:induction false} TicksSplit(p: Params, b: Bank, now: nat, n: nat, m: nat)
    ensures Ticks(p, b, now, n + m) == Ticks(p, Ticks(p, b, now, n), now + n, m)
    decreases n
  {
    hide Tick;
    if n > 0 { TicksSplit(p, Tick(p, b, now + 1), now + 1, n - 1, m); }
  }

  // The bank waits for a command.
  predicate Rests(b: Bank) {
    match b.st
    case Idle(_, r) => r.None?
    case Active(_, r) => r.None?
    case Reading(_, _, r) => r.None?
    case Writing(_, _, r) => r.None?
    case _ => false
  }

  // Stages still to be passed, and the countdowns of the present one.
  function Stages(b: Bank): nat {
    if Rests(b) then 0
    else match b.st
      case Activating(_, _) => 1
      case Precharging(_) => 1
      case Refreshing(_) => 1
      case Idle(_, _) => 2
      case ReadingA(_, _) => 2
      case WritingA(_, _) => 2
      case _ => 3
  }

  function EnterTimer(b: Bank): nat {
    match b.st
    case Activating(t, _) => t
    case Precharging(t) => t
    case Refreshing(t) => t
    case Idle(t, _) => t
    case ReadingA(t, _) => t
    case WritingA(t, _) => t
    case Active(t, _) => t
    case Reading(t, _, _) => t
    case Writing(t, _, _) => t
  }

  // The exit countdown is started when the other is over.
  function ExitTimer(b: Bank): nat {
    match b.st
    case ReadingA(_, e) => e
    case WritingA(_, e) => e
    case Reading(_, e, _) => e
    case Writing(_, e, _) => e
    case _ => 0
  }

  predicate ExitOpen(b: Bank) { ExitTimer(b) == 0 }

  lemma OneStage(p: Params, b: Bank, cycle: nat)
    requires BankOk(b) && !Rests(b)
    ensures var b' := Tick(p, b, cycle);
            || Stages(b') < Stages(b)
            || (Stages(b') == Stages(b) && EnterTimer(b') < EnterTimer(b))
            || (Stages(b') == Stages(b) && EnterTimer(b') == EnterTimer(b) && ExitOpen(b) && !ExitOpen(b'))
            || (Stages(b') == Stages(b) && EnterTimer(b') == EnterTimer(b) && !ExitOpen(b) && !ExitOpen(b') && ExitTimer(b') < ExitTimer(b))
  {
    hide ReadExit, WriteExit, Max, Sub32;
  }

  lemma {:induction false} ComesToRest(p: Params, b: Bank, now: nat) returns (n: nat)
    requires BankOk(b)
    ensures var b' := Ticks(p, b, now, n); Rests(b') && BankOk(b') && RowOf(b') == RowOf(b)
    decreases Stages(b), EnterTimer(b), ExitOpen(b), ExitTimer(b)
  {
    hide Tick, RowOf, BankOk;
    if Rests(b) {
      n := 0;
    } else {
      TickRow(p, b, now + 1);
      OneStage(p, b, now + 1);
      var m := ComesToRest(p, Tick(p, b, now + 1), now + 1);
      n := m + 1;
    }
  }

  // At rest only the timers move.
  lemma RestStays(p: Params, b: Bank, cycle: nat, k: Kind)
    requires Rests(b)
    ensures var b' := Tick(p, b, cycle); Rests(b') && b'.next == b.next && (Accepts(b'.st, k) <==> Accepts(b.st, k))
  {}

  lemma {:induction false} RestsOn(p: Params, b: Bank, now: nat, k: Kind, m: nat)
    requires Rests(b)
    ensures var b' := Ticks(p, b, now, m); Rests(b') && b'.next == b.next && (Accepts(b'.st, k) <==> Accepts(b.st, k))
    decreases m
  {
    hide Tick, Accepts, Rests;
    if m > 0 {
      RestStays(p, b, now + 1, k);
      RestsOn(p, Tick(p, b, now + 1), now + 1, k, m - 1);
    }
  }

  // At rest a bank takes every command that is legal for its row.
  lemma RestTakesLegal(b: Bank, c: Cmd)
    requires Rests(b) && BankOk(b) && StepRow(RowOf(b), c).Some? && !c.kind.REF?
    ensures Accepts(b.st, c.kind)
  {}

  // Main result: after n clocks, and at any time from then on, the bank takes the command.
  lemma AcceptsForGood(p: Params, b: Bank, now: nat, c: Cmd) returns (n: nat)
    requires BankOk(b) && StepRow(RowOf(b), c).Some? && !c.kind.REF?
    ensures forall m :: m >= n ==> Allowed(Ticks(p, b, now, m), c.kind, now + m)
  {
    hide Tick, RowOf, BankOk, Accepts, Rests, StepRow, Ticks;
    var n0 := ComesToRest(p, b, now);
    var b0 := Ticks(p, b, now, n0);
    RestTakesLegal(b0, c);
    n := n0 + b0.next.At(c.kind);
    forall m | m >= n ensures Allowed(Ticks(p, b, now, m), c.kind, now + m) {
      TicksSplit(p, b, now, n0, m - n0);
      RestsOn(p, b0, now + n0, c.kind, m - n0);
    }
  }
}
