// Liveness of the controller pipeline without refresh: given no new transactions, every
// queued command is sent or dropped after finitely many clocks, so all queues drain.
module DramLive {
  import opened Common
  import opened DramTypes
  import opened DramBank
  import opened DramDevice
  import opened DramDriver
  import opened DramSafety
  import opened DramRows
  import opened DramRowRun
  import opened DramRowScan
  import opened DramFlow
  import opened DramPipeline
  import opened DramEndToEnd
  import opened DramOrder
  import opened DramSettle
  import opened DramFirm

  // ---------------------------------------------------------------- work left

  function Load(qs: seq<seq<Cmd>>): nat { if qs == [] then 0 else |qs[0]| + Load(qs[1..]) }

  // A command passes two queues.
  function Work(P: Pipe): nat { 2 * Load(P.cmdQ) + |P.drv.inputQ| }

  lemma {:induction false} LoadMoved(qs: seq<seq<Cmd>>, b: nat)
    requires b < |qs| && qs[b] != []
    ensures Load(qs[b := qs[b][1..]]) + 1 == Load(qs)
  {
    var qs' := qs[b := qs[b][1..]];
    if b == 0 {
      assert qs'[1..] == qs[1..];
    } else {
      assert qs'[1..] == qs[1..][b - 1 := qs[1..][b - 1][1..]];
      LoadMoved(qs[1..], b - 1);
    }
  }

  lemma {:induction false} LoadZero(qs: seq<seq<Cmd>>)
    ensures Load(qs) == 0 <==> forall b :: 0 <= b < |qs| ==> qs[b] == []
  {
    if qs != [] {
      LoadZero(qs[1..]);
      if forall b :: 0 <= b < |qs| ==> qs[b] == [] {
        forall b | 0 <= b < |qs[1..]| ensures qs[1..][b] == [] { assert qs[b + 1] == []; }
      } else {
        var b :| 0 <= b < |qs| && qs[b] != [];
        if b > 0 { assert qs[1..][b - 1] != []; }
      }
    }
  }

  lemma MoveWork(P: Pipe, P': Pipe, b: nat)
    requires Moves(P, P', b)
    ensures Work(P') < Work(P)
  {
    LoadMoved(P.cmdQ, b);
  }

  // ---------------------------------------------------------------- the scan

  // Nothing but the marks of this clock has changed.
  predicate OnlyMarks(s: Driver, s': Driver) { s' == s.(blocked := s'.blocked, inflight := s'.inflight) }

  lemma {:induction false} ScanWork(g: Config, s: Driver, i: nat, counts: seq<nat>)
    requires Shaped(g, s) && i <= |s.inputQ| && |counts| == g.t.Ranks()
    ensures var s' := ScanFrom(g, s, i, counts); |s'.inputQ| < |s.inputQ| || OnlyMarks(s, s')
    decreases |s.inputQ| - i
  {
    hide Shaped, ScanOne;
    if i < |s.inputQ| {
      var r := ScanOne(g, s, i, counts);
      ScanOneWork(g, s, i, counts);
      if !r.stop { ScanWork(g, r.s, r.i, counts); }
    }
  }

  lemma ScanOneWork(g: Config, s: Driver, i: nat, counts: seq<nat>)
    requires Shaped(g, s) && i < |s.inputQ| && |counts| == g.t.Ranks()
    ensures var r := ScanOne(g, s, i, counts);
            && (|r.s.inputQ| < |s.inputQ| || OnlyMarks(s, r.s))
            && (Judge(g, s, s.inputQ[i], counts).Send? || Judge(g, s, s.inputQ[i], counts).Drop? ==> |r.s.inputQ| < |s.inputQ|)
  {
    hide Topology.Valid, Fits, RefQOk, BusFree, IsRefreshing, Precharged, DevSend, DataBusOk, AllBusy;
  }

  // If the oldest command is sent or dropped, the queue is shorter after the scan.
  lemma ScanServesFirst(g: Config, s: Driver, counts: seq<nat>)
    requires Shaped(g, s) && s.inputQ != [] && |counts| == g.t.Ranks()
    requires Judge(g, s, s.inputQ[0], counts).Send? || Judge(g, s, s.inputQ[0], counts).Drop?
    ensures |ScanFrom(g, s, 0, counts).inputQ| < |s.inputQ|
  {
    hide Topology.Valid, Fits, QueueOk, RefQOk, ScanOne, Judge;
    ScanOneWork(g, s, 0, counts);
    var r := ScanOne(g, s, 0, counts);
    if !r.stop { ScanWork(g, r.s, r.i, counts); }
  }

  // The oldest command goes if its bank takes it, the bus is free and no ACT was tracked.
  lemma FirstGoes(g: Config, s: Driver, counts: seq<nat>)
    requires Shaped(g, s) && s.inputQ != [] && |counts| == g.t.Ranks() && !g.useRefresh && Plain(s.inputQ)
    requires CanSend(s.dev, s.inputQ[0]) && !s.blocked[s.inputQ[0].bank] && s.inflight == {}
    requires BusFree(s, g.t.BusOf(s.inputQ[0].bank), s.inputQ[0].kind)
    requires forall r :: 0 <= r < |counts| ==> counts[r] == 0
    ensures Judge(g, s, s.inputQ[0], counts).Send? || Judge(g, s, s.inputQ[0], counts).Drop?
  {
    hide Topology.Valid, Fits, RefQOk, BusFree, CanSend;
    BankPlace(g.t, s.inputQ[0].bank);
  }

  // ---------------------------------------------------------------- one clock without transactions

  // No new transaction; the command scheduler visits every bank's queue.
  ghost predicate Quiet(u: Setup, x: Input) { x.txns == [] && forall b: nat :: b < u.g.t.Banks() ==> b in x.order }

  lemma UpdatePipe(u: Setup, P: Pipe)
    requires PipeFirm(u, P)
    ensures var P1 := P.(drv := Update(u.g, P.drv)); PipeFirm(u, P1) && Settled(P1.drv.dev) && P1.drv.dev.now > 0
  {
    hide Shaped, Safe, StreamOk, Settled, Update, SameFlow, BankRowOk, Firm, Plain, RowsRight, Doomed;
    var P1 := P.(drv := Update(u.g, P.drv));
    UpdateRows(u.g, P.drv, Tails(P));
    UpdateFirm(u.g, P.drv, Tails(P));
    UpdateFlow(u.g, P.drv);
    UpdateAdvances(u.g, P.drv);
    if ActParams(u.g.p) { SafeUpdate(u.g, P.drv); }
    StreamsSame(u, P, P1);
    assert Tails(P1) == Tails(P);
  }

  lemma RunPipe(u: Setup, P: Pipe)
    requires PipeFirm(u, P) && Settled(P.drv.dev) && P.drv.dev.now > 0
    ensures PipeFirm(u, P.(drv := DramDriver.Run(u.g, P.drv)))
  {
    hide Safe, StreamOk, Settled, DramDriver.Run, SameFlow, BankRowOk, Firm, Plain, RowsRight, Doomed, Topology.Valid;
    var P' := P.(drv := DramDriver.Run(u.g, P.drv));
    RunRows(u.g, P.drv, Tails(P));
    RunFirm(u.g, P.drv, Tails(P));
    RunFlow(u.g, P.drv);
    if ActParams(u.g.p) { SafeRun(u.g, P.drv); }
    assert Tails(P') == Tails(P);
    StreamsSame(u, P, P');
  }

  lemma {:induction false} VisitAllWork(u: Setup, P: Pipe, order: seq<nat>, b: nat)
    requires PipeFirm(u, P) && Settled(P.drv.dev)
    ensures var P' := VisitAll(u, P, order);
            && PipeFirm(u, P') && Settled(P'.drv.dev) && P'.waiting == P.waiting && P'.drv.dev == P.drv.dev
            && (P' == P || Work(P') < Work(P))
            && (b in order && Sendable(u, P, b) ==> Work(P') < Work(P))
    decreases |order|
  {
    hide Shaped, Safe, RowsOk, StreamOk, Visit, Settled, FirmRows, Sendable, Work;
    if order != [] {
      VisitFirm(u, P, order[0]);
      var P1 := Visit(u, P, order[0]);
      VisitAllWork(u, P1, order[1..], b);
      if P1 != P { MoveWork(P, P1, order[0]); }
    }
  }

  // A clock in which no command moves: the banks tick, buses and trackers empty.
  predicate Still(g: Config, s: Driver, s': Driver) {
    && s'.inputQ == s.inputQ && s'.dev == DevTick(g.p, s.dev)
    && s'.rowBus == ReleaseBus(ReleaseBus(s.rowBus)) && s'.colBus == ReleaseBus(ReleaseBus(s.colBus))
    && |s.faw| == |s.actIssued| == |s'.faw| == |s'.actIssued|
    && (forall r :: 0 <= r < |s.faw| ==> s'.faw[r] == ShiftFaw(s.faw[r], s.actIssued[r]) && !s'.actIssued[r])
  }

  lemma RunWork(g: Config, s: Driver)
    requires Shaped(g, s) && !g.useRefresh
    ensures var s' := DramDriver.Run(g, s);
            || |s'.inputQ| < |s.inputQ|
            || OnlyMarks(s.(rowBus := ReleaseBus(s.rowBus), colBus := ReleaseBus(s.colBus)), s')
  {
    hide Topology.Valid, QueueOk, RefQOk, ScanFrom;
    var s1 := s.(rowBus := ReleaseBus(s.rowBus), colBus := ReleaseBus(s.colBus));
    ScanWork(g, s1, 0, ActCounts(s1));
  }

  // The pipeline before its driver runs.
  ghost function Offering(u: Setup, P: Pipe, x: Input): Pipe
    requires Formed(u, P) && InputOk(u, x)
  {
    VisitAll(u, ConvertPhase(u, P.(drv := Update(u.g, P.drv)), x.txns), x.order)
  }

  lemma QuietConvert(u: Setup, P: Pipe)
    requires PipeFirm(u, P) && P.waiting == []
    ensures var C := ConvertPhase(u, P, []);
            PipeFirm(u, C) && C.drv == P.drv && C.cmdQ == P.cmdQ && C.waiting == []
  {
    hide Shaped, Safe, RowsOk, StreamOk, FirmRows;
    ConvertPhaseFirm(u, P, []);
  }

  lemma OfferingWork(u: Setup, P: Pipe, x: Input, b: nat)
    requires PipeFirm(u, P) && P.waiting == [] && Quiet(u, x)
    ensures InputOk(u, x) && Formed(u, P)
    ensures var P1 := P.(drv := Update(u.g, P.drv));
            var V := Offering(u, P, x);
            && PipeFirm(u, V) && Settled(V.drv.dev) && V.drv.dev.now > 0 && V.waiting == []
            && ((V.drv == P1.drv && V.cmdQ == P.cmdQ) || Work(V) < Work(P))
            && (b < u.g.t.Banks() && Sendable(u, P1, b) ==> Work(V) < Work(P))
  {
    hide Shaped, Safe, RowsOk, StreamOk, Settled, VisitAll, ConvertPhase, Update, FirmRows;
    UpdatePipe(u, P);
    var P1 := P.(drv := Update(u.g, P.drv));
    assert P1.drv.inputQ == P.drv.inputQ by { UpdateKeepsQueue(u.g, P.drv); }
    QuietConvert(u, P1);
    VisitAllWork(u, ConvertPhase(u, P1, []), x.order, b);
  }

  lemma UpdateKeepsQueue(g: Config, s: Driver)
    requires Shaped(g, s)
    ensures Update(g, s).inputQ == s.inputQ
  {}

  lemma TickWork(u: Setup, P: Pipe, x: Input)
    requires PipeFirm(u, P) && P.waiting == [] && Quiet(u, x)
    ensures InputOk(u, x) && Formed(u, P)
    ensures var P' := PipeTick(u, P, x);
            && PipeFirm(u, P') && P'.waiting == []
            && (Work(P') < Work(P) || (Work(P') == Work(P) && P'.cmdQ == P.cmdQ && Still(u.g, P.drv, P'.drv)))
  {
    hide Safe, RowsOk, StreamOk, Settled, VisitAll, ConvertPhase, FirmRows, DramDriver.Run, Topology.Valid, QueueOk, RefQOk;
    OfferingWork(u, P, x, 0);
    var V := Offering(u, P, x);
    RunPipe(u, V);
    FirmNoRefresh(u, V);
    RunWork(u.g, V.drv);
    assert PipeTick(u, P, x) == V.(drv := DramDriver.Run(u.g, V.drv));
  }

  lemma FirmNoRefresh(u: Setup, P: Pipe)
    requires PipeFirm(u, P)
    ensures !u.g.useRefresh && Shaped(u.g, P.drv) && Plain(P.drv.inputQ)
  {}

  // ---------------------------------------------------------------- a clock in which something moves

  predicate BusesFree(s: Driver) {
    (forall i :: 0 <= i < |s.rowBus| ==> s.rowBus[i] == 0) && (forall i :: 0 <= i < |s.colBus| ==> s.colBus[i] == 0)
  }

  predicate Untracked(s: Driver) {
    |s.faw| == |s.actIssued| && forall r :: 0 <= r < |s.faw| ==> Sum(ShiftFaw(s.faw[r], s.actIssued[r])) == 0
  }

  // The bank takes the command at the next clock.
  predicate TakesNext(p: Params, d: Device, b: nat, k: Kind) {
    b < |d.banks| && Allowed(Tick(p, d.banks[b], d.now + 1), k, d.now + 1)
  }

  lemma ReleasedFree(bus: seq<nat>)
    requires forall i :: 0 <= i < |bus| ==> bus[i] == 0
    ensures ReleaseBus(bus) == bus
  {}

  lemma UpdateFrees(g: Config, s: Driver)
    requires Shaped(g, s) && BusesFree(s) && Untracked(s)
    ensures var s1 := Update(g, s);
            && BusesFree(s1) && ReleaseBus(s1.rowBus) == s1.rowBus && ReleaseBus(s1.colBus) == s1.colBus && s1.inflight == {}
            && (forall b :: 0 <= b < |s1.blocked| ==> !s1.blocked[b])
            && (forall r :: 0 <= r < |ActCounts(s1)| ==> ActCounts(s1)[r] == 0)
            && s1.dev == DevTick(g.p, s.dev) && s1.inputQ == s.inputQ
  {
    hide Topology.Valid, QueueOk, RefQOk, Sum, ShiftFaw;
    ReleasedFree(s.rowBus);
    ReleasedFree(s.colBus);
  }

  lemma FreeForAll(g: Config, s: Driver, b: nat, k: Kind)
    requires Shaped(g, s) && BusesFree(s) && b < g.t.Banks()
    ensures BusFree(s, g.t.BusOf(b), k)
  {
    BankPlace(g.t, b);
  }

  // The oldest command in the driver goes.
  lemma FirstMoves(u: Setup, P: Pipe, x: Input)
    requires PipeFirm(u, P) && P.waiting == [] && Quiet(u, x) && BusesFree(P.drv) && Untracked(P.drv)
    requires P.drv.inputQ != [] && TakesNext(u.g.p, P.drv.dev, P.drv.inputQ[0].bank, P.drv.inputQ[0].kind)
    ensures InputOk(u, x) && Formed(u, P) && Work(PipeTick(u, P, x)) < Work(P)
  {
    hide Safe, RowsOk, StreamOk, Settled, VisitAll, ConvertPhase, FirmRows, ScanFrom, Topology.Valid, Update, QueueOk, RefQOk, BusesFree, Tick;
    OfferingWork(u, P, x, 0);
    var V := Offering(u, P, x);
    FirmNoRefresh(u, V);
    RunWork(u.g, V.drv);
    if V.drv == Update(u.g, P.drv) && V.cmdQ == P.cmdQ {
      UpdateFrees(u.g, P.drv);
      var s1 := V.drv;
      FirstBank(u.g, s1);
      FreeForAll(u.g, s1, s1.inputQ[0].bank, s1.inputQ[0].kind);
      FirstGoes(u.g, s1, ActCounts(s1));
      ScanServesFirst(u.g, s1, ActCounts(s1));
      assert s1.(rowBus := ReleaseBus(s1.rowBus), colBus := ReleaseBus(s1.colBus)) == s1;
    }
  }

  lemma FirstBank(g: Config, s: Driver)
    requires Shaped(g, s) && s.inputQ != []
    ensures s.inputQ[0].bank < g.t.Banks() == |s.blocked| == |s.dev.banks|
  {}

  // With nothing in the driver, the head of a scheduler queue goes there.
  lemma HeadMoves(u: Setup, P: Pipe, x: Input, b: nat)
    requires PipeFirm(u, P) && P.waiting == [] && Quiet(u, x) && BusesFree(P.drv) && Untracked(P.drv)
    requires P.drv.inputQ == [] && b < |P.cmdQ| && P.cmdQ[b] != [] && TakesNext(u.g.p, P.drv.dev, b, P.cmdQ[b][0].kind)
    ensures InputOk(u, x) && Formed(u, P) && Work(PipeTick(u, P, x)) < Work(P)
  {
    hide Safe, RowsOk, StreamOk, Settled, VisitAll, ConvertPhase, FirmRows, ScanFrom, Topology.Valid, Update, QueueOk, RefQOk, BusesFree, Tick;
    HeadOfBank(u, P, b);
    UpdateFrees(u.g, P.drv);
    FreeForAll(u.g, Update(u.g, P.drv), b, P.cmdQ[b][0].kind);
    OfferingWork(u, P, x, b);
    var V := Offering(u, P, x);
    FirmNoRefresh(u, V);
    RunWork(u.g, V.drv);
  }

  // ---------------------------------------------------------------- many quiet clocks

  // Every input of an endless run is quiet.
  ghost predicate AllQuiet(u: Setup, f: nat -> Input) { forall i :: Quiet(u, f(i)) }

  function Shift(f: nat -> Input, k: nat): nat -> Input { (i: nat) => f(i + k) }

  // The pipeline after n clocks of an endless input.
  ghost function After(u: Setup, P: Pipe, f: nat -> Input, n: nat): (P': Pipe)
    requires PipeFirm(u, P) && P.waiting == [] && AllQuiet(u, f)
    ensures PipeFirm(u, P') && P'.waiting == [] && Work(P') <= Work(P)
  {
    if n == 0 then P
    else
      var Q := After(u, P, f, n - 1);
      TickWork(u, Q, f(n - 1));
      PipeTick(u, Q, f(n - 1))
  }

  // The last m clocks of a tracker saw no ACT.
  predicate ClearTail(q: seq<nat>, m: nat) { forall j :: 0 <= j < |q| && j + m >= |q| ==> q[j] == 0 }

  predicate Emptied(bus: seq<nat>, was: seq<nat>, n: nat) {
    |bus| == |was| && forall i :: 0 <= i < |bus| ==> bus[i] == 0 || bus[i] + n <= was[i]
  }

  // n clocks in which nothing has moved.
  ghost predicate StillFor(g: Config, P: Pipe, P': Pipe, n: nat) {
    && P'.cmdQ == P.cmdQ && P'.drv.inputQ == P.drv.inputQ && P'.drv.dev.now == P.drv.dev.now + n
    && |P'.drv.dev.banks| == |P.drv.dev.banks|
    && (forall b :: 0 <= b < |P.drv.dev.banks| ==> P'.drv.dev.banks[b] == Ticks(g.p, P.drv.dev.banks[b], P.drv.dev.now, n))
    && Emptied(P'.drv.rowBus, P.drv.rowBus, n) && Emptied(P'.drv.colBus, P.drv.colBus, n)
    && |P'.drv.faw| == |P.drv.faw| && (forall r :: 0 <= r < |P.drv.faw| ==> |P'.drv.faw[r]| == |P.drv.faw[r]|)
    && (n > 0 ==> ClearTails(P'.drv, n - 1))
  }

  predicate ClearTails(s: Driver, m: nat) {
    |s.actIssued| == |s.faw| && forall r :: 0 <= r < |s.faw| ==> !s.actIssued[r] && ClearTail(s.faw[r], m)
  }

  lemma ClearMore(q: seq<nat>, issued: bool, m: nat)
    requires issued ==> m == 0
    requires m > 0 ==> ClearTail(q, m - 1)
    ensures ClearTail(ShiftFaw(q, issued), m)
  {}

  lemma EmptiedMore(bus: seq<nat>, was: seq<nat>, n: nat)
    requires Emptied(bus, was, n)
    ensures Emptied(ReleaseBus(ReleaseBus(bus)), was, n + 1)
  {}

  lemma StillMore(g: Config, P: Pipe, Q: Pipe, Q': Pipe, n: nat)
    requires StillFor(g, P, Q, n) && Still(g, Q.drv, Q'.drv) && Q'.cmdQ == Q.cmdQ
    ensures StillFor(g, P, Q', n + 1)
  {
    hide Tick, ReleaseBus, Emptied, ClearTail, ShiftFaw;
    EmptiedMore(Q.drv.rowBus, P.drv.rowBus, n);
    EmptiedMore(Q.drv.colBus, P.drv.colBus, n);
    forall b | 0 <= b < |P.drv.dev.banks|
      ensures Q'.drv.dev.banks[b] == Ticks(g.p, P.drv.dev.banks[b], P.drv.dev.now, n + 1)
    {
      TicksAppend(g.p, P.drv.dev.banks[b], P.drv.dev.now, n);
    }
    forall r | 0 <= r < |Q.drv.faw| ensures |Q'.drv.faw[r]| == |Q.drv.faw[r]| && ClearTail(Q'.drv.faw[r], n) {
      ClearMore(Q.drv.faw[r], Q.drv.actIssued[r], n);
    }
  }

  // As long as the work stays the same nothing moves.
  lemma {:induction false} NothingMoved(u: Setup, P: Pipe, f: nat -> Input, n: nat)
    requires PipeFirm(u, P) && P.waiting == [] && AllQuiet(u, f)
    requires Work(After(u, P, f, n)) == Work(P)
    ensures StillFor(u.g, P, After(u, P, f, n), n)
  {
    hide PipeFirm, Quiet, Work, PipeTick, StillFor;
    if n == 0 {
      assert StillFor(u.g, P, P, 0) by { StillNow(u.g, P); }
    } else {
      var Q := After(u, P, f, n - 1);
      TickWork(u, Q, f(n - 1));
      NothingMoved(u, P, f, n - 1);
      StillMore(u.g, P, Q, After(u, P, f, n), n - 1);
    }
  }

  lemma StillNow(g: Config, P: Pipe)
    ensures StillFor(g, P, P, 0)
  {}

  lemma {:induction false} BelowSum(q: seq<nat>, i: nat)
    requires i < |q|
    ensures q[i] <= Sum(q)
  {
    if i > 0 {
      assert q[1..][i - 1] == q[i];
      BelowSum(q[1..], i - 1);
    }
  }

  lemma EmptiedAll(bus: seq<nat>, was: seq<nat>, n: nat)
    requires Emptied(bus, was, n) && n >= Sum(was)
    ensures forall i :: 0 <= i < |bus| ==> bus[i] == 0
  {
    forall i | 0 <= i < |bus| ensures bus[i] == 0 { BelowSum(was, i); }
  }

  lemma {:induction false} SumZero(q: seq<nat>)
    requires forall j :: 0 <= j < |q| ==> q[j] == 0
    ensures Sum(q) == 0
  {
    if q != [] {
      assert forall j :: 0 <= j < |q[1..]| ==> q[1..][j] == q[j + 1];
      SumZero(q[1..]);
    }
  }

  // After enough of them the buses are free and the trackers empty.
  lemma StillFrees(g: Config, P: Pipe, Q: Pipe, n: nat)
    requires Shaped(g, P.drv) && Shaped(g, Q.drv) && StillFor(g, P, Q, n) && n > g.p.nFAW + Sum(P.drv.rowBus) + Sum(P.drv.colBus)
    ensures BusesFree(Q.drv) && Untracked(Q.drv)
  {
    hide Topology.Valid, DramDevice.Fits, QueueOk, RefQOk, Ticks, Sum;
    EmptiedAll(Q.drv.rowBus, P.drv.rowBus, n);
    EmptiedAll(Q.drv.colBus, P.drv.colBus, n);
    forall r | 0 <= r < |Q.drv.faw| ensures Sum(ShiftFaw(Q.drv.faw[r], Q.drv.actIssued[r])) == 0 {
      assert ClearTail(Q.drv.faw[r], n - 1);
      SumZero(ShiftFaw(Q.drv.faw[r], Q.drv.actIssued[r]));
    }
  }

  // The command that is to move next: the oldest in the driver, or a queue's head.
  ghost predicate Target(P: Pipe, b: nat, c: Cmd) {
    if P.drv.inputQ != [] then c == P.drv.inputQ[0] && b == c.bank
    else b < |P.cmdQ| && P.cmdQ[b] != [] && c == P.cmdQ[b][0]
  }

  lemma TargetThere(u: Setup, P: Pipe) returns (b: nat, c: Cmd)
    requires PipeFirm(u, P) && Work(P) > 0
    ensures Target(P, b, c) && b < u.g.t.Banks()
  {
    hide Shaped, Safe, RowsOk, FirmRows;
    if P.drv.inputQ != [] {
      b, c := P.drv.inputQ[0].bank, P.drv.inputQ[0];
      FirmNoRefresh(u, P);
      FirstBank(u.g, P.drv);
    } else {
      LoadZero(P.cmdQ);
      b :| 0 <= b < |P.cmdQ| && P.cmdQ[b] != [];
      c := P.cmdQ[b][0];
    }
  }

  // It is legal for its bank.
  lemma TargetIsLegal(u: Setup, P: Pipe, b: nat, c: Cmd)
    requires PipeFirm(u, P) && Target(P, b, c) && b < u.g.t.Banks()
    ensures b < |P.drv.dev.banks| && BankOk(P.drv.dev.banks[b]) && StepRow(RowOf(P.drv.dev.banks[b]), c).Some? && !c.kind.REF?
  {
    hide Safe, StreamOk, RowsRight, Doomed, Doomable, BankOk, RowOf, StepRow, Topology.Valid, OnBank;
    var inQ, tail := OnBank(P.drv.inputQ, b), Tails(P)[b];
    assert BankRowOk(P.drv.dev.banks[b], inQ, tail) && Firm(P.drv.dev.banks[b], inQ, tail) && Plain(tail.cmds);
    if P.drv.inputQ != [] {
      HeadOnBank(P.drv.inputQ);
      assert (inQ + tail.cmds)[0] == c;
    } else {
      NothingOnBank(b);
      assert inQ + tail.cmds == tail.cmds;
    }
    FirstIsLegal(P.drv.dev.banks[b], inQ, tail);
  }

  lemma HeadOnBank(q: seq<Cmd>)
    requires q != []
    ensures OnBank(q, q[0].bank) != [] && OnBank(q, q[0].bank)[0] == q[0]
  {}

  lemma NothingOnBank(b: nat)
    ensures OnBank([], b) == []
  {}

  // Whatever the order of visits, some command moves after finitely many clocks.
  lemma SomethingMoves(u: Setup, P: Pipe, f: nat -> Input) returns (n: nat)
    requires PipeFirm(u, P) && P.waiting == [] && AllQuiet(u, f) && Work(P) > 0
    ensures Work(After(u, P, f, n)) < Work(P)
  {
    hide PipeFirm, Quiet, Work, PipeTick, StillFor, Shaped, BankOk, RowOf, Target, Ticks, Tick, Allowed;
    var b, c := TargetThere(u, P);
    TargetIsLegal(u, P, b, c);
    var m := AcceptsForGood(u.g.p, P.drv.dev.banks[b], P.drv.dev.now, c);
    n := m + u.g.p.nFAW + Sum(P.drv.rowBus) + Sum(P.drv.colBus) + 1;
    if Work(After(u, P, f, n)) == Work(P) {
      var Q := After(u, P, f, n);
      NothingMoved(u, P, f, n);
      FirmNoRefresh(u, P);
      FirmNoRefresh(u, Q);
      StillFrees(u.g, P, Q, n);
      TargetStays(u.g, P, Q, n, b, c);
      TargetMoves(u, Q, f(n), b, c);
      assert After(u, P, f, n + 1) == PipeTick(u, Q, f(n));
      n := n + 1;
    }
  }

  lemma TargetStays(g: Config, P: Pipe, Q: Pipe, n: nat, b: nat, c: Cmd)
    requires StillFor(g, P, Q, n) && Target(P, b, c) && b < |P.drv.dev.banks|
    requires Allowed(Ticks(g.p, P.drv.dev.banks[b], P.drv.dev.now, n + 1), c.kind, P.drv.dev.now + (n + 1))
    ensures Target(Q, b, c) && TakesNext(g.p, Q.drv.dev, b, c.kind)
  {
    hide Tick, Emptied, ClearTails;
    TicksAppend(g.p, P.drv.dev.banks[b], P.drv.dev.now, n);
  }

  lemma TargetMoves(u: Setup, P: Pipe, x: Input, b: nat, c: Cmd)
    requires PipeFirm(u, P) && P.waiting == [] && Quiet(u, x) && BusesFree(P.drv) && Untracked(P.drv)
    requires Target(P, b, c) && TakesNext(u.g.p, P.drv.dev, b, c.kind)
    ensures InputOk(u, x) && Formed(u, P) && Work(PipeTick(u, P, x)) < Work(P)
  {
    hide PipeFirm, Quiet, Work, PipeTick, BusesFree, Untracked, TakesNext;
    if P.drv.inputQ != [] { FirstMoves(u, P, x); } else { HeadMoves(u, P, x, b); }
  }

  // ---------------------------------------------------------------- the queues drain

  lemma ShiftQuiet(u: Setup, f: nat -> Input, k: nat)
    requires AllQuiet(u, f)
    ensures AllQuiet(u, Shift(f, k))
  {
    forall i: nat ensures Quiet(u, Shift(f, k)(i)) { assert Quiet(u, f(i + k)); }
  }

  lemma {:induction false} AfterShifted(u: Setup, P: Pipe, f: nat -> Input, k: nat, n: nat)
    requires PipeFirm(u, P) && P.waiting == [] && AllQuiet(u, f) && AllQuiet(u, Shift(f, k))
    ensures After(u, P, f, k + n) == After(u, After(u, P, f, k), Shift(f, k), n)
  {
    hide PipeFirm, AllQuiet, Work, PipeTick;
    if n > 0 { AfterShifted(u, P, f, k, n - 1); }
  }

  predicate Drained(P: Pipe) { P.drv.inputQ == [] && P.waiting == [] && forall b :: 0 <= b < |P.cmdQ| ==> P.cmdQ[b] == [] }

  // Main result: from every state of the pipeline all queues run empty, for every bank
  // policy, all parameters and every order of visits that leaves no queue out for good.
  lemma {:induction false} QueuesDrain(u: Setup, P: Pipe, f: nat -> Input) returns (n: nat)
    requires PipeFirm(u, P) && P.waiting == [] && AllQuiet(u, f)
    ensures Drained(After(u, P, f, n))
    decreases Work(P)
  {
    hide PipeFirm, AllQuiet, PipeTick, Load, After;
    if Work(P) == 0 {
      n := 0;
      LoadZero(P.cmdQ);
      assert After(u, P, f, 0) == P by { AtOnce(u, P, f); }
    } else {
      var k := SomethingMoves(u, P, f);
      ShiftQuiet(u, f, k);
      var m := QueuesDrain(u, After(u, P, f, k), Shift(f, k));
      AfterShifted(u, P, f, k, m);
      n := k + m;
    }
  }

  lemma AtOnce(u: Setup, P: Pipe, f: nat -> Input)
    requires PipeFirm(u, P) && P.waiting == [] && AllQuiet(u, f)
    ensures After(u, P, f, 0) == P
  {}

  // ---------------------------------------------------------------- whole runs

  lemma InitialFirm(u: Setup)
    requires u.g.t.Valid() && u.g.p.nFAW > 0 && !u.g.useRefresh
    ensures PipeFirm(u, InitialPipe(u))
  {
    hide Topology.Valid, StreamOk, Safe;
    PipeInitialOk(u);
    var P := InitialPipe(u);
    InitialBankOk();
    forall b | 0 <= b < u.g.t.Banks() ensures Firm(P.drv.dev.banks[b], OnBank(P.drv.inputQ, b), Tails(P)[b]) {
      NothingOnBank(b);
    }
  }

  lemma TickFirm(u: Setup, P: Pipe, x: Input)
    requires PipeFirm(u, P) && InputOk(u, x)
    ensures Formed(u, P) && PipeFirm(u, PipeTick(u, P, x))
  {
    hide Shaped, Safe, RowsOk, StreamOk, Settled, VisitAll, ConvertPhase, Update, FirmRows, DramDriver.Run, InputOk;
    UpdatePipe(u, P);
    var P1 := P.(drv := Update(u.g, P.drv));
    BanksOf(u, P, x);
    ConvertPhaseFirm(u, P1, x.txns);
    VisitAllWork(u, ConvertPhase(u, P1, x.txns), x.order, 0);
    RunPipe(u, VisitAll(u, ConvertPhase(u, P1, x.txns), x.order));
  }

  lemma BanksOf(u: Setup, P: Pipe, x: Input)
    requires InputOk(u, x)
    ensures forall i :: 0 <= i < |x.txns| ==> x.txns[i].bank < u.g.t.Banks()
  {}

  lemma {:induction false} EveryRunFirm(u: Setup, xs: seq<Input>)
    requires u.g.t.Valid() && u.g.p.nFAW > 0 && Inputs(u, xs) && !u.g.useRefresh
    ensures PipeFirm(u, PipeRun(u, xs))
  {
    hide PipeFirm, PipeOk, PipeTick, Topology.Valid, InputOk, InitialPipe;
    if |xs| == 0 {
      InitialFirm(u);
    } else {
      EveryRunFirm(u, xs[..|xs| - 1]);
      TickFirm(u, PipeRun(u, xs[..|xs| - 1]), xs[|xs| - 1]);
    }
  }

  // The first n inputs of an endless one.
  function Take(f: nat -> Input, n: nat): (q: seq<Input>)
    ensures |q| == n
  {
    seq(n, (i: nat) => f(i))
  }

  lemma {:induction false} RunThenAfter(u: Setup, xs: seq<Input>, f: nat -> Input, n: nat)
    requires u.g.t.Valid() && u.g.p.nFAW > 0 && Inputs(u, xs) && !u.g.useRefresh && PipeRun(u, xs).waiting == []
    requires AllQuiet(u, f)
    ensures PipeFirm(u, PipeRun(u, xs)) && Inputs(u, xs + Take(f, n))
    ensures PipeRun(u, xs + Take(f, n)) == After(u, PipeRun(u, xs), f, n)
  {
    hide PipeFirm, PipeOk, PipeTick, Topology.Valid, InitialPipe, InputOk, InitialDriver, Shaped;
    EveryRunFirm(u, xs);
    assert forall i :: 0 <= i < n ==> Quiet(u, Take(f, n)[i]);
    if n == 0 {
      assert xs + Take(f, 0) == xs;
    } else {
      RunThenAfter(u, xs, f, n - 1);
      var all := xs + Take(f, n);
      assert all[..|all| - 1] == xs + Take(f, n - 1);
      TickWork(u, After(u, PipeRun(u, xs), f, n - 1), f(n - 1));
    }
  }

  lemma {:induction false} QuietGiven(u: Setup, xs: seq<Input>, f: nat -> Input, n: nat, b: nat)
    requires AllQuiet(u, f)
    ensures Given(xs + Take(f, n), b) == Given(xs, b)
  {
    if n == 0 {
      assert xs + Take(f, 0) == xs;
    } else {
      QuietGiven(u, xs, f, n - 1, b);
      var all := xs + Take(f, n);
      assert all[..|all| - 1] == xs + Take(f, n - 1);
      assert Quiet(u, f(n - 1)) && Wanted([], b) == [];
      assert Given(xs, b) + [] == Given(xs, b);
    }
  }

  // Main result: after every run whose converter is empty, once no more transactions come,
  // every transaction given so far is performed after finitely many clocks, and each bank's
  // in the order given.
  lemma EveryTransactionPerformed(u: Setup, xs: seq<Input>, f: nat -> Input) returns (n: nat)
    requires u.g.t.Valid() && u.g.p.nFAW > 0 && Inputs(u, xs) && !u.g.useRefresh && PipeRun(u, xs).waiting == []
    requires AllQuiet(u, f)
    ensures Inputs(u, xs + Take(f, n)) && Drained(PipeRun(u, xs + Take(f, n)))
    ensures forall b: nat :: b < u.g.t.Banks() ==> Transfers(Performed(PipeRun(u, xs + Take(f, n)).drv.dev.trace, b)) == Given(xs, b)
  {
    hide PipeFirm, PipeOk, Topology.Valid, PipeRun, After, Quiet, Given, Performed, Transfers, Inputs;
    EveryRunFirm(u, xs);
    n := QueuesDrain(u, PipeRun(u, xs), f);
    RunThenAfter(u, xs, f, n);
    var all := xs + Take(f, n);
    var P := PipeRun(u, all);
    forall b: nat | b < u.g.t.Banks() ensures Transfers(Performed(P.drv.dev.trace, b)) == Given(xs, b) {
      QuietGiven(u, xs, f, n, b);
      TransactionsInOrder(u, all, b);
      Formation(u, P);
      DrainedStream(P, b);
    }
  }

  lemma Formation(u: Setup, P: Pipe)
    requires PipeOk(u, P)
    ensures |P.cmdQ| == u.g.t.Banks()
  {}

  lemma DrainedStream(P: Pipe, b: nat)
    requires Drained(P) && b < |P.cmdQ|
    ensures var q := Transfers(Performed(P.drv.dev.trace, b));
            q + Transfers(Cols(OnBank(P.drv.inputQ, b))) + Transfers(Cols(P.cmdQ[b])) + Wanted(P.waiting, b) == q
  {
    var q := Transfers(Performed(P.drv.dev.trace, b));
    assert OnBank([], b) == [] && Cols([]) == [] && Transfers([]) == [] && Wanted([], b) == [];
    assert q + [] + [] + [] == q;
  }
}
