// The condition on the parameters under which the driver's data-bus assertion holds is
// exact: outside it a run on a single bank fails the assertion.
module DramBus {
  import opened Common
  import opened DramTypes
  import opened DramBank
  import opened DramDevice
  import opened DramTiming
  import opened DramDriver
  import opened DramFaw
  import opened DramSafety
  import opened DramRows
  import opened DramSettle
  import opened DramRefresh

  // One bank, no refresh, single-cycle commands on one bus.
  ghost function OneBank(p: Params): (g: Config)
    ensures g.p == p && g.t.Valid()
  {
    Config(p, Topology([0], [0], [0], [0], [0], 1, [[0]]), false, false, false, false)
  }

  const OPEN: Cmd := Cmd(0, ACT, 0, 0, 0)
  const READS: Cmd := Cmd(1, READ, 0, 0, 0)

  // Nothing is queued, the bus is free after the next update, and no address is in flight.
  ghost predicate Ready(g: Config, s: Driver) {
    && Shaped(g, s) && s.inputQ == [] && |s.rowBus| == |s.colBus| == 1 && s.rowBus[0] <= 1 && s.colBus[0] <= 1
    && |s.dev.banks| == 1
  }

  // A clock without calls.
  lemma IdleClock(p: Params, s: Driver)
    requires p.nFAW > 0 && Ready(OneBank(p), s)
    ensures var s' := DramDriver.Run(OneBank(p), Update(OneBank(p), s));
            && Ready(OneBank(p), s') && s'.dev == DevTick(p, s.dev) && s'.data == s.data && s'.dataClash == s.dataClash
  {
    hide Tick;
  }

  // The one command of the queue is sent.
  lemma ScanSends(p: Params, s: Driver, c: Cmd)
    requires p.nFAW > 0 && Shaped(OneBank(p), s) && s.inputQ == [c] && c.bank == 0 && (c.kind.ACT? || c.kind.READ?)
    requires s.rowBus == [0] && s.colBus == [0] && s.inflight == {} && !s.blocked[0] && |s.dev.banks| == 1
    requires CanSend(s.dev, c) && (c.kind.ACT? ==> Sum(s.faw[0]) < 4)
    ensures var s' := ScanFrom(OneBank(p), s, 0, ActCounts(s));
            && Ready(OneBank(p), s') && s'.dev == DevSend(p, OneBank(p).t, s.dev, c)
            && s'.dataClash == (s.dataClash || (c.kind.READ? && !DataBusOk(OneBank(p), s, c)))
            && s'.data == if c.kind.READ? then DataCmd(s.dev.now, READ, 0) else s.data
  {
    hide Allowed, Sum, Topology.Valid, DevSend, Judge, DataBusOk, Issue, ScanFrom, BusGap;
    JudgeSends(p, s, c);
    IssueOnly(p, s, c);
    ScanOnly(p, s, c);
  }

  lemma IssueOnly(p: Params, s: Driver, c: Cmd)
    requires p.nFAW > 0 && Shaped(OneBank(p), s) && s.inputQ == [c] && c.bank == 0 && (c.kind.ACT? || c.kind.READ?)
    requires s.rowBus == [0] && s.colBus == [0] && |s.dev.banks| == 1 && CanSend(s.dev, c) && |s.blocked| == 1
    ensures var s' := Issue(OneBank(p), Mark(s, c), 0);
            && s'.inputQ == [] && s'.rowBus == [1] && s'.colBus == [1] && s'.dev == DevSend(p, OneBank(p).t, s.dev, c)
            && |s'.dev.banks| == 1
            && s'.dataClash == (s.dataClash || (c.kind.READ? && !DataBusOk(OneBank(p), s, c)))
            && s'.data == if c.kind.READ? then DataCmd(s.dev.now, READ, 0) else s.data
  {
    hide Allowed, Topology.Valid, DataBusOk, QueueOk, RefQOk, Handle, Push;
    MarkedBus(OneBank(p), s, c);
    assert Without([c], 0) == [];
  }

  lemma ScanOnly(p: Params, s: Driver, c: Cmd)
    requires p.nFAW > 0 && Shaped(OneBank(p), s) && s.inputQ == [c] && c.bank == 0 && |s.blocked| == 1 && CanSend(s.dev, c)
    requires |ActCounts(s)| == OneBank(p).t.Ranks() && Judge(OneBank(p), s, c, ActCounts(s)).Send?
    requires Issue(OneBank(p), Mark(s, c), 0).inputQ == []
    ensures ScanFrom(OneBank(p), s, 0, ActCounts(s)) == Issue(OneBank(p), Mark(s, c), 0)
  {
    hide Allowed, Topology.Valid, Judge, Issue, DramDevice.Fits, RefQOk;
    var s4 := Issue(OneBank(p), Mark(s, c), 0);
    assert ScanOne(OneBank(p), s, 0, ActCounts(s)) == Scan(s4, 0, AllBusy(s4));
  }

  lemma MarkedBus(g: Config, s: Driver, c: Cmd)
    requires c.bank < |s.blocked|
    ensures DataBusOk(g, Mark(s, c), c) == DataBusOk(g, s, c)
  {}

  lemma JudgeSends(p: Params, s: Driver, c: Cmd)
    requires p.nFAW > 0 && Shaped(OneBank(p), s) && s.inputQ == [c] && c.bank == 0 && (c.kind.ACT? || c.kind.READ?)
    requires s.rowBus == [0] && s.colBus == [0] && s.inflight == {} && !s.blocked[0]
    requires CanSend(s.dev, c) && (c.kind.ACT? ==> Sum(s.faw[0]) < 4)
    ensures |ActCounts(s)| == OneBank(p).t.Ranks() && Judge(OneBank(p), s, c, ActCounts(s)).Send?
  {
    hide Allowed, Sum;
  }

  lemma Enqueued(p: Params, s: Driver, c: Cmd)
    requires p.nFAW > 0 && Ready(OneBank(p), s) && c.bank == 0
    ensures var s2 := Calls(OneBank(p), Update(OneBank(p), s), [Enqueue(c)]);
            && s2.inputQ == [c] && s2.rowBus == [1] && s2.colBus == [1] && s2.inflight == {} && !s2.blocked[0]
            && s2.dev == DevTick(p, s.dev) && s2.faw == Update(OneBank(p), s).faw && s2.data == s.data && s2.dataClash == s.dataClash
            && Shaped(OneBank(p), s2) && !s2.actIssued[0]
  {
    hide Tick;
    var g := OneBank(p);
    OneCall(g, Update(g, s), c);
  }

  lemma OneCall(g: Config, s: Driver, c: Cmd)
    requires Shaped(g, s) && c.bank < g.t.Banks()
    ensures Calls(g, s, [Enqueue(c)]) == PushCmd(g, s, c).0
  {
    assert [Enqueue(c)][1..] == [];
  }

  // A command for the bank that it takes now goes straight through.
  lemma SendClock(p: Params, s: Driver, c: Cmd)
    requires p.nFAW > 0 && Ready(OneBank(p), s) && c.bank == 0 && (c.kind.ACT? || c.kind.READ?)
    requires CanSend(DevTick(p, s.dev), c)
    requires c.kind.ACT? ==> Sum(Update(OneBank(p), s).faw[0]) < 4
    ensures var s' := DramDriver.Run(OneBank(p), Calls(OneBank(p), Update(OneBank(p), s), [Enqueue(c)]));
            && Ready(OneBank(p), s') && s'.dev == DevSend(p, OneBank(p).t, DevTick(p, s.dev), c)
            && s'.dataClash == (s.dataClash || (c.kind.READ? && !DataBusOk(OneBank(p), s.(dev := DevTick(p, s.dev)), c)))
            && s'.data == if c.kind.READ? then DataCmd(s.dev.now + 1, READ, 0) else s.data
  {
    hide DevSend, CanSend, Sum, Update, Calls, ScanFrom, DevTick, Topology.Valid;
    var g := OneBank(p);
    Enqueued(p, s, c);
    var s2 := Calls(g, Update(g, s), [Enqueue(c)]);
    var s3 := s2.(rowBus := ReleaseBus(s2.rowBus), colBus := ReleaseBus(s2.colBus));
    assert s3.rowBus == [0] && s3.colBus == [0];
    ScanSends(p, s3, c);
    assert s2.dev.now == s.dev.now + 1 by { NextNow(p, s.dev); }
  }

  lemma NextNow(p: Params, d: Device)
    ensures DevTick(p, d).now == d.now + 1
  {}

  // ---------------------------------------------------------------- runs on the one bank

  function IdleClocks(n: nat): (q: seq<seq<Call>>)
    ensures |q| == n
  {
    seq(n, (i: nat) => [])
  }

  // What the runs below say of a state: the bank, the time, and the assertion's memory.
  ghost predicate Shows(p: Params, s: Driver, now: nat, b: Bank, data: DataCmd, clash: bool) {
    && Ready(OneBank(p), s) && s.dev.now == now && s.dev.banks == [b] && s.data == data && s.dataClash == clash
    && NoAuto(s.dev.trace)
  }

  ghost predicate RunShows(p: Params, clocks: seq<seq<Call>>, now: nat, b: Bank, data: DataCmd, clash: bool) {
    p.nFAW > 0 && Shows(p, DriverRun(OneBank(p), clocks), now, b, data, clash)
  }

  lemma RunOne(p: Params, clocks: seq<seq<Call>>, calls: seq<Call>)
    requires p.nFAW > 0
    ensures var g := OneBank(p); DriverRun(g, clocks + [calls]) == DramDriver.Run(g, Calls(g, Update(g, DriverRun(g, clocks)), calls))
  {
    assert (clocks + [calls])[..|clocks + [calls]| - 1] == clocks;
  }

  lemma IdleStep(p: Params, s: Driver, now: nat, b: Bank, data: DataCmd, clash: bool)
    requires p.nFAW > 0 && Shows(p, s, now, b, data, clash)
    ensures Shows(p, DramDriver.Run(OneBank(p), Calls(OneBank(p), Update(OneBank(p), s), [])), now + 1, Tick(p, b, now + 1), data, clash)
  {
    hide Tick, Topology.Valid, NoAuto, DramDriver.Run, Update, Calls, OneBank;
    NoCall(OneBank(p), s);
    IdleClock(p, s);
    assert DevTick(p, s.dev).banks == [Tick(p, b, now + 1)];
  }

  lemma {:induction false} IdleRun(p: Params, clocks: seq<seq<Call>>, n: nat, now: nat, b: Bank, data: DataCmd, clash: bool)
    requires RunShows(p, clocks, now, b, data, clash)
    ensures RunShows(p, clocks + IdleClocks(n), now + n, Ticks(p, b, now, n), data, clash)
  {
    hide Tick, Shows, DriverRun, OneBank, Topology.Valid, Shaped, DramDriver.Run, Calls, Update;
    if n == 0 {
      assert clocks + IdleClocks(0) == clocks;
    } else {
      var before := clocks + IdleClocks(n - 1);
      IdleRun(p, clocks, n - 1, now, b, data, clash);
      assert clocks + IdleClocks(n) == before + [[]];
      RunOne(p, before, []);
      IdleStep(p, DriverRun(OneBank(p), before), now + (n - 1), Ticks(p, b, now, n - 1), data, clash);
      TicksAppend(p, b, now, n - 1);
    }
  }

  lemma NoCall(g: Config, s: Driver)
    requires Shaped(g, s)
    ensures Calls(g, Update(g, s), []) == Update(g, s)
  {}

  // The read comes sooner after the last one than the assertion allows.
  predicate TooSoon(p: Params, c: Cmd, now: nat, data: DataCmd) {
    c.kind.READ? && data.kind.READ? && data.chan == 0 && now - data.cycle < BusGap(p)
  }

  function Remembered(c: Cmd, now: nat, data: DataCmd): DataCmd { if c.kind.READ? then DataCmd(now, READ, 0) else data }

  lemma SendStep(p: Params, s: Driver, c: Cmd, now: nat, b: Bank, data: DataCmd, clash: bool)
    requires p.nFAW > 0 && Shows(p, s, now, b, data, clash) && c.bank == 0 && (c.kind.ACT? || c.kind.READ?)
    requires Allowed(Tick(p, b, now + 1), c.kind, now + 1)
    requires c.kind.ACT? ==> Sum(Update(OneBank(p), s).faw[0]) < 4
    ensures Shows(p, DramDriver.Run(OneBank(p), Calls(OneBank(p), Update(OneBank(p), s), [Enqueue(c)])), now + 1,
                  Handle(Tick(p, b, now + 1), c, now + 1), Remembered(c, now + 1, data), clash || TooSoon(p, c, now + 1, data))
  {
    hide Tick, Allowed, Handle, Push, Sum, Update, Calls, DramDriver.Run, Topology.Valid, Shaped;
    assert DevTick(p, s.dev).banks == [Tick(p, b, now + 1)];
    SendClock(p, s, c);
    AllowedAccepts(Tick(p, b, now + 1), c.kind, now + 1);
    var d := DevTick(p, s.dev);
    assert DevSend(p, OneBank(p).t, d, c).banks == [Handle(Tick(p, b, now + 1), c, now + 1)];
    assert NoAuto(DevSend(p, OneBank(p).t, d, c).trace);
    assert OneBank(p).t.ChanOf(0) == 0;
  }

  // A command sent in one more clock.
  lemma SendRun(p: Params, clocks: seq<seq<Call>>, c: Cmd, now: nat, b: Bank, data: DataCmd, clash: bool)
    requires RunShows(p, clocks, now, b, data, clash) && c.bank == 0 && (c.kind.ACT? || c.kind.READ?)
    requires Allowed(Tick(p, b, now + 1), c.kind, now + 1)
    requires c.kind.ACT? ==> Sum(Update(OneBank(p), DriverRun(OneBank(p), clocks)).faw[0]) < 4
    ensures RunShows(p, clocks + [[Enqueue(c)]], now + 1, Handle(Tick(p, b, now + 1), c, now + 1),
                     Remembered(c, now + 1, data), clash || TooSoon(p, c, now + 1, data))
  {
    hide Tick, Allowed, Handle, Sum, Update, Calls, DriverRun, DramDriver.Run, Shows, OneBank, Topology.Valid, TooSoon, Remembered;
    RunOne(p, clocks, [Enqueue(c)]);
    AllowedAccepts(Tick(p, b, now + 1), c.kind, now + 1);
    SendStep(p, DriverRun(OneBank(p), clocks), c, now, b, data, clash);
  }

  lemma AllowedAccepts(b: Bank, k: Kind, cycle: nat)
    requires Allowed(b, k, cycle)
    ensures Accepts(b.st, k)
  {}

  // ---------------------------------------------------------------- the failing runs

  // The bank after an ACT in cycle 1.
  function Opening1(p: Params): Bank { Handle(Tick(p, INITIAL, 1), OPEN, 1) }

  lemma OpenRun(p: Params)
    requires p.nFAW > 0
    ensures RunShows(p, [[Enqueue(OPEN)]], 1, Opening1(p), DataCmd(0, READ, 0), false)
  {
    hide DramDriver.Run, Tick, Handle, Update, INITIAL, Topology.Valid, OneBank, Shows, DriverRun, Sum;
    assert RunShows(p, [], 0, INITIAL, DataCmd(0, READ, 0), false) by { NothingRun(p); }
    FirstTracker(p);
    OpensAtOnce(p);
    SendRun(p, [], OPEN, 0, INITIAL, DataCmd(0, READ, 0), false);
    assert [] + [[Enqueue(OPEN)]] == [[Enqueue(OPEN)]];
  }

  lemma NothingRun(p: Params)
    requires p.nFAW > 0
    ensures RunShows(p, [], 0, INITIAL, DataCmd(0, READ, 0), false)
  {
    hide INITIAL;
    InitialShaped(OneBank(p));
  }

  lemma OpensAtOnce(p: Params)
    ensures Allowed(Tick(p, INITIAL, 1), ACT, 1)
  {}

  lemma FirstTracker(p: Params)
    requires p.nFAW > 0
    ensures Sum(Update(OneBank(p), DriverRun(OneBank(p), [])).faw[0]) < 4
  {
    hide Tick, INITIAL;
    var q := Update(OneBank(p), DriverRun(OneBank(p), [])).faw[0];
    assert forall j :: 0 <= j < |q| ==> q[j] == 0;
    NoAct(q);
  }

  lemma {:induction false} NoAct(q: seq<nat>)
    requires forall j :: 0 <= j < |q| ==> q[j] == 0
    ensures Sum(q) == 0
  {
    if q != [] {
      assert forall j :: 0 <= j < |q[1..]| ==> q[1..][j] == q[j + 1];
      NoAct(q[1..]);
    }
  }

  // Two cycles later its row is open, for reads from nRCD after the ACT on.
  lemma OpenedAfterTwo(p: Params)
    ensures var b := Ticks(p, Opening1(p), 1, 2);
            b.st == Active(Sub32(p.nCCD_L, 2), None) && b.next.read == p.nRCD + 1
  {
    var b0 := Opening1(p);
    var b1 := Tick(p, b0, 2);
    assert b0.st == DramBank.Idle(1, Some(OPEN)) && b0.next == ZeroCycles();
    assert b1.st == Activating(0, OPEN) && b1.next == ZeroCycles();
    assert Ticks(p, b0, 1, 2) == Ticks(p, b1, 2, 1) == Ticks(p, Tick(p, b1, 3), 3, 0);
  }

  lemma {:induction false} ActiveCounts(p: Params, b: Bank, now: nat, n: nat)
    requires b.st.Active? && b.st.received.None?
    ensures var b' := Ticks(p, b, now, n);
            b'.st == Active(if b.st.timer < n then 0 else b.st.timer - n, None) && b'.next == b.next
    decreases n
  {
    if n > 0 { ActiveCounts(p, Tick(p, b, now + 1), now + 1, n - 1); }
  }

  // The bank in cycle t, before it takes the read.
  lemma OpenInCycle(p: Params, t: nat)
    requires t >= 3
    ensures var b := Ticks(p, Opening1(p), 1, t - 1);
            && b.st == Active(if Sub32(p.nCCD_L, 2) < t - 3 then 0 else Sub32(p.nCCD_L, 2) - (t - 3), None)
            && b.next.read == p.nRCD + 1
  {
    hide Tick, Opening1, Ticks;
    OpenedAfterTwo(p);
    TicksSplit(p, Opening1(p), 1, 2, t - 3);
    ActiveCounts(p, Ticks(p, Opening1(p), 1, 2), 3, t - 3);
  }

  // An ACT in cycle 1 and a read in cycle t: too soon if t is below the gap asked for.
  lemma ReadInCycle(p: Params, t: nat) returns (clocks: seq<seq<Call>>, b: Bank, clash: bool)
    requires p.nFAW > 0 && t >= FirstColumn(p)
    ensures RunShows(p, clocks, t, b, DataCmd(t, READ, 0), clash) && (t < BusGap(p) ==> clash)
    ensures b.next.read == p.nRCD + 1 && b.last.read == t
    ensures b.st == Active(if Sub32(p.nCCD_L, 2) < t - 3 then 0 else Sub32(p.nCCD_L, 2) - (t - 3), Some(READS))
  {
    hide RunShows, Tick, Opening1, Ticks, Sum, Update, BusGap;
    var first := [[Enqueue(OPEN)]];
    OpenRun(p);
    IdleRun(p, first, t - 2, 1, Opening1(p), DataCmd(0, READ, 0), false);
    var b0 := Ticks(p, Opening1(p), 1, t - 2);
    TicksAppend(p, Opening1(p), 1, t - 2);
    OpenInCycle(p, t);
    assert Tick(p, b0, t) == Ticks(p, Opening1(p), 1, t - 1);
    SendRun(p, first + IdleClocks(t - 2), READS, t - 1, b0, DataCmd(0, READ, 0), false);
    clocks := first + IdleClocks(t - 2) + [[Enqueue(READS)]];
    b := Handle(Tick(p, b0, t), READS, t);
    clash := t < BusGap(p);
  }

  // The read state takes another read as soon as nCCD_L allows.
  lemma ReadingAgain(p: Params, b: Bank, t: nat, d: nat)
    requires b.st == Active(0, Some(READS)) && b.next.read <= t && b.last.read == t && d == Max(1, p.nCCD_L)
    ensures Allowed(Ticks(p, b, t, d), READ, t + d)
  {
    hide Tick, Ticks;
    var b1 := Tick(p, b, t + 1);
    assert Rests(b1) && Accepts(b1.st, READ) && b1.next.read <= t + d by { EntersReading(p, b, t); }
    assert Ticks(p, b, t, d) == Ticks(p, b1, t + 1, d - 1) by { OneThenMore(p, b, t, d); }
    RestsOn(p, b1, t + 1, READ, d - 1);
  }

  lemma EntersReading(p: Params, b: Bank, t: nat)
    requires b.st == Active(0, Some(READS)) && b.next.read <= t && b.last.read == t
    ensures var b1 := Tick(p, b, t + 1); Rests(b1) && Accepts(b1.st, READ) && b1.next.read <= t + Max(1, p.nCCD_L)
  {}

  lemma OneThenMore(p: Params, b: Bank, t: nat, d: nat)
    requires d > 0
    ensures Ticks(p, b, t, d) == Ticks(p, Tick(p, b, t + 1), t + 1, d - 1)
  {}

  // Two reads of the bank as close as it takes them.
  lemma ReadTwice(p: Params) returns (clocks: seq<seq<Call>>, now: nat, b: Bank, data: DataCmd)
    requires p.nFAW > 0 && Max(1, p.nCCD_L) < BusGap(p)
    ensures RunShows(p, clocks, now, b, data, true)
  {
    hide RunShows, Tick, Ticks, Sum, Update, BusGap;
    var t := FirstColumn(p) + Sub32(p.nCCD_L, 2) + 1;
    var d := Max(1, p.nCCD_L);
    var clocks1, b1, clash := ReadInCycle(p, t);
    IdleRun(p, clocks1, d - 1, t, b1, DataCmd(t, READ, 0), clash);
    var b2 := Ticks(p, b1, t, d - 1);
    TicksAppend(p, b1, t, d - 1);
    ReadingAgain(p, b1, t, d);
    SendRun(p, clocks1 + IdleClocks(d - 1), READS, t + (d - 1), b2, DataCmd(t, READ, 0), clash);
    AllowedAccepts(Tick(p, b2, t + d), READ, t + d);
    clocks := clocks1 + IdleClocks(d - 1) + [[Enqueue(READS)]];
    now, b, data := t + d, Handle(Tick(p, b2, t + d), READS, t + d), DataCmd(t + d, READ, 0);
  }

  // ---------------------------------------------------------------- the exact condition

  // The data-bus assertion holds in every run without auto-precharge, on every tree.
  ghost predicate AssertionHolds(p: Params)
    requires p.nFAW > 0
  {
    forall g: Config, clocks :: g.p == p && g.t.Valid() ==> Holds(g, clocks)
  }

  ghost predicate Holds(g: Config, clocks: seq<seq<Call>>)
    requires g.t.Valid() && g.p.nFAW > 0
  {
    NoAuto(DriverRun(g, clocks).dev.trace) ==> !DriverRun(g, clocks).dataClash
  }

  // Main result: it does so if and only if the gap it asks for exceeds neither the spacing
  // of one bank's own accesses nor the cycle of the first column command.
  lemma BusParamsExactly(p: Params)
    requires ActParams(p) && p.nFAW > 0
    ensures AssertionHolds(p) <==> BusParams(p)
  {
    hide BusGap, DriverRun, FirstColumn;
    if BusParams(p) {
      forall g: Config, clocks | g.p == p && g.t.Valid() ensures Holds(g, clocks) { EveryDriverRunIsSafe(g, clocks); }
    } else {
      if FirstColumn(p) < BusGap(p) {
        var clocks, b, clash := ReadInCycle(p, FirstColumn(p));
        assert !Holds(OneBank(p), clocks);
      } else {
        var clocks, now, b, data := ReadTwice(p);
        assert !Holds(OneBank(p), clocks);
      }
    }
  }
}
