// How long a command keeps its bus: a bus is free exactly unless a two-cycle ACT or a
// refresh has it, and so the first queued command leaves exactly when it may.
module DramBusTime {
  import opened Common
  import opened DramTypes
  import opened DramBank
  import opened DramDevice
  import opened DramDriver
  import opened DramSafety
  import opened DramRowScan
  import opened DramRefresh
  import opened DramRefreshRun
  import opened DramLanes
  import opened DramPipeline

  // ---------------------------------------------------------------- how long a command keeps its wires

  // Commands on the dual bus that take two cycles.
  predicate TwoCycles(g: Config, k: Kind) { g.dualBus && g.multiAct && k.ACT? }

  // Only a two-cycle ACT makes a counter exceed one.
  predicate Small(g: Config, s: Driver, bus: nat) {
    bus < |s.rowBus| == |s.colBus| && s.rowBus[bus] <= (if g.dualBus && g.multiAct then 2 else 1) && s.colBus[bus] <= 1
  }

  // A two-cycle ACT has gone over the bus since the events at `from`.
  ghost predicate ActSince(g: Config, q: seq<Event>, from: nat, bus: nat) {
    exists i :: from <= i < |q| && TwoCycles(g, q[i].cmd.kind) && g.t.BusOf(q[i].cmd.bank) == bus
  }

  // Within a driver run, a row counter stands at two exactly if such an ACT went over the bus.
  ghost predicate TwoExactly(g: Config, s: Driver, from: nat, bus: nat) {
    Small(g, s, bus) && from <= |s.dev.trace| && (s.rowBus[bus] == 2 <==> ActSince(g, s.dev.trace, from, bus))
  }

  lemma OccupyCounts(g: Config, s: Driver, to: nat, k: Kind, bus: nat)
    requires Small(g, s, bus) && to < |s.rowBus| && BusFree(s, to, k)
    ensures var s' := Occupy(g, s, to, k);
            Small(g, s', bus) && (s'.rowBus[bus] == 2 <==> s.rowBus[bus] == 2 || (to == bus && TwoCycles(g, k)))
  {}

  lemma ActSinceAppend(g: Config, q: seq<Event>, e: Event, from: nat, bus: nat)
    requires from <= |q|
    ensures ActSince(g, q + [e], from, bus) <==> ActSince(g, q, from, bus) || (TwoCycles(g, e.cmd.kind) && g.t.BusOf(e.cmd.bank) == bus)
  {
    var q' := q + [e];
    assert q'[|q|] == e;
    if i :| from <= i < |q| && TwoCycles(g, q[i].cmd.kind) && g.t.BusOf(q[i].cmd.bank) == bus { assert q'[i] == q[i]; }
  }

  lemma NoActSince(g: Config, q: seq<Event>, q': seq<Event>, from: nat, bus: nat)
    requires from <= |q| && q <= q' && forall i :: |q| <= i < |q'| ==> !q'[i].cmd.kind.ACT?
    ensures ActSince(g, q', from, bus) <==> ActSince(g, q, from, bus)
  {
    if i :| from <= i < |q'| && TwoCycles(g, q'[i].cmd.kind) && g.t.BusOf(q'[i].cmd.bank) == bus { assert q'[i] == q[i]; }
    if i :| from <= i < |q| && TwoCycles(g, q[i].cmd.kind) && g.t.BusOf(q[i].cmd.bank) == bus { assert q'[i] == q[i]; }
  }

  // A counter that is not out was not out when the clock began, or stands for a command of this clock.
  ghost predicate Accounted(g: Config, s0: Driver, s: Driver, bus: nat, k: Kind) {
    BusFree(s, bus, k) || !BusFree(s0, bus, k)
    || exists i :: |s0.dev.trace| <= i < |s.dev.trace| && EventBus(g, s.dev.trace[i], true) == bus && Overlap(g, s.dev.trace[i].cmd.kind, k)
  }

  lemma OccupyAccounts(g: Config, s: Driver, to: nat, k: Kind, bus: nat, a: Kind)
    requires to < |s.rowBus| == |s.colBus|
    ensures BusFree(s, bus, a) && !BusFree(Occupy(g, s, to, k), bus, a) ==> to == bus && Overlap(g, k, a)
  {}

  lemma SendCounts(g: Config, s0: Driver, s: Driver, r: nat, bus: nat, k: Kind)
    requires Shaped(g, s) && r < g.t.Ranks() && s.refQ[r] != [] && TwoExactly(g, s, |s0.dev.trace|, bus) && Accounted(g, s0, s, bus, k)
    ensures var s' := SendRefresh(g, s, r); TwoExactly(g, s', |s0.dev.trace|, bus) && Accounted(g, s0, s', bus, k)
  {
    hide Topology.Valid, Fits, QueueOk, SendRefresh, SendEach, AllCanSend, BusFree, RefEvents, Overlap, ActSince, Small, Occupy;
    var s' := SendRefresh(g, s, r);
    var rc := s.refQ[r][0];
    assert RefOk(g.t, r, rc);
    if s' != s {
      var q, q' := s.dev.trace, s'.dev.trace;
      RefBusIn(g.t, r);
      SentParts(g, s, r);
      SentEvents(g, s.dev, rc.kind, rc.banks);
      SendEachTrace(g, s.dev, rc.kind, rc.banks, 0);
      SentBlock(g, s.dev.now, q, q', r, rc);
      OccupyCounts(g, s, g.t.RefBus(r), rc.kind, bus);
      OccupyAccounts(g, s, g.t.RefBus(r), rc.kind, bus, k);
      OnlyCounters(g, s, s', g.t.RefBus(r), rc.kind, bus, k);
      NoActSince(g, q, q', |s0.dev.trace|, bus);
      assert EventBus(g, q'[|q|], true) == g.t.RefBus(r) && q'[|q|].cmd.kind == rc.kind;
      if !BusFree(s', bus, k) && BusFree(s0, bus, k) && !BusFree(s, bus, k) {
        var i :| |s0.dev.trace| <= i < |q| && EventBus(g, q[i], true) == bus && Overlap(g, q[i].cmd.kind, k);
        assert q'[i] == q[i];
      }
    }
  }

  lemma SentParts(g: Config, s: Driver, r: nat)
    requires Shaped(g, s) && r < g.t.Ranks() && s.refQ[r] != [] && SendRefresh(g, s, r) != s && g.t.RefBus(r) < g.t.buses
    ensures var rc := s.refQ[r][0];
            var s', o := SendRefresh(g, s, r), Occupy(g, s, g.t.RefBus(r), rc.kind);
            && AllCanSend(s.dev, rc.kind, rc.banks) && BusFree(s, g.t.RefBus(r), rc.kind)
            && s'.dev == SendEach(g, s.dev, rc.kind, rc.banks) && s'.rowBus == o.rowBus && s'.colBus == o.colBus
  {
    hide Topology.Valid, Fits, QueueOk, AllCanSend, SendEach, BusFree, RefQOk;
  }

  lemma SentBlock(g: Config, now: nat, q: seq<Event>, q': seq<Event>, r: nat, rc: RefCmd)
    requires RefOk(g.t, r, rc) && RefEvents(q', |q|, now, rc.kind, rc.banks) && q <= q'
    ensures |q| < |q'| && forall i :: |q| <= i < |q'| ==> q'[i].cmd.kind == rc.kind && !q'[i].cmd.kind.ACT? && g.t.RankOf(q'[i].cmd.bank) == r
  {
    hide Topology.Valid;
    forall i | |q| <= i < |q'| ensures q'[i].cmd.kind == rc.kind && q'[i].cmd.bank in rc.banks {
      assert RefEvent(q'[|q| + (i - |q|)], now, rc.kind, rc.banks[i - |q|]);
    }
  }

  lemma OnlyCounters(g: Config, s: Driver, s': Driver, to: nat, k: Kind, bus: nat, a: Kind)
    requires to < |s.rowBus| == |s.colBus|
    requires var o := Occupy(g, s, to, k); s'.rowBus == o.rowBus && s'.colBus == o.colBus
    ensures var o := Occupy(g, s, to, k); (BusFree(s', bus, a) <==> BusFree(o, bus, a)) && (Small(g, s', bus) <==> Small(g, o, bus))
  {}

  lemma {:induction false} RefreshCounts(g: Config, s0: Driver, s: Driver, r: nat, bus: nat, k: Kind)
    requires Shaped(g, s) && r <= g.t.Ranks() && TwoExactly(g, s, |s0.dev.trace|, bus) && Accounted(g, s0, s, bus, k)
    ensures var s' := RefreshFrom(g, s, r); TwoExactly(g, s', |s0.dev.trace|, bus) && Accounted(g, s0, s', bus, k)
    decreases g.t.Ranks() - r
  {
    hide Topology.Valid, Fits, QueueOk, RefQOk, RefreshRank, TwoExactly, Accounted;
    if r < g.t.Ranks() {
      RankCounts(g, s0, s, r, bus, k);
      RefreshCounts(g, s0, RefreshRank(g, s, r), r + 1, bus, k);
    }
  }

  lemma RankCounts(g: Config, s0: Driver, s: Driver, r: nat, bus: nat, k: Kind)
    requires Shaped(g, s) && r < g.t.Ranks() && TwoExactly(g, s, |s0.dev.trace|, bus) && Accounted(g, s0, s, bus, k)
    ensures var s' := RefreshRank(g, s, r); TwoExactly(g, s', |s0.dev.trace|, bus) && Accounted(g, s0, s', bus, k)
  {
    hide Topology.Valid, Fits, QueueOk, RefQOk, SendRefresh, Reinsert, OpenBanks, TwoExactly, Accounted;
    var s1 := if s.refi[r] > 0 then s.(refi := s.refi[r := s.refi[r] - 1])
              else CreateRefresh(g, s, r).(refi := s.refi[r := g.p.nREFI]);
    SameCounts(g, s0, s, s1, bus, k);
    if s1.refQ[r] != [] { SendCounts(g, s0, s1, r, bus, k); }
  }

  lemma SameCounts(g: Config, s0: Driver, s: Driver, s1: Driver, bus: nat, k: Kind)
    requires TwoExactly(g, s, |s0.dev.trace|, bus) && Accounted(g, s0, s, bus, k)
    requires s1.dev == s.dev && s1.rowBus == s.rowBus && s1.colBus == s.colBus
    ensures TwoExactly(g, s1, |s0.dev.trace|, bus) && Accounted(g, s0, s1, bus, k)
  {
    hide ActSince, Overlap, EventBus;
  }

  lemma ScanOneCounts(g: Config, s: Driver, i: nat, counts: seq<nat>, from: nat, bus: nat)
    requires Shaped(g, s) && i < |s.inputQ| && |counts| == g.t.Ranks() && TwoExactly(g, s, from, bus)
    ensures TwoExactly(g, ScanOne(g, s, i, counts).s, from, bus)
  {
    hide Topology.Valid, Fits, RefQOk, Issue, AllBusy, IsRefreshing, Precharged, Allowed, ActSince;
    var c := s.inputQ[i];
    if Judge(g, s, c, counts).Send? { IssueCounts(g, Mark(s, c), i, from, bus); }
  }

  lemma IssueCounts(g: Config, s: Driver, i: nat, from: nat, bus: nat)
    requires Shaped(g, s) && i < |s.inputQ| && CanSend(s.dev, s.inputQ[i]) && TwoExactly(g, s, from, bus)
    requires BusFree(s, g.t.BusOf(s.inputQ[i].bank), s.inputQ[i].kind)
    ensures TwoExactly(g, Issue(g, s, i), from, bus)
  {
    hide Topology.Valid, Fits, RefQOk, BusFree, DataBusOk, Handle, Push, Allowed, ActSince, Small, Occupy;
    var c := s.inputQ[i];
    var s' := Issue(g, s, i);
    BankPlace(g.t, c.bank);
    OccupyCounts(g, s, g.t.BusOf(c.bank), c.kind, bus);
    IssueParts(g, s, i);
    OnlyCounters(g, s, s', g.t.BusOf(c.bank), c.kind, bus, c.kind);
    ActSinceAppend(g, s.dev.trace, s'.dev.trace[|s.dev.trace|], from, bus);
  }

  lemma IssueParts(g: Config, s: Driver, i: nat)
    requires Shaped(g, s) && i < |s.inputQ| && CanSend(s.dev, s.inputQ[i]) && g.t.BusOf(s.inputQ[i].bank) < g.t.buses
    ensures var c := s.inputQ[i];
            var s', o := Issue(g, s, i), Occupy(g, s, g.t.BusOf(c.bank), c.kind);
            && s'.rowBus == o.rowBus && s'.colBus == o.colBus && s'.dev.now == s.dev.now
            && |s'.dev.trace| == |s.dev.trace| + 1 && s'.dev.trace == s.dev.trace + [s'.dev.trace[|s.dev.trace|]]
            && s'.dev.trace[|s.dev.trace|].cmd == c
  {
    hide Topology.Valid, Fits, RefQOk, DataBusOk, Handle, Push, Allowed;
  }

  lemma {:induction false} ScanCounts(g: Config, s: Driver, i: nat, counts: seq<nat>, from: nat, bus: nat)
    requires Shaped(g, s) && i <= |s.inputQ| && |counts| == g.t.Ranks() && TwoExactly(g, s, from, bus)
    ensures TwoExactly(g, ScanFrom(g, s, i, counts), from, bus)
    decreases |s.inputQ| - i
  {
    hide Topology.Valid, Fits, QueueOk, RefQOk, ScanOne, TwoExactly;
    if i < |s.inputQ| {
      ScanOneCounts(g, s, i, counts, from, bus);
      var o := ScanOne(g, s, i, counts);
      if !o.stop { ScanCounts(g, o.s, o.i, counts, from, bus); }
    }
  }

  // The kind of the last row command taken over for the bus by these calls.
  function LastRowPush(g: Config, s: Driver, calls: seq<Call>, bus: nat): Option<Kind>
    requires Shaped(g, s)
    decreases |calls|
  {
    if calls == [] then None
    else
      var c := calls[0].cmd;
      if c.bank >= g.t.Banks() then LastRowPush(g, s, calls[1..], bus)
      else if calls[0].Ask? then LastRowPush(g, CmdAllowed(g, s, c).0, calls[1..], bus)
      else
        var later := LastRowPush(g, PushCmd(g, s, c).0, calls[1..], bus);
        if later.Some? then later
        else if PushCmd(g, s, c).1 && g.t.BusOf(c.bank) == bus && !c.kind.IsCol() then Some(c.kind) else None
  }

  // What the calls of a clock leave on a bus.
  lemma {:induction false} CallCounts(g: Config, s: Driver, calls: seq<Call>, bus: nat)
    requires Shaped(g, s) && Small(g, s, bus)
    ensures var s' := Calls(g, s, calls);
            && Small(g, s', bus)
            && (LastRowPush(g, s, calls, bus).Some? ==> (s'.rowBus[bus] == 2 <==> TwoCycles(g, LastRowPush(g, s, calls, bus).value)))
            && (LastRowPush(g, s, calls, bus).None? ==> (s'.rowBus[bus] == 2 <==> s.rowBus[bus] == 2))
    decreases |calls|
  {
    hide Topology.Valid, Fits, QueueOk, RefQOk, CmdAllowed, PushCmd;
    if calls != [] {
      var c := calls[0].cmd;
      if c.bank >= g.t.Banks() { CallCounts(g, s, calls[1..], bus); }
      else {
        var s1 := if calls[0].Ask? then CmdAllowed(g, s, c).0 else PushCmd(g, s, c).0;
        OneCallCounts(g, s, c, bus);
        CallCounts(g, s1, calls[1..], bus);
      }
    }
  }

  lemma OneCallCounts(g: Config, s: Driver, c: Cmd, bus: nat)
    requires Shaped(g, s) && Small(g, s, bus) && c.bank < g.t.Banks()
    ensures CmdAllowed(g, s, c).0.rowBus == s.rowBus && CmdAllowed(g, s, c).0.colBus == s.colBus
    ensures var (s', ok) := PushCmd(g, s, c);
            && Small(g, s', bus)
            && (if ok && g.t.BusOf(c.bank) == bus && !c.kind.IsCol() then s'.rowBus[bus] == 2 <==> TwoCycles(g, c.kind)
                else s'.rowBus[bus] == 2 <==> s.rowBus[bus] == 2)
  {
    hide Topology.Valid, Fits, RefQOk, BusFree, HasAct;
    BankPlace(g.t, c.bank);
  }

  lemma UpdateCounts(g: Config, s: Driver, bus: nat)
    requires Shaped(g, s) && Small(g, s, bus)
    ensures var s' := Update(g, s);
            && Small(g, s', bus) && s'.rowBus[bus] <= 1 && s'.colBus[bus] == 0
            && (s'.rowBus[bus] == 1 <==> s.rowBus[bus] == 2)
  {
    hide Topology.Valid, Fits, QueueOk, RefQOk, Tick;
  }

  lemma ReleaseCounts(g: Config, s: Driver, bus: nat)
    requires Shaped(g, s) && Small(g, s, bus)
    ensures var s' := Released(g, s);
            && TwoExactly(g, s', |s.dev.trace|, bus) && s'.rowBus[bus] <= 1 && s'.colBus[bus] == 0
            && (s'.rowBus[bus] == 1 <==> s.rowBus[bus] == 2)
  {
    hide Topology.Valid, Fits, QueueOk, RefQOk;
  }

  lemma RunCounts(g: Config, s: Driver, bus: nat, k: Kind)
    requires Shaped(g, s) && Small(g, s, bus)
    ensures TwoExactly(g, DramDriver.Run(g, s), |s.dev.trace|, bus)
    ensures Accounted(g, Released(g, s), ScanStart(g, s), bus, k)
  {
    hide Topology.Valid, Fits, QueueOk, RefQOk, RefreshFrom, ScanFrom, ActCounts, TwoExactly, DramDriver.Run, BusFree, Overlap, EventBus;
    var s1, s2 := Released(g, s), ScanStart(g, s);
    ReleaseCounts(g, s, bus);
    assert Accounted(g, s1, s1, bus, k);
    if g.useRefresh { RefreshCounts(g, s1, s1, 0, bus, k); }
    RunIsScan(g, s);
    ScanCounts(g, s2, 0, ActCounts(s2), |s.dev.trace|, bus);
  }

  lemma InitialSmall(g: Config, clocks: seq<seq<Call>>, bus: nat)
    requires g.t.Valid() && g.p.nFAW > 0 && |clocks| == 0 && bus < g.t.buses
    ensures Small(g, DriverRun(g, clocks), bus)
  {}

  lemma {:induction false} CountersAlways(g: Config, clocks: seq<seq<Call>>, bus: nat)
    requires g.t.Valid() && g.p.nFAW > 0 && bus < g.t.buses
    ensures Small(g, DriverRun(g, clocks), bus)
    ensures |clocks| > 0 ==> Small(g, Offered(g, clocks), bus)
    ensures |clocks| > 0 ==> TwoExactly(g, DriverRun(g, clocks), |DriverRun(g, clocks[..|clocks| - 1]).dev.trace|, bus)
  {
    hide Topology.Valid, Shaped, Small, ActSince, DramDriver.Run, Update, Calls, DriverRun;
    if |clocks| == 0 {
      InitialSmall(g, clocks, bus);
    } else {
      var s := DriverRun(g, clocks[..|clocks| - 1]);
      CountersAlways(g, clocks[..|clocks| - 1], bus);
      UpdateCounts(g, s, bus);
      CallCounts(g, Update(g, s), clocks[|clocks| - 1], bus);
      OfferedRefreshes(g, clocks);
      RunCounts(g, Offered(g, clocks), bus, ACT);
    }
  }

  // Main result: in every run, when the clock's commands are asked for, the wires of a bus
  // are free unless a two-cycle ACT went over it in the clock before and a row command asks.
  lemma FreeWhenAsked(g: Config, clocks: seq<seq<Call>>, bus: nat, k: Kind)
    requires g.t.Valid() && g.p.nFAW > 0 && |clocks| > 0 && bus < g.t.buses
    ensures var s := DriverRun(g, clocks);
            BusFree(Update(g, s), bus, k) <==>
            k.IsCol() || !ActSince(g, s.dev.trace, |DriverRun(g, clocks[..|clocks| - 1]).dev.trace|, bus)
  {
    hide Topology.Valid, Shaped, ActSince, DriverRun, Update;
    CountersAlways(g, clocks, bus);
    UpdateCounts(g, DriverRun(g, clocks), bus);
  }

  // What the scan and the refresh phase of a clock find.
  lemma FreeWhenRun(g: Config, clocks: seq<seq<Call>>, bus: nat, k: Kind)
    requires g.t.Valid() && g.p.nFAW > 0 && |clocks| > 0 && bus < g.t.buses
    ensures var pushed := LastRowPush(g, Update(g, DriverRun(g, clocks[..|clocks| - 1])), clocks[|clocks| - 1], bus);
            BusFree(Released(g, Offered(g, clocks)), bus, k) <==> k.IsCol() || !(pushed.Some? && TwoCycles(g, pushed.value))
  {
    hide Topology.Valid, Shaped, ActSince, DriverRun, Update, Calls, LastRowPush, Released;
    var s := DriverRun(g, clocks[..|clocks| - 1]);
    CountersAlways(g, clocks[..|clocks| - 1], bus);
    UpdateCounts(g, s, bus);
    CallCounts(g, Update(g, s), clocks[|clocks| - 1], bus);
    ReleaseCounts(g, Offered(g, clocks), bus);
  }

  // Main result: after the push of a two-cycle ACT, with no later row command pushed for
  // its bus, no row command leaves over the bus in that clock, the ACT itself included.
  lemma ActWaitsAClock(g: Config, clocks: seq<seq<Call>>, i: nat)
    requires g.t.Valid() && g.p.nFAW > 0 && |clocks| > 0
    requires |DriverRun(g, clocks[..|clocks| - 1]).dev.trace| <= i < |DriverRun(g, clocks).dev.trace|
    requires !DriverRun(g, clocks).dev.trace[i].cmd.kind.IsCol()
    ensures var e := DriverRun(g, clocks).dev.trace[i];
            var pushed := LastRowPush(g, Update(g, DriverRun(g, clocks[..|clocks| - 1])), clocks[|clocks| - 1],
                                      EventBus(g, e, ByRefresh(g, clocks, i)));
            !(pushed.Some? && TwoCycles(g, pushed.value))
  {
    hide Topology.Valid, Shaped, ActSince, DriverRun, Update, Calls, LastRowPush, Offered, Taken, BusFree, AllApart, TwoCycles, ScanStart;
    LastClock(g, clocks);
    var s := DriverRun(g, clocks);
    var e := s.dev.trace[i];
    var n := |ScanStart(g, Offered(g, clocks)).dev.trace|;
    assert EventOk(g, Released(g, Offered(g, clocks)), s, e, i < n);
    var bus := EventBus(g, e, i < n);
    BusesInRange(g, e, i < n);
    FreeWhenRun(g, clocks, bus, e.cmd.kind);
  }

  lemma BusesInRange(g: Config, e: Event, byRefresh: bool)
    requires g.t.Valid() && e.cmd.bank < g.t.Banks()
    ensures EventBus(g, e, byRefresh) < g.t.buses
  {
    BankPlace(g.t, e.cmd.bank);
    RefBusIn(g.t, g.t.RankOf(e.cmd.bank));
  }

  // ---------------------------------------------------------------- the head of the queue

  // Refresh commands of this clock, up to event n, have the wires.
  ghost predicate UsedByRefresh(g: Config, q: seq<Event>, from: nat, n: nat, bus: nat, k: Kind)
    requires n <= |q|
  {
    exists i :: from <= i < n && EventBus(g, q[i], true) == bus && Overlap(g, q[i].cmd.kind, k)
  }

  // All that can keep the first queued command back.
  ghost predicate HeadMayGo(g: Config, clocks: seq<seq<Call>>, c: Cmd)
    requires g.t.Valid() && g.p.nFAW > 0 && |clocks| > 0 && c.bank < g.t.Banks()
  {
    var s0 := DriverRun(g, clocks[..|clocks| - 1]);
    var s := ScanStart(g, Offered(g, clocks));
    var bus := g.t.BusOf(c.bank);
    var pushed := LastRowPush(g, Update(g, s0), clocks[|clocks| - 1], bus);
    BankPlace(g.t, c.bank);
    && !(g.useRefresh && s.refQ[g.t.RankOf(c.bank)] != []) && !c.kind.REF?
    && (c.kind.ACT? ==> Sum(s.faw[g.t.RankOf(c.bank)]) < 4)
    && (c.kind.IsCol() || !(pushed.Some? && TwoCycles(g, pushed.value)))
    && !UsedByRefresh(g, s.dev.trace, |s0.dev.trace|, |s.dev.trace|, bus, c.kind)
    && CanSend(s.dev, c) && !(c.kind.PRE? && Precharged(s.dev.banks[c.bank]))
  }

  // The wires of a bus are free after the refresh phase exactly if they were before it and
  // no refresh command of this clock went over them.
  lemma FreeAfterRefresh(g: Config, s: Driver, bus: nat, k: Kind)
    requires Shaped(g, s) && Small(g, s, bus)
    ensures var s' := ScanStart(g, s);
            BusFree(s', bus, k) <==>
            BusFree(Released(g, s), bus, k) && !UsedByRefresh(g, s'.dev.trace, |s.dev.trace|, |s'.dev.trace|, bus, k)
  {
    hide Topology.Valid, Fits, QueueOk, RefQOk, RefreshFrom, DramDriver.Run, BusFree, Overlap, EventBus, AllApart, Taken;
    var s1, s' := Released(g, s), ScanStart(g, s);
    RunKeepsClock(g, s);
    RunCounts(g, s, bus, k);
    GrownKeeps(g, s1, s', bus, k);
    if i :| |s.dev.trace| <= i < |s'.dev.trace| && EventBus(g, s'.dev.trace[i], true) == bus && Overlap(g, s'.dev.trace[i].cmd.kind, k) {
      assert EventOk(g, s1, s', s'.dev.trace[i], true);
      TakenBlocks(g, s', bus, s'.dev.trace[i].cmd.kind, k);
    }
  }

  predicate SameMarks(s: Driver, s': Driver) { s'.blocked == s.blocked && s'.inflight == s.inflight }

  lemma {:induction false} CallsKeepMarks(g: Config, s: Driver, calls: seq<Call>)
    requires Shaped(g, s)
    ensures SameMarks(s, Calls(g, s, calls))
    decreases |calls|
  {
    hide Topology.Valid, Fits, QueueOk, RefQOk, BusFree, HasAct;
    if calls != [] {
      var c := calls[0].cmd;
      if c.bank >= g.t.Banks() { CallsKeepMarks(g, s, calls[1..]); }
      else { CallsKeepMarks(g, if calls[0].Ask? then CmdAllowed(g, s, c).0 else PushCmd(g, s, c).0, calls[1..]); }
    }
  }

  lemma RankKeepsMarks(g: Config, s: Driver, r: nat)
    requires Shaped(g, s) && r < g.t.Ranks()
    ensures SameMarks(s, RefreshRank(g, s, r))
  {
    hide Topology.Valid, Fits, QueueOk, RefQOk, AllCanSend, SendEach, BusFree, Reinsert, OpenBanks, Requesters;
  }

  lemma {:induction false} RefreshKeepsMarks(g: Config, s: Driver, r: nat)
    requires Shaped(g, s) && r <= g.t.Ranks()
    ensures SameMarks(s, RefreshFrom(g, s, r))
    decreases g.t.Ranks() - r
  {
    hide Topology.Valid, Fits, QueueOk, RefQOk, RefreshRank;
    if r < g.t.Ranks() {
      RankKeepsMarks(g, s, r);
      RefreshKeepsMarks(g, RefreshRank(g, s, r), r + 1);
    }
  }

  // Nothing is marked when the scan begins.
  lemma ScanBeginsUnmarked(g: Config, clocks: seq<seq<Call>>)
    requires g.t.Valid() && g.p.nFAW > 0 && |clocks| > 0
    ensures var s := ScanStart(g, Offered(g, clocks)); s.inflight == {} && forall b :: 0 <= b < |s.blocked| ==> !s.blocked[b]
  {
    hide Topology.Valid, Fits, QueueOk, RefQOk, Calls, RefreshFrom, DriverRun;
    var s := DriverRun(g, clocks[..|clocks| - 1]);
    CallsKeepMarks(g, Update(g, s), clocks[|clocks| - 1]);
    if g.useRefresh { RefreshKeepsMarks(g, Released(g, Offered(g, clocks)), 0); }
  }

  // A bank marked or refreshing sees no command in the rest of the scan.
  predicate PassedOver(g: Config, s: Driver, b: nat) { IsRefreshing(g, s, b) || (b < |s.blocked| && s.blocked[b]) }

  lemma ScanOnePasses(g: Config, s: Driver, i: nat, counts: seq<nat>, b: nat)
    requires Shaped(g, s) && i < |s.inputQ| && |counts| == g.t.Ranks() && PassedOver(g, s, b)
    ensures var s' := ScanOne(g, s, i, counts).s;
            && PassedOver(g, s', b) && s.dev.trace <= s'.dev.trace
            && forall j :: |s.dev.trace| <= j < |s'.dev.trace| ==> s'.dev.trace[j].cmd.bank != b
  {
    hide Topology.Valid, Fits, RefQOk, AllBusy, Judge, Allowed, Issue, Sum, IsRefreshing;
    var c := s.inputQ[i];
    SentIsFresh(g, s, c, counts);
    SameRefreshing(g, s, ScanOne(g, s, i, counts).s, b);
    if Judge(g, s, c, counts).Send? {
      IssueParts(g, Mark(s, c), i);
      IssueKeepsMarks(g, Mark(s, c), i);
      SameRefreshing(g, s, Issue(g, Mark(s, c), i), b);
    }
  }

  lemma SentIsFresh(g: Config, s: Driver, c: Cmd, counts: seq<nat>)
    requires Shaped(g, s) && c.bank < g.t.Banks() && |counts| == g.t.Ranks()
    ensures Judge(g, s, c, counts).Send? ==> CanSend(s.dev, c) && !PassedOver(g, s, c.bank) && g.t.BusOf(c.bank) < g.t.buses
  {
    hide Topology.Valid, Fits, RefQOk, QueueOk, BusFree, Precharged, Allowed, IsRefreshing;
    BankPlace(g.t, c.bank);
  }

  lemma SameRefreshing(g: Config, s: Driver, s': Driver, b: nat)
    ensures s'.refQ == s.refQ ==> (IsRefreshing(g, s', b) <==> IsRefreshing(g, s, b))
  {}

  lemma IssueKeepsMarks(g: Config, s: Driver, i: nat)
    requires Shaped(g, s) && i < |s.inputQ| && CanSend(s.dev, s.inputQ[i])
    ensures SameMarks(s, Issue(g, s, i)) && Issue(g, s, i).refQ == s.refQ
  {
    hide Topology.Valid, Fits, QueueOk, RefQOk, DataBusOk, Handle, Push, Allowed, DevSend;
  }

  lemma {:induction false} ScanPasses(g: Config, s: Driver, i: nat, counts: seq<nat>, b: nat)
    requires Shaped(g, s) && i <= |s.inputQ| && |counts| == g.t.Ranks() && PassedOver(g, s, b)
    ensures var s' := ScanFrom(g, s, i, counts);
            && s.dev.trace <= s'.dev.trace
            && forall j :: |s.dev.trace| <= j < |s'.dev.trace| ==> s'.dev.trace[j].cmd.bank != b
    decreases |s.inputQ| - i
  {
    hide Topology.Valid, Fits, QueueOk, RefQOk, ScanOne, PassedOver;
    if i < |s.inputQ| {
      ScanOnePasses(g, s, i, counts, b);
      var o := ScanOne(g, s, i, counts);
      if !o.stop { ScanPasses(g, o.s, o.i, counts, b); }
    }
  }

  predicate FirstGoes(g: Config, s: Driver, c: Cmd, counts: seq<nat>)
    requires g.t.RankOf(c.bank) < |counts|
  {
    && !IsRefreshing(g, s, c.bank) && !c.kind.REF? && (c.kind.ACT? ==> counts[g.t.RankOf(c.bank)] < 4)
    && BusFree(s, g.t.BusOf(c.bank), c.kind) && CanSend(s.dev, c) && !(c.kind.PRE? && Precharged(s.dev.banks[c.bank]))
  }

  // Where the first entry takes the scan.
  lemma FirstEntry(g: Config, s: Driver, counts: seq<nat>)
    requires Shaped(g, s) && s.inputQ != [] && |counts| == g.t.Ranks() && g.t.RankOf(s.inputQ[0].bank) < |counts|
    requires s.inflight == {} && forall b :: 0 <= b < |s.blocked| ==> !s.blocked[b]
    ensures var c := s.inputQ[0];
            var o := ScanOne(g, s, 0, counts);
            && (FirstGoes(g, s, c, counts) ==> |o.s.dev.trace| == |s.dev.trace| + 1 && o.s.dev.trace[|s.dev.trace|].cmd == c)
            && (!FirstGoes(g, s, c, counts) ==> o.s.dev == s.dev) && s.dev.trace <= o.s.dev.trace
            && (o.stop || PassedOver(g, o.s, c.bank))
  {
    hide Topology.Valid, Fits, RefQOk, AllBusy, BusFree, Precharged, Allowed, DataBusOk, Handle, Push;
  }

  // Main result: in every clock of every run the first command of the input queue leaves if
  // and only if its rank is not refreshing, it is no fifth ACT of the window, its wires are
  // taken neither by a two-cycle ACT just pushed nor by a refresh of this clock, and its
  // bank takes it; otherwise no command leaves for its bank.
  lemma HeadLeavesExactly(g: Config, clocks: seq<seq<Call>>)
    requires g.t.Valid() && g.p.nFAW > 0 && |clocks| > 0 && ScanStart(g, Offered(g, clocks)).inputQ != []
    ensures var s, q := ScanStart(g, Offered(g, clocks)), DriverRun(g, clocks).dev.trace;
            var c, n := s.inputQ[0], |s.dev.trace|;
            && c.bank < g.t.Banks() && s.dev.trace <= q
            && (HeadMayGo(g, clocks, c) <==> n < |q| && q[n].cmd == c)
            && (!HeadMayGo(g, clocks, c) ==> forall j :: n <= j < |q| ==> q[j].cmd.bank != c.bank)
  {
    hide Topology.Valid, Fits, RefQOk, DriverRun, DramDriver.Run, Offered, BusFree, CanSend, Precharged, LastRowPush, Update, ScanFrom, ScanOne, UsedByRefresh, PassedOver, ScanStart, Released, Sum;
    var s1 := Offered(g, clocks);
    var s := ScanStart(g, s1);
    var c := s.inputQ[0];
    var bus := g.t.BusOf(c.bank);
    var counts := ActCounts(s);
    BankPlace(g.t, c.bank);
    OfferedRefreshes(g, clocks);
    RunIsScan(g, s1);
    ScanBeginsUnmarked(g, clocks);
    FirstEntry(g, s, counts);
    CountersAlways(g, clocks, bus);
    FreeAfterRefresh(g, s1, bus, c.kind);
    FreeWhenRun(g, clocks, bus, c.kind);
    UnfoldScan(g, s, counts);
    assert counts[g.t.RankOf(c.bank)] == Sum(s.faw[g.t.RankOf(c.bank)]);
    assert HeadMayGo(g, clocks, c) <==> FirstGoes(g, s, c, counts);
    var o := ScanOne(g, s, 0, counts);
    if !o.stop { ScanPasses(g, o.s, o.i, counts, c.bank); }
  }

  lemma UnfoldScan(g: Config, s: Driver, counts: seq<nat>)
    requires Shaped(g, s) && s.inputQ != [] && |counts| == g.t.Ranks()
    ensures var o := ScanOne(g, s, 0, counts); ScanFrom(g, s, 0, counts) == if o.stop then o.s else ScanFrom(g, o.s, o.i, counts)
  {
    hide ScanOne, Topology.Valid, Fits, QueueOk, RefQOk;
  }

  // ---------------------------------------------------------------- moving commands to the driver

  // The commands a round of visits moves to the driver.
  function Moved(u: Setup, P: Pipe, order: seq<nat>): seq<Cmd>
    requires Shaped(u.g, P.drv)
    decreases |order|
  {
    if order == [] then []
    else
      var b, P1 := order[0], Visit(u, P, order[0]);
      (if b < |P.cmdQ| == |P1.cmdQ| && |P1.cmdQ[b]| < |P.cmdQ[b]| then [P.cmdQ[b][0]] else []) + Moved(u, P1, order[1..])
  }

  ghost predicate DifferentWires(g: Config, a: Cmd, b: Cmd) {
    g.t.BusOf(a.bank) == g.t.BusOf(b.bank) ==> !Overlap(g, a.kind, b.kind)
  }

  // What one visit does as far as buses and device go.
  lemma VisitMoves(u: Setup, P: Pipe, b: nat)
    requires Shaped(u.g, P.drv)
    ensures var P1 := Visit(u, P, b);
            && P1.drv.dev == P.drv.dev && Grown(P.drv, P1.drv) && |P1.cmdQ| == |P.cmdQ|
            && (b < |P.cmdQ| && |P1.cmdQ[b]| < |P.cmdQ[b]| ==>
                  var c := P.cmdQ[b][0];
                  && BusFree(P.drv, u.g.t.BusOf(c.bank), c.kind) && CanSend(P.drv.dev, c)
                  && Taken(u.g, P1.drv, u.g.t.BusOf(c.bank), c.kind))
  {
    hide Topology.Valid, Fits, QueueOk, RefQOk, Allowed, BusFree, Grown, Taken, Occupy, HasAct, IsRefreshing, Precharged;
    if b < |P.cmdQ| && P.cmdQ[b] != [] && P.cmdQ[b][0].bank < u.g.t.Banks() {
      var c := P.cmdQ[b][0];
      BankPlace(u.g.t, c.bank);
      PushTakes(u.g, P.drv, c);
      AskKeepsBuses(u.g, P.drv, c);
    } else {
      SelfGrown(P.drv);
    }
  }

  lemma SelfGrown(s: Driver)
    ensures Grown(s, s)
  {}

  lemma PushTakes(g: Config, s: Driver, c: Cmd)
    requires Shaped(g, s) && c.bank < g.t.Banks() && g.t.BusOf(c.bank) < g.t.buses
    ensures var (s', ok) := PushCmd(g, s, c);
            s'.dev == s.dev && Grown(s, s') && (ok ==> Taken(g, s', g.t.BusOf(c.bank), c.kind))
  {
    hide Topology.Valid, Fits, QueueOk, RefQOk;
  }

  lemma AskKeepsBuses(g: Config, s: Driver, c: Cmd)
    requires Shaped(g, s) && c.bank < g.t.Banks()
    ensures var s' := CmdAllowed(g, s, c).0; s'.dev == s.dev && Grown(s, s') && (CmdAllowed(g, s, c).1 ==> s' == s)
  {
    hide Topology.Valid, Fits, QueueOk, RefQOk, BusFree, HasAct;
  }

  // A list of commands over free wires, no two over the same.
  ghost predicate Disjointly(g: Config, s: Driver, q: seq<Cmd>) {
    && (forall i, j :: 0 <= i < j < |q| ==> DifferentWires(g, q[i], q[j]))
    && (forall i :: 0 <= i < |q| ==> BusFree(s, g.t.BusOf(q[i].bank), q[i].kind) && CanSend(s.dev, q[i]))
  }

  lemma OneMoreMoved(g: Config, s: Driver, s1: Driver, q: seq<Cmd>, c: Cmd)
    requires Disjointly(g, s1, q) && Grown(s, s1) && s1.dev == s.dev
    ensures Disjointly(g, s, q)
    ensures BusFree(s, g.t.BusOf(c.bank), c.kind) && CanSend(s.dev, c) && Taken(g, s1, g.t.BusOf(c.bank), c.kind) ==> Disjointly(g, s, [c] + q)
  {
    hide BusFree, Taken, Grown, Allowed, Overlap;
    forall i | 0 <= i < |q|
      ensures BusFree(s, g.t.BusOf(q[i].bank), q[i].kind)
      ensures Taken(g, s1, g.t.BusOf(c.bank), c.kind) ==> DifferentWires(g, c, q[i])
    {
      GrownKeeps(g, s, s1, g.t.BusOf(q[i].bank), q[i].kind);
      if Taken(g, s1, g.t.BusOf(c.bank), c.kind) && Overlap(g, c.kind, q[i].kind) {
        TakenBlocks(g, s1, g.t.BusOf(c.bank), c.kind, q[i].kind);
      }
    }
  }

  // Main result: of the commands moved to the driver in one clock no two need the same
  // wires; each found its wires free at the beginning, and its bank ready for it.
  lemma {:induction false} MovedApart(u: Setup, P: Pipe, order: seq<nat>)
    requires Shaped(u.g, P.drv)
    ensures Disjointly(u.g, P.drv, Moved(u, P, order))
    decreases |order|
  {
    hide Topology.Valid, Fits, QueueOk, RefQOk, Visit, Allowed, BusFree, Grown, Taken, Overlap, Shaped, Disjointly;
    if order == [] {
      NoneMoved(u.g, P.drv);
    } else {
      var b, P1 := order[0], Visit(u, P, order[0]);
      VisitMoves(u, P, b);
      MovedApart(u, P1, order[1..]);
      var rest := Moved(u, P1, order[1..]);
      OneMoreMoved(u.g, P.drv, P1.drv, rest, if b < |P.cmdQ| && P.cmdQ[b] != [] then P.cmdQ[b][0] else Cmd(0, ACT, 0, 0, 0));
      assert [] + rest == rest;
    }
  }

  lemma NoneMoved(g: Config, s: Driver)
    ensures Disjointly(g, s, [])
  {}
}
