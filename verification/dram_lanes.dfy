// The command buses over whole runs, told by the trace: commands of one cycle that share a
// bus are the banks of one refresh.
module DramLanes {
  import opened Common
  import opened DramTypes
  import opened DramBank
  import opened DramDevice
  import opened DramDriver
  import opened DramSafety
  import opened DramRowScan
  import opened DramRefresh
  import opened DramRefreshRun

  // Two commands need the same wires of a bus: with the dual bus, row commands have theirs
  // and column commands theirs.
  predicate Overlap(g: Config, a: Kind, b: Kind) { !g.dualBus || (a.IsCol() <==> b.IsCol()) }

  // The bus an accepted command came over.
  function EventBus(g: Config, e: Event, byRefresh: bool): nat {
    if byRefresh then g.t.RefBus(g.t.RankOf(e.cmd.bank)) else g.t.BusOf(e.cmd.bank)
  }

  // Two banks' shares of one refresh command.
  predicate OneRefresh(g: Config, a: Event, b: Event) {
    a.cmd.kind == b.cmd.kind && (a.cmd.kind.PRE? || a.cmd.kind.REF?) && g.t.RankOf(a.cmd.bank) == g.t.RankOf(b.cmd.bank)
  }

  predicate IsWrite(k: Kind) { k.WRITE? || k.WRITEA? }

  // Of two events of a clock, in order: they do not meet on a bus unless they are one
  // refresh, and what follows a write goes to another address.
  ghost predicate Apart(g: Config, a: Event, aRef: bool, b: Event, bRef: bool) {
    && (EventBus(g, a, aRef) == EventBus(g, b, bRef) && Overlap(g, a.cmd.kind, b.cmd.kind) ==> aRef && bRef && OneRefresh(g, a, b))
    && (!aRef && IsWrite(a.cmd.kind) ==> a.cmd.addr % TWO32 != b.cmd.addr % TWO32)
  }

  // The events from `from` on, those below n sent by the refresh phase.
  ghost predicate AllApart(g: Config, trace: seq<Event>, from: nat, n: nat) {
    forall i, j :: from <= i < j < |trace| ==> Apart(g, trace[i], i < n, trace[j], j < n)
  }

  // ---------------------------------------------------------------- counters

  // The wires a command of this kind needs are in use.
  predicate Taken(g: Config, s: Driver, bus: nat, k: Kind) {
    && bus < |s.rowBus| == |s.colBus|
    && ((g.dualBus && k.IsCol()) || s.rowBus[bus] > 0)
    && ((g.dualBus && !k.IsCol()) || s.colBus[bus] > 0)
  }

  // No counter has run out since.
  ghost predicate Grown(s: Driver, s': Driver) {
    && |s'.rowBus| == |s.rowBus| && |s'.colBus| == |s.colBus|
    && (forall b :: 0 <= b < |s.rowBus| && s.rowBus[b] > 0 ==> s'.rowBus[b] > 0)
    && (forall b :: 0 <= b < |s.colBus| && s.colBus[b] > 0 ==> s'.colBus[b] > 0)
  }

  lemma OccupyTakes(g: Config, s: Driver, bus: nat, k: Kind)
    requires bus < |s.rowBus| == |s.colBus|
    ensures Grown(s, Occupy(g, s, bus, k)) && Taken(g, Occupy(g, s, bus, k), bus, k)
  {}

  lemma TakenBlocks(g: Config, s: Driver, bus: nat, a: Kind, b: Kind)
    requires Taken(g, s, bus, a) && Overlap(g, a, b)
    ensures !BusFree(s, bus, b)
  {}

  lemma GrownKeeps(g: Config, s: Driver, s': Driver, bus: nat, k: Kind)
    requires Grown(s, s')
    ensures Taken(g, s, bus, k) ==> Taken(g, s', bus, k)
    ensures BusFree(s', bus, k) ==> BusFree(s, bus, k)
  {}

  lemma GrownOn(s: Driver, s1: Driver, s2: Driver)
    requires Grown(s, s1) && Grown(s1, s2)
    ensures Grown(s, s2)
  {}

  // ---------------------------------------------------------------- within a driver run

  // What is known of an event of the clock that began its run in state s0.
  ghost predicate EventOk(g: Config, s0: Driver, s: Driver, e: Event, byRefresh: bool) {
    && e.cycle == s0.dev.now && e.cmd.bank < g.t.Banks()
    && (if byRefresh then e.cmd.kind.PRE? || e.cmd.kind.REF? else !e.cmd.kind.REF?)
    && Taken(g, s, EventBus(g, e, byRefresh), e.cmd.kind)
    && BusFree(s0, EventBus(g, e, byRefresh), e.cmd.kind)
    && (!byRefresh && IsWrite(e.cmd.kind) ==> e.cmd.addr % TWO32 in s.inflight)
  }

  ghost predicate ClockOk(g: Config, s0: Driver, s: Driver, n: nat) {
    && s0.dev.trace <= s.dev.trace && s.dev.now == s0.dev.now && Grown(s0, s)
    && (forall i :: |s0.dev.trace| <= i < |s.dev.trace| ==> EventOk(g, s0, s, s.dev.trace[i], i < n))
    && AllApart(g, s.dev.trace, |s0.dev.trace|, n)
  }

  // New events, each over free wires, and among themselves apart.
  ghost predicate NewEvents(g: Config, s0: Driver, s: Driver, s': Driver, n: nat) {
    && s.dev.trace <= s'.dev.trace
    && (n <= |s.dev.trace| || n >= |s'.dev.trace|)
    && (forall i :: |s.dev.trace| <= i < |s'.dev.trace| ==>
          EventOk(g, s0, s', s'.dev.trace[i], i < n) && BusFree(s, EventBus(g, s'.dev.trace[i], i < n), s'.dev.trace[i].cmd.kind)
          && (i >= n ==> s'.dev.trace[i].cmd.addr % TWO32 !in s.inflight))
    && AllApart(g, s'.dev.trace, |s.dev.trace|, n)
  }

  lemma ClockGrows(g: Config, s0: Driver, s: Driver, s': Driver, n: nat)
    requires ClockOk(g, s0, s, n) && NewEvents(g, s0, s, s', n) && Grown(s, s')
    requires s'.dev.now == s.dev.now && s.inflight <= s'.inflight
    ensures ClockOk(g, s0, s', n)
  {
    hide BusFree, Taken, Grown, EventBus, Overlap, OneRefresh;
    GrownOn(s0, s, s');
    var from := |s0.dev.trace|;
    var q, q' := s.dev.trace, s'.dev.trace;
    forall i | from <= i < |q'| ensures EventOk(g, s0, s', q'[i], i < n) {
      if i < |q| {
        assert q'[i] == q[i] && EventOk(g, s0, s, q[i], i < n);
        GrownKeeps(g, s, s', EventBus(g, q[i], i < n), q[i].cmd.kind);
      }
    }
    forall i, j | from <= i < j < |q'| ensures Apart(g, q'[i], i < n, q'[j], j < n) {
      if j < |q| {
        assert q'[i] == q[i] && q'[j] == q[j];
      } else if i < |q| {
        assert q'[i] == q[i] && EventOk(g, s0, s, q[i], i < n);
        OldAndNew(g, s, q[i], i < n, q'[j], j < n);
      }
    }
  }

  // An event of this clock still holds its wires when a later one finds its own free.
  lemma OldAndNew(g: Config, s: Driver, a: Event, aRef: bool, b: Event, bRef: bool)
    requires Taken(g, s, EventBus(g, a, aRef), a.cmd.kind) && BusFree(s, EventBus(g, b, bRef), b.cmd.kind)
    requires !aRef && IsWrite(a.cmd.kind) ==> a.cmd.addr % TWO32 in s.inflight
    requires (!bRef ==> b.cmd.addr % TWO32 !in s.inflight) && (bRef ==> aRef)
    ensures Apart(g, a, aRef, b, bRef)
  {
    hide BusFree, Taken, EventBus;
    if Overlap(g, a.cmd.kind, b.cmd.kind) { TakenBlocks(g, s, EventBus(g, a, aRef), a.cmd.kind, b.cmd.kind); }
  }

  // The refresh phase.
  lemma SendKeepsClock(g: Config, s0: Driver, s: Driver, r: nat, n: nat)
    requires Shaped(g, s) && r < g.t.Ranks() && s.refQ[r] != [] && ClockOk(g, s0, s, n)
    requires n >= |SendRefresh(g, s, r).dev.trace|
    ensures ClockOk(g, s0, SendRefresh(g, s, r), n)
  {
    hide Topology.Valid, Fits, QueueOk, AllCanSend, SendEach, BusFree, RefEvents, ClockOk, Grown, Taken, EventBus, NewEvents, Overlap;
    var s' := SendRefresh(g, s, r);
    var rc := s.refQ[r][0];
    assert RefOk(g.t, r, rc);
    if s' != s {
      var q, q' := s.dev.trace, s'.dev.trace;
      var bus := g.t.RefBus(r);
      SentEvents(g, s.dev, rc.kind, rc.banks);
      SendEachTrace(g, s.dev, rc.kind, rc.banks, 0);
      assert s'.dev == SendEach(g, s.dev, rc.kind, rc.banks) && s'.dev.now == s.dev.now by { SentKeepsTime(g, s.dev, rc.kind, rc.banks); }
      RefBusIn(g.t, r);
      OccupyTakes(g, s, bus, rc.kind);
      assert Grown(s, s') && Taken(g, s', bus, rc.kind) by { LanesOnly(g, s, s', bus, rc.kind); }
      StartFacts(g, s0, s, n, bus, rc.kind);
      assert NewEvents(g, s0, s, s', n) by { BlockEvents(g, s0, s, s', n, r, rc); }
      ClockGrows(g, s0, s, s', n);
    }
  }

  lemma LanesOnly(g: Config, s: Driver, s': Driver, bus: nat, k: Kind)
    requires bus < |s.rowBus| == |s.colBus|
    requires s'.rowBus == Occupy(g, s, bus, k).rowBus && s'.colBus == Occupy(g, s, bus, k).colBus
    ensures Grown(s, s') && Taken(g, s', bus, k)
  {}

  lemma StartFacts(g: Config, s0: Driver, s: Driver, n: nat, bus: nat, k: Kind)
    requires ClockOk(g, s0, s, n)
    ensures s.dev.now == s0.dev.now && (BusFree(s, bus, k) ==> BusFree(s0, bus, k))
  {
    hide AllApart, EventOk;
  }

  lemma {:induction false} SentKeepsTime(g: Config, d: Device, k: Kind, ids: seq<nat>)
    requires Fits(g.t, d)
    ensures SendEach(g, d, k, ids).now == d.now
    decreases |ids|
  {
    hide Handle, Push, Allowed;
    if ids != [] {
      var c := Cmd(0, k, 0, ids[0], 0);
      SentKeepsTime(g, if CanSend(d, c) then DevSend(g.p, g.t, d, c) else d, k, ids[1..]);
    }
  }

  lemma RefBusIn(t: Topology, r: nat)
    requires t.Valid() && r < t.Ranks()
    ensures t.RefBus(r) < t.buses
  {}

  lemma BlockEvents(g: Config, s0: Driver, s: Driver, s': Driver, n: nat, r: nat, rc: RefCmd)
    requires RefOk(g.t, r, rc) && RefEvents(s'.dev.trace, |s.dev.trace|, s0.dev.now, rc.kind, rc.banks) && s.dev.trace <= s'.dev.trace
    requires Taken(g, s', g.t.RefBus(r), rc.kind) && BusFree(s, g.t.RefBus(r), rc.kind) && BusFree(s0, g.t.RefBus(r), rc.kind)
    requires n >= |s'.dev.trace|
    ensures NewEvents(g, s0, s, s', n)
  {
    hide Topology.Valid, BusFree, Taken;
    var q := s'.dev.trace;
    forall i | |s.dev.trace| <= i < |q| ensures q[i].cycle == s0.dev.now && q[i].cmd.kind == rc.kind && q[i].cmd.bank in rc.banks {
      assert RefEvent(q[|s.dev.trace| + (i - |s.dev.trace|)], s0.dev.now, rc.kind, rc.banks[i - |s.dev.trace|]);
    }
  }

  lemma RankKeepsClock(g: Config, s0: Driver, s: Driver, r: nat, n: nat)
    requires Shaped(g, s) && r < g.t.Ranks() && ClockOk(g, s0, s, n) && n >= |RefreshRank(g, s, r).dev.trace|
    ensures ClockOk(g, s0, RefreshRank(g, s, r), n)
  {
    hide Topology.Valid, Fits, QueueOk, RefQOk, SendRefresh, Reinsert, OpenBanks, EventOk, AllApart;
    var s1 := if s.refi[r] > 0 then s.(refi := s.refi[r := s.refi[r] - 1])
              else CreateRefresh(g, s, r).(refi := s.refi[r := g.p.nREFI]);
    assert ClockOk(g, s0, s1, n) by { SameClock(g, s0, s, s1, n); }
    if s1.refQ[r] != [] { SendKeepsClock(g, s0, s1, r, n); }
  }

  // Only trace, time, counters and written addresses matter.
  lemma SameClock(g: Config, s0: Driver, s: Driver, s': Driver, n: nat)
    requires ClockOk(g, s0, s, n) && s'.dev == s.dev && s'.rowBus == s.rowBus && s'.colBus == s.colBus && s.inflight <= s'.inflight
    ensures ClockOk(g, s0, s', n)
  {
    hide EventBus, AllApart;
    forall i | |s0.dev.trace| <= i < |s'.dev.trace| ensures EventOk(g, s0, s', s'.dev.trace[i], i < n) {
      assert EventOk(g, s0, s, s.dev.trace[i], i < n);
    }
  }

  lemma {:induction false} RefreshGrows(g: Config, s: Driver, r: nat)
    requires Shaped(g, s) && r <= g.t.Ranks()
    ensures s.dev.trace <= RefreshFrom(g, s, r).dev.trace
    decreases g.t.Ranks() - r
  {
    hide Topology.Valid, Fits, QueueOk, RefQOk, RefreshRank;
    if r < g.t.Ranks() {
      RankGrows(g, s, r);
      RefreshGrows(g, RefreshRank(g, s, r), r + 1);
    }
  }

  lemma RankGrows(g: Config, s: Driver, r: nat)
    requires Shaped(g, s) && r < g.t.Ranks()
    ensures s.dev.trace <= RefreshRank(g, s, r).dev.trace
  {
    hide Topology.Valid, Fits, QueueOk, RefQOk, SendRefresh, Reinsert, OpenBanks;
    var s1 := if s.refi[r] > 0 then s.(refi := s.refi[r := s.refi[r] - 1])
              else CreateRefresh(g, s, r).(refi := s.refi[r := g.p.nREFI]);
    assert s1.dev == s.dev;
    if s1.refQ[r] != [] { SendGrows(g, s1, r); }
  }

  lemma SendGrows(g: Config, s: Driver, r: nat)
    requires Shaped(g, s) && r < g.t.Ranks() && s.refQ[r] != []
    ensures s.dev.trace <= SendRefresh(g, s, r).dev.trace
  {
    hide Topology.Valid, Fits, QueueOk, RefOk, AllCanSend, SendEach, BusFree;
    var rc := s.refQ[r][0];
    assert RefOk(g.t, r, rc);
    if AllCanSend(s.dev, rc.kind, rc.banks) { BlockGrows(g, r, s.dev, rc); }
  }

  lemma BlockGrows(g: Config, r: nat, d: Device, rc: RefCmd)
    requires Fits(g.t, d) && RefOk(g.t, r, rc) && AllCanSend(d, rc.kind, rc.banks)
    ensures d.trace <= SendEach(g, d, rc.kind, rc.banks).trace
  {
    hide SendEach, AllCanSend, Fits;
    SendEachTrace(g, d, rc.kind, rc.banks, 0);
  }

  lemma {:induction false} RefreshKeepsClock(g: Config, s0: Driver, s: Driver, r: nat, n: nat)
    requires Shaped(g, s) && r <= g.t.Ranks() && ClockOk(g, s0, s, n) && n >= |RefreshFrom(g, s, r).dev.trace|
    ensures ClockOk(g, s0, RefreshFrom(g, s, r), n)
    decreases g.t.Ranks() - r
  {
    hide Topology.Valid, Fits, QueueOk, RefQOk, RefreshRank, ClockOk;
    if r < g.t.Ranks() {
      RefreshGrows(g, RefreshRank(g, s, r), r + 1);
      RankKeepsClock(g, s0, s, r, n);
      RefreshKeepsClock(g, s0, RefreshRank(g, s, r), r + 1, n);
    }
  }

  // The scan.
  lemma IssueKeepsClock(g: Config, s0: Driver, s: Driver, i: nat, n: nat)
    requires Shaped(g, s) && i < |s.inputQ| && CanSend(s.dev, s.inputQ[i]) && ClockOk(g, s0, s, n) && n <= |s.dev.trace|
    requires var c := s.inputQ[i]; !c.kind.REF? && BusFree(s, g.t.BusOf(c.bank), c.kind) && c.addr % TWO32 !in s.inflight
    ensures ClockOk(g, s0, Issue(g, Mark(s, s.inputQ[i]), i), n)
  {
    hide Topology.Valid, Fits, RefQOk, BusFree, ClockOk, Grown, Taken, NewEvents, DataBusOk, Handle, Push, Allowed;
    var c := s.inputQ[i];
    var s' := Issue(g, Mark(s, c), i);
    var bus := g.t.BusOf(c.bank);
    BankPlace(g.t, c.bank);
    OccupyTakes(g, s, bus, c.kind);
    LanesOnly(g, s, s', bus, c.kind);
    StartFacts(g, s0, s, n, bus, c.kind);
    assert NewEvents(g, s0, s, s', n) by { OneEvent(g, s0, s, s', n, s'.dev.trace[|s.dev.trace|]); }
    ClockGrows(g, s0, s, s', n);
  }

  lemma OneEvent(g: Config, s0: Driver, s: Driver, s': Driver, n: nat, e: Event)
    requires s'.dev.trace == s.dev.trace + [e] && n <= |s.dev.trace| && EventOk(g, s0, s', e, false)
    requires BusFree(s, EventBus(g, e, false), e.cmd.kind) && e.cmd.addr % TWO32 !in s.inflight
    ensures NewEvents(g, s0, s, s', n)
  {
    hide BusFree, Taken, EventBus;
  }

  lemma ScanOneKeepsClock(g: Config, s0: Driver, s: Driver, i: nat, counts: seq<nat>, n: nat)
    requires Shaped(g, s) && i < |s.inputQ| && |counts| == g.t.Ranks() && ClockOk(g, s0, s, n) && n <= |s.dev.trace|
    ensures var s' := ScanOne(g, s, i, counts).s; ClockOk(g, s0, s', n) && n <= |s'.dev.trace|
  {
    hide Topology.Valid, Fits, RefQOk, Issue, AllBusy, BusFree, IsRefreshing, Precharged, ClockOk, Allowed;
    var c := s.inputQ[i];
    var s' := ScanOne(g, s, i, counts).s;
    if Judge(g, s, c, counts).Send? {
      IssueKeepsClock(g, s0, s, i, n);
      IssueLonger(g, Mark(s, c), i);
    } else {
      SameClock(g, s0, s, s', n);
    }
  }

  lemma IssueLonger(g: Config, s: Driver, i: nat)
    requires Shaped(g, s) && i < |s.inputQ| && CanSend(s.dev, s.inputQ[i])
    ensures s.dev.trace <= Issue(g, s, i).dev.trace
  {
    hide Topology.Valid, QueueOk, RefQOk, DataBusOk, Handle, Push, Allowed;
  }

  lemma {:induction false} ScanKeepsClock(g: Config, s0: Driver, s: Driver, i: nat, counts: seq<nat>, n: nat)
    requires Shaped(g, s) && i <= |s.inputQ| && |counts| == g.t.Ranks() && ClockOk(g, s0, s, n) && n <= |s.dev.trace|
    ensures var s' := ScanFrom(g, s, i, counts); ClockOk(g, s0, s', n) && n <= |s'.dev.trace|
    decreases |s.inputQ| - i
  {
    hide Topology.Valid, Fits, QueueOk, RefQOk, ScanOne, ClockOk;
    if i < |s.inputQ| {
      ScanOneKeepsClock(g, s0, s, i, counts, n);
      var o := ScanOne(g, s, i, counts);
      if !o.stop { ScanKeepsClock(g, s0, o.s, o.i, counts, n); }
    }
  }

  // ---------------------------------------------------------------- a driver run

  // The driver's run as far as the scan of the queue.
  function ScanStart(g: Config, s: Driver): (s': Driver)
    requires Shaped(g, s)
    ensures Shaped(g, s')
  {
    if g.useRefresh then RefreshFrom(g, Released(g, s), 0) else Released(g, s)
  }

  function Released(g: Config, s: Driver): (s': Driver)
    requires Shaped(g, s)
    ensures Shaped(g, s')
  {
    s.(rowBus := ReleaseBus(s.rowBus), colBus := ReleaseBus(s.colBus))
  }

  lemma RunIsScan(g: Config, s: Driver)
    requires Shaped(g, s)
    ensures DramDriver.Run(g, s) == ScanFrom(g, ScanStart(g, s), 0, ActCounts(ScanStart(g, s)))
  {
    hide RefreshFrom, ScanFrom, ActCounts, Topology.Valid, Fits, QueueOk, RefQOk;
  }

  lemma StartsOk(g: Config, s: Driver, n: nat)
    ensures ClockOk(g, s, s, n)
  {}

  lemma RunKeepsClock(g: Config, s: Driver)
    requires Shaped(g, s)
    ensures var n := |ScanStart(g, s).dev.trace|;
            && |s.dev.trace| <= n <= |DramDriver.Run(g, s).dev.trace|
            && ClockOk(g, Released(g, s), DramDriver.Run(g, s), n)
            && ClockOk(g, Released(g, s), ScanStart(g, s), n)
  {
    hide RefreshFrom, ScanFrom, ActCounts, Topology.Valid, Fits, QueueOk, RefQOk, ClockOk, DramDriver.Run;
    var s1, s2 := Released(g, s), ScanStart(g, s);
    var n := |s2.dev.trace|;
    StartsOk(g, s1, n);
    if g.useRefresh {
      RefreshGrows(g, s1, 0);
      RefreshKeepsClock(g, s1, s1, 0, n);
    }
    RunIsScan(g, s);
    ScanKeepsClock(g, s1, s2, 0, ActCounts(s2), n);
  }

  // ---------------------------------------------------------------- every run

  // Event i was sent by a refresh phase.
  ghost predicate ByRefresh(g: Config, clocks: seq<seq<Call>>, i: nat)
    requires g.t.Valid() && g.p.nFAW > 0
  {
    |clocks| > 0 &&
    if i < |DriverRun(g, clocks[..|clocks| - 1]).dev.trace| then ByRefresh(g, clocks[..|clocks| - 1], i)
    else i < |ScanStart(g, Offered(g, clocks)).dev.trace|
  }

  // The events of the last clock go on from those before, in its own cycle.
  lemma LastClock(g: Config, clocks: seq<seq<Call>>)
    requires g.t.Valid() && g.p.nFAW > 0 && |clocks| > 0
    ensures var s0, s := DriverRun(g, clocks[..|clocks| - 1]), DriverRun(g, clocks);
            && s0.dev.trace == Offered(g, clocks).dev.trace && s.dev.now == s0.dev.now + 1
            && ClockOk(g, Released(g, Offered(g, clocks)), s, |ScanStart(g, Offered(g, clocks)).dev.trace|)
  {
    hide DriverRun, DramDriver.Run, ScanStart, Offered, Topology.Valid, Fits, QueueOk, RefQOk;
    OfferedRefreshes(g, clocks);
    RunKeepsClock(g, Offered(g, clocks));
  }

  lemma {:induction false} EventsArePast(g: Config, clocks: seq<seq<Call>>)
    requires g.t.Valid() && g.p.nFAW > 0
    ensures var d := DriverRun(g, clocks).dev; forall i :: 0 <= i < |d.trace| ==> d.trace[i].cycle <= d.now
  {
    hide Topology.Valid, Fits, QueueOk, RefQOk, ScanStart, Offered, AllApart, Taken, BusFree, DriverRun, Shaped;
    if |clocks| == 0 {
      EmptyTrace(g, clocks);
    } else {
      EventsArePast(g, clocks[..|clocks| - 1]);
      LastClock(g, clocks);
      var q0, s := DriverRun(g, clocks[..|clocks| - 1]).dev.trace, DriverRun(g, clocks);
      forall i | 0 <= i < |s.dev.trace| ensures s.dev.trace[i].cycle <= s.dev.now {
        if i < |q0| { assert s.dev.trace[i] == q0[i]; }
      }
    }
  }

  lemma EmptyTrace(g: Config, clocks: seq<seq<Call>>)
    requires g.t.Valid() && g.p.nFAW > 0 && |clocks| == 0
    ensures DriverRun(g, clocks).dev.trace == []
  {}

  // Main result: in every run, any two commands accepted in one cycle came over different
  // wires, unless they are banks of one refresh command; and behind a write no command of
  // its cycle goes to its address.
  lemma {:induction false} CommandsOfACycle(g: Config, clocks: seq<seq<Call>>, i: nat, j: nat)
    requires g.t.Valid() && g.p.nFAW > 0 && i < j < |DriverRun(g, clocks).dev.trace|
    requires var q := DriverRun(g, clocks).dev.trace; q[i].cycle == q[j].cycle
    ensures var q := DriverRun(g, clocks).dev.trace; Apart(g, q[i], ByRefresh(g, clocks, i), q[j], ByRefresh(g, clocks, j))
  {
    hide Topology.Valid, Fits, QueueOk, RefQOk, ScanStart, Offered, Taken, BusFree, DriverRun, Shaped, Apart;
    if |clocks| == 0 { EmptyTrace(g, clocks); }
    if |clocks| > 0 {
      LastClock(g, clocks);
      var q0, q := DriverRun(g, clocks[..|clocks| - 1]).dev.trace, DriverRun(g, clocks).dev.trace;
      if j < |q0| {
        assert q[i] == q0[i] && q[j] == q0[j];
        CommandsOfACycle(g, clocks[..|clocks| - 1], i, j);
      } else {
        EventsArePast(g, clocks[..|clocks| - 1]);
        assert q[..|q0|] == q0;
      }
    }
  }

  // What the refresh phase sends are precharges and refreshes, and the scan never sends a
  // refresh; with refresh off all commands come from the scan.
  lemma {:induction false} SentByWhom(g: Config, clocks: seq<seq<Call>>, i: nat)
    requires g.t.Valid() && g.p.nFAW > 0 && i < |DriverRun(g, clocks).dev.trace|
    ensures var k := DriverRun(g, clocks).dev.trace[i].cmd.kind;
            if ByRefresh(g, clocks, i) then g.useRefresh && (k.PRE? || k.REF?) else !k.REF?
  {
    hide Topology.Valid, Fits, QueueOk, RefQOk, RefreshFrom, Offered, Taken, BusFree, DriverRun, Shaped, AllApart;
    if |clocks| == 0 { EmptyTrace(g, clocks); }
    if |clocks| > 0 {
      LastClock(g, clocks);
      var q0, q := DriverRun(g, clocks[..|clocks| - 1]).dev.trace, DriverRun(g, clocks).dev.trace;
      if i < |q0| {
        assert q[i] == q0[i];
        SentByWhom(g, clocks[..|clocks| - 1], i);
      }
    }
  }
}
