// Refreshes are carried out whole: a rank's refresh queue only ever runs empty by a REF
// that all its requesters accept in one cycle, after a precharge of those that were open.
module DramRefresh {
  import opened Common
  import opened DramTypes
  import opened DramBank
  import opened DramDevice
  import opened DramDriver
  import opened DramSafety
  import opened DramRowScan

  // The index before `next` on a round of n.
  function Before(next: nat, n: nat): nat
    requires next < n
  {
    if next == 0 then n - 1 else next - 1
  }

  // The banks of the rank's latest refresh: all of them or, with single-bank refresh, the
  // one before the next in line.
  function Targets(g: Config, s: Driver, r: nat): seq<nat>
    requires Shaped(g, s) && r < g.t.Ranks()
  {
    if g.singleBank then [g.t.rankBanks[r][Before(s.nextRef[r], |g.t.rankBanks[r]|)]] else g.t.rankBanks[r]
  }

  // A refresh of these banks, alone or behind the precharge of some of them.
  ghost predicate RefShape(ids: seq<nat>, q: seq<RefCmd>) {
    || q == []
    || q == [RefCmd(REF, ids)]
    || (|q| == 2 && q[0].kind.PRE? && q[1] == RefCmd(REF, ids) && forall b :: b in q[0].banks ==> b in ids)
  }

  ghost predicate RefShapes(g: Config, s: Driver) {
    Shaped(g, s) && forall r :: 0 <= r < g.t.Ranks() ==> RefShape(Targets(g, s, r), s.refQ[r])
  }

  ghost predicate Refreshed(s: Driver, s': Driver, ids: seq<nat>) {
    RefEvents(s'.dev.trace, |s.dev.trace|, s.dev.now, REF, ids)
  }

  // The trace goes on from `base` with one command of the kind per listed bank, all now.
  ghost predicate RefEvents(trace: seq<Event>, base: nat, now: nat, k: Kind, ids: seq<nat>) {
    && |trace| == base + |ids|
    && forall i :: 0 <= i < |ids| ==> RefEvent(trace[base + i], now, k, ids[i])
  }

  ghost predicate RefEvent(e: Event, now: nat, k: Kind, b: nat) { e.cycle == now && e.cmd == Cmd(0, k, 0, b, 0) }

  lemma SentEvents(g: Config, d: Device, k: Kind, ids: seq<nat>)
    requires Fits(g.t, d) && (k.PRE? || k.REF?) && Distinct(ids) && AllCanSend(d, k, ids) && ids != []
    ensures RefEvents(SendEach(g, d, k, ids).trace, |d.trace|, d.now, k, ids)
  {
    hide SendEach, AllCanSend, Distinct, Fits;
    SendEachTrace(g, d, k, ids, 0);
    var trace := SendEach(g, d, k, ids).trace;
    forall i: nat | i < |ids| ensures RefEvent(trace[|d.trace| + i], d.now, k, ids[i]) { SendEachTrace(g, d, k, ids, i); }
  }

  lemma CreateShape(g: Config, s: Driver, r: nat)
    requires RefShapes(g, s) && r < g.t.Ranks()
    ensures RefShapes(g, CreateRefresh(g, s, r)) && CreateRefresh(g, s, r).refQ[r] != []
    ensures Targets(g, CreateRefresh(g, s, r), r) == Requesters(g, s, r)
  {
    hide Topology.Valid, Fits, QueueOk, RefQOk, Reinsert, Precharged, Distinct, RefShape;
    var s' := CreateRefresh(g, s, r);
    var ids := Requesters(g, s, r);
    assert Shaped(g, s);
    RankListed(g.t, r);
    BeforeNext(g.t, r, s.nextRef[r]);
    RequestersExist(g, s, r);
    assert RefShape(ids, s'.refQ[r]) by { CreatedShape(s.dev.banks, ids); }
    forall q | 0 <= q < g.t.Ranks() && q != r ensures RefShape(Targets(g, s', q), s'.refQ[q]) {
      assert RefShape(Targets(g, s, q), s.refQ[q]);
    }
  }

  lemma RequestersExist(g: Config, s: Driver, r: nat)
    requires Shaped(g, s) && r < g.t.Ranks()
    ensures forall i :: 0 <= i < |Requesters(g, s, r)| ==> Requesters(g, s, r)[i] < |s.dev.banks|
  {
    hide Topology.Valid;
    assert RefOk(g.t, r, RefCmd(REF, Requesters(g, s, r)));
  }

  lemma CreatedShape(banks: seq<Bank>, ids: seq<nat>)
    requires forall i :: 0 <= i < |ids| ==> ids[i] < |banks|
    ensures var open := OpenBanks(banks, ids); RefShape(ids, (if open == [] then [] else [RefCmd(PRE, open)]) + [RefCmd(REF, ids)])
  {
    OpenAmong(banks, ids);
  }

  lemma {:induction false} OpenAmong(banks: seq<Bank>, ids: seq<nat>)
    requires forall i :: 0 <= i < |ids| ==> ids[i] < |banks|
    ensures forall b :: b in OpenBanks(banks, ids) ==> b in ids
    decreases |ids|
  {
    if ids != [] { OpenAmong(banks, ids[1..]); }
  }

  lemma RankListed(t: Topology, r: nat)
    requires t.Valid() && r < t.Ranks()
    ensures r < |t.rankBanks| && |t.rankBanks[r]| > 0
  {}

  lemma BeforeNext(t: Topology, r: nat, k: nat)
    requires r < |t.rankBanks| && k < |t.rankBanks[r]|
    ensures Before(NextBank(t, r, k), |t.rankBanks[r]|) == k
  {}

  lemma ShapeTail(ids: seq<nat>, q: seq<RefCmd>)
    requires RefShape(ids, q) && q != []
    ensures RefShape(ids, q[1..]) && (q[1..] == [] ==> q[0] == RefCmd(REF, ids))
  {}

  // The queue runs empty only by a REF to all the banks, each an event of this cycle.
  lemma SendShape(g: Config, s: Driver, r: nat)
    requires RefShapes(g, s) && r < g.t.Ranks() && s.refQ[r] != []
    ensures var s' := SendRefresh(g, s, r);
            && RefShapes(g, s') && Targets(g, s', r) == Targets(g, s, r)
            && (s'.refQ[r] == [] ==> Refreshed(s, s', Targets(g, s, r)))
  {
    hide Topology.Valid, Fits, QueueOk, AllCanSend, SendEach, BusFree, RefEvents, RefShape;
    var s' := SendRefresh(g, s, r);
    var rc := s.refQ[r][0];
    assert RefOk(g.t, r, rc);
    if s'.refQ != s.refQ {
      ShapeTail(Targets(g, s, r), s.refQ[r]);
      SentEvents(g, s.dev, rc.kind, rc.banks);
    }
    forall q | 0 <= q < g.t.Ranks() ensures RefShape(Targets(g, s', q), s'.refQ[q]) {
      assert RefShape(Targets(g, s, q), s.refQ[q]);
    }
  }

  lemma {:induction false} RefreshShapes(g: Config, s: Driver, r: nat)
    requires RefShapes(g, s) && r <= g.t.Ranks()
    ensures RefShapes(g, RefreshFrom(g, s, r))
    decreases g.t.Ranks() - r
  {
    hide Topology.Valid, Fits, QueueOk, RefQOk, CreateRefresh, SendRefresh, RefShape;
    if r < g.t.Ranks() {
      CreateShape(g, s, r);
      var s1 := if s.refi[r] > 0 then s.(refi := s.refi[r := s.refi[r] - 1])
                else CreateRefresh(g, s, r).(refi := s.refi[r := g.p.nREFI]);
      if s1.refQ[r] != [] { SendShape(g, s1, r); }
      RefreshShapes(g, RefreshRank(g, s, r), r + 1);
    }
  }

  predicate SameRefreshes(s: Driver, s': Driver) { s'.refQ == s.refQ && s'.nextRef == s.nextRef && s'.refi == s.refi }

  lemma {:induction false} ScanKeepsRefreshes(g: Config, s: Driver, i: nat, counts: seq<nat>)
    requires Shaped(g, s) && i <= |s.inputQ| && |counts| == g.t.Ranks()
    ensures SameRefreshes(s, ScanFrom(g, s, i, counts))
    decreases |s.inputQ| - i
  {
    if i < |s.inputQ| {
      ScanOneRefreshes(g, s, i, counts);
      var r := ScanOne(g, s, i, counts);
      if !r.stop { ScanKeepsRefreshes(g, r.s, r.i, counts); }
    }
  }

  lemma ScanOneRefreshes(g: Config, s: Driver, i: nat, counts: seq<nat>)
    requires Shaped(g, s) && i < |s.inputQ| && |counts| == g.t.Ranks()
    ensures SameRefreshes(s, ScanOne(g, s, i, counts).s)
  {
    hide Topology.Valid, Fits, RefQOk, Issue, AllBusy, BusFree, IsRefreshing, Precharged;
    if Judge(g, s, s.inputQ[i], counts).Send? {
      IssueRefreshes(g, Mark(s, s.inputQ[i]), i);
    }
  }

  lemma IssueRefreshes(g: Config, s: Driver, i: nat)
    requires Shaped(g, s) && i < |s.inputQ| && CanSend(s.dev, s.inputQ[i])
    ensures SameRefreshes(s, Issue(g, s, i))
  {
    hide Topology.Valid, Fits, QueueOk, RefQOk, DevSend, DataBusOk;
  }

  // A rank's share of the refresh phase, with the counter at zero or not: whenever its queue
  // has run empty in this clock, the latest refresh has reached all its banks in this cycle.
  lemma RefreshIsWhole(g: Config, s: Driver, r: nat)
    requires RefShapes(g, s) && r < g.t.Ranks()
    ensures var s' := RefreshRank(g, s, r);
            && (s'.refQ[r] == [] && (s.refQ[r] != [] || s.refi[r] == 0) ==> Refreshed(s, s', Targets(g, s', r)))
            && Targets(g, s', r) == if s.refi[r] == 0 then Requesters(g, s, r) else Targets(g, s, r)
  {
    hide Topology.Valid, Fits, QueueOk, RefQOk, CreateRefresh, SendRefresh, RefShape, RefEvents;
    CreateShape(g, s, r);
    SafeCreateDevice(g, s, r);
    var s1 := if s.refi[r] > 0 then s.(refi := s.refi[r := s.refi[r] - 1])
              else CreateRefresh(g, s, r).(refi := s.refi[r := g.p.nREFI]);
    if s1.refQ[r] != [] { SendShape(g, s1, r); }
  }

  lemma SafeCreateDevice(g: Config, s: Driver, r: nat)
    requires Shaped(g, s) && r < g.t.Ranks()
    ensures CreateRefresh(g, s, r).dev == s.dev
  {}

  lemma {:induction false} CallsKeepRefreshes(g: Config, s: Driver, calls: seq<Call>)
    requires Shaped(g, s)
    ensures SameRefreshes(s, Calls(g, s, calls))
    decreases |calls|
  {
    hide Topology.Valid, Fits, QueueOk, RefQOk, BusFree, HasAct;
    if calls != [] {
      var c := calls[0].cmd;
      if c.bank >= g.t.Banks() { CallsKeepRefreshes(g, s, calls[1..]); }
      else { CallsKeepRefreshes(g, if calls[0].Ask? then CmdAllowed(g, s, c).0 else PushCmd(g, s, c).0, calls[1..]); }
    }
  }

  // Main result: in every run of the driver each rank's refresh queue holds a whole
  // refresh, so that `RefreshIsWhole` applies in every clock.
  lemma {:induction false} EveryRefreshIsWhole(g: Config, clocks: seq<seq<Call>>)
    requires g.t.Valid() && g.p.nFAW > 0
    ensures RefShapes(g, DriverRun(g, clocks))
  {
    hide Topology.Valid, Fits, QueueOk, RefQOk, Calls, RefreshFrom, ScanFrom, RefShape;
    if |clocks| == 0 {
      EmptyShapes(g);
    } else {
      var s := DriverRun(g, clocks[..|clocks| - 1]);
      EveryRefreshIsWhole(g, clocks[..|clocks| - 1]);
      var s1 := Calls(g, Update(g, s), clocks[|clocks| - 1]);
      CallsKeepRefreshes(g, Update(g, s), clocks[|clocks| - 1]);
      var s2 := s1.(rowBus := ReleaseBus(s1.rowBus), colBus := ReleaseBus(s1.colBus));
      RefreshShapes(g, s2, 0);
      var s3 := if g.useRefresh then RefreshFrom(g, s2, 0) else s2;
      ScanKeepsRefreshes(g, s3, 0, ActCounts(s3));
    }
  }

  lemma EmptyShapes(g: Config)
    requires g.t.Valid() && g.p.nFAW > 0
    ensures RefShapes(g, InitialDriver(g))
  {
    InitialShaped(g);
  }

  // A single-bank refresh still queued when the next is due is given up: nothing queued is
  // for its bank any more, though the bank's turn comes again only after a whole round.
  lemma OverdueIsDropped(g: Config, s: Driver, r: nat, b: nat)
    requires RefShapes(g, s) && r < g.t.Ranks() && g.singleBank && |g.t.rankBanks[r]| > 1
    requires s.refi[r] == 0 && s.refQ[r] != [] && Targets(g, s, r) == [b]
    ensures forall i :: 0 <= i < |RefreshRank(g, s, r).refQ[r]| ==> b !in RefreshRank(g, s, r).refQ[r][i].banks
  {
    hide Topology.Valid, Fits, QueueOk, RefQOk, CreateRefresh, SendRefresh, RefEvents, RefShape;
    var s' := RefreshRank(g, s, r);
    var s1 := CreateRefresh(g, s, r).(refi := s.refi[r := g.p.nREFI]);
    CreateShape(g, s, r);
    SendShape(g, s1, r);
    assert RefShape(Targets(g, s', r), s'.refQ[r]) && Targets(g, s', r) == Requesters(g, s, r);
    OtherBank(g, s, r);
    ShapeBanks(Requesters(g, s, r), s'.refQ[r], b);
  }

  lemma OtherBank(g: Config, s: Driver, r: nat)
    requires Shaped(g, s) && r < g.t.Ranks() && g.singleBank && |g.t.rankBanks[r]| > 1
    ensures Targets(g, s, r)[0] !in Requesters(g, s, r)
  {
    hide Fits, QueueOk, RefQOk;
    var q, k := g.t.rankBanks[r], s.nextRef[r];
    assert q[Before(k, |q|)] != q[k];
  }

  lemma ShapeBanks(ids: seq<nat>, q: seq<RefCmd>, b: nat)
    requires RefShape(ids, q) && b !in ids
    ensures forall i :: 0 <= i < |q| ==> b !in q[i].banks
  {}

  // ---------------------------------------------------------------- when, and which bank

  // How many refreshes of rank r have been created in a run.
  ghost function Created(g: Config, clocks: seq<seq<Call>>, r: nat): nat
    requires g.t.Valid() && g.p.nFAW > 0 && r < g.t.Ranks()
  {
    if |clocks| == 0 || !g.useRefresh then 0
    else Created(g, clocks[..|clocks| - 1], r) + (if DriverRun(g, clocks[..|clocks| - 1]).refi[r] == 0 then 1 else 0)
  }

  // Only the rank's own share touches its counter and its place in the round.
  lemma {:induction false} RefreshFromRank(g: Config, s: Driver, i: nat, r: nat)
    requires Shaped(g, s) && i <= g.t.Ranks() && r < g.t.Ranks()
    ensures var s' := RefreshFrom(g, s, i);
            && s'.refi[r] == (if r < i then s.refi[r] else if s.refi[r] > 0 then s.refi[r] - 1 else g.p.nREFI)
            && s'.nextRef[r] == (if r >= i && s.refi[r] == 0 && g.singleBank then NextBank(g.t, r, s.nextRef[r])
                                 else s.nextRef[r])
    decreases g.t.Ranks() - i
  {
    hide Topology.Valid, Fits, QueueOk, RefQOk, RefreshRank, NextBank;
    if i < g.t.Ranks() {
      RankStep(g, s, i);
      RefreshFromRank(g, RefreshRank(g, s, i), i + 1, r);
    }
  }

  lemma RankStep(g: Config, s: Driver, i: nat)
    requires Shaped(g, s) && i < g.t.Ranks()
    ensures var s' := RefreshRank(g, s, i);
            && s'.refi == s.refi[i := if s.refi[i] > 0 then s.refi[i] - 1 else g.p.nREFI]
            && s'.nextRef == (if s.refi[i] == 0 && g.singleBank then s.nextRef[i := NextBank(g.t, i, s.nextRef[i])]
                              else s.nextRef)
  {
    hide Topology.Valid, Fits, QueueOk, RefQOk, CreateRefresh, SendRefresh, NextBank;
    CreateMovesOn(g, s, i);
    var s1 := if s.refi[i] > 0 then s.(refi := s.refi[i := s.refi[i] - 1])
              else CreateRefresh(g, s, i).(refi := s.refi[i := g.p.nREFI]);
    if s1.refQ[i] != [] { SendKeepsCounts(g, s1, i); }
  }

  lemma CreateMovesOn(g: Config, s: Driver, i: nat)
    requires Shaped(g, s) && i < g.t.Ranks()
    ensures g.t.Valid() && i < |g.t.rankBanks| && |g.t.rankBanks[i]| > 0
    ensures CreateRefresh(g, s, i).nextRef == if g.singleBank then s.nextRef[i := NextBank(g.t, i, s.nextRef[i])] else s.nextRef
  {
    hide Fits, QueueOk, RefQOk, Reinsert, OpenBanks;
  }

  lemma SendKeepsCounts(g: Config, s: Driver, i: nat)
    requires Shaped(g, s) && i < g.t.Ranks() && s.refQ[i] != []
    ensures SendRefresh(g, s, i).refi == s.refi && SendRefresh(g, s, i).nextRef == s.nextRef
  {
    hide Topology.Valid, Fits, QueueOk, RefQOk, AllCanSend, SendEach, BusFree;
  }

  // The rank's counter and its place in the round after one refresh phase.
  ghost predicate Counted(g: Config, s: Driver, s': Driver, r: nat)
    requires Shaped(g, s) && Shaped(g, s') && r < g.t.Ranks()
  {
    && (g.useRefresh ==> s'.refi[r] == if s.refi[r] > 0 then s.refi[r] - 1 else g.p.nREFI)
    && s'.nextRef[r] == (if g.useRefresh && s.refi[r] == 0 && g.singleBank then NextBank(g.t, r, s.nextRef[r]) else s.nextRef[r])
  }

  lemma RunCounts(g: Config, s: Driver, r: nat)
    requires Shaped(g, s) && r < g.t.Ranks()
    ensures Counted(g, s, DramDriver.Run(g, s), r)
  {
    hide Topology.Valid, Fits, QueueOk, RefQOk, RefreshFrom, ScanFrom, NextBank;
    var s1 := s.(rowBus := ReleaseBus(s.rowBus), colBus := ReleaseBus(s.colBus));
    var s2 := if g.useRefresh then RefreshFrom(g, s1, 0) else s1;
    RefreshFromRank(g, s1, 0, r);
    ScanKeepsRefreshes(g, s2, 0, ActCounts(s2));
  }

  // A clock counts down, or creates a refresh and moves on in the round.
  lemma RankClock(g: Config, clocks: seq<seq<Call>>, r: nat)
    requires g.t.Valid() && g.p.nFAW > 0 && r < g.t.Ranks() && |clocks| > 0
    ensures Counted(g, DriverRun(g, clocks[..|clocks| - 1]), DriverRun(g, clocks), r)
  {
    hide Topology.Valid, Fits, QueueOk, RefQOk, Calls, Update, DramDriver.Run, Counted;
    var s := DriverRun(g, clocks[..|clocks| - 1]);
    var s1 := Calls(g, Update(g, s), clocks[|clocks| - 1]);
    UpdateKeepsRefreshes(g, s);
    CallsKeepRefreshes(g, Update(g, s), clocks[|clocks| - 1]);
    RunCounts(g, s1, r);
    assert DriverRun(g, clocks) == DramDriver.Run(g, s1);
    CountedFrom(g, s, s1, DramDriver.Run(g, s1), r);
  }

  lemma UpdateKeepsRefreshes(g: Config, s: Driver)
    requires Shaped(g, s)
    ensures SameRefreshes(s, Update(g, s))
  {
    hide Topology.Valid, Fits, QueueOk, RefQOk;
  }

  lemma CountedFrom(g: Config, s: Driver, s1: Driver, s': Driver, r: nat)
    requires Shaped(g, s) && Shaped(g, s1) && Shaped(g, s') && r < g.t.Ranks()
    requires SameRefreshes(s, s1) && Counted(g, s1, s', r)
    ensures Counted(g, s, s', r)
  {
    hide Topology.Valid, Fits, QueueOk, RefQOk, NextBank;
  }

  function Place(k: nat, n: nat): nat
    requires n > 0
  {
    k % n
  }

  // Clocks from one refresh of a rank to the next.
  function Period(g: Config, k: nat): nat { k * (g.p.nREFI + 1) }

  // Main result: in every run refreshes of rank r are created in the clocks first,
  // first + (nREFI + 1), first + 2 (nREFI + 1), ..., whatever else is going on, and the k-th
  // single-bank refresh, counted from 0, is for bank k of the rank's round.
  lemma RefreshSchedule(g: Config, clocks: seq<seq<Call>>, r: nat)
    requires g.t.Valid() && g.p.nFAW > 0 && r < g.t.Ranks()
    ensures var s := DriverRun(g, clocks);
            var k := Created(g, clocks, r);
            && Shaped(g, s) && |g.t.rankBanks[r]| > 0
            && (g.useRefresh ==> |clocks| + s.refi[r] == FirstRefi(g.p, r) + Period(g, k))
            && (g.singleBank ==> Requesters(g, s, r) == [g.t.rankBanks[r][Place(k, |g.t.rankBanks[r]|)]])
    ensures FirstRefi(g.p, r) == g.p.nREFI / (r + 1)
  {
    hide Topology.Valid, Fits, QueueOk, RefQOk, Place, Period, FirstRefi;
    FirstShare(g.p, r);
    RankListed(g.t, r);
    RoundPlace(g, clocks, r);
  }

  // The ranks begin at fractions of the interval.
  lemma FirstShare(p: Params, r: nat)
    ensures FirstRefi(p, r) == p.nREFI / (r + 1)
  {}

  lemma {:induction false} RoundPlace(g: Config, clocks: seq<seq<Call>>, r: nat)
    requires g.t.Valid() && g.p.nFAW > 0 && r < g.t.Ranks() && |g.t.rankBanks[r]| > 0
    ensures var s := DriverRun(g, clocks);
            var k := Created(g, clocks, r);
            && Shaped(g, s)
            && (g.useRefresh ==> |clocks| + s.refi[r] == FirstRefi(g.p, r) + Period(g, k))
            && (g.singleBank ==> s.nextRef[r] == Place(k, |g.t.rankBanks[r]|))
  {
    hide Topology.Valid, Fits, QueueOk, RefQOk, FirstRefi, DriverRun, Place, Period, NextBank;
    if |clocks| == 0 {
      FirstPlace(g, r);
      NoClock(g, clocks);
    } else {
      var k := Created(g, clocks[..|clocks| - 1], r);
      RoundPlace(g, clocks[..|clocks| - 1], r);
      RankClock(g, clocks, r);
      RankListed(g.t, r);
      NextOnRound(g.t, r, k);
      NextPeriod(g, k);
    }
  }

  lemma NoClock(g: Config, clocks: seq<seq<Call>>)
    requires g.t.Valid() && g.p.nFAW > 0 && |clocks| == 0
    ensures DriverRun(g, clocks) == InitialDriver(g)
  {}

  lemma FirstPlace(g: Config, r: nat)
    requires g.t.Valid() && g.p.nFAW > 0 && r < g.t.Ranks() && |g.t.rankBanks[r]| > 0
    ensures var s := InitialDriver(g);
            Shaped(g, s) && s.refi[r] == FirstRefi(g.p, r) && s.nextRef[r] == Place(0, |g.t.rankBanks[r]|) && Period(g, 0) == 0
  {
    InitialShaped(g);
  }

  lemma NextPeriod(g: Config, k: nat)
    ensures Period(g, k + 1) == Period(g, k) + g.p.nREFI + 1
  {}

  lemma NextOnRound(t: Topology, r: nat, k: nat)
    requires r < |t.rankBanks| && |t.rankBanks[r]| > 0
    ensures NextBank(t, r, Place(k, |t.rankBanks[r]|)) == Place(k + 1, |t.rankBanks[r]|)
  {
    hide Place, Quot;
    var n := |t.rankBanks[r]|;
    Division(k, n);
    Division(k + 1, n);
    NextRemainder(Quot(k, n), Place(k, n), Quot(k + 1, n), Place(k + 1, n), n);
    SmallRemainder(Place(k, n) + 1, n);
  }

  function Quot(k: nat, n: nat): nat
    requires n > 0
  {
    k / n
  }

  lemma Division(k: nat, n: nat)
    requires n > 0
    ensures k == Quot(k, n) * n + Place(k, n) && Place(k, n) < n
  {}

  lemma SmallRemainder(x: nat, n: nat)
    requires 0 < x <= n
    ensures x % n == if x == n then 0 else x
  {}

  lemma NextRemainder(q: nat, m: nat, q': nat, m': nat, n: nat)
    requires m < n && m' < n && q * n + m + 1 == q' * n + m'
    ensures m' == if m + 1 == n then 0 else m + 1
  {
    if q < q' { Multiples(q, q', n); }
    if q' < q { Multiples(q', q, n); }
    if q + 1 < q' { Multiples(q + 1, q', n); }
  }
}
