// Refreshes over whole runs: each one created is carried out as a whole, given up because
// the next is due, or still queued; and when the device cannot keep up some are given up.
module DramRefreshRun {
  import opened Common
  import opened DramTypes
  import opened DramBank
  import opened DramDevice
  import opened DramDriver
  import opened DramSafety
  import opened DramRowScan
  import opened DramRefresh

  // ---------------------------------------------------------------- the refreshes of a trace

  // The banks of a rank that were refreshed, in order.
  function RefBanks(t: Topology, q: seq<Event>, r: nat): seq<nat> {
    if q == [] then []
    else
      var c := q[|q| - 1].cmd;
      RefBanks(t, q[..|q| - 1], r) + (if c.kind.REF? && t.RankOf(c.bank) == r then [c.bank] else [])
  }

  function Refs(g: Config, s: Driver, r: nat): seq<nat> { RefBanks(g.t, s.dev.trace, r) }

  lemma NotRefAppend(t: Topology, q: seq<Event>, e: Event, r: nat)
    requires !e.cmd.kind.REF?
    ensures RefBanks(t, q + [e], r) == RefBanks(t, q, r)
  {
    assert (q + [e])[..|q + [e]| - 1] == q;
  }

  // A refresh command adds its banks if it is a REF of the rank, and nothing otherwise.
  lemma {:induction false} AddedRefs(t: Topology, q: seq<Event>, q': seq<Event>, now: nat, k: Kind, ids: seq<nat>, i: nat, r: nat)
    requires q <= q' && RefEvents(q', |q|, now, k, ids) && forall j :: 0 <= j < |ids| ==> t.RankOf(ids[j]) == i
    ensures RefBanks(t, q', r) == RefBanks(t, q, r) + (if k.REF? && i == r then ids else [])
    decreases |ids|
  {
    if ids == [] {
      assert q' == q && RefBanks(t, q, r) + [] == RefBanks(t, q, r);
    } else {
      var q0, ids0, last := q'[..|q'| - 1], ids[..|ids| - 1], ids[|ids| - 1];
      assert RefEvents(q0, |q|, now, k, ids0) by {
        forall j | 0 <= j < |ids0| ensures RefEvent(q0[|q| + j], now, k, ids0[j]) { assert RefEvent(q'[|q| + j], now, k, ids[j]); }
      }
      AddedRefs(t, q, q0, now, k, ids0, i, r);
      assert RefEvent(q'[|q| + (|ids| - 1)], now, k, last);
      assert ids == ids0 + [last] && RefBanks(t, q, r) + ids0 + [last] == RefBanks(t, q, r) + ids;
    }
  }

  // ---------------------------------------------------------------- one clock of the driver

  // Rank r's part of a state as far as refreshing it goes.
  ghost predicate SameRank(g: Config, s: Driver, s': Driver, r: nat)
    requires Shaped(g, s) && Shaped(g, s') && r < g.t.Ranks()
  {
    s'.refQ[r] == s.refQ[r] && s'.nextRef[r] == s.nextRef[r] && s'.refi[r] == s.refi[r] && Refs(g, s', r) == Refs(g, s, r)
  }

  // A command sent from rank i's queue.
  lemma SendRefs(g: Config, s: Driver, i: nat, r: nat)
    requires RefShapes(g, s) && i < g.t.Ranks() && r < g.t.Ranks() && s.refQ[i] != []
    ensures var s' := SendRefresh(g, s, i);
            && s'.nextRef == s.nextRef && s'.refi == s.refi && (i != r ==> SameRank(g, s, s', r))
            && (i == r ==> Refs(g, s', r) == Refs(g, s, r) + (if s'.refQ[r] == [] then Targets(g, s, r) else []))
  {
    hide Topology.Valid, Fits, QueueOk, AllCanSend, SendEach, BusFree, RefEvents, RefShape, RefBanks;
    var s' := SendRefresh(g, s, i);
    var rc := s.refQ[i][0];
    assert RefOk(g.t, i, rc);
    if s'.refQ != s.refQ {
      ShapeTail(Targets(g, s, i), s.refQ[i]);
      ShapeHead(Targets(g, s, i), s.refQ[i]);
      SentEvents(g, s.dev, rc.kind, rc.banks);
      SendEachTrace(g, s.dev, rc.kind, rc.banks, 0);
      AddedRefs(g.t, s.dev.trace, s'.dev.trace, s.dev.now, rc.kind, rc.banks, i, r);
    }
    assert Refs(g, s, r) + [] == Refs(g, s, r);
  }

  lemma ShapeHead(ids: seq<nat>, q: seq<RefCmd>)
    requires RefShape(ids, q) && q != []
    ensures q[1..] != [] ==> q[0].kind.PRE?
  {}

  // A refresh is due, or under way.
  predicate Refreshes(g: Config, s: Driver, r: nat)
    requires r < |s.refi| && r < |s.refQ|
  {
    g.useRefresh && (s.refi[r] == 0 || s.refQ[r] != [])
  }

  // Either the latest refresh of the rank is carried out, on all its banks at once, and its
  // queue runs empty; or the rank's banks see no REF.
  ghost predicate WholeOrNone(g: Config, s: Driver, s': Driver, r: nat)
    requires Shaped(g, s) && Shaped(g, s') && r < g.t.Ranks()
  {
    && Refs(g, s', r) == Refs(g, s, r) + (if Refreshes(g, s, r) && s'.refQ[r] == [] then Targets(g, s', r) else [])
    && (!Refreshes(g, s, r) ==> s'.refQ[r] == s.refQ[r])
  }

  lemma RankRefs(g: Config, s: Driver, i: nat, r: nat)
    requires RefShapes(g, s) && i < g.t.Ranks() && r < g.t.Ranks() && g.useRefresh
    ensures if i == r then WholeOrNone(g, s, RefreshRank(g, s, i), r) else SameRank(g, s, RefreshRank(g, s, i), r)
  {
    hide Topology.Valid, Fits, QueueOk, RefQOk, CreateRefresh, SendRefresh, RefShape, RefBanks;
    CreateShape(g, s, i);
    SafeCreateDevice(g, s, i);
    if i != r { CreateElse(g, s, i, r); }
    var s1 := if s.refi[i] > 0 then s.(refi := s.refi[i := s.refi[i] - 1])
              else CreateRefresh(g, s, i).(refi := s.refi[i := g.p.nREFI]);
    assert Refs(g, s, r) + [] == Refs(g, s, r);
    if s1.refQ[i] != [] {
      SendTargets(g, s1, i);
      SendRefs(g, s1, i, r);
    }
  }

  lemma SendTargets(g: Config, s: Driver, i: nat)
    requires RefShapes(g, s) && i < g.t.Ranks() && s.refQ[i] != []
    ensures Targets(g, SendRefresh(g, s, i), i) == Targets(g, s, i)
  {
    SendShape(g, s, i);
  }

  lemma CreateElse(g: Config, s: Driver, i: nat, r: nat)
    requires Shaped(g, s) && i < g.t.Ranks() && r < g.t.Ranks() && i != r
    ensures SameRank(g, s, CreateRefresh(g, s, i), r)
  {
    hide Topology.Valid, Fits, QueueOk, RefQOk, Reinsert, OpenBanks;
  }

  lemma {:induction false} RefreshFromRefs(g: Config, s: Driver, i: nat, r: nat)
    requires RefShapes(g, s) && i <= g.t.Ranks() && r < g.t.Ranks() && g.useRefresh
    ensures RefShapes(g, RefreshFrom(g, s, i))
    ensures if i <= r then WholeOrNone(g, s, RefreshFrom(g, s, i), r) else SameRank(g, s, RefreshFrom(g, s, i), r)
    decreases g.t.Ranks() - i
  {
    hide Topology.Valid, Fits, QueueOk, RefQOk, RefreshRank, RefShape, RefBanks;
    RefreshShapes(g, s, i);
    if i < g.t.Ranks() {
      RankShapes(g, s, i);
      RankRefs(g, s, i, r);
      RefreshFromRefs(g, RefreshRank(g, s, i), i + 1, r);
    }
  }

  lemma RankShapes(g: Config, s: Driver, i: nat)
    requires RefShapes(g, s) && i < g.t.Ranks()
    ensures RefShapes(g, RefreshRank(g, s, i))
  {
    hide Topology.Valid, Fits, QueueOk, RefQOk, CreateRefresh, SendRefresh, RefShape;
    CreateShape(g, s, i);
    var s1 := if s.refi[i] > 0 then s.(refi := s.refi[i := s.refi[i] - 1])
              else CreateRefresh(g, s, i).(refi := s.refi[i := g.p.nREFI]);
    if s1.refQ[i] != [] { SendShape(g, s1, i); }
  }

  // The scan sends no REF.
  lemma {:induction false} ScanRefs(g: Config, s: Driver, i: nat, counts: seq<nat>, r: nat)
    requires Shaped(g, s) && i <= |s.inputQ| && |counts| == g.t.Ranks()
    ensures Refs(g, ScanFrom(g, s, i, counts), r) == Refs(g, s, r)
    decreases |s.inputQ| - i
  {
    hide Topology.Valid, Fits, QueueOk, RefQOk, ScanOne, RefBanks;
    if i < |s.inputQ| {
      ScanOneRefs(g, s, i, counts, r);
      var o := ScanOne(g, s, i, counts);
      if !o.stop { ScanRefs(g, o.s, o.i, counts, r); }
    }
  }

  lemma ScanOneRefs(g: Config, s: Driver, i: nat, counts: seq<nat>, r: nat)
    requires Shaped(g, s) && i < |s.inputQ| && |counts| == g.t.Ranks()
    ensures Refs(g, ScanOne(g, s, i, counts).s, r) == Refs(g, s, r)
  {
    hide Topology.Valid, Fits, RefQOk, Issue, AllBusy, BusFree, IsRefreshing, Precharged, RefBanks;
    if Judge(g, s, s.inputQ[i], counts).Send? { IssueRefs(g, Mark(s, s.inputQ[i]), i, r); }
  }

  lemma IssueRefs(g: Config, s: Driver, i: nat, r: nat)
    requires Shaped(g, s) && i < |s.inputQ| && CanSend(s.dev, s.inputQ[i]) && !s.inputQ[i].kind.REF?
    ensures Refs(g, Issue(g, s, i), r) == Refs(g, s, r)
  {
    hide Topology.Valid, QueueOk, RefQOk, DataBusOk, RefBanks, Handle, Push;
    var b := s.dev.banks[s.inputQ[i].bank];
    NotRefAppend(g.t, s.dev.trace, Event(s.dev.now, s.inputQ[i], b.rowOpen, b.openRow), r);
  }

  lemma RunRefs(g: Config, s: Driver, r: nat)
    requires RefShapes(g, s) && r < g.t.Ranks()
    ensures WholeOrNone(g, s, DramDriver.Run(g, s), r)
  {
    hide Topology.Valid, Fits, QueueOk, RefQOk, RefreshFrom, ScanFrom, RefBanks, RefShape;
    var s1 := s.(rowBus := ReleaseBus(s.rowBus), colBus := ReleaseBus(s.colBus));
    assert RefShapes(g, s1);
    if g.useRefresh { RefreshFromRefs(g, s1, 0, r); }
    var s2 := if g.useRefresh then RefreshFrom(g, s1, 0) else s1;
    ScanKeepsRefreshes(g, s2, 0, ActCounts(s2));
    ScanRefs(g, s2, 0, ActCounts(s2), r);
    assert Refs(g, s, r) + [] == Refs(g, s, r);
  }

  lemma {:induction false} CallsKeepDevice(g: Config, s: Driver, calls: seq<Call>)
    requires Shaped(g, s)
    ensures Calls(g, s, calls).dev == s.dev
    decreases |calls|
  {
    hide Topology.Valid, Fits, QueueOk, RefQOk, BusFree, HasAct;
    if calls != [] {
      var c := calls[0].cmd;
      if c.bank >= g.t.Banks() { CallsKeepDevice(g, s, calls[1..]); }
      else { CallsKeepDevice(g, if calls[0].Ask? then CmdAllowed(g, s, c).0 else PushCmd(g, s, c).0, calls[1..]); }
    }
  }

  // What the driver's own run starts from in the last clock.
  ghost function Offered(g: Config, clocks: seq<seq<Call>>): (s: Driver)
    requires g.t.Valid() && g.p.nFAW > 0 && |clocks| > 0
    ensures Shaped(g, s)
  {
    Calls(g, Update(g, DriverRun(g, clocks[..|clocks| - 1])), clocks[|clocks| - 1])
  }

  lemma OfferedRefreshes(g: Config, clocks: seq<seq<Call>>)
    requires g.t.Valid() && g.p.nFAW > 0 && |clocks| > 0
    ensures var s := DriverRun(g, clocks[..|clocks| - 1]);
            && SameRefreshes(s, Offered(g, clocks)) && Offered(g, clocks).dev == DevTick(g.p, s.dev)
            && DriverRun(g, clocks) == DramDriver.Run(g, Offered(g, clocks))
  {
    hide Topology.Valid, Fits, QueueOk, RefQOk, Calls, DramDriver.Run;
    var s := DriverRun(g, clocks[..|clocks| - 1]);
    CallsKeepRefreshes(g, Update(g, s), clocks[|clocks| - 1]);
    CallsKeepDevice(g, Update(g, s), clocks[|clocks| - 1]);
    UpdateKeepsRefreshes(g, s);
  }

  // In every clock of every run.
  lemma EveryClockWholeOrNone(g: Config, clocks: seq<seq<Call>>, r: nat)
    requires g.t.Valid() && g.p.nFAW > 0 && r < g.t.Ranks() && |clocks| > 0
    ensures WholeOrNone(g, DriverRun(g, clocks[..|clocks| - 1]), DriverRun(g, clocks), r)
  {
    hide Topology.Valid, Shaped, Offered, DramDriver.Run, DriverRun, RefShapes, WholeOrNone;
    var s := DriverRun(g, clocks[..|clocks| - 1]);
    EveryRefreshIsWhole(g, clocks[..|clocks| - 1]);
    OfferedRefreshes(g, clocks);
    ShapesSame(g, s, Offered(g, clocks));
    RunRefs(g, Offered(g, clocks), r);
    WholeFrom(g, s, Offered(g, clocks), DriverRun(g, clocks), r);
  }

  lemma WholeFrom(g: Config, s: Driver, s1: Driver, s': Driver, r: nat)
    requires Shaped(g, s) && Shaped(g, s1) && Shaped(g, s') && r < g.t.Ranks()
    requires SameRefreshes(s, s1) && s1.dev.trace == s.dev.trace && WholeOrNone(g, s1, s', r)
    ensures WholeOrNone(g, s, s', r)
  {
    hide Topology.Valid, Fits, QueueOk, RefQOk, RefBanks, Targets;
  }

  lemma ShapesSame(g: Config, s: Driver, s': Driver)
    requires RefShapes(g, s) && Shaped(g, s') && SameRefreshes(s, s')
    ensures RefShapes(g, s')
  {
    hide Topology.Valid, Fits, QueueOk, RefQOk, RefShape;
    forall r | 0 <= r < g.t.Ranks() ensures RefShape(Targets(g, s', r), s'.refQ[r]) {
      assert RefShape(Targets(g, s, r), s.refQ[r]);
    }
  }

  // ---------------------------------------------------------------- the balance

  // The next refresh is due while the last is still queued.
  ghost predicate Overdue(g: Config, s: Driver, r: nat)
    requires r < |s.refi| && r < |s.refQ|
  {
    g.useRefresh && s.refi[r] == 0 && s.refQ[r] != []
  }

  // Clocks that begin so: the refresh queued is lost.
  ghost function Dropped(g: Config, clocks: seq<seq<Call>>, r: nat): nat
    requires g.t.Valid() && g.p.nFAW > 0 && r < g.t.Ranks()
  {
    if |clocks| == 0 then 0
    else Dropped(g, clocks[..|clocks| - 1], r) + (if Overdue(g, DriverRun(g, clocks[..|clocks| - 1]), r) then 1 else 0)
  }

  // Clocks in which the device takes one REF for each bank of the latest refresh, and for
  // no other bank of the rank.
  ghost function Completed(g: Config, clocks: seq<seq<Call>>, r: nat): nat
    requires g.t.Valid() && g.p.nFAW > 0 && r < g.t.Ranks()
  {
    if |clocks| == 0 then 0
    else
      var s, s' := DriverRun(g, clocks[..|clocks| - 1]), DriverRun(g, clocks);
      Completed(g, clocks[..|clocks| - 1], r) + (if Refs(g, s', r) == Refs(g, s, r) + Targets(g, s', r) then 1 else 0)
  }

  ghost function Pending(g: Config, clocks: seq<seq<Call>>, r: nat): nat
    requires g.t.Valid() && g.p.nFAW > 0 && r < g.t.Ranks()
  {
    if DriverRun(g, clocks).refQ[r] != [] then 1 else 0
  }

  // Main result: in every run, single-bank refresh or not, every refresh created has been
  // carried out whole, is still queued, or was lost to the next one.
  lemma {:induction false} RefreshBalance(g: Config, clocks: seq<seq<Call>>, r: nat)
    requires g.t.Valid() && g.p.nFAW > 0 && r < g.t.Ranks()
    ensures Created(g, clocks, r) == Completed(g, clocks, r) + Dropped(g, clocks, r) + Pending(g, clocks, r)
    ensures !g.useRefresh ==> DriverRun(g, clocks).refQ[r] == []
  {
    hide Topology.Valid, Fits, QueueOk, RefQOk, DriverRun, RefBanks, Targets;
    if |clocks| == 0 {
      NothingQueued(g, clocks, r);
    } else {
      var s, s' := DriverRun(g, clocks[..|clocks| - 1]), DriverRun(g, clocks);
      RefreshBalance(g, clocks[..|clocks| - 1], r);
      EveryClockWholeOrNone(g, clocks, r);
      SomeTarget(g, s', r);
      Longer(Refs(g, s, r), Targets(g, s', r));
    }
  }

  lemma NothingQueued(g: Config, clocks: seq<seq<Call>>, r: nat)
    requires g.t.Valid() && g.p.nFAW > 0 && r < g.t.Ranks() && |clocks| == 0
    ensures DriverRun(g, clocks).refQ[r] == []
  {}

  lemma SomeTarget(g: Config, s: Driver, r: nat)
    requires Shaped(g, s) && r < g.t.Ranks()
    ensures Targets(g, s, r) != []
  {
    RankListed(g.t, r);
  }

  lemma Longer(q: seq<nat>, ids: seq<nat>)
    requires ids != []
    ensures q + [] != q + ids
  {
    assert |q + ids| > |q|;
  }

  // So all refreshes before the one queued are carried out if and only if none was still
  // queued when the next was due.
  lemma CarriedOutExactly(g: Config, clocks: seq<seq<Call>>, r: nat)
    requires g.t.Valid() && g.p.nFAW > 0 && r < g.t.Ranks()
    ensures Completed(g, clocks, r) == Created(g, clocks, r) - Pending(g, clocks, r)
            <==> forall i :: 0 <= i < |clocks| ==> !Overdue(g, DriverRun(g, clocks[..i]), r)
  {
    hide DriverRun, Overdue;
    RefreshBalance(g, clocks, r);
    DroppedCounts(g, clocks, r);
  }

  lemma {:induction false} DroppedCounts(g: Config, clocks: seq<seq<Call>>, r: nat)
    requires g.t.Valid() && g.p.nFAW > 0 && r < g.t.Ranks()
    ensures Dropped(g, clocks, r) == 0 <==> forall i :: 0 <= i < |clocks| ==> !Overdue(g, DriverRun(g, clocks[..i]), r)
  {
    hide Topology.Valid, DriverRun, Overdue;
    if |clocks| > 0 {
      var before := clocks[..|clocks| - 1];
      DroppedCounts(g, before, r);
      assert forall i :: 0 <= i < |before| ==> before[..i] == clocks[..i];
      if Dropped(g, clocks, r) == 0 {
        forall i | 0 <= i < |clocks| ensures !Overdue(g, DriverRun(g, clocks[..i]), r) {
          if i < |before| { assert !Overdue(g, DriverRun(g, before[..i]), r); }
        }
      } else if Dropped(g, before, r) > 0 {
        var i :| 0 <= i < |before| && Overdue(g, DriverRun(g, before[..i]), r);
        assert Overdue(g, DriverRun(g, clocks[..i]), r);
      }
    }
  }

  // ---------------------------------------------------------------- a refreshing bank

  // The bank takes no command in its state.
  ghost predicate Busy(b: Bank) { forall k: Kind :: !Accepts(b.st, k) }

  ghost predicate SameState(g: Config, s: Driver, s': Driver, b: nat)
    requires Shaped(g, s) && Shaped(g, s') && b < g.t.Banks()
  {
    s'.dev.banks[b].st == s.dev.banks[b].st
  }

  lemma PushKeepsState(p: Params, rel: Rel, b: Bank, k: Kind, t: nat)
    ensures Push(p, rel, b, k, t).st == b.st
  {}

  // A busy bank's state waits for the clock.
  lemma SendKeepsBusy(g: Config, s: Driver, i: nat, b: nat)
    requires Shaped(g, s) && i < g.t.Ranks() && s.refQ[i] != [] && b < g.t.Banks() && Busy(s.dev.banks[b])
    ensures SameState(g, s, SendRefresh(g, s, i), b)
  {
    hide Topology.Valid, QueueOk, BusFree, SendEach, Handle, Accepts;
    var rc := s.refQ[i][0];
    assert RefOk(g.t, i, rc);
    if AllCanSend(s.dev, rc.kind, rc.banks) { SendEachAtomic(g, s.dev, rc.kind, rc.banks); }
  }

  lemma RankKeepsBusy(g: Config, s: Driver, i: nat, b: nat)
    requires Shaped(g, s) && i < g.t.Ranks() && b < g.t.Banks() && Busy(s.dev.banks[b])
    ensures SameState(g, s, RefreshRank(g, s, i), b)
  {
    hide Topology.Valid, QueueOk, RefQOk, CreateRefresh, SendRefresh, Busy;
    SafeCreateDevice(g, s, i);
    var s1 := if s.refi[i] > 0 then s.(refi := s.refi[i := s.refi[i] - 1])
              else CreateRefresh(g, s, i).(refi := s.refi[i := g.p.nREFI]);
    if s1.refQ[i] != [] { SendKeepsBusy(g, s1, i, b); }
  }

  lemma {:induction false} RefreshKeepsBusy(g: Config, s: Driver, i: nat, b: nat)
    requires Shaped(g, s) && i <= g.t.Ranks() && b < g.t.Banks() && Busy(s.dev.banks[b])
    ensures SameState(g, s, RefreshFrom(g, s, i), b)
    decreases g.t.Ranks() - i
  {
    hide Topology.Valid, QueueOk, RefQOk, RefreshRank, Accepts;
    if i < g.t.Ranks() {
      RankKeepsBusy(g, s, i, b);
      RefreshKeepsBusy(g, RefreshRank(g, s, i), i + 1, b);
    }
  }

  lemma IssueKeepsBusy(g: Config, s: Driver, i: nat, b: nat)
    requires Shaped(g, s) && i < |s.inputQ| && CanSend(s.dev, s.inputQ[i]) && b < g.t.Banks() && Busy(s.dev.banks[b])
    ensures SameState(g, s, Issue(g, s, i), b)
  {
    hide Topology.Valid, RefQOk, DataBusOk, Handle, Push, Accepts;
    var c := s.inputQ[i];
    PushKeepsState(g.p, g.t.Relate(c.bank, b), s.dev.banks[b], c.kind, s.dev.now);
  }

  lemma ScanOneKeepsBusy(g: Config, s: Driver, i: nat, counts: seq<nat>, b: nat)
    requires Shaped(g, s) && i < |s.inputQ| && |counts| == g.t.Ranks() && b < g.t.Banks() && Busy(s.dev.banks[b])
    ensures SameState(g, s, ScanOne(g, s, i, counts).s, b)
  {
    hide Topology.Valid, RefQOk, Issue, AllBusy, BusFree, IsRefreshing, Precharged, Busy;
    if Judge(g, s, s.inputQ[i], counts).Send? { IssueKeepsBusy(g, Mark(s, s.inputQ[i]), i, b); }
  }

  lemma {:induction false} ScanKeepsBusy(g: Config, s: Driver, i: nat, counts: seq<nat>, b: nat)
    requires Shaped(g, s) && i <= |s.inputQ| && |counts| == g.t.Ranks() && b < g.t.Banks() && Busy(s.dev.banks[b])
    ensures SameState(g, s, ScanFrom(g, s, i, counts), b)
    decreases |s.inputQ| - i
  {
    hide Topology.Valid, QueueOk, RefQOk, ScanOne, Accepts;
    if i < |s.inputQ| {
      ScanOneKeepsBusy(g, s, i, counts, b);
      var o := ScanOne(g, s, i, counts);
      if !o.stop { ScanKeepsBusy(g, o.s, o.i, counts, b); }
    }
  }

  lemma RunKeepsBusy(g: Config, s: Driver, b: nat)
    requires Shaped(g, s) && b < g.t.Banks() && Busy(s.dev.banks[b])
    ensures SameState(g, s, DramDriver.Run(g, s), b)
  {
    hide Topology.Valid, QueueOk, RefQOk, RefreshFrom, ScanFrom, Accepts;
    var s1 := s.(rowBus := ReleaseBus(s.rowBus), colBus := ReleaseBus(s.colBus));
    if g.useRefresh { RefreshKeepsBusy(g, s1, 0, b); }
    var s2 := if g.useRefresh then RefreshFrom(g, s1, 0) else s1;
    ScanKeepsBusy(g, s2, 0, ActCounts(s2), b);
  }

  // The bank holds a REF it has taken in this clock.
  predicate HoldsRef(b: Bank) { b.st.Idle? && b.st.timer == 1 && b.st.received.Some? && b.st.received.value.kind.REF? }

  lemma HoldingIsBusy(b: Bank)
    requires HoldsRef(b) || b.st.Refreshing?
    ensures Busy(b)
  {}

  lemma HandledRef(b: Bank, c: Cmd, cycle: nat)
    requires Accepts(b.st, REF) && c.kind.REF?
    ensures HoldsRef(Handle(b, c, cycle))
  {}

  lemma SendHolds(g: Config, s: Driver, i: nat, b: nat)
    requires RefShapes(g, s) && i < g.t.Ranks() && s.refQ[i] != [] && b < g.t.Banks() && b in Targets(g, s, i)
    ensures SendRefresh(g, s, i).refQ[i] == [] ==> HoldsRef(SendRefresh(g, s, i).dev.banks[b])
  {
    hide Topology.Valid, QueueOk, BusFree, SendEach, Handle, Accepts, HoldsRef, RefShape;
    var rc := s.refQ[i][0];
    assert RefOk(g.t, i, rc) && RefShape(Targets(g, s, i), s.refQ[i]);
    ShapeTail(Targets(g, s, i), s.refQ[i]);
    if AllCanSend(s.dev, rc.kind, rc.banks) {
      SendEachAtomic(g, s.dev, rc.kind, rc.banks);
      if rc.kind.REF? && b in rc.banks { HandledRef(s.dev.banks[b], Cmd(0, rc.kind, 0, b, 0), s.dev.now); }
    }
  }

  lemma RankHolds(g: Config, s: Driver, i: nat, b: nat)
    requires RefShapes(g, s) && i < g.t.Ranks() && g.useRefresh && b < g.t.Banks() && b in Targets(g, RefreshRank(g, s, i), i)
    ensures Refreshes(g, s, i) && RefreshRank(g, s, i).refQ[i] == [] ==> HoldsRef(RefreshRank(g, s, i).dev.banks[b])
  {
    hide Topology.Valid, Fits, QueueOk, RefQOk, CreateRefresh, SendRefresh, RefShape, HoldsRef;
    CreateShape(g, s, i);
    var s1 := if s.refi[i] > 0 then s.(refi := s.refi[i := s.refi[i] - 1])
              else CreateRefresh(g, s, i).(refi := s.refi[i := g.p.nREFI]);
    if s1.refQ[i] != [] {
      SendShape(g, s1, i);
      SendHolds(g, s1, i, b);
    }
  }

  lemma {:induction false} RefreshHolds(g: Config, s: Driver, i: nat, r: nat, b: nat)
    requires RefShapes(g, s) && i <= r < g.t.Ranks() && g.useRefresh && b < g.t.Banks() && b in Targets(g, RefreshFrom(g, s, i), r)
    ensures Refreshes(g, s, r) && RefreshFrom(g, s, i).refQ[r] == [] ==> HoldsRef(RefreshFrom(g, s, i).dev.banks[b])
    decreases g.t.Ranks() - i
  {
    hide Topology.Valid, QueueOk, RefQOk, RefreshRank, RefShape, RefBanks, HoldsRef;
    var s1 := RefreshRank(g, s, i);
    RankShapes(g, s, i);
    RankRefs(g, s, i, r);
    RefreshFromRefs(g, s1, i + 1, r);
    if i < r {
      RefreshHolds(g, s1, i + 1, r, b);
    } else if Refreshes(g, s, r) && RefreshFrom(g, s, i).refQ[r] == [] {
      RankHolds(g, s, i, b);
      HoldingIsBusy(s1.dev.banks[b]);
      RefreshKeepsBusy(g, s1, i + 1, b);
      HoldsSame(s1.dev.banks[b], RefreshFrom(g, s1, i + 1).dev.banks[b]);
    }
  }

  lemma HoldsSame(b: Bank, b': Bank)
    requires HoldsRef(b) && b'.st == b.st
    ensures HoldsRef(b')
  {}

  // A bank refreshed in this clock holds the REF at its end.
  lemma RunHolds(g: Config, s: Driver, r: nat, b: nat)
    requires RefShapes(g, s) && r < g.t.Ranks() && b < g.t.Banks() && b in Targets(g, DramDriver.Run(g, s), r)
    ensures Refreshes(g, s, r) && DramDriver.Run(g, s).refQ[r] == [] ==> HoldsRef(DramDriver.Run(g, s).dev.banks[b])
  {
    hide Topology.Valid, QueueOk, RefQOk, RefreshFrom, ScanFrom, RefShape, HoldsRef;
    var s1 := s.(rowBus := ReleaseBus(s.rowBus), colBus := ReleaseBus(s.colBus));
    assert RefShapes(g, s1);
    if Refreshes(g, s, r) {
      var s2 := RefreshFrom(g, s1, 0);
      ScanKeepsRefreshes(g, s2, 0, ActCounts(s2));
      RefreshHolds(g, s1, 0, r, b);
      if s2.refQ[r] == [] {
        HoldingIsBusy(s2.dev.banks[b]);
        ScanKeepsBusy(g, s2, 0, ActCounts(s2), b);
        HoldsSame(s2.dev.banks[b], DramDriver.Run(g, s).dev.banks[b]);
      }
    }
  }

  // How long a bank stays in refresh after the clock that enters it, wrap-around included.
  function Busyness(g: Config): nat { Sub32(g.p.nRFC, 2) }

  lemma TickRefresh(p: Params, b: Bank, cycle: nat)
    ensures HoldsRef(b) ==> Tick(p, b, cycle).st == Refreshing(Sub32(p.nRFC, 2))
    ensures b.st.Refreshing? && b.st.timer > 0 ==> Tick(p, b, cycle).st == Refreshing(b.st.timer - 1)
  {}

  lemma ClockRefreshing(g: Config, clocks: seq<seq<Call>>, b: nat)
    requires g.t.Valid() && g.p.nFAW > 0 && |clocks| > 0 && b < g.t.Banks()
    ensures var b0, b1 := DriverRun(g, clocks[..|clocks| - 1]).dev.banks[b], DriverRun(g, clocks).dev.banks[b];
            && (HoldsRef(b0) ==> b1.st == Refreshing(Busyness(g)))
            && (b0.st.Refreshing? && b0.st.timer > 0 ==> b1.st == Refreshing(b0.st.timer - 1))
  {
    hide Topology.Valid, Shaped, Tick, Offered, DriverRun, DramDriver.Run, HoldsRef, Busy, DevTick, SameState, SameRefreshes;
    var s := DriverRun(g, clocks[..|clocks| - 1]);
    BanksThere(g, clocks[..|clocks| - 1]);
    BanksThere(g, clocks);
    OfferedRefreshes(g, clocks);
    var s1 := Offered(g, clocks);
    TickedBank(g.p, s.dev, b);
    TickRefresh(g.p, s.dev.banks[b], s.dev.now + 1);
    if s1.dev.banks[b].st.Refreshing? {
      HoldingIsBusy(s1.dev.banks[b]);
      RunKeepsBusy(g, s1, b);
      StateKept(g, s1, DriverRun(g, clocks), b);
    }
  }

  lemma TickedBank(p: Params, d: Device, b: nat)
    requires b < |d.banks|
    ensures |DevTick(p, d).banks| == |d.banks| && DevTick(p, d).banks[b] == Tick(p, d.banks[b], d.now + 1)
  {
    hide Tick;
  }

  lemma StateKept(g: Config, s: Driver, s': Driver, b: nat)
    requires Shaped(g, s) && Shaped(g, s') && b < g.t.Banks() && SameState(g, s, s', b)
    ensures |s.dev.banks| == |s'.dev.banks| == g.t.Banks() && s'.dev.banks[b].st == s.dev.banks[b].st
  {
    hide Topology.Valid, QueueOk, RefQOk;
  }

  // A bank refreshed in clock u is refreshing for as long as the device takes.
  lemma {:induction false} StaysRefreshing(g: Config, clocks: seq<seq<Call>>, u: nat, j: nat, b: nat)
    requires g.t.Valid() && g.p.nFAW > 0 && b < g.t.Banks() && 1 <= j <= Busyness(g) + 1 && u + j <= |clocks|
    requires HoldsRef(DriverRun(g, clocks[..u]).dev.banks[b])
    ensures DriverRun(g, clocks[..u + j]).dev.banks[b].st == Refreshing(Busyness(g) - (j - 1))
  {
    hide Topology.Valid, Shaped, DriverRun, HoldsRef;
    assert clocks[..u + j][..u + j - 1] == clocks[..u + j - 1];
    BanksThere(g, clocks[..u + j - 1]);
    BanksThere(g, clocks[..u + j]);
    ClockRefreshing(g, clocks[..u + j], b);
    if j > 1 { StaysRefreshing(g, clocks, u, j - 1, b); }
  }

  lemma BanksThere(g: Config, clocks: seq<seq<Call>>)
    requires g.t.Valid() && g.p.nFAW > 0
    ensures |DriverRun(g, clocks).dev.banks| == g.t.Banks()
  {}

  // ---------------------------------------------------------------- when refreshes are lost

  lemma {:induction false} CounterBound(g: Config, clocks: seq<seq<Call>>, r: nat)
    requires g.t.Valid() && g.p.nFAW > 0 && r < g.t.Ranks() && g.useRefresh
    ensures DriverRun(g, clocks).refi[r] <= g.p.nREFI
  {
    hide Topology.Valid, QueueOk, RefQOk, NextBank;
    if |clocks| > 0 {
      CounterBound(g, clocks[..|clocks| - 1], r);
      RankClock(g, clocks, r);
    } else {
      FirstBound(g.p.nREFI, r + 1);
    }
  }

  lemma FirstBound(n: nat, d: nat)
    requires d > 0
    ensures n / d <= n
  {
    var q := n / d;
    assert n == q * d + n % d;
    AtLeast(q, d);
  }

  lemma AtLeast(q: nat, d: nat)
    requires d > 0
    ensures q <= q * d
  {
    assert q * d == q + q * (d - 1);
  }

  lemma PeriodGrows(g: Config, k: nat, k': nat)
    requires k < k'
    ensures Period(g, k) + g.p.nREFI + 1 <= Period(g, k')
  {
    Multiples(k, k', g.p.nREFI + 1);
  }

  // The clocks before which exactly k refreshes of the rank have been created.
  lemma CreatedCount(g: Config, clocks: seq<seq<Call>>, k: nat, r: nat)
    requires g.t.Valid() && g.p.nFAW > 0 && r < g.t.Ranks() && g.useRefresh
    requires FirstRefi(g.p, r) + Period(g, k) - (g.p.nREFI + 1) < |clocks| <= FirstRefi(g.p, r) + Period(g, k)
    ensures Created(g, clocks, r) == k && DriverRun(g, clocks).refi[r] == FirstRefi(g.p, r) + Period(g, k) - |clocks|
  {
    hide Topology.Valid, Fits, QueueOk, RefQOk, Period, FirstRefi, DriverRun;
    RefreshSchedule(g, clocks, r);
    CounterBound(g, clocks, r);
    var k' := Created(g, clocks, r);
    if k < k' { PeriodGrows(g, k, k'); }
    if k' < k { PeriodGrows(g, k', k); }
  }

  // The rank's round: all banks at once, or one after the other.
  function Round(g: Config, r: nat): nat
    requires r < |g.t.rankBanks|
  {
    if g.singleBank then |g.t.rankBanks[r]| else 1
  }

  // The rank's first bank is refreshed in every round.
  lemma FirstBankTurn(g: Config, clocks: seq<seq<Call>>, r: nat)
    requires g.t.Valid() && g.p.nFAW > 0 && r < g.t.Ranks() && g.useRefresh && r < |g.t.rankBanks| && |g.t.rankBanks[r]| > 0
    requires Created(g, clocks, r) == 1 || Created(g, clocks, r) == Round(g, r) + 1
    ensures g.t.rankBanks[r][0] < g.t.Banks() && g.t.rankBanks[r][0] in Targets(g, DriverRun(g, clocks), r)
  {
    hide Fits, QueueOk, RefQOk, DriverRun, Place, Created, NextBank;
    var n := |g.t.rankBanks[r]|;
    RoundPlace(g, clocks, r);
    if g.singleBank {
      PlaceAfter(n);
      PlaceAfterRound(n);
    }
  }

  lemma PlaceAfter(n: nat)
    requires n > 0
    ensures Before(Place(1, n), n) == 0
  {}

  lemma PlaceAfterRound(n: nat)
    requires n > 0
    ensures Place(n + 1, n) == Place(1, n)
  {
    assert (n + 1) % n == 1 % n by {
      if n == 1 { assert (1 + 1) % 1 == 0; } else { NextRemainder(1, 0, (n + 1) / n, (n + 1) % n, n); }
    }
  }

  // If nothing is lost, the k-th refresh is carried out in a clock before the next is due,
  // and a bank of it holds the REF at the end of that clock.
  lemma CarriedOutInTime(g: Config, clocks: seq<seq<Call>>, k: nat, r: nat, b: nat) returns (u: nat)
    requires g.t.Valid() && g.p.nFAW > 0 && r < g.t.Ranks() && g.useRefresh && b < g.t.Banks()
    requires FirstRefi(g.p, r) + Period(g, k + 1) < |clocks|
    requires forall i :: 0 <= i < |clocks| ==> !Overdue(g, DriverRun(g, clocks[..i]), r)
    requires forall i :: 0 <= i < |clocks| && Created(g, clocks[..i], r) == k + 1 ==> b in Targets(g, DriverRun(g, clocks[..i]), r)
    ensures FirstRefi(g.p, r) + Period(g, k) < u <= FirstRefi(g.p, r) + Period(g, k + 1)
    ensures HoldsRef(DriverRun(g, clocks[..u]).dev.banks[b])
  {
    hide Topology.Valid, QueueOk, RefQOk, Fits, Period, FirstRefi, DriverRun, HoldsRef, Created, Targets;
    NextPeriod(g, k);
    var first, last := FirstRefi(g.p, r) + Period(g, k), FirstRefi(g.p, r) + Period(g, k + 1);
    CreatedCount(g, clocks[..first], k, r);
    CreatedCount(g, clocks[..last], k + 1, r);
    assert !Overdue(g, DriverRun(g, clocks[..last]), r);
    u := first + 1;
    while DriverRun(g, clocks[..u]).refQ[r] != []
      invariant first < u <= last
      invariant Refreshes(g, DriverRun(g, clocks[..u - 1]), r)
      decreases last - u
    {
      u := u + 1;
      assert clocks[..u][..u - 1] == clocks[..u - 1];
    }
    CreatedCount(g, clocks[..u], k + 1, r);
    ClockHolds(g, clocks[..u], r, b) by { assert clocks[..u][..u - 1] == clocks[..u - 1]; }
  }

  lemma ClockHolds(g: Config, clocks: seq<seq<Call>>, r: nat, b: nat)
    requires g.t.Valid() && g.p.nFAW > 0 && r < g.t.Ranks() && |clocks| > 0 && b < g.t.Banks()
    requires Refreshes(g, DriverRun(g, clocks[..|clocks| - 1]), r) && DriverRun(g, clocks).refQ[r] == []
    requires b in Targets(g, DriverRun(g, clocks), r)
    ensures HoldsRef(DriverRun(g, clocks).dev.banks[b])
  {
    hide Topology.Valid, QueueOk, RefQOk, Offered, DramDriver.Run, RefShape, DriverRun, HoldsRef;
    EveryRefreshIsWhole(g, clocks[..|clocks| - 1]);
    OfferedRefreshes(g, clocks);
    ShapesSame(g, DriverRun(g, clocks[..|clocks| - 1]), Offered(g, clocks));
    RunHolds(g, Offered(g, clocks), r, b);
  }

  // Main result: when a bank is still refreshing until its next turn is over, refreshes are
  // lost in every run that gets there, whatever else is going on.
  lemma CannotKeepUp(g: Config, clocks: seq<seq<Call>>, r: nat)
    requires g.t.Valid() && g.p.nFAW > 0 && r < g.t.Ranks() && g.useRefresh && r < |g.t.rankBanks|
    requires Busyness(g) + 1 >= Period(g, Round(g, r) + 1)
    requires |clocks| > FirstRefi(g.p, r) + Period(g, Round(g, r) + 1)
    ensures Dropped(g, clocks, r) > 0
  {
    hide Topology.Valid, QueueOk, RefQOk, Fits, Period, FirstRefi, DriverRun, HoldsRef, Created, Targets, Overdue, Busyness;
    if Dropped(g, clocks, r) == 0 {
      DroppedCounts(g, clocks, r);
      RankListed(g.t, r);
      var n, b := Round(g, r), g.t.rankBanks[r][0];
      forall i | 0 <= i < |clocks| && (Created(g, clocks[..i], r) == 1 || Created(g, clocks[..i], r) == n + 1)
        ensures b < g.t.Banks() && b in Targets(g, DriverRun(g, clocks[..i]), r)
      {
        FirstBankTurn(g, clocks[..i], r);
      }
      FirstBankThere(g.t, r);
      PeriodGrows(g, 0, n);
      PeriodGrows(g, n, n + 1);
      if n > 1 { PeriodGrows(g, 1, n); }
      NoPeriod(g);
      var u := CarriedOutInTime(g, clocks, 0, r, b);
      var u' := CarriedOutInTime(g, clocks, n, r, b);
      StaysRefreshing(g, clocks, u, u' - u, b);
      BanksThere(g, clocks[..u']);
      assert false by { HoldsOrRefreshes(DriverRun(g, clocks[..u']).dev.banks[b]); }
    }
  }

  lemma NoPeriod(g: Config)
    ensures Period(g, 0) == 0
  {}

  lemma FirstBankThere(t: Topology, r: nat)
    requires t.Valid() && r < t.Ranks()
    ensures r < |t.rankBanks| && |t.rankBanks[r]| > 0 && t.rankBanks[r][0] < t.Banks()
  {}

  lemma HoldsOrRefreshes(b: Bank)
    ensures !(HoldsRef(b) && b.st.Refreshing?)
  {}

  // Two banks refreshed in turn in every clock, each refresh taking ten.
  const TWO_BANKS: Config := Config(
    Params(1, 1, 1, 1, 1, 1, 1, 1, 1, 1, 1, 1, 1, 1, 1, 1, 1, 1, 1, 10, 0, 1, 1),
    Topology([0, 0], [0], [0], [0], [0], 1, [[0, 1]]), false, false, true, true)

  lemma TwoBanksLose()
    ensures TWO_BANKS.t.Valid() && Dropped(TWO_BANKS, [[], [], [], []], 0) > 0
  {
    hide Dropped;
    var g := TWO_BANKS;
    assert Period(g, 3) == 3 && FirstRefi(g.p, 0) == 0 && Busyness(g) == 8;
    CannotKeepUp(g, [[], [], [], []], 0);
  }
}
