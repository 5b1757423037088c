// Nothing waits without a reason: what the scan leaves queued, what a round of visits leaves
// to the command queues, and a refresh that is not sent, were each really held back.
module DramGreedy {
  import opened Common
  import opened DramTypes
  import opened DramBank
  import opened DramDevice
  import opened DramTiming
  import opened DramDriver
  import opened DramSafety
  import opened DramRowScan
  import opened DramRefresh
  import opened DramRefreshRun
  import opened DramLanes
  import opened DramBusTime
  import opened DramPipeline

  // ---------------------------------------------------------------- what persists to the end of a scan

  lemma PushOnlyLater(p: Params, t: Topology, c: Cmd, i: nat, b: Bank, now: nat, k: Kind)
    requires c.bank != i
    ensures var b' := Push(p, t.Relate(c.bank, i), b, c.kind, now); b'.st == b.st && b.next.At(k) <= b'.next.At(k)
  {
    hide Push, CrossEarliest;
    PushRaisesNext(p, t.Relate(c.bank, i), b, c.kind, now, k);
    AboveAt(b.next, Push(p, t.Relate(c.bank, i), b, c.kind, now).next, k);
  }

  // A bank the clock's command does not address keeps its state, and refuses what it refused.
  lemma IssueElsewhere(g: Config, s: Driver, i: nat, b: nat, k: Kind)
    requires Shaped(g, s) && i < |s.inputQ| && CanSend(s.dev, s.inputQ[i]) && s.inputQ[i].bank != b && b < g.t.Banks()
    ensures var d' := Issue(g, s, i).dev;
            && d'.now == s.dev.now && d'.banks[b].st == s.dev.banks[b].st
            && (Allowed(d'.banks[b], k, d'.now) ==> Allowed(s.dev.banks[b], k, s.dev.now))
  {
    hide Topology.Valid, QueueOk, RefQOk, DataBusOk, Handle, Push, Accepts;
    PushOnlyLater(g.p, g.t, s.inputQ[i], b, s.dev.banks[b], s.dev.now, k);
  }

  lemma ScanOneElsewhere(g: Config, s: Driver, i: nat, counts: seq<nat>, b: nat, k: Kind)
    requires Shaped(g, s) && i < |s.inputQ| && |counts| == g.t.Ranks() && b < g.t.Banks()
    requires s.inputQ[i].bank != b || PassedOver(g, s, b)
    ensures var d' := ScanOne(g, s, i, counts).s.dev;
            && d'.now == s.dev.now && |d'.banks| == |s.dev.banks| && d'.banks[b].st == s.dev.banks[b].st
            && (Allowed(d'.banks[b], k, d'.now) ==> Allowed(s.dev.banks[b], k, s.dev.now))
  {
    hide Topology.Valid, RefQOk, Judge, Issue, AllBusy, Allowed, Sum, PassedOver;
    var c := s.inputQ[i];
    SentIsFresh(g, s, c, counts);
    if Judge(g, s, c, counts).Send? { IssueElsewhere(g, Mark(s, c), i, b, k); }
  }

  lemma {:induction false} RefusedStays(g: Config, s: Driver, i: nat, counts: seq<nat>, b: nat, k: Kind)
    requires Shaped(g, s) && i <= |s.inputQ| && |counts| == g.t.Ranks() && b < g.t.Banks() && PassedOver(g, s, b)
    requires !Allowed(s.dev.banks[b], k, s.dev.now)
    ensures var d' := ScanFrom(g, s, i, counts).dev; |d'.banks| == |s.dev.banks| && !Allowed(d'.banks[b], k, d'.now)
    decreases |s.inputQ| - i
  {
    hide Topology.Valid, QueueOk, RefQOk, ScanOne, PassedOver, Allowed;
    if i < |s.inputQ| {
      ScanOneElsewhere(g, s, i, counts, b, k);
      ScanOnePasses(g, s, i, counts, b);
      var o := ScanOne(g, s, i, counts);
      if !o.stop { RefusedStays(g, o.s, o.i, counts, b, k); }
    }
  }

  lemma ScanGrows(g: Config, s: Driver, i: nat, counts: seq<nat>)
    requires Shaped(g, s) && i <= |s.inputQ| && |counts| == g.t.Ranks()
    ensures var s' := ScanFrom(g, s, i, counts); Grown(s, s') && s.dev.trace <= s'.dev.trace && s'.dev.now == s.dev.now
  {
    hide Topology.Valid, Fits, QueueOk, RefQOk, ScanFrom, Grown, EventOk, AllApart;
    StartsOk(g, s, |s.dev.trace|);
    ScanKeepsClock(g, s, s, i, counts, |s.dev.trace|);
  }

  // ---------------------------------------------------------------- the scan

  // The command is the first queued for its bank from entry i on, and nothing before it
  // in the scan has spoken for its bank or written to its address.
  ghost predicate Next(g: Config, s: Driver, i: nat, c: Cmd) {
    && i <= |s.inputQ| && c.bank < g.t.Banks() && c.bank < |s.blocked|
    && FirstOnBank(s.inputQ[i..], c.bank) == Some(c) && !s.blocked[c.bank] && !IsRefreshing(g, s, c.bank)
    && c.addr % TWO32 !in s.inflight
    && forall j :: i <= j < |s.inputQ| ==>
         !s.inputQ[j].kind.REF? && (s.inputQ[j].bank != c.bank && IsWrite(s.inputQ[j].kind) ==> s.inputQ[j].addr % TWO32 != c.addr % TWO32)
  }

  // It was sent or is a superfluous precharge, or else: a fifth ACT, a bus in use, or a bank
  // that does not take it.
  ghost predicate Settled(g: Config, s: Driver, s': Driver, counts: seq<nat>, c: Cmd)
    requires c.bank < |s.dev.banks| && c.bank < |s'.dev.banks| && g.t.RankOf(c.bank) < |counts|
  {
    || (exists j :: |s.dev.trace| <= j < |s'.dev.trace| && s'.dev.trace[j].cmd == c)
    || (c.kind.PRE? && Precharged(s.dev.banks[c.bank]))
    || (c.kind.ACT? && counts[g.t.RankOf(c.bank)] >= 4)
    || !BusFree(s', g.t.BusOf(c.bank), c.kind)
    || !Allowed(s'.dev.banks[c.bank], c.kind, s'.dev.now)
  }

  lemma RestOfQueue(q: seq<Cmd>, i: nat, b: nat)
    requires i < |q|
    ensures q[i..][1..] == q[i + 1..] && Without(q, i)[i..] == q[i + 1..]
    ensures FirstOnBank(q[i..], b) == if q[i].bank == b then Some(q[i]) else FirstOnBank(q[i + 1..], b)
  {
    assert q[i..][1..] == q[i + 1..];
    assert Without(q, i)[i..] == q[i + 1..];
  }

  // One entry scanned: the rest of the queue is as it was, and only its own marks are added.
  lemma EntryScanned(g: Config, s: Driver, i: nat, counts: seq<nat>, b: nat)
    requires Shaped(g, s) && i < |s.inputQ| && |counts| == g.t.Ranks() && !s.inputQ[i].kind.REF? && s.inputQ[i].bank != b
    ensures var o, x := ScanOne(g, s, i, counts), s.inputQ[i];
            && o.i <= |o.s.inputQ| && o.s.inputQ[o.i..] == s.inputQ[i + 1..]
            && o.s.refQ == s.refQ && |o.s.blocked| == |s.blocked| && (b < |s.blocked| ==> o.s.blocked[b] == s.blocked[b])
            && o.s.inflight <= s.inflight + (if IsWrite(x.kind) then {x.addr % TWO32} else {})
            && (o.stop ==> AllBusy(o.s))
  {
    hide Topology.Valid, Fits, RefQOk, Judge, Issue, AllBusy, Allowed, Sum;
    var x := s.inputQ[i];
    RestOfQueue(s.inputQ, i, b);
    SentIsFresh(g, s, x, counts);
    NoHalt(g, s, x, counts);
    if Judge(g, s, x, counts).Send? { IssueKeepsMarks(g, Mark(s, x), i); }
  }

  // So a command of another bank stays next in line.
  lemma NextStays(g: Config, s: Driver, i: nat, s': Driver, i': nat, c: Cmd)
    requires Next(g, s, i, c) && i < |s.inputQ| && s.inputQ[i].bank != c.bank && i' <= |s'.inputQ|
    requires s'.inputQ[i'..] == s.inputQ[i + 1..] && s'.refQ == s.refQ && |s'.blocked| == |s.blocked| && s'.blocked[c.bank] == s.blocked[c.bank]
    requires s'.inflight <= s.inflight + (if IsWrite(s.inputQ[i].kind) then {s.inputQ[i].addr % TWO32} else {})
    ensures Next(g, s', i', c)
  {
    hide FirstOnBank, IsRefreshing;
    RestOfQueue(s.inputQ, i, c.bank);
    SameRefreshing(g, s, s', c.bank);
    forall j | i' <= j < |s'.inputQ|
      ensures !s'.inputQ[j].kind.REF? && (s'.inputQ[j].bank != c.bank && IsWrite(s'.inputQ[j].kind) ==> s'.inputQ[j].addr % TWO32 != c.addr % TWO32)
    {
      assert s'.inputQ[j] == s'.inputQ[i'..][j - i'] == s.inputQ[i + 1..][j - i'] == s.inputQ[i + 1 + (j - i')];
    }
  }

  // An entry of another bank leaves the command next in line, or ends the scan with all
  // buses in use.
  lemma StillNext(g: Config, s: Driver, i: nat, counts: seq<nat>, c: Cmd)
    requires Shaped(g, s) && i < |s.inputQ| && |counts| == g.t.Ranks() && Next(g, s, i, c) && s.inputQ[i].bank != c.bank
    ensures var o := ScanOne(g, s, i, counts);
            if o.stop then !BusFree(o.s, g.t.BusOf(c.bank), c.kind) else Next(g, o.s, o.i, c)
  {
    hide Topology.Valid, Fits, QueueOk, RefQOk, ScanOne, FirstOnBank, BusFree, IsRefreshing, AllBusy;
    var o := ScanOne(g, s, i, counts);
    EntryScanned(g, s, i, counts, c.bank);
    if o.stop { AllTaken(g, o.s, c); } else { NextStays(g, s, i, o.s, o.i, c); }
  }

  lemma NoHalt(g: Config, s: Driver, x: Cmd, counts: seq<nat>)
    requires Shaped(g, s) && x.bank < g.t.Banks() && |counts| == g.t.Ranks() && !x.kind.REF?
    ensures !Judge(g, s, x, counts).Halt?
  {
    hide Topology.Valid, Fits, QueueOk, RefQOk, BusFree, Precharged, Allowed, IsRefreshing;
  }

  lemma AllTaken(g: Config, s: Driver, c: Cmd)
    requires Shaped(g, s) && c.bank < g.t.Banks()
    ensures AllBusy(s) ==> !BusFree(s, g.t.BusOf(c.bank), c.kind)
  {
    hide Topology.Valid, Fits, QueueOk, RefQOk;
  }

  // The command's own entry.
  lemma OwnEntry(g: Config, s: Driver, i: nat, counts: seq<nat>, c: Cmd)
    requires Shaped(g, s) && i < |s.inputQ| && |counts| == g.t.Ranks() && Next(g, s, i, c) && s.inputQ[i] == c
    requires g.t.RankOf(c.bank) < |counts| && c.bank < |s.dev.banks|
    ensures var o := ScanOne(g, s, i, counts);
            || (s.dev.trace < o.s.dev.trace && o.s.dev.trace[|s.dev.trace|].cmd == c)
            || (c.kind.PRE? && Precharged(s.dev.banks[c.bank])) || (c.kind.ACT? && counts[g.t.RankOf(c.bank)] >= 4)
            || !BusFree(s, g.t.BusOf(c.bank), c.kind)
            || (!Allowed(s.dev.banks[c.bank], c.kind, s.dev.now) && o.s.dev == s.dev && !o.stop && PassedOver(g, o.s, c.bank))
  {
    hide Topology.Valid, Fits, QueueOk, RefQOk, AllBusy, BusFree, Precharged, Allowed, Issue, Sum, FirstOnBank;
    if CanSend(s.dev, c) { IssueSent(g, s, i); }
  }

  lemma IssueSent(g: Config, s: Driver, i: nat)
    requires Shaped(g, s) && i < |s.inputQ| && CanSend(s.dev, s.inputQ[i]) && s.inputQ[i].bank < |s.blocked|
    ensures var d' := Issue(g, Mark(s, s.inputQ[i]), i).dev; s.dev.trace < d'.trace && d'.trace[|s.dev.trace|].cmd == s.inputQ[i]
  {
    hide Topology.Valid, Fits, RefQOk, Allowed, Issue;
    BankPlace(g.t, s.inputQ[i].bank);
    IssueParts(g, Mark(s, s.inputQ[i]), i);
  }

  lemma {:induction false} NoneLeftBehind(g: Config, s: Driver, i: nat, counts: seq<nat>, c: Cmd)
    requires Shaped(g, s) && |counts| == g.t.Ranks() && Next(g, s, i, c) && g.t.RankOf(c.bank) < |counts|
    ensures var s' := ScanFrom(g, s, i, counts); c.bank < |s.dev.banks| == |s'.dev.banks| && Settled(g, s, s', counts, c)
    decreases |s.inputQ| - i
  {
    hide Topology.Valid, QueueOk, RefQOk, ScanOne, PassedOver, Allowed, BusFree, Precharged, IsRefreshing, Grown;
    RestOfQueueNotEmpty(s.inputQ, i, c);
    var x := s.inputQ[i];
    var o := ScanOne(g, s, i, counts);
    var s' := ScanFrom(g, s, i, counts);
    ScanGrows(g, s, i, counts);
    RestOfQueue(s.inputQ, i, c.bank);
    if x.bank == c.bank {
      OwnEntry(g, s, i, counts, c);
      GrownKeeps(g, s, s', g.t.BusOf(c.bank), c.kind);
      if !o.stop { ScanGrows(g, o.s, o.i, counts); }
      if !Allowed(s.dev.banks[c.bank], c.kind, s.dev.now) && o.s.dev == s.dev && !o.stop && PassedOver(g, o.s, c.bank) {
        RefusedStays(g, o.s, o.i, counts, c.bank, c.kind);
      }
    } else {
      ScanOneElsewhere(g, s, i, counts, c.bank, c.kind);
      StillNext(g, s, i, counts, c);
      if !o.stop {
        NoneLeftBehind(g, o.s, o.i, counts, c);
        ScanOneLonger(g, s, i, counts);
        SamePrecharged(s.dev.banks[c.bank], o.s.dev.banks[c.bank]);
      }
    }
  }

  lemma SamePrecharged(b: Bank, b': Bank)
    requires b.st == b'.st
    ensures Precharged(b) == Precharged(b')
  {}

  lemma RestOfQueueNotEmpty(q: seq<Cmd>, i: nat, c: Cmd)
    requires i <= |q| && FirstOnBank(q[i..], c.bank) == Some(c)
    ensures i < |q|
  {}

  lemma ScanOneLonger(g: Config, s: Driver, i: nat, counts: seq<nat>)
    requires Shaped(g, s) && i < |s.inputQ| && |counts| == g.t.Ranks()
    ensures |s.dev.trace| <= |ScanOne(g, s, i, counts).s.dev.trace|
  {
    hide Topology.Valid, Fits, QueueOk, RefQOk, ScanOne, EventOk, AllApart, Grown;
    StartsOk(g, s, |s.dev.trace|);
    ScanOneKeepsClock(g, s, s, i, counts, |s.dev.trace|);
  }

  // ---------------------------------------------------------------- who has a bus

  // A counter that is not out was not out when the run began, or stands for an event since,
  // those below n sent by the refresh phase.
  ghost predicate Explained(g: Config, s0: Driver, s: Driver, n: nat, bus: nat, k: Kind) {
    BusFree(s, bus, k) || !BusFree(s0, bus, k)
    || exists i :: |s0.dev.trace| <= i < |s.dev.trace| && EventBus(g, s.dev.trace[i], i < n) == bus && Overlap(g, s.dev.trace[i].cmd.kind, k)
  }

  lemma ScanOneExplains(g: Config, s0: Driver, s: Driver, i: nat, counts: seq<nat>, n: nat, bus: nat, k: Kind)
    requires Shaped(g, s) && i < |s.inputQ| && |counts| == g.t.Ranks() && n <= |s.dev.trace| && |s0.dev.trace| <= |s.dev.trace|
    requires Explained(g, s0, s, n, bus, k)
    ensures Explained(g, s0, ScanOne(g, s, i, counts).s, n, bus, k)
  {
    hide Topology.Valid, Fits, RefQOk, Judge, Issue, AllBusy, Allowed, Sum, IsRefreshing, BusFree, Overlap, Occupy, Explained;
    var c := s.inputQ[i];
    var s' := ScanOne(g, s, i, counts).s;
    SentIsFresh(g, s, c, counts);
    if Judge(g, s, c, counts).Send? {
      var s1 := Mark(s, c);
      IssueParts(g, s1, i);
      SameFree(g, s, s1, bus, k);
      OccupyAccounts(g, s1, g.t.BusOf(c.bank), c.kind, bus, k);
      SameFree(g, Occupy(g, s1, g.t.BusOf(c.bank), c.kind), s', bus, k);
      OneMoreExplains(g, s0, s, s', n, bus, k);
    } else {
      SameFree(g, s, s', bus, k);
      SameExplains(g, s0, s, s', n, bus, k);
    }
  }

  lemma SameExplains(g: Config, s0: Driver, s: Driver, s': Driver, n: nat, bus: nat, k: Kind)
    requires Explained(g, s0, s, n, bus, k) && s'.dev.trace == s.dev.trace && (BusFree(s', bus, k) <==> BusFree(s, bus, k))
    ensures Explained(g, s0, s', n, bus, k)
  {
    hide BusFree, Overlap, EventBus;
  }

  lemma OneMoreExplains(g: Config, s0: Driver, s: Driver, s': Driver, n: nat, bus: nat, k: Kind)
    requires Explained(g, s0, s, n, bus, k) && n <= |s.dev.trace| && |s0.dev.trace| <= |s.dev.trace|
    requires |s'.dev.trace| == |s.dev.trace| + 1 && s.dev.trace <= s'.dev.trace
    requires var c := s'.dev.trace[|s.dev.trace|].cmd; BusFree(s, bus, k) && !BusFree(s', bus, k) ==> g.t.BusOf(c.bank) == bus && Overlap(g, c.kind, k)
    ensures Explained(g, s0, s', n, bus, k)
  {
    hide BusFree, Overlap;
    if j :| |s0.dev.trace| <= j < |s.dev.trace| && EventBus(g, s.dev.trace[j], j < n) == bus && Overlap(g, s.dev.trace[j].cmd.kind, k) {
      assert s'.dev.trace[j] == s.dev.trace[j];
    }
  }

  lemma SameFree(g: Config, s: Driver, s': Driver, bus: nat, k: Kind)
    requires s'.rowBus == s.rowBus && s'.colBus == s.colBus
    ensures BusFree(s', bus, k) <==> BusFree(s, bus, k)
  {}

  lemma {:induction false} ScanExplains(g: Config, s0: Driver, s: Driver, i: nat, counts: seq<nat>, n: nat, bus: nat, k: Kind)
    requires Shaped(g, s) && i <= |s.inputQ| && |counts| == g.t.Ranks() && n <= |s.dev.trace| && |s0.dev.trace| <= |s.dev.trace|
    requires Explained(g, s0, s, n, bus, k)
    ensures Explained(g, s0, ScanFrom(g, s, i, counts), n, bus, k)
    decreases |s.inputQ| - i
  {
    hide Topology.Valid, Fits, QueueOk, RefQOk, ScanOne, Explained;
    if i < |s.inputQ| {
      ScanOneExplains(g, s0, s, i, counts, n, bus, k);
      ScanOneLonger(g, s, i, counts);
      var o := ScanOne(g, s, i, counts);
      if !o.stop { ScanExplains(g, s0, o.s, o.i, counts, n, bus, k); }
    }
  }

  // A command of this clock has the wires, or a two-cycle ACT pushed in it.
  ghost predicate WiresTaken(g: Config, clocks: seq<seq<Call>>, bus: nat, k: Kind)
    requires g.t.Valid() && g.p.nFAW > 0 && |clocks| > 0
  {
    var s0, q := DriverRun(g, clocks[..|clocks| - 1]), DriverRun(g, clocks).dev.trace;
    var pushed := LastRowPush(g, Update(g, s0), clocks[|clocks| - 1], bus);
    || (!k.IsCol() && pushed.Some? && TwoCycles(g, pushed.value))
    || exists i :: |s0.dev.trace| <= i < |q| && EventBus(g, q[i], ByRefresh(g, clocks, i)) == bus && Overlap(g, q[i].cmd.kind, k)
  }

  lemma BusyIsTaken(g: Config, clocks: seq<seq<Call>>, bus: nat, k: Kind)
    requires g.t.Valid() && g.p.nFAW > 0 && |clocks| > 0 && bus < g.t.buses && !BusFree(DriverRun(g, clocks), bus, k)
    ensures WiresTaken(g, clocks, bus, k)
  {
    hide Topology.Valid, Fits, QueueOk, RefQOk, DriverRun, Offered, BusFree, LastRowPush, Update, ScanFrom, ScanStart, Released, Overlap, EventBus, DramDriver.Run, ActSince;
    var s1 := Offered(g, clocks);
    var s2 := ScanStart(g, s1);
    var n := |s2.dev.trace|;
    OfferedRefreshes(g, clocks);
    CountersAlways(g, clocks, bus);
    RunKeepsClock(g, s1);
    DramBusTime.RunCounts(g, s1, bus, k);
    ReleasedTrace(g, s1);
    assert Explained(g, Released(g, s1), s2, n, bus, k) by { ByRefreshPhase(g, Released(g, s1), s2, bus, k); }
    RunIsScan(g, s1);
    ScanExplains(g, Released(g, s1), s2, 0, ActCounts(s2), n, bus, k);
    FreeWhenRun(g, clocks, bus, k);
  }

  lemma ReleasedTrace(g: Config, s: Driver)
    requires Shaped(g, s)
    ensures Released(g, s).dev == s.dev
  {}

  lemma ByRefreshPhase(g: Config, s0: Driver, s: Driver, bus: nat, k: Kind)
    requires Accounted(g, s0, s, bus, k)
    ensures Explained(g, s0, s, |s.dev.trace|, bus, k)
  {
    hide BusFree, EventBus, Overlap;
    if i :| |s0.dev.trace| <= i < |s.dev.trace| && EventBus(g, s.dev.trace[i], true) == bus && Overlap(g, s.dev.trace[i].cmd.kind, k) {
      assert EventBus(g, s.dev.trace[i], i < |s.dev.trace|) == bus;
    }
  }

  // No other write in the queue is for the command's address, and no refresh is queued there.
  ghost predicate Plain(q: seq<Cmd>, c: Cmd) {
    forall j :: 0 <= j < |q| ==>
      !q[j].kind.REF? && (q[j].bank != c.bank && IsWrite(q[j].kind) ==> q[j].addr % TWO32 != c.addr % TWO32)
  }

  // What may keep a command from leaving in the last clock.
  ghost predicate HeldBack(g: Config, clocks: seq<seq<Call>>, c: Cmd)
    requires g.t.Valid() && g.p.nFAW > 0 && |clocks| > 0 && c.bank < g.t.Banks()
  {
    BankPlace(g.t, c.bank);
    var s, s' := ScanStart(g, Offered(g, clocks)), DriverRun(g, clocks);
    || (c.kind.PRE? && Precharged(s.dev.banks[c.bank]))
    || (c.kind.ACT? && Sum(s.faw[g.t.RankOf(c.bank)]) >= 4)
    || WiresTaken(g, clocks, g.t.BusOf(c.bank), c.kind)
    || !Allowed(s'.dev.banks[c.bank], c.kind, s'.dev.now)
  }

  // Main result: in every clock of every run the first queued command of a bank whose rank
  // is not refreshing leaves, unless it is a precharge for a closed bank or a fifth ACT, its
  // wires are taken in this clock, or its bank does not accept it.
  lemma NothingWaitsIdly(g: Config, clocks: seq<seq<Call>>, c: Cmd)
    requires g.t.Valid() && g.p.nFAW > 0 && |clocks| > 0 && c.bank < g.t.Banks()
    requires var s := ScanStart(g, Offered(g, clocks));
             && FirstOnBank(s.inputQ, c.bank) == Some(c) && !IsRefreshing(g, s, c.bank) && Plain(s.inputQ, c)
    ensures HeldBack(g, clocks, c)
            || exists j :: |ScanStart(g, Offered(g, clocks)).dev.trace| <= j < |DriverRun(g, clocks).dev.trace|
                           && DriverRun(g, clocks).dev.trace[j].cmd == c
  {
    hide Topology.Valid, RefQOk, QueueOk, DriverRun, DramDriver.Run, Offered, BusFree, Precharged, ScanFrom, ScanStart, WiresTaken, Allowed, IsRefreshing, FirstOnBank, Sum;
    var s1 := Offered(g, clocks);
    var s := ScanStart(g, s1);
    BankPlace(g.t, c.bank);
    OfferedRefreshes(g, clocks);
    RunIsScan(g, s1);
    ScanBeginsUnmarked(g, clocks);
    assert s.inputQ[0..] == s.inputQ;
    NoneLeftBehind(g, s, 0, ActCounts(s), c);
    if !BusFree(DriverRun(g, clocks), g.t.BusOf(c.bank), c.kind) { BusyIsTaken(g, clocks, g.t.BusOf(c.bank), c.kind); }
  }

  // ---------------------------------------------------------------- the command queues

  // An ACT for the bank is queued.
  ghost predicate ActQueued(q: seq<Cmd>, b: nat) { exists i :: 0 <= i < |q| && q[i].bank == b && q[i].kind.ACT? }

  // Asking changes nothing, unless a column command finds its bank closed, its rank not
  // refreshing and no ACT queued for it: then an ACT for its row and address joins the queue.
  lemma AskingQueuesTheAct(g: Config, s: Driver, c: Cmd)
    requires Shaped(g, s) && c.bank < g.t.Banks()
    ensures c.bank < |s.dev.banks|
    ensures CmdAllowed(g, s, c).0 ==
            if !IsRefreshing(g, s, c.bank) && c.kind.IsCol() && Precharged(s.dev.banks[c.bank]) && !ActQueued(s.inputQ, c.bank)
            then s.(inputQ := s.inputQ + [Cmd(0, ACT, c.addr, c.bank, c.row)]) else s
  {
    hide Topology.Valid, QueueOk, RefQOk, BusFree, IsRefreshing, Precharged, Allowed;
  }

  // Nothing moved so far needs the wires.
  ghost predicate Unused(g: Config, moved: seq<Cmd>, bus: nat, k: Kind) {
    forall i :: 0 <= i < |moved| ==> !(g.t.BusOf(moved[i].bank) == bus && Overlap(g, moved[i].kind, k))
  }

  // What a visit to another queue leaves as it was, and which wires it leaves free.
  lemma VisitLeaves(u: Setup, P: Pipe, x: nat, b: nat, bus: nat, k: Kind)
    requires Shaped(u.g, P.drv) && b != x && b < |P.cmdQ|
    ensures var P1 := Visit(u, P, x);
            && P1.drv.dev == P.drv.dev && P1.drv.refQ == P.drv.refQ && |P1.cmdQ| == |P.cmdQ| && P1.cmdQ[b] == P.cmdQ[b]
            && (BusFree(P1.drv, bus, k) <==>
                BusFree(P.drv, bus, k) && !(x < |P.cmdQ| && |P1.cmdQ[x]| < |P.cmdQ[x]|
                                            && u.g.t.BusOf(P.cmdQ[x][0].bank) == bus && Overlap(u.g, P.cmdQ[x][0].kind, k)))
  {
    hide Topology.Valid, Fits, QueueOk, RefQOk, BusFree, Overlap, CmdAllowed, PushCmd;
    if x < |P.cmdQ| && P.cmdQ[x] != [] && P.cmdQ[x][0].bank < u.g.t.Banks() {
      var c := P.cmdQ[x][0];
      AskLeaves(u.g, P.drv, c, bus, k);
      PushLeaves(u.g, P.drv, c, bus, k);
    }
  }

  lemma AskLeaves(g: Config, s: Driver, c: Cmd, bus: nat, k: Kind)
    requires Shaped(g, s) && c.bank < g.t.Banks()
    ensures var (s', ok) := CmdAllowed(g, s, c);
            && s'.dev == s.dev && s'.refQ == s.refQ && (BusFree(s', bus, k) <==> BusFree(s, bus, k)) && (ok ==> s' == s)
  {
    hide Topology.Valid, Fits, QueueOk, RefQOk, HasAct, IsRefreshing, Precharged, Allowed;
  }

  lemma PushLeaves(g: Config, s: Driver, c: Cmd, bus: nat, k: Kind)
    requires Shaped(g, s) && c.bank < g.t.Banks()
    ensures var (s', ok) := PushCmd(g, s, c);
            && s'.dev == s.dev && s'.refQ == s.refQ
            && (BusFree(s', bus, k) <==> BusFree(s, bus, k) && !(ok && g.t.BusOf(c.bank) == bus && Overlap(g, c.kind, k)))
  {
    hide Topology.Valid, Fits, QueueOk, RefQOk, BusFree, Overlap, Occupy;
    var to := g.t.BusOf(c.bank);
    var s1 := s.(inputQ := s.inputQ + [c]);
    BankPlace(g.t, c.bank);
    SameFree(g, s, s1, bus, k);
    OccupyAccounts(g, s1, to, c.kind, bus, k);
    OccupyTakes(g, s1, to, c.kind);
    OccupyKeeps(g, s1, to, c.kind);
    var o := Occupy(g, s1, to, c.kind);
    GrownKeeps(g, s1, o, bus, k);
    if to == bus && Overlap(g, c.kind, k) { TakenBlocks(g, o, bus, c.kind, k); }
  }

  lemma OccupyKeeps(g: Config, s: Driver, bus: nat, k: Kind)
    requires bus < |s.rowBus| == |s.colBus|
    ensures var s' := Occupy(g, s, bus, k); s' == s.(rowBus := s'.rowBus, colBus := s'.colBus)
  {}

  lemma {:induction false} VisitsLeave(u: Setup, P: Pipe, order: seq<nat>, b: nat, bus: nat, k: Kind)
    requires Shaped(u.g, P.drv) && b !in order && b < |P.cmdQ|
    ensures var P1 := VisitAll(u, P, order);
            && P1.drv.dev == P.drv.dev && P1.drv.refQ == P.drv.refQ && |P1.cmdQ| == |P.cmdQ| && P1.cmdQ[b] == P.cmdQ[b]
            && (BusFree(P1.drv, bus, k) <==> BusFree(P.drv, bus, k) && Unused(u.g, Moved(u, P, order), bus, k))
    decreases |order|
  {
    hide Topology.Valid, Fits, QueueOk, RefQOk, Visit, BusFree, Overlap, Shaped, Unused;
    if order == [] {
      UnusedFew(u.g, Cmd(0, ACT, 0, 0, 0), bus, k);
    } else {
      var x, P1 := order[0], Visit(u, P, order[0]);
      VisitLeaves(u, P, x, b, bus, k);
      VisitsLeave(u, P1, order[1..], b, bus, k);
      var rest := Moved(u, P1, order[1..]);
      var first := if x < |P.cmdQ| == |P1.cmdQ| && |P1.cmdQ[x]| < |P.cmdQ[x]| then [P.cmdQ[x][0]] else [];
      assert Moved(u, P, order) == first + rest;
      UnusedSplit(u.g, first, rest, bus, k);
      UnusedFew(u.g, if first != [] then first[0] else Cmd(0, ACT, 0, 0, 0), bus, k);
    }
  }

  lemma UnusedFew(g: Config, c: Cmd, bus: nat, k: Kind)
    ensures Unused(g, [], bus, k)
    ensures Unused(g, [c], bus, k) <==> !(g.t.BusOf(c.bank) == bus && Overlap(g, c.kind, k))
  {
    assert [c][0] == c;
  }

  lemma UnusedSplit(g: Config, p: seq<Cmd>, q: seq<Cmd>, bus: nat, k: Kind)
    ensures Unused(g, p + q, bus, k) <==> Unused(g, p, bus, k) && Unused(g, q, bus, k)
  {
    if Unused(g, p + q, bus, k) {
      forall i | 0 <= i < |p| ensures !(g.t.BusOf(p[i].bank) == bus && Overlap(g, p[i].kind, k)) { assert (p + q)[i] == p[i]; }
      forall i | 0 <= i < |q| ensures !(g.t.BusOf(q[i].bank) == bus && Overlap(g, q[i].kind, k)) { assert (p + q)[|p| + i] == q[i]; }
    }
  }

  // Main result: the head of a command queue moves to the driver in a clock if and only if
  // its rank is not refreshing, a column command finds its bank not closed, its wires were
  // free when the clock's visits began and no command moved since needs them, its bank
  // takes it in this cycle, and the driver has fewer than 32 commands queued.
  lemma HeadMovesExactly(u: Setup, P: Pipe, before: seq<nat>, b: nat)
    requires Shaped(u.g, P.drv) && b !in before && b < |P.cmdQ| && P.cmdQ[b] != [] && P.cmdQ[b][0].bank < u.g.t.Banks()
    ensures var c := P.cmdQ[b][0];
            var P1 := VisitAll(u, P, before);
            && |P1.cmdQ| == |P.cmdQ| && P1.cmdQ[b] == P.cmdQ[b] && c.bank < |P.drv.dev.banks|
            && Visit(u, P1, b).cmdQ == (if MayMove(u, P, before, c) then P1.cmdQ[b := P.cmdQ[b][1..]] else P1.cmdQ)
  {
    hide Topology.Valid, QueueOk, RefQOk, Allowed, BusFree, Overlap, Occupy, HasAct, IsRefreshing, Precharged, VisitAll, Unused;
    var c := P.cmdQ[b][0];
    VisitsLeave(u, P, before, b, u.g.t.BusOf(c.bank), c.kind);
    SameRefreshing(u.g, P.drv, VisitAll(u, P, before).drv, c.bank);
  }

  ghost predicate MayMove(u: Setup, P: Pipe, before: seq<nat>, c: Cmd)
    requires Shaped(u.g, P.drv) && c.bank < |P.drv.dev.banks|
  {
    && !IsRefreshing(u.g, P.drv, c.bank)
    && !(c.kind.IsCol() && Precharged(P.drv.dev.banks[c.bank]))
    && BusFree(P.drv, u.g.t.BusOf(c.bank), c.kind) && Unused(u.g, Moved(u, P, before), u.g.t.BusOf(c.bank), c.kind)
    && CanSend(P.drv.dev, c) && |VisitAll(u, P, before).drv.inputQ| < 32
  }

  // ---------------------------------------------------------------- refreshes

  // The rank's queue at its turn: its refresh is created then if it is due.
  function DueQueue(g: Config, s: Driver, r: nat): seq<RefCmd>
    requires Shaped(g, s) && r < g.t.Ranks()
  {
    if s.refi[r] > 0 then s.refQ[r] else CreateRefresh(g, s, r).refQ[r]
  }

  predicate RowFree(s: Driver, bus: nat) { bus < |s.rowBus| && s.rowBus[bus] == 0 }

  // All banks of the first refresh command are ready, and its bus is free.
  predicate GoesNow(g: Config, s: Driver, r: nat, q: seq<RefCmd>) {
    q != [] && AllCanSend(s.dev, q[0].kind, q[0].banks) && RowFree(s, g.t.RefBus(r))
  }

  lemma DueIsRows(g: Config, s: Driver, r: nat)
    requires Shaped(g, s) && r < g.t.Ranks()
    ensures RefQOk(g.t, r, DueQueue(g, s, r))
    ensures g.t.RefBus(r) < g.t.buses
  {
    hide Topology.Valid, Fits, QueueOk, RefOk, CreateRefresh;
    RefBusIn(g.t, r);
  }

  // What one rank's turn does to the rest.
  ghost predicate TurnDone(g: Config, s: Driver, s': Driver, r: nat, goes: bool)
    requires |s'.refQ| == |s.refQ| && |s'.refi| == |s.refi| && |s'.nextRef| == |s.nextRef| && |s'.dev.banks| == |s.dev.banks|
  {
    && s.dev.trace <= s'.dev.trace && s'.dev.now == s.dev.now
    && (forall x :: 0 <= x < |s.refQ| && x != r ==> s'.refQ[x] == s.refQ[x])
    && (forall x :: 0 <= x < |s.refi| && x != r ==> s'.refi[x] == s.refi[x])
    && (forall x :: 0 <= x < |s.nextRef| && x != r ==> s'.nextRef[x] == s.nextRef[x])
    && (forall b :: 0 <= b < |s.dev.banks| && g.t.RankOf(b) != r ==> s'.dev.banks[b] == s.dev.banks[b])
    && (forall j :: |s.dev.trace| <= j < |s'.dev.trace| ==> g.t.RankOf(s'.dev.trace[j].cmd.bank) == r)
    && (goes <==> |s.dev.trace| < |s'.dev.trace|)
    && (forall x :: RowFree(s', x) <==> RowFree(s, x) && !(goes && x == g.t.RefBus(r)))
  }

  lemma SendTurn(g: Config, s: Driver, r: nat)
    requires Shaped(g, s) && r < g.t.Ranks() && s.refQ[r] != []
    ensures var s', goes := SendRefresh(g, s, r), GoesNow(g, s, r, s.refQ[r]);
            s'.refQ[r] == (if goes then s.refQ[r][1..] else s.refQ[r]) && TurnDone(g, s, s', r, goes)
  {
    hide Topology.Valid, QueueOk, AllCanSend, SendEach, RefEvents, Allowed, Occupy;
    var s' := SendRefresh(g, s, r);
    var rc := s.refQ[r][0];
    assert RefOk(g.t, r, rc);
    RefBusIn(g.t, r);
    if GoesNow(g, s, r, s.refQ[r]) {
      SentEvents(g, s.dev, rc.kind, rc.banks);
      SendEachTrace(g, s.dev, rc.kind, rc.banks, 0);
      SendEachAtomic(g, s.dev, rc.kind, rc.banks);
      SentBlock(g, s.dev.now, s.dev.trace, SendEach(g, s.dev, rc.kind, rc.banks).trace, r, rc);
      OccupyRow(g, s.(dev := SendEach(g, s.dev, rc.kind, rc.banks), refQ := s.refQ[r := s.refQ[r][1..]]), g.t.RefBus(r), rc.kind);
    }
  }

  lemma OccupyRow(g: Config, s: Driver, bus: nat, k: Kind)
    requires bus < |s.rowBus| == |s.colBus| && !k.IsCol()
    ensures var s' := Occupy(g, s, bus, k);
            && s' == s.(rowBus := s'.rowBus, colBus := s'.colBus)
            && forall x :: RowFree(s', x) <==> RowFree(s, x) && x != bus
  {}

  lemma RankTurn(g: Config, s: Driver, r: nat)
    requires Shaped(g, s) && r < g.t.Ranks()
    ensures var s', q := RefreshRank(g, s, r), DueQueue(g, s, r);
            var goes := GoesNow(g, s, r, q);
            s'.refQ[r] == (if goes then q[1..] else q) && TurnDone(g, s, s', r, goes)
  {
    hide Topology.Valid, QueueOk, RefQOk, SendRefresh, CreateRefresh, AllCanSend, RowFree, TurnDone;
    var s1 := if s.refi[r] > 0 then s.(refi := s.refi[r := s.refi[r] - 1])
              else CreateRefresh(g, s, r).(refi := s.refi[r := g.p.nREFI]);
    CreatedOnly(g, s, r);
    OwnRankOnly(g, s, s1, r);
    if s1.refQ[r] != [] {
      SendTurn(g, s1, r);
      TurnOn(g, s, s1, RefreshRank(g, s, r), r, GoesNow(g, s, r, DueQueue(g, s, r)));
    }
  }

  lemma CreatedOnly(g: Config, s: Driver, r: nat)
    requires Shaped(g, s) && r < g.t.Ranks()
    ensures var s' := CreateRefresh(g, s, r);
            && s'.dev == s.dev && s'.rowBus == s.rowBus && s'.colBus == s.colBus && s'.refi == s.refi
            && s'.refQ == s.refQ[r := s'.refQ[r]] && s'.nextRef == s.nextRef[r := s'.nextRef[r]]
  {
    hide Topology.Valid, Fits, QueueOk, RefQOk, Reinsert, OpenBanks, Requesters;
  }

  // Before anything is sent only the rank's own entries change.
  predicate OwnRank(s: Driver, s1: Driver, r: nat) {
    && r < |s.refQ| == |s1.refQ| && r < |s.refi| == |s1.refi| && r < |s.nextRef| == |s1.nextRef|
    && s1.dev == s.dev && s1.rowBus == s.rowBus && s1.colBus == s.colBus
    && s1.refQ == s.refQ[r := s1.refQ[r]] && s1.refi == s.refi[r := s1.refi[r]] && s1.nextRef == s.nextRef[r := s1.nextRef[r]]
  }

  lemma OwnRankOnly(g: Config, s: Driver, s1: Driver, r: nat)
    requires OwnRank(s, s1, r)
    ensures forall q :: GoesNow(g, s1, r, q) <==> GoesNow(g, s, r, q)
    ensures TurnDone(g, s, s1, r, false)
  {
    hide AllCanSend;
  }

  lemma TurnOn(g: Config, s: Driver, s1: Driver, s': Driver, r: nat, goes: bool)
    requires OwnRank(s, s1, r) && |s'.refQ| == |s.refQ| && |s'.refi| == |s.refi| && |s'.nextRef| == |s.nextRef| && |s'.dev.banks| == |s.dev.banks|
    requires TurnDone(g, s1, s', r, goes)
    ensures TurnDone(g, s, s', r, goes)
  {}

  // Ranks whose turn is over keep their queue, and what follows is of the ranks to come.
  lemma {:induction false} TurnsOver(g: Config, s: Driver, i: nat)
    requires Shaped(g, s) && i <= g.t.Ranks()
    ensures var s' := RefreshFrom(g, s, i);
            && s.dev.trace <= s'.dev.trace
            && (forall x :: 0 <= x < i ==> s'.refQ[x] == s.refQ[x])
            && (forall j :: |s.dev.trace| <= j < |s'.dev.trace| ==> g.t.RankOf(s'.dev.trace[j].cmd.bank) >= i)
    decreases g.t.Ranks() - i
  {
    hide Topology.Valid, Fits, QueueOk, RefQOk, RefreshRank, DueQueue, GoesNow, RowFree;
    if i < g.t.Ranks() {
      RankTurn(g, s, i);
      TurnsOver(g, RefreshRank(g, s, i), i + 1);
      var s1, s' := RefreshRank(g, s, i), RefreshFrom(g, s, i);
      forall j | |s.dev.trace| <= j < |s'.dev.trace| ensures g.t.RankOf(s'.dev.trace[j].cmd.bank) >= i {
        if j < |s1.dev.trace| { assert s'.dev.trace[j] == s1.dev.trace[j]; }
      }
    }
  }

  // A refresh command of an earlier rank has gone over the bus since event `from`.
  ghost predicate EarlierRefresh(g: Config, q: seq<Event>, from: nat, r: nat) {
    exists j :: from <= j < |q| && g.t.RankOf(q[j].cmd.bank) < r && g.t.RefBus(g.t.RankOf(q[j].cmd.bank)) == g.t.RefBus(r)
  }

  lemma OpenSame(banks: seq<Bank>, banks': seq<Bank>, ids: seq<nat>)
    requires (forall i :: 0 <= i < |ids| ==> ids[i] < |banks|) && |banks'| == |banks|
    requires forall i :: 0 <= i < |ids| ==> banks'[ids[i]] == banks[ids[i]]
    ensures OpenBanks(banks', ids) == OpenBanks(banks, ids)
    decreases |ids|
  {
    if ids != [] {
      assert banks'[ids[0]] == banks[ids[0]];
      forall i | 0 <= i < |ids[1..]| ensures banks'[ids[1..][i]] == banks[ids[1..][i]] { assert ids[1..][i] == ids[i + 1]; }
      OpenSame(banks, banks', ids[1..]);
    }
  }

  // Another rank's turn changes neither what is due nor whether its banks are ready.
  lemma SameDue(g: Config, s: Driver, s': Driver, i: nat, r: nat, goes: bool)
    requires Shaped(g, s) && Shaped(g, s') && i < g.t.Ranks() && r < g.t.Ranks() && i != r && TurnDone(g, s, s', i, goes)
    ensures DueQueue(g, s', r) == DueQueue(g, s, r)
    ensures var q := DueQueue(g, s, r); q != [] ==> (AllCanSend(s'.dev, q[0].kind, q[0].banks) <==> AllCanSend(s.dev, q[0].kind, q[0].banks))
  {
    hide Topology.Valid, QueueOk, Reinsert, OpenBanks, Allowed, RowFree;
    var ids := Requesters(g, s, r);
    assert RefOk(g.t, r, RefCmd(REF, ids)) && Requesters(g, s', r) == ids;
    RequestersExist(g, s, r);
    OpenSame(s.dev.banks, s'.dev.banks, ids);
    DueIsRows(g, s, r);
    var q := DueQueue(g, s, r);
    if q != [] {
      assert RefOk(g.t, r, q[0]);
      SameReady(g, s, s', r, q[0]);
    }
  }

  lemma SameReady(g: Config, s: Driver, s': Driver, r: nat, rc: RefCmd)
    requires RefOk(g.t, r, rc) && |s'.dev.banks| == |s.dev.banks| == g.t.Banks() && s'.dev.now == s.dev.now
    requires forall b :: 0 <= b < |s.dev.banks| && g.t.RankOf(b) == r ==> s'.dev.banks[b] == s.dev.banks[b]
    ensures AllCanSend(s'.dev, rc.kind, rc.banks) <==> AllCanSend(s.dev, rc.kind, rc.banks)
  {
    hide Allowed;
    forall i | 0 <= i < |rc.banks| ensures CanSend(s'.dev, Cmd(0, rc.kind, 0, rc.banks[i], 0)) <==> CanSend(s.dev, Cmd(0, rc.kind, 0, rc.banks[i], 0)) {
      assert rc.banks[i] < g.t.Banks() && g.t.RankOf(rc.banks[i]) == r;
    }
  }

  lemma {:induction false} RefreshTurns(g: Config, s: Driver, i: nat, r: nat)
    requires Shaped(g, s) && i <= r < g.t.Ranks()
    ensures var s', q := RefreshFrom(g, s, i), DueQueue(g, s, r);
            s'.refQ[r] == if GoesNow(g, s, r, q) && !EarlierRefresh(g, s'.dev.trace, |s.dev.trace|, r) then q[1..] else q
    decreases r - i
  {
    hide Topology.Valid, Fits, QueueOk, RefQOk, RefreshRank, DueQueue, AllCanSend, RowFree;
    var s1, s' := RefreshRank(g, s, i), RefreshFrom(g, s, i);
    RankTurn(g, s, i);
    var goes := GoesNow(g, s, i, DueQueue(g, s, i));
    TurnsOver(g, s1, i + 1);
    forall j | |s.dev.trace| <= j < |s1.dev.trace| ensures s'.dev.trace[j] == s1.dev.trace[j] {}
    if i < r {
      SameDue(g, s, s1, i, r, goes);
      RefreshTurns(g, s1, i + 1, r);
      EarlierSplit(g, s, s1, s', i, r, goes);
    }
  }

  lemma EarlierSplit(g: Config, s: Driver, s1: Driver, s': Driver, i: nat, r: nat, goes: bool)
    requires |s.dev.trace| <= |s1.dev.trace| && s1.dev.trace <= s'.dev.trace && i < r
    requires forall j :: |s.dev.trace| <= j < |s1.dev.trace| ==> g.t.RankOf(s1.dev.trace[j].cmd.bank) == i
    requires goes <==> |s.dev.trace| < |s1.dev.trace|
    ensures EarlierRefresh(g, s'.dev.trace, |s.dev.trace|, r) <==>
            (goes && g.t.RefBus(i) == g.t.RefBus(r)) || EarlierRefresh(g, s'.dev.trace, |s1.dev.trace|, r)
  {
    if goes && g.t.RefBus(i) == g.t.RefBus(r) { assert s'.dev.trace[|s.dev.trace|] == s1.dev.trace[|s.dev.trace|]; }
  }

  // Main result: in every clock of every run with refresh on, a rank's refresh command goes
  // out if and only if all its banks accept it in this cycle, and its bus is taken neither
  // by a two-cycle ACT just pushed nor by the refresh of an earlier rank.
  lemma RefreshGoesExactly(g: Config, clocks: seq<seq<Call>>, r: nat)
    requires g.t.Valid() && g.p.nFAW > 0 && |clocks| > 0 && g.useRefresh && r < g.t.Ranks()
    ensures var s, s' := Offered(g, clocks), ScanStart(g, Offered(g, clocks));
            var q := DueQueue(g, Released(g, s), r);
            var pushed := LastRowPush(g, Update(g, DriverRun(g, clocks[..|clocks| - 1])), clocks[|clocks| - 1], g.t.RefBus(r));
            && DriverRun(g, clocks).refQ[r] == s'.refQ[r]
            && s'.refQ[r] == if q != [] && AllCanSend(s.dev, q[0].kind, q[0].banks) && !(pushed.Some? && TwoCycles(g, pushed.value))
                                && !EarlierRefresh(g, s'.dev.trace, |s.dev.trace|, r) then q[1..] else q
  {
    hide Topology.Valid, Fits, QueueOk, RefQOk, DriverRun, Offered, LastRowPush, Update, RefreshFrom, AllCanSend, EarlierRefresh, DueQueue, DramDriver.Run;
    var s1 := Offered(g, clocks);
    RefBusIn(g.t, r);
    OfferedRefreshes(g, clocks);
    FreeWhenRun(g, clocks, g.t.RefBus(r), REF);
    RefreshTurns(g, Released(g, s1), 0, r);
    RunIsScan(g, s1);
    ScanKeepsRefreshes(g, ScanStart(g, s1), 0, ActCounts(ScanStart(g, s1)));
  }
}
