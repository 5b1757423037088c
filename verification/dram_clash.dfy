// The driver's two assertions, told by the trace: they have failed exactly if the trace has
// two ACTs of one rank in one cycle, or a column command too close behind the last one.
module DramClash {
  import opened Common
  import opened DramTypes
  import opened DramBank
  import opened DramDevice
  import opened DramDriver
  import opened DramSafety
  import opened DramRefreshRun

  // ---------------------------------------------------------------- said of the trace

  ghost predicate ActsMeet(t: Topology, a: Event, b: Event) {
    a.cmd.kind.ACT? && b.cmd.kind.ACT? && t.RankOf(a.cmd.bank) == t.RankOf(b.cmd.bank) && a.cycle == b.cycle
  }

  ghost predicate ActTwice(t: Topology, q: seq<Event>) {
    exists i, j :: 0 <= i < j < |q| && ActsMeet(t, q[i], q[j])
  }

  // The last column command; before the first one a read on channel 0 in cycle 0 stands for it.
  function LastColumn(t: Topology, q: seq<Event>): DataCmd {
    if q == [] then DataCmd(0, READ, 0)
    else
      var e := q[|q| - 1];
      if e.cmd.kind.IsCol() then DataCmd(e.cycle, e.cmd.kind, t.ChanOf(e.cmd.bank)) else LastColumn(t, q[..|q| - 1])
  }

  // The command is like the last one on its channel, and within the burst time of it.
  predicate TooClose(g: Config, last: DataCmd, e: Event) {
    e.cmd.kind.IsCol() && last.kind == e.cmd.kind && last.chan == g.t.ChanOf(e.cmd.bank) && e.cycle - last.cycle < BusGap(g.p)
  }

  ghost predicate ColumnsMeet(g: Config, q: seq<Event>) {
    exists j :: 0 <= j < |q| && TooClose(g, LastColumn(g.t, q[..j]), q[j])
  }

  // An ACT of the rank in the cycle.
  ghost predicate ActIn(t: Topology, q: seq<Event>, r: nat, cycle: nat) {
    exists i :: 0 <= i < |q| && q[i].cmd.kind.ACT? && t.RankOf(q[i].cmd.bank) == r && q[i].cycle == cycle
  }

  ghost predicate NotLater(q: seq<Event>, now: nat) { forall i :: 0 <= i < |q| ==> q[i].cycle <= now }

  // ---------------------------------------------------------------- one more event

  lemma ActTwiceMore(t: Topology, q: seq<Event>, e: Event)
    ensures ActTwice(t, q + [e]) <==> ActTwice(t, q) || (e.cmd.kind.ACT? && ActIn(t, q, t.RankOf(e.cmd.bank), e.cycle))
  {
    var q' := q + [e];
    assert q'[|q|] == e;
    if i, j :| 0 <= i < j < |q| && ActsMeet(t, q[i], q[j]) { assert ActsMeet(t, q'[i], q'[j]); }
    if i :| 0 <= i < |q| && q[i].cmd.kind.ACT? && t.RankOf(q[i].cmd.bank) == t.RankOf(e.cmd.bank) && q[i].cycle == e.cycle && e.cmd.kind.ACT? {
      assert ActsMeet(t, q'[i], q'[|q|]);
    }
    if i, j :| 0 <= i < j < |q'| && ActsMeet(t, q'[i], q'[j]) {
      assert q'[i] == q[i];
      if j < |q| { assert ActsMeet(t, q[i], q[j]); }
    }
  }

  lemma ColumnsMore(g: Config, q: seq<Event>, e: Event)
    ensures LastColumn(g.t, q + [e]) == if e.cmd.kind.IsCol() then DataCmd(e.cycle, e.cmd.kind, g.t.ChanOf(e.cmd.bank)) else LastColumn(g.t, q)
    ensures ColumnsMeet(g, q + [e]) <==> ColumnsMeet(g, q) || TooClose(g, LastColumn(g.t, q), e)
  {
    var q' := q + [e];
    assert q'[..|q'| - 1] == q && q'[..|q|] == q && q'[|q|] == e;
    forall j | 0 <= j < |q| ensures q'[..j] == q[..j] && q'[j] == q[j] {}
    if j :| 0 <= j < |q| && TooClose(g, LastColumn(g.t, q[..j]), q[j]) { assert TooClose(g, LastColumn(g.t, q'[..j]), q'[j]); }
    if TooClose(g, LastColumn(g.t, q), e) { assert TooClose(g, LastColumn(g.t, q'[..|q|]), q'[|q|]); }
  }

  lemma ActInMore(t: Topology, q: seq<Event>, e: Event, r: nat, cycle: nat)
    ensures ActIn(t, q + [e], r, cycle) <==> ActIn(t, q, r, cycle) || (e.cmd.kind.ACT? && t.RankOf(e.cmd.bank) == r && e.cycle == cycle)
  {
    var q' := q + [e];
    assert q'[|q|] == e;
    if i :| 0 <= i < |q| && q[i].cmd.kind.ACT? && t.RankOf(q[i].cmd.bank) == r && q[i].cycle == cycle { assert q'[i] == q[i]; }
  }

  // ---------------------------------------------------------------- the driver's bookkeeping

  ghost predicate FlagsOk(g: Config, s: Driver) {
    && NotLater(s.dev.trace, s.dev.now)
    && s.data == LastColumn(g.t, s.dev.trace)
    && (s.dataClash <==> ColumnsMeet(g, s.dev.trace))
    && (s.actClash <==> ActTwice(g.t, s.dev.trace))
    && (forall r :: 0 <= r < |s.actIssued| ==> (s.actIssued[r] <==> ActIn(g.t, s.dev.trace, r, s.dev.now)))
  }

  // Only these parts matter.
  lemma SameFlags(g: Config, s: Driver, s': Driver)
    requires FlagsOk(g, s) && s'.dev.trace == s.dev.trace && s'.dev.now == s.dev.now && s'.data == s.data
    requires s'.dataClash == s.dataClash && s'.actClash == s.actClash && s'.actIssued == s.actIssued
    ensures FlagsOk(g, s')
  {}

  lemma PlainEvent(g: Config, q: seq<Event>, e: Event, now: nat)
    requires !e.cmd.kind.IsCol() && !e.cmd.kind.ACT? && NotLater(q, now) && e.cycle == now
    ensures NotLater(q + [e], now) && LastColumn(g.t, q + [e]) == LastColumn(g.t, q)
    ensures (ColumnsMeet(g, q + [e]) <==> ColumnsMeet(g, q)) && (ActTwice(g.t, q + [e]) <==> ActTwice(g.t, q))
    ensures forall r :: ActIn(g.t, q + [e], r, now) <==> ActIn(g.t, q, r, now)
  {
    hide ActTwice, ColumnsMeet, ActIn;
    ColumnsMore(g, q, e);
    ActTwiceMore(g.t, q, e);
    forall r: nat ensures ActIn(g.t, q + [e], r, now) <==> ActIn(g.t, q, r, now) { ActInMore(g.t, q, e, r, now); }
  }

  lemma {:induction false} FlagsSendEach(g: Config, s: Driver, d: Device, k: Kind, ids: seq<nat>)
    requires Fits(g.t, d) && (k.PRE? || k.REF?) && FlagsOk(g, s.(dev := d))
    ensures FlagsOk(g, s.(dev := SendEach(g, d, k, ids)))
    decreases |ids|
  {
    hide Handle, Push, Allowed, LastColumn, ColumnsMeet, ActTwice, ActIn, NotLater;
    if ids != [] {
      var c := Cmd(0, k, 0, ids[0], 0);
      if CanSend(d, c) {
        var b := d.banks[c.bank];
        PlainEvent(g, d.trace, Event(d.now, c, b.rowOpen, b.openRow), d.now);
        FlagsSendEach(g, s, DevSend(g.p, g.t, d, c), k, ids[1..]);
      } else {
        FlagsSendEach(g, s, d, k, ids[1..]);
      }
    }
  }

  lemma FlagsSendRefresh(g: Config, s: Driver, r: nat)
    requires Shaped(g, s) && r < g.t.Ranks() && s.refQ[r] != [] && FlagsOk(g, s)
    ensures FlagsOk(g, SendRefresh(g, s, r))
  {
    hide Topology.Valid, QueueOk, AllCanSend, SendEach, BusFree, FlagsOk;
    var rc := s.refQ[r][0];
    assert RefOk(g.t, r, rc);
    assert s.(dev := s.dev) == s;
    FlagsSendEach(g, s, s.dev, rc.kind, rc.banks);
    if SendRefresh(g, s, r) != s { SameFlags(g, s.(dev := SendEach(g, s.dev, rc.kind, rc.banks)), SendRefresh(g, s, r)); }
  }

  lemma FlagsRank(g: Config, s: Driver, r: nat)
    requires Shaped(g, s) && r < g.t.Ranks() && FlagsOk(g, s)
    ensures FlagsOk(g, RefreshRank(g, s, r))
  {
    hide Topology.Valid, Fits, QueueOk, RefQOk, SendRefresh, Reinsert, OpenBanks, FlagsOk;
    var s1 := if s.refi[r] > 0 then s.(refi := s.refi[r := s.refi[r] - 1])
              else CreateRefresh(g, s, r).(refi := s.refi[r := g.p.nREFI]);
    SameFlags(g, s, s1);
    if s1.refQ[r] != [] { FlagsSendRefresh(g, s1, r); }
  }

  lemma {:induction false} FlagsRefresh(g: Config, s: Driver, r: nat)
    requires Shaped(g, s) && r <= g.t.Ranks() && FlagsOk(g, s)
    ensures FlagsOk(g, RefreshFrom(g, s, r))
    decreases g.t.Ranks() - r
  {
    hide Topology.Valid, Fits, QueueOk, RefQOk, RefreshRank, FlagsOk;
    if r < g.t.Ranks() {
      FlagsRank(g, s, r);
      FlagsRefresh(g, RefreshRank(g, s, r), r + 1);
    }
  }

  // What sending an entry does to trace and bookkeeping.
  lemma IssueNotes(g: Config, s: Driver, i: nat)
    requires Shaped(g, s) && i < |s.inputQ| && CanSend(s.dev, s.inputQ[i])
    ensures var s', c := Issue(g, s, i), s.inputQ[i];
            var b := s.dev.banks[c.bank];
            && s'.dev.trace == s.dev.trace + [Event(s.dev.now, c, b.rowOpen, b.openRow)] && s'.dev.now == s.dev.now
            && s'.data == (if c.kind.IsCol() then DataCmd(s.dev.now, c.kind, g.t.ChanOf(c.bank)) else s.data)
            && s'.dataClash == (s.dataClash || (c.kind.IsCol() && !DataBusOk(g, s, c)))
            && g.t.RankOf(c.bank) < |s.actIssued|
            && s'.actClash == (s.actClash || (c.kind.ACT? && s.actIssued[g.t.RankOf(c.bank)]))
            && s'.actIssued == (if c.kind.ACT? then s.actIssued[g.t.RankOf(c.bank) := true] else s.actIssued)
  {
    hide Topology.Valid, RefQOk, DataBusOk, Handle, Push, Allowed;
    BankPlace(g.t, s.inputQ[i].bank);
  }

  lemma FlagsIssue(g: Config, s: Driver, i: nat)
    requires Shaped(g, s) && i < |s.inputQ| && CanSend(s.dev, s.inputQ[i]) && FlagsOk(g, s)
    ensures FlagsOk(g, Issue(g, s, i))
  {
    hide Topology.Valid, Fits, QueueOk, RefQOk, Issue, Allowed, LastColumn, ColumnsMeet, ActTwice, ActIn;
    var s', c := Issue(g, s, i), s.inputQ[i];
    IssueNotes(g, s, i);
    var e := Event(s.dev.now, c, s.dev.banks[c.bank].rowOpen, s.dev.banks[c.bank].openRow);
    ColumnsMore(g, s.dev.trace, e);
    ActTwiceMore(g.t, s.dev.trace, e);
    forall r | 0 <= r < |s.actIssued| ensures s'.actIssued[r] <==> ActIn(g.t, s'.dev.trace, r, s.dev.now) {
      ActInMore(g.t, s.dev.trace, e, r, s.dev.now);
    }
  }

  lemma {:induction false} FlagsScan(g: Config, s: Driver, i: nat, counts: seq<nat>)
    requires Shaped(g, s) && i <= |s.inputQ| && |counts| == g.t.Ranks() && FlagsOk(g, s)
    ensures FlagsOk(g, ScanFrom(g, s, i, counts))
    decreases |s.inputQ| - i
  {
    hide Topology.Valid, Fits, QueueOk, RefQOk, ScanOne, FlagsOk;
    if i < |s.inputQ| {
      FlagsScanOne(g, s, i, counts);
      var o := ScanOne(g, s, i, counts);
      if !o.stop { FlagsScan(g, o.s, o.i, counts); }
    }
  }

  lemma FlagsScanOne(g: Config, s: Driver, i: nat, counts: seq<nat>)
    requires Shaped(g, s) && i < |s.inputQ| && |counts| == g.t.Ranks() && FlagsOk(g, s)
    ensures FlagsOk(g, ScanOne(g, s, i, counts).s)
  {
    hide Topology.Valid, Fits, RefQOk, Issue, AllBusy, BusFree, IsRefreshing, Precharged, Allowed, FlagsOk;
    var c := s.inputQ[i];
    SameFlags(g, s, Mark(s, c));
    if Judge(g, s, c, counts).Send? { FlagsIssue(g, Mark(s, c), i); }
    else { SameFlags(g, s, ScanOne(g, s, i, counts).s); }
  }

  lemma {:induction false} FlagsCalls(g: Config, s: Driver, calls: seq<Call>)
    requires Shaped(g, s) && FlagsOk(g, s)
    ensures FlagsOk(g, Calls(g, s, calls))
    decreases |calls|
  {
    hide Topology.Valid, Fits, QueueOk, RefQOk, BusFree, HasAct, FlagsOk;
    if calls != [] {
      var c := calls[0].cmd;
      if c.bank >= g.t.Banks() { FlagsCalls(g, s, calls[1..]); }
      else {
        var s1 := if calls[0].Ask? then CmdAllowed(g, s, c).0 else PushCmd(g, s, c).0;
        SameFlags(g, s, s1);
        FlagsCalls(g, s1, calls[1..]);
      }
    }
  }

  // A clock passes: no ACT of the new cycle yet.
  lemma FlagsUpdate(g: Config, s: Driver)
    requires Shaped(g, s) && FlagsOk(g, s)
    ensures FlagsOk(g, Update(g, s))
  {
    hide Topology.Valid, Fits, QueueOk, RefQOk, Tick, LastColumn, ColumnsMeet, ActTwice;
  }

  lemma FlagsInitial(g: Config, clocks: seq<seq<Call>>)
    requires g.t.Valid() && g.p.nFAW > 0 && |clocks| == 0
    ensures FlagsOk(g, DriverRun(g, clocks))
  {}

  lemma {:induction false} FlagsAlways(g: Config, clocks: seq<seq<Call>>)
    requires g.t.Valid() && g.p.nFAW > 0
    ensures FlagsOk(g, DriverRun(g, clocks))
  {
    hide Topology.Valid, Shaped, FlagsOk, DramDriver.Run, Update, Calls, DriverRun;
    if |clocks| == 0 {
      FlagsInitial(g, clocks);
    } else {
      var s := DriverRun(g, clocks[..|clocks| - 1]);
      FlagsAlways(g, clocks[..|clocks| - 1]);
      FlagsUpdate(g, s);
      FlagsCalls(g, Update(g, s), clocks[|clocks| - 1]);
      OfferedRefreshes(g, clocks);
      FlagsRun(g, Offered(g, clocks));
    }
  }

  lemma FlagsRun(g: Config, s: Driver)
    requires Shaped(g, s) && FlagsOk(g, s)
    ensures FlagsOk(g, DramDriver.Run(g, s))
  {
    hide Topology.Valid, Fits, QueueOk, RefQOk, RefreshFrom, ScanFrom, ActCounts, FlagsOk;
    var s1 := s.(rowBus := ReleaseBus(s.rowBus), colBus := ReleaseBus(s.colBus));
    SameFlags(g, s, s1);
    if g.useRefresh { FlagsRefresh(g, s1, 0); }
    var s2 := if g.useRefresh then RefreshFrom(g, s1, 0) else s1;
    FlagsScan(g, s2, 0, ActCounts(s2));
  }

  // Main result: in every run, with any parameters, each assertion has failed exactly if
  // the trace shows what it forbids.
  lemma AssertionsExactly(g: Config, clocks: seq<seq<Call>>)
    requires g.t.Valid() && g.p.nFAW > 0
    ensures DriverRun(g, clocks).actClash <==> ActTwice(g.t, DriverRun(g, clocks).dev.trace)
    ensures DriverRun(g, clocks).dataClash <==> ColumnsMeet(g, DriverRun(g, clocks).dev.trace)
  {
    hide DriverRun, ActTwice, ColumnsMeet;
    FlagsAlways(g, clocks);
  }
}
