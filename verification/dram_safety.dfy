// Device-level safety of the driver: timing, the four-activate window and the data bus
// hold through refresh and scan, so no assertion of the driver can fail.
module DramSafety {
  import opened Common
  import opened DramTypes
  import opened DramBank
  import opened DramDevice
  import opened DramTiming
  import opened DramDriver
  import opened DramFaw

  // What the assertion on ACTs needs of the parameters.
  predicate ActParams(p: Params) { p.nRRD_L >= 1 && p.nRRD_S >= 1 }

  // The data-bus spacing the driver asserts between like column commands of one channel.
  function BusGap(p: Params): nat { Min(p.nBL, Max(p.nCCD_L, p.nCCD_S)) }

  // The first cycle in which a column command can be accepted: the ACT comes in cycle 1 at
  // the earliest, and the bank opens its row two cycles later.
  function FirstColumn(p: Params): nat { Max(3, p.nRCD + 1) }

  // What that assertion needs: two accesses to one bank, and the first access of all,
  // must be far enough apart by themselves.
  predicate BusParams(p: Params) { BusGap(p) <= Max(1, p.nCCD_L) && BusGap(p) <= FirstColumn(p) }

  // A row is open or about to be.
  predicate Opens(b: Bank) { RowState(b.st) || RowOpening(b.st) }

  // No bank has opened a row sooner than two cycles after cycle 1.
  predicate OldEnough(b: Bank, now: nat) {
    (RowState(b.st) ==> now >= 3) && (b.st.Activating? ==> now >= 2) && (RowOpening(b.st) ==> now >= 1)
  }

  // No bank can take a column command before an ACT has had time to open a row.
  ghost predicate Warm(p: Params, d: Device) {
    && (forall i :: 0 <= i < |d.banks| ==> OldEnough(d.banks[i], d.now))
    && (NoAuto(d.trace) ==>
          forall i, k: Kind :: 0 <= i < |d.banks| && k.IsCol() && Opens(d.banks[i]) ==> p.nRCD + 1 <= Floor(p, d.banks[i], d.now, k))
  }

  ghost predicate DevSafe(g: Config, d: Device, faw: seq<seq<nat>>, issued: seq<bool>) {
    TimingInv(g.p, g.t, d) && Warm(g.p, d) && FawOk(g, d, faw, issued)
  }

  // The driver remembers a column command of the trace, or none yet.
  ghost predicate LastCol(t: Topology, d: Device, data: DataCmd) {
    || data == DataCmd(0, READ, 0)
    || exists e :: e in d.trace && e.cmd.kind.IsCol() && data == DataCmd(e.cycle, e.cmd.kind, t.ChanOf(e.cmd.bank))
  }

  ghost predicate Safe(g: Config, s: Driver) {
    && Shaped(g, s)
    && DevSafe(g, s.dev, s.faw, s.actIssued) && LastCol(g.t, s.dev, s.data)
    && !s.actClash
    && (BusParams(g.p) && NoAuto(s.dev.trace) ==> !s.dataClash)
  }

  lemma WarmInitial(p: Params, t: Topology)
    ensures Warm(p, InitialDevice(t))
  {}

  lemma SafeInitial(g: Config)
    requires g.t.Valid() && g.p.nFAW > 0
    ensures Safe(g, InitialDriver(g))
  {
    hide Warm, TimingInv, FawOk, Shaped;
    InitialShaped(g);
    WarmInitial(g.p, g.t);
    InitialTiming(g.p, g.t);
    FawInitial(g);
  }

  // Only a command opens a row.
  lemma TickOpens(p: Params, b: Bank, now: nat)
    requires OldEnough(b, now)
    ensures var b' := Tick(p, b, now + 1); OldEnough(b', now + 1) && (Opens(b') ==> Opens(b))
  {
    hide ReadExit, WriteExit, Max, Sub32, Sub64;
  }

  lemma WarmTick(p: Params, t: Topology, d: Device)
    requires TimingInv(p, t, d) && Warm(p, d)
    ensures Warm(p, DevTick(p, d))
  {
    hide Timed, Floor, Tick, Bounded, Spaced, OldEnough, Opens;
    var d' := DevTick(p, d);
    forall i | 0 <= i < |d.banks| ensures OldEnough(d'.banks[i], d'.now) && (Opens(d'.banks[i]) ==> Opens(d.banks[i])) {
      TickOpens(p, d.banks[i], d.now);
    }
    if NoAuto(d'.trace) {
      forall i, k: Kind | 0 <= i < |d.banks| && k.IsCol() && Opens(d'.banks[i]) ensures p.nRCD + 1 <= Floor(p, d'.banks[i], d'.now, k) {
        TickRaisesFloor(p, d.banks[i], d.now, k);
      }
    }
  }

  lemma SendOpens(p: Params, t: Topology, d: Device, c: Cmd, i: nat)
    requires CanSend(d, c) && |d.banks| == t.Banks() && d.now > 0 && i < |d.banks| && OldEnough(d.banks[i], d.now)
    ensures var b' := DevSend(p, t, d, c).banks[i];
            && OldEnough(b', d.now)
            && (Opens(b') ==> Opens(d.banks[i]) || (i == c.bank && c.kind.ACT? && RowOpening(b'.st) && !RowState(b'.st) && b'.last.act == d.now))
  {
    hide Max, Sub64;
  }

  // The ACT of this cycle opens the row nRCD later.
  lemma FreshFloor(p: Params, b: Bank, now: nat, k: Kind)
    requires RowOpening(b.st) && !RowState(b.st) && b.last.act == now > 0 && k.IsCol()
    ensures p.nRCD + 1 <= Floor(p, b, now, k)
  {}

  lemma WarmSend(p: Params, t: Topology, d: Device, c: Cmd)
    requires TimingInv(p, t, d) && Warm(p, d) && CanSend(d, c) && d.now > 0
    ensures Warm(p, DevSend(p, t, d, c))
  {
    hide Timed, Floor, Handle, Push, Bounded, Spaced, Earliest, OldEnough, Opens;
    var d' := DevSend(p, t, d, c);
    forall i | 0 <= i < |d.banks| ensures OldEnough(d'.banks[i], d'.now) { SendOpens(p, t, d, c, i); }
    if NoAuto(d'.trace) {
      assert d'.trace[|d.trace|] in d'.trace;
      assert forall e :: e in d.trace ==> e in d'.trace;
      forall i, k: Kind | 0 <= i < |d.banks| && k.IsCol() && Opens(d'.banks[i]) ensures p.nRCD + 1 <= Floor(p, d'.banks[i], d'.now, k) {
        SendOpens(p, t, d, c, i);
        if Opens(d.banks[i]) { SendRaisesFloor(p, t, d, c, i, k); } else { FreshFloor(p, d'.banks[i], d'.now, k); }
      }
    }
  }

  lemma SafeUpdate(g: Config, s: Driver)
    requires Safe(g, s)
    ensures Safe(g, Update(g, s)) && Update(g, s).dev.now > 0
  {
    hide Warm, TimingInv, FawOk, Shaped, Tick;
    TickTiming(g.p, g.t, s.dev);
    WarmTick(g.p, g.t, s.dev);
    FawUpdate(g, s);
  }

  lemma SafeSendOther(g: Config, d: Device, faw: seq<seq<nat>>, issued: seq<bool>, c: Cmd)
    requires Fits(g.t, d) && DevSafe(g, d, faw, issued) && CanSend(d, c) && !c.kind.ACT? && d.now > 0
    ensures DevSafe(g, DevSend(g.p, g.t, d, c), faw, issued)
  {
    hide Warm, TimingInv, FawOk;
    SendTiming(g.p, g.t, d, c);
    WarmSend(g.p, g.t, d, c);
    FawSendOther(g, d, c, faw, issued);
  }

  lemma SafeSendAct(g: Config, d: Device, faw: seq<seq<nat>>, issued: seq<bool>, c: Cmd)
    requires g.t.Valid() && Fits(g.t, d) && DevSafe(g, d, faw, issued) && CanSend(d, c) && c.kind.ACT? && d.now > 0
    requires ActParams(g.p) && g.t.RankOf(c.bank) < g.t.Ranks()
    requires |faw| == |issued| == g.t.Ranks() && Sum(faw[g.t.RankOf(c.bank)]) < 4
    ensures !issued[g.t.RankOf(c.bank)]
    ensures DevSafe(g, DevSend(g.p, g.t, d, c), faw, issued[g.t.RankOf(c.bank) := true])
  {
    hide Warm, TimingInv, FawOk, Topology.Valid;
    SendTiming(g.p, g.t, d, c);
    WarmSend(g.p, g.t, d, c);
    FawSendAct(g, d, c, faw, issued);
  }

  // A like column command on the channel of the last one comes late enough.
  lemma DataBusRespected(g: Config, s: Driver, c: Cmd)
    requires Shaped(g, s) && TimingInv(g.p, g.t, s.dev) && Warm(g.p, s.dev) && LastCol(g.t, s.dev, s.data)
    requires CanSend(s.dev, c) && c.kind.IsCol() && !c.kind.IsAuto() && NoAuto(s.dev.trace) && BusParams(g.p)
    ensures DataBusOk(g, s, c)
  {
    hide Floor, Timed, Spaced, Shaped, Topology.Valid, Earliest;
    var d := s.dev;
    FloorOfAccepted(g.p, d.banks[c.bank], d.now, c.kind);
    if s.data.kind == c.kind && s.data.chan == g.t.ChanOf(c.bank) && s.data != DataCmd(0, READ, 0) {
      var e :| e in d.trace && e.cmd.kind.IsCol() && s.data == DataCmd(e.cycle, e.cmd.kind, g.t.ChanOf(e.cmd.bank));
      assert Bounded(g.p, g.t, d, e);
      LikeColumnGap(g, e.cmd.bank, c.bank, c.kind, e.cycle);
    }
  }

  lemma LikeColumnGap(g: Config, a: nat, b: nat, k: Kind, t: nat)
    requires a < g.t.Banks() && b < g.t.Banks() && g.t.ChanOf(a) == g.t.ChanOf(b)
    requires (k.READ? || k.WRITE?) && BusParams(g.p)
    ensures t + BusGap(g.p) <= Earliest(g.p, g.t.Relate(a, b), k, k, t)
  {}

  lemma {:induction false} SafeSendEach(g: Config, d: Device, faw: seq<seq<nat>>, issued: seq<bool>, k: Kind, ids: seq<nat>)
    requires Fits(g.t, d) && DevSafe(g, d, faw, issued) && (k.PRE? || k.REF?) && d.now > 0
    ensures var d' := SendEach(g, d, k, ids);
            DevSafe(g, d', faw, issued) && d'.now == d.now && d.trace <= d'.trace && (NoAuto(d'.trace) ==> NoAuto(d.trace))
    decreases |ids|
  {
    hide DevSafe, Handle, Push, Allowed;
    if ids != [] {
      var c := Cmd(0, k, 0, ids[0], 0);
      if CanSend(d, c) {
        SafeSendOther(g, d, faw, issued, c);
        SafeSendEach(g, DevSend(g.p, g.t, d, c), faw, issued, k, ids[1..]);
      } else {
        SafeSendEach(g, d, faw, issued, k, ids[1..]);
      }
    }
  }

  // Sending refresh commands leaves the column and ACT bookkeeping alone.
  lemma SafeSendRefresh(g: Config, s: Driver, r: nat)
    requires Safe(g, s) && r < g.t.Ranks() && s.refQ[r] != [] && s.dev.now > 0
    ensures Safe(g, SendRefresh(g, s, r)) && SendRefresh(g, s, r).dev.now == s.dev.now
  {
    hide DevSafe, SendEach, AllCanSend, BusFree, NoAuto, Topology.Valid;
    var rc := s.refQ[r][0];
    assert RefOk(g.t, r, rc);
    SafeSendEach(g, s.dev, s.faw, s.actIssued, rc.kind, rc.banks);
    LastColGrows(g.t, s.dev, SendEach(g, s.dev, rc.kind, rc.banks), s.data);
  }

  lemma LastColGrows(t: Topology, d: Device, d': Device, data: DataCmd)
    requires LastCol(t, d, data) && d.trace <= d'.trace
    ensures LastCol(t, d', data)
  {
    assert forall e :: e in d.trace ==> e in d'.trace;
  }

  lemma {:induction false} SafeRefreshFrom(g: Config, s: Driver, r: nat)
    requires Safe(g, s) && r <= g.t.Ranks() && s.dev.now > 0
    ensures Safe(g, RefreshFrom(g, s, r)) && RefreshFrom(g, s, r).dev.now == s.dev.now
    decreases g.t.Ranks() - r
  {
    hide DevSafe, LastCol, SendRefresh, NoAuto, CreateRefresh, Topology.Valid, Fits;
    if r < g.t.Ranks() {
      var s1 := if s.refi[r] > 0 then s.(refi := s.refi[r := s.refi[r] - 1])
                else CreateRefresh(g, s, r).(refi := s.refi[r := g.p.nREFI]);
      SafeCreate(g, s, r);
      if s1.refQ[r] != [] { SafeSendRefresh(g, s1, r); }
      SafeRefreshFrom(g, RefreshRank(g, s, r), r + 1);
    }
  }

  lemma SafeCreate(g: Config, s: Driver, r: nat)
    requires Safe(g, s) && r < g.t.Ranks()
    ensures Safe(g, CreateRefresh(g, s, r))
    ensures CreateRefresh(g, s, r).dev == s.dev
  {
    hide DevSafe, LastCol, NoAuto, Topology.Valid, Fits;
  }

  // ---------------------------------------------------------------- the scan

  lemma SafeIssue(g: Config, s: Driver, i: nat)
    requires Safe(g, s) && ActParams(g.p) && i < |s.inputQ| && CanSend(s.dev, s.inputQ[i]) && s.dev.now > 0
    requires s.inputQ[i].kind.ACT? ==> g.t.RankOf(s.inputQ[i].bank) < |s.faw| && Sum(s.faw[g.t.RankOf(s.inputQ[i].bank)]) < 4
    ensures Safe(g, Issue(g, s, i)) && Issue(g, s, i).dev.now == s.dev.now
  {
    hide Warm, TimingInv, FawOk, BusParams, DataBusOk, Allowed, Handle, Push, Topology.Valid;
    var c := s.inputQ[i];
    var s' := Issue(g, s, i);
    BankPlace(g.t, c.bank);
    LastColGrows(g.t, s.dev, s'.dev, s.data);
    var e := s'.dev.trace[|s.dev.trace|];
    assert e in s'.dev.trace;
    assert forall x :: x in s.dev.trace ==> x in s'.dev.trace;
    if c.kind.ACT? {
      SafeSendAct(g, s.dev, s.faw, s.actIssued, c);
    } else {
      SafeSendOther(g, s.dev, s.faw, s.actIssued, c);
      if c.kind.IsCol() && NoAuto(s'.dev.trace) && BusParams(g.p) { DataBusRespected(g, s, c); }
    }
  }

  lemma {:induction false} SafeScanFrom(g: Config, s: Driver, i: nat, counts: seq<nat>)
    requires Safe(g, s) && ActParams(g.p) && s.dev.now > 0 && i <= |s.inputQ| && |counts| == g.t.Ranks() && counts == ActCounts(s)
    ensures Safe(g, ScanFrom(g, s, i, counts))
    decreases |s.inputQ| - i
  {
    hide DevSafe, LastCol, NoAuto, Topology.Valid, Fits, ScanOne, BusParams;
    if i < |s.inputQ| {
      SafeScanOne(g, s, i, counts);
      var r := ScanOne(g, s, i, counts);
      if !r.stop { SafeScanFrom(g, r.s, r.i, counts); }
    }
  }

  lemma SafeScanOne(g: Config, s: Driver, i: nat, counts: seq<nat>)
    requires Safe(g, s) && ActParams(g.p) && s.dev.now > 0 && i < |s.inputQ| && |counts| == g.t.Ranks() && counts == ActCounts(s)
    ensures var s' := ScanOne(g, s, i, counts).s; Safe(g, s') && s'.faw == s.faw && s'.dev.now == s.dev.now
  {
    hide DevSafe, LastCol, NoAuto, Topology.Valid, Fits, Allowed, BusFree, Precharged, BusParams, ActParams;
    var c := s.inputQ[i];
    BankPlace(g.t, c.bank);
    if Judge(g, s, c, counts).Send? { SafeIssue(g, Mark(s, c), i); }
  }

  lemma SafeRun(g: Config, s: Driver)
    requires Safe(g, s) && ActParams(g.p) && s.dev.now > 0
    ensures Safe(g, Run(g, s))
  {
    hide DevSafe, LastCol, NoAuto, RefreshFrom, ScanFrom, Topology.Valid, BusParams, ActParams, Fits;
    var s1 := s.(rowBus := ReleaseBus(s.rowBus), colBus := ReleaseBus(s.colBus));
    assert Safe(g, s1);
    SafeRefreshFrom(g, s1, 0);
    var s2 := if g.useRefresh then RefreshFrom(g, s1, 0) else s1;
    SafeScanFrom(g, s2, 0, ActCounts(s2));
  }

  // The scheduler's calls leave the device alone.
  lemma SafeCalls(g: Config, s: Driver, c: Cmd)
    requires Safe(g, s) && c.bank < g.t.Banks()
    ensures Safe(g, CmdAllowed(g, s, c).0) && Safe(g, PushCmd(g, s, c).0)
    ensures CmdAllowed(g, s, c).0.dev == s.dev == PushCmd(g, s, c).0.dev
  {
    hide DevSafe, LastCol, NoAuto, Topology.Valid, BusFree, Allowed, BusParams;
  }

  // ---------------------------------------------------------------- every run of the driver

  // What the stages before the driver may do within a clock.
  datatype Call = Ask(cmd: Cmd) | Enqueue(cmd: Cmd)

  function Calls(g: Config, s: Driver, calls: seq<Call>): (s': Driver)
    requires Shaped(g, s)
    ensures Shaped(g, s')
    decreases |calls|
  {
    if calls == [] then s
    else
      var c := calls[0].cmd;
      if c.bank >= g.t.Banks() then Calls(g, s, calls[1..])
      else if calls[0].Ask? then Calls(g, CmdAllowed(g, s, c).0, calls[1..])
      else Calls(g, PushCmd(g, s, c).0, calls[1..])
  }

  // Whole runs: per clock an update, any calls, and the driver's own run.
  function DriverRun(g: Config, clocks: seq<seq<Call>>): (s: Driver)
    requires g.t.Valid() && g.p.nFAW > 0
    ensures Shaped(g, s)
  {
    InitialShaped(g);
    if |clocks| == 0 then InitialDriver(g)
    else Run(g, Calls(g, Update(g, DriverRun(g, clocks[..|clocks| - 1])), clocks[|clocks| - 1]))
  }

  lemma {:induction false} SafeAllCalls(g: Config, s: Driver, calls: seq<Call>)
    requires Safe(g, s)
    ensures Safe(g, Calls(g, s, calls)) && Calls(g, s, calls).dev == s.dev
    decreases |calls|
  {
    hide DevSafe, LastCol, NoAuto, Topology.Valid, CmdAllowed, PushCmd, BusParams;
    if calls != [] {
      var c := calls[0].cmd;
      if c.bank >= g.t.Banks() { SafeAllCalls(g, s, calls[1..]); }
      else {
        SafeCalls(g, s, c);
        SafeAllCalls(g, if calls[0].Ask? then CmdAllowed(g, s, c).0 else PushCmd(g, s, c).0, calls[1..]);
      }
    }
  }

  // Main result: for every command stream and refresh setting, every rank keeps its
  // four-activate windows with one ACT per cycle, the assertion on ACTs never fails, and
  // without auto-precharge all commands are spaced and the data-bus assertion holds.
  lemma {:induction false} EveryDriverRunIsSafe(g: Config, clocks: seq<seq<Call>>)
    requires g.t.Valid() && g.p.nFAW > 0 && ActParams(g.p)
    ensures var s := DriverRun(g, clocks);
            && Safe(g, s) && !s.actClash
            && (forall r :: 0 <= r < g.t.Ranks() ==> Windows(g, s.dev, r) && OnePerCycle(g, s.dev, r))
            && (NoAuto(s.dev.trace) ==> Spaced(g.p, g.t, s.dev.trace))
            && (NoAuto(s.dev.trace) && BusParams(g.p) ==> !s.dataClash)
  {
    hide Shaped, NoAuto, Spaced, Bounded, Timed, Warm, LastCol, Topology.Valid, Calls, Update, Run, Windows, OnePerCycle, BusParams, Fits;
    if |clocks| == 0 {
      SafeInitial(g);
    } else {
      var s := DriverRun(g, clocks[..|clocks| - 1]);
      EveryDriverRunIsSafe(g, clocks[..|clocks| - 1]);
      SafeUpdate(g, s);
      SafeAllCalls(g, Update(g, s), clocks[|clocks| - 1]);
      SafeRun(g, Calls(g, Update(g, s), clocks[|clocks| - 1]));
    }
    var s := DriverRun(g, clocks);
    forall r | 0 <= r < g.t.Ranks() ensures Windows(g, s.dev, r) && OnePerCycle(g, s.dev, r) {
      assert RankFaw(g, s.dev, r, s.faw[r], s.actIssued[r]);
    }
  }
}
