// The driver performs column commands exactly once and in order: per bank, the column
// commands of the trace followed by those still queued never change, except by a push.
module DramFlow {
  import opened Common
  import opened DramTypes
  import opened DramBank
  import opened DramDevice
  import opened DramDriver
  import opened DramRows
  import opened DramRowRun
  import opened DramRowScan

  // The column commands of a queue.
  function Cols(q: seq<Cmd>): seq<Cmd> {
    if q == [] then [] else (if q[0].kind.IsCol() then [q[0]] else []) + Cols(q[1..])
  }

  // The column commands a bank has accepted.
  function Performed(trace: seq<Event>, b: nat): seq<Cmd> {
    if trace == [] then []
    else
      var c := trace[|trace| - 1].cmd;
      Performed(trace[..|trace| - 1], b) + (if c.bank == b && c.kind.IsCol() then [c] else [])
  }

  function Flow(s: Driver, b: nat): seq<Cmd> {
    Performed(s.dev.trace, b) + Cols(OnBank(s.inputQ, b))
  }

  ghost predicate SameFlow(s: Driver, s': Driver) {
    forall b: nat :: Flow(s', b) == Flow(s, b)
  }

  lemma {:induction false} ColsAppend(q: seq<Cmd>, r: seq<Cmd>)
    ensures Cols(q + r) == Cols(q) + Cols(r)
  {
    if q == [] {
      assert q + r == r;
    } else {
      assert (q + r)[1..] == q[1..] + r;
      ColsAppend(q[1..], r);
      var first := if q[0].kind.IsCol() then [q[0]] else [];
      assert Cols(q + r) == first + (Cols(q[1..]) + Cols(r));
    }
  }

  lemma PerformedAppend(trace: seq<Event>, e: Event, b: nat)
    ensures Performed(trace + [e], b) ==
              Performed(trace, b) + (if e.cmd.bank == b && e.cmd.kind.IsCol() then [e.cmd] else [])
  {
    assert (trace + [e])[..|trace + [e]| - 1] == trace;
  }

  // A queue that only gains row commands keeps its column commands.
  lemma ColsWithRow(q: seq<Cmd>, a: Cmd, front: bool)
    requires !a.kind.IsCol()
    ensures Cols(if front then [a] + q else q + [a]) == Cols(q)
  {
    ColsAppend([a], q);
    ColsAppend(q, [a]);
  }

  lemma QueueCols(q: seq<Cmd>, c: Cmd, b: nat)
    ensures Cols(OnBank(q + [c], b)) == Cols(OnBank(q, b)) + (if b == c.bank && c.kind.IsCol() then [c] else [])
  {
    hide OnBank;
    OnBankAppend(q, [c], b);
    OnBankOne(c, b);
    assert OnBank(q, b) + [] == OnBank(q, b);
    ColsAppend(OnBank(q, b), [c]);
  }

  lemma AskFlow(g: Config, s: Driver, c: Cmd)
    requires Shaped(g, s) && c.bank < g.t.Banks()
    ensures SameFlow(s, CmdAllowed(g, s, c).0)
  {
    hide OnBank, Cols, Performed, Topology.Valid, Fits, Allowed, BusFree, Precharged, HasAct, QueueOk, RefQOk;
    forall b: nat ensures Cols(OnBank(s.inputQ + [Reactivation(c)], b)) == Cols(OnBank(s.inputQ, b)) {
      QueueCols(s.inputQ, Reactivation(c), b);
    }
  }

  lemma PushFlow(g: Config, s: Driver, c: Cmd)
    requires Shaped(g, s) && c.bank < g.t.Banks()
    ensures var (s', ok) := PushCmd(g, s, c);
            forall b: nat :: Flow(s', b) == Flow(s, b) + (if ok && b == c.bank && c.kind.IsCol() then [c] else [])
  {
    hide OnBank, Cols, Performed, Topology.Valid, Fits, QueueOk, RefQOk;
    forall b: nat
      ensures Cols(OnBank(s.inputQ + [c], b)) == Cols(OnBank(s.inputQ, b)) + (if b == c.bank && c.kind.IsCol() then [c] else [])
    {
      QueueCols(s.inputQ, c, b);
    }
  }

  lemma CreateRefreshFlow(g: Config, s: Driver, r: nat)
    requires Shaped(g, s) && r < g.t.Ranks()
    ensures SameFlow(s, CreateRefresh(g, s, r))
  {
    hide Reinsert, OnBank, Cols, Shaped;
    forall b: nat ensures Cols(OnBank(CreateRefresh(g, s, r).inputQ, b)) == Cols(OnBank(s.inputQ, b)) {
      ReinsertOnBank(s.inputQ, Requesters(g, s, r), b);
      if OnBank(s.inputQ, b) != [] { ColsWithRow(OnBank(s.inputQ, b), Reactivation(OnBank(s.inputQ, b)[0]), true); }
    }
  }

  lemma {:induction false} SendEachFlow(g: Config, d: Device, k: Kind, ids: seq<nat>, b: nat)
    requires Fits(g.t, d) && !k.IsCol()
    ensures Performed(SendEach(g, d, k, ids).trace, b) == Performed(d.trace, b)
    decreases |ids|
  {
    hide Performed, Handle, Push, Allowed;
    if ids != [] {
      var c := Cmd(0, k, 0, ids[0], 0);
      if CanSend(d, c) {
        PerformedAppend(d.trace, DevSend(g.p, g.t, d, c).trace[|d.trace|], b);
        SendEachFlow(g, DevSend(g.p, g.t, d, c), k, ids[1..], b);
      } else {
        SendEachFlow(g, d, k, ids[1..], b);
      }
    }
  }

  lemma {:induction false} RefreshFromFlow(g: Config, s: Driver, r: nat)
    requires Shaped(g, s) && r <= g.t.Ranks()
    ensures SameFlow(s, RefreshFrom(g, s, r))
    decreases g.t.Ranks() - r
  {
    hide CreateRefresh, SendRefresh, OnBank, Cols, Performed, Topology.Valid, Fits;
    if r < g.t.Ranks() {
      CreateRefreshFlow(g, s, r);
      var s1 := if s.refi[r] > 0 then s.(refi := s.refi[r := s.refi[r] - 1])
                else CreateRefresh(g, s, r).(refi := s.refi[r := g.p.nREFI]);
      if s1.refQ[r] != [] { SendRefreshFlow(g, s1, r); }
      RefreshFromFlow(g, RefreshRank(g, s, r), r + 1);
    }
  }

  lemma SendRefreshFlow(g: Config, s: Driver, r: nat)
    requires Shaped(g, s) && r < g.t.Ranks() && s.refQ[r] != []
    ensures SameFlow(s, SendRefresh(g, s, r))
  {
    hide SendEach, OnBank, Cols, Performed, Topology.Valid, AllCanSend, BusFree;
    var rc := s.refQ[r][0];
    assert RefOk(g.t, r, rc);
    forall b: nat ensures Performed(SendEach(g, s.dev, rc.kind, rc.banks).trace, b) == Performed(s.dev.trace, b) {
      SendEachFlow(g, s.dev, rc.kind, rc.banks, b);
    }
  }

  lemma LeaveCols(q: seq<Cmd>, i: nat, b: nat)
    requires i < |q| && forall j :: 0 <= j < i ==> q[j].bank != q[i].bank
    ensures Cols(OnBank(q, b)) ==
              (if b == q[i].bank && q[i].kind.IsCol() then [q[i]] else []) + Cols(OnBank(Without(q, i), b))
  {
    hide OnBank, Without;
    OnBankWithout(q, i, b);
    ColsAppend([q[i]], OnBank(Without(q, i), b));
  }

  // A command leaves the queue first of its bank: into the trace, or dropped if a precharge.
  lemma LeaveFlow(g: Config, s: Driver, i: nat)
    requires Shaped(g, s) && i < |s.inputQ| && Served(g, s, i)
    requires !s.blocked[s.inputQ[i].bank] && !IsRefreshing(g, s, s.inputQ[i].bank)
    ensures CanSend(s.dev, s.inputQ[i]) ==> SameFlow(s, Issue(g, Mark(s, s.inputQ[i]), i))
    ensures s.inputQ[i].kind.PRE? ==> SameFlow(s, Mark(s, s.inputQ[i]).(inputQ := Without(s.inputQ, i)))
  {
    hide Performed, OnBank, Cols, Without, Handle, Push, Allowed, Topology.Valid, DataBusOk, QueueOk, RefQOk;
    var c := s.inputQ[i];
    FirstOfBank(g, s, i);
    forall b: nat
      ensures Cols(OnBank(s.inputQ, b)) == (if b == c.bank && c.kind.IsCol() then [c] else []) + Cols(OnBank(Without(s.inputQ, i), b))
    {
      LeaveCols(s.inputQ, i, b);
    }
    if CanSend(s.dev, c) {
      var s' := Issue(g, Mark(s, c), i);
      forall b: nat ensures Flow(s', b) == Flow(s, b) {
        PerformedAppend(s.dev.trace, s'.dev.trace[|s.dev.trace|], b);
      }
    }
  }

  lemma {:induction false} ScanFlow(g: Config, s: Driver, i: nat, counts: seq<nat>)
    requires Shaped(g, s) && i <= |s.inputQ| && Served(g, s, i) && |counts| == g.t.Ranks()
    ensures SameFlow(s, ScanFrom(g, s, i, counts))
    decreases |s.inputQ| - i
  {
    hide OnBank, Performed, Cols, Served, Topology.Valid, Fits, ScanOne;
    if i < |s.inputQ| {
      ScanOneFlow(g, s, i, counts);
      var r := ScanOne(g, s, i, counts);
      if !r.stop { ScanFlow(g, r.s, r.i, counts); }
    }
  }

  lemma ScanOneFlow(g: Config, s: Driver, i: nat, counts: seq<nat>)
    requires Shaped(g, s) && i < |s.inputQ| && Served(g, s, i) && |counts| == g.t.Ranks()
    ensures var r := ScanOne(g, s, i, counts); SameFlow(s, r.s) && Served(g, r.s, r.i)
  {
    hide OnBank, Performed, Cols, Served, Topology.Valid, Fits, Allowed, BusFree, Precharged, Issue;
    var c := s.inputQ[i];
    MarkServed(g, s, i);
    match Judge(g, s, c, counts) {
      case Drop => LeaveFlow(g, s, i); LeaveServed(g, s, i);
      case Send => LeaveFlow(g, s, i); LeaveServed(g, s, i);
      case _ =>
    }
  }

  lemma LeaveServed(g: Config, s: Driver, i: nat)
    requires Shaped(g, s) && i < |s.inputQ| && Served(g, s, i)
    ensures Served(g, Mark(s, s.inputQ[i]).(inputQ := Without(s.inputQ, i)), i)
    ensures CanSend(s.dev, s.inputQ[i]) ==> Served(g, Issue(g, Mark(s, s.inputQ[i]), i), i)
  {
    hide Topology.Valid, DevSend, DataBusOk, Served, Fits, Allowed;
    WithoutServed(g, s, Mark(s, s.inputQ[i]).(inputQ := Without(s.inputQ, i)), i);
    if CanSend(s.dev, s.inputQ[i]) { WithoutServed(g, s, Issue(g, Mark(s, s.inputQ[i]), i), i); }
  }

  // Within a clock, refresh and scan lose, repeat and reorder nothing.
  lemma RunFlow(g: Config, s: Driver)
    requires Shaped(g, s)
    ensures SameFlow(s, Run(g, s))
  {
    hide OnBank, Performed, Cols, RefreshFrom, ScanFrom, Topology.Valid, Fits;
    var s1 := s.(rowBus := ReleaseBus(s.rowBus), colBus := ReleaseBus(s.colBus));
    RefreshFromFlow(g, s1, 0);
    var s2 := if g.useRefresh then RefreshFrom(g, s1, 0) else s1;
    ScanFlow(g, s2, 0, ActCounts(s2));
  }

  lemma UpdateFlow(g: Config, s: Driver)
    requires Shaped(g, s)
    ensures SameFlow(s, Update(g, s))
  {
    hide OnBank, Performed, Cols, Topology.Valid, Fits, Tick;
  }
}
