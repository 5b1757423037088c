// Row correctness, continued: the refresh phase and the scan of the input queue.
module DramRowScan {
  import opened Common
  import opened DramTypes
  import opened DramBank
  import opened DramDevice
  import opened DramDriver
  import opened DramRows
  import opened DramRowRun

  // ---------------------------------------------------------------- creating a refresh

  lemma ReinsertOneOnBank(q: seq<Cmd>, x: nat, b: nat)
    ensures b != x ==> OnBank(ReinsertOne(q, x), b) == OnBank(q, b)
    ensures OnBank(ReinsertOne(q, x), x) ==
              if Doomable(OnBank(q, x)) then OnBank(q, x)
              else [Reactivation(OnBank(q, x)[0])] + OnBank(q, x)
  {
    FirstIsHead(q, x);
    var first := FirstOnBank(q, x);
    if first.Some? && first.value.kind.IsCol() {
      var a := Reactivation(first.value);
      OnBankAppend([a], q, b);
      OnBankAppend([a], q, x);
      OnBankOne(a, b);
      OnBankOne(a, x);
    }
  }

  // Afterwards none of the refreshed banks has a column command first, and the only
  // change to a bank's queue is a re-activation for the column command that was.
  lemma {:induction false} ReinsertOnBank(q: seq<Cmd>, ids: seq<nat>, b: nat)
    ensures OnBank(Reinsert(q, ids), b) ==
              if b !in ids || Doomable(OnBank(q, b)) then OnBank(q, b)
              else [Reactivation(OnBank(q, b)[0])] + OnBank(q, b)
    decreases |ids|
  {
    if ids != [] {
      ReinsertOneOnBank(q, ids[0], b);
      ReinsertOnBank(ReinsertOne(q, ids[0]), ids[1..], b);
      assert b in ids <==> b == ids[0] || b in ids[1..];
    }
  }

  lemma CreateRefreshRows(g: Config, s: Driver, tails: seq<Tail>, r: nat)
    requires RowsOk(g, s, tails) && g.useRefresh && r < g.t.Ranks() && Settled(s.dev)
    ensures RowsOk(g, CreateRefresh(g, s, r), tails) && Settled(CreateRefresh(g, s, r).dev)
  {
    hide RowOk, Topology.Valid, BankOk, RowOf, ActPending, Reinsert, Precharged, OnBank;
    var s' := CreateRefresh(g, s, r);
    var ids := Requesters(g, s, r);
    forall b | 0 <= b < g.t.Banks()
      ensures BankRowOk(s'.dev.banks[b], OnBank(s'.inputQ, b), tails[b])
      ensures b in ids ==> Doomable(OnBank(s'.inputQ, b))
      ensures b !in ids ==> OnBank(s'.inputQ, b) == OnBank(s.inputQ, b)
    {
      assert BankRowOk(s.dev.banks[b], OnBank(s.inputQ, b), tails[b]);
      ReinsertOnBank(s.inputQ, ids, b);
      if b in ids && !Doomable(OnBank(s.inputQ, b)) {
        RowReinserted(RowOf(s.dev.banks[b]), OnBank(s.inputQ, b), tails[b].cmds, tails[b].conv,
                      Reactivation(OnBank(s.inputQ, b)[0]));
      }
    }
    assert forall b :: Doomed(s'.refQ[r], b) ==> b in ids;
  }

  lemma RefreshRankRows(g: Config, s: Driver, tails: seq<Tail>, r: nat)
    requires RowsOk(g, s, tails) && g.useRefresh && r < g.t.Ranks() && Settled(s.dev)
    ensures RowsOk(g, RefreshRank(g, s, r), tails) && Settled(RefreshRank(g, s, r).dev)
  {
    hide Topology.Valid, BankRowOk, CreateRefresh, SendRefresh, OnBank, RowsRight, Fits;
    if s.refi[r] > 0 {
      var s1 := s.(refi := s.refi[r := s.refi[r] - 1]);
      if s1.refQ[r] != [] { SendRefreshRows(g, s1, tails, r); }
    } else {
      CreateRefreshRows(g, s, tails, r);
      var s1 := CreateRefresh(g, s, r).(refi := s.refi[r := g.p.nREFI]);
      if s1.refQ[r] != [] { SendRefreshRows(g, s1, tails, r); }
    }
  }

  lemma {:induction false} RefreshFromRows(g: Config, s: Driver, tails: seq<Tail>, r: nat)
    requires RowsOk(g, s, tails) && g.useRefresh && r <= g.t.Ranks() && Settled(s.dev)
    ensures RowsOk(g, RefreshFrom(g, s, r), tails) && Settled(RefreshFrom(g, s, r).dev)
    decreases g.t.Ranks() - r
  {
    hide BankRowOk, Doomed, RowsRight, OnBank, Settled, RefreshRank, Fits, Topology.Valid;
    if r < g.t.Ranks() {
      RefreshRankRows(g, s, tails, r);
      RefreshFromRows(g, RefreshRank(g, s, r), tails, r + 1);
    }
  }

  // ---------------------------------------------------------------- the scan

  // Every command the scan has passed belongs to a bank it will not serve again.
  ghost predicate Served(g: Config, s: Driver, i: nat)
    requires Shaped(g, s) && i <= |s.inputQ|
  {
    forall j :: 0 <= j < i ==> s.blocked[s.inputQ[j].bank] || IsRefreshing(g, s, s.inputQ[j].bank)
  }

  // A bank that has just accepted an ACT is not served again.
  ghost predicate Started(s: Driver) {
    |s.blocked| == |s.dev.banks| && forall b :: 0 <= b < |s.dev.banks| && ActPending(s.dev.banks[b]) ==> s.blocked[b]
  }

  ghost predicate ScanOk(g: Config, s: Driver, i: nat, tails: seq<Tail>) {
    RowsOk(g, s, tails) && i <= |s.inputQ| && Served(g, s, i) && Started(s)
  }

  lemma NotDoomed(g: Config, s: Driver, tails: seq<Tail>, b: nat)
    requires RowsOk(g, s, tails) && b < g.t.Banks() && !IsRefreshing(g, s, b) && g.t.RankOf(b) < g.t.Ranks()
    ensures !Doomed(s.refQ[g.t.RankOf(b)], b)
  {}

  // Queue entry i is the first of its bank.
  lemma FirstOfBank(g: Config, s: Driver, i: nat)
    requires Shaped(g, s) && i < |s.inputQ| && Served(g, s, i)
    requires !s.blocked[s.inputQ[i].bank] && !IsRefreshing(g, s, s.inputQ[i].bank)
    ensures forall j :: 0 <= j < i ==> s.inputQ[j].bank != s.inputQ[i].bank
  {}

  // A precharge of a bank that is already closed is dropped.
  lemma DropRows(g: Config, s: Driver, tails: seq<Tail>, i: nat)
    requires ScanOk(g, s, i, tails) && i < |s.inputQ|
    requires var c := s.inputQ[i]; !s.blocked[c.bank] && !IsRefreshing(g, s, c.bank) && c.kind.PRE? && Precharged(s.dev.banks[c.bank])
    ensures ScanOk(g, Mark(s, s.inputQ[i]).(inputQ := Without(s.inputQ, i)), i, tails)
  {
    hide RowOk, Topology.Valid, BankOk, OnBank, Doomed, RowsRight;
    var c := s.inputQ[i];
    var s' := Mark(s, c).(inputQ := Without(s.inputQ, i));
    WithoutServed(g, s, s', i);
    FirstOfBank(g, s, i);
    BankPlace(g.t, c.bank);
    NotDoomed(g, s, tails, c.bank);
    assert RowOf(s.dev.banks[c.bank]) == Closed;
    forall b | 0 <= b < g.t.Banks()
      ensures BankRowOk(s'.dev.banks[b], OnBank(s'.inputQ, b), tails[b])
      ensures b != c.bank ==> OnBank(s'.inputQ, b) == OnBank(s.inputQ, b)
    {
      OnBankWithout(s.inputQ, i, b);
      assert BankRowOk(s.dev.banks[b], OnBank(s.inputQ, b), tails[b]);
      if b == c.bank {
        RowAccept(Closed, OnBank(s.inputQ, b), tails[b].cmds, tails[b].conv);
      }
    }
  }

  // The device accepts the first command queued for its bank.
  lemma IssueRows(g: Config, s: Driver, tails: seq<Tail>, i: nat)
    requires ScanOk(g, s, i, tails) && i < |s.inputQ| && CanSend(s.dev, s.inputQ[i])
    requires !s.blocked[s.inputQ[i].bank] && !IsRefreshing(g, s, s.inputQ[i].bank)
    ensures ScanOk(g, Issue(g, Mark(s, s.inputQ[i]), i), i, tails)
  {
    hide RowOk, Topology.Valid, BankOk, OnBank, Doomed, Doomable, RowsRight, RowOf, StepRow, Allowed, ActPending, DevSend, DataBusOk, BankRowOk, Matches;
    var c := s.inputQ[i];
    var s' := Issue(g, Mark(s, c), i);
    WithoutServed(g, s, s', i);
    BankPlace(g.t, c.bank);
    NotDoomed(g, s, tails, c.bank);
    forall b | 0 <= b < g.t.Banks()
      ensures BankRowOk(s'.dev.banks[b], OnBank(s'.inputQ, b), tails[b])
      ensures b != c.bank ==> OnBank(s'.inputQ, b) == OnBank(s.inputQ, b)
      ensures ActPending(s'.dev.banks[b]) ==> ActPending(s.dev.banks[b]) || b == c.bank
      ensures RowsRight(s'.dev.trace)
    {
      IssueBank(g, s, tails, i, b);
    }
    assert RowsRight(s'.dev.trace) by { IssueBank(g, s, tails, i, c.bank); }
  }

  // The same, bank by bank.
  lemma IssueBank(g: Config, s: Driver, tails: seq<Tail>, i: nat, b: nat)
    requires ScanOk(g, s, i, tails) && i < |s.inputQ| && CanSend(s.dev, s.inputQ[i]) && b < g.t.Banks()
    requires !s.blocked[s.inputQ[i].bank] && !IsRefreshing(g, s, s.inputQ[i].bank)
    ensures var c := s.inputQ[i];
            var d' := DevSend(g.p, g.t, s.dev, c);
            && BankRowOk(d'.banks[b], OnBank(Without(s.inputQ, i), b), tails[b])
            && (b != c.bank ==> OnBank(Without(s.inputQ, i), b) == OnBank(s.inputQ, b))
            && (ActPending(d'.banks[b]) ==> ActPending(s.dev.banks[b]) || b == c.bank)
            && RowsRight(d'.trace)
  {
    hide RowOk, Topology.Valid, BankOk, OnBank, Doomed, RowsRight, RowOf, StepRow, Allowed, ActPending, Push, Handle;
    var c := s.inputQ[i];
    FirstOfBank(g, s, i);
    ActAllowedClosed(s.dev, c);
    OnBankWithout(s.inputQ, i, b);
    assert BankRowOk(s.dev.banks[b], OnBank(s.inputQ, b), tails[b]);
    assert BankRowOk(s.dev.banks[c.bank], OnBank(s.inputQ, c.bank), tails[c.bank]);
    RowAccept(RowOf(s.dev.banks[c.bank]), OnBank(s.inputQ, c.bank), tails[c.bank].cmds, tails[c.bank].conv);
    SendRow(g, s.dev, c, b);
    SendRowsRight(g, s.dev, c);
  }

  // Only a closed bank accepts an ACT.
  lemma ActAllowedClosed(d: Device, c: Cmd)
    requires CanSend(d, c)
    ensures c.kind.ACT? ==> RowOf(d.banks[c.bank]) == Closed
  {}

  lemma WithoutServed(g: Config, s: Driver, s': Driver, i: nat)
    requires Shaped(g, s) && Shaped(g, s') && i < |s.inputQ| && Served(g, s, i)
    requires s'.inputQ == Without(s.inputQ, i) && s'.refQ == s.refQ
    requires forall b :: 0 <= b < |s.blocked| && s.blocked[b] ==> s'.blocked[b]
    ensures Served(g, s', i)
  {}

  lemma MarkServed(g: Config, s: Driver, i: nat)
    requires Shaped(g, s) && i < |s.inputQ| && Served(g, s, i)
    ensures Served(g, Mark(s, s.inputQ[i]), i) && Served(g, Mark(s, s.inputQ[i]), i + 1)
    ensures IsRefreshing(g, s, s.inputQ[i].bank) ==> Served(g, s, i + 1)
  {}

  lemma ScanOneRows(g: Config, s: Driver, tails: seq<Tail>, i: nat, counts: seq<nat>)
    requires ScanOk(g, s, i, tails) && i < |s.inputQ| && |counts| == g.t.Ranks()
    ensures var r := ScanOne(g, s, i, counts); ScanOk(g, r.s, r.i, tails)
  {
    hide Topology.Valid, BankRowOk, OnBank, Doomed, RowsRight, Allowed, BusFree, Precharged, ActPending, Served, Issue;
    match Judge(g, s, s.inputQ[i], counts) {
      case Drop => DropRows(g, s, tails, i);
      case Send => IssueRows(g, s, tails, i);
      case _ => MarkServed(g, s, i);
    }
  }

  lemma {:induction false} ScanFromRows(g: Config, s: Driver, tails: seq<Tail>, i: nat, counts: seq<nat>)
    requires ScanOk(g, s, i, tails) && |counts| == g.t.Ranks()
    ensures RowsOk(g, ScanFrom(g, s, i, counts), tails)
    decreases |s.inputQ| - i
  {
    hide BankRowOk, Doomed, RowsRight, OnBank, Fits, Topology.Valid, Served, Started, ScanOne;
    if i < |s.inputQ| {
      ScanOneRows(g, s, tails, i, counts);
      var r := ScanOne(g, s, i, counts);
      if !r.stop { ScanFromRows(g, r.s, tails, r.i, counts); }
    }
  }

  // The driver's run keeps the relation of every bank.
  lemma RunRows(g: Config, s: Driver, tails: seq<Tail>)
    requires RowsOk(g, s, tails) && Settled(s.dev)
    ensures RowsOk(g, Run(g, s), tails)
  {
    hide BankRowOk, OnBank, Doomed, RowsRight, RefreshFrom, ScanFrom, Topology.Valid;
    var s1 := s.(rowBus := ReleaseBus(s.rowBus), colBus := ReleaseBus(s.colBus));
    assert RowsOk(g, s1, tails);
    var s2 := if g.useRefresh then RefreshFrom(g, s1, 0) else s1;
    if g.useRefresh { RefreshFromRows(g, s1, tails, 0); }
    ScanFromRows(g, s2, tails, 0, ActCounts(s2));
  }

  // ---------------------------------------------------------------- refresh is atomic

  // When every listed bank is ready, each of them handles the command in this very
  // cycle, and no other bank changes: a refresh is never sent to a part of its banks.
  lemma {:induction false} SendEachAtomic(g: Config, d: Device, k: Kind, ids: seq<nat>)
    requires Fits(g.t, d) && (k.PRE? || k.REF?) && Distinct(ids) && AllCanSend(d, k, ids)
    ensures var d' := SendEach(g, d, k, ids);
            && d'.now == d.now
            && forall b :: 0 <= b < |d.banks| ==>
                 if b in ids
                 then Allowed(d.banks[b], k, d.now) && d'.banks[b] == Handle(d.banks[b], Cmd(0, k, 0, b, 0), d.now)
                 else d'.banks[b] == d.banks[b]
    decreases |ids|
  {
    hide Allowed, Handle;
    if ids != [] {
      SendFirst(g, d, k, ids);
      SendEachAtomic(g, DevSend(g.p, g.t, d, Cmd(0, k, 0, ids[0], 0)), k, ids[1..]);
    }
  }

  // The other listed banks stay ready.
  lemma SendFirst(g: Config, d: Device, k: Kind, ids: seq<nat>)
    requires Fits(g.t, d) && (k.PRE? || k.REF?) && ids != [] && Distinct(ids) && AllCanSend(d, k, ids)
    ensures CanSend(d, Cmd(0, k, 0, ids[0], 0))
    ensures var d1 := DevSend(g.p, g.t, d, Cmd(0, k, 0, ids[0], 0));
            && Distinct(ids[1..]) && AllCanSend(d1, k, ids[1..])
            && forall b :: 0 <= b < |d.banks| && b != ids[0] ==> d1.banks[b] == d.banks[b]
  {
    hide Allowed, Handle, Push;
    var c := Cmd(0, k, 0, ids[0], 0);
    assert CanSend(d, c);
    var d1 := DevSend(g.p, g.t, d, c);
    forall b | 0 <= b < |d.banks| && b != c.bank ensures d1.banks[b] == d.banks[b] {
      PushNothing(g.p, g.t.Relate(c.bank, b), d.banks[b], k, d.now);
    }
    forall i | 0 <= i < |ids[1..]| ensures CanSend(d1, Cmd(0, k, 0, ids[1..][i], 0)) {
      assert CanSend(d, Cmd(0, k, 0, ids[i + 1], 0));
    }
  }

  // The trace then grows by one event per listed bank, all in this cycle.
  lemma {:induction false} SendEachTrace(g: Config, d: Device, k: Kind, ids: seq<nat>, i: nat)
    requires Fits(g.t, d) && (k.PRE? || k.REF?) && Distinct(ids) && AllCanSend(d, k, ids) && i < |ids|
    ensures var d' := SendEach(g, d, k, ids);
            && |d'.trace| == |d.trace| + |ids| && d.trace <= d'.trace
            && d'.trace[|d.trace| + i].cycle == d.now && d'.trace[|d.trace| + i].cmd == Cmd(0, k, 0, ids[i], 0)
    decreases |ids|
  {
    hide Allowed, Handle, Push, AllCanSend, Distinct;
    SendFirst(g, d, k, ids);
    var d1 := DevSend(g.p, g.t, d, Cmd(0, k, 0, ids[0], 0));
    if |ids| == 1 {
      assert SendEach(g, d1, k, ids[1..]) == d1;
    } else {
      SendEachTrace(g, d1, k, ids[1..], if i == 0 then 0 else i - 1);
      assert i > 0 ==> |d.trace| + i == |d1.trace| + (i - 1);
    }
  }

  lemma PushNothing(p: Params, rel: Rel, b: Bank, k: Kind, t: nat)
    requires k.PRE? || k.REF?
    ensures Push(p, rel, b, k, t) == b
  {}
}
