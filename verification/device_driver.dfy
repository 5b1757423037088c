// The device driver as an object: its methods update banks, queues and counters in place,
// and each is proved to take exactly the step of the value model.
module DeviceDriverObject {
  import opened Common
  import opened DramTypes
  import opened DramBank
  import opened DramDevice
  import D = DramDriver
  import opened BankInfoObject
  import AddressMap
  import opened DramTree

  // ---------------------------------------------------------------- the bank tree

  // Connects two levels: each of the outer ones takes the next `inner` of the other.
  method Attach(outer: nat, inner: nat) returns (owner: seq<nat>)
    requires inner > 0
    ensures owner == Owners(outer * inner, inner)
  {
    hide AddressMap.Quot;
    owner := [];
    var i := 0;
    while i < outer
      invariant 0 <= i <= outer && owner == Owners(i * inner, inner)
    {
      var j := 0;
      while j < inner
        invariant 0 <= j <= inner && owner == Owners(i * inner + j, inner)
      {
        QuotientOf(i, j, inner);
        owner := owner + [i];
        j := j + 1;
      }
      i := i + 1;
    }
  }

  // A rank's banks, group after group.
  method ListBanks(geo: AddressMap.Geometry, r: nat) returns (q: seq<nat>)
    ensures q == BanksOf(geo, r)
  {
    q := [];
    var first := r * (geo.banks * geo.groups);
    var i := 0;
    while i < geo.groups
      invariant 0 <= i <= geo.groups && |q| == geo.banks * i
      invariant forall k :: 0 <= k < |q| ==> q[k] == first + k
    {
      var j := 0;
      while j < geo.banks
        invariant 0 <= j <= geo.banks && |q| == geo.banks * i + j
        invariant forall k :: 0 <= k < |q| ==> q[k] == first + k
      {
        q := q + [first + (geo.banks * i + j)];
        j := j + 1;
      }
      i := i + 1;
    }
  }

  method BuildTree(geo: AddressMap.Geometry) returns (t: Topology)
    requires geo.Positive()
    ensures t == Tree(geo) && t.Valid()
  {
    hide Topology.Valid, Owners, BanksOf, AddressMap.Rem;
    var chans := geo.channels * geo.pchannels;
    var ranks := chans * geo.ranks;
    var groups := ranks * geo.groups;
    var chanOf := Attach(chans, geo.ranks);
    var rankOf := Attach(ranks, geo.groups);
    var groupOf := Attach(groups, geo.banks);
    var busOf := Attach(geo.channels, geo.pchannels);
    var lists: seq<seq<nat>> := [];
    while |lists| < ranks
      invariant |lists| <= ranks && forall r :: 0 <= r < |lists| ==> lists[r] == BanksOf(geo, r)
    {
      var q := ListBanks(geo, |lists|);
      lists := lists + [q];
    }
    t := Topology(groupOf, rankOf, chanOf, busOf, seq(chans, (c: nat) => AddressMap.Rem(c, geo.channels)), geo.channels, lists);
    TreeIsValid(geo);
    assert lists == Tree(geo).rankBanks;
  }

  class DeviceDriver {
    const g: D.Config
    const banks: seq<BankInfo>
    var now: nat
    ghost var trace: seq<Event>
    var inputQ: seq<Cmd>
    var blocked: seq<bool>
    var inflight: set<nat>
    var rowBus: seq<nat>
    var colBus: seq<nat>
    var faw: seq<seq<nat>>
    var actIssued: seq<bool>
    var refi: seq<nat>
    var refQ: seq<seq<D.RefCmd>>
    var nextRef: seq<nat>
    var data: D.DataCmd
    var dataClash: bool
    var actClash: bool

    ghost function Values(): (r: seq<Bank>)
      reads banks
      ensures |r| == |banks|
    {
      seq(|banks|, i requires 0 <= i < |banks| reads banks => banks[i].Value())
    }

    ghost function Model(): D.Driver
      reads this, banks
    {
      D.Driver(Device(now, Values(), trace), inputQ, blocked, inflight, rowBus, colBus, faw, actIssued,
               refi, refQ, nextRef, data, dataClash, actClash)
    }

    ghost predicate Valid()
      reads this, banks
    {
      D.Shaped(g, Model()) && Separate()
    }

    // The banks are different objects with the same parameters.
    ghost predicate Separate() {
      && (forall i, j :: 0 <= i < j < |banks| ==> banks[i] != banks[j])
      && (forall i :: 0 <= i < |banks| ==> banks[i].p == g.p)
    }

    constructor (geo: AddressMap.Geometry, p: Params, dualBus: bool, multiAct: bool, useRefresh: bool, singleBank: bool)
      requires geo.Positive() && p.nFAW > 0
      ensures Valid() && (forall b :: b in banks ==> fresh(b))
      ensures g == D.Config(p, Tree(geo), dualBus, multiAct, useRefresh, singleBank) && Model() == D.InitialDriver(g)
    {
      hide Topology.Valid, Tree;
      var t := BuildTree(geo);
      var g := D.Config(p, t, dualBus, multiAct, useRefresh, singleBank);
      var s := D.InitialDriver(g);
      var made: seq<BankInfo> := [];
      while |made| < g.t.Banks()
        invariant |made| <= g.t.Banks()
        invariant forall i :: 0 <= i < |made| ==> fresh(made[i]) && made[i].p == g.p && made[i].Value() == INITIAL
        invariant forall i, j :: 0 <= i < j < |made| ==> made[i] != made[j]
      {
        var b := new BankInfo(g.p);
        made := made + [b];
      }
      this.g := g;
      banks := made;
      now, trace, inputQ, inflight := 0, [], [], {};
      blocked, rowBus, colBus := s.blocked, s.rowBus, s.colBus;
      faw, actIssued, refi, refQ, nextRef := s.faw, s.actIssued, s.refi, s.refQ, s.nextRef;
      data, dataClash, actClash := s.data, false, false;
      new;
      D.InitialShaped(g);
      assert Values() == s.dev.banks;
    }

    // ---------------------------------------------------------------- per clock

    method ClockBanks()
      requires Valid()
      modifies this`now, banks
      ensures Valid() && Model() == old(Model()).(dev := DevTick(g.p, old(Model()).dev))
    {
      hide Topology.Valid, Tick, D.QueueOk, D.RefQOk;
      ghost var d := Model().dev;
      now := now + 1;
      var i := 0;
      while i < |banks|
        invariant 0 <= i <= |banks| && now == d.now + 1
        invariant forall j :: 0 <= j < |banks| ==> banks[j].Value() == if j < i then Tick(g.p, d.banks[j], now) else d.banks[j]
      {
        banks[i].ClockTic(now);
        i := i + 1;
      }
      assert Values() == DevTick(g.p, d).banks;
    }

    method ReleaseBuses()
      requires Valid()
      modifies this`rowBus, this`colBus
      ensures Valid()
      ensures Model() == old(Model()).(rowBus := D.ReleaseBus(old(rowBus)), colBus := D.ReleaseBus(old(colBus)))
    {
      hide Topology.Valid, Fits, D.QueueOk, D.RefQOk, Values, Separate;
      var i := 0;
      while i < |colBus|
        invariant |colBus| == old(|colBus|) && 0 <= i <= |colBus| && rowBus == old(rowBus)
        invariant forall j :: 0 <= j < |colBus| ==> colBus[j] == if j < i then D.ReleaseBus(old(colBus))[j] else old(colBus)[j]
      {
        if colBus[i] > 0 { colBus := colBus[i := colBus[i] - 1]; }
        i := i + 1;
      }
      assert colBus == D.ReleaseBus(old(colBus));
      i := 0;
      while i < |rowBus|
        invariant |rowBus| == old(|rowBus|) && 0 <= i <= |rowBus| && colBus == D.ReleaseBus(old(colBus))
        invariant forall j :: 0 <= j < |rowBus| ==> rowBus[j] == if j < i then D.ReleaseBus(old(rowBus))[j] else old(rowBus)[j]
      {
        if rowBus[i] > 0 { rowBus := rowBus[i := rowBus[i] - 1]; }
        i := i + 1;
      }
      assert rowBus == D.ReleaseBus(old(rowBus));
    }

    method ShiftTrackers()
      requires Valid()
      modifies this`faw
      ensures Valid()
      ensures Model() == old(Model()).(faw := D.Update(g, old(Model())).faw)
    {
      hide Topology.Valid, Fits, D.QueueOk, D.RefQOk, Values, Separate;
      var r := 0;
      while r < |faw|
        invariant |faw| == |old(faw)| && 0 <= r <= |faw|
        invariant forall j :: 0 <= j < |faw| ==> faw[j] == if j < r then D.ShiftFaw(old(faw)[j], actIssued[j]) else old(faw)[j]
      {
        faw := faw[r := (faw[r] + [if actIssued[r] then 1 else 0])[1..]];
        r := r + 1;
      }
      assert faw == D.Update(g, old(Model())).faw;
    }

    // Nothing is served, written or activated yet in this clock.
    method ClearMarks()
      requires Valid()
      modifies this`inflight, this`blocked, this`actIssued
      ensures Valid()
      ensures Model() == old(Model()).(inflight := {}, blocked := seq(|old(blocked)|, i => false), actIssued := seq(|old(actIssued)|, i => false))
    {
      hide Topology.Valid, Fits, D.QueueOk, D.RefQOk, Values, Separate;
      inflight := {};
      blocked := seq(|blocked|, i => false);
      actIssued := seq(|actIssued|, i => false);
    }

    method Update()
      requires Valid()
      modifies this, banks
      ensures Valid() && Model() == D.Update(g, old(Model()))
    {
      hide Topology.Valid, Fits, DevTick, D.QueueOk, D.RefQOk, D.ShiftFaw, D.ReleaseBus, Valid, Values;
      ClockBanks();
      ShiftTrackers();
      ClearMarks();
      ReleaseBuses();
    }

    // ---------------------------------------------------------------- sending

    // The addressed bank stores the command; then the other banks of its group, rank and
    // channel learn how long they have to wait.
    method SendCommand(c: Cmd) returns (ok: bool)
      requires Valid() && c.bank < g.t.Banks()
      modifies this`trace, banks
      ensures Valid() && ok == CanSend(old(Model()).dev, c)
      ensures Model() == old(Model()).(dev := if ok then DevSend(g.p, g.t, old(Model()).dev, c) else old(Model()).dev)
    {
      ghost var d := Model().dev;
      var b := banks[c.bank];
      ok := b.IsCommandAllowed(c.kind, now);
      if !ok { return; }
      trace := trace + [Event(now, c, b.rowOpen, b.openRow)];
      b.HandleCommand(c, now);
      UpdateOtherBanks(c, d);
    }

    // Pushes the earliest next cycles of the banks related to the addressed one.
    method UpdateOtherBanks(c: Cmd, ghost d: Device)
      requires c.bank < |banks| == |d.banks| == g.t.Banks() && CanSend(d, c) && d.now == now
      requires Separate()
      requires forall i :: 0 <= i < |banks| ==> banks[i].Value() == if i == c.bank then Handle(d.banks[i], c, now) else d.banks[i]
      modifies banks
      ensures Values() == DevSend(g.p, g.t, d, c).banks
    {
      hide Handle, Push, Allowed, Topology.Relate;
      var i := 0;
      while i < |banks|
        invariant 0 <= i <= |banks|
        invariant forall j :: 0 <= j < |banks| ==>
          banks[j].Value() == if j == c.bank || j < i then DevSend(g.p, g.t, d, c).banks[j] else d.banks[j]
      {
        if i != c.bank { banks[i].Postpone(g.t.Relate(c.bank, i), c.kind, now); }
        i := i + 1;
      }
    }

    method OccupyBus(bus: nat, k: Kind) returns (allBusy: bool)
      requires Valid() && bus < g.t.buses
      modifies this`rowBus, this`colBus
      ensures Valid() && Model() == D.Occupy(g, old(Model()), bus, k) && allBusy == D.AllBusy(Model())
    {
      hide Topology.Valid, Fits, D.QueueOk, D.RefQOk, Values, Separate, D.AllBusy;
      var n := if k.ACT? && g.multiAct then 2 else 1;
      if g.dualBus {
        if k.IsCol() { colBus := colBus[bus := n]; } else { rowBus := rowBus[bus := n]; }
      } else {
        colBus := colBus[bus := 1];
        rowBus := rowBus[bus := 1];
      }
      allBusy := NoBusFree();
    }

    method NoBusFree() returns (allBusy: bool)
      ensures allBusy == D.AllBusy(Model())
    {
      hide Values;
      allBusy := true;
      var i := 0;
      while i < |colBus|
        invariant 0 <= i <= |colBus| && (allBusy <==> forall j :: 0 <= j < i ==> colBus[j] > 0)
      {
        if colBus[i] == 0 { allBusy := false; }
        i := i + 1;
      }
      i := 0;
      while i < |rowBus|
        invariant 0 <= i <= |rowBus|
        invariant allBusy <==> (forall j :: 0 <= j < |colBus| ==> colBus[j] > 0) && (forall j :: 0 <= j < i ==> rowBus[j] > 0)
      {
        if rowBus[i] == 0 { allBusy := false; }
        i := i + 1;
      }
    }

    // ---------------------------------------------------------------- the scheduler's interface

    method IsCmdAllowed(c: Cmd) returns (ok: bool)
      requires Valid() && c.bank < g.t.Banks()
      modifies this`inputQ
      ensures Valid() && (Model(), ok) == D.CmdAllowed(g, old(Model()), c)
    {
      BankPlace(g.t, c.bank);
      if g.useRefresh && refQ[g.t.RankOf(c.bank)] != [] { return false; }
      if c.kind.IsCol() && banks[c.bank].IsPrecharged() {
        var i := 0;
        while i < |inputQ|
          invariant 0 <= i <= |inputQ|
          invariant forall j :: 0 <= j < i ==> !(inputQ[j].bank == c.bank && inputQ[j].kind.ACT?)
        {
          if inputQ[i].bank == c.bank && inputQ[i].kind.ACT? { return false; }
          i := i + 1;
        }
        inputQ := inputQ + [D.Reactivation(c)];
        return false;
      }
      var bus := g.t.BusOf(c.bank);
      if (if c.kind.IsCol() then colBus[bus] else rowBus[bus]) != 0 { return false; }
      return banks[c.bank].IsCommandAllowed(c.kind, now);
    }

    method PushCmd(c: Cmd) returns (ok: bool)
      requires Valid() && c.bank < g.t.Banks()
      modifies this`inputQ, this`rowBus, this`colBus
      ensures Valid() && (Model(), ok) == D.PushCmd(g, old(Model()), c)
    {
      if |inputQ| >= D.QUEUE_LIMIT { return false; }
      inputQ := inputQ + [c];
      BankPlace(g.t, c.bank);
      var allBusy := OccupyBus(g.t.BusOf(c.bank), c.kind);
      return true;
    }

    // ---------------------------------------------------------------- refresh

    // An ACT is put in front if the first command queued for the bank is a column command.
    method ReinsertFor(b: nat)
      requires Valid()
      modifies this`inputQ
      ensures Model() == old(Model()).(inputQ := D.ReinsertOne(old(inputQ), b))
    {
      var i := 0;
      while i < |inputQ|
        invariant 0 <= i <= |inputQ| && inputQ == old(inputQ)
        invariant D.FirstOnBank(inputQ[i..], b) == D.FirstOnBank(inputQ, b)
      {
        if inputQ[i].bank == b {
          if inputQ[i].kind.IsCol() { inputQ := [D.Reactivation(inputQ[i])] + inputQ; }
          return;
        }
        i := i + 1;
      }
    }

    method ReinsertForEach(ids: seq<nat>)
      requires Valid()
      modifies this`inputQ
      ensures Valid() && Model() == old(Model()).(inputQ := D.Reinsert(old(inputQ), ids))
    {
      ghost var q := inputQ;
      var i := 0;
      while i < |ids|
        invariant 0 <= i <= |ids| && D.QueueOk(g.t, inputQ)
        invariant D.Reinsert(inputQ, ids[i..]) == D.Reinsert(q, ids)
      {
        D.ReinsertKeepsQueueOk(g.t, inputQ, [ids[i]]);
        assert D.Reinsert(inputQ, [ids[i]]) == D.ReinsertOne(inputQ, ids[i]);
        ReinsertFor(ids[i]);
        i := i + 1;
      }
    }

    method CreateRefreshCmds(r: nat)
      requires Valid() && r < g.t.Ranks()
      modifies this`nextRef, this`refQ, this`inputQ
      ensures Valid() && Model() == D.CreateRefresh(g, old(Model()), r)
    {
      hide D.OpenBanks, D.Reinsert, D.Precharged, D.Distinct, D.QueueOk, Values, Separate;
      ghost var s := Model();
      var ids := if g.singleBank then [g.t.rankBanks[r][nextRef[r]]] else g.t.rankBanks[r];
      assert ids == D.Requesters(g, s, r);
      hide Topology.Valid;
      var open := OpenBanksOf(ids);
      ReinsertForEach(ids);
      refQ := refQ[r := (if open == [] then [] else [D.RefCmd(PRE, open)]) + [D.RefCmd(REF, ids)]];
      if g.singleBank { nextRef := nextRef[r := (nextRef[r] + 1) % |g.t.rankBanks[r]|]; }
      assert Model() == D.CreateRefresh(g, s, r);
    }

    method OpenBanksOf(ids: seq<nat>) returns (open: seq<nat>)
      requires forall i :: 0 <= i < |ids| ==> ids[i] < |banks|
      ensures open == D.OpenBanks(Values(), ids)
    {
      open := [];
      ghost var all := Values();
      var i := 0;
      while i < |ids|
        invariant 0 <= i <= |ids|
        invariant open + D.OpenBanks(all, ids[i..]) == D.OpenBanks(all, ids)
      {
        assert ids[i..] == [ids[i]] + ids[i + 1..] && all[ids[i]] == banks[ids[i]].Value();
        if !banks[ids[i]].IsPrecharged() { open := open + [ids[i]]; }
        i := i + 1;
      }
    }

    method AllReady(k: Kind, ids: seq<nat>) returns (ready: bool)
      requires Valid() && forall i :: 0 <= i < |ids| ==> ids[i] < g.t.Banks()
      ensures ready == D.AllCanSend(Model().dev, k, ids)
    {
      var i := 0;
      while i < |ids|
        invariant 0 <= i <= |ids|
        invariant forall j :: 0 <= j < i ==> CanSend(Model().dev, Cmd(0, k, 0, ids[j], 0))
      {
        if !banks[ids[i]].IsCommandAllowed(k, now) {
          assert !CanSend(Model().dev, Cmd(0, k, 0, ids[i], 0));
          return false;
        }
        i := i + 1;
      }
      return true;
    }

    // All listed banks must be ready and the bus free before any of them gets the command.
    method SendRefresh(r: nat)
      requires Valid() && r < g.t.Ranks() && refQ[r] != []
      modifies this, banks
      ensures Valid() && Model() == D.SendRefresh(g, old(Model()), r)
    {
      var rc := refQ[r][0];
      assert D.RefOk(g.t, r, rc);
      hide D.SendEach, D.AllCanSend, D.QueueOk, D.Distinct, Fits, Values, Separate, Topology.Valid;
      var ready := AllReady(rc.kind, rc.banks);
      if !ready { return; }
      var bus := g.t.RefBus(r);
      if rowBus[bus] != 0 { return; }
      SendHead(r, rc);
    }

    // The head of the rank's refresh queue goes to its banks.
    method SendHead(r: nat, rc: D.RefCmd)
      requires Valid() && r < g.t.Ranks() && refQ[r] != [] && rc == refQ[r][0]
      modifies this, banks
      ensures Valid()
      ensures var s := old(Model());
              && s.refQ[r] != [] && g.t.RefBus(r) < |s.rowBus| == |s.colBus| && Fits(g.t, s.dev)
              && Model() == D.Occupy(g, s.(dev := D.SendEach(g, s.dev, rc.kind, rc.banks), refQ := s.refQ[r := s.refQ[r][1..]]),
                                     g.t.RefBus(r), rc.kind)
    {
      assert D.RefOk(g.t, r, rc);
      hide D.SendEach, D.QueueOk, D.Distinct, Values, Separate;
      SendToEach(rc.kind, rc.banks);
      refQ := refQ[r := refQ[r][1..]];
      var allBusy := OccupyBus(g.t.RefBus(r), rc.kind);
    }

    method SendToEach(k: Kind, ids: seq<nat>)
      requires Valid() && forall i :: 0 <= i < |ids| ==> ids[i] < g.t.Banks()
      modifies this`trace, banks
      ensures Valid() && Model() == old(Model()).(dev := D.SendEach(g, old(Model()).dev, k, ids))
    {
      ghost var s := Model();
      var i := 0;
      while i < |ids|
        invariant Valid() && 0 <= i <= |ids|
        invariant Model() == s.(dev := Model().dev)
        invariant D.SendEach(g, Model().dev, k, ids[i..]) == D.SendEach(g, s.dev, k, ids)
      {
        var sent := SendCommand(Cmd(0, k, 0, ids[i], 0));
        i := i + 1;
      }
    }

    method RefreshRank(r: nat)
      requires Valid() && r < g.t.Ranks()
      modifies this, banks
      ensures Valid() && Model() == D.RefreshRank(g, old(Model()), r)
    {
      hide Topology.Valid, D.CreateRefresh, D.SendRefresh, D.QueueOk, D.RefQOk, Fits, Values, Separate;
      if refi[r] > 0 {
        refi := refi[r := refi[r] - 1];
      } else {
        CreateRefreshCmds(r);
        refi := refi[r := g.p.nREFI];
      }
      if refQ[r] != [] { SendRefresh(r); }
    }

    // ---------------------------------------------------------------- requests

    method CountActs(r: nat) returns (n: nat)
      requires r < |faw|
      ensures n == D.Sum(faw[r])
    {
      n := 0;
      var i := 0;
      while i < |faw[r]|
        invariant 0 <= i <= |faw[r]| && n + D.Sum(faw[r][i..]) == D.Sum(faw[r])
      {
        n := n + faw[r][i];
        i := i + 1;
      }
    }

    // The assertions on the data bus and on ACTs, and what they compare against.
    method Record(c: Cmd)
      requires Valid() && c.bank < g.t.Banks()
      modifies this`data, this`dataClash, this`actClash, this`actIssued
      ensures Valid()
      ensures var s := old(Model());
              var r := g.t.RankOf(c.bank);
              Model() == s.(dataClash := s.dataClash || (c.kind.IsCol() && !D.DataBusOk(g, s, c)),
                            actClash := s.actClash || (c.kind.ACT? && s.actIssued[r]),
                            data := if c.kind.IsCol() then D.DataCmd(s.dev.now, c.kind, g.t.ChanOf(c.bank)) else s.data,
                            actIssued := if c.kind.ACT? then s.actIssued[r := true] else s.actIssued)
    {
      hide Topology.Valid, Fits, D.QueueOk, D.RefQOk, Values, Separate;
      BankPlace(g.t, c.bank);
      if c.kind.IsCol() {
        var chan := g.t.ChanOf(c.bank);
        if data.kind == c.kind && data.chan == chan &&
           now - data.cycle < Min(g.p.nBL, Max(g.p.nCCD_L, g.p.nCCD_S)) { dataClash := true; }
        data := D.DataCmd(now, c.kind, chan);
      }
      if c.kind.ACT? {
        var r := g.t.RankOf(c.bank);
        if actIssued[r] { actClash := true; }
        actIssued := actIssued[r := true];
      }
    }

    // The device accepts entry i.
    method IssueEntry(i: nat) returns (allBusy: bool)
      requires Valid() && i < |inputQ| && CanSend(Model().dev, inputQ[i])
      modifies this, banks
      ensures Valid() && Model() == D.Issue(g, old(Model()), i) && allBusy == D.AllBusy(Model())
    {
      hide Topology.Valid, Allowed, DevSend, D.RefQOk, D.AllBusy, Separate, Values, D.DataBusOk;
      var c := inputQ[i];
      BankPlace(g.t, c.bank);
      Record(c);
      inputQ := inputQ[..i] + inputQ[i + 1..];
      var sent := SendCommand(c);
      allBusy := OccupyBus(g.t.BusOf(c.bank), c.kind);
    }

    // Marks the bank as served; the command may proceed if it is the first of its bank, is
    // not a fifth ACT, and follows no write to its address.
    method MarkEntry(c: Cmd, counts: seq<nat>) returns (proceed: bool)
      requires Valid() && c.bank < g.t.Banks() && |counts| == g.t.Ranks()
      modifies this`blocked, this`inflight
      ensures Valid() && Model() == D.Mark(old(Model()), c)
      ensures proceed == (!old(blocked)[c.bank] && !(c.kind.ACT? && counts[g.t.RankOf(c.bank)] >= 4) &&
                          c.addr % TWO32 !in old(inflight))
    {
      hide Topology.Valid, Fits, D.QueueOk, D.RefQOk, Values, Separate;
      BankPlace(g.t, c.bank);
      proceed := !blocked[c.bank];
      blocked := blocked[c.bank := true];
      if c.kind.ACT? && counts[g.t.RankOf(c.bank)] >= 4 { proceed := false; }
      if c.addr % TWO32 in inflight { proceed := false; }
      if c.kind.WRITE? || c.kind.WRITEA? { inflight := inflight + {c.addr % TWO32}; }
    }

    // One entry of the scan.
    method ScanEntry(i: nat, counts: seq<nat>) returns (next: nat, stop: bool)
      requires Valid() && i < |inputQ| && |counts| == g.t.Ranks()
      modifies this, banks
      ensures Valid() && D.Scan(Model(), next, stop) == D.ScanOne(g, old(Model()), i, counts)
    {
      hide Topology.Valid, Allowed, DevSend, D.RefQOk, D.Issue, D.AllBusy, Separate;
      var c := inputQ[i];
      BankPlace(g.t, c.bank);
      if g.useRefresh && refQ[g.t.RankOf(c.bank)] != [] { return i + 1, false; }
      var proceed := MarkEntry(c, counts);
      if c.kind.REF? { return i, true; }
      var bus := g.t.BusOf(c.bank);
      if proceed && (if c.kind.IsCol() then colBus[bus] else rowBus[bus]) == 0 {
        next, stop := ServeEntry(i);
        return;
      }
      return i + 1, false;
    }

    // A command that may proceed on a free bus: dropped, sent, or left.
    method ServeEntry(i: nat) returns (next: nat, stop: bool)
      requires Valid() && i < |inputQ|
      modifies this, banks
      ensures Valid()
      ensures var s := old(Model());
              var c := s.inputQ[i];
              if c.kind.PRE? && D.Precharged(s.dev.banks[c.bank]) then (Model(), next, stop) == (s.(inputQ := D.Without(s.inputQ, i)), i, false)
              else if CanSend(s.dev, c) then (Model(), next, stop) == (D.Issue(g, s, i), i, D.AllBusy(D.Issue(g, s, i)))
              else (Model(), next, stop) == (s, i + 1, false)
    {
      hide Topology.Valid, DevSend, D.RefQOk, D.Issue, D.AllBusy, Separate;
      var c := inputQ[i];
      if c.kind.PRE? && banks[c.bank].IsPrecharged() {
        inputQ := inputQ[..i] + inputQ[i + 1..];
        return i, false;
      }
      if banks[c.bank].IsCommandAllowed(c.kind, now) {
        stop := IssueEntry(i);
        return i, stop;
      }
      return i + 1, false;
    }

    method CountAllActs() returns (counts: seq<nat>)
      requires Valid()
      ensures counts == D.ActCounts(Model())
    {
      counts := [];
      while |counts| < |faw|
        invariant |counts| <= |faw| && forall r :: 0 <= r < |counts| ==> counts[r] == D.Sum(faw[r])
      {
        var n := CountActs(|counts|);
        counts := counts + [n];
      }
    }

    method SendRequest()
      requires Valid()
      modifies this, banks
      ensures Valid() && Model() == D.ScanFrom(g, old(Model()), 0, D.ActCounts(old(Model())))
    {
      hide Topology.Valid, Fits, D.QueueOk, D.RefQOk, D.ScanOne, D.ActCounts, Values, Separate;
      ghost var s := Model();
      var counts := CountAllActs();
      var i, stop := 0, false;
      while i < |inputQ| && !stop
        invariant Valid() && 0 <= i <= |inputQ|
        invariant (if stop then Model() else D.ScanFrom(g, Model(), i, counts)) == D.ScanFrom(g, s, 0, counts)
        decreases !stop, |inputQ| - i
      {
        i, stop := ScanEntry(i, counts);
      }
    }

    method Run()
      requires Valid()
      modifies this, banks
      ensures Valid() && Model() == D.Run(g, old(Model()))
    {
      ReleaseBuses();
      if g.useRefresh {
        ghost var s := Model();
        var r := 0;
        while r < g.t.Ranks()
          invariant Valid() && 0 <= r <= g.t.Ranks()
          invariant D.RefreshFrom(g, Model(), r) == D.RefreshFrom(g, s, 0)
        {
          RefreshRank(r);
          r := r + 1;
        }
      }
      SendRequest();
    }
  }
}
