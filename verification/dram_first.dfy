// How soon a transaction reaches the device: in the very clock it is given.
module DramFirst {
  import opened Common
  import opened DramTypes
  import opened DramBank
  import opened DramDevice
  import opened DramDriver
  import opened DramPipeline
  import opened DramBusTime
  import opened DramClash
  import opened DramLanes

  // The commands of the first transaction; whatever the policy its ACT comes first.
  lemma FirstPackage(u: Setup, t: Txn)
    ensures var v := View(false, 0, if u.policy.PseudoOpen? then u.policy.closeTime else 0);
            PackageKinds(u.policy, v, t)[0].ACT?
  {}

  lemma FirstConverted(u: Setup, P: Pipe, t: Txn)
    requires Formed(u, P) && u.cap >= 3 && t.bank < |P.cmdQ| && P.cmdQ[t.bank] == [] && P.waiting == [] && u.cap < TWO32
    requires P.view[t.bank] == View(false, 0, if u.policy.PseudoOpen? then u.policy.closeTime else 0) && P.nextSeq == 0
    ensures var C := ConvertPhase(u, P, [t]);
            && C.drv == P.drv && |C.cmdQ| == |P.cmdQ| && C.cmdQ[t.bank] != [] && C.cmdQ[t.bank][0] == Cmd(0, ACT, t.addr, t.bank, t.row)
            && C.waiting == []
  {
    hide Shaped, PackageKinds, Updated, Aged;
    var P0 := P.(waiting := []);
    assert P0.waiting + [t] == [t] && P.waiting + [t] == [t];
    var kinds := PackageKinds(u.policy, P.view[t.bank], t);
    FirstPackage(u, t);
    PackageFits(u.policy, P.view[t.bank], t);
    PushAllFits([], Numbered(t, kinds, 0), u.cap);
    ConvertFormed(u, P0, [t]);
    assert Convert(u, P0, [t]) == Convert(u, ConvertOne(u, P0, t), []);
  }

  // The driver at the beginning of the first clock.
  function Started(g: Config): (s: Driver)
    requires g.t.Valid() && g.p.nFAW > 0
    ensures Shaped(g, s)
  {
    InitialShaped(g);
    Update(g, InitialDriver(g))
  }

  lemma StartedIsReady(g: Config, c: Cmd)
    requires g.t.Valid() && g.p.nFAW > 0 && c.bank < g.t.Banks() && c.kind.ACT?
    ensures var s := Started(g);
            && s.dev.now == 1 && s.dev.trace == [] && s.inputQ == [] && s.inflight == {} && CanSend(s.dev, c)
            && (forall b :: 0 <= b < |s.blocked| ==> !s.blocked[b])
            && (forall r :: 0 <= r < |s.refQ| ==> s.refQ[r] == [])
            && g.t.BusOf(c.bank) < |s.rowBus| && s.rowBus[g.t.BusOf(c.bank)] == 0
            && g.t.RankOf(c.bank) < |s.faw| && Sum(s.faw[g.t.RankOf(c.bank)]) == 0
  {
    hide Topology.Valid, Tick;
    BankPlace(g.t, c.bank);
    InitialAccepts(g.p, c.kind);
    NoneCounted(g.p.nFAW - 1);
    var r := g.t.RankOf(c.bank);
    assert Started(g).faw[r] == seq(g.p.nFAW - 1, i => 0) by {
      assert (seq(g.p.nFAW - 1, i => 0) + [0])[1..] == seq(g.p.nFAW - 1, i => 0);
    }
  }

  lemma InitialAccepts(p: Params, k: Kind)
    requires k.ACT?
    ensures Allowed(Tick(p, INITIAL, 1), k, 1)
  {}

  lemma {:induction false} NoneCounted(n: nat)
    ensures Sum(seq(n, i => 0)) == 0
  {
    if n > 0 {
      assert seq(n, i => 0)[1..] == seq(n - 1, i => 0);
      NoneCounted(n - 1);
    }
  }

  // The ACT is pushed, and leaves in the run of the same clock.
  lemma PushedThenSent(g: Config, s: Driver, c: Cmd)
    requires Shaped(g, s) && c.bank < g.t.Banks() && c.kind.ACT? && !TwoCycles(g, ACT) && !g.useRefresh && s.inputQ == []
    requires s.inflight == {} && CanSend(s.dev, c) && (forall b :: 0 <= b < |s.blocked| ==> !s.blocked[b])
    requires g.t.BusOf(c.bank) < |s.rowBus| && g.t.RankOf(c.bank) < |s.faw| && Sum(s.faw[g.t.RankOf(c.bank)]) < 4
    ensures var s1 := PushCmd(g, s, c).0;
            var s' := DramDriver.Run(g, s1);
            && |s'.dev.trace| == |s.dev.trace| + 1 && s.dev.trace <= s'.dev.trace
            && s'.dev.trace[|s.dev.trace|].cmd == c && s'.dev.trace[|s.dev.trace|].cycle == s.dev.now
  {
    hide Topology.Valid, Fits, QueueOk, RefQOk, Sum, Allowed, ScanFrom, ScanOne, DramDriver.Run, Issue, BusFree, FirstGoes;
    var s1 := PushCmd(g, s, c).0;
    var s2 := Released(g, s1);
    PushedQueue(g, s, c);
    var counts := ActCounts(s2);
    RunIsScan(g, s1);
    assert ScanStart(g, s1) == s2;
    UnfoldScan(g, s2, counts);
    FirstEntry(g, s2, counts);
    var o := ScanOne(g, s2, 0, counts);
    OneOnly(g, s2, c, counts);
    assert FirstGoes(g, s2, c, counts) by { GoesAtOnce(g, s2, c, counts); }
    if !o.stop { assert ScanFrom(g, o.s, o.i, counts) == o.s by { NothingLeft(g, o.s, o.i, counts); } }
  }

  lemma PushedQueue(g: Config, s: Driver, c: Cmd)
    requires Shaped(g, s) && c.bank < g.t.Banks() && c.kind.ACT? && !TwoCycles(g, ACT) && s.inputQ == [] && g.t.BusOf(c.bank) < |s.rowBus|
    ensures var s2 := Released(g, PushCmd(g, s, c).0);
            && s2.inputQ == [c] && s2.dev == s.dev && s2.faw == s.faw && s2.refQ == s.refQ && s2.inflight == s.inflight && s2.blocked == s.blocked
            && BusFree(s2, g.t.BusOf(c.bank), c.kind)
  {
    hide Topology.Valid, Fits, QueueOk, RefQOk;
  }

  lemma GoesAtOnce(g: Config, s: Driver, c: Cmd, counts: seq<nat>)
    requires Shaped(g, s) && c.bank < g.t.Banks() && c.kind.ACT? && !g.useRefresh && counts == ActCounts(s) && g.t.RankOf(c.bank) < |counts|
    requires CanSend(s.dev, c) && BusFree(s, g.t.BusOf(c.bank), c.kind) && Sum(s.faw[g.t.RankOf(c.bank)]) < 4
    ensures FirstGoes(g, s, c, counts)
  {
    hide Topology.Valid, Fits, QueueOk, RefQOk, Sum, Allowed, BusFree;
  }

  // A queue of one entry is empty after it is sent.
  lemma OneOnly(g: Config, s: Driver, c: Cmd, counts: seq<nat>)
    requires Shaped(g, s) && s.inputQ == [c] && c.bank < g.t.Banks() && |counts| == g.t.Ranks()
    ensures var o := ScanOne(g, s, 0, counts);
            && (|o.s.dev.trace| > |s.dev.trace| ==> o.i == |o.s.inputQ|)
            && (|o.s.dev.trace| > |s.dev.trace| ==> o.s.dev.trace[|s.dev.trace|].cycle == s.dev.now)
  {
    hide Topology.Valid, Fits, RefQOk, AllBusy, Judge, Issue, Allowed, Sum;
    SentIsFresh(g, s, c, counts);
    if Judge(g, s, c, counts).Send? {
      IssueNotes(g, Mark(s, c), 0);
      assert Without([c], 0) == [];
    }
  }

  lemma NothingLeft(g: Config, s: Driver, i: nat, counts: seq<nat>)
    requires Shaped(g, s) && i == |s.inputQ| && |counts| == g.t.Ranks()
    ensures ScanFrom(g, s, i, counts) == s
  {}

  // Main result: a transaction given in the first clock has its ACT accepted by its bank in
  // cycle 1: converted, moved to the driver and sent in one clock.
  lemma FirstActAtOnce(u: Setup, t: Txn)
    requires u.g.t.Valid() && u.g.p.nFAW > 0 && t.bank < u.g.t.Banks() && 3 <= u.cap < TWO32
    requires !u.g.useRefresh && !TwoCycles(u.g, ACT)
    ensures Formed(u, InitialPipe(u)) && InputOk(u, Input([t], [t.bank]))
    ensures var q := PipeTick(u, InitialPipe(u), Input([t], [t.bank])).drv.dev.trace;
            |q| == 1 && q[0].cycle == 1 && q[0].cmd == Cmd(0, ACT, t.addr, t.bank, t.row)
  {
    hide Topology.Valid, Fits, QueueOk, RefQOk, Convert, ConvertPhase, DramDriver.Run, CanSend, BusFree, Update, TwoCycles, Sum;
    InitialShaped(u.g);
    var P := InitialPipe(u);
    var x := Input([t], [t.bank]);
    var c := Cmd(0, ACT, t.addr, t.bank, t.row);
    var P1 := P.(drv := Update(u.g, P.drv));
    StartedIsReady(u.g, c);
    assert P1.drv == Started(u.g) && Formed(u, P1);
    FirstConverted(u, P1, t);
    var C := ConvertPhase(u, P1, [t]);
    AllowedAtOnce(u.g, P1.drv, c);
    var P2 := Visit(u, C, t.bank);
    assert VisitAll(u, C, [t.bank]) == VisitAll(u, P2, []) == P2;
    assert P2.drv == PushCmd(u.g, P1.drv, c).0;
    PushedThenSent(u.g, P1.drv, c);
  }

  lemma AllowedAtOnce(g: Config, s: Driver, c: Cmd)
    requires Shaped(g, s) && c.bank < g.t.Banks() && c.kind.ACT? && !g.useRefresh && CanSend(s.dev, c)
    requires g.t.BusOf(c.bank) < |s.rowBus| && s.rowBus[g.t.BusOf(c.bank)] == 0
    ensures CmdAllowed(g, s, c) == (s, true)
  {
    hide Topology.Valid, Fits, QueueOk, RefQOk, Allowed;
  }
}
