// Without refresh the queued commands of every bank can be read from the row the bank
// really has: nothing is ever reactivated, and the first command is always legal.
module DramFirm {
  import opened Common
  import opened DramTypes
  import opened DramBank
  import opened DramDevice
  import opened DramDriver
  import opened DramSafety
  import opened DramRows
  import opened DramRowRun
  import opened DramRowScan
  import opened DramFlow
  import opened DramPipeline
  import opened DramEndToEnd

  predicate Plain(q: seq<Cmd>) { forall i :: 0 <= i < |q| ==> !q[i].kind.REF? }

  predicate Firm(bank: Bank, inQ: seq<Cmd>, tail: Tail) {
    Start(RowOf(bank), inQ, tail.cmds, tail.conv) == RowOf(bank)
  }

  ghost predicate FirmRows(g: Config, s: Driver, tails: seq<Tail>) {
    && RowsOk(g, s, tails) && !g.useRefresh && Plain(s.inputQ)
    && forall b :: 0 <= b < g.t.Banks() ==> Firm(s.dev.banks[b], OnBank(s.inputQ, b), tails[b]) && Plain(tails[b].cmds)
  }

  // The first command of a bank's stream is legal for its row.
  lemma FirstIsLegal(bank: Bank, inQ: seq<Cmd>, tail: Tail)
    requires BankRowOk(bank, inQ, tail) && Firm(bank, inQ, tail) && inQ + tail.cmds != []
    ensures StepRow(RowOf(bank), (inQ + tail.cmds)[0]).Some?
  {}

  // ---------------------------------------------------------------- the driver

  lemma UpdateFirm(g: Config, s: Driver, tails: seq<Tail>)
    requires FirmRows(g, s, tails)
    ensures FirmRows(g, Update(g, s), tails) && Settled(Update(g, s).dev)
  {
    hide Tick, BankOk, RowOk, RowOf, Topology.Valid, Start, RowsRight;
    UpdateRows(g, s, tails);
    var s' := Update(g, s);
    forall b | 0 <= b < g.t.Banks() ensures Firm(s'.dev.banks[b], OnBank(s'.inputQ, b), tails[b]) {
      assert BankRowOk(s.dev.banks[b], OnBank(s.inputQ, b), tails[b]);
      TickRow(g.p, s.dev.banks[b], s'.dev.now);
    }
  }

  // Sending or dropping the first command of a bank leaves it firm.
  lemma IssueFirm(g: Config, s: Driver, tails: seq<Tail>, i: nat, b: nat)
    requires ScanOk(g, s, i, tails) && FirmRows(g, s, tails) && i < |s.inputQ| && CanSend(s.dev, s.inputQ[i]) && b < g.t.Banks()
    requires !s.blocked[s.inputQ[i].bank]
    ensures Firm(DevSend(g.p, g.t, s.dev, s.inputQ[i]).banks[b], OnBank(Without(s.inputQ, i), b), tails[b])
  {
    hide RowOk, Topology.Valid, BankOk, OnBank, Doomed, RowsRight, RowOf, StepRow, Allowed, ActPending, Push, Handle, Start;
    var c := s.inputQ[i];
    FirstOfBank(g, s, i);
    ActAllowedClosed(s.dev, c);
    OnBankWithout(s.inputQ, i, b);
    assert BankRowOk(s.dev.banks[b], OnBank(s.inputQ, b), tails[b]);
    assert BankRowOk(s.dev.banks[c.bank], OnBank(s.inputQ, c.bank), tails[c.bank]);
    RowAccept(RowOf(s.dev.banks[c.bank]), OnBank(s.inputQ, c.bank), tails[c.bank].cmds, tails[c.bank].conv);
    SendRow(g, s.dev, c, b);
  }

  lemma DropFirm(g: Config, s: Driver, tails: seq<Tail>, i: nat, b: nat)
    requires ScanOk(g, s, i, tails) && FirmRows(g, s, tails) && i < |s.inputQ| && b < g.t.Banks()
    requires var c := s.inputQ[i]; !s.blocked[c.bank] && c.kind.PRE? && Precharged(s.dev.banks[c.bank])
    ensures Firm(s.dev.banks[b], OnBank(Without(s.inputQ, i), b), tails[b])
  {
    hide RowOk, Topology.Valid, BankOk, OnBank, Doomed, RowsRight, Start;
    var c := s.inputQ[i];
    FirstOfBank(g, s, i);
    OnBankWithout(s.inputQ, i, b);
    assert BankRowOk(s.dev.banks[b], OnBank(s.inputQ, b), tails[b]);
    if b == c.bank {
      assert RowOf(s.dev.banks[b]) == Closed;
      RowAccept(Closed, OnBank(s.inputQ, b), tails[b].cmds, tails[b].conv);
    }
  }

  lemma PlainWithout(q: seq<Cmd>, i: nat)
    requires Plain(q) && i < |q|
    ensures Plain(Without(q, i))
  {}

  lemma ScanOneFirm(g: Config, s: Driver, tails: seq<Tail>, i: nat, counts: seq<nat>)
    requires ScanOk(g, s, i, tails) && FirmRows(g, s, tails) && i < |s.inputQ| && |counts| == g.t.Ranks()
    ensures var r := ScanOne(g, s, i, counts); ScanOk(g, r.s, r.i, tails) && FirmRows(g, r.s, tails)
  {
    hide Topology.Valid, BankRowOk, Doomed, RowsRight, OnBank, Allowed, BusFree, Precharged, Served, Started, Firm, Plain, DevSend, DataBusOk;
    ScanOneRows(g, s, tails, i, counts);
    var c := s.inputQ[i];
    match Judge(g, s, c, counts) {
      case Drop =>
        PlainWithout(s.inputQ, i);
        forall b | 0 <= b < g.t.Banks() ensures Firm(s.dev.banks[b], OnBank(Without(s.inputQ, i), b), tails[b]) {
          DropFirm(g, s, tails, i, b);
        }
      case Send =>
        PlainWithout(s.inputQ, i);
        forall b | 0 <= b < g.t.Banks() ensures Firm(DevSend(g.p, g.t, s.dev, c).banks[b], OnBank(Without(s.inputQ, i), b), tails[b]) {
          IssueFirm(g, s, tails, i, b);
        }
      case _ =>
    }
  }

  lemma {:induction false} ScanFirm(g: Config, s: Driver, tails: seq<Tail>, i: nat, counts: seq<nat>)
    requires ScanOk(g, s, i, tails) && FirmRows(g, s, tails) && |counts| == g.t.Ranks()
    ensures FirmRows(g, ScanFrom(g, s, i, counts), tails)
    decreases |s.inputQ| - i
  {
    hide Topology.Valid, BankRowOk, Doomed, RowsRight, OnBank, Served, Started, Firm, Plain, ScanOne;
    if i < |s.inputQ| {
      ScanOneFirm(g, s, tails, i, counts);
      var r := ScanOne(g, s, i, counts);
      if !r.stop { ScanFirm(g, r.s, tails, r.i, counts); }
    }
  }

  lemma RunFirm(g: Config, s: Driver, tails: seq<Tail>)
    requires FirmRows(g, s, tails) && Settled(s.dev)
    ensures FirmRows(g, DramDriver.Run(g, s), tails)
  {
    hide BankRowOk, OnBank, Doomed, RowsRight, ScanFrom, Topology.Valid, Firm, Plain;
    var s1 := s.(rowBus := ReleaseBus(s.rowBus), colBus := ReleaseBus(s.colBus));
    assert RowsOk(g, s1, tails);
    ScanFirm(g, s1, tails, 0, ActCounts(s1));
  }

  // ---------------------------------------------------------------- the pipeline

  ghost predicate PipeFirm(u: Setup, P: Pipe) { PipeOk(u, P) && FirmRows(u.g, P.drv, Tails(P)) }

  lemma PackageFirm(bank: Bank, inQ: seq<Cmd>, tail: Tail, pkg: seq<Cmd>, conv': Option<nat>)
    requires Firm(bank, inQ, tail) && PackageOk(tail.conv, pkg, conv')
    ensures Firm(bank, inQ, Tail(tail.cmds + pkg, conv'))
  {
    if inQ == [] && tail.cmds == [] && pkg != [] && RowOf(bank).Closed? {
      assert Matches(Closed, tail.conv);
      assert RunRow(Closed, pkg).Some?;
    } else if pkg == [] {
      assert tail.cmds + pkg == tail.cmds;
      assert Matches(RowOf(bank), tail.conv) ==> Matches(RunRow(RowOf(bank), pkg).value, conv');
    }
  }

  lemma NumberedPlain(t: Txn, pol: Policy, v: View, n: nat)
    ensures Plain(Numbered(t, PackageKinds(pol, v, t), n))
  {
    var kinds := PackageKinds(pol, v, t);
    assert forall i :: 0 <= i < |kinds| ==> !kinds[i].REF?;
  }

  lemma ConvertOneFirm(u: Setup, P: Pipe, t: Txn)
    requires PipeFirm(u, P) && t.bank < u.g.t.Banks() && Tokens(u.cap, |P.cmdQ[t.bank]|) >= 3
    ensures PipeFirm(u, ConvertOne(u, P, t))
  {
    hide Topology.Valid, Safe, StreamOk, ConvertOne, Doomable, Doomed, RowsRight, BankRowOk, OnBank, Numbered, PackageKinds, PackageOk, Firm, Plain;
    var P' := ConvertOne(u, P, t);
    ConvertOneOk(u, P, t);
    ConvertStream(u, P, t);
    ConvertElse(u, P, t);
    var pkg := Numbered(t, PackageKinds(u.policy, P.view[t.bank], t), P.nextSeq);
    NumberedPlain(t, u.policy, P.view[t.bank], P.nextSeq);
    forall b | 0 <= b < u.g.t.Banks()
      ensures Firm(P.drv.dev.banks[b], OnBank(P.drv.inputQ, b), Tails(P')[b]) && Plain(Tails(P')[b].cmds)
    {
      assert Firm(P.drv.dev.banks[b], OnBank(P.drv.inputQ, b), Tails(P)[b]) && Plain(Tails(P)[b].cmds);
      if b == t.bank {
        PackageFirm(P.drv.dev.banks[b], OnBank(P.drv.inputQ, b), Tails(P)[b], pkg, P'.view[b].Conv());
        PlainAppend(P.cmdQ[b], pkg);
      }
    }
  }

  lemma PlainAppend(q: seq<Cmd>, r: seq<Cmd>)
    requires Plain(q) && Plain(r)
    ensures Plain(q + r)
  {}

  lemma {:induction false} ConvertFirm(u: Setup, P: Pipe, todo: seq<Txn>)
    requires PipeFirm(u, P) && forall i :: 0 <= i < |todo| ==> todo[i].bank < |P.cmdQ|
    ensures PipeFirm(u, Convert(u, P, todo))
    decreases |todo|
  {
    hide Shaped, Safe, RowsOk, StreamOk, ConvertOne, Firm, Plain;
    if todo != [] {
      if Tokens(u.cap, |P.cmdQ[todo[0].bank]|) >= 3 {
        ConvertOneFirm(u, P, todo[0]);
        ConvertElse(u, P, todo[0]);
        ConvertFirm(u, ConvertOne(u, P, todo[0]), todo[1..]);
      } else {
        var P' := P.(waiting := P.waiting + [todo[0]]);
        StreamsSame(u, P, P');
        assert Tails(P') == Tails(P);
        ConvertFirm(u, P', todo[1..]);
      }
    }
  }

  lemma ConvertPhaseFirm(u: Setup, P: Pipe, txns: seq<Txn>)
    requires PipeFirm(u, P) && forall i :: 0 <= i < |txns| ==> txns[i].bank < u.g.t.Banks()
    ensures PipeFirm(u, ConvertPhase(u, P, txns)) && ConvertPhase(u, P, txns).drv == P.drv
  {
    hide Shaped, Safe, RowsOk, StreamOk, Convert, Firm, Plain;
    var P1 := P.(waiting := []);
    StreamsSame(u, P, P1);
    assert Tails(P1) == Tails(P);
    ConvertFirm(u, P1, P.waiting + txns);
    ConvertPhaseOk(u, P, txns);
    ConvertFormed(u, P1, P.waiting + txns);
    assert Tails(ConvertPhase(u, P, txns)) == Tails(Convert(u, P1, P.waiting + txns));
  }

  // A visit changes nothing, or moves the head of the queue on: no reactivation is asked for.
  ghost predicate Moves(P: Pipe, P': Pipe, b: nat) {
    && b < |P.cmdQ| && P.cmdQ[b] != [] && P'.cmdQ == P.cmdQ[b := P.cmdQ[b][1..]]
    && P'.drv.inputQ == P.drv.inputQ + [P.cmdQ[b][0]]
  }

  lemma NoReactivation(g: Config, s: Driver, tails: seq<Tail>, c: Cmd)
    requires FirmRows(g, s, tails) && Settled(s.dev) && c.bank < g.t.Banks()
    requires tails[c.bank].cmds != [] && tails[c.bank].cmds[0] == c
    ensures CmdAllowed(g, s, c) == (s, BusFree(s, g.t.BusOf(c.bank), c.kind) && CanSend(s.dev, c))
  {
    hide Topology.Valid, BankOk, OnBank, RowsRight, RefQOk, Plain;
    var b := c.bank;
    BankPlace(g.t, b);
    if c.kind.IsCol() && Precharged(s.dev.banks[b]) && !HasAct(s.inputQ, b) {
      var inQ := OnBank(s.inputQ, b);
      assert BankRowOk(s.dev.banks[b], inQ, tails[b]) && Firm(s.dev.banks[b], inQ, tails[b]);
      assert RowOf(s.dev.banks[b]) == Closed;
      HasActOnBank(s.inputQ, b);
      RunRowAppend(Closed, inQ, tails[b].cmds);
      StaysClosed(inQ);
      assert false;
    }
  }

  // The head of the bank's queue may go to the driver now.
  predicate Sendable(u: Setup, P: Pipe, b: nat) {
    && b < |P.cmdQ| && P.cmdQ[b] != [] && |P.drv.inputQ| < QUEUE_LIMIT && CanSend(P.drv.dev, P.cmdQ[b][0])
    && BusFree(P.drv, u.g.t.BusOf(b), P.cmdQ[b][0].kind)
  }

  lemma VisitFirm(u: Setup, P: Pipe, b: nat)
    requires PipeFirm(u, P) && Settled(P.drv.dev)
    ensures var P' := Visit(u, P, b);
            && PipeFirm(u, P') && Settled(P'.drv.dev) && P'.drv.dev == P.drv.dev && P'.waiting == P.waiting
            && (P' == P || Moves(P, P', b))
            && (Sendable(u, P, b) ==> Moves(P, P', b))
  {
    hide Shaped, Safe, RowsOk, StreamOk, CmdAllowed, Settled, Flow, Plain, Firm, OnBank, CanSend, BusFree;
    var P' := Visit(u, P, b);
    VisitOk(u, P, b);
    if b < |P.cmdQ| && P.cmdQ[b] != [] {
      var c := P.cmdQ[b][0];
      HeadOfBank(u, P, b);
      NoReactivation(u.g, P.drv, Tails(P), c);
      if P' != P {
        ShapedValid(u.g, P.drv);
        BankPlace(u.g.t, b);
        forall x | 0 <= x < u.g.t.Banks()
          ensures Firm(P'.drv.dev.banks[x], OnBank(P'.drv.inputQ, x), Tails(P')[x]) && Plain(Tails(P')[x].cmds)
        {
          MoveFirm(u, P, P', b, x);
        }
        PlainParts(P.drv.inputQ, P.cmdQ[b]);
      }
    }
  }

  lemma ShapedValid(g: Config, s: Driver)
    requires Shaped(g, s)
    ensures g.t.Valid() && |s.dev.banks| == g.t.Banks()
  {}

  lemma PlainParts(q: seq<Cmd>, r: seq<Cmd>)
    requires Plain(q) && Plain(r) && r != []
    ensures Plain(q + [r[0]]) && Plain(r[1..])
  {}

  lemma MoveFirm(u: Setup, P: Pipe, P': Pipe, b: nat, x: nat)
    requires PipeFirm(u, P) && Moves(P, P', b) && P'.drv.dev == P.drv.dev && P'.view == P.view && b < u.g.t.Banks() && x < u.g.t.Banks()
    requires P.cmdQ[b][0].bank == b && |P'.view| == |P'.cmdQ| && x < |P.drv.dev.banks|
    ensures Firm(P'.drv.dev.banks[x], OnBank(P'.drv.inputQ, x), Tails(P')[x]) && Plain(Tails(P')[x].cmds)
  {
    hide Shaped, Safe, StreamOk, Doomed, Doomable, RowsRight, OnBank, BankOk, Plain;
    var c := P.cmdQ[b][0];
    OnBankAppend(P.drv.inputQ, [c], x);
    OnBankOne(c, x);
    var inQ, tail := OnBank(P.drv.inputQ, x), Tails(P)[x];
    assert BankRowOk(P.drv.dev.banks[x], inQ, tail) && Firm(P.drv.dev.banks[x], inQ, tail) && Plain(tail.cmds);
    if x == b {
      FirstIsLegal(P.drv.dev.banks[x], inQ, tail);
      PlainParts([], tail.cmds) by { assert Plain([]) by { NothingPlain(); } }
    } else {
      assert inQ + [] == inQ;
    }
  }

  lemma NothingPlain()
    ensures Plain([])
  {}
}
