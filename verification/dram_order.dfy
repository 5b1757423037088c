// End to end, bank by bank: the transactions given to the pipeline are performed exactly
// once and in the order given, or still on their way in that order.
module DramOrder {
  import opened Common
  import opened DramTypes
  import opened DramDevice
  import opened DramDriver
  import opened DramRows
  import opened DramRowRun
  import opened DramFlow
  import opened DramPipeline
  import opened DramEndToEnd

  // What a column command does for its transaction.
  datatype Transfer = Transfer(write: bool, addr: nat, row: nat)

  function Transfers(q: seq<Cmd>): (r: seq<Transfer>)
    ensures |r| == |q|
  {
    seq(|q|, i requires 0 <= i < |q| => Transfer(q[i].kind.WRITE? || q[i].kind.WRITEA?, q[i].addr, q[i].row))
  }

  // The transactions of a list that go to bank b.
  function Wanted(q: seq<Txn>, b: nat): seq<Transfer> {
    if q == [] then []
    else (if q[0].bank == b then [Transfer(q[0].write, q[0].addr, q[0].row)] else []) + Wanted(q[1..], b)
  }

  // All that has been given to the pipeline for bank b.
  function Given(xs: seq<Input>, b: nat): seq<Transfer> {
    if xs == [] then [] else Given(xs[..|xs| - 1], b) + Wanted(xs[|xs| - 1].txns, b)
  }

  lemma {:induction false} WantedAppend(p: seq<Txn>, q: seq<Txn>, b: nat)
    ensures Wanted(p + q, b) == Wanted(p, b) + Wanted(q, b)
  {
    if p == [] {
      assert p + q == q;
    } else {
      assert (p + q)[1..] == p[1..] + q;
      WantedAppend(p[1..], q, b);
      var first := if p[0].bank == b then [Transfer(p[0].write, p[0].addr, p[0].row)] else [];
      assert Wanted(p + q, b) == first + (Wanted(p[1..], b) + Wanted(q, b));
    }
  }

  // A package holds one column command, and it is the transaction's transfer.
  lemma PackageTransfer(pol: Policy, v: View, t: Txn, n: nat)
    ensures Transfers(Cols(Numbered(t, PackageKinds(pol, v, t), n))) == [Transfer(t.write, t.addr, t.row)]
  {
    hide Cols, Touched;
    var kinds := PackageKinds(pol, v, t);
    var pkg := Numbered(t, kinds, n);
    var k := if pol.ClosePage? then 1 else |Opening(v, t)|;
    assert k < |kinds| && kinds[k].IsCol() && forall i :: 0 <= i < |kinds| && i != k ==> !kinds[i].IsCol();
    OneCol(pkg, k);
  }

  lemma OneCol(q: seq<Cmd>, k: nat)
    requires k < |q| && q[k].kind.IsCol() && forall i :: 0 <= i < |q| && i != k ==> !q[i].kind.IsCol()
    ensures Cols(q) == [q[k]]
  {
    hide Cols;
    assert q == q[..k] + [q[k]] + q[k + 1..];
    ColsAppend(q[..k] + [q[k]], q[k + 1..]);
    ColsAppend(q[..k], [q[k]]);
    NoCols(q[..k]);
    NoCols(q[k + 1..]);
    JustOne(q[k]);
  }

  lemma JustOne(c: Cmd)
    requires c.kind.IsCol()
    ensures Cols([c]) == [c]
  {}

  lemma {:induction false} NoCols(q: seq<Cmd>)
    requires forall i :: 0 <= i < |q| ==> !q[i].kind.IsCol()
    ensures Cols(q) == []
  {
    if q != [] { NoCols(q[1..]); }
  }

  // Done and to be done by the converter, for one bank.
  function Stream(P: Pipe, b: nat): seq<Transfer>
    requires b < |P.emitted|
  {
    Transfers(Cols(P.emitted[b])) + Wanted(P.waiting, b)
  }

  // While a transaction of the bank waits, the bank's queue has no room, so none overtakes it.
  ghost predicate NoOvertaking(u: Setup, P: Pipe, b: nat)
    requires b < |P.cmdQ|
  {
    Wanted(P.waiting, b) != [] ==> Tokens(u.cap, |P.cmdQ[b]|) < 3
  }

  lemma ConvertOneStream(u: Setup, P: Pipe, t: Txn, b: nat)
    requires Formed(u, P) && t.bank < u.g.t.Banks() && b < u.g.t.Banks() && NoOvertaking(u, P, b)
    requires Tokens(u.cap, |P.cmdQ[t.bank]|) >= 3
    ensures var P' := ConvertOne(u, P, t);
            && Formed(u, P') && P'.waiting == P.waiting && NoOvertaking(u, P', b)
            && Stream(P', b) == Stream(P, b) + Wanted([t], b)
  {
    hide Shaped, PackageKinds, Updated, Numbered, PushAll, Tokens, Cols, Transfers;
    ConvertElse(u, P, t);
    ConvertWaits(u, P, t);
    WantedOne(t, b);
    if b == t.bank {
      var pkg := Numbered(t, PackageKinds(u.policy, P.view[b], t), P.nextSeq);
      PackageTransfer(u.policy, P.view[b], t, P.nextSeq);
      ColsAppend(P.emitted[b], pkg);
      TransfersAppend(Cols(P.emitted[b]), Cols(pkg));
      EmittedNext(u, P, t);
    } else {
      assert Stream(P, b) + [] == Stream(P, b);
    }
  }

  lemma WantedOne(t: Txn, b: nat)
    ensures Wanted([t], b) == if t.bank == b then [Transfer(t.write, t.addr, t.row)] else []
  {}

  lemma EmittedNext(u: Setup, P: Pipe, t: Txn)
    requires Formed(u, P) && t.bank < u.g.t.Banks()
    ensures ConvertOne(u, P, t).emitted[t.bank] == P.emitted[t.bank] + Numbered(t, PackageKinds(u.policy, P.view[t.bank], t), P.nextSeq)
  {
    hide Shaped, PackageKinds, Updated, Numbered, PushAll;
  }

  lemma TransfersAppend(p: seq<Cmd>, q: seq<Cmd>)
    ensures Transfers(p + q) == Transfers(p) + Transfers(q)
  {}

  lemma {:induction false} ConvertStreams(u: Setup, P: Pipe, todo: seq<Txn>, b: nat)
    requires Formed(u, P) && (forall i :: 0 <= i < |todo| ==> todo[i].bank < |P.cmdQ|) && b < |P.cmdQ| && NoOvertaking(u, P, b)
    ensures var P' := Convert(u, P, todo); b < |P'.emitted| && Stream(P', b) == Stream(P, b) + Wanted(todo, b)
    decreases |todo|
  {
    hide Shaped, ConvertOne, Tokens, Stream;
    ConvertFormed(u, P, todo);
    if todo == [] {
      assert Stream(P, b) + [] == Stream(P, b);
    } else {
      var t := todo[0];
      assert todo == [t] + todo[1..];
      WantedAppend([t], todo[1..], b);
      if Tokens(u.cap, |P.cmdQ[t.bank]|) >= 3 {
        ConvertOneStream(u, P, t, b);
        ConvertStreams(u, ConvertOne(u, P, t), todo[1..], b);
      } else {
        var P1 := P.(waiting := P.waiting + [t]);
        WantedAppend(P.waiting, [t], b);
        WaitStream(P, P1, t, b);
        WantedOne(t, b);
        assert Wanted(P.waiting, b) + [] == Wanted(P.waiting, b);
        ConvertStreams(u, P1, todo[1..], b);
      }
      assert (Stream(P, b) + Wanted([t], b)) + Wanted(todo[1..], b) == Stream(P, b) + (Wanted([t], b) + Wanted(todo[1..], b));
    }
  }

  lemma WaitStream(P: Pipe, P1: Pipe, t: Txn, b: nat)
    requires b < |P.emitted| && P1 == P.(waiting := P.waiting + [t])
    ensures Stream(P1, b) == Stream(P, b) + Wanted([t], b)
  {
    hide Wanted;
    WantedAppend(P.waiting, [t], b);
  }

  // One clock appends what it is given, and nothing else, to every bank's stream.
  lemma TickStream(u: Setup, P: Pipe, x: Input, b: nat)
    requires Formed(u, P) && InputOk(u, x) && b < u.g.t.Banks()
    ensures b < |PipeTick(u, P, x).emitted| && Stream(PipeTick(u, P, x), b) == Stream(P, b) + Wanted(x.txns, b)
  {
    hide Shaped, Convert, Update, DramDriver.Run, Cols, Transfers;
    var P1 := P.(drv := Update(u.g, P.drv), waiting := []);
    var todo := P.waiting + x.txns;
    assert Wanted([], b) == [];
    ConvertStreams(u, P1, todo, b);
    WantedAppend(P.waiting, x.txns, b);
    VisitKeepsStream(u, ConvertPhase(u, P.(drv := Update(u.g, P.drv)), x.txns), x.order);
    assert Stream(P1, b) == Transfers(Cols(P.emitted[b]));
  }

  lemma {:induction false} VisitKeepsStream(u: Setup, P: Pipe, order: seq<nat>)
    requires Shaped(u.g, P.drv)
    ensures VisitAll(u, P, order).emitted == P.emitted && VisitAll(u, P, order).waiting == P.waiting
    decreases |order|
  {
    hide Shaped, CmdAllowed, PushCmd;
    if order != [] { VisitKeepsStream(u, Visit(u, P, order[0]), order[1..]); }
  }

  lemma {:induction false} RunStream(u: Setup, xs: seq<Input>, b: nat)
    requires u.g.t.Valid() && u.g.p.nFAW > 0 && Inputs(u, xs) && b < u.g.t.Banks()
    ensures b < |PipeRun(u, xs).emitted| && Stream(PipeRun(u, xs), b) == Given(xs, b)
  {
    hide Shaped, RowsOk, PipeTick, Topology.Valid, StreamOk;
    if |xs| > 0 {
      RunStream(u, xs[..|xs| - 1], b);
      TickStream(u, PipeRun(u, xs[..|xs| - 1]), xs[|xs| - 1], b);
    }
  }

  // Main result: in every run, for every bank, the transfers performed by the device, then
  // those queued in the driver, then those queued in the scheduler, then the transactions
  // still with the converter are together exactly the transactions given for the bank, in
  // the order given: none is lost, doubled, altered or overtaken, refreshes included.
  lemma TransactionsInOrder(u: Setup, xs: seq<Input>, b: nat)
    requires u.g.t.Valid() && u.g.p.nFAW > 0 && Inputs(u, xs) && b < u.g.t.Banks()
    ensures var P := PipeRun(u, xs);
            Transfers(Performed(P.drv.dev.trace, b)) + Transfers(Cols(OnBank(P.drv.inputQ, b))) + Transfers(Cols(P.cmdQ[b]))
            + Wanted(P.waiting, b) == Given(xs, b)
  {
    hide Topology.Valid, RunRow, Matches, Cols, Performed, OnBank, Transfers, Wanted, PipeRun;
    RunStream(u, xs, b);
    EveryPipelineRun(u, xs, b);
    var P := PipeRun(u, xs);
    TransfersAppend(Performed(P.drv.dev.trace, b), Cols(OnBank(P.drv.inputQ, b)));
    TransfersAppend(Performed(P.drv.dev.trace, b) + Cols(OnBank(P.drv.inputQ, b)), Cols(P.cmdQ[b]));
  }
}
