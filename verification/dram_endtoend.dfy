// End-to-end results of the controller pipeline over whole runs.
module DramEndToEnd {
  import opened Common
  import opened DramTypes
  import opened DramBank
  import opened DramDevice
  import opened DramTiming
  import opened DramDriver
  import opened DramFaw
  import opened DramSafety
  import opened DramRows
  import opened DramRowRun
  import opened DramRowScan
  import opened DramFlow
  import opened DramPipeline

  // ---------------------------------------------------------------- the converter

  // Converting a transaction for a queue with three free entries: the pushes succeed, and
  // the stream automaton follows the converter's view.
  lemma ConvertStream(u: Setup, P: Pipe, t: Txn)
    requires Formed(u, P) && t.bank < u.g.t.Banks() && StreamOk(u, P, t.bank)
    requires Tokens(u.cap, |P.cmdQ[t.bank]|) >= 3
    ensures var P' := ConvertOne(u, P, t);
            var pkg := Numbered(t, PackageKinds(u.policy, P.view[t.bank], t), P.nextSeq);
            && StreamOk(u, P', t.bank) && P'.pushFailed == P.pushFailed
            && P'.cmdQ[t.bank] == P.cmdQ[t.bank] + pkg && pkg != []
            && PackageOk(P.view[t.bank].Conv(), pkg, P'.view[t.bank].Conv())
  {
    hide Shaped, Flow, Cols, PackageKinds, Updated, RunRow, PushAll, Matches, Numbered;
    var b := t.bank;
    var pkg := Numbered(t, PackageKinds(u.policy, P.view[b], t), P.nextSeq);
    PackageFits(u.policy, P.view[b], t);
    PackageRuns(u.policy, P.view[b], t, P.nextSeq);
    TokensFree(u.cap, |P.cmdQ[b]|);
    PushAllFits(P.cmdQ[b], pkg, u.cap);
    RunRowAppend(Closed, P.emitted[b], pkg);
    ColsAppend(P.emitted[b], pkg);
    ColsAppend(P.cmdQ[b], pkg);
    assert Flow(P.drv, b) + (Cols(P.cmdQ[b]) + Cols(pkg)) == Flow(P.drv, b) + Cols(P.cmdQ[b]) + Cols(pkg);
  }

  lemma TokensFree(cap: nat, n: nat)
    requires n <= cap && Tokens(cap, n) >= 3
    ensures n + 3 <= cap
  {}

  lemma ConvertOneOk(u: Setup, P: Pipe, t: Txn)
    requires PipeOk(u, P) && t.bank < u.g.t.Banks() && Tokens(u.cap, |P.cmdQ[t.bank]|) >= 3
    ensures PipeOk(u, ConvertOne(u, P, t))
  {
    hide Topology.Valid, Safe, StreamOk, ConvertOne, Doomable, Doomed, RowsRight, BankOk, RowOk, RowOf, OnBank, Numbered, PackageKinds, PackageOk;
    var P' := ConvertOne(u, P, t);
    ConvertStream(u, P, t);
    ConvertElse(u, P, t);
    var pkg := Numbered(t, PackageKinds(u.policy, P.view[t.bank], t), P.nextSeq);
    var tails := Tails(P);
    var tails' := Tails(P');
    forall b | 0 <= b < u.g.t.Banks()
      ensures BankRowOk(P.drv.dev.banks[b], OnBank(P.drv.inputQ, b), tails'[b])
    {
      assert BankRowOk(P.drv.dev.banks[b], OnBank(P.drv.inputQ, b), tails[b]);
      if b == t.bank {
        RowConverted(RowOf(P.drv.dev.banks[b]), OnBank(P.drv.inputQ, b), P.cmdQ[b], P.view[b].Conv(), pkg, P'.view[b].Conv());
      }
    }
    forall b | 0 <= b < |P'.cmdQ| ensures StreamOk(u, P', b) {
      if b != t.bank { ConvertElse(u, P, t); StreamElse(u, P, P', b); }
    }
    assert Shaped(u.g, P.drv);
  }

  lemma ConvertElse(u: Setup, P: Pipe, t: Txn)
    requires Formed(u, P) && t.bank < u.g.t.Banks()
    ensures var P' := ConvertOne(u, P, t);
            && Formed(u, P') && P'.drv == P.drv
            && forall b :: 0 <= b < |P.cmdQ| && b != t.bank ==>
                 P'.cmdQ[b] == P.cmdQ[b] && P'.view[b] == P.view[b] && P'.emitted[b] == P.emitted[b]
  {
    hide Shaped, PackageKinds, Updated, Numbered, PushAll;
  }

  lemma StreamElse(u: Setup, P: Pipe, P': Pipe, b: nat)
    requires b < |P.cmdQ| == |P.view| == |P.emitted| && b < |P'.cmdQ| == |P'.view| == |P'.emitted| && StreamOk(u, P, b)
    requires P'.cmdQ[b] == P.cmdQ[b] && P'.view[b] == P.view[b] && P'.emitted[b] == P.emitted[b]
    requires Flow(P'.drv, b) == Flow(P.drv, b)
    ensures StreamOk(u, P', b)
  {}

  lemma {:induction false} ConvertOk(u: Setup, P: Pipe, todo: seq<Txn>)
    requires PipeOk(u, P) && forall i :: 0 <= i < |todo| ==> todo[i].bank < |P.cmdQ|
    ensures PipeOk(u, Convert(u, P, todo))
    decreases |todo|
  {
    hide Shaped, Safe, RowsOk, StreamOk, ConvertOne;
    if todo != [] {
      if Tokens(u.cap, |P.cmdQ[todo[0].bank]|) >= 3 {
        ConvertOneOk(u, P, todo[0]);
        ConvertElse(u, P, todo[0]);
        ConvertOk(u, ConvertOne(u, P, todo[0]), todo[1..]);
      } else {
        var P' := P.(waiting := P.waiting + [todo[0]]);
        StreamsSame(u, P, P');
        ConvertOk(u, P', todo[1..]);
      }
    }
  }

  lemma StreamsSame(u: Setup, P: Pipe, P': Pipe)
    requires Formed(u, P) && Formed(u, P') && P'.cmdQ == P.cmdQ && P'.view == P.view && P'.emitted == P.emitted
    requires SameFlow(P.drv, P'.drv) && forall b :: 0 <= b < |P.cmdQ| ==> StreamOk(u, P, b)
    ensures forall b :: 0 <= b < |P'.cmdQ| ==> StreamOk(u, P', b)
  {
    hide StreamOk, Shaped, Flow;
    forall b | 0 <= b < |P'.cmdQ| ensures StreamOk(u, P', b) { StreamElse(u, P, P', b); }
  }

  lemma ConvertPhaseOk(u: Setup, P: Pipe, txns: seq<Txn>)
    requires PipeOk(u, P) && forall i :: 0 <= i < |txns| ==> txns[i].bank < u.g.t.Banks()
    ensures PipeOk(u, ConvertPhase(u, P, txns)) && ConvertPhase(u, P, txns).drv == P.drv
  {
    hide Shaped, Safe, RowsOk, StreamOk, Convert;
    var P1 := P.(waiting := []);
    StreamsSame(u, P, P1);
    ConvertOk(u, P1, P.waiting + txns);
    ConvertFormed(u, P1, P.waiting + txns);
    var P2 := Convert(u, P1, P.waiting + txns);
    var P3 := ConvertPhase(u, P, txns);
    assert Tails(P3) == Tails(P2);
    forall b | 0 <= b < |P3.cmdQ| ensures StreamOk(u, P3, b) { AgedStream(u, P2, P3, b); }
  }

  lemma AgedStream(u: Setup, P: Pipe, P': Pipe, b: nat)
    requires b < |P.cmdQ| == |P.view| == |P.emitted| && |P'.view| == |P.view| && StreamOk(u, P, b)
    requires P' == P.(view := P'.view) && P'.view[b] == Aged(u.policy, P.view[b])
    ensures StreamOk(u, P', b)
  {
    hide Flow, RunRow, Cols;
  }

  // ---------------------------------------------------------------- the command scheduler

  lemma VisitOk(u: Setup, P: Pipe, b: nat)
    requires PipeOk(u, P) && Settled(P.drv.dev)
    ensures PipeOk(u, Visit(u, P, b)) && Settled(Visit(u, P, b).drv.dev) && Visit(u, P, b).drv.dev == P.drv.dev
  {
    hide Shaped, Safe, RowsOk, StreamOk, CmdAllowed, PushCmd, Settled, SameFlow, Flow;
    var P' := Visit(u, P, b);
    if b < |P.cmdQ| && P.cmdQ[b] != [] {
      HeadOfBank(u, P, b);
      var c := P.cmdQ[b][0];
      var (d1, ok) := CmdAllowed(u.g, P.drv, c);
      var tails := Tails(P);
      CmdAllowedRows(u.g, P.drv, tails, c);
      AskFlow(u.g, P.drv, c);
      PushFlow(u.g, P.drv, c);
      AskKeepsDevice(u.g, P.drv, c);
      if ActParams(u.g.p) { SafeCalls(u.g, P.drv, c); }
      if !ok {
        StreamsSame(u, P, P');
        assert Tails(P') == tails;
      } else {
        PushRows(u.g, P.drv, tails, c);
        var (d2, pushed) := PushCmd(u.g, P.drv, c);
        assert Tails(P') == if pushed then tails[b := tails[b].(cmds := tails[b].cmds[1..])] else tails;
        forall x | 0 <= x < |P'.cmdQ| ensures StreamOk(u, P', x) {
          if x == b && pushed { StreamForward(u, P, P', b); } else { StreamElse(u, P, P', x); }
        }
      }
    }
  }

  lemma AskKeepsDevice(g: Config, s: Driver, c: Cmd)
    requires Shaped(g, s) && c.bank < g.t.Banks()
    ensures CmdAllowed(g, s, c).0.dev == s.dev == PushCmd(g, s, c).0.dev
  {
    hide Topology.Valid, DramDevice.Fits, QueueOk, RefQOk, BusFree, HasAct;
  }

  lemma UpdateAdvances(g: Config, s: Driver)
    requires Shaped(g, s)
    ensures Update(g, s).dev.now == s.dev.now + 1
  {
    hide Topology.Valid, DramDevice.Fits, QueueOk, RefQOk, Tick;
  }

  lemma HeadOfBank(u: Setup, P: Pipe, b: nat)
    requires PipeOk(u, P) && b < |P.cmdQ| && P.cmdQ[b] != []
    ensures P.cmdQ[b][0].bank == b && b < u.g.t.Banks() && Shaped(u.g, P.drv)
  {
    hide Shaped, Safe, RowsOk;
    assert StreamOk(u, P, b);
  }

  // The head of the bank's queue has moved into the driver.
  lemma StreamForward(u: Setup, P: Pipe, P': Pipe, b: nat)
    requires b < |P.cmdQ| == |P.view| == |P.emitted| && P.cmdQ[b] != [] && StreamOk(u, P, b)
    requires b < |P'.cmdQ| == |P'.view| == |P'.emitted|
    requires P'.cmdQ[b] == P.cmdQ[b][1..] && P'.view[b] == P.view[b] && P'.emitted[b] == P.emitted[b]
    requires Flow(P'.drv, b) == Flow(P.drv, b) + (if P.cmdQ[b][0].kind.IsCol() then [P.cmdQ[b][0]] else [])
    ensures StreamOk(u, P', b)
  {
    hide Flow, RunRow;
    assert Flow(P'.drv, b) + Cols(P.cmdQ[b][1..]) == Flow(P.drv, b) + Cols(P.cmdQ[b]);
  }

  lemma {:induction false} VisitAllOk(u: Setup, P: Pipe, order: seq<nat>)
    requires PipeOk(u, P) && Settled(P.drv.dev)
    ensures PipeOk(u, VisitAll(u, P, order)) && VisitAll(u, P, order).drv.dev == P.drv.dev
    decreases |order|
  {
    hide Safe, RowsOk, StreamOk, Visit, Settled;
    if order != [] {
      VisitOk(u, P, order[0]);
      VisitAllOk(u, Visit(u, P, order[0]), order[1..]);
    }
  }

  // ---------------------------------------------------------------- whole runs

  lemma PipeTickOk(u: Setup, P: Pipe, x: Input)
    requires PipeOk(u, P) && InputOk(u, x)
    ensures PipeOk(u, PipeTick(u, P, x))
  {
    hide Shaped, Safe, RowsOk, StreamOk, Settled, Update, DramDriver.Run, SameFlow, VisitAll, Convert;
    var P1 := P.(drv := Update(u.g, P.drv));
    UpdateRows(u.g, P.drv, Tails(P));
    UpdateFlow(u.g, P.drv);
    if ActParams(u.g.p) { SafeUpdate(u.g, P.drv); }
    StreamsSame(u, P, P1);
    assert Tails(P1) == Tails(P);
    ConvertPhaseOk(u, P1, x.txns);
    var P2 := VisitAll(u, ConvertPhase(u, P1, x.txns), x.order);
    UpdateAdvances(u.g, P.drv);
    PipePhases(u, P1, x, P2);
  }

  lemma PipePhases(u: Setup, P1: Pipe, x: Input, P2: Pipe)
    requires PipeOk(u, P1) && InputOk(u, x) && Settled(P1.drv.dev) && P1.drv.dev.now > 0
    requires P2 == VisitAll(u, ConvertPhase(u, P1, x.txns), x.order)
    ensures PipeOk(u, P2.(drv := DramDriver.Run(u.g, P2.drv)))
  {
    hide Shaped, Safe, RowsOk, StreamOk, Settled, DramDriver.Run, SameFlow, VisitAll, ConvertPhase;
    ConvertPhaseOk(u, P1, x.txns);
    VisitAllOk(u, ConvertPhase(u, P1, x.txns), x.order);
    var P3 := P2.(drv := DramDriver.Run(u.g, P2.drv));
    VisitAllSettled(u, ConvertPhase(u, P1, x.txns), x.order);
    RunRows(u.g, P2.drv, Tails(P2));
    RunFlow(u.g, P2.drv);
    if ActParams(u.g.p) { SafeRun(u.g, P2.drv); }
    assert Tails(P3) == Tails(P2);
    assert Shaped(u.g, P3.drv);
    StreamsSame(u, P2, P3);
  }

  lemma {:induction false} VisitAllSettled(u: Setup, P: Pipe, order: seq<nat>)
    requires PipeOk(u, P) && Settled(P.drv.dev)
    ensures Settled(VisitAll(u, P, order).drv.dev)
    decreases |order|
  {
    hide Safe, RowsOk, StreamOk, Visit, Settled;
    if order != [] {
      VisitOk(u, P, order[0]);
      VisitAllSettled(u, Visit(u, P, order[0]), order[1..]);
    }
  }

  lemma PipeInitialOk(u: Setup)
    requires u.g.t.Valid() && u.g.p.nFAW > 0
    ensures PipeOk(u, InitialPipe(u))
  {
    hide Shaped, Safe, RowsOk, Topology.Valid;
    InitialShaped(u.g);
    InitialRows(u.g);
    if ActParams(u.g.p) { SafeInitial(u.g); }
    var P := InitialPipe(u);
    assert Tails(P) == seq(u.g.t.Banks(), i => Tail([], None));
  }

  ghost predicate Inputs(u: Setup, xs: seq<Input>) {
    forall i :: 0 <= i < |xs| ==> InputOk(u, xs[i])
  }

  // The pipeline after the given clocks.
  ghost function PipeRun(u: Setup, xs: seq<Input>): (P: Pipe)
    requires u.g.t.Valid() && u.g.p.nFAW > 0 && Inputs(u, xs)
    ensures PipeOk(u, P)
  {
    if |xs| == 0 then
      PipeInitialOk(u);
      InitialPipe(u)
    else
      var P := PipeRun(u, xs[..|xs| - 1]);
      PipeTickOk(u, P, xs[|xs| - 1]);
      PipeTick(u, P, xs[|xs| - 1])
  }

  // Main result: in every run, for every bank policy, refresh setting, transaction stream
  // and visiting order, each accepted column command finds its row open; no bank reaches
  // the fatal branch of its read or write state; per bank the commands generated form a
  // legal stream agreeing with the converter's record, and their column commands are
  // performed in order, each exactly once, the rest still being queued; no push fails.
  lemma EveryPipelineRun(u: Setup, xs: seq<Input>, b: nat)
    requires u.g.t.Valid() && u.g.p.nFAW > 0 && Inputs(u, xs) && b < u.g.t.Banks()
    ensures var P := PipeRun(u, xs);
            && (forall e :: e in P.drv.dev.trace && e.cmd.kind.IsCol() ==> e.rowOpen && e.openRow == e.cmd.row)
            && !TickFatal(P.drv.dev.banks[b])
            && (RunRow(Closed, P.emitted[b]).Some? && Matches(RunRow(Closed, P.emitted[b]).value, P.view[b].Conv()))
            && Cols(P.emitted[b]) == Performed(P.drv.dev.trace, b) + Cols(OnBank(P.drv.inputQ, b)) + Cols(P.cmdQ[b])
            && |P.cmdQ[b]| <= u.cap && !P.pushFailed
            && (ActParams(u.g.p) ==>
                  && Windows(u.g, P.drv.dev, u.g.t.RankOf(b)) && OnePerCycle(u.g, P.drv.dev, u.g.t.RankOf(b)) && !P.drv.actClash
                  && (NoAuto(P.drv.dev.trace) ==> Spaced(u.g.p, u.g.t, P.drv.dev.trace))
                  && (NoAuto(P.drv.dev.trace) && BusParams(u.g.p) ==> !P.drv.dataClash))
  {
    hide Topology.Valid, RunRow, Matches, Cols, Performed, OnBank, RowOk, RowOf, Tick, Windows, OnePerCycle, Spaced, NoAuto, Timed, Bounded,
         BusParams, Tracks, ActBlocked;
    var P := PipeRun(u, xs);
    assert StreamOk(u, P, b);
    assert BankRowOk(P.drv.dev.banks[b], OnBank(P.drv.inputQ, b), Tails(P)[b]);
    TickRow(u.g.p, P.drv.dev.banks[b], P.drv.dev.now + 1);
    BankPlace(u.g.t, b);
    var r := u.g.t.RankOf(b);
    if ActParams(u.g.p) {
      assert RankFaw(u.g, P.drv.dev, r, P.drv.faw[r], P.drv.actIssued[r]);
    }
  }

  // ---------------------------------------------------------------- an empty converter

  // What the transaction scheduler passes on in one clock: transactions for different
  // banks, each with three free entries in its queue.
  ghost predicate Fitting(u: Setup, P: Pipe, txns: seq<Txn>) {
    && (forall i :: 0 <= i < |txns| ==> txns[i].bank < |P.cmdQ| && Tokens(u.cap, |P.cmdQ[txns[i].bank]|) >= 3)
    && (forall i, j :: 0 <= i < j < |txns| ==> txns[i].bank != txns[j].bank)
  }

  // Of such transactions the converter keeps none back.
  lemma {:induction false} ConverterDrains(u: Setup, P: Pipe, todo: seq<Txn>)
    requires Formed(u, P) && Fitting(u, P, todo)
    ensures Convert(u, P, todo).waiting == P.waiting
    decreases |todo|
  {
    hide Shaped, ConvertOne;
    if todo != [] {
      ConvertElse(u, P, todo[0]);
      assert ConvertOne(u, P, todo[0]).waiting == P.waiting by { ConvertWaits(u, P, todo[0]); }
      ConverterDrains(u, ConvertOne(u, P, todo[0]), todo[1..]);
    }
  }

  lemma ConvertWaits(u: Setup, P: Pipe, t: Txn)
    requires Formed(u, P) && t.bank < u.g.t.Banks()
    ensures ConvertOne(u, P, t).waiting == P.waiting
  {
    hide Shaped, PackageKinds, Updated, Numbered, PushAll;
  }

  lemma {:induction false} VisitAllWaits(u: Setup, P: Pipe, order: seq<nat>)
    requires Shaped(u.g, P.drv)
    ensures VisitAll(u, P, order).waiting == P.waiting
    decreases |order|
  {
    hide Shaped, CmdAllowed, PushCmd;
    if order != [] { VisitAllWaits(u, Visit(u, P, order[0]), order[1..]); }
  }

  lemma TickDrains(u: Setup, P: Pipe, x: Input)
    requires Formed(u, P) && InputOk(u, x) && Fitting(u, P, x.txns) && P.waiting == []
    ensures PipeTick(u, P, x).waiting == []
  {
    hide Shaped, Convert, Update, DramDriver.Run, Fitting;
    var P1 := P.(drv := Update(u.g, P.drv));
    assert Fitting(u, P1, x.txns) by { FitsSame(u, P, P1, x.txns); }
    assert P1.(waiting := []) == P1 && P.waiting + x.txns == x.txns;
    ConverterDrains(u, P1, x.txns);
    VisitAllWaits(u, ConvertPhase(u, P1, x.txns), x.order);
  }

  lemma FitsSame(u: Setup, P: Pipe, P': Pipe, txns: seq<Txn>)
    requires Fitting(u, P, txns) && P'.cmdQ == P.cmdQ
    ensures Fitting(u, P', txns)
  {}

  // Every clock's transactions fit the state they are given in.
  ghost predicate FittingRun(u: Setup, xs: seq<Input>)
    requires u.g.t.Valid() && u.g.p.nFAW > 0 && Inputs(u, xs)
  {
    forall i :: 0 <= i < |xs| ==> Fitting(u, PipeRun(u, xs[..i]), xs[i].txns)
  }

  // One more clock of such a run.
  lemma FittingAppend(u: Setup, xs: seq<Input>, x: Input)
    requires u.g.t.Valid() && u.g.p.nFAW > 0 && Inputs(u, xs) && FittingRun(u, xs)
    requires InputOk(u, x) && Fitting(u, PipeRun(u, xs), x.txns)
    ensures Inputs(u, xs + [x]) && FittingRun(u, xs + [x]) && Formed(u, PipeRun(u, xs))
    ensures PipeRun(u, xs + [x]) == PipeTick(u, PipeRun(u, xs), x)
  {
    hide Topology.Valid, Fitting, InputOk, Shaped, RowsOk, StreamOk, PipeTick;
    var all := xs + [x];
    assert all[..|all| - 1] == xs && all[..|xs|] == xs;
    forall i | 0 <= i < |all| ensures Fitting(u, PipeRun(u, all[..i]), all[i].txns) {
      if i < |xs| { assert all[..i] == xs[..i]; }
    }
  }

  // In every such run the converter is empty after every clock, as it asserts.
  lemma {:induction false} EveryRunDrains(u: Setup, xs: seq<Input>)
    requires u.g.t.Valid() && u.g.p.nFAW > 0 && Inputs(u, xs) && FittingRun(u, xs)
    ensures PipeRun(u, xs).waiting == []
  {
    hide Topology.Valid, Fitting, Shaped, RowsOk, StreamOk, PipeTick;
    if |xs| > 0 {
      var before := xs[..|xs| - 1];
      assert FittingRun(u, before) by {
        forall i | 0 <= i < |before| ensures Fitting(u, PipeRun(u, before[..i]), before[i].txns) {
          assert before[..i] == xs[..i];
        }
      }
      EveryRunDrains(u, before);
      TickDrains(u, PipeRun(u, before), xs[|xs| - 1]);
    }
  }
}
