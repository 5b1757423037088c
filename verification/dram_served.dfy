// End-to-end liveness without refresh: once no more requests arrive, every request the
// scheduler has taken is performed by the device, exactly if a command queue can hold the
// three commands of a package.
module DramServed {
  import opened Common
  import opened DramTypes
  import opened DramDriver
  import opened DramSafety
  import DramRows
  import opened DramRowRun
  import opened DramFlow
  import opened DramPipeline
  import opened DramEndToEnd
  import opened DramOrder
  import opened DramFirm
  import opened DramLive
  import opened DramSystem
  import T = TxnScheduling

  ghost predicate Steady(p: Plan, S: System) { SystemOk(p, S) && PipeFirm(p.u, S.pipe) }

  // ---------------------------------------------------------------- what the scheduler holds

  function Held(ch: T.Channel): nat { |ch.q| + |ch.w| }

  function HeldFrom(s: T.State, i: nat): nat
    decreases |s.channels| - i
  {
    if i >= |s.channels| then 0 else Held(s.channels[i]) + HeldFrom(s, i + 1)
  }

  lemma AllSize(ch: T.Channel)
    ensures |T.All(ch)| == Held(ch) + |ch.out|
  {}

  // What is passed on is no longer held.
  lemma {:induction false} PassedOnIsHeld(e: T.Env, s: T.State, s': T.State, i: nat)
    requires AllPassOne(e, s, s') && forall j :: 0 <= j < |s.channels| ==> T.All(s'.channels[j]) == T.All(s.channels[j])
    ensures HeldFrom(s', i) + |PassedOn(s, s', i)| == HeldFrom(s, i)
    decreases |s.channels| - i
  {
    hide T.All;
    if i < |s.channels| {
      assert T.PassesOne(e, s.channels[i], s'.channels[i]);
      AllSize(s.channels[i]);
      AllSize(s'.channels[i]);
      PassedOnIsHeld(e, s, s', i + 1);
    }
  }

  lemma {:induction false} SomethingHeld(s: T.State, i: nat) returns (j: nat)
    requires HeldFrom(s, i) > 0
    ensures i <= j < |s.channels| && Held(s.channels[j]) > 0
    decreases |s.channels| - i
  {
    if Held(s.channels[i]) > 0 { j := i; } else { j := SomethingHeld(s, i + 1); }
  }

  lemma {:induction false} NothingHeld(s: T.State, i: nat, j: nat)
    requires HeldFrom(s, i) == 0 && i <= j < |s.channels|
    ensures s.channels[j].q == [] && s.channels[j].w == []
    decreases |s.channels| - i
  {
    if i < j { NothingHeld(s, i + 1, j); }
  }

  // A channel that holds requests has an oldest one.
  lemma OldestThere(c: T.Config, ch: T.Channel, last: nat) returns (t: T.Req)
    requires T.Queued(c, ch, last) && Held(ch) > 0
    ensures T.Oldest(ch, t)
  {
    if ch.w == [] || (ch.q != [] && ch.q[0].seqNo <= ch.w[0].seqNo) { t := ch.q[0]; } else { t := ch.w[0]; }
  }

  // ---------------------------------------------------------------- work left

  // A package has at most three commands, and each passes two queues.
  function Total(S: System): nat { 7 * HeldFrom(S.sched, 0) + Work(S.pipe) }

  lemma {:induction false} LoadAdded(qs: seq<seq<Cmd>>, b: nat, pkg: seq<Cmd>)
    requires b < |qs|
    ensures Load(qs[b := qs[b] + pkg]) == Load(qs) + |pkg|
  {
    var qs' := qs[b := qs[b] + pkg];
    if b == 0 {
      assert qs'[1..] == qs[1..];
    } else {
      assert qs'[1..] == qs[1..][b - 1 := qs[1..][b - 1] + pkg];
      LoadAdded(qs[1..], b - 1, pkg);
    }
  }

  lemma {:induction false} ConvertLoad(u: Setup, P: Pipe, todo: seq<Txn>)
    requires PipeFirm(u, P) && Fitting(u, P, todo)
    ensures PipeFirm(u, Convert(u, P, todo)) && Load(Convert(u, P, todo).cmdQ) <= Load(P.cmdQ) + 3 * |todo|
    decreases |todo|
  {
    hide Shaped, Safe, RowsOk, StreamOk, FirmRows, ConvertOne, Tokens;
    if todo != [] {
      var t := todo[0];
      ConvertOneFirm(u, P, t);
      ConvertElse(u, P, t);
      ConvertOneLoad(u, P, t);
      ConvertLoad(u, ConvertOne(u, P, t), todo[1..]);
    }
  }

  lemma ConvertOneLoad(u: Setup, P: Pipe, t: Txn)
    requires PipeFirm(u, P) && t.bank < u.g.t.Banks() && Tokens(u.cap, |P.cmdQ[t.bank]|) >= 3
    ensures Load(ConvertOne(u, P, t).cmdQ) <= Load(P.cmdQ) + 3
  {
    hide Shaped, Safe, RowsOk, FirmRows, PackageKinds, Updated, Numbered, PushAll, Tokens, DramRows.RunRow, DramRows.Matches, Cols, Flow;
    var pkg := Numbered(t, PackageKinds(u.policy, P.view[t.bank], t), P.nextSeq);
    assert StreamOk(u, P, t.bank);
    ConvertStream(u, P, t);
    PackageFits(u.policy, P.view[t.bank], t);
    LoadAdded(P.cmdQ, t.bank, pkg);
    assert ConvertOne(u, P, t).cmdQ == P.cmdQ[t.bank := P.cmdQ[t.bank] + pkg];
  }

  // A clock of the pipeline with its transactions.
  lemma FedWork(u: Setup, P: Pipe, x: Input)
    requires PipeFirm(u, P) && P.waiting == [] && InputOk(u, x) && Fitting(u, P, x.txns)
    ensures Formed(u, P) && Work(PipeTick(u, P, x)) <= Work(P) + 6 * |x.txns|
  {
    hide Shaped, Safe, RowsOk, StreamOk, Settled, VisitAll, Convert, Update, FirmRows, DramDriver.Run, Fitting, Load;
    UpdatePipe(u, P);
    var P1 := P.(drv := Update(u.g, P.drv));
    FirmNoRefresh(u, P);
    UpdateKeepsQueue(u.g, P.drv);
    FitsSame(u, P, P1, x.txns);
    assert P1.(waiting := []) == P1 && P1.waiting + x.txns == x.txns;
    ConvertLoad(u, P1, x.txns);
    ConvertPhaseFirm(u, P1, x.txns);
    var C := ConvertPhase(u, P1, x.txns);
    VisitAllWork(u, C, x.order, 0);
    var V := VisitAll(u, C, x.order);
    FirmNoRefresh(u, V);
    RunWork(u.g, V.drv);
  }

  // ---------------------------------------------------------------- a clock without arrivals

  function NoOffers(order: seq<nat>): Clock { Clock([], order) }

  lemma FedQuiet(p: Plan, S: System, order: seq<nat>)
    requires Steady(p, S)
    ensures ClockOk(p, NoOffers(order))
    ensures var s' := Scheduled(p, S, NoOffers(order));
            && AllPassOne(Seen(p.u, S.pipe), S.sched, s')
            && (forall j :: 0 <= j < |S.sched.channels| ==> T.All(s'.channels[j]) == T.All(S.sched.channels[j]))
            && Fed(p, S, NoOffers(order)) == Input(Txns(PassedOn(S.sched, s', 0)), order)
  {
    hide PipeFirm, PipeOk, T.RunFrom, Routed, T.AllInOrder, T.All, T.PassesOne, Plan.Valid, Txns, PassedOn;
    var e := Seen(p.u, S.pipe);
    assert Offer(p, S.sched, []) == S.sched;
    ClockPasses(p, e, S.sched);
    forall j | 0 <= j < |S.sched.channels| ensures T.All(T.RunFrom(p.c, e, S.sched, 0).channels[j]) == T.All(S.sched.channels[j]) {
      T.ClockLosesNothing(p.c, e, S.sched, 0, j);
    }
  }

  lemma TickTotal(p: Plan, S: System, order: seq<nat>)
    requires Steady(p, S) && forall b: nat :: b < p.u.g.t.Banks() ==> b in order
    ensures ClockOk(p, NoOffers(order)) && Formed(p.u, S.pipe) && Quiet(p.u, Input([], order)) && InputOk(p.u, Input([], order))
    ensures var S' := Tick(p, S, NoOffers(order));
            && Steady(p, S') && Total(S') <= Total(S)
            && (HeldFrom(S'.sched, 0) < HeldFrom(S.sched, 0) ==> Total(S') < Total(S))
            && (HeldFrom(S'.sched, 0) == HeldFrom(S.sched, 0) ==> S'.pipe == PipeTick(p.u, S.pipe, Input([], order)))
            && HeldFrom(S'.sched, 0) <= HeldFrom(S.sched, 0)
  {
    hide PipeFirm, PipeOk, Routed, T.AllInOrder, T.All, Plan.Valid, PassedOn, Scheduled, PipeTick, HeldFrom, Work, AllPassOne, Fitting;
    FedQuiet(p, S, order);
    FedFits(p, S, NoOffers(order));
    var s' := Scheduled(p, S, NoOffers(order));
    PassedOnIsHeld(Seen(p.u, S.pipe), S.sched, s', 0);
    FedWork(p.u, S.pipe, Fed(p, S, NoOffers(order)));
    TickFirm(p.u, S.pipe, Fed(p, S, NoOffers(order)));
    TickWork(p.u, S.pipe, Input([], order));
    if |PassedOn(S.sched, s', 0)| == 0 { assert Txns(PassedOn(S.sched, s', 0)) == []; }
  }

  // ---------------------------------------------------------------- endless clocks without arrivals

  // Every order of visits leaves no bank out.
  ghost predicate Orders(p: Plan, o: nat -> seq<nat>) { forall i: nat, b: nat :: b < p.u.g.t.Banks() ==> b in o(i) }

  ghost function Later(p: Plan, S: System, o: nat -> seq<nat>, n: nat): (S': System)
    requires Steady(p, S) && Orders(p, o)
    ensures Steady(p, S') && Total(S') <= Total(S) && HeldFrom(S'.sched, 0) <= HeldFrom(S.sched, 0)
  {
    if n == 0 then S
    else
      var S1 := Later(p, S, o, n - 1);
      TickTotal(p, S1, o(n - 1));
      Tick(p, S1, NoOffers(o(n - 1)))
  }

  function NoTxns(o: nat -> seq<nat>): nat -> Input { (i: nat) => Input([], o(i)) }

  lemma NoTxnsQuiet(p: Plan, o: nat -> seq<nat>)
    requires Orders(p, o)
    ensures AllQuiet(p.u, NoTxns(o))
  {
    forall i: nat ensures Quiet(p.u, NoTxns(o)(i)) { assert forall b: nat :: b < p.u.g.t.Banks() ==> b in o(i); }
  }

  // While nothing is passed on the pipeline runs as if alone.
  lemma {:induction false} PipeAlone(p: Plan, S: System, o: nat -> seq<nat>, n: nat)
    requires Steady(p, S) && Orders(p, o) && AllQuiet(p.u, NoTxns(o))
    requires HeldFrom(Later(p, S, o, n).sched, 0) == HeldFrom(S.sched, 0)
    ensures PipeFirm(p.u, S.pipe) && S.pipe.waiting == []
    ensures Later(p, S, o, n).pipe == After(p.u, S.pipe, NoTxns(o), n)
  {
    hide PipeFirm, PipeOk, AllQuiet, Orders, HeldFrom, PipeTick, Total, Routed, T.AllInOrder, Plan.Valid, Tick;
    if n > 0 {
      var S1 := Later(p, S, o, n - 1);
      TickTotal(p, S1, o(n - 1)) by { OrderAt(p, o, n - 1); }
      PipeAlone(p, S, o, n - 1);
    }
  }

  lemma OrderAt(p: Plan, o: nat -> seq<nat>, i: nat)
    requires Orders(p, o)
    ensures forall b: nat :: b < p.u.g.t.Banks() ==> b in o(i)
  {}

  // With room for a package, an empty pipeline lets the scheduler go on.
  lemma EmptyPipePasses(p: Plan, S: System, order: seq<nat>)
    requires Steady(p, S) && 3 <= p.u.cap < TWO32 && Work(S.pipe) == 0 && HeldFrom(S.sched, 0) > 0
    requires forall b: nat :: b < p.u.g.t.Banks() ==> b in order
    ensures ClockOk(p, NoOffers(order)) && HeldFrom(Tick(p, S, NoOffers(order)).sched, 0) < HeldFrom(S.sched, 0)
  {
    hide PipeFirm, PipeOk, T.All, Plan.Valid, PassedOn, HeldFrom, T.RunFrom, T.RunChannel, T.Queued, T.InOrder;
    FedQuiet(p, S, order);
    var e := Seen(p.u, S.pipe);
    var s' := Scheduled(p, S, NoOffers(order));
    PassedOnIsHeld(e, S.sched, s', 0);
    var j := SomethingHeld(S.sched, 0);
    var ch := S.sched.channels[j];
    assert T.Queued(p.c, ch, S.sched.last);
    var r := OldestThere(p.c, ch, S.sched.last);
    assert T.Queues(ch, r) && r.bank < |p.route|;
    AllRoom(p, S, r.bank);
    T.ClockProgress(p.c, e, S.sched, 0, j, S.sched.last, r);
    LeftIsPassedOn(S.sched, s', 0, j);
  }

  lemma {:induction false} LeftIsPassedOn(s: T.State, s': T.State, i: nat, j: nat)
    requires |s.channels| == |s'.channels| && i <= j < |s.channels| && |s'.channels[j].out| > |s.channels[j].out|
    ensures PassedOn(s, s', i) != []
    decreases |s.channels| - i
  {
    if i < j { LeftIsPassedOn(s, s', i + 1, j); }
  }

  lemma AllRoom(p: Plan, S: System, b: nat)
    requires Steady(p, S) && 3 <= p.u.cap < TWO32 && Work(S.pipe) == 0 && b < |p.route|
    ensures b in Seen(p.u, S.pipe).free
  {
    hide PipeFirm, Routed, T.AllInOrder, Topology.Valid, Shaped, RowsOk, StreamOk;
    LoadZero(S.pipe.cmdQ);
    assert Tokens(p.u.cap, 0) == p.u.cap;
  }

  // ---------------------------------------------------------------- everything is served

  lemma SystemMoves(p: Plan, S: System, o: nat -> seq<nat>) returns (n: nat)
    requires Steady(p, S) && Orders(p, o) && 3 <= p.u.cap < TWO32 && Total(S) > 0
    ensures Total(Later(p, S, o, n)) < Total(S)
  {
    hide PipeFirm, PipeOk, Orders, HeldFrom, Work, Routed, T.AllInOrder, Plan.Valid, Tick, AllQuiet, After, PipeTick;
    NoTxnsQuiet(p, o);
    if Work(S.pipe) == 0 {
      n := 1;
      OrderAt(p, o, 0);
      EmptyPipePasses(p, S, o(0));
      TickTotal(p, S, o(0));
      assert Later(p, S, o, 1) == Tick(p, Later(p, S, o, 0), NoOffers(o(0)));
    } else {
      n := SomethingMoves(p.u, S.pipe, NoTxns(o));
      if HeldFrom(Later(p, S, o, n).sched, 0) == HeldFrom(S.sched, 0) {
        PipeAlone(p, S, o, n);
      } else {
        FewerHeld(p, S, o, n);
      }
    }
  }

  // Passing on always lowers the work left.
  lemma {:induction false} FewerHeld(p: Plan, S: System, o: nat -> seq<nat>, n: nat)
    requires Steady(p, S) && Orders(p, o) && HeldFrom(Later(p, S, o, n).sched, 0) < HeldFrom(S.sched, 0)
    ensures Total(Later(p, S, o, n)) < Total(S)
  {
    hide PipeFirm, PipeOk, Orders, HeldFrom, PipeTick, Total, Routed, T.AllInOrder, Plan.Valid, Tick;
    if n > 0 {
      var S1 := Later(p, S, o, n - 1);
      TickTotal(p, S1, o(n - 1)) by { OrderAt(p, o, n - 1); }
      if HeldFrom(S1.sched, 0) < HeldFrom(S.sched, 0) { FewerHeld(p, S, o, n - 1); }
    }
  }

  function Shifted(o: nat -> seq<nat>, k: nat): nat -> seq<nat> { (i: nat) => o(i + k) }

  lemma ShiftedOrders(p: Plan, o: nat -> seq<nat>, k: nat)
    requires Orders(p, o)
    ensures Orders(p, Shifted(o, k))
  {
    forall i: nat, b: nat | b < p.u.g.t.Banks() ensures b in Shifted(o, k)(i) { assert b in o(i + k); }
  }

  // One clock without arrivals, where it may be taken.
  ghost function Next(p: Plan, S: System, order: seq<nat>): System
    requires Steady(p, S)
  {
    Tick(p, S, NoOffers(order))
  }

  lemma LaterStep(p: Plan, S: System, o: nat -> seq<nat>, n: nat)
    requires Steady(p, S) && Orders(p, o)
    ensures Later(p, S, o, n + 1) == Next(p, Later(p, S, o, n), o(n))
  {
    hide PipeFirm, PipeOk, Routed, T.AllInOrder, Plan.Valid, Tick, Total;
  }

  lemma {:induction false} LaterShifted(p: Plan, S: System, o: nat -> seq<nat>, k: nat, n: nat)
    requires Steady(p, S) && Orders(p, o) && Orders(p, Shifted(o, k))
    ensures Later(p, S, o, k + n) == Later(p, Later(p, S, o, k), Shifted(o, k), n)
  {
    hide Steady, Orders, Total, Next, Later;
    if n == 0 {
      LaterNow(p, Later(p, S, o, k), Shifted(o, k));
    } else {
      LaterShifted(p, S, o, k, n - 1);
      LaterStep(p, S, o, k + n - 1);
      LaterStep(p, Later(p, S, o, k), Shifted(o, k), n - 1);
    }
  }

  // The scheduler and the pipeline run empty.
  lemma {:induction false} SystemDrains(p: Plan, S: System, o: nat -> seq<nat>) returns (n: nat)
    requires Steady(p, S) && Orders(p, o) && 3 <= p.u.cap < TWO32
    ensures Total(Later(p, S, o, n)) == 0
    decreases Total(S)
  {
    hide Steady, Orders, Later;
    if Total(S) == 0 {
      n := 0;
      assert Later(p, S, o, 0) == S by { LaterNow(p, S, o); }
    } else {
      var k := SystemMoves(p, S, o);
      ShiftedOrders(p, o, k);
      var m := SystemDrains(p, Later(p, S, o, k), Shifted(o, k));
      LaterShifted(p, S, o, k, m);
      n := k + m;
    }
  }

  lemma LaterNow(p: Plan, S: System, o: nat -> seq<nat>)
    requires Steady(p, S) && Orders(p, o)
    ensures Later(p, S, o, 0) == S
  {}

  lemma NextLosesNothing(p: Plan, S: System, order: seq<nat>, j: nat)
    requires Steady(p, S) && j < |S.sched.channels|
    ensures |Next(p, S, order).sched.channels| == |S.sched.channels|
    ensures T.All(Next(p, S, order).sched.channels[j]) == T.All(S.sched.channels[j])
  {
    hide PipeFirm, PipeOk, Routed, T.AllInOrder, Plan.Valid, T.All, Scheduled, PipeTick;
    FedQuiet(p, S, order);
  }

  lemma {:induction false} LaterLosesNothing(p: Plan, S: System, o: nat -> seq<nat>, n: nat, j: nat)
    requires Steady(p, S) && Orders(p, o) && j < |S.sched.channels|
    ensures |Later(p, S, o, n).sched.channels| == |S.sched.channels|
    ensures T.All(Later(p, S, o, n).sched.channels[j]) == T.All(S.sched.channels[j])
  {
    hide Steady, Orders, Total, Next, Later, T.All;
    if n == 0 {
      LaterNow(p, S, o);
    } else {
      LaterLosesNothing(p, S, o, n - 1, j);
      LaterStep(p, S, o, n - 1);
      NextLosesNothing(p, Later(p, S, o, n - 1), o(n - 1), j);
    }
  }

  // ---------------------------------------------------------------- whole runs

  lemma {:induction false} EveryRunSteady(p: Plan, xs: seq<Clock>)
    requires p.Valid() && ClocksOk(p, xs) && !p.u.g.useRefresh
    ensures Steady(p, DramSystem.Run(p, xs))
  {
    hide SystemOk, PipeFirm, PipeOk, Fed, PipeTick;
    if |xs| == 0 {
      ValidFirm(p);
    } else {
      var S := DramSystem.Run(p, xs[..|xs| - 1]);
      EveryRunSteady(p, xs[..|xs| - 1]);
      FedFits(p, S, xs[|xs| - 1]);
      TickFirm(p.u, S.pipe, Fed(p, S, xs[|xs| - 1]));
    }
  }

  lemma ValidFirm(p: Plan)
    requires p.Valid() && !p.u.g.useRefresh
    ensures p.u.g.t.Valid() && p.u.g.p.nFAW > 0 && PipeFirm(p.u, InitialPipe(p.u))
  {
    InitialFirm(p.u);
  }

  // The first n clocks without arrivals.
  function Idle(o: nat -> seq<nat>, n: nat): (q: seq<Clock>)
    ensures |q| == n
  {
    seq(n, (i: nat) => NoOffers(o(i)))
  }

  lemma {:induction false} RunThenLater(p: Plan, xs: seq<Clock>, o: nat -> seq<nat>, n: nat)
    requires p.Valid() && ClocksOk(p, xs) && !p.u.g.useRefresh && Orders(p, o)
    ensures Steady(p, DramSystem.Run(p, xs)) && ClocksOk(p, xs + Idle(o, n))
    ensures DramSystem.Run(p, xs + Idle(o, n)) == Later(p, DramSystem.Run(p, xs), o, n)
  {
    hide Steady, Plan.Valid, Orders, Next, Later, DramSystem.Run, Total;
    EveryRunSteady(p, xs);
    IdleOk(p, xs, o, n);
    if n == 0 {
      assert xs + Idle(o, 0) == xs;
      LaterNow(p, DramSystem.Run(p, xs), o);
    } else {
      RunThenLater(p, xs, o, n - 1);
      LaterStep(p, DramSystem.Run(p, xs), o, n - 1);
      assert Idle(o, n) == Idle(o, n - 1) + [NoOffers(o(n - 1))];
      assert xs + Idle(o, n) == xs + Idle(o, n - 1) + [NoOffers(o(n - 1))];
      RunNext(p, xs + Idle(o, n - 1), o(n - 1));
    }
  }

  lemma IdleOk(p: Plan, xs: seq<Clock>, o: nat -> seq<nat>, n: nat)
    requires ClocksOk(p, xs)
    ensures ClocksOk(p, xs + Idle(o, n))
  {
    var all := xs + Idle(o, n);
    forall i | 0 <= i < |all| ensures ClockOk(p, all[i]) {
      if i < |xs| { assert all[i] == xs[i]; } else { assert all[i] == NoOffers(o(i - |xs|)); }
    }
  }

  lemma RunNext(p: Plan, xs: seq<Clock>, order: seq<nat>)
    requires p.Valid() && ClocksOk(p, xs) && ClocksOk(p, xs + [NoOffers(order)]) && Steady(p, DramSystem.Run(p, xs))
    ensures DramSystem.Run(p, xs + [NoOffers(order)]) == Next(p, DramSystem.Run(p, xs), order)
  {
    hide PipeFirm, PipeOk, Routed, T.AllInOrder, Plan.Valid, Tick;
    var all := xs + [NoOffers(order)];
    assert all[..|all| - 1] == xs && all[|all| - 1] == NoOffers(order);
  }

  // All queues of S' are empty; every request that a channel of S held or had passed on has
  // left it, exactly once; and the transfers performed on each bank are those of the bank's
  // requests, in the order in which they left.
  ghost predicate AllServed(p: Plan, S: System, S': System) {
    && Drained(S'.pipe) && |S.sched.channels| == |S'.sched.channels| == p.channels
    && (forall j :: 0 <= j < p.channels ==> multiset(S'.sched.channels[j].out) == T.All(S.sched.channels[j]))
    && (forall b :: 0 <= b < |p.route| ==> p.route[b] < p.channels)
    && (forall b :: 0 <= b < |p.route| ==>
          Transfers(Performed(S'.pipe.drv.dev.trace, b)) == Wanted(Txns(S'.sched.channels[p.route[b]].out), b))
  }

  // Main result, end to end: after every run, once no more requests arrive, all is served
  // after finitely many clocks.
  lemma EveryRequestServed(p: Plan, xs: seq<Clock>, o: nat -> seq<nat>) returns (n: nat)
    requires p.Valid() && ClocksOk(p, xs) && !p.u.g.useRefresh && Orders(p, o) && 3 <= p.u.cap < TWO32
    ensures ClocksOk(p, xs + Idle(o, n)) && AllServed(p, DramSystem.Run(p, xs), DramSystem.Run(p, xs + Idle(o, n)))
  {
    hide Steady, Orders, Later, DramSystem.Run, Idle, Total, AllServed, Plan.Valid;
    EveryRunSteady(p, xs);
    n := SystemDrains(p, DramSystem.Run(p, xs), o);
    RunThenLater(p, xs, o, n);
    DrainedServed(p, xs, o, n);
  }

  lemma DrainedServed(p: Plan, xs: seq<Clock>, o: nat -> seq<nat>, n: nat)
    requires p.Valid() && ClocksOk(p, xs) && ClocksOk(p, xs + Idle(o, n)) && Orders(p, o) && Steady(p, DramSystem.Run(p, xs))
    requires DramSystem.Run(p, xs + Idle(o, n)) == Later(p, DramSystem.Run(p, xs), o, n)
    requires Total(Later(p, DramSystem.Run(p, xs), o, n)) == 0
    ensures AllServed(p, DramSystem.Run(p, xs), DramSystem.Run(p, xs + Idle(o, n)))
  {
    hide PipeFirm, Orders, Later, DramSystem.Run, Txns, Wanted, Transfers, Performed, Idle, T.All, PipeOk, Routed, T.AllInOrder, Total, Drained;
    var S, S' := DramSystem.Run(p, xs), DramSystem.Run(p, xs + Idle(o, n));
    EmptySystem(p, S');
    forall j | 0 <= j < p.channels ensures multiset(S'.sched.channels[j].out) == T.All(S.sched.channels[j]) {
      LaterLosesNothing(p, S, o, n, j);
      NothingHeld(S'.sched, 0, j);
      AllIsOut(S'.sched.channels[j]);
    }
    forall b | 0 <= b < |p.route|
      ensures Transfers(Performed(S'.pipe.drv.dev.trace, b)) == Wanted(Txns(S'.sched.channels[p.route[b]].out), b)
    {
      Sizes(p, S');
      ServedAsPassedOn(p, xs + Idle(o, n), b);
      DrainedStream(S'.pipe, b);
      NothingWaits(S'.pipe, b);
    }
  }

  lemma NothingWaits(P: Pipe, b: nat)
    requires Drained(P)
    ensures forall q: seq<Transfer> :: q + Wanted(P.waiting, b) == q
  {
    assert Wanted([], b) == [];
  }

  lemma EmptySystem(p: Plan, S: System)
    requires SystemOk(p, S) && Total(S) == 0
    ensures Drained(S.pipe) && HeldFrom(S.sched, 0) == 0 && |S.sched.channels| == p.channels
  {
    hide PipeOk, Routed, T.AllInOrder;
    LoadZero(S.pipe.cmdQ);
  }

  lemma AllIsOut(ch: T.Channel)
    requires ch.q == [] && ch.w == []
    ensures T.All(ch) == multiset(ch.out)
  {}

  // With less room nothing is ever passed on.
  lemma {:induction false} SmallQueuesServeNothing(p: Plan, xs: seq<Clock>, j: nat)
    requires p.Valid() && ClocksOk(p, xs) && p.u.cap < 3 && j < p.channels
    ensures j < |DramSystem.Run(p, xs).sched.channels| && DramSystem.Run(p, xs).sched.channels[j].out == []
  {
    hide PipeOk, Routed, T.AllInOrder, Plan.Valid, T.RunFrom, Offer, PipeTick;
    if |xs| > 0 {
      var S, x := DramSystem.Run(p, xs[..|xs| - 1]), xs[|xs| - 1];
      SmallQueuesServeNothing(p, xs[..|xs| - 1], j);
      OfferKeeps(p, S.sched, x.offers);
      ClockPasses(p, Seen(p.u, S.pipe), Offer(p, S.sched, x.offers));
      NoRoom(p, S);
      assert T.PassesOne(Seen(p.u, S.pipe), Offer(p, S.sched, x.offers).channels[j], Scheduled(p, S, x).channels[j]);
    }
  }

  lemma NoRoom(p: Plan, S: System)
    requires SystemOk(p, S) && p.u.cap < 3
    ensures forall b :: b !in Seen(p.u, S.pipe).free
  {
    hide Topology.Valid, Shaped, RowsOk, Routed, T.AllInOrder;
    forall b: nat | b < |S.pipe.cmdQ| ensures Tokens(p.u.cap, |S.pipe.cmdQ[b]|) < 3 {
      assert StreamOk(p.u, S.pipe, b);
    }
  }
}
