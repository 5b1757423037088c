// The transaction scheduler in front of the pipeline: what it passes on is what the
// converter takes in the same clock, and what it sees are the pipeline's queues and rows.
module DramSystem {
  import opened Common
  import opened DramTypes
  import opened DramDriver
  import opened DramRowRun
  import opened DramFlow
  import opened DramPipeline
  import opened DramEndToEnd
  import opened DramOrder
  import T = TxnScheduling

  // `route` gives each bank's scheduler channel.
  datatype Plan = Plan(u: Setup, c: T.Config, channels: nat, route: seq<nat>)
  {
    ghost predicate Valid() {
      && u.g.t.Valid() && u.g.p.nFAW > 0 && |route| == u.g.t.Banks()
      && forall b :: 0 <= b < |route| ==> route[b] < channels
    }
  }

  datatype System = System(sched: T.State, pipe: Pipe)

  // One clock: the transactions offered to the scheduler, and the order in which the
  // command scheduler visits the banks' queues.
  datatype Clock = Clock(offers: seq<T.Req>, order: seq<nat>)

  function Initial(p: Plan): System
    requires p.u.g.t.Valid() && p.u.g.p.nFAW > 0
  {
    System(T.Run(p.c, p.channels, []), InitialPipe(p.u))
  }

  // Each goes to its bank's channel, which may refuse it.
  function Offer(p: Plan, s: T.State, rs: seq<T.Req>): (s': T.State)
    requires forall i :: 0 <= i < |rs| ==> rs[i].bank < |p.route|
    ensures |s'.channels| == |s.channels|
  {
    if rs == [] then s
    else T.Step(p.c, Offer(p, s, rs[..|rs| - 1]), T.Arrive(p.route[rs[|rs| - 1].bank], rs[|rs| - 1]))
  }

  // The scheduler sees which banks have three free command slots, and the rows the
  // converter holds open.
  function Seen(u: Setup, P: Pipe): T.Env {
    T.Env(set b: nat | b < |P.cmdQ| && Tokens(u.cap, |P.cmdQ[b]|) >= 3,
          map b: nat | b < |P.view| && P.view[b].rowOpen :: P.view[b].row)
  }

  // What a channel passed on in between.
  function Left(ch: T.Channel, ch': T.Channel): seq<T.Req> {
    if |ch.out| <= |ch'.out| then ch'.out[|ch.out|..] else []
  }

  // In the order of the channels, from channel i on.
  function PassedOn(s: T.State, s': T.State, i: nat): seq<T.Req>
    requires |s.channels| == |s'.channels|
    decreases |s.channels| - i
  {
    if i >= |s.channels| then [] else Left(s.channels[i], s'.channels[i]) + PassedOn(s, s', i + 1)
  }

  function Txns(rs: seq<T.Req>): (r: seq<Txn>)
    ensures |r| == |rs|
  {
    seq(|rs|, i requires 0 <= i < |rs| => Txn(rs[i].write, rs[i].addr, rs[i].bank, rs[i].row))
  }

  ghost predicate ClockOk(p: Plan, x: Clock) {
    forall i :: 0 <= i < |x.offers| ==> x.offers[i].bank < |p.route|
  }

  ghost predicate ClocksOk(p: Plan, xs: seq<Clock>) { forall i :: 0 <= i < |xs| ==> ClockOk(p, xs[i]) }

  // The scheduler's clock: the transactions it takes, then those it passes on.
  function Scheduled(p: Plan, S: System, x: Clock): T.State
    requires forall i :: 0 <= i < |x.offers| ==> x.offers[i].bank < |p.route|
  {
    T.RunFrom(p.c, Seen(p.u, S.pipe), Offer(p, S.sched, x.offers), 0)
  }

  function Fed(p: Plan, S: System, x: Clock): Input
    requires forall i :: 0 <= i < |x.offers| ==> x.offers[i].bank < |p.route|
  {
    Input(Txns(PassedOn(Offer(p, S.sched, x.offers), Scheduled(p, S, x), 0)), x.order)
  }

  // ---------------------------------------------------------------- what is passed on fits

  // Every queued request is in its bank's channel.
  ghost predicate Routed(p: Plan, s: T.State) {
    forall i, t :: 0 <= i < |s.channels| && T.Queues(s.channels[i], t) ==> t.bank < |p.route| && p.route[t.bank] == i
  }

  lemma {:induction false} OfferKeeps(p: Plan, s: T.State, rs: seq<T.Req>)
    requires forall i :: 0 <= i < |rs| ==> rs[i].bank < |p.route|
    requires Routed(p, s) && T.AllInOrder(p.c, s)
    ensures var s' := Offer(p, s, rs);
            && Routed(p, s') && T.AllInOrder(p.c, s')
            && forall i :: 0 <= i < |s.channels| ==> s'.channels[i].out == s.channels[i].out
  {
    hide T.AllInOrder;
    if rs != [] {
      var r := rs[|rs| - 1];
      OfferKeeps(p, s, rs[..|rs| - 1]);
      T.StepInOrder(p.c, Offer(p, s, rs[..|rs| - 1]), T.Arrive(p.route[r.bank], r));
    }
  }

  ghost predicate AllPassOne(e: T.Env, s: T.State, s': T.State) {
    && |s.channels| == |s'.channels|
    && forall j :: 0 <= j < |s.channels| ==> T.PassesOne(e, s.channels[j], s'.channels[j])
  }

  lemma ClockPasses(p: Plan, e: T.Env, s: T.State)
    requires Routed(p, s) && T.AllInOrder(p.c, s)
    ensures var s' := T.RunFrom(p.c, e, s, 0);
            AllPassOne(e, s, s') && Routed(p, s') && T.AllInOrder(p.c, s')
  {
    hide T.RunFrom, T.AllInOrder;
    T.RunKeeps(p.c, e, s, 0);
    forall j | 0 <= j < |s.channels| ensures T.PassesOne(e, s.channels[j], T.RunFrom(p.c, e, s, 0).channels[j]) {
      T.ClockPassesOne(p.c, e, s, 0, j);
    }
  }

  lemma LeftIsOne(p: Plan, e: T.Env, s: T.State, s': T.State, i: nat)
    requires Routed(p, s) && AllPassOne(e, s, s') && i < |s.channels|
    ensures var q := Left(s.channels[i], s'.channels[i]);
            && |q| <= 1 && s'.channels[i].out == s.channels[i].out + q
            && (q != [] ==> q[0].bank in e.free && q[0].bank < |p.route| && p.route[q[0].bank] == i)
  {
    var ch, ch' := s.channels[i], s'.channels[i];
    assert ch'.out == ch'.out[..|ch.out|] + ch'.out[|ch.out|..];
    if |ch'.out| > |ch.out| { assert T.Queues(ch, ch'.out[|ch.out|]); }
  }

  // Requests for different banks with room, of channel i or later.
  ghost predicate Roomy(p: Plan, e: T.Env, q: seq<T.Req>, i: nat) {
    && (forall k :: 0 <= k < |q| ==> q[k].bank in e.free && q[k].bank < |p.route| && p.route[q[k].bank] >= i)
    && (forall k, m :: 0 <= k < m < |q| ==> q[k].bank != q[m].bank)
  }

  // One request per channel at most, so their banks differ; each has room.
  lemma {:induction false} PassedOnFits(p: Plan, e: T.Env, s: T.State, s': T.State, i: nat)
    requires Routed(p, s) && AllPassOne(e, s, s') && i <= |s.channels|
    ensures Roomy(p, e, PassedOn(s, s', i), i)
    decreases |s.channels| - i
  {
    hide Routed, T.PassesOne, Left;
    if i < |s.channels| {
      LeftIsOne(p, e, s, s', i);
      PassedOnFits(p, e, s, s', i + 1);
      RoomyFirst(p, e, Left(s.channels[i], s'.channels[i]), PassedOn(s, s', i + 1), i);
    }
  }

  lemma RoomyFirst(p: Plan, e: T.Env, here: seq<T.Req>, rest: seq<T.Req>, i: nat)
    requires Roomy(p, e, rest, i + 1) && |here| <= 1
    requires here != [] ==> here[0].bank in e.free && here[0].bank < |p.route| && p.route[here[0].bank] == i
    ensures Roomy(p, e, here + rest, i)
  {}

  lemma {:induction false} WantedNone(rs: seq<T.Req>, b: nat)
    requires forall k :: 0 <= k < |rs| ==> rs[k].bank != b
    ensures Wanted(Txns(rs), b) == []
  {
    if rs != [] {
      assert Txns(rs)[1..] == Txns(rs[1..]);
      WantedNone(rs[1..], b);
    }
  }

  lemma TxnsAppend(q: seq<T.Req>, r: seq<T.Req>)
    ensures Txns(q + r) == Txns(q) + Txns(r)
  {}

  // Of what is passed on, a bank's share is what its channel passed on.
  lemma {:induction false} PassedOnForBank(p: Plan, e: T.Env, s: T.State, s': T.State, i: nat, b: nat)
    requires Routed(p, s) && AllPassOne(e, s, s') && i <= |s.channels| && b < |p.route| && p.route[b] < |s.channels|
    ensures var c := p.route[b];
            Wanted(Txns(PassedOn(s, s', i)), b) == if c >= i then Wanted(Txns(Left(s.channels[c], s'.channels[c])), b) else []
    decreases |s.channels| - i
  {
    hide Routed, T.PassesOne, Left, Wanted, Txns;
    if i < |s.channels| {
      var here, rest := Left(s.channels[i], s'.channels[i]), PassedOn(s, s', i + 1);
      LeftIsOne(p, e, s, s', i);
      PassedOnForBank(p, e, s, s', i + 1, b);
      TxnsAppend(here, rest);
      WantedAppend(Txns(here), Txns(rest), b);
      if p.route[b] != i { WantedNone(here, b); }
      assert Wanted(Txns(here), b) + [] == Wanted(Txns(here), b);
    } else {
      WantedNone([], b);
    }
  }

  // ---------------------------------------------------------------- one clock

  ghost predicate SystemOk(p: Plan, S: System) {
    && p.Valid() && |S.sched.channels| == p.channels && Routed(p, S.sched) && T.AllInOrder(p.c, S.sched)
    && PipeOk(p.u, S.pipe) && S.pipe.waiting == []
  }

  // The converter gets transactions for different banks, each with three free slots.
  lemma FedFits(p: Plan, S: System, x: Clock)
    requires SystemOk(p, S) && ClockOk(p, x)
    ensures InputOk(p.u, Fed(p, S, x)) && Fitting(p.u, S.pipe, Fed(p, S, x).txns)
    ensures |Scheduled(p, S, x).channels| == p.channels && Routed(p, Scheduled(p, S, x)) && T.AllInOrder(p.c, Scheduled(p, S, x))
  {
    hide Plan.Valid, Routed, T.AllInOrder, PipeOk, AllPassOne, T.RunFrom, Offer, Tokens, PassedOn;
    var e := Seen(p.u, S.pipe);
    OfferKeeps(p, S.sched, x.offers);
    var s := Offer(p, S.sched, x.offers);
    ClockPasses(p, e, s);
    PassedOnFits(p, e, s, Scheduled(p, S, x), 0);
    var q := PassedOn(s, Scheduled(p, S, x), 0);
    assert |p.route| == p.u.g.t.Banks() == |S.pipe.cmdQ| by { Sizes(p, S); }
    var txns := Fed(p, S, x).txns;
    assert txns == Txns(q);
    forall i | 0 <= i < |txns| ensures txns[i].bank == q[i].bank < |S.pipe.cmdQ| && Tokens(p.u.cap, |S.pipe.cmdQ[txns[i].bank]|) >= 3 {
      assert q[i].bank in e.free;
    }
  }

  lemma Sizes(p: Plan, S: System)
    requires SystemOk(p, S)
    ensures |p.route| == p.u.g.t.Banks() == |S.pipe.cmdQ|
  {
    hide Topology.Valid, Shaped, RowsOk, StreamOk;
  }

  ghost function Tick(p: Plan, S: System, x: Clock): (S': System)
    requires SystemOk(p, S) && ClockOk(p, x)
    ensures SystemOk(p, S')
  {
    FedFits(p, S, x);
    assert PipeOk(p.u, PipeTick(p.u, S.pipe, Fed(p, S, x))) && PipeTick(p.u, S.pipe, Fed(p, S, x)).waiting == [] by {
      TickPipe(p, S, x);
    }
    System(Scheduled(p, S, x), PipeTick(p.u, S.pipe, Fed(p, S, x)))
  }

  lemma TickPipe(p: Plan, S: System, x: Clock)
    requires SystemOk(p, S) && ClockOk(p, x)
    ensures Formed(p.u, S.pipe) && InputOk(p.u, Fed(p, S, x))
    ensures PipeOk(p.u, PipeTick(p.u, S.pipe, Fed(p, S, x))) && PipeTick(p.u, S.pipe, Fed(p, S, x)).waiting == []
  {
    hide Plan.Valid, Routed, T.AllInOrder, Fitting, InputOk, Fed, PipeTick, RowsOk, StreamOk, Shaped;
    FedFits(p, S, x);
    PipeTickOk(p.u, S.pipe, Fed(p, S, x));
    TickDrains(p.u, S.pipe, Fed(p, S, x));
  }

  // ---------------------------------------------------------------- whole runs

  lemma InitialOk(p: Plan)
    requires p.Valid()
    ensures SystemOk(p, Initial(p))
  {
    hide Topology.Valid, PipeOk;
    PipeInitialOk(p.u);
    T.InitialOrder(p.c, p.channels);
  }

  // The controller after the given clocks. Its converter is empty after each of them.
  ghost function Run(p: Plan, xs: seq<Clock>): (S: System)
    requires p.Valid() && ClocksOk(p, xs)
    ensures SystemOk(p, S)
  {
    if |xs| == 0 then
      InitialOk(p);
      Initial(p)
    else
      Tick(p, Run(p, xs[..|xs| - 1]), xs[|xs| - 1])
  }

  // What the scheduler feeds the pipeline in a run.
  ghost function Feed(p: Plan, xs: seq<Clock>): (r: seq<Input>)
    requires p.Valid() && ClocksOk(p, xs)
    ensures |r| == |xs|
  {
    if |xs| == 0 then [] else Feed(p, xs[..|xs| - 1]) + [Fed(p, Run(p, xs[..|xs| - 1]), xs[|xs| - 1])]
  }

  // The pipeline's part is a run of the pipeline, so all its results hold; each clock's
  // input fits the state it is given in, and the converter's queue is empty at the end of
  // each, as it asserts.
  lemma {:induction false} ConverterNeverKeeps(p: Plan, xs: seq<Clock>)
    requires p.Valid() && ClocksOk(p, xs)
    ensures Inputs(p.u, Feed(p, xs)) && FittingRun(p.u, Feed(p, xs))
    ensures PipeRun(p.u, Feed(p, xs)) == Run(p, xs).pipe && Run(p, xs).pipe.waiting == []
  {
    hide Plan.Valid, SystemOk, Fed, PipeTick, Fitting, InputOk, Topology.Valid, PipeOk, PipeRun, FittingRun;
    OkWaits(p, Run(p, xs));
    OkValid(p);
    if |xs| == 0 {
      assert FittingRun(p.u, []) && PipeRun(p.u, []) == InitialPipe(p.u) by { NoClock(p.u); }
    } else {
      var before, x := xs[..|xs| - 1], xs[|xs| - 1];
      ConverterNeverKeeps(p, before);
      FedFits(p, Run(p, before), x);
      FittingAppend(p.u, Feed(p, before), Fed(p, Run(p, before), x));
    }
  }

  lemma NoClock(u: Setup)
    requires u.g.t.Valid() && u.g.p.nFAW > 0
    ensures FittingRun(u, []) && PipeRun(u, []) == InitialPipe(u)
  {}

  lemma OkWaits(p: Plan, S: System)
    requires SystemOk(p, S)
    ensures S.pipe.waiting == []
  {}

  lemma OkValid(p: Plan)
    requires p.Valid()
    ensures p.u.g.t.Valid() && p.u.g.p.nFAW > 0
  {}

  // A bank's transactions reach the pipeline in the order in which they left its channel.
  lemma {:induction false} FeedForBank(p: Plan, xs: seq<Clock>, b: nat)
    requires p.Valid() && ClocksOk(p, xs) && b < |p.route|
    ensures p.route[b] < |Run(p, xs).sched.channels|
    ensures Given(Feed(p, xs), b) == Wanted(Txns(Run(p, xs).sched.channels[p.route[b]].out), b)
  {
    hide Topology.Valid, PipeOk, Routed, T.AllInOrder, Offer, T.RunFrom, Wanted, Txns, PipeTick, PassedOn, Left, AllPassOne;
    if |xs| == 0 {
      WantedNone([], b);
    } else {
      var before, x := xs[..|xs| - 1], xs[|xs| - 1];
      var S := Run(p, before);
      var c := p.route[b];
      FeedForBank(p, before, b);
      OfferKeeps(p, S.sched, x.offers);
      var s := Offer(p, S.sched, x.offers);
      var e := Seen(p.u, S.pipe);
      ClockPasses(p, e, s);
      var s' := Scheduled(p, S, x);
      PassedOnForBank(p, e, s, s', 0, b);
      LeftIsOne(p, e, s, s', c);
      TxnsAppend(s.channels[c].out, Left(s.channels[c], s'.channels[c]));
      WantedAppend(Txns(s.channels[c].out), Txns(Left(s.channels[c], s'.channels[c])), b);
      assert Feed(p, xs)[..|Feed(p, xs)| - 1] == Feed(p, before);
    }
  }

  // In every run of the controller, for every bank: what the device has performed, and then
  // what the driver and the command scheduler still hold, are exactly the requests that
  // left the bank's channel, in that order.
  lemma ServedAsPassedOn(p: Plan, xs: seq<Clock>, b: nat)
    requires p.Valid() && ClocksOk(p, xs) && b < |p.route|
    ensures var S := Run(p, xs);
            Transfers(Performed(S.pipe.drv.dev.trace, b)) + Transfers(Cols(OnBank(S.pipe.drv.inputQ, b)))
            + Transfers(Cols(S.pipe.cmdQ[b])) == Wanted(Txns(S.sched.channels[p.route[b]].out), b)
  {
    hide Topology.Valid, PipeOk, Routed, Wanted, Txns, Transfers, Cols, OnBank, Performed, Run, Feed, Given, T.AllInOrder;
    FeedForBank(p, xs, b);
    ConverterNeverKeeps(p, xs);
    TransactionsInOrder(p.u, Feed(p, xs), b);
    WantedNone([], b);
  }

  // The requests for one bank.
  function OfBank(rs: seq<T.Req>, b: nat): seq<T.Req> {
    if rs == [] then [] else (if rs[0].bank == b then [rs[0]] else []) + OfBank(rs[1..], b)
  }

  function AsTransfer(r: T.Req): Transfer { Transfer(r.write, r.addr, r.row) }

  lemma {:induction false} WantedIsOfBank(rs: seq<T.Req>, b: nat)
    ensures var q, w := OfBank(rs, b), Wanted(Txns(rs), b);
            |w| == |q| && forall j :: 0 <= j < |q| ==> w[j] == AsTransfer(q[j])
  {
    if rs != [] {
      assert Txns(rs)[1..] == Txns(rs[1..]);
      WantedIsOfBank(rs[1..], b);
    }
  }

  lemma {:induction false} OfBankMembers(rs: seq<T.Req>, b: nat)
    ensures forall r :: r in OfBank(rs, b) ==> r in rs
  {
    if rs != [] { OfBankMembers(rs[1..], b); }
  }

  ghost predicate InOrder(c: T.Config, rs: seq<T.Req>) {
    forall k, m :: 0 <= k < m < |rs| && T.Kept(c, rs[k], rs[m]) ==> rs[k].seqNo < rs[m].seqNo
  }

  lemma {:induction false} OfBankInOrder(c: T.Config, rs: seq<T.Req>, b: nat)
    requires InOrder(c, rs)
    ensures InOrder(c, OfBank(rs, b))
  {
    hide T.Kept;
    if rs != [] {
      assert InOrder(c, rs[1..]);
      OfBankInOrder(c, rs[1..], b);
      OfBankMembers(rs[1..], b);
      forall m | 0 <= m < |OfBank(rs[1..], b)| && T.Kept(c, rs[0], OfBank(rs[1..], b)[m])
        ensures rs[0].seqNo < OfBank(rs[1..], b)[m].seqNo
      {
        var r := OfBank(rs[1..], b)[m];
        assert r in rs[1..];
        var i :| 0 <= i < |rs[1..]| && rs[1..][i] == r;
        assert rs[i + 1] == r;
      }
    }
  }

  // Main result, end to end: in every run of the controller the j-th transfer the device
  // performs on a bank is that of the j-th request for the bank to leave its channel, and of
  // two requests to one address the one that arrived first is served first, for all pairs
  // whose order the configuration keeps.
  lemma ServedInArrivalOrder(p: Plan, xs: seq<Clock>, b: nat)
    requires p.Valid() && ClocksOk(p, xs) && b < |p.route|
    ensures var S := Run(p, xs);
            var served := Transfers(Performed(S.pipe.drv.dev.trace, b));
            var q := OfBank(S.sched.channels[p.route[b]].out, b);
            && |served| <= |q| && (forall j :: 0 <= j < |served| ==> served[j] == AsTransfer(q[j]))
            && (forall j, k :: 0 <= j < k < |q| && T.Kept(p.c, q[j], q[k]) ==> q[j].seqNo < q[k].seqNo)
  {
    hide Topology.Valid, PipeOk, Routed, Wanted, Txns, Transfers, Cols, OnBank, Performed, Run, T.Kept, OfBank, AsTransfer;
    ServedAsPassedOn(p, xs, b);
    var S := Run(p, xs);
    var out := S.sched.channels[p.route[b]].out;
    var served := Transfers(Performed(S.pipe.drv.dev.trace, b));
    var held := Transfers(Cols(OnBank(S.pipe.drv.inputQ, b)));
    Sizes(p, S);
    WantedIsOfBank(out, b);
    assert T.InOrder(p.c, S.sched.channels[p.route[b]], S.sched.last);
    OfBankInOrder(p.c, out, b);
    var w := Wanted(Txns(out), b);
    assert w == served + held + Transfers(Cols(S.pipe.cmdQ[b]));
    forall j | 0 <= j < |served| ensures served[j] == AsTransfer(OfBank(out, b)[j]) { assert w[j] == served[j]; }
  }
}
