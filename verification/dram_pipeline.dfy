// The controller pipeline: transaction converter, per-bank command queues and device
// driver, clock by clock, for every bank policy and every order of visiting the queues.
module DramPipeline {
  import opened Common
  import opened DramTypes
  import opened DramBank
  import opened DramDevice
  import opened DramTiming
  import opened DramDriver
  import opened DramFaw
  import opened DramSafety
  import opened DramRows
  import opened DramRowRun
  import opened DramRowScan
  import opened DramFlow

  // A transaction that splits into one column command.
  datatype Txn = Txn(write: bool, addr: nat, bank: nat, row: nat)

  datatype Policy = ClosePage(useA: bool) | OpenPage | PseudoOpen(closeTime: nat)

  // The converter's record of a bank; `timer` runs out into a precharge.
  datatype View = View(rowOpen: bool, row: nat, timer: nat)
  {
    function Conv(): Option<nat> { if rowOpen then Some(row) else None }
  }

  // `cap` is the length limit of a command queue.
  datatype Setup = Setup(g: Config, policy: Policy, cap: nat)

  datatype Pipe = Pipe(
    drv: Driver,
    cmdQ: seq<seq<Cmd>>,     // per bank
    view: seq<View>,         // per bank
    waiting: seq<Txn>,       // transactions the converter has not converted
    nextSeq: nat,
    emitted: seq<seq<Cmd>>,  // per bank: all commands ever generated
    pushFailed: bool)        // the converter's assertion on its pushes has failed

  // One clock's input: the transactions scheduled, and the order in which the command
  // scheduler visits the banks' queues.
  datatype Input = Input(txns: seq<Txn>, order: seq<nat>)

  // ---------------------------------------------------------------- the converter

  // Opening a row restarts the close timer.
  function Touched(pol: Policy, v: View, t: Txn): View {
    if pol.PseudoOpen? && !(v.rowOpen && v.row == t.row) then v.(timer := pol.closeTime) else v
  }

  function Opening(v: View, t: Txn): seq<Kind> {
    if !v.rowOpen then [ACT] else if v.row == t.row then [] else [PRE, ACT]
  }

  // The column command, and the precharge that closes the row again.
  function Access(pol: Policy, v: View, t: Txn): seq<Kind> {
    var col := if t.write then WRITE else READ;
    match pol
    case ClosePage(useA) => if useA then [if t.write then WRITEA else READA] else [col, PRE]
    case OpenPage => [col]
    case PseudoOpen(_) => if v.timer == 0 then [col, PRE] else [col]
  }

  function PackageKinds(pol: Policy, v: View, t: Txn): seq<Kind> {
    (if pol.ClosePage? then [ACT] else Opening(v, t)) + Access(pol, Touched(pol, v, t), t)
  }

  function Updated(pol: Policy, v: View, t: Txn): View {
    match pol
    case ClosePage(_) => v.(rowOpen := false)
    case OpenPage => v.(rowOpen := true, row := t.row)
    case PseudoOpen(_) =>
      var v' := Touched(pol, v, t);
      if v'.timer == 0 then v'.(rowOpen := false) else v'.(rowOpen := true, row := t.row)
  }

  // The sequence counter is a 32-bit unsigned.
  function Numbered(t: Txn, kinds: seq<Kind>, n: nat): (cmds: seq<Cmd>)
    ensures |cmds| == |kinds|
    ensures forall i :: 0 <= i < |kinds| ==> cmds[i] == Cmd((n + i) % TWO32, kinds[i], t.addr, t.bank, t.row)
  {
    seq(|kinds|, i requires 0 <= i < |kinds| => Cmd((n + i) % TWO32, kinds[i], t.addr, t.bank, t.row))
  }

  // Pushes one by one; a full queue refuses.
  function PushAll(q: seq<Cmd>, pkg: seq<Cmd>, cap: nat): seq<Cmd>
    decreases |pkg|
  {
    if pkg == [] then q else PushAll(if |q| < cap then q + [pkg[0]] else q, pkg[1..], cap)
  }

  // Free entries of a queue, as unsigned arithmetic gives them.
  function Tokens(cap: nat, n: nat): nat { (cap - n) % TWO32 }

  function ConvertOne(u: Setup, P: Pipe, t: Txn): Pipe
    requires t.bank < |P.cmdQ| == |P.view| == |P.emitted|
  {
    var b := t.bank;
    var pkg := Numbered(t, PackageKinds(u.policy, P.view[b], t), P.nextSeq);
    P.(cmdQ := P.cmdQ[b := PushAll(P.cmdQ[b], pkg, u.cap)],
       view := P.view[b := Updated(u.policy, P.view[b], t)],
       nextSeq := (P.nextSeq + |pkg|) % TWO32,
       emitted := P.emitted[b := P.emitted[b] + pkg],
       pushFailed := P.pushFailed || |P.cmdQ[b]| + |pkg| > u.cap)
  }

  function Convert(u: Setup, P: Pipe, todo: seq<Txn>): Pipe
    requires |P.cmdQ| == |P.view| == |P.emitted| && forall i :: 0 <= i < |todo| ==> todo[i].bank < |P.cmdQ|
    decreases |todo|
  {
    if todo == [] then P
    else if Tokens(u.cap, |P.cmdQ[todo[0].bank]|) >= 3 then Convert(u, ConvertOne(u, P, todo[0]), todo[1..])
    else Convert(u, P.(waiting := P.waiting + [todo[0]]), todo[1..])
  }

  // Open rows of the pseudo-open policy age.
  function Aged(pol: Policy, v: View): View {
    if pol.PseudoOpen? && v.rowOpen && v.timer > 0 then v.(timer := v.timer - 1) else v
  }

  // ---------------------------------------------------------------- the command scheduler

  function Visit(u: Setup, P: Pipe, b: nat): (P': Pipe)
    requires Shaped(u.g, P.drv)
    ensures Shaped(u.g, P'.drv)
  {
    if b >= |P.cmdQ| || P.cmdQ[b] == [] || P.cmdQ[b][0].bank >= u.g.t.Banks() then P
    else
      var c := P.cmdQ[b][0];
      var (d1, ok) := CmdAllowed(u.g, P.drv, c);
      if !ok then P.(drv := d1)
      else
        var (d2, pushed) := PushCmd(u.g, d1, c);
        P.(drv := d2, cmdQ := if pushed then P.cmdQ[b := P.cmdQ[b][1..]] else P.cmdQ)
  }

  function VisitAll(u: Setup, P: Pipe, order: seq<nat>): (P': Pipe)
    requires Shaped(u.g, P.drv)
    ensures Shaped(u.g, P'.drv)
    decreases |order|
  {
    if order == [] then P else VisitAll(u, Visit(u, P, order[0]), order[1..])
  }

  // ---------------------------------------------------------------- one clock

  ghost predicate InputOk(u: Setup, x: Input) {
    forall i :: 0 <= i < |x.txns| ==> x.txns[i].bank < u.g.t.Banks()
  }

  ghost predicate Formed(u: Setup, P: Pipe) {
    && Shaped(u.g, P.drv) && |P.cmdQ| == |P.view| == |P.emitted| == u.g.t.Banks()
    && forall i :: 0 <= i < |P.waiting| ==> P.waiting[i].bank < |P.cmdQ|
  }

  function InitialPipe(u: Setup): Pipe
    requires u.g.t.Valid() && u.g.p.nFAW > 0
  {
    var n := u.g.t.Banks();
    Pipe(InitialDriver(u.g), seq(n, i => []),
         seq(n, i => View(false, 0, if u.policy.PseudoOpen? then u.policy.closeTime else 0)), [], 0, seq(n, i => []), false)
  }

  lemma {:induction false} ConvertFormed(u: Setup, P: Pipe, todo: seq<Txn>)
    requires Formed(u, P) && forall i :: 0 <= i < |todo| ==> todo[i].bank < |P.cmdQ|
    ensures Formed(u, Convert(u, P, todo)) && Convert(u, P, todo).drv == P.drv
    decreases |todo|
  {
    hide Shaped, PackageKinds, Updated, Numbered, PushAll;
    if todo != [] {
      ConvertFormed(u, if Tokens(u.cap, |P.cmdQ[todo[0].bank]|) >= 3 then ConvertOne(u, P, todo[0])
                       else P.(waiting := P.waiting + [todo[0]]), todo[1..]);
    }
  }

  // Converter: the new transactions follow those it still holds.
  function ConvertPhase(u: Setup, P: Pipe, txns: seq<Txn>): (P': Pipe)
    requires Formed(u, P) && forall i :: 0 <= i < |txns| ==> txns[i].bank < u.g.t.Banks()
    ensures Formed(u, P')
  {
    ConvertFormed(u, P.(waiting := []), P.waiting + txns);
    var C := Convert(u, P.(waiting := []), P.waiting + txns);
    C.(view := seq(|C.view|, i requires 0 <= i < |C.view| => Aged(u.policy, C.view[i])))
  }

  function PipeTick(u: Setup, P: Pipe, x: Input): Pipe
    requires Formed(u, P) && InputOk(u, x)
  {
    var P1 := P.(drv := Update(u.g, P.drv));
    var P2 := VisitAll(u, ConvertPhase(u, P1, x.txns), x.order);
    P2.(drv := DramDriver.Run(u.g, P2.drv))
  }

  // ---------------------------------------------------------------- the invariant

  function Tails(P: Pipe): seq<Tail>
    requires |P.cmdQ| == |P.view|
  {
    seq(|P.cmdQ|, b requires 0 <= b < |P.cmdQ| => Tail(P.cmdQ[b], P.view[b].Conv()))
  }

  // Under the close policies the converter never records an open row; with a zero close
  // time neither does the pseudo-open one.
  predicate ViewOk(pol: Policy, v: View) {
    pol.ClosePage? || pol == PseudoOpen(0) ==> !v.rowOpen
  }

  // What holds of a bank's share of the pipeline.
  ghost predicate StreamOk(u: Setup, P: Pipe, b: nat)
    requires b < |P.cmdQ| == |P.view| == |P.emitted|
  {
    && |P.cmdQ[b]| <= u.cap && ViewOk(u.policy, P.view[b])
    && (forall i :: 0 <= i < |P.cmdQ[b]| ==> P.cmdQ[b][i].bank == b)
    && RunRow(Closed, P.emitted[b]).Some? && Matches(RunRow(Closed, P.emitted[b]).value, P.view[b].Conv())
    && Flow(P.drv, b) + Cols(P.cmdQ[b]) == Cols(P.emitted[b])
  }

  ghost predicate PipeOk(u: Setup, P: Pipe) {
    && Formed(u, P) && RowsOk(u.g, P.drv, Tails(P)) && !P.pushFailed
    && (forall b :: 0 <= b < |P.cmdQ| ==> StreamOk(u, P, b))
    && (ActParams(u.g.p) ==> Safe(u.g, P.drv))
  }

  // ---------------------------------------------------------------- packages

  // At most three commands, whatever the policy and close time.
  lemma PackageFits(pol: Policy, v: View, t: Txn)
    requires ViewOk(pol, v)
    ensures 1 <= |PackageKinds(pol, v, t)| <= 3 && ViewOk(pol, Updated(pol, v, t))
  {}

  // From any row state matching the view, a package runs without error and ends in one
  // matching the updated view.
  lemma PackageRuns(pol: Policy, v: View, t: Txn, n: nat)
    requires ViewOk(pol, v)
    ensures PackageOk(v.Conv(), Numbered(t, PackageKinds(pol, v, t), n), Updated(pol, v, t).Conv())
  {
    var pkg := Numbered(t, PackageKinds(pol, v, t), n);
    var v' := Updated(pol, v, t);
    PackageFits(pol, v, t);
    forall s | Matches(s, v.Conv()) ensures RunRow(s, pkg).Some? && Matches(RunRow(s, pkg).value, v'.Conv()) {
      RunShort(s, pkg);
    }
  }

  function Then(s: Option<Row>, c: Cmd): Option<Row> {
    match s case None => None case Some(s') => StepRow(s', c)
  }

  // Unfolds the automaton on a package.
  lemma RunShort(s: Row, q: seq<Cmd>)
    requires 1 <= |q| <= 3
    ensures |q| == 1 ==> RunRow(s, q) == StepRow(s, q[0])
    ensures |q| == 2 ==> RunRow(s, q) == Then(StepRow(s, q[0]), q[1])
    ensures |q| == 3 ==> RunRow(s, q) == Then(Then(StepRow(s, q[0]), q[1]), q[2])
  {
    RunOne(s, q[0]);
    if |q| >= 2 {
      RunRowAppend(s, [q[0]], [q[1]]);
      RunRowAppend(s, [q[0]] + [q[1]], q[2..]);
      assert q == [q[0]] + [q[1]] + q[2..];
      if StepRow(s, q[0]).Some? { RunOne(StepRow(s, q[0]).value, q[1]); }
      var s2 := Then(StepRow(s, q[0]), q[1]);
      if |q| == 3 {
        assert q[2..] == [q[2]];
        if s2.Some? { RunOne(s2.value, q[2]); }
      }
    } else {
      assert q == [q[0]];
    }
  }

  lemma RunOne(s: Row, c: Cmd)
    ensures RunRow(s, [c]) == StepRow(s, c)
  {}

  lemma {:induction false} PushAllFits(q: seq<Cmd>, pkg: seq<Cmd>, cap: nat)
    requires |q| + |pkg| <= cap
    ensures PushAll(q, pkg, cap) == q + pkg
    decreases |pkg|
  {
    if pkg != [] {
      PushAllFits(q + [pkg[0]], pkg[1..], cap);
      assert q + [pkg[0]] + pkg[1..] == q + pkg;
    }
  }
}
