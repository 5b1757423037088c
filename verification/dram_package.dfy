// The commands made of a transaction: never more than it takes, and each with a number of
// its own until the 32-bit counter wraps.
module DramPackage {
  import opened Common
  import opened DramTypes
  import opened DramDriver
  import opened DramRows
  import opened DramRowRun
  import opened DramPipeline
  import opened DramEndToEnd

  // ---------------------------------------------------------------- no command too many

  // The column command of a package.
  function ColumnOf(pol: Policy, t: Txn): Kind {
    if pol == ClosePage(true) then (if t.write then WRITEA else READA) else if t.write then WRITE else READ
  }

  // A legal sequence that makes the access from row state s, and leaves the row closed if
  // it has to.
  ghost predicate DoesIt(pol: Policy, t: Txn, s: Row, q: seq<Cmd>, close: bool) {
    && (exists i :: 0 <= i < |q| && q[i].kind == ColumnOf(pol, t) && q[i].row == t.row)
    && RunRow(s, q).Some? && (close ==> RunRow(s, q).value.Closed?)
  }

  // The package leaves the row closed.
  predicate Closes(pol: Policy, v: View, t: Txn) { !Updated(pol, v, t).rowOpen }

  // Main result: a package makes the access, and no legal sequence that leaves the row as
  // the policy wants it is shorter.
  lemma NoShorterPackage(pol: Policy, v: View, t: Txn, s: Row, q: seq<Cmd>)
    requires ViewOk(pol, v) && Matches(s, v.Conv()) && DoesIt(pol, t, s, q, Closes(pol, v, t))
    ensures |PackageKinds(pol, v, t)| <= |q|
  {
    hide RunRow;
    PackageLength(pol, v, t);
    var i :| 0 <= i < |q| && q[i].kind == ColumnOf(pol, t) && q[i].row == t.row;
    if |q| <= 2 {
      RunShort(s, q);
      assert i == 0 || i == 1;
    }
  }

  // Its length, told by what has to be done: close another row, open the row, access it,
  // close it.
  lemma PackageLength(pol: Policy, v: View, t: Txn)
    requires ViewOk(pol, v)
    ensures |PackageKinds(pol, v, t)| ==
            1 + (if v.rowOpen && v.row != t.row then 1 else 0) + (if v.rowOpen && v.row == t.row then 0 else 1)
            + (if Closes(pol, v, t) && !ColumnOf(pol, t).IsAuto() then 1 else 0)
  {}

  lemma PackageMakesIt(pol: Policy, v: View, t: Txn, n: nat, s: Row)
    requires ViewOk(pol, v) && Matches(s, v.Conv())
    ensures DoesIt(pol, t, s, Numbered(t, PackageKinds(pol, v, t), n), Closes(pol, v, t))
  {
    hide RunRow;
    var kinds := PackageKinds(pol, v, t);
    var pkg := Numbered(t, kinds, n);
    PackageFits(pol, v, t);
    PackageRuns(pol, v, t, n);
    assert PackageOk(v.Conv(), pkg, Updated(pol, v, t).Conv());
    HasColumn(pol, v, t);
    var i :| 0 <= i < |kinds| && kinds[i] == ColumnOf(pol, t);
    assert pkg[i].kind == ColumnOf(pol, t) && pkg[i].row == t.row;
  }

  lemma HasColumn(pol: Policy, v: View, t: Txn)
    ensures exists i :: 0 <= i < |PackageKinds(pol, v, t)| && PackageKinds(pol, v, t)[i] == ColumnOf(pol, t)
  {
    var before := if pol.ClosePage? then [ACT] else Opening(v, t);
    assert PackageKinds(pol, v, t)[|before|] == ColumnOf(pol, t);
  }

  // ---------------------------------------------------------------- the numbers

  function InAll(qs: seq<seq<Cmd>>): nat {
    if qs == [] then 0 else |qs[0]| + InAll(qs[1..])
  }

  lemma {:induction false} InAllMore(qs: seq<seq<Cmd>>, b: nat, more: seq<Cmd>)
    requires b < |qs|
    ensures InAll(qs[b := qs[b] + more]) == InAll(qs) + |more|
  {
    if b == 0 {
      assert qs[0 := qs[0] + more][1..] == qs[1..];
    } else {
      assert qs[b := qs[b] + more][1..] == qs[1..][b - 1 := qs[1..][b - 1] + more];
      InAllMore(qs[1..], b - 1, more);
    }
  }

  // The counter has counted the commands, and no two have one number.
  ghost predicate Numbers(P: Pipe) {
    && P.nextSeq == InAll(P.emitted)
    && (forall b, i :: 0 <= b < |P.emitted| && 0 <= i < |P.emitted[b]| ==> P.emitted[b][i].seqNo < P.nextSeq)
    && (forall b, i, c, j :: 0 <= b < |P.emitted| && 0 <= i < |P.emitted[b]| && 0 <= c < |P.emitted| && 0 <= j < |P.emitted[c]| ==>
          P.emitted[b][i].seqNo != P.emitted[c][j].seqNo || (b == c && i == j))
  }

  lemma ConvertOneNumbers(u: Setup, P: Pipe, t: Txn)
    requires t.bank < |P.cmdQ| == |P.view| == |P.emitted| && Numbers(P)
    requires InAll(ConvertOne(u, P, t).emitted) < TWO32
    ensures Numbers(ConvertOne(u, P, t))
  {
    hide PackageKinds, Updated, PushAll, InAll;
    var kinds := PackageKinds(u.policy, P.view[t.bank], t);
    var pkg := Numbered(t, kinds, P.nextSeq);
    var P' := ConvertOne(u, P, t);
    InAllMore(P.emitted, t.bank, pkg);
    assert P.nextSeq + |pkg| < TWO32;
    assert forall i :: 0 <= i < |pkg| ==> pkg[i].seqNo == P.nextSeq + i by { NoWrap(P.nextSeq, pkg, t, kinds); }
    assert P'.emitted == P.emitted[t.bank := P.emitted[t.bank] + pkg];
    NumbersMore(P, P', t.bank, pkg);
  }

  lemma NoWrap(n: nat, pkg: seq<Cmd>, t: Txn, kinds: seq<Kind>)
    requires pkg == Numbered(t, kinds, n) && n + |pkg| < TWO32
    ensures forall i :: 0 <= i < |pkg| ==> pkg[i].seqNo == n + i
  {}

  lemma NumbersMore(P: Pipe, P': Pipe, b: nat, pkg: seq<Cmd>)
    requires Numbers(P) && b < |P.emitted| && P'.emitted == P.emitted[b := P.emitted[b] + pkg]
    requires P'.nextSeq == P.nextSeq + |pkg| == InAll(P'.emitted)
    requires forall i :: 0 <= i < |pkg| ==> pkg[i].seqNo == P.nextSeq + i
    ensures Numbers(P')
  {
    hide InAll;
    var q := P.emitted[b];
    forall x, i | 0 <= x < |P'.emitted| && 0 <= i < |P'.emitted[x]|
      ensures P'.emitted[x][i].seqNo == if x == b && i >= |q| then P.nextSeq + (i - |q|) else P.emitted[x][i].seqNo
    {
      if x == b { assert P'.emitted[x] == q + pkg; }
    }
  }

  lemma {:induction false} ConvertNumbers(u: Setup, P: Pipe, todo: seq<Txn>)
    requires Formed(u, P) && (forall i :: 0 <= i < |todo| ==> todo[i].bank < |P.cmdQ|)
    ensures InAll(Convert(u, P, todo).emitted) >= InAll(P.emitted)
    ensures Numbers(P) && InAll(Convert(u, P, todo).emitted) < TWO32 ==> Numbers(Convert(u, P, todo))
    decreases |todo|
  {
    hide PackageKinds, Updated, PushAll, Numbered, Shaped, Numbers, InAll;
    if todo != [] {
      var t := todo[0];
      if Tokens(u.cap, |P.cmdQ[t.bank]|) >= 3 {
        InAllMore(P.emitted, t.bank, Numbered(t, PackageKinds(u.policy, P.view[t.bank], t), P.nextSeq));
        if Numbers(P) && InAll(ConvertOne(u, P, t).emitted) < TWO32 { ConvertOneNumbers(u, P, t); }
        ConvertNumbers(u, ConvertOne(u, P, t), todo[1..]);
      } else {
        SameNumbers(P, P.(waiting := P.waiting + [t]));
        ConvertNumbers(u, P.(waiting := P.waiting + [t]), todo[1..]);
      }
    }
  }

  lemma SameNumbers(P: Pipe, P': Pipe)
    requires P'.emitted == P.emitted && P'.nextSeq == P.nextSeq
    ensures Numbers(P') <==> Numbers(P)
  {}

  lemma {:induction false} VisitsMakeNothing(u: Setup, P: Pipe, order: seq<nat>)
    requires Shaped(u.g, P.drv)
    ensures VisitAll(u, P, order).emitted == P.emitted && VisitAll(u, P, order).nextSeq == P.nextSeq
    decreases |order|
  {
    hide Shaped, CmdAllowed, PushCmd;
    if order != [] { VisitsMakeNothing(u, Visit(u, P, order[0]), order[1..]); }
  }

  lemma TickNumbers(u: Setup, P: Pipe, x: Input)
    requires Formed(u, P) && InputOk(u, x)
    ensures InAll(PipeTick(u, P, x).emitted) >= InAll(P.emitted)
    ensures Numbers(P) && InAll(PipeTick(u, P, x).emitted) < TWO32 ==> Numbers(PipeTick(u, P, x))
  {
    hide Convert, VisitAll, DramDriver.Run, Update, Numbers, InAll, Shaped;
    var P1 := P.(drv := Update(u.g, P.drv));
    ConvertFormed(u, P1.(waiting := []), P1.waiting + x.txns);
    ConvertNumbers(u, P1.(waiting := []), P1.waiting + x.txns);
    SameNumbers(P, P1.(waiting := []));
    var C := ConvertPhase(u, P1, x.txns);
    SameNumbers(Convert(u, P1.(waiting := []), P1.waiting + x.txns), C);
    VisitsMakeNothing(u, C, x.order);
    SameNumbers(C, PipeTick(u, P, x));
  }

  // Main result: in every run, as long as fewer than 2^32 commands have been made, no two
  // of them, for whatever banks, have the same number.
  lemma {:induction false} NumbersAreUnique(u: Setup, xs: seq<Input>)
    requires u.g.t.Valid() && u.g.p.nFAW > 0 && Inputs(u, xs) && InAll(PipeRun(u, xs).emitted) < TWO32
    ensures Numbers(PipeRun(u, xs))
  {
    hide Topology.Valid, Numbers, InAll, PipeTick, Shaped, RowsOk, StreamOk;
    if |xs| == 0 {
      NoNumbers(u, xs);
    } else {
      var P := PipeRun(u, xs[..|xs| - 1]);
      TickNumbers(u, P, xs[|xs| - 1]);
      NumbersAreUnique(u, xs[..|xs| - 1]);
    }
  }

  lemma NoNumbers(u: Setup, xs: seq<Input>)
    requires u.g.t.Valid() && u.g.p.nFAW > 0 && Inputs(u, xs) && |xs| == 0
    ensures Numbers(PipeRun(u, xs))
  {
    hide Topology.Valid, InitialDriver, RowsOk, StreamOk;
    var q := PipeRun(u, xs).emitted;
    assert q == seq(u.g.t.Banks(), (i: nat) => []);
    NoneInAll(u.g.t.Banks());
  }

  lemma {:induction false} NoneInAll(n: nat)
    ensures InAll(seq(n, (i: nat) => [])) == 0
  {
    if n > 0 {
      assert seq(n, (i: nat) => [])[1..] == seq<seq<Cmd>>(n - 1, (i: nat) => []);
      NoneInAll(n - 1);
    }
  }
}
