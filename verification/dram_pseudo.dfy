// The pseudo-open policy: a row stays open for its close time after it was opened, however
// often it is accessed, and the first access from then on closes it.
module DramPseudo {
  import opened Common
  import opened DramTypes
  import opened DramDriver
  import opened DramPipeline

  // The converter's record of a bank after the transactions of a clock, and the clock.
  function ViewClock(pol: Policy, v: View, ts: seq<Txn>): View { Aged(pol, ViewAll(pol, v, ts)) }

  function ViewAll(pol: Policy, v: View, ts: seq<Txn>): View
    decreases |ts|
  {
    if ts == [] then v else ViewAll(pol, Updated(pol, v, ts[0]), ts[1..])
  }

  function ViewRun(pol: Policy, v: View, clocks: seq<seq<Txn>>): View {
    if clocks == [] then v
    else ViewClock(pol, ViewRun(pol, v, clocks[..|clocks| - 1]), clocks[|clocks| - 1])
  }

  // All transactions are for the row.
  predicate ForRow(ts: seq<Txn>, row: nat) { forall i :: 0 <= i < |ts| ==> ts[i].row == row }

  // Column commands alone.
  function Column(t: Txn): Kind { if t.write then WRITE else READ }

  // An access while the timer runs neither closes the row nor restarts the timer.
  lemma {:induction false} HitsChangeNothing(ct: nat, v: View, ts: seq<Txn>)
    requires v.rowOpen && v.timer > 0 && ForRow(ts, v.row)
    ensures ViewAll(PseudoOpen(ct), v, ts) == v
    ensures forall i :: 0 <= i < |ts| ==> PackageKinds(PseudoOpen(ct), v, ts[i]) == [Column(ts[i])]
    decreases |ts|
  {
    if ts != [] {
      assert Updated(PseudoOpen(ct), v, ts[0]) == v;
      HitsChangeNothing(ct, v, ts[1..]);
      forall i | 0 <= i < |ts| ensures PackageKinds(PseudoOpen(ct), v, ts[i]) == [Column(ts[i])] {
        assert [] + [Column(ts[i])] == [Column(ts[i])];
      }
    }
  }

  // The timer after n clocks from n0.
  function Left(n0: nat, n: nat): nat { if n <= n0 then n0 - n else 0 }

  // Until the timer is out accesses may come; after that none has come yet.
  predicate NoneSince(v: View, clocks: seq<seq<Txn>>) {
    forall k :: 0 <= k < |clocks| ==> ForRow(clocks[k], v.row) && (k >= v.timer ==> clocks[k] == [])
  }

  lemma {:induction false} TimerRuns(ct: nat, v: View, clocks: seq<seq<Txn>>)
    requires v.rowOpen && NoneSince(v, clocks)
    ensures ViewRun(PseudoOpen(ct), v, clocks) == v.(timer := Left(v.timer, |clocks|))
  {
    if clocks != [] {
      var n := |clocks| - 1;
      TimerRuns(ct, v, clocks[..n]);
      var v1 := ViewRun(PseudoOpen(ct), v, clocks[..n]);
      if n < v.timer { HitsChangeNothing(ct, v1, clocks[n]); }
    }
  }

  // Main result: a row opened in some clock, and accessed or not until its close time is
  // over, is closed by the first access that comes closeTime clocks or more after that
  // clock, and by no earlier one.
  lemma ClosedByFirstLateAccess(ct: nat, v0: View, opening: Txn, clocks: seq<seq<Txn>>, t: Txn)
    requires ct > 0 && !(v0.rowOpen && v0.row == opening.row) && t.row == opening.row
    requires forall k :: 0 <= k < |clocks| ==> ForRow(clocks[k], opening.row) && (k + 1 >= ct ==> clocks[k] == [])
    ensures var pol := PseudoOpen(ct);
            var v := ViewRun(pol, ViewClock(pol, v0, [opening]), clocks);
            && v.rowOpen && v.row == opening.row
            && PackageKinds(pol, v, t) == [Column(t)] + (if |clocks| + 1 >= ct then [PRE] else [])
            && Updated(pol, v, t).rowOpen == (|clocks| + 1 < ct)
  {
    var pol := PseudoOpen(ct);
    OpenedFresh(ct, v0, opening);
    var v1 := ViewClock(pol, v0, [opening]);
    TimerRuns(ct, v1, clocks);
    var v := ViewRun(pol, v1, clocks);
    assert [] + [Column(t)] == [Column(t)];
    assert [] + [Column(t), PRE] == [Column(t)] + [PRE];
  }

  lemma OpenedFresh(ct: nat, v0: View, opening: Txn)
    requires ct > 0 && !(v0.rowOpen && v0.row == opening.row)
    ensures ViewClock(PseudoOpen(ct), v0, [opening]) == View(true, opening.row, ct - 1)
  {
    assert ViewAll(PseudoOpen(ct), v0, [opening]) == ViewAll(PseudoOpen(ct), Updated(PseudoOpen(ct), v0, opening), []);
  }

  // With no close time the access that opens a row closes it.
  lemma NoCloseTime(v0: View, t: Txn)
    requires !(v0.rowOpen && v0.row == t.row)
    ensures var kinds := PackageKinds(PseudoOpen(0), v0, t); kinds[|kinds| - 1].PRE? && !Updated(PseudoOpen(0), v0, t).rowOpen
  {}

  // ---------------------------------------------------------------- in the pipeline

  // The transactions of a list for one bank.
  function OfBank(ts: seq<Txn>, b: nat): seq<Txn> {
    if ts == [] then [] else (if ts[0].bank == b then [ts[0]] else []) + OfBank(ts[1..], b)
  }

  // Where nothing is kept waiting, a clock of the converter is a clock of every bank's record.
  lemma {:induction false} ConvertViews(u: Setup, P: Pipe, todo: seq<Txn>, b: nat)
    requires Formed(u, P) && b < |P.view| && (forall i :: 0 <= i < |todo| ==> todo[i].bank < |P.cmdQ|)
    requires Convert(u, P, todo).waiting == P.waiting
    ensures b < |Convert(u, P, todo).view| && Convert(u, P, todo).view[b] == ViewAll(u.policy, P.view[b], OfBank(todo, b))
    decreases |todo|
  {
    hide Updated, PackageKinds, Numbered, PushAll, Shaped;
    if todo != [] {
      WaitingGrows(u, P, todo);
      var P1 := if Tokens(u.cap, |P.cmdQ[todo[0].bank]|) >= 3 then ConvertOne(u, P, todo[0]) else P.(waiting := P.waiting + [todo[0]]);
      WaitingGrows(u, P1, todo[1..]);
      ConvertViews(u, P1, todo[1..], b);
      var rest := OfBank(todo[1..], b);
      if todo[0].bank == b { assert ([todo[0]] + rest)[1..] == rest; } else { assert [] + rest == rest; }
    }
  }

  lemma {:induction false} WaitingGrows(u: Setup, P: Pipe, todo: seq<Txn>)
    requires |P.cmdQ| == |P.view| == |P.emitted| && forall i :: 0 <= i < |todo| ==> todo[i].bank < |P.cmdQ|
    ensures |Convert(u, P, todo).waiting| >= |P.waiting| && |Convert(u, P, todo).view| == |P.view|
    decreases |todo|
  {
    hide Updated, PackageKinds, Numbered, PushAll;
    if todo != [] {
      WaitingGrows(u, if Tokens(u.cap, |P.cmdQ[todo[0].bank]|) >= 3 then ConvertOne(u, P, todo[0])
                      else P.(waiting := P.waiting + [todo[0]]), todo[1..]);
    }
  }

  lemma ClockOfViews(u: Setup, P: Pipe, txns: seq<Txn>, b: nat)
    requires Formed(u, P) && b < |P.view| && (forall i :: 0 <= i < |txns| ==> txns[i].bank < u.g.t.Banks())
    requires ConvertPhase(u, P, txns).waiting == []
    ensures ConvertPhase(u, P, txns).view[b] == ViewClock(u.policy, P.view[b], OfBank(P.waiting + txns, b))
  {
    hide Convert, Shaped, Updated, Aged;
    ConvertFormed(u, P.(waiting := []), P.waiting + txns);
    ConvertViews(u, P.(waiting := []), P.waiting + txns, b);
  }
}
