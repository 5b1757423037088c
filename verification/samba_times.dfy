// When a TLB unit hands a request back: a hit after the hit delay, an answered miss and all
// that waited for its page after the miss delay, each at the first clock that is not sooner.
module SambaTimes {
  import opened SambaMisses

  // ---------------------------------------------------------------- the time is set once

  lemma {:induction false} DispatchKeepsTimes(c: Config, s: Unit, x: nat, hits: set<Req>, i: nat, n: nat, arrived: set<Req>, r: Req)
    requires Inv(c, s, arrived) && i <= |s.input| && r in s.ready
    ensures var s' := Dispatch(c, s, x, hits, i, n); r in s'.ready && s'.ready[r] == s.ready[r]
    decreases |s.input| - i
  {
    hide MissesOk;
    if i < |s.input| && n < c.maxWidth {
      var s1 := Serve(c, s, x, hits, i);
      ServeInv(c, s, x, hits, i, arrived);
      assert s.input[i] != r by { assert Places(s, r) <= 1 && multiset(s.input)[s.input[i]] >= 1; }
      if i < |s1.input| { DispatchKeepsTimes(c, s1, x, hits, i + 1, n + 1, arrived, r); }
    }
  }

  // A hit that the scan removes gets its time from the hit delay.
  lemma {:induction false} HitIsTimed(c: Config, s: Unit, x: nat, hits: set<Req>, i: nat, n: nat, arrived: set<Req>, r: Req)
    requires Inv(c, s, arrived) && i <= |s.input| && r in s.input && r in hits
    requires r !in Dispatch(c, s, x, hits, i, n).input
    ensures var s' := Dispatch(c, s, x, hits, i, n); r in s'.ready && s'.ready[r] == x + c.hitDelay
    decreases |s.input| - i
  {
    hide MissesOk, OnePlace;
    assert i < |s.input| && n < c.maxWidth;
    var s1 := Serve(c, s, x, hits, i);
    ServeInv(c, s, x, hits, i, arrived);
    if s.input[i] == r {
      assert r in s1.ready && s1.ready[r] == x + c.hitDelay;
      if i < |s1.input| { DispatchKeepsTimes(c, s1, x, hits, i + 1, n + 1, arrived, r); }
    } else {
      StaysQueued(s.input, i, r);
      assert r in s1.input;
      if i < |s1.input| { HitIsTimed(c, s1, x, hits, i + 1, n + 1, arrived, r); }
    }
  }

  lemma StaysQueued(q: seq<Req>, i: nat, r: Req)
    requires i < |q| && r in q && q[i] != r
    ensures r in Drop(q, i)
  {
    var k :| 0 <= k < |q| && q[k] == r;
    assert Drop(q, i)[if k < i then k else k - 1] == r;
  }

  // An answered miss gets its time from the miss delay.
  lemma {:induction false} AnswerIsTimed(c: Config, s: Unit, x: nat, arrived: set<Req>, r: Req)
    requires Inv(c, s, arrived) && r in s.back
    ensures var s' := BackAll(c, s, x); r in s'.ready && s'.ready[r] == x + c.missDelay
    decreases |s.back|
  {
    hide OnePlace, MissesOk, Remove;
    BackOnePlaces(c, s, x, arrived);
    BackOneMisses(c, s, x);
    var s1, last := BackOne(c, s, x), s.back[|s.back| - 1];
    assert s.back == s1.back + [last];
    if r == last {
      assert r in s1.ready && s1.ready[r] == x + c.missDelay;
      ReadyStays(c, s1, x, arrived, r);
    } else {
      AnswerIsTimed(c, s1, x, arrived, r);
    }
  }

  // ---------------------------------------------------------------- one clock

  // Where a request with finishing time t stands at the end of the clock of cycle x.
  ghost predicate Due(s: Unit, r: Req, t: nat, x: nat) {
    if t <= x then r in s.returned else r in s.ready && s.ready[r] == t
  }

  lemma FinishIsDue(s: Unit, x: nat, r: Req)
    requires r in s.ready
    ensures Due(Finish(s, x), r, s.ready[r], x)
  {}

  // Main result: a hit served in cycle x has the finishing time x + hitDelay.
  lemma HitDelayed(c: Config, s: Unit, x: nat, hits: set<Req>, arrived: set<Req>, r: Req)
    requires Inv(c, s, arrived) && r in s.input && r in hits && r !in Tick(c, s, x, hits).input
    ensures Due(Tick(c, s, x, hits), r, x + c.hitDelay, x)
  {
    hide Inv, BackAll, Dispatch, Finish;
    AfterAnswers(c, s, x, arrived);
    var s1 := BackAll(c, s, x);
    var s2 := Dispatch(c, s1, x, hits, 0, 0);
    assert s2.input == Finish(s2, x).input by { FinishKeepsQueue(s2, x); }
    HitIsTimed(c, s1, x, hits, 0, 0, arrived, r);
    FinishIsDue(s2, x, r);
  }

  lemma FinishKeepsQueue(s: Unit, x: nat)
    ensures Finish(s, x).input == s.input
  {}

  // Main result: an answered miss, and every request that waited for its page, has the
  // finishing time x + missDelay.
  lemma AnswerDelayed(c: Config, s: Unit, x: nat, hits: set<Req>, arrived: set<Req>, m: Req, r: Req)
    requires Inv(c, s, arrived) && m in s.back && (r == m || (c.coalesce && r in Waiters(s, m.page)))
    ensures Due(Tick(c, s, x, hits), r, x + c.missDelay, x)
  {
    hide Inv, BackAll, Dispatch, Finish, Waiters;
    var s1 := BackAll(c, s, x);
    AfterAnswers(c, s, x, arrived);
    if r == m { AnswerIsTimed(c, s, x, arrived, m); } else { AnswerWakesWaiters(c, s, arrived, x, m, r); }
    DispatchKeepsTimes(c, s1, x, hits, 0, 0, arrived, r);
    FinishIsDue(Dispatch(c, s1, x, hits, 0, 0), x, r);
  }

  // A clock hands back what is due and leaves the other times alone.
  lemma ClockHandsBack(c: Config, s: Unit, x: nat, hits: set<Req>, arrived: set<Req>, r: Req)
    requires Inv(c, s, arrived) && r in s.ready
    ensures Due(Tick(c, s, x, hits), r, s.ready[r], x)
  {
    hide Inv, BackAll, Dispatch, Finish;
    AfterAnswers(c, s, x, arrived);
    ReadyStays(c, s, x, arrived, r);
    var s1 := BackAll(c, s, x);
    DispatchKeepsTimes(c, s1, x, hits, 0, 0, arrived, r);
    FinishIsDue(Dispatch(c, s1, x, hits, 0, 0), x, r);
  }

  // ---------------------------------------------------------------- every run

  // Some clock of these is not sooner than t.
  ghost predicate TimeComes(acts: seq<Act>, t: nat) { exists k :: 0 <= k < |acts| && acts[k].Clock? && acts[k].x >= t }

  lemma StepHandsBack(c: Config, s: Unit, arrived: set<Req>, a: Act, r: Req)
    requires Inv(c, s, arrived)
    ensures r in s.returned ==> r in Step(c, s, arrived, a).returned
    ensures r in s.ready ==> if a.Clock? && a.x >= s.ready[r] then r in Step(c, s, arrived, a).returned
                             else r in Step(c, s, arrived, a).ready && Step(c, s, arrived, a).ready[r] == s.ready[r]
  {
    hide Inv, Tick;
    if a.Clock? {
      TickKeepsReturned(c, s, a.x, a.hits);
      if r in s.ready { ClockHandsBack(c, s, a.x, a.hits, arrived, r); }
    }
  }

  lemma TickKeepsReturned(c: Config, s: Unit, x: nat, hits: set<Req>)
    ensures s.returned <= Tick(c, s, x, hits).returned
  {
    BackKeepsReturned(c, s, x);
    DispatchKeepsReturned(c, BackAll(c, s, x), x, hits, 0, 0);
  }

  lemma {:induction false} BackKeepsReturned(c: Config, s: Unit, x: nat)
    ensures BackAll(c, s, x).returned == s.returned
    decreases |s.back|
  {
    hide Remove, Waiters;
    if s.back != [] { BackKeepsReturned(c, BackOne(c, s, x), x); }
  }

  lemma {:induction false} DispatchKeepsReturned(c: Config, s: Unit, x: nat, hits: set<Req>, i: nat, n: nat)
    requires i <= |s.input|
    ensures Dispatch(c, s, x, hits, i, n).returned == s.returned
    decreases |s.input| - i
  {
    hide Waiters;
    if i < |s.input| && n < c.maxWidth {
      var s1 := Serve(c, s, x, hits, i);
      if i < |s1.input| { DispatchKeepsReturned(c, s1, x, hits, i + 1, n + 1); }
    }
  }

  // Main result: in every run a request with a finishing time is handed back exactly when a
  // clock comes that is not sooner, and keeps its time until then.
  lemma {:induction false} HandedBackOnTime(c: Config, acts: seq<Act>, later: seq<Act>, r: Req)
    requires r in Run(c, acts).ready
    ensures var t, s := Run(c, acts).ready[r], Run(c, acts + later);
            if TimeComes(later, t) then r in s.returned else r in s.ready && s.ready[r] == t
    decreases |later|
  {
    hide Inv, Step, TimeComes;
    var t := Run(c, acts).ready[r];
    if later == [] {
      assert acts + later == acts;
      NeverComes(t);
    } else {
      var before, a := later[..|later| - 1], later[|later| - 1];
      HandedBackOnTime(c, acts, before, r);
      assert (acts + later)[..|acts + later| - 1] == acts + before;
      NothingIsLost(c, acts + before);
      StepHandsBack(c, Run(c, acts + before), Arrived(acts + before), a, r);
      LastComes(later, t);
    }
  }

  lemma NeverComes(t: nat)
    ensures !TimeComes([], t)
  {}

  lemma LastComes(acts: seq<Act>, t: nat)
    requires acts != []
    ensures var a := acts[|acts| - 1]; TimeComes(acts, t) <==> TimeComes(acts[..|acts| - 1], t) || (a.Clock? && a.x >= t)
  {
    var before := acts[..|acts| - 1];
    if k :| 0 <= k < |before| && before[k].Clock? && before[k].x >= t { assert acts[k] == before[k]; }
    if k :| 0 <= k < |acts| && acts[k].Clock? && acts[k].x >= t { assert k < |before| ==> before[k] == acts[k]; }
  }
}
