// A TLB unit with its translation buffer: which requests hit is what the buffer holds, and
// the buffer holds what the unit's own accesses have left in it. One page size.
module SambaTlb {
  import opened SambaLru
  import opened SambaBuffer
  import M = SambaMisses

  datatype Shape = Shape(c: M.Config, sets: nat, ways: nat)
  {
    predicate Valid() { sets > 0 && ways > 0 }
  }

  // `touched` lists the pages brought in or refreshed, in order.
  datatype Tlb = Tlb(unit: M.Unit, touched: seq<nat>)

  const EMPTY: Tlb := Tlb(M.EMPTY, [])

  ghost predicate Holds(t: Shape, h: seq<nat>, p: nat)
    requires t.Valid()
  {
    HitsAfter(t.sets, t.ways, h, p)
  }

  // An answer's page is brought in if it is not there; one that is there is not refreshed.
  ghost function Fill(t: Shape, h: seq<nat>, p: nat): seq<nat>
    requires t.Valid()
  {
    if Holds(t, h, p) then h else h + [p]
  }

  // The last answer first.
  ghost function FillAll(t: Shape, h: seq<nat>, back: seq<M.Req>): seq<nat>
    requires t.Valid()
    decreases |back|
  {
    if back == [] then h else FillAll(t, Fill(t, h, back[|back| - 1].page), back[..|back| - 1])
  }

  ghost function Hits(t: Shape, h: seq<nat>, input: seq<M.Req>): set<M.Req>
    requires t.Valid()
  {
    set r | r in input && Holds(t, h, r.page)
  }

  // The pages the scan refreshes: those of the hits it comes to.
  function Refreshed(c: M.Config, s: M.Unit, x: nat, hits: set<M.Req>, i: nat, n: nat): seq<nat>
    requires i <= |s.input|
    decreases |s.input| - i
  {
    if i == |s.input| || n >= c.maxWidth then []
    else
      var s' := M.Serve(c, s, x, hits, i);
      (if s.input[i] in hits then [s.input[i].page] else [])
      + (if i >= |s'.input| then [] else Refreshed(c, s', x, hits, i + 1, n + 1))
  }

  function PagesOf(rs: seq<M.Req>): (q: seq<nat>)
    ensures |q| == |rs|
  {
    seq(|rs|, i requires 0 <= i < |rs| => rs[i].page)
  }

  // `order` is the order in which the requests due are handed back; each refreshes its page
  // or brings it in again.
  datatype Act = Arrive(r: M.Req) | Answer(r: M.Req) | Clock(x: nat, order: seq<M.Req>)

  // The pages touched before the scan of a clock.
  ghost function BeforeScan(t: Shape, s: Tlb): seq<nat>
    requires t.Valid()
  {
    FillAll(t, s.touched, s.unit.back)
  }

  ghost function ClockHits(t: Shape, s: Tlb): set<M.Req>
    requires t.Valid()
  {
    Hits(t, BeforeScan(t, s), s.unit.input)
  }

  ghost function Step(t: Shape, s: Tlb, arrived: set<M.Req>, a: Act): Tlb
    requires t.Valid()
  {
    match a
    case Arrive(r) => s.(unit := M.Step(t.c, s.unit, arrived, M.Arrive(r)))
    case Answer(r) => s.(unit := M.Step(t.c, s.unit, arrived, M.Answer(r)))
    case Clock(x, order) =>
      var hits := ClockHits(t, s);
      var scanned := BeforeScan(t, s) + Refreshed(t.c, M.BackAll(t.c, s.unit, x), x, hits, 0, 0);
      Tlb(M.Tick(t.c, s.unit, x, hits), scanned + PagesOf(order))
  }

  ghost function Arrived(acts: seq<Act>): set<M.Req> {
    if acts == [] then {}
    else Arrived(acts[..|acts| - 1]) + (if acts[|acts| - 1].Arrive? then {acts[|acts| - 1].r} else {})
  }

  ghost function Run(t: Shape, acts: seq<Act>): Tlb
    requires t.Valid()
  {
    if acts == [] then EMPTY
    else Step(t, Run(t, acts[..|acts| - 1]), Arrived(acts[..|acts| - 1]), acts[|acts| - 1])
  }

  // ---------------------------------------------------------------- the scan leaves the pages held

  // Refreshing a page that is held changes no tag.
  lemma RefreshHeld(t: Shape, h: seq<nat>, p: nat, q: nat)
    requires t.Valid() && Holds(t, h, p)
    ensures Holds(t, h + [p], q) <==> Holds(t, h, q)
  {
    hide UpdateLru, SetOf;
    assert (h + [p])[..|h + [p]| - 1] == h;
    var w := AccessAll(t.sets, t.ways, h)[SetOf(p, t.sets)];
    TagsStay(w, p);
  }

  lemma TagsStay(w: Set, p: int)
    requires Sized(w, |w.tags|) && |w.tags| > 0 && Hit(w, p)
    ensures Touch(w, p).tags == w.tags
  {}

  lemma {:induction false} RefreshManyHeld(t: Shape, h: seq<nat>, ps: seq<nat>, q: nat)
    requires t.Valid() && forall i :: 0 <= i < |ps| ==> Holds(t, h, ps[i])
    ensures Holds(t, h + ps, q) <==> Holds(t, h, q)
  {
    hide Holds;
    if ps == [] {
      assert h + ps == h;
    } else {
      var ps0, p := ps[..|ps| - 1], ps[|ps| - 1];
      assert h + ps == (h + ps0) + [p];
      RefreshManyHeld(t, h, ps0, q);
      RefreshManyHeld(t, h, ps0, p);
      RefreshHeld(t, h + ps0, p, q);
    }
  }

  lemma {:induction false} RefreshedAreHeld(t: Shape, h: seq<nat>, s: M.Unit, x: nat, hits: set<M.Req>, i: nat, n: nat)
    requires t.Valid() && i <= |s.input| && forall r :: r in hits ==> Holds(t, h, r.page)
    ensures forall k :: 0 <= k < |Refreshed(t.c, s, x, hits, i, n)| ==> Holds(t, h, Refreshed(t.c, s, x, hits, i, n)[k])
    decreases |s.input| - i
  {
    hide Holds, M.Serve;
    if i < |s.input| && n < t.c.maxWidth {
      var s' := M.Serve(t.c, s, x, hits, i);
      assert |s.input| - 1 <= |s'.input| <= |s.input| by { ServeShrinks(t.c, s, x, hits, i); }
      if i < |s'.input| { RefreshedAreHeld(t, h, s', x, hits, i + 1, n + 1); }
    }
  }

  lemma ServeShrinks(c: M.Config, s: M.Unit, x: nat, hits: set<M.Req>, i: nat)
    requires i < |s.input|
    ensures |s.input| - 1 <= |M.Serve(c, s, x, hits, i).input| <= |s.input|
  {}

  // ---------------------------------------------------------------- whole runs

  // Main result: with hits decided by the buffer, in every run each request that has arrived
  // is still in exactly one place, and the limits on outstanding misses hold.
  lemma {:induction false} EveryTlbRun(t: Shape, acts: seq<Act>)
    requires t.Valid()
    ensures M.Inv(t.c, Run(t, acts).unit, Arrived(acts))
  {
    hide M.Inv, M.Step, ClockHits, BeforeScan, Refreshed;
    if acts == [] {
      M.InitialInv(t.c);
    } else {
      var before, a := acts[..|acts| - 1], acts[|acts| - 1];
      var s := Run(t, before);
      EveryTlbRun(t, before);
      UnitSteps(t, s, Arrived(before), a);
      M.StepInv(t.c, s.unit, Arrived(before), UnitAct(t, s, a));
    }
  }

  // What an act is for the unit alone.
  ghost function UnitAct(t: Shape, s: Tlb, a: Act): M.Act
    requires t.Valid()
  {
    match a
    case Arrive(r) => M.Arrive(r)
    case Answer(r) => M.Answer(r)
    case Clock(x, _) => M.Clock(x, ClockHits(t, s))
  }

  lemma UnitSteps(t: Shape, s: Tlb, arrived: set<M.Req>, a: Act)
    requires t.Valid()
    ensures Step(t, s, arrived, a).unit == M.Step(t.c, s.unit, arrived, UnitAct(t, s, a))
  {
    hide ClockHits, BeforeScan, Refreshed, M.Tick;
  }

  // Main result: at every point of the scan of a clock, after any number of refreshes, the
  // buffer holds a queued request's page exactly if it did at the start of the scan, and that
  // is exactly if the page was touched before and fewer distinct pages of its set than there
  // are ways have been touched since. So a request hits if and only if its page is recent.
  lemma HitsAreRecent(t: Shape, acts: seq<Act>, x: nat, r: M.Req, k: nat)
    requires t.Valid() && r in Run(t, acts).unit.input
    requires var s := Run(t, acts); k <= |Refreshed(t.c, M.BackAll(t.c, s.unit, x), x, ClockHits(t, s), 0, 0)|
    ensures var s := Run(t, acts);
            var h := BeforeScan(t, s);
            var seen := h + Refreshed(t.c, M.BackAll(t.c, s.unit, x), x, ClockHits(t, s), 0, 0)[..k];
            var here := InSet(h, t.sets, SetOf(r.page, t.sets));
            && (r in ClockHits(t, s) <==> Holds(t, seen, r.page))
            && (r in ClockHits(t, s) <==> r.page in here && |Since(here, r.page)| < t.ways)
  {
    hide Run, Refreshed, Holds, FillAll, M.BackAll, InSet, Since;
    var s := Run(t, acts);
    var h := BeforeScan(t, s);
    var u := M.BackAll(t.c, s.unit, x);
    RefreshedAreHeld(t, h, u, x, ClockHits(t, s), 0, 0);
    RefreshManyHeld(t, h, Refreshed(t.c, u, x, ClockHits(t, s), 0, 0)[..k], r.page);
    assert Holds(t, h, r.page) <==> HitsAfter(t.sets, t.ways, h, r.page) by { HoldsIs(t, h, r.page); }
    BufferIsLru(t.sets, t.ways, h, r.page);
  }

  lemma HoldsIs(t: Shape, h: seq<nat>, p: nat)
    requires t.Valid()
    ensures Holds(t, h, p) <==> HitsAfter(t.sets, t.ways, h, p)
  {}
}
