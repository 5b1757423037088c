// Which accesses keep a page in the translation buffer: an answered miss, a hit the scan
// comes to and a request handed back each make their page the most recent of its set.
module SambaRecent {
  import opened SambaLru
  import opened SambaBuffer
  import opened SambaTlb
  import M = SambaMisses

  function Product(k: int, n: nat): int { k * n }

  ghost predicate Apart(p: nat, q: nat, n: nat) { exists k: int :: p == q + Product(k, n) }

  // Two pages share a set exactly if their numbers are a multiple of the sets apart.
  lemma SameSetExactly(p: nat, q: nat, n: nat)
    requires n > 0
    ensures SetOf(p, n) == SetOf(q, n) <==> Apart(p, q, n)
  {
    if SetOf(p, n) == SetOf(q, n) {
      Difference(p, q, n);
      assert p == q + Product(p / n - q / n, n);
    }
    if k: int :| p == q + Product(k, n) { SameRemainder(q, k, n); }
  }

  lemma Difference(p: nat, q: nat, n: nat)
    requires n > 0 && p % n == q % n
    ensures p - q == (p / n - q / n) * n
  {}

  lemma SameRemainder(q: nat, k: int, n: nat)
    requires n > 0 && q + k * n >= 0
    ensures (q + k * n) % n == q % n
  {
    var r := q % n;
    assert q == q / n * n + r;
    assert q + k * n == (q / n + k) * n + r;
    Unique((q + k * n) / n, (q + k * n) % n, q / n + k, r, n);
  }

  lemma Unique(a: int, r: int, b: int, s: int, n: nat)
    requires 0 <= r < n && 0 <= s < n && a * n + r == b * n + s
    ensures r == s
  {
    if a > b { Bigger(a, b, n); }
    if a < b { Bigger(b, a, n); }
  }

  lemma Bigger(a: int, b: int, n: nat)
    requires a > b
    ensures a * n >= b * n + n
  {
    assert a * n - b * n - n == (a - b - 1) * n;
    NotNegative(a - b - 1, n);
  }

  lemma NotNegative(a: nat, n: nat)
    ensures a * n >= 0
  {}

  // ---------------------------------------------------------------- recency

  ghost function Among(q: seq<nat>): set<nat> { set x | x in q }

  // After its touch only what follows counts.
  lemma {:induction false} SinceTouch(h: seq<nat>, p: nat, rest: seq<nat>)
    ensures Since(h + [p] + rest, p) <= Among(rest)
  {
    var all := h + [p] + rest;
    if rest == [] {
      assert all[|all| - 1] == p;
    } else {
      var before := rest[..|rest| - 1];
      assert all[..|all| - 1] == h + [p] + before && all[|all| - 1] == rest[|rest| - 1];
      SinceTouch(h, p, before);
      assert Among(before) <= Among(rest);
    }
  }

  lemma {:induction false} InSetAppend(p: seq<nat>, q: seq<nat>, n: nat, s: nat)
    requires n > 0
    ensures InSet(p + q, n, s) == InSet(p, n, s) + InSet(q, n, s)
  {
    if q == [] {
      assert p + q == p;
    } else {
      assert (p + q)[..|p + q| - 1] == p + q[..|q| - 1];
      InSetAppend(p, q[..|q| - 1], n, s);
    }
  }

  // The further pages of p's set.
  ghost function Others(t: Shape, p: nat, rest: seq<nat>): set<nat>
    requires t.Valid()
  {
    Among(InSet(rest, t.sets, SetOf(p, t.sets)))
  }

  // A page just touched stays until as many others of its set as there are ways have come.
  lemma TouchedIsHeld(t: Shape, h: seq<nat>, p: nat, rest: seq<nat>)
    requires t.Valid() && |Others(t, p, rest)| < t.ways
    ensures Holds(t, h + [p] + rest, p)
  {
    hide SetOf, HitsAfter;
    var s := SetOf(p, t.sets);
    var all := h + [p] + rest;
    InSetAppend(h + [p], rest, t.sets, s);
    InSetAppend(h, [p], t.sets, s);
    assert InSet([p], t.sets, s) == [p] by { assert [p][..0] == [] && InSet([], t.sets, s) == []; }
    var here := InSet(all, t.sets, s);
    assert here == InSet(h, t.sets, s) + [p] + InSet(rest, t.sets, s);
    SinceTouch(InSet(h, t.sets, s), p, InSet(rest, t.sets, s));
    Smaller(Since(here, p), Others(t, p, rest));
    assert here[|InSet(h, t.sets, s)|] == p;
    BufferIsLru(t.sets, t.ways, all, p);
  }

  lemma Smaller(a: set<nat>, b: set<nat>)
    requires a <= b
    ensures |a| <= |b|
  {
    assert b == a + (b - a);
  }

  // ---------------------------------------------------------------- the accesses of a clock

  // Main result: after a clock the page of a request it handed back is held, unless as many
  // other pages of its set as there are ways were handed back behind it.
  lemma HandedBackIsHeld(t: Shape, s: Tlb, arrived: set<M.Req>, x: nat, order: seq<M.Req>, i: nat)
    requires t.Valid() && i < |order| && |Others(t, order[i].page, PagesOf(order[i + 1..]))| < t.ways
    ensures Holds(t, Step(t, s, arrived, Clock(x, order)).touched, order[i].page)
  {
    hide Holds, Others, FillAll, Refreshed, M.Tick;
    var s' := Step(t, s, arrived, Clock(x, order));
    var pages := PagesOf(order);
    assert pages == PagesOf(order[..i]) + [order[i].page] + PagesOf(order[i + 1..]);
    var k := |s'.touched| - |pages|;
    assert s'.touched == (s'.touched[..k] + PagesOf(order[..i])) + [order[i].page] + PagesOf(order[i + 1..]);
    TouchedIsHeld(t, s'.touched[..k] + PagesOf(order[..i]), order[i].page, PagesOf(order[i + 1..]));
  }

  // When the scan begins the page of the answer processed last, the first that came, is held.
  lemma {:induction false} AnsweredIsHeld(t: Shape, h: seq<nat>, back: seq<M.Req>)
    requires t.Valid() && back != []
    ensures Holds(t, FillAll(t, h, back), back[0].page)
    decreases |back|
  {
    hide Holds, Others;
    var h1 := Fill(t, h, back[|back| - 1].page);
    if |back| == 1 {
      FilledIsHeld(t, h, back[0].page);
      assert FillAll(t, h1, back[..0]) == h1;
    } else {
      AnsweredIsHeld(t, h1, back[..|back| - 1]);
    }
  }

  lemma FilledIsHeld(t: Shape, h: seq<nat>, p: nat)
    requires t.Valid()
    ensures Holds(t, Fill(t, h, p), p)
  {
    hide Holds;
    assert Others(t, p, []) == {};
    assert h + [p] + [] == h + [p];
    TouchedIsHeld(t, h, p, []);
  }

  // An answer whose page is held already changes nothing.
  lemma HeldIsNotRefilled(t: Shape, h: seq<nat>, p: nat)
    requires t.Valid() && Holds(t, h, p)
    ensures Fill(t, h, p) == h
  {}

  // The pages the scan touches are exactly those of the hits that leave the queue in it.
  lemma {:induction false} ScanTouches(c: M.Config, s: M.Unit, x: nat, hits: set<M.Req>, i: nat, n: nat, r: M.Req)
    requires i <= |s.input| && r in s.input && r in hits && r !in M.Dispatch(c, s, x, hits, i, n).input
    ensures r.page in Refreshed(c, s, x, hits, i, n)
    decreases |s.input| - i
  {
    assert i < |s.input| && n < c.maxWidth;
    var s1 := M.Serve(c, s, x, hits, i);
    if s.input[i] == r {
      assert Refreshed(c, s, x, hits, i, n)[0] == r.page;
    } else {
      StaysInLine(s.input, i, r);
      assert r in s1.input;
      if i < |s1.input| { ScanTouches(c, s1, x, hits, i + 1, n + 1, r); }
    }
  }

  lemma StaysInLine(q: seq<M.Req>, i: nat, r: M.Req)
    requires i < |q| && r in q && q[i] != r
    ensures r in M.Drop(q, i)
  {
    var k :| 0 <= k < |q| && q[k] == r;
    assert M.Drop(q, i)[if k < i then k else k - 1] == r;
  }

  lemma {:induction false} OnlyHitsTouched(c: M.Config, s: M.Unit, x: nat, hits: set<M.Req>, i: nat, n: nat, k: nat)
    requires i <= |s.input| && k < |Refreshed(c, s, x, hits, i, n)|
    ensures exists r :: r in s.input && r in hits && r.page == Refreshed(c, s, x, hits, i, n)[k]
    decreases |s.input| - i
  {
    var s1 := M.Serve(c, s, x, hits, i);
    var first := if s.input[i] in hits then [s.input[i].page] else [];
    if k >= |first| {
      OnlyHitsTouched(c, s1, x, hits, i + 1, n + 1, k - |first|);
      var r :| r in s1.input && r in hits && r.page == Refreshed(c, s1, x, hits, i + 1, n + 1)[k - |first|];
      assert r in s.input;
    }
  }
}
