// True LRU kept by rank counters: a set-associative translation buffer holds exactly the
// most recently touched pages of each set.
module SambaLru {
  // The tag of a way never filled.
  const NO_PAGE: int := -1

  // One set: the page cached in each way, and each way's rank (0: most recent).
  datatype Set = Set(tags: seq<int>, lru: seq<nat>)

  ghost predicate Sized(w: Set, a: nat) { |w.tags| == |w.lru| == a }

  function InitialSet(a: nat): Set { Set(seq(a, i => NO_PAGE), seq(a, i => i)) }

  // The first way holding the page, or the number of ways.
  function WayOf(tags: seq<int>, p: int): (i: nat)
    ensures i <= |tags| && (i < |tags| ==> tags[i] == p)
    ensures forall j :: 0 <= j < i ==> tags[j] != p
  {
    if tags == [] then 0 else if tags[0] == p then 0 else 1 + WayOf(tags[1..], p)
  }

  predicate Hit(w: Set, p: int) { WayOf(w.tags, p) < |w.tags| }

  // The first way of the last rank.
  function VictimFrom(lru: seq<nat>, i: nat): (v: nat)
    requires i <= |lru| && |lru| > 0
    ensures v < |lru|
    decreases |lru| - i
  {
    if i == |lru| then 0 else if lru[i] == |lru| - 1 then i else VictimFrom(lru, i + 1)
  }

  // The page's way becomes most recent; the ways that were more recent age by one.
  function UpdateLru(w: Set, p: int): Set
    requires Sized(w, |w.tags|) && |w.tags| > 0
  {
    var i := WayOf(w.tags, p);
    var place := if i < |w.tags| then w.lru[i] else |w.tags| - 1;
    w.(lru := seq(|w.lru|, j requires 0 <= j < |w.lru| => Promoted(w.lru[j], place)))
  }

  function Promoted(rank: nat, place: nat): nat {
    if rank == place then 0 else if rank < place then rank + 1 else rank
  }

  // A hit only promotes; a miss first replaces the least recent way.
  function Touch(w: Set, p: int): (w': Set)
    requires Sized(w, |w.tags|) && |w.tags| > 0
    ensures Sized(w', |w.tags|)
  {
    if Hit(w, p) then UpdateLru(w, p)
    else UpdateLru(w.(tags := w.tags[VictimFrom(w.lru, 0) := p]), p)
  }

  // ---------------------------------------------------------------- the recency list

  function Without(l: seq<int>, p: int): seq<int> {
    var k := WayOf(l, p);
    if k == |l| then l else l[..k] + l[k + 1..]
  }

  // All pages touched, most recent first.
  function Recency(h: seq<nat>): seq<int> {
    if h == [] then [] else [h[|h| - 1]] + Without(Recency(h[..|h| - 1]), h[|h| - 1])
  }

  // The distinct pages touched after the last touch of p.
  function Since(h: seq<nat>, p: nat): set<nat> {
    if h == [] || h[|h| - 1] == p then {} else Since(h[..|h| - 1], p) + {h[|h| - 1]}
  }

  // The list cut, or filled up with empty ways, to length a.
  function Padded(l: seq<int>, a: nat): (r: seq<int>)
    ensures |r| == a
  {
    seq(a, k requires 0 <= k < a => if k < |l| then l[k] else NO_PAGE)
  }

  ghost predicate Pages(l: seq<int>) {
    && (forall i :: 0 <= i < |l| ==> l[i] >= 0)
    && (forall i, j :: 0 <= i < j < |l| ==> l[i] != l[j])
  }

  lemma WithoutFacts(l: seq<int>, p: int)
    requires Pages(l)
    ensures Pages(Without(l, p))
    ensures forall q :: q in Without(l, p) <==> q in l && q != p
  {
    hide WayOf;
    var k := WayOf(l, p);
    if k < |l| { CutFacts(l, k); }
  }

  lemma CutFacts(l: seq<int>, k: nat)
    requires Pages(l) && k < |l|
    ensures Pages(l[..k] + l[k + 1..])
    ensures forall q :: q in l[..k] + l[k + 1..] <==> q in l && q != l[k]
  {
    var cut := l[..k] + l[k + 1..];
    forall q ensures q in cut <==> q in l && q != l[k] {
      if q in l && q != l[k] {
        var j :| 0 <= j < |l| && l[j] == q;
        assert cut[if j < k then j else j - 1] == q;
      }
    }
  }

  lemma PagesCons(x: nat, l: seq<int>)
    requires Pages(l) && x !in l
    ensures Pages([x] + l)
  {}

  lemma {:induction false} RecencyPages(h: seq<nat>)
    ensures Pages(Recency(h)) && forall p :: p in Recency(h) <==> p in h
  {
    hide Without;
    if h != [] {
      var h0 := h[..|h| - 1];
      var x := h[|h| - 1];
      RecencyPages(h0);
      WithoutFacts(Recency(h0), x);
      assert h == h0 + [x];
      forall p ensures p in Recency(h) <==> p in h {
        assert p in Recency(h) <==> p == x || p in Without(Recency(h0), x);
      }
      PagesCons(x, Without(Recency(h0), x));
    }
  }

  // ---------------------------------------------------------------- ranks are recency positions

  ghost predicate HasRank(lru: seq<nat>, k: nat) { exists i :: 0 <= i < |lru| && lru[i] == k }

  // The ranks are a permutation, and the way of rank k holds order[k].
  ghost predicate Ranked(w: Set, order: seq<int>) {
    && Sized(w, |order|)
    && (forall i :: 0 <= i < |w.lru| ==> w.lru[i] < |order| && w.tags[i] == order[w.lru[i]])
    && (forall i, j :: 0 <= i < j < |w.lru| ==> w.lru[i] != w.lru[j])
    && (forall k :: 0 <= k < |order| ==> HasRank(w.lru, k))
  }

  // A page in the order at most once, unless it is the empty tag.
  ghost predicate Once(order: seq<int>) {
    forall i, j :: 0 <= i < j < |order| && order[i] == order[j] ==> order[i] == NO_PAGE
  }

  function ToFront(order: seq<int>, k: nat, p: int): (r: seq<int>)
    requires k < |order|
    ensures |r| == |order|
  {
    [p] + order[..k] + order[k + 1..]
  }

  lemma {:induction false} VictimIsLast(lru: seq<nat>, i: nat)
    requires i <= |lru| && |lru| > 0
    requires exists j :: i <= j < |lru| && lru[j] == |lru| - 1
    ensures lru[VictimFrom(lru, i)] == |lru| - 1
    decreases |lru| - i
  {
    if i < |lru| && lru[i] != |lru| - 1 { VictimIsLast(lru, i + 1); }
  }

  // Promoting the page of rank k moves it to the front of the order.
  lemma PromoteMoves(w: Set, order: seq<int>, p: int, k: nat)
    requires Ranked(w, order) && k < |order| && order[k] == p
    requires forall j :: 0 <= j < |order| && j != k ==> order[j] != p
    ensures Ranked(UpdateLru(w, p), ToFront(order, k, p))
  {
    hide ToFront, WayOf, Promoted;
    var w' := UpdateLru(w, p);
    var order' := ToFront(order, k, p);
    assert HasRank(w.lru, k);
    var i :| 0 <= i < |w.lru| && w.lru[i] == k;
    assert w.tags[i] == p;
    assert WayOf(w.tags, p) == i;
    forall q: nat | q < |order'| ensures HasRank(w'.lru, q) {
      var q0: nat := if q == 0 then k else if q <= k then q - 1 else q;
      assert HasRank(w.lru, q0);
      var j :| 0 <= j < |w.lru| && w.lru[j] == q0;
      PromotedTo(q, k);
      assert w'.lru[j] == q;
    }
    forall i, j | 0 <= i < j < |w'.lru| ensures w'.lru[i] != w'.lru[j] { PromotedApart(w.lru[i], w.lru[j], k); }
    forall j | 0 <= j < |w'.lru| ensures w'.lru[j] < |order'| && w'.tags[j] == order'[w'.lru[j]] {
      ToFrontAt(order, k, p, w.lru[j]);
    }
  }

  lemma PromotedTo(q: nat, k: nat)
    ensures Promoted(if q == 0 then k else if q <= k then q - 1 else q, k) == q
  {}

  lemma PromotedApart(a: nat, b: nat, k: nat)
    requires a != b
    ensures Promoted(a, k) != Promoted(b, k)
  {}

  lemma ToFrontAt(order: seq<int>, k: nat, p: int, r: nat)
    requires k < |order| && r < |order| && order[k] == p
    ensures Promoted(r, k) < |order| && ToFront(order, k, p)[Promoted(r, k)] == order[r]
  {}

  lemma TouchMoves(w: Set, order: seq<int>, p: nat)
    requires Ranked(w, order) && Once(order) && |order| > 0
    ensures Hit(w, p) <==> p in order
    ensures var k := if p in order then WayOf(order, p) else |order| - 1;
            k < |order| && Ranked(Touch(w, p), ToFront(order, k, p))
  {
    if p in order {
      var k := WayOf(order, p);
      assert HasRank(w.lru, k);
      PromoteMoves(w, order, p, k);
    } else {
      var k := |order| - 1;
      var v := VictimFrom(w.lru, 0);
      assert HasRank(w.lru, k);
      VictimIsLast(w.lru, 0);
      var w1 := w.(tags := w.tags[v := p]);
      var order1 := order[k := p];
      assert Ranked(w1, order1);
      PromoteMoves(w1, order1, p, k);
      assert ToFront(order1, k, p) == ToFront(order, k, p);
    }
  }

  // The recency list, cut to the ways, moves the same way.
  lemma PaddedMoves(l: seq<int>, a: nat, p: nat)
    requires Pages(l) && a > 0
    ensures Once(Padded(l, a))
    ensures p in Padded(l, a) <==> WayOf(l, p) < |l| && WayOf(l, p) < a
    ensures var order := Padded(l, a);
            var k := if p in order then WayOf(order, p) else a - 1;
            k < a && ToFront(order, k, p) == Padded([p] + Without(l, p), a)
  {
    hide WayOf, ToFront, Without;
    var order := Padded(l, a);
    var i := WayOf(l, p);
    if i < |l| && i < a { assert order[i] == p && p in order; }
    if p in order {
      assert order[WayOf(order, p)] == l[WayOf(order, p)];
      assert order[i] == p && WayOf(order, p) == i;
      PaddedHit(l, a, p);
    } else {
      PaddedMiss(l, a, p);
    }
  }

  lemma PaddedHit(l: seq<int>, a: nat, p: nat)
    requires WayOf(l, p) < |l| && WayOf(l, p) < a
    ensures ToFront(Padded(l, a), WayOf(l, p), p) == Padded([p] + Without(l, p), a)
  {
    hide WayOf, Without, ToFront, Padded;
    var k := WayOf(l, p);
    WithoutIs(l, p);
    assert [p] + (l[..k] + l[k + 1..]) == [p] + l[..k] + l[k + 1..];
    PaddedSwap(l, a, k, p);
  }

  lemma WithoutIs(l: seq<int>, p: int)
    requires WayOf(l, p) < |l|
    ensures Without(l, p) == l[..WayOf(l, p)] + l[WayOf(l, p) + 1..]
  {}

  lemma PaddedSwap(l: seq<int>, a: nat, k: nat, p: nat)
    requires k < |l| && k < a
    ensures ToFront(Padded(l, a), k, p) == Padded([p] + l[..k] + l[k + 1..], a)
  {
    var l' := [p] + l[..k] + l[k + 1..];
    assert l'[..k + 1] == [p] + l[..k] && l'[k + 1..] == l[k + 1..];
    var order := Padded(l, a);
    assert order[..k] == l[..k];
    assert Padded(l', a)[k + 1..] == order[k + 1..];
  }

  lemma PaddedMiss(l: seq<int>, a: nat, p: nat)
    requires a > 0 && (WayOf(l, p) == |l| || WayOf(l, p) >= a)
    ensures ToFront(Padded(l, a), a - 1, p) == Padded([p] + Without(l, p), a)
  {
    hide WayOf;
  }

  function TouchAll(a: nat, h: seq<nat>): (w: Set)
    requires a > 0
    ensures Sized(w, a)
  {
    if h == [] then InitialSet(a) else Touch(TouchAll(a, h[..|h| - 1]), h[|h| - 1])
  }

  // After any touches, ranks order the ways exactly as the recency list does.
  lemma {:induction false} RanksAreRecency(a: nat, h: seq<nat>)
    requires a > 0
    ensures Ranked(TouchAll(a, h), Padded(Recency(h), a))
  {
    if h == [] {
      var w := InitialSet(a);
      forall k: nat | k < a ensures HasRank(w.lru, k) { assert w.lru[k] == k; }
    } else {
      var h0 := h[..|h| - 1];
      RanksAreRecency(a, h0);
      RecencyPages(h0);
      PaddedMoves(Recency(h0), a, h[|h| - 1]);
      TouchMoves(TouchAll(a, h0), Padded(Recency(h0), a), h[|h| - 1]);
    }
  }

  // ---------------------------------------------------------------- the stack property

  lemma {:induction false} SinceIsPrefix(h: seq<nat>, p: nat)
    requires p in h
    ensures exists k :: 0 <= k < |Recency(h)| && IsPosition(h, p, k)
  {
    var h0, x := h[..|h| - 1], h[|h| - 1];
    assert h == h0 + [x];
    RecencyPages(h0);
    WithoutFacts(Recency(h0), x);
    if x == p {
      assert IsPosition(h, p, 0);
    } else {
      SinceIsPrefix(h0, p);
      var k :| 0 <= k < |Recency(h0)| && IsPosition(h0, p, k);
      PositionMoves(h, p, k);
    }
  }

  // The page is k-th in the recency list, and the ones before it are those touched since.
  ghost predicate IsPosition(h: seq<nat>, p: nat, k: nat) {
    k < |Recency(h)| && Recency(h)[k] == p && forall q :: q in Since(h, p) <==> q in Recency(h)[..k]
  }

  lemma PositionMoves(h: seq<nat>, p: nat, k: nat)
    requires h != [] && h[|h| - 1] != p && IsPosition(h[..|h| - 1], p, k)
    ensures exists k' :: 0 <= k' < |Recency(h)| && IsPosition(h, p, k')
  {
    hide Without, WayOf, Since;
    var h0, x := h[..|h| - 1], h[|h| - 1];
    var l0, l := Recency(h0), Recency(h);
    var k' := if WayOf(l0, x) < k then k else k + 1;
    FrontPrefix(l0, x, k);
    PrefixSame(h, p, l0[..k], l[..k']);
    assert IsPosition(h, p, k');
  }

  // Moving x to the front keeps the k-th entry and adds x to those before it.
  ghost predicate Shifted(l: seq<int>, x: int, k: nat, l': seq<int>, k': nat) {
    k < |l| && k' < |l'| && l'[k'] == l[k] && forall q :: q in l'[..k'] <==> q == x || q in l[..k]
  }

  lemma FrontPrefix(l: seq<int>, x: int, k: nat)
    requires k < |l| && l[k] != x
    ensures Shifted(l, x, k, [x] + Without(l, x), if WayOf(l, x) < k then k else k + 1)
  {
    hide WayOf, Without, Shifted;
    var i := WayOf(l, x);
    if i < k {
      WithoutIs(l, x);
      assert [x] + (l[..i] + l[i + 1..]) == [x] + l[..i] + l[i + 1..];
      FrontPast(l, i, k);
    } else {
      WithoutPrefix(l, x, k);
      FrontBefore(l, x, k, [x] + Without(l, x));
    }
  }

  lemma WithoutPrefix(l: seq<int>, x: int, k: nat)
    requires k < |l| && l[k] != x && WayOf(l, x) >= k
    ensures |Without(l, x)| > k && Without(l, x)[..k + 1] == l[..k + 1]
  {
    hide WayOf;
  }

  lemma FrontPast(l: seq<int>, i: nat, k: nat)
    requires i < k < |l|
    ensures Shifted(l, l[i], k, [l[i]] + l[..i] + l[i + 1..], k)
  {
    var l' := [l[i]] + l[..i] + l[i + 1..];
    assert l'[..k] == [l[i]] + l[..i] + l[i + 1..k];
    assert l[..k] == l[..i] + [l[i]] + l[i + 1..k];
    MembersSwapped(l[..i], l[i], l[i + 1..k]);
  }

  lemma FrontBefore(l: seq<int>, x: int, k: nat, l': seq<int>)
    requires k < |l| && |l'| > k + 1 && l'[0] == x && l'[1..][..k + 1] == l[..k + 1]
    ensures Shifted(l, x, k, l', k + 1)
  {
    assert l'[k + 1] == l'[1..][..k + 1][k] && l[k] == l[..k + 1][k];
    assert l'[..k + 1] == [x] + l'[1..][..k + 1][..k] && l[..k] == l[..k + 1][..k];
  }

  lemma MembersSwapped(a: seq<int>, x: int, b: seq<int>)
    ensures forall q :: q in [x] + a + b <==> q == x || q in a + [x] + b
  {}

  lemma PrefixSame(h: seq<nat>, p: nat, a: seq<int>, b: seq<int>)
    requires h != [] && h[|h| - 1] != p
    requires forall q :: q in Since(h[..|h| - 1], p) <==> q in a
    requires forall q :: q in b <==> q == h[|h| - 1] || q in a
    ensures forall q :: q in Since(h, p) <==> q in b
  {}

  lemma {:induction false} PrefixCount(l: seq<int>, s: set<nat>)
    requires Pages(l) && forall q :: q in s <==> q in l
    ensures |s| == |l|
  {
    if l == [] {
      assert s == {};
    } else {
      var x: nat := l[|l| - 1];
      var l0 := l[..|l| - 1];
      assert l == l0 + [l[|l| - 1]];
      PrefixCount(l0, s - {x});
    }
  }

  // Main result: the next access to p hits exactly when p was touched before and fewer
  // distinct pages than there are ways have been touched since.
  lemma HitsWithinAssociativity(a: nat, h: seq<nat>, p: nat)
    requires a > 0
    ensures Hit(TouchAll(a, h), p) <==> p in h && |Since(h, p)| < a
  {
    hide WayOf, Touch, TouchAll, Recency, Since, ToFront, Padded, Ranked;
    RanksAreRecency(a, h);
    RecencyPages(h);
    var l := Recency(h);
    PaddedMoves(l, a, p);
    TouchMoves(TouchAll(a, h), Padded(l, a), p);
    if p in h {
      SinceIsPrefix(h, p);
      var k :| 0 <= k < |l| && IsPosition(h, p, k);
      PrefixCount(l[..k], Since(h, p));
    }
  }

  // Hence more ways never turn a hit into a miss.
  lemma Inclusion(a: nat, b: nat, h: seq<nat>, p: nat)
    requires 0 < a <= b && Hit(TouchAll(a, h), p)
    ensures Hit(TouchAll(b, h), p)
  {
    HitsWithinAssociativity(a, h, p);
    HitsWithinAssociativity(b, h, p);
  }
}
