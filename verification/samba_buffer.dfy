// A whole set-associative structure: its value model over all sets, and the object whose
// tag and rank arrays are updated in place.
module SambaBuffer {
  import opened SambaLru

  function InitialSets(n: nat, a: nat): seq<Set> { seq(n, i => InitialSet(a)) }

  function SetOf(p: nat, n: nat): (s: nat)
    requires n > 0
    ensures s < n
  {
    p % n
  }

  // An access goes to the page's own set.
  function Access(sets: seq<Set>, a: nat, p: nat): (r: seq<Set>)
    requires |sets| > 0 && a > 0 && forall s :: 0 <= s < |sets| ==> Sized(sets[s], a)
    ensures |r| == |sets| && forall s :: 0 <= s < |r| ==> Sized(r[s], a)
  {
    var s := SetOf(p, |sets|);
    assert Sized(sets[s], a);
    var w := Touch(sets[s], p);
    assert Sized(w, a);
    sets[s := w]
  }

  function AccessAll(n: nat, a: nat, h: seq<nat>): (r: seq<Set>)
    requires n > 0 && a > 0
    ensures |r| == n && forall s :: 0 <= s < n ==> Sized(r[s], a)
  {
    if h == [] then InitialSets(n, a) else Access(AccessAll(n, a, h[..|h| - 1]), a, h[|h| - 1])
  }

  // The accesses that fall into one set.
  function InSet(h: seq<nat>, n: nat, s: nat): seq<nat>
    requires n > 0
  {
    if h == [] then []
    else InSet(h[..|h| - 1], n, s) + (if SetOf(h[|h| - 1], n) == s then [h[|h| - 1]] else [])
  }

  // Sets do not influence each other.
  lemma {:induction false} SetsAreIndependent(n: nat, a: nat, h: seq<nat>, s: nat)
    requires n > 0 && a > 0 && s < n
    ensures AccessAll(n, a, h)[s] == TouchAll(a, InSet(h, n, s))
  {
    hide Touch, SetOf;
    if h != [] {
      var h0, p := h[..|h| - 1], h[|h| - 1];
      SetsAreIndependent(n, a, h0, s);
      hide TouchAll;
      if SetOf(p, n) == s {
        TouchAllAppend(a, InSet(h0, n, s), p);
      } else {
        assert InSet(h, n, s) == InSet(h0, n, s);
      }
    }
  }

  lemma TouchAllAppend(a: nat, h: seq<nat>, p: nat)
    requires a > 0
    ensures TouchAll(a, h + [p]) == Touch(TouchAll(a, h), p)
  {
    hide Touch;
    assert (h + [p])[..|h + [p]| - 1] == h;
  }

  ghost predicate HitsAfter(n: nat, a: nat, h: seq<nat>, p: nat)
    requires n > 0 && a > 0
  {
    Hit(AccessAll(n, a, h)[SetOf(p, n)], p)
  }

  // Main result: an access hits exactly when its page was accessed before and fewer than
  // `a` distinct pages of its set have been accessed since.
  lemma BufferIsLru(n: nat, a: nat, h: seq<nat>, p: nat)
    requires n > 0 && a > 0
    ensures var here := InSet(h, n, SetOf(p, n));
            HitsAfter(n, a, h, p) <==> p in here && |Since(here, p)| < a
  {
    SetsAreIndependent(n, a, h, SetOf(p, n));
    HitsWithinAssociativity(a, InSet(h, n, SetOf(p, n)), p);
  }

  // With the same sets, more ways never lose a hit.
  lemma MoreWaysHitMore(n: nat, a: nat, b: nat, h: seq<nat>, p: nat)
    requires n > 0 && 0 < a <= b && HitsAfter(n, a, h, p)
    ensures HitsAfter(n, b, h, p)
  {
    BufferIsLru(n, a, h, p);
    BufferIsLru(n, b, h, p);
  }

  // ---------------------------------------------------------------- the object

  class Buffer {
    const sets: nat
    const assoc: nat
    const tags: array2<int>
    const lru: array2<nat>

    ghost predicate Valid()
    {
      sets > 0 && assoc > 0 && tags.Length0 == lru.Length0 == sets && tags.Length1 == lru.Length1 == assoc
    }

    ghost function Row(s: nat): (w: Set)
      requires Valid() && s < sets
      reads tags, lru
      ensures Sized(w, assoc)
    {
      Set(seq(assoc, i requires 0 <= i < assoc reads tags => tags[s, i]), seq(assoc, i requires 0 <= i < assoc reads lru => lru[s, i]))
    }

    ghost function Model(): (r: seq<Set>)
      requires Valid()
      reads tags, lru
      ensures |r| == sets && forall s :: 0 <= s < sets ==> Sized(r[s], assoc)
    {
      seq(sets, s requires 0 <= s < sets reads tags, lru => Row(s))
    }

    constructor (sets: nat, assoc: nat)
      requires sets > 0 && assoc > 0
      ensures Valid() && this.sets == sets && this.assoc == assoc && fresh(tags) && fresh(lru)
      ensures Model() == InitialSets(sets, assoc)
    {
      this.sets, this.assoc := sets, assoc;
      tags := new int[sets, assoc]((s, i) => NO_PAGE);
      lru := new nat[sets, assoc]((s, i) => i);
      new;
      assert forall s :: 0 <= s < sets ==> Row(s) == InitialSet(assoc);
    }

    method FindWay(p: int, s: nat) returns (i: nat)
      requires Valid() && s < sets
      ensures i == WayOf(Row(s).tags, p)
    {
      i := 0;
      while i < assoc
        invariant 0 <= i <= assoc
        invariant forall j :: 0 <= j < i ==> Row(s).tags[j] != p
      {
        if tags[s, i] == p { FirstWay(Row(s).tags, p, i); return; }
        i := i + 1;
      }
      FirstWay(Row(s).tags, p, i);
    }

    method CheckHit(p: nat) returns (hit: bool)
      requires Valid()
      ensures hit == Hit(Model()[SetOf(p, sets)], p)
    {
      var i := FindWay(p, p % sets);
      return i < assoc;
    }

    method FindVictimWay(p: nat) returns (v: nat)
      requires Valid()
      ensures v == VictimFrom(Row(SetOf(p, sets)).lru, 0)
    {
      var s := p % sets;
      v := 0;
      while v < assoc
        invariant 0 <= v <= assoc
        invariant VictimFrom(Row(s).lru, v) == VictimFrom(Row(s).lru, 0)
      {
        if lru[s, v] == assoc - 1 { return; }
        v := v + 1;
      }
      return 0;
    }

    method InsertWay(p: nat, way: nat)
      requires Valid() && way < assoc
      modifies tags
      ensures var s := SetOf(p, sets); Model() == old(Model())[s := old(Row(s)).(tags := old(Row(s)).tags[way := p])]
    {
      var s := p % sets;
      tags[s, way] := p;
      assert Row(s) == old(Row(s)).(tags := old(Row(s)).tags[way := p]);
      assert forall x :: 0 <= x < sets && x != s ==> Row(x) == old(Row(x));
    }

    // The page's way moves to rank 0; ways of lower rank move up by one.
    method PromotePage(p: nat)
      requires Valid()
      modifies lru
      ensures var s := SetOf(p, sets); Model() == old(Model())[s := UpdateLru(old(Row(s)), p)]
    {
      var s := p % sets;
      ghost var w := Row(s);
      var way := FindWay(p, s);
      var place := if way < assoc then lru[s, way] else assoc - 1;
      var i: nat := 0;
      while i < assoc
        invariant 0 <= i <= assoc
        invariant forall j :: 0 <= j < assoc ==> lru[s, j] == if j < i then Promoted(w.lru[j], place) else w.lru[j]
        invariant forall x, j :: 0 <= x < sets && x != s && 0 <= j < assoc ==> lru[x, j] == old(lru[x, j])
      {
        if lru[s, i] == place { lru[s, i] := 0; } else if lru[s, i] < place { lru[s, i] := lru[s, i] + 1; }
        i := i + 1;
      }
      assert Row(s) == UpdateLru(w, p);
      assert forall x :: 0 <= x < sets && x != s ==> Row(x) == old(Row(x));
    }

    // A lookup that refreshes the page or brings it in.
    method Touch(p: nat) returns (hit: bool)
      requires Valid()
      modifies tags, lru
      ensures Model() == Access(old(Model()), assoc, p) && hit == Hit(old(Model())[SetOf(p, sets)], p)
    {
      assert Row(SetOf(p, sets)) == Model()[SetOf(p, sets)];
      hit := CheckHit(p);
      if !hit {
        var way := FindVictimWay(p);
        InsertWay(p, way);
      }
      assert Row(SetOf(p, sets)) == Model()[SetOf(p, sets)];
      ghost var w := Row(SetOf(p, sets));
      PromotePage(p);
      assert SambaLru.Touch(old(Row(SetOf(p, sets))), p) == UpdateLru(w, p);
    }
  }

  lemma {:induction false} FirstWay(tags: seq<int>, p: int, i: nat)
    requires i <= |tags| && (i < |tags| ==> tags[i] == p) && forall j :: 0 <= j < i ==> tags[j] != p
    ensures WayOf(tags, p) == i
  {}
}
