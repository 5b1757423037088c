// The NVM controller's write buffer: an ordered list, an index by line, and a flush flag
// with two thresholds.
module WriteBuffer {
  datatype Req = Req(id: nat, address: nat)

  datatype Limits = Limits(size: nat, high: nat, low: nat, line: nat)
  {
    predicate Valid() { line > 0 && low < high }
  }

  datatype Buffer = Buffer(list: seq<Req>, index: map<nat, Req>, entries: int, flushing: bool)

  const EMPTY: Buffer := Buffer([], map[], 0, false)

  function Line(c: Limits, r: Req): nat
    requires c.line > 0
  {
    r.address / c.line
  }

  // Thresholds are percentages of the size.
  predicate AtHigh(c: Limits, n: int) { n * 100 >= c.high * c.size }

  predicate AtLow(c: Limits, n: int) { n * 100 <= c.low * c.size }

  function Insert(c: Limits, b: Buffer, r: Req): (Buffer, bool)
    requires c.line > 0
  {
    if b.entries >= c.size then (b, false)
    else
      (Buffer(b.list + [r], b.index[Line(c, r) := r], b.entries + 1, b.flushing || AtHigh(c, b.entries + 1)), true)
  }

  function Without(q: seq<Req>, r: Req): (q': seq<Req>)
    ensures forall x :: x in q' <==> x in q && x != r
    ensures |q'| <= |q|
  {
    if q == [] then [] else if q[0] == r then Without(q[1..], r) else [q[0]] + Without(q[1..], r)
  }

  function Erase(c: Limits, b: Buffer, r: Req): Buffer
    requires c.line > 0
  {
    Buffer(Without(b.list, r), b.index - {Line(c, r)}, b.entries - 1, b.flushing && !AtLow(c, b.entries - 1))
  }

  datatype Found = Nothing | Hit(r: Req)

  function Find(c: Limits, b: Buffer, address: nat): Found
    requires c.line > 0
  {
    if address / c.line in b.index then Hit(b.index[address / c.line]) else Nothing
  }

  // ---------------------------------------------------------------- properties

  ghost predicate Distinct(q: seq<Req>) { forall i, j :: 0 <= i < j < |q| ==> q[i] != q[j] }

  // The count is the list's length; the index lists buffered writes under their lines; the
  // flag is up from the high threshold on and down at the low one.
  ghost predicate Inv(c: Limits, b: Buffer)
    requires c.line > 0
  {
    && b.entries == |b.list| <= c.size && Distinct(b.list)
    && (forall l :: l in b.index ==> b.index[l] in b.list && Line(c, b.index[l]) == l)
    && (c.size > 0 ==> (AtHigh(c, b.entries) ==> b.flushing) && (AtLow(c, b.entries) ==> !b.flushing))
  }

  // Every buffered write can be found.
  ghost predicate Complete(c: Limits, b: Buffer)
    requires c.line > 0
  {
    forall r :: r in b.list ==> Line(c, r) in b.index
  }

  lemma {:induction false} WithoutOne(q: seq<Req>, r: Req)
    requires Distinct(q)
    ensures |Without(q, r)| == if r in q then |q| - 1 else |q|
    ensures Distinct(Without(q, r))
  {
    if q != [] {
      assert Distinct(q[1..]) by { forall i, j | 0 <= i < j < |q[1..]| ensures q[1..][i] != q[1..][j] { assert q[i + 1] != q[j + 1]; } }
      WithoutOne(q[1..], r);
      assert q[0] !in q[1..] by { forall j | 0 <= j < |q[1..]| ensures q[1..][j] != q[0] { assert q[j + 1] != q[0]; } }
      assert r in q <==> r == q[0] || r in q[1..];
      if q[0] == r { assert Without(q, r) == Without(q[1..], r); }
    }
  }

  lemma ThresholdsApart(c: Limits, n: int)
    requires c.Valid() && c.size > 0
    ensures !(AtHigh(c, n) && AtLow(c, n))
  {
    assert c.low * c.size + c.size <= c.high * c.size by {
      assert (c.low + 1) * c.size <= c.high * c.size;
    }
  }

  lemma InsertKeeps(c: Limits, b: Buffer, r: Req)
    requires c.Valid() && Inv(c, b) && r !in b.list
    ensures Inv(c, Insert(c, b, r).0) && (Insert(c, b, r).1 <==> |b.list| < c.size)
    ensures Complete(c, b) ==> Complete(c, Insert(c, b, r).0)
    ensures Insert(c, b, r).1 ==> Find(c, Insert(c, b, r).0, r.address) == Hit(r)
  {
    hide Line, AtHigh, AtLow;
    if b.entries < c.size {
      ThresholdsApart(c, b.entries + 1);
      if AtLow(c, b.entries + 1) { LowIsBelow(c, b.entries); }
      FindLine(c, r);
    }
  }

  lemma FindLine(c: Limits, r: Req)
    requires c.line > 0
    ensures Line(c, r) == r.address / c.line
  {}

  lemma LowIsBelow(c: Limits, n: int)
    requires AtLow(c, n + 1)
    ensures AtLow(c, n)
  {}

  lemma HighIsAbove(c: Limits, n: int)
    requires AtHigh(c, n - 1)
    ensures AtHigh(c, n)
  {}

  lemma EraseKeeps(c: Limits, b: Buffer, r: Req)
    requires c.Valid() && Inv(c, b) && r in b.list
    ensures Inv(c, Erase(c, b, r)) && r !in Erase(c, b, r).list
  {
    hide Line, AtHigh, AtLow;
    WithoutOne(b.list, r);
    ThresholdsApart(c, b.entries - 1);
    if AtHigh(c, b.entries - 1) { HighIsAbove(c, b.entries); }
  }

  // Whatever is found is a buffered write to that line.
  lemma FindIsSound(c: Limits, b: Buffer, address: nat)
    requires c.line > 0 && Inv(c, b)
    ensures Find(c, b, address).Hit? ==> Find(c, b, address).r in b.list && Line(c, Find(c, b, address).r) == address / c.line
  {}

  // Erasing a write leaves every other one findable exactly when no other buffered write
  // is to the same line: the index entry goes even if a newer write still needs it.
  lemma EraseCompleteExactly(c: Limits, b: Buffer, r: Req)
    requires c.line > 0 && Inv(c, b) && Complete(c, b) && r in b.list
    ensures Complete(c, Erase(c, b, r)) <==> forall q :: q in b.list && q != r ==> Line(c, q) != Line(c, r)
  {
    var b' := Erase(c, b, r);
    if Complete(c, b') {
      forall q | q in b.list && q != r ensures Line(c, q) != Line(c, r) {
        assert q in b'.list;
      }
    }
  }

  // ---------------------------------------------------------------- runs

  datatype Act = Accept(r: Req) | Flush(r: Req)

  // A new write is offered; a buffered one goes out.
  function Step(c: Limits, b: Buffer, a: Act): Buffer
    requires c.line > 0
  {
    match a
    case Accept(r) => if r in b.list then b else Insert(c, b, r).0
    case Flush(r) => if r in b.list then Erase(c, b, r) else b
  }

  function Run(c: Limits, acts: seq<Act>): Buffer
    requires c.line > 0
  {
    if acts == [] then EMPTY else Step(c, Run(c, acts[..|acts| - 1]), acts[|acts| - 1])
  }

  // In every run the count, the index and the two-threshold flag are right.
  lemma {:induction false} EveryRunKeeps(c: Limits, acts: seq<Act>)
    requires c.Valid()
    ensures Inv(c, Run(c, acts))
  {
    hide Line, Erase, Insert, Inv;
    if acts == [] {
      EmptyKeeps(c);
    } else {
      var b, a := Run(c, acts[..|acts| - 1]), acts[|acts| - 1];
      EveryRunKeeps(c, acts[..|acts| - 1]);
      if a.Accept? && a.r !in b.list { InsertKeeps(c, b, a.r); }
      if a.Flush? && a.r in b.list { EraseKeeps(c, b, a.r); }
    }
  }

  lemma EmptyKeeps(c: Limits)
    requires c.Valid()
    ensures Inv(c, EMPTY) && Complete(c, EMPTY)
  {
    if c.size > 0 { Positive(c.high, c.size); }
  }

  lemma Positive(a: nat, b: nat)
    requires a > 0 && b > 0
    ensures a * b > 0
  {}

  // The step takes out a write while another to its line stays.
  ghost predicate Hides(c: Limits, b: Buffer, a: Act)
    requires c.line > 0
  {
    a.Flush? && a.r in b.list && exists q :: q in b.list && q != a.r && Line(c, q) == Line(c, a.r)
  }

  lemma StepCompleteExactly(c: Limits, b: Buffer, a: Act)
    requires c.Valid() && Inv(c, b) && Complete(c, b)
    ensures Complete(c, Step(c, b, a)) <==> !Hides(c, b, a)
  {
    hide Inv, Complete, Insert, Erase, Line;
    match a {
      case Accept(r) => if r !in b.list { InsertKeeps(c, b, r); }
      case Flush(r) => if r in b.list { EraseCompleteExactly(c, b, r); }
    }
  }

  // After each of the first n steps every buffered write can be found.
  ghost predicate AlwaysFound(c: Limits, acts: seq<Act>, n: nat)
    requires c.line > 0 && n <= |acts|
  {
    forall i :: 0 <= i <= n ==> Complete(c, Run(c, acts[..i]))
  }

  // None of them takes out a write while another to its line is buffered.
  ghost predicate NeverHides(c: Limits, acts: seq<Act>, n: nat)
    requires c.line > 0 && n <= |acts|
  {
    forall i :: 0 <= i < n ==> !Hides(c, Run(c, acts[..i]), acts[i])
  }

  // Main result: in a run every buffered write can be found at all times if and only if no
  // write ever goes out while another to its line is buffered.
  lemma {:induction false} AlwaysFoundExactly(c: Limits, acts: seq<Act>, n: nat)
    requires c.Valid() && n <= |acts|
    ensures AlwaysFound(c, acts, n) <==> NeverHides(c, acts, n)
  {
    hide Complete, Hides, Step, Inv;
    if n == 0 {
      EmptyKeeps(c);
      assert acts[..0] == [];
    } else {
      AlwaysFoundExactly(c, acts, n - 1);
      var b := Run(c, acts[..n - 1]);
      assert acts[..n][..n - 1] == acts[..n - 1];
      assert Run(c, acts[..n]) == Step(c, b, acts[n - 1]);
      EveryRunKeeps(c, acts[..n - 1]);
      if AlwaysFound(c, acts, n - 1) { StepCompleteExactly(c, b, acts[n - 1]); }
    }
  }

  // A buffered write that cannot be found: two writes to one line come in, the first goes out.
  lemma WriteIsHidden(c: Limits, a: Req, b: Req)
    requires c.Valid() && c.size >= 2 && a != b && Line(c, a) == Line(c, b)
    ensures var s := Run(c, [Accept(a), Accept(b), Flush(a)]);
            b in s.list && Find(c, s, b.address) == Nothing
  {
    var acts := [Accept(a), Accept(b), Flush(a)];
    assert acts[..2] == [Accept(a), Accept(b)] && acts[..2][..1] == [Accept(a)] && acts[..2][..1][..0] == [];
    assert Run(c, acts[..2][..1]) == Step(c, EMPTY, Accept(a));
    var s := Run(c, acts[..2]);
    assert s.list == [a, b] && a in s.list;
  }

  // The number of buffered writes after each step.
  function Counts(c: Limits, acts: seq<Act>): seq<int>
    requires c.line > 0
  {
    if acts == [] then [] else Counts(c, acts[..|acts| - 1]) + [Run(c, acts).entries]
  }

  // The last count at or beyond one of the two thresholds decides.
  function Decided(c: Limits, counts: seq<int>): bool {
    if counts == [] then false
    else
      var n := counts[|counts| - 1];
      if AtHigh(c, n) then true else if AtLow(c, n) then false else Decided(c, counts[..|counts| - 1])
  }

  // Main result: in every run the flag is what the last threshold met has made it; between
  // the thresholds it stays.
  lemma {:induction false} FlagExactly(c: Limits, acts: seq<Act>)
    requires c.Valid() && c.size > 0
    ensures Run(c, acts).flushing <==> Decided(c, Counts(c, acts))
  {
    hide AtHigh, AtLow, Line, Without;
    if acts != [] {
      var before := acts[..|acts| - 1];
      FlagExactly(c, before);
      EveryRunKeeps(c, before);
      var b, n := Run(c, before), Run(c, acts).entries;
      assert Counts(c, acts)[..|Counts(c, acts)| - 1] == Counts(c, before);
      ThresholdsApart(c, n);
      ThresholdsApart(c, b.entries);
      if n == b.entries + 1 && AtLow(c, n) { LowIsBelow(c, b.entries); }
      if n == b.entries - 1 && AtHigh(c, n) { HighIsAbove(c, b.entries); }
    }
  }

  // ---------------------------------------------------------------- the object

  class WriteQueue {
    const c: Limits
    var list: seq<Req>
    var index: map<nat, Req>
    var entries: int
    var flushing: bool

    ghost function Model(): Buffer
      reads this
    {
      Buffer(list, index, entries, flushing)
    }

    constructor (c: Limits)
      ensures this.c == c && Model() == EMPTY
    {
      this.c, list, index, entries, flushing := c, [], map[], 0, false;
    }

    method InsertWrite(r: Req) returns (ok: bool)
      requires c.line > 0
      modifies this
      ensures (Model(), ok) == Insert(c, old(Model()), r)
    {
      if entries >= c.size { return false; }
      index := index[r.address / c.line := r];
      list := list + [r];
      entries := entries + 1;
      if entries * 100 >= c.high * c.size { flushing := true; }
      return true;
    }

    // Every occurrence of the request leaves the list.
    method RemoveFromList(r: Req)
      modifies this`list
      ensures list == Without(old(list), r)
    {
      var kept: seq<Req> := [];
      var i := 0;
      while i < |list|
        invariant 0 <= i <= |list| && list == old(list)
        invariant kept + Without(list[i..], r) == Without(list, r)
      {
        assert list[i..] == [list[i]] + list[i + 1..];
        if list[i] != r { kept := kept + [list[i]]; }
        i := i + 1;
      }
      assert list[i..] == [] && kept + [] == kept;
      list := kept;
    }

    method EraseEntry(r: Req)
      requires c.line > 0
      modifies this
      ensures Model() == Erase(c, old(Model()), r)
    {
      index := index - {r.address / c.line};
      RemoveFromList(r);
      entries := entries - 1;
      if entries * 100 <= c.low * c.size { flushing := false; }
    }
  }
}
