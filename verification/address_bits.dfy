// Bits of natural numbers.
module AddressBits {
  function Pow2(n: nat): (r: nat)
    ensures r >= 1
  {
    if n == 0 then 1 else 2 * Pow2(n - 1)
  }

  function Bit(x: nat, k: nat): (b: nat)
    ensures b <= 1
    decreases k
  {
    if k == 0 then x % 2 else Bit(x / 2, k - 1)
  }

  // Adding the power of a clear bit sets that bit and no other.
  lemma {:induction false} AddPower(x: nat, p: nat, k: nat)
    requires Bit(x, p) == 0
    ensures Bit(x + Pow2(p), k) == if k == p then 1 else Bit(x, k)
    decreases p
  {
    if p == 0 {
      assert (x + 1) % 2 == 1 && (x + 1) / 2 == x / 2;
    } else {
      assert (x + Pow2(p)) % 2 == x % 2 && (x + Pow2(p)) / 2 == x / 2 + Pow2(p - 1);
      if k > 0 { AddPower(x / 2, p - 1, k - 1); }
    }
  }

  lemma {:induction false} ZeroBits(k: nat)
    ensures Bit(0, k) == 0
    decreases k
  {
    if k > 0 { ZeroBits(k - 1); }
  }

  // Numbers below 2^n are determined by their n low bits.
  lemma {:induction false} BitsDetermine(a: nat, b: nat, n: nat)
    requires a < Pow2(n) && b < Pow2(n) && forall k :: 0 <= k < n ==> Bit(a, k) == Bit(b, k)
    ensures a == b
    decreases n
  {
    if n > 0 {
      assert Bit(a, 0) == Bit(b, 0);
      forall k | 0 <= k < n - 1 ensures Bit(a / 2, k) == Bit(b / 2, k) { assert Bit(a, k + 1) == Bit(b, k + 1); }
      BitsDetermine(a / 2, b / 2, n - 1);
    }
  }

  lemma {:induction false} Pow2Grows(m: nat, n: nat)
    requires m <= n
    ensures Pow2(m) <= Pow2(n)
    decreases n
  {
    if m < n { Pow2Grows(m, n - 1); }
  }

  // ---------------------------------------------------------------- scattered bit fields

  // The field whose i-th bit is the address bit at pos[i], from bit i on.
  function Gather(a: nat, pos: seq<nat>): nat {
    if pos == [] then 0 else Bit(a, pos[0]) + 2 * Gather(a, pos[1..])
  }

  // The low bits of v, each at its position.
  function Scatter(v: nat, pos: seq<nat>): (r: nat)
    decreases |pos|
  {
    if pos == [] then 0 else (if v % 2 == 1 then Pow2(pos[0]) else 0) + Scatter(v / 2, pos[1..])
  }

  predicate Increasing(pos: seq<nat>) {
    forall i, j :: 0 <= i < j < |pos| ==> pos[i] < pos[j]
  }

  lemma {:induction false} GatherBound(a: nat, pos: seq<nat>)
    ensures Gather(a, pos) < Pow2(|pos|)
  {
    if pos != [] { GatherBound(a, pos[1..]); }
  }

  // Equal fields come from equal bits.
  lemma {:induction false} GatherBits(a: nat, b: nat, pos: seq<nat>, i: nat)
    requires Gather(a, pos) == Gather(b, pos) && i < |pos|
    ensures Bit(a, pos[i]) == Bit(b, pos[i])
    decreases |pos|
  {
    if i > 0 { GatherBits(a, b, pos[1..], i - 1); }
  }

  // Into clear positions, the bits of v go to theirs and no other bit changes.
  lemma {:induction false} ScatterElse(x: nat, v: nat, pos: seq<nat>, k: nat)
    requires Increasing(pos) && (forall i :: 0 <= i < |pos| ==> Bit(x, pos[i]) == 0) && k !in pos
    ensures Bit(x + Scatter(v, pos), k) == Bit(x, k)
    decreases |pos|
  {
    if pos != [] {
      ScatterFirst(x, v, pos);
      if v % 2 == 1 { AddPower(x, pos[0], k); }
      ScatterElse(x + (if v % 2 == 1 then Pow2(pos[0]) else 0), v / 2, pos[1..], k);
    }
  }

  lemma ScatterFirst(x: nat, v: nat, pos: seq<nat>)
    requires Increasing(pos) && (forall i :: 0 <= i < |pos| ==> Bit(x, pos[i]) == 0) && pos != []
    ensures var x' := x + (if v % 2 == 1 then Pow2(pos[0]) else 0);
            && Increasing(pos[1..]) && pos[0] !in pos[1..]
            && (forall i :: 0 <= i < |pos[1..]| ==> Bit(x', pos[1..][i]) == 0)
            && Bit(x', pos[0]) == v % 2
  {
    hide Bit, Pow2;
    assert Bit(x, pos[0]) == 0;
    if v % 2 == 1 { AddPower(x, pos[0], pos[0]); }
    forall i | 0 <= i < |pos[1..]| ensures Bit(x + (if v % 2 == 1 then Pow2(pos[0]) else 0), pos[1..][i]) == 0 {
      assert pos[1..][i] == pos[i + 1];
      if v % 2 == 1 { AddPower(x, pos[0], pos[i + 1]); }
    }
  }

  lemma {:induction false} ScatterAt(x: nat, v: nat, pos: seq<nat>, i: nat)
    requires Increasing(pos) && (forall j :: 0 <= j < |pos| ==> Bit(x, pos[j]) == 0) && i < |pos|
    ensures Bit(x + Scatter(v, pos), pos[i]) == Bit(v, i)
    decreases |pos|
  {
    ScatterFirst(x, v, pos);
    var x' := x + (if v % 2 == 1 then Pow2(pos[0]) else 0);
    if i == 0 {
      ScatterElse(x', v / 2, pos[1..], pos[0]);
    } else {
      ScatterAt(x', v / 2, pos[1..], i - 1);
    }
  }

  // Gathering what was scattered gives it back.
  lemma {:induction false} GatherIs(a: nat, v: nat, pos: seq<nat>)
    requires v < Pow2(|pos|) && forall i :: 0 <= i < |pos| ==> Bit(a, pos[i]) == Bit(v, i)
    ensures Gather(a, pos) == v
    decreases |pos|
  {
    if pos != [] {
      assert Bit(a, pos[0]) == Bit(v, 0);
      forall i | 0 <= i < |pos[1..]| ensures Bit(a, pos[1..][i]) == Bit(v / 2, i) { assert Bit(a, pos[i + 1]) == Bit(v, i + 1); }
      GatherIs(a, v / 2, pos[1..]);
    }
  }
}
