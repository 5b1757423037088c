// Physical memory pools and the allocation policies that choose between a node's local
// pool and the shared ones.
module Opal {
  // ---------------------------------------------------------------- one pool

  datatype Pool = Pool(free: seq<nat>, alloc: set<nat>, available: int)

  datatype Frame = NoFrame | Frame(address: nat)

  // Frames of `size` bytes from `start` on.
  function Build(start: nat, size: nat, frames: nat): Pool {
    Pool(seq(frames, (i: nat) => FrameAt(start, size, i)), {}, frames)
  }

  function FrameAt(start: nat, size: nat, i: nat): nat { i * size + start }

  function Allocate(p: Pool): (Pool, Frame) {
    if p.free == [] then (p, NoFrame)
    else (Pool(p.free[1..], p.alloc + {p.free[0]}, p.available - 1), Frame(p.free[0]))
  }

  function Deallocate(p: Pool, x: nat): (Pool, bool) {
    if x in p.alloc then (Pool(p.free + [x], p.alloc - {x}, p.available + 1), true) else (p, false)
  }

  ghost predicate Distinct(q: seq<nat>) { forall i, j :: 0 <= i < j < |q| ==> q[i] != q[j] }

  // Free and allocated frames partition the pool, and the counter is the free list's length.
  ghost predicate PoolOk(p: Pool, all: set<nat>) {
    && Distinct(p.free) && p.available == |p.free|
    && (forall f :: f in p.free ==> f !in p.alloc)
    && (forall f :: f in all <==> f in p.free || f in p.alloc)
  }

  lemma FramesApart(start: nat, size: nat, i: nat, j: nat)
    requires size > 0 && i < j
    ensures FrameAt(start, size, i) < FrameAt(start, size, j)
  {
    assert j * size == i * size + (j - i) * size;
    assert (j - i) * size == size + (j - i - 1) * size;
  }

  lemma BuildOk(start: nat, size: nat, frames: nat)
    requires size > 0
    ensures var p := Build(start, size, frames); PoolOk(p, set f | f in p.free)
  {
    var p := Build(start, size, frames);
    forall i, j | 0 <= i < j < |p.free| ensures p.free[i] != p.free[j] { FramesApart(start, size, i, j); }
  }

  // The frame handed out was free, and is now the only change.
  lemma AllocateKeeps(p: Pool, all: set<nat>)
    requires PoolOk(p, all)
    ensures var (p', f) := Allocate(p);
            && PoolOk(p', all) && (f.NoFrame? <==> p.available == 0)
            && (f.Frame? ==> f.address in all && f.address !in p.alloc && p'.alloc == p.alloc + {f.address})
            && (f.NoFrame? ==> p' == p)
  {
    if p.free != [] {
      assert p.free == [p.free[0]] + p.free[1..];
      forall i | 0 <= i < |p.free[1..]| ensures p.free[1..][i] != p.free[0] { assert p.free[1..][i] == p.free[i + 1]; }
    }
  }

  lemma DeallocateKeeps(p: Pool, all: set<nat>, x: nat)
    requires PoolOk(p, all)
    ensures var (p', ok) := Deallocate(p, x);
            && PoolOk(p', all) && (ok <==> x in p.alloc) && p'.alloc == p.alloc - {x}
  {}

  // ---------------------------------------------------------------- nodes and policies

  // 0: local first; 1: alternate local and shared; 2: round robin.
  datatype Node = Node(policy: nat, pool: nat, next: nat)

  // Pools 0 .. shared-1 are shared; node k owns pool shared + k. A node's `pool` is 0 for
  // the local one and i for shared pool i - 1.
  datatype State = State(shared: nat, pools: seq<Pool>, nodes: seq<Node>)

  function Next(x: nat, shared: nat): (r: nat)
    ensures r <= shared && (x <= shared ==> r == if x == shared then 0 else x + 1)
  {
    (x + 1) % (shared + 1)
  }

  function Advance(n: Node, shared: nat): Node {
    var x := Next(n.next, shared);
    if n.policy == 2 then n.(next := x, pool := x)
    else if n.policy == 1 then
      if n.pool != 0 then n.(pool := 0)
      else if x != 0 then n.(next := x, pool := x)
      else n.(next := 1, pool := 1)
    else n.(pool := 0)
  }

  // BadIndex: the source would index a pool that does not exist.
  datatype Outcome = Granted(address: nat) | Drained | BadIndex

  function Put(s: State, i: nat, p: Pool, k: nat, n: Node): State
    requires i < |s.pools| && k < |s.nodes|
  {
    s.(pools := s.pools[i := p], nodes := s.nodes[k := n])
  }

  // Policy 0 takes the first shared pool with a free frame.
  function FirstShared(s: State, k: nat, i: nat): (State, Outcome)
    requires k < |s.nodes| && s.shared <= |s.pools| && i <= s.shared
    decreases s.shared - i
  {
    if i == s.shared then (s, Drained)
    else if s.pools[i].available >= 1 && s.pools[i].free != [] then
      var (p, f) := Allocate(s.pools[i]);
      (Put(s, i, p, k, s.nodes[k]), Granted(f.address))
    else FirstShared(s, k, i + 1)
  }

  // The next shared pool of the node's policy.
  function AdvanceShared(n: Node, shared: nat): Node {
    var n' := Advance(n, shared);
    if n'.pool == 0 then Advance(n', shared) else n'
  }

  // The other policies search on from the node's pool, as often as there are shared pools.
  function Search(s: State, k: nat, tries: nat): (State, Outcome)
    requires k < |s.nodes| && s.shared <= |s.pools|
    decreases tries
  {
    if tries == 0 then (s, Drained)
    else
      var n := AdvanceShared(s.nodes[k], s.shared);
      var s1 := s.(nodes := s.nodes[k := n]);
      if n.pool == 0 || n.pool > s.shared then (s1, BadIndex)
      else if s.pools[n.pool - 1].available >= 1 && s.pools[n.pool - 1].free != [] then
        var (p, f) := Allocate(s.pools[n.pool - 1]);
        (Put(s, n.pool - 1, p, k, Advance(n, s.shared)), Granted(f.address))
      else Search(s1, k, tries - 1)
  }

  function AllocateShared(s: State, k: nat): (State, Outcome)
    requires k < |s.nodes| && s.shared <= |s.pools|
  {
    var n := s.nodes[k];
    if n.policy == 0 then FirstShared(s, k, 0)
    else if n.pool == 0 || n.pool > s.shared then (s, BadIndex)
    else if s.pools[n.pool - 1].available >= 1 && s.pools[n.pool - 1].free != [] then
      var (p, f) := Allocate(s.pools[n.pool - 1]);
      (Put(s, n.pool - 1, p, k, Advance(n, s.shared)), Granted(f.address))
    else Search(s, k, s.shared)
  }

  function AllocateLocal(s: State, k: nat): (State, Outcome)
    requires k < |s.nodes| && s.shared + k < |s.pools|
  {
    var i := s.shared + k;
    var n := Advance(s.nodes[k], s.shared);
    if s.pools[i].available >= 1 && s.pools[i].free != [] then
      var (p, f) := Allocate(s.pools[i]);
      (Put(s, i, p, k, n), Granted(f.address))
    else AllocateShared(s.(nodes := s.nodes[k := n]), k)
  }

  // A page fault of node k; a fault on the root always asks the local pool.
  function Process(s: State, k: nat, root: bool): (State, Outcome)
    requires k < |s.nodes| && s.shared + k < |s.pools|
  {
    if root || s.nodes[k].pool == 0 then AllocateLocal(s, k) else AllocateShared(s, k)
  }

  // ---------------------------------------------------------------- the invariant

  ghost predicate Inv(s: State, alls: seq<set<nat>>) {
    && |s.pools| == |alls| == s.shared + |s.nodes|
    && (forall i :: 0 <= i < |alls| ==> PoolOk(s.pools[i], alls[i]))
    && (forall i, j :: 0 <= i < j < |alls| ==> alls[i] !! alls[j])
    && (forall k :: 0 <= k < |s.nodes| ==> NodeOk(s.nodes[k], s.shared))
  }

  // Without shared pools the alternating policy still moves its cursor to 1.
  function Last(policy: nat, shared: nat): nat { if policy == 1 && shared == 0 then 1 else shared }

  ghost predicate NodeOk(n: Node, shared: nat) {
    && n.policy <= 2 && n.next <= Last(n.policy, shared) && n.pool <= n.next
    && (n.policy == 0 ==> n.pool == 0)
    && (n.policy == 1 && n.pool != 0 ==> n.pool == n.next)
    && (n.policy == 2 ==> n.pool == n.next)
  }

  ghost predicate Allocated(s: State, f: nat) { exists i :: 0 <= i < |s.pools| && f in s.pools[i].alloc }

  // Handing out one frame: it was allocated nowhere, and nothing else changes hands.
  ghost predicate Hands(s: State, s': State, o: Outcome) {
    && (o.Granted? ==>
          && !Allocated(s, o.address)
          && forall f: nat :: Allocated(s', f) <==> Allocated(s, f) || f == o.address)
    && (!o.Granted? ==> s'.pools == s.pools)
    && s'.shared == s.shared && |s'.nodes| == |s.nodes| && |s'.pools| == |s.pools|
  }

  lemma AdvanceOk(n: Node, shared: nat)
    requires NodeOk(n, shared)
    ensures NodeOk(Advance(n, shared), shared)
  {}

  lemma Owner(s: State, alls: seq<set<nat>>, i: nat, f: nat)
    requires Inv(s, alls) && i < |alls| && f in alls[i]
    ensures Allocated(s, f) <==> f in s.pools[i].alloc
  {
    if Allocated(s, f) {
      var j :| 0 <= j < |s.pools| && f in s.pools[j].alloc;
      assert f in alls[j];
      assert i == j;
    }
  }

  // Taking a frame from pool i and moving node k's cursor.
  lemma GrantKeeps(s: State, alls: seq<set<nat>>, i: nat, k: nat, n: Node)
    requires Inv(s, alls) && i < |s.pools| && k < |s.nodes| && NodeOk(n, s.shared) && s.pools[i].available >= 1
    ensures var (p, f) := Allocate(s.pools[i]);
            f.Frame? && Inv(Put(s, i, p, k, n), alls) && Hands(s, Put(s, i, p, k, n), Granted(f.address))
  {
    hide PoolOk;
    AllocateKeeps(s.pools[i], alls[i]);
    var (p, f) := Allocate(s.pools[i]);
    var s' := Put(s, i, p, k, n);
    Owner(s, alls, i, f.address);
    forall g: nat ensures Allocated(s', g) <==> Allocated(s, g) || g == f.address {
      if Allocated(s', g) {
        var j :| 0 <= j < |s'.pools| && g in s'.pools[j].alloc;
        if g != f.address { assert g in s.pools[j].alloc; }
      }
      if Allocated(s, g) {
        var j :| 0 <= j < |s.pools| && g in s.pools[j].alloc;
        assert g in s'.pools[j].alloc;
      }
      assert f.address in s'.pools[i].alloc;
    }
  }

  lemma NodeKeeps(s: State, alls: seq<set<nat>>, k: nat, n: Node)
    requires Inv(s, alls) && k < |s.nodes| && NodeOk(n, s.shared)
    ensures Inv(s.(nodes := s.nodes[k := n]), alls)
  {}

  lemma HasFrame(p: Pool, all: set<nat>)
    requires PoolOk(p, all)
    ensures p.available >= 1 <==> p.free != []
  {}

  lemma {:induction false} FirstSharedKeeps(s: State, alls: seq<set<nat>>, k: nat, i: nat)
    requires Inv(s, alls) && k < |s.nodes| && i <= s.shared
    ensures var (s', o) := FirstShared(s, k, i);
            && Inv(s', alls) && Hands(s, s', o) && !o.BadIndex?
            && (o.Drained? <==> forall j :: i <= j < s.shared ==> s.pools[j].available == 0)
    decreases s.shared - i
  {
    hide PoolOk, Hands, Allocate;
    if i < s.shared {
      HasFrame(s.pools[i], alls[i]);
      Counter(s.pools[i], alls[i]);
      if s.pools[i].available >= 1 {
        GrantKeeps(s, alls, i, k, s.nodes[k]);
      } else {
        FirstSharedKeeps(s, alls, k, i + 1);
      }
    } else {
      assert Hands(s, s, Drained) by { NothingHanded(s, Drained); }
    }
  }

  lemma Counter(p: Pool, all: set<nat>)
    requires PoolOk(p, all)
    ensures p.available >= 0
  {}

  lemma NothingHanded(s: State, o: Outcome)
    requires !o.Granted?
    ensures Hands(s, s, o)
  {}

  // The pools visited in `tries` steps are the next ones in cyclic order.
  function Cyclic(from: nat, steps: nat, shared: nat): nat
    requires 1 <= from <= shared
  {
    if from + steps <= shared then from + steps else from + steps - shared
  }

  lemma AdvanceSharedIsNext(n: Node, shared: nat)
    requires NodeOk(n, shared) && shared > 0 && n.policy > 0 && n.pool > 0
    ensures var n' := AdvanceShared(n, shared);
            NodeOk(n', shared) && n'.pool == Cyclic(n.pool, 1, shared) && n'.policy == n.policy
  {
    hide Next;
  }

  lemma {:induction false} SearchKeeps(s: State, alls: seq<set<nat>>, k: nat, tries: nat)
    requires Inv(s, alls) && k < |s.nodes| && tries <= s.shared && s.shared > 0
    requires s.nodes[k].policy > 0 && s.nodes[k].pool > 0
    ensures var (s', o) := Search(s, k, tries);
            && Inv(s', alls) && Hands(s, s', o) && !o.BadIndex?
            && (o.Drained? <==> forall j :: 1 <= j <= tries ==> Empty(s, Cyclic(s.nodes[k].pool, j, s.shared)))
    decreases tries
  {
    hide PoolOk, Hands, Allocate, Advance, AdvanceShared;
    if tries == 0 {
      NothingHanded(s, Drained);
    } else {
      var n := AdvanceShared(s.nodes[k], s.shared);
      AdvanceSharedIsNext(s.nodes[k], s.shared);
      var s1 := s.(nodes := s.nodes[k := n]);
      NodeKeeps(s, alls, k, n);
      HasFrame(s.pools[n.pool - 1], alls[n.pool - 1]);
      Counter(s.pools[n.pool - 1], alls[n.pool - 1]);
      if s.pools[n.pool - 1].available >= 1 {
        AdvanceOk(n, s.shared);
        GrantKeeps(s, alls, n.pool - 1, k, Advance(n, s.shared));
        assert !Empty(s, Cyclic(s.nodes[k].pool, 1, s.shared));
      } else {
        SearchKeeps(s1, alls, k, tries - 1);
        HandsFrom(s, s1, Search(s1, k, tries - 1).0, Search(s1, k, tries - 1).1);
        OneEmptyMore(s, s1, s.nodes[k].pool, tries);
      }
    }
  }

  // The next pool is empty, and so the first `tries` pools from here on are exactly if those
  // from the next one on are.
  lemma OneEmptyMore(s: State, s1: State, from: nat, tries: nat)
    requires 1 <= from <= s.shared && 1 <= tries <= s.shared && s1.pools == s.pools && s1.shared == s.shared
    requires Empty(s, Cyclic(from, 1, s.shared))
    ensures (forall j :: 1 <= j <= tries ==> Empty(s, Cyclic(from, j, s.shared))) <==>
            (forall j :: 1 <= j <= tries - 1 ==> Empty(s1, Cyclic(Cyclic(from, 1, s.shared), j, s.shared)))
  {
    var next := Cyclic(from, 1, s.shared);
    forall j | 1 <= j <= tries - 1
      ensures Empty(s1, Cyclic(next, j, s.shared)) <==> Empty(s, Cyclic(from, j + 1, s.shared))
    {}
    if forall j :: 1 <= j <= tries - 1 ==> Empty(s1, Cyclic(next, j, s.shared)) {
      forall j | 1 <= j <= tries ensures Empty(s, Cyclic(from, j, s.shared)) {
        if j > 1 { assert Empty(s1, Cyclic(next, j - 1, s.shared)); }
      }
    }
  }

  ghost predicate Empty(s: State, pool: nat) { 1 <= pool <= s.shared <= |s.pools| && s.pools[pool - 1].available == 0 }

  lemma HandsFrom(s: State, s1: State, s': State, o: Outcome)
    requires s1.pools == s.pools && s1.shared == s.shared && |s1.nodes| == |s.nodes| && Hands(s1, s', o)
    ensures Hands(s, s', o)
  {
    assert forall f: nat :: Allocated(s1, f) <==> Allocated(s, f);
  }

  // Every shared pool is visited.
  lemma CyclicVisitsAll(from: nat, shared: nat, m: nat)
    requires 1 <= from <= shared && 1 <= m <= shared
    ensures exists j :: 1 <= j <= shared && Cyclic(from, j, shared) == m
  {
    var j := if m > from then m - from else m + shared - from;
    assert Cyclic(from, j, shared) == m;
  }

  ghost predicate AllEmpty(s: State) { forall m :: 1 <= m <= s.shared ==> Empty(s, m) }

  // The shared allocation indexes a missing pool exactly if the cursor is at no shared
  // pool, and otherwise gives up only when every shared pool is empty.
  lemma AllocateSharedKeeps(s: State, alls: seq<set<nat>>, k: nat)
    requires Inv(s, alls) && k < |s.nodes|
    ensures var (s', o) := AllocateShared(s, k);
            && Inv(s', alls) && Hands(s, s', o)
            && (o.BadIndex? <==> s.nodes[k].policy > 0 && !(1 <= s.nodes[k].pool <= s.shared))
            && (o.Drained? <==> !o.BadIndex? && AllEmpty(s))
  {
    hide PoolOk, Hands, Allocate, Advance, Search, FirstShared;
    var n := s.nodes[k];
    if n.policy == 0 {
      FirstSharedKeeps(s, alls, k, 0);
      assert AllEmpty(s) <==> forall j :: 0 <= j < s.shared ==> s.pools[j].available == 0 by {
        if AllEmpty(s) {
          forall j | 0 <= j < s.shared ensures s.pools[j].available == 0 { assert Empty(s, j + 1); }
        }
      }
    } else if n.pool == 0 || n.pool > s.shared {
      NothingHanded(s, BadIndex);
    } else {
      HasFrame(s.pools[n.pool - 1], alls[n.pool - 1]);
      Counter(s.pools[n.pool - 1], alls[n.pool - 1]);
      if s.pools[n.pool - 1].available >= 1 {
        AdvanceOk(n, s.shared);
        GrantKeeps(s, alls, n.pool - 1, k, Advance(n, s.shared));
        assert !Empty(s, n.pool);
      } else {
        SearchKeeps(s, alls, k, s.shared);
        if Search(s, k, s.shared).1.Drained? {
          forall m | 1 <= m <= s.shared ensures Empty(s, m) {
            CyclicVisitsAll(n.pool, s.shared, m);
            var j :| 1 <= j <= s.shared && Cyclic(n.pool, j, s.shared) == m;
          }
        }
      }
    }
  }

  // The fault is put to the local pool first.
  predicate AsksLocal(s: State, k: nat, root: bool)
    requires k < |s.nodes|
  {
    root || s.nodes[k].pool == 0
  }

  predicate LocalEmpty(s: State, k: nat)
    requires k < |s.nodes| && s.shared + k < |s.pools|
  {
    s.pools[s.shared + k].available == 0
  }

  // The ways to a pool that does not exist. With shared pools: a root fault finds the local
  // pool empty while the policy's cursor is about to come back to it. With none: every
  // fault the local pool does not serve, unless the policy is local first.
  predicate CursorTrap(s: State, k: nat, root: bool)
    requires k < |s.nodes| && s.shared + k < |s.pools|
  {
    var n := s.nodes[k];
    if s.shared == 0 then n.policy > 0 && (AsksLocal(s, k, root) ==> LocalEmpty(s, k))
    else root && LocalEmpty(s, k) && ((n.policy == 1 && n.pool != 0) || (n.policy == 2 && n.pool == s.shared))
  }

  // Main result for one fault: the frame granted was free everywhere, ownership of no other
  // frame changes, a missing pool is indexed exactly in the trap, and otherwise the request
  // is refused exactly if all the pools it may use are empty.
  lemma ProcessKeeps(s: State, alls: seq<set<nat>>, k: nat, root: bool)
    requires Inv(s, alls) && k < |s.nodes|
    ensures var (s', o) := Process(s, k, root);
            && Inv(s', alls) && Hands(s, s', o)
            && (o.BadIndex? <==> CursorTrap(s, k, root))
            && (o.Drained? <==> !CursorTrap(s, k, root) && AllEmpty(s) && (AsksLocal(s, k, root) ==> LocalEmpty(s, k)))
  {
    hide PoolOk, Hands, Allocate, AllocateShared, AllEmpty, Next;
    var n := s.nodes[k];
    if AsksLocal(s, k, root) {
      var i := s.shared + k;
      HasFrame(s.pools[i], alls[i]);
      Counter(s.pools[i], alls[i]);
      AdvanceOk(n, s.shared);
      if s.pools[i].available >= 1 {
        GrantKeeps(s, alls, i, k, Advance(n, s.shared));
      } else {
        var s1 := s.(nodes := s.nodes[k := Advance(n, s.shared)]);
        NodeKeeps(s, alls, k, Advance(n, s.shared));
        TrapAhead(n, s.shared);
        AllocateSharedKeeps(s1, alls, k);
        SameEmpty(s, s1);
        HandsFrom(s, s1, AllocateShared(s1, k).0, AllocateShared(s1, k).1);
      }
    } else {
      AllocateSharedKeeps(s, alls, k);
    }
  }

  // Where the cursor of a node stands after the local pool was found empty.
  lemma TrapAhead(n: Node, shared: nat)
    requires NodeOk(n, shared)
    ensures var n' := Advance(n, shared);
            && n'.policy == n.policy
            && (shared == 0 ==> !(1 <= n'.pool <= shared))
            && (shared > 0 ==> (n'.pool <= shared && (n.policy > 0 && n'.pool == 0
                  <==> (n.policy == 1 && n.pool != 0) || (n.policy == 2 && n.pool == shared))))
  {}

  lemma SameEmpty(s: State, s': State)
    requires s'.pools == s.pools && s'.shared == s.shared
    ensures AllEmpty(s') <==> AllEmpty(s)
  {
    assert forall m :: Empty(s', m) <==> Empty(s, m);
  }

  // ---------------------------------------------------------------- a manager as built

  // A pool's first address, its size and its frames' size, the sizes in KB.
  datatype PoolSpec = PoolSpec(start: nat, size: nat, frame: nat) {
    function Frames(): nat requires frame > 0 { size / frame }

    function Bytes(): nat { frame * 1024 }
  }

  // Shared pools first, then one pool and one policy for each node.
  datatype Config = Config(shared: nat, pools: seq<PoolSpec>, policies: seq<nat>) {
    // The modelled policies, and address ranges that do not overlap.
    ghost predicate Valid() {
      && |pools| == shared + |policies|
      && (forall i :: 0 <= i < |pools| ==> pools[i].frame > 0)
      && (forall k :: 0 <= k < |policies| ==> policies[k] <= 2)
      && (forall i, j :: 0 <= i < |pools| && 0 <= j < |pools| && i != j ==> Apart(pools[i], pools[j]))
    }
  }

  ghost predicate Apart(p: PoolSpec, q: PoolSpec)
    requires p.frame > 0 && q.frame > 0
  {
    FrameAt(p.start, p.Bytes(), p.Frames()) <= q.start || FrameAt(q.start, q.Bytes(), q.Frames()) <= p.start
  }

  function BuildPool(p: PoolSpec): Pool
    requires p.frame > 0
  {
    Build(p.start, p.Bytes(), p.Frames())
  }

  ghost function FramesOf(p: PoolSpec): set<nat>
    requires p.frame > 0
  {
    set f | f in BuildPool(p).free
  }

  ghost function Start(c: Config): State
    requires c.Valid()
  {
    State(c.shared, seq(|c.pools|, i requires 0 <= i < |c.pools| => BuildPool(c.pools[i])),
          seq(|c.policies|, k requires 0 <= k < |c.policies| => Node(c.policies[k], 0, 0)))
  }

  ghost function Alls(c: Config): seq<set<nat>>
    requires c.Valid()
  {
    seq(|c.pools|, i requires 0 <= i < |c.pools| => FramesOf(c.pools[i]))
  }

  lemma FrameInRange(p: PoolSpec, f: nat)
    requires p.frame > 0 && f in FramesOf(p)
    ensures p.start <= f < FrameAt(p.start, p.Bytes(), p.Frames())
  {
    var i :| 0 <= i < |BuildPool(p).free| && f == BuildPool(p).free[i];
    FramesApart(p.start, p.Bytes(), i, p.Frames());
    if i > 0 { FramesApart(p.start, p.Bytes(), 0, i); }
  }

  // Every run starts from the invariant.
  lemma StartOk(c: Config)
    requires c.Valid()
    ensures Inv(Start(c), Alls(c))
  {
    hide PoolOk, Build, FrameAt;
    forall i | 0 <= i < |c.pools| ensures PoolOk(Start(c).pools[i], Alls(c)[i]) {
      BuildOk(c.pools[i].start, c.pools[i].Bytes(), c.pools[i].Frames());
    }
    forall i, j | 0 <= i < j < |c.pools| ensures Alls(c)[i] !! Alls(c)[j] {
      assert Apart(c.pools[i], c.pools[j]);
      forall f | f in Alls(c)[i] && f in Alls(c)[j] ensures false {
        FrameInRange(c.pools[i], f);
        FrameInRange(c.pools[j], f);
      }
    }
  }

  // ---------------------------------------------------------------- runs

  datatype Act = Fault(k: nat, root: bool) | Return(pool: nat, address: nat)

  function Step(s: State, a: Act): (State, Outcome)
    requires |s.pools| == s.shared + |s.nodes|
  {
    match a
    case Fault(k, root) => if k < |s.nodes| then Process(s, k, root) else (s, Drained)
    case Return(i, x) => if i < |s.pools| then (s.(pools := s.pools[i := Deallocate(s.pools[i], x).0]), Drained) else (s, Drained)
  }

  // From the manager as built, through all acts.
  ghost function Run(c: Config, acts: seq<Act>): (r: State)
    requires c.Valid()
    ensures Inv(r, Alls(c)) && r.shared == c.shared && |r.nodes| == |c.policies|
  {
    if acts == [] then (StartOk(c); Start(c))
    else
      var s0 := Run(c, acts[..|acts| - 1]);
      StepKeeps(s0, Alls(c), acts[|acts| - 1]);
      Step(s0, acts[|acts| - 1]).0
  }

  lemma StepKeeps(s: State, alls: seq<set<nat>>, a: Act)
    requires Inv(s, alls)
    ensures Inv(Step(s, a).0, alls) && Step(s, a).0.shared == s.shared && |Step(s, a).0.nodes| == |s.nodes|
  {
    hide PoolOk, Process, Deallocate;
    match a {
      case Fault(k, root) => if k < |s.nodes| { ProcessKeeps(s, alls, k, root); }
      case Return(i, x) => if i < |s.pools| { DeallocateKeeps(s.pools[i], alls[i], x); }
    }
  }

  // In every run of every manager a frame granted is in nobody's hands: no frame is handed
  // out twice without having been returned in between. It is one of the manager's frames.
  lemma NoFrameTwice(c: Config, acts: seq<Act>, k: nat, root: bool)
    requires c.Valid() && k < |c.policies|
    ensures var s0 := Run(c, acts);
            var (s1, o) := Process(s0, k, root);
            && (o.Granted? ==> !Allocated(s0, o.address) && Allocated(s1, o.address))
            && (o.Granted? ==> exists i :: 0 <= i < |c.pools| && o.address in FramesOf(c.pools[i]))
  {
    hide PoolOk, Process, Allocated;
    var s0 := Run(c, acts);
    ProcessKeeps(s0, Alls(c), k, root);
    var (s1, o) := Process(s0, k, root);
    assert Hands(s0, s1, o);
    if o.Granted? { OwnFrame(c, s1, o.address); }
  }

  lemma OwnFrame(c: Config, s: State, f: nat)
    requires c.Valid() && Inv(s, Alls(c)) && Allocated(s, f)
    ensures exists i :: 0 <= i < |c.pools| && f in FramesOf(c.pools[i])
  {
    hide FramesOf;
    var i :| 0 <= i < |s.pools| && f in s.pools[i].alloc;
    assert f in Alls(c)[i];
  }

  // The addresses granted in a run.
  ghost function Grants(c: Config, acts: seq<Act>): seq<nat>
    requires c.Valid()
  {
    if acts == [] then []
    else
      var o := Step(Run(c, acts[..|acts| - 1]), acts[|acts| - 1]).1;
      Grants(c, acts[..|acts| - 1]) + (if o.Granted? then [o.address] else [])
  }

  // As long as nothing is returned, all addresses ever granted differ: what a page table
  // needs for its frames.
  lemma {:induction false} GrantsAreDistinct(c: Config, acts: seq<Act>)
    requires c.Valid() && forall i :: 0 <= i < |acts| ==> acts[i].Fault?
    ensures Distinct(Grants(c, acts))
    ensures forall i :: 0 <= i < |Grants(c, acts)| ==> Allocated(Run(c, acts), Grants(c, acts)[i])
  {
    hide PoolOk, NodeOk, Process, Allocated, Start, Config.Valid;
    if acts != [] {
      var before, a := acts[..|acts| - 1], acts[|acts| - 1];
      GrantsAreDistinct(c, before);
      var s0 := Run(c, before);
      var g0 := Grants(c, before);
      if a.k < |s0.nodes| {
        ProcessKeeps(s0, Alls(c), a.k, a.root);
        var (s1, o) := Process(s0, a.k, a.root);
        assert s1 == Run(c, acts) && Hands(s0, s1, o);
        forall i | 0 <= i < |g0| ensures Allocated(s1, g0[i]) && (o.Granted? ==> g0[i] != o.address) {
          assert Allocated(s0, g0[i]);
          if !o.Granted? { SamePools(s0, s1, g0[i]); }
        }
      }
    }
  }

  lemma SamePools(s: State, s': State, f: nat)
    requires s'.pools == s.pools && Allocated(s, f)
    ensures Allocated(s', f)
  {}

  // ---------------------------------------------------------------- runs into the trap

  // One node with one local frame after a fault: the frame is gone and the cursor has moved.
  lemma OneFault(c: Config, root: bool)
    requires c.Valid() && |c.policies| == 1 && c.pools[c.shared].Frames() > 0
    ensures var s := Run(c, [Fault(0, root)]);
            && s.nodes == [Advance(Node(c.policies[0], 0, 0), c.shared)]
            && s.pools[c.shared].available == c.pools[c.shared].Frames() - 1
  {
    hide Advance, Build, FrameAt;
    var acts := [Fault(0, root)];
    assert acts[..0] == [];
    var s0 := Run(c, []);
    assert s0 == Start(c) && s0.pools[c.shared].free != [] && s0.pools[c.shared].available > 0 by {
      BuildSize(c.pools[c.shared].start, c.pools[c.shared].Bytes(), c.pools[c.shared].Frames());
    }
    BuildSize(c.pools[c.shared].start, c.pools[c.shared].Bytes(), c.pools[c.shared].Frames());
    assert Run(c, acts) == Step(s0, acts[0]).0;
    assert Step(s0, acts[0]) == AllocateLocal(s0, 0);
  }

  lemma BuildSize(start: nat, size: nat, frames: nat)
    ensures |Build(start, size, frames).free| == Build(start, size, frames).available == frames
  {}

  // The trap is met with one shared pool, however large: by a root fault after the only
  // local frame is gone.
  lemma TrapIsReached(policy: nat, size: nat, root: bool)
    requires 1 <= policy <= 2
    ensures var c := Config(1, [PoolSpec(0, size, 4), PoolSpec(FrameAt(0, 4096, size / 4), 4, 4)], [policy]);
            c.Valid() && Process(Run(c, [Fault(0, root)]), 0, true).1.BadIndex?
  {
    hide Process, Run;
    var c := Config(1, [PoolSpec(0, size, 4), PoolSpec(FrameAt(0, 4096, size / 4), 4, 4)], [policy]);
    OneFault(c, root);
    ProcessKeeps(Run(c, [Fault(0, root)]), Alls(c), 0, true);
  }

  // With none it is met at the fault after the last local frame, root or not, at the latest.
  lemma TrapWithoutShared(policy: nat, root: bool)
    requires 1 <= policy <= 2
    ensures var c := Config(0, [PoolSpec(0, 4, 4)], [policy]);
            c.Valid() && Process(Run(c, [Fault(0, root)]), 0, root).1.BadIndex?
  {
    hide Process, Run;
    var c := Config(0, [PoolSpec(0, 4, 4)], [policy]);
    OneFault(c, root);
    ProcessKeeps(Run(c, [Fault(0, root)]), Alls(c), 0, root);
  }

  // ---------------------------------------------------------------- order

  // Frames taken one after the other.
  function TakeMany(p: Pool, n: nat): (Pool, seq<nat>)
    decreases n
  {
    if n == 0 then (p, [])
    else
      var (p1, f) := Allocate(p);
      if f.NoFrame? then (p, [])
      else
        var (p2, rest) := TakeMany(p1, n - 1);
        (p2, [f.address] + rest)
  }

  // Frames are taken from the front and come back at the end, so one that was given back
  // is used again only after all that were free by then.
  lemma {:induction false} FirstComeFirstServed(p: Pool, n: nat)
    requires n <= |p.free|
    ensures TakeMany(p, n).1 == p.free[..n] && TakeMany(p, n).0.free == p.free[n..]
    decreases n
  {
    if n > 0 {
      var (p1, f) := Allocate(p);
      FirstComeFirstServed(p1, n - 1);
      assert p.free[1..][..n - 1] == p.free[1..n] && p.free[..n] == [p.free[0]] + p.free[1..n];
      assert p.free[1..][n - 1..] == p.free[n..];
    }
  }

  lemma ReturnedLast(p: Pool, x: nat)
    requires x in p.alloc
    ensures Deallocate(p, x).0.free == p.free + [x]
  {}

  // A new pool grants its frames in address order.
  lemma GrantsAscend(start: nat, size: nat, frames: nat, n: nat, i: nat)
    requires i < n <= frames
    ensures var q := TakeMany(Build(start, size, frames), n).1; |q| == n && q[i] == i * size + start
  {
    FirstComeFirstServed(Build(start, size, frames), n);
  }

  // The cursor of a node after n moves.
  function Moves(n0: Node, shared: nat, n: nat): Node {
    if n == 0 then n0 else Advance(Moves(n0, shared, n - 1), shared)
  }

  // The shared pool that is k-th in turn, from 0 on.
  function InTurn(k: nat, shared: nat): nat
    requires shared > 0
  {
    k % shared + 1
  }

  lemma NextInTurn(k: nat, shared: nat)
    requires shared > 0
    ensures InTurn(k + 1, shared) == (if InTurn(k, shared) == shared then 1 else InTurn(k, shared) + 1)
    ensures 1 <= InTurn(k, shared) <= shared && InTurn(0, shared) == 1
  {
    RemStep(k, shared);
  }

  lemma RemStep(k: nat, n: nat)
    requires n > 0
    ensures (k + 1) % n == if k % n == n - 1 then 0 else k % n + 1
  {
    var q, r := k / n, k % n;
    assert k == q * n + r;
    if r == n - 1 { RemOf(q + 1, 0, n); assert k + 1 == (q + 1) * n; } else { RemOf(q, r + 1, n); }
  }

  lemma RemOf(q: nat, r: nat, n: nat)
    requires r < n
    ensures (q * n + r) % n == r
  {
    var k := q * n + r;
    if k / n < q { MultipleApart(k / n, q, n); } else if q < k / n { MultipleApart(q, k / n, n); }
  }

  lemma MultipleApart(a: nat, b: nat, n: nat)
    requires a < b
    ensures a * n + n <= b * n
  {
    assert b * n == a * n + (b - a) * n;
    assert (b - a) * n == n + (b - a - 1) * n;
  }

  // Main result: where a node's cursor stands after n moves. Local first: at the local pool.
  // Round robin: through all pools, the local one first. Alternating: at the local pool
  // after an even number of moves, else at the next shared one in turn.
  lemma {:induction false} CursorExactly(policy: nat, shared: nat, n: nat)
    requires policy <= 2 && shared > 0
    ensures var x := Moves(Node(policy, 0, 0), shared, n);
            && x.policy == policy
            && (policy == 0 ==> x.pool == 0)
            && (policy == 2 ==> x.pool == x.next == n % (shared + 1))
            && (policy == 1 ==> x.pool == if n % 2 == 0 then 0 else InTurn(n / 2, shared))
            && (policy == 1 ==> x.next == if n == 0 then 0 else InTurn((n - 1) / 2, shared))
  {
    hide InTurn, Next;
    if n > 0 {
      CursorExactly(policy, shared, n - 1);
      RemStep(n - 1, shared + 1);
      NextInTurn((n - 1) / 2, shared);
      if n >= 2 { NextInTurn((n - 2) / 2, shared); }
      assert n % 2 == 1 ==> n / 2 == (n - 1) / 2 && (n >= 2 ==> (n - 2) / 2 + 1 == n / 2);
    }
  }
}
