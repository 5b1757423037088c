// The memory manager as an object over its pools and nodes.
module OpalObject {
  import O = Opal

  class Manager {
    const shared: nat
    const pools: array<O.Pool>
    const nodes: array<O.Node>

    ghost function Model(): O.State
      reads pools, nodes
    {
      O.State(shared, pools[..], nodes[..])
    }

    ghost predicate Valid() { pools.Length == shared + nodes.Length }

    // Every pool built from its description, every cursor at the local pool.
    constructor (c: O.Config)
      requires c.Valid()
      ensures Valid() && fresh(pools) && fresh(nodes)
      ensures Model() == O.Start(c) && O.Inv(Model(), O.Alls(c))
    {
      shared := c.shared;
      pools := new O.Pool[|c.pools|](i requires 0 <= i < |c.pools| && c.pools[i].frame > 0 => O.BuildPool(c.pools[i]));
      nodes := new O.Node[|c.policies|](k requires 0 <= k < |c.policies| => O.Node(c.policies[k], 0, 0));
      new;
      O.StartOk(c);
      assert pools[..] == O.Start(c).pools;
      assert nodes[..] == O.Start(c).nodes;
    }

    method TakeFrame(i: nat) returns (f: O.Frame)
      requires i < pools.Length
      modifies pools
      ensures (pools[i], f) == O.Allocate(old(pools[i])) && pools[..] == old(pools[..])[i := pools[i]]
    {
      var p := pools[i];
      if p.free == [] { return O.NoFrame; }
      pools[i] := O.Pool(p.free[1..], p.alloc + {p.free[0]}, p.available - 1);
      return O.Frame(p.free[0]);
    }

    method ReturnFrame(i: nat, x: nat) returns (ok: bool)
      requires i < pools.Length
      modifies pools
      ensures (pools[i], ok) == O.Deallocate(old(pools[i]), x) && pools[..] == old(pools[..])[i := pools[i]]
    {
      var p := pools[i];
      if x !in p.alloc { return false; }
      pools[i] := O.Pool(p.free + [x], p.alloc - {x}, p.available + 1);
      return true;
    }

    method SetNextMemPool(k: nat)
      requires k < nodes.Length
      modifies nodes
      ensures nodes[..] == old(nodes[..])[k := O.Advance(old(nodes[k]), shared)]
    {
      var n := nodes[k];
      if n.policy == 2 {
        var x := (n.next + 1) % (shared + 1);
        nodes[k] := n.(next := x, pool := x);
      } else if n.policy == 1 {
        if n.pool != 0 {
          nodes[k] := n.(pool := 0);
        } else {
          var x := if (n.next + 1) % (shared + 1) != 0 then (n.next + 1) % (shared + 1) else 1;
          nodes[k] := n.(next := x, pool := x);
        }
      } else {
        nodes[k] := n.(pool := 0);
      }
    }

    // A frame of the pool, if it has one to give.
    method TryPool(i: nat) returns (f: O.Frame)
      requires i < pools.Length
      modifies pools
      ensures var p := old(pools[i]);
              if p.available >= 1 && p.free != [] then (pools[i], f) == O.Allocate(p) && pools[..] == old(pools[..])[i := pools[i]]
              else f.NoFrame? && pools[..] == old(pools[..])
    {
      if pools[i].available >= 1 { f := TakeFrame(i); } else { f := O.NoFrame; }
    }

    // Policy 0: the first shared pool that has a frame.
    method FirstFit(k: nat) returns (o: O.Outcome)
      requires Valid() && k < nodes.Length
      modifies pools
      ensures (Model(), o) == O.FirstShared(old(Model()), k, 0)
    {
      ghost var s := Model();
      var i := 0;
      while i < shared
        invariant 0 <= i <= shared && Model() == s && O.FirstShared(s, k, i) == O.FirstShared(s, k, 0)
      {
        var f := TryPool(i);
        if f.Frame? {
          assert s.nodes[k := s.nodes[k]] == s.nodes;
          return O.Granted(f.address);
        }
        i := i + 1;
      }
      return O.Drained;
    }

    method NextShared(k: nat)
      requires k < nodes.Length
      modifies nodes
      ensures nodes[..] == old(nodes[..])[k := O.AdvanceShared(old(nodes[k]), shared)]
    {
      SetNextMemPool(k);
      if nodes[k].pool == 0 { SetNextMemPool(k); }
    }

    // The other policies: on from the node's pool, as often as there are shared pools.
    method SearchOn(k: nat) returns (o: O.Outcome)
      requires Valid() && k < nodes.Length
      modifies pools, nodes
      ensures (Model(), o) == O.Search(old(Model()), k, shared)
    {
      hide O.Advance, O.AdvanceShared;
      ghost var s := Model();
      var tries := shared;
      while tries > 0
        invariant 0 <= tries <= shared
        invariant O.Search(Model(), k, tries) == O.Search(s, k, shared)
      {
        ghost var s1 := Model();
        NextShared(k);
        var n := nodes[k];
        if nodes[k].pool == 0 || nodes[k].pool > shared { return O.BadIndex; }
        var f := TryPool(nodes[k].pool - 1);
        if f.Frame? {
          SetNextMemPool(k);
          assert nodes[..] == s1.nodes[k := O.Advance(n, shared)];
          return O.Granted(f.address);
        }
        tries := tries - 1;
      }
      return O.Drained;
    }

    method AllocateShared(k: nat) returns (o: O.Outcome)
      requires Valid() && k < nodes.Length
      modifies pools, nodes
      ensures (Model(), o) == O.AllocateShared(old(Model()), k)
    {
      hide O.Advance, O.Search, O.FirstShared;
      if nodes[k].policy == 0 {
        o := FirstFit(k);
        return;
      }
      if nodes[k].pool == 0 || nodes[k].pool > shared { return O.BadIndex; }
      var f := TryPool(nodes[k].pool - 1);
      if f.Frame? {
        SetNextMemPool(k);
        return O.Granted(f.address);
      }
      o := SearchOn(k);
    }

    method AllocateLocal(k: nat) returns (o: O.Outcome)
      requires Valid() && k < nodes.Length
      modifies pools, nodes
      ensures (Model(), o) == O.AllocateLocal(old(Model()), k)
    {
      var f := TryPool(shared + k);
      SetNextMemPool(k);
      if f.Frame? { return O.Granted(f.address); }
      o := AllocateShared(k);
    }

    method ProcessRequest(k: nat, root: bool) returns (o: O.Outcome)
      requires Valid() && k < nodes.Length
      modifies pools, nodes
      ensures (Model(), o) == O.Process(old(Model()), k, root)
    {
      if root || nodes[k].pool == 0 { o := AllocateLocal(k); } else { o := AllocateShared(k); }
    }
  }
}
