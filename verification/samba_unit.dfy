// The TLB unit as an object: its clock drains answers, dispatches requests and hands back
// the finished ones, in place.
module SambaUnit {
  import opened SambaMisses

  class TlbUnit {
    const c: Config
    var input: seq<Req>
    var below: set<Req>
    var back: seq<Req>
    var pending: seq<Req>
    var pages: set<nat>
    var waiting: map<nat, set<Req>>
    var ready: map<Req, nat>
    var returned: set<Req>

    ghost function Model(): Unit
      reads this
    {
      Unit(input, below, back, pending, pages, waiting, ready, returned)
    }

    constructor (c: Config)
      ensures this.c == c && Model() == EMPTY
    {
      this.c := c;
      input, below, back, pending, pages, waiting, ready, returned := [], {}, [], [], {}, map[], map[], {};
    }

    method ErasePending(r: Req)
      modifies this`pending
      ensures pending == Remove(old(pending), r)
    {
      var i := 0;
      while i < |pending|
        invariant 0 <= i <= |pending| && pending == old(pending)
        invariant forall j :: 0 <= j < i ==> pending[j] != r
      {
        if pending[i] == r {
          pending := pending[..i] + pending[i + 1..];
          return;
        }
        i := i + 1;
      }
    }

    // The last answer, and whatever waited for its page.
    method ProcessLast(x: nat)
      requires back != []
      modifies this`back, this`pending, this`ready, this`waiting, this`pages
      ensures Model() == BackOne(c, old(Model()), x)
    {
      var r := back[|back| - 1];
      ErasePending(r);
      ready := ready[r := x + c.missDelay];
      WakeWaiters(r.page, x);
      pages := pages - {r.page};
      back := back[..|back| - 1];
    }

    method WakeWaiters(page: nat, x: nat)
      modifies this`ready, this`waiting
      ensures ready == old(ready) + Stamp(if c.coalesce then Waiters(old(Model()), page) else {}, x + c.missDelay)
      ensures waiting == if c.coalesce then old(waiting) - {page} else old(waiting)
    {
      if c.coalesce && page in waiting {
        ready := ready + Stamp(waiting[page], x + c.missDelay);
        waiting := waiting - {page};
      } else {
        assert Stamp({}, x + c.missDelay) == map[] && ready + map[] == ready;
        assert c.coalesce ==> waiting == waiting - {page};
      }
    }

    method ProcessBack(x: nat)
      modifies this`back, this`pending, this`ready, this`waiting, this`pages
      ensures Model() == BackAll(c, old(Model()), x)
    {
      ghost var s := Model();
      while back != []
        invariant BackAll(c, Model(), x) == BackAll(c, s, x)
        invariant input == s.input && below == s.below && returned == s.returned
        decreases |back|
      {
        ProcessLast(x);
      }
    }

    // One entry of the input.
    method ServeEntry(x: nat, hits: set<Req>, i: nat)
      requires i < |input|
      modifies this`input, this`ready, this`waiting, this`pending, this`below, this`pages
      ensures Model() == Serve(c, old(Model()), x, hits, i)
    {
      var r := input[i];
      if r in hits {
        ready := ready[r := x + c.hitDelay];
        input := input[..i] + input[i + 1..];
      } else if |pending| < c.maxOutstanding {
        if c.coalesce && r.page in pages {
          waiting := waiting[r.page := (if r.page in waiting then waiting[r.page] else {}) + {r}];
        } else {
          if c.coalesce { pages := pages + {r.page}; }
          pending := pending + [r];
          below := below + {r};
        }
        input := input[..i] + input[i + 1..];
      }
    }

    method DispatchInput(x: nat, hits: set<Req>)
      modifies this`input, this`ready, this`waiting, this`pending, this`below, this`pages
      ensures Model() == Dispatch(c, old(Model()), x, hits, 0, 0)
    {
      ghost var s := Model();
      var i, dispatched := 0, 0;
      while i < |input| && dispatched < c.maxWidth
        invariant 0 <= i <= |input| && 0 <= dispatched
        invariant Dispatch(c, Model(), x, hits, i, dispatched) == Dispatch(c, s, x, hits, 0, 0)
        decreases |input| - i
      {
        ServeEntry(x, hits, i);
        if i >= |input| { return; }
        i, dispatched := i + 1, dispatched + 1;
      }
    }

    method ReturnReady(x: nat)
      modifies this`ready, this`returned
      ensures Model() == Finish(old(Model()), x)
    {
      ghost var s := Model();
      while exists r :: r in ready && ready[r] <= x
        invariant Finish(Model(), x) == Finish(s, x)
        invariant Model() == s.(ready := ready, returned := returned)
        decreases ready.Keys
      {
        ghost var s1 := Model();
        var r :| r in ready && ready[r] <= x;
        returned := returned + {r};
        ready := ready - {r};
        FinishOne(s1, x, r);
      }
      FinishNone(Model(), x);
    }

    method Tick(x: nat, hits: set<Req>)
      modifies this
      ensures Model() == SambaMisses.Tick(c, old(Model()), x, hits)
    {
      ProcessBack(x);
      DispatchInput(x, hits);
      ReturnReady(x);
    }
  }

  // Requests may be handed back one at a time.
  lemma FinishOne(s: Unit, x: nat, r: Req)
    requires r in s.ready && s.ready[r] <= x
    ensures Finish(s.(ready := s.ready - {r}, returned := s.returned + {r}), x) == Finish(s, x)
  {
    var s1 := s.(ready := s.ready - {r}, returned := s.returned + {r});
    var due1 := set q | q in s1.ready && s1.ready[q] <= x;
    var due := set q | q in s.ready && s.ready[q] <= x;
    assert due == due1 + {r};
    assert s1.ready - due1 == s.ready - due;
  }

  lemma FinishNone(s: Unit, x: nat)
    requires forall r :: r in s.ready ==> s.ready[r] > x
    ensures Finish(s, x) == s
  {
    assert (set r | r in s.ready && s.ready[r] <= x) == {};
    assert s.ready - {} == s.ready;
  }
}
