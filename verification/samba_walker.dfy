// The page table walker and the table it shares with other cores, as objects.
module SambaWalker {
  import F = SambaFaults

  class PageTable {
    var rooted: bool
    var root: nat
    var pgd: map<nat, nat>
    var pud: map<nat, nat>
    var pmd: map<nat, nat>
    var pte: map<nat, nat>
    var mapped: set<nat>
    var pending: set<nat>
    var fatal: bool

    ghost function Model(): F.Tables
      reads this
    {
      F.Tables(rooted, root, pgd, pud, pmd, pte, mapped, pending, fatal)
    }

    constructor ()
      ensures Model() == F.EMPTY
    {
      rooted, root, pgd, pud, pmd, pte, mapped, pending, fatal := false, 0, map[], map[], map[], map[], {}, {}, false;
    }
  }

  class Walker {
    const t: PageTable
    var stall: bool
    var page: nat
    var level: nat
    var msg: F.Msg
    var cached: set<nat>
    var done: set<nat>

    ghost function Model(): F.Core
      reads this
    {
      F.Core(stall, page, level, msg, cached, done)
    }

    constructor (t: PageTable)
      ensures this.t == t && Model() == F.NEW_CORE
    {
      this.t := t;
      stall, page, level, msg, cached, done := false, 0, 0, F.Idle, {}, {};
    }

    // The sneak peek at a request's page before it is dispatched.
    method Detect(p: nat)
      modifies this, t
      ensures (t.Model(), Model()) == F.Detect(old(t.Model()), old(Model()), p)
    {
      if stall || p in t.mapped { return; }
      page := p;
      if p !in t.pending {
        t.pending := t.pending + {p};
        msg := F.Fault;
      }
      stall := true;
    }

    method HandlePageFault()
      requires msg.Fault?
      modifies this, t
      ensures (t.Model(), Model()) == F.HandleFault(old(t.Model()), old(Model()))
    {
      var l;
      if !t.rooted { l := 4; }
      else if F.Key3(page) !in t.pgd { l := 3; }
      else if F.Key2(page) !in t.pud { l := 2; }
      else if F.Key1(page) !in t.pmd { l := 1; }
      else if page !in t.pte { l := 0; }
      else {
        t.fatal := true;
        return;
      }
      level := l;
      if !t.rooted { t.rooted := true; }
      msg := F.Asked;
    }

    method HandleResponse(frame: nat)
      requires msg == F.Answer(frame)
      modifies this, t
      ensures (t.Model(), Model()) == F.HandleResponse(old(t.Model()), old(Model()))
    {
      if level == 4 {
        t.rooted := true;
        t.root := frame;
        level := level - 1;
        msg := F.Asked;
      } else if level == 3 {
        t.pgd := t.pgd[F.Key3(page) := frame];
        level := level - 1;
        msg := F.Asked;
      } else if level == 2 {
        t.pud := t.pud[F.Key2(page) := frame];
        level := level - 1;
        msg := F.Asked;
      } else if level == 1 {
        t.pmd := t.pmd[F.Key1(page) := frame];
        level := level - 1;
        msg := F.Asked;
      } else {
        t.pte := t.pte[page := frame];
        msg := F.Served;
      }
    }

    method HandleServed()
      requires msg.Served?
      modifies this, t
      ensures (t.Model(), Model()) == F.HandleServed(old(t.Model()), old(Model()))
    {
      t.mapped := t.mapped + {page};
      t.pending := t.pending - {page};
      msg := F.Idle;
    }

    method StalledTick()
      modifies this`stall
      ensures Model() == F.Unstall(t.Model(), old(Model()))
    {
      if stall && page !in t.pending { stall := false; }
    }

    // Finished requests leave for the cache, the last first, each with its page's frame.
    method ReleaseAll(requests: seq<nat>) returns (out: seq<(nat, nat)>)
      ensures |out| == |requests|
      ensures forall k :: 0 <= k < |out| ==> out[k] == (requests[|requests| - 1 - k], F.Lookup(t.Model(), requests[|requests| - 1 - k]))
    {
      out := [];
      var left := requests;
      while left != []
        invariant left == requests[..|left|] && |left| + |out| == |requests|
        invariant forall k :: 0 <= k < |out| ==>
          out[k] == (requests[|requests| - 1 - k], F.Lookup(t.Model(), requests[|requests| - 1 - k]))
        decreases |left|
      {
        var p := left[|left| - 1];
        out := out + [(p, if p in t.pte then t.pte[p] else 0)];
        left := left[..|left| - 1];
      }
    }
  }
}
