// Page faults of several cores sharing one page table: each faulting walker builds the
// missing levels top down with frames from the page fault handler, while other cores
// fault, wait or translate. Pages are 4 KB page numbers.
module SambaFaults {
  // Where a core's fault stands: the event that is on its way to or from the walker.
  datatype Msg = Idle | Fault | Asked | Answer(frame: nat) | Served

  datatype Core = Core(
    stall: bool,
    page: nat,         // the page the walker last faulted on
    level: nat,        // the level being built
    msg: Msg,
    cached: set<nat>,  // pages in the core's translation buffers
    done: set<nat>)    // pages of requests on their way back

  // The page table shared by the cores.
  datatype Tables = Tables(
    rooted: bool, root: nat,
    pgd: map<nat, nat>, pud: map<nat, nat>, pmd: map<nat, nat>, pte: map<nat, nat>,
    mapped: set<nat>,    // pages whose fault is served
    pending: set<nat>,   // pages with a fault under way
    fatal: bool)         // a fault found every level present

  datatype System = System(
    t: Tables, cores: seq<Core>,
    used: set<nat>,                // frames handed out
    writes: seq<nat>,              // pages whose entry was written, in order
    released: seq<(nat, nat)>)     // page and frame of each request passed to the cache

  // Index of a page's entry at each upper level.
  function Key1(p: nat): nat { p / 512 }

  function Key2(p: nat): nat { p / 262144 }

  function Key3(p: nat): nat { p / 134217728 }

  const EMPTY: Tables := Tables(false, 0, map[], map[], map[], map[], {}, {}, false)

  const NEW_CORE: Core := Core(false, 0, 0, Idle, {}, {})

  // ---------------------------------------------------------------- the walker

  // The walker meets a request for an unmapped page.
  function Detect(t: Tables, c: Core, p: nat): (Tables, Core) {
    if c.stall || p in t.mapped then (t, c)
    else if p in t.pending then (t, c.(stall := true, page := p))
    else (t.(pending := t.pending + {p}), c.(stall := true, page := p, msg := Fault))
  }

  // The first level that is missing, or 5 if none is.
  function MissingLevel(t: Tables, p: nat): nat {
    if !t.rooted then 4
    else if Key3(p) !in t.pgd then 3
    else if Key2(p) !in t.pud then 2
    else if Key1(p) !in t.pmd then 1
    else if p !in t.pte then 0
    else 5
  }

  function HandleFault(t: Tables, c: Core): (Tables, Core) {
    if !c.msg.Fault? then (t, c)
    else
      var l := MissingLevel(t, c.page);
      if l == 5 then (t.(fatal := true), c) else (t.(rooted := true), c.(level := l, msg := Asked))
  }

  // A frame arrives for the level being built; the next lower one is asked for.
  function HandleResponse(t: Tables, c: Core): (Tables, Core) {
    if !c.msg.Answer? then (t, c)
    else
      var a := c.msg.frame;
      var next := c.(level := if c.level > 0 then c.level - 1 else 0, msg := Asked);
      if c.level == 4 then (t.(rooted := true, root := a), next)
      else if c.level == 3 then (t.(pgd := t.pgd[Key3(c.page) := a]), next)
      else if c.level == 2 then (t.(pud := t.pud[Key2(c.page) := a]), next)
      else if c.level == 1 then (t.(pmd := t.pmd[Key1(c.page) := a]), next)
      else (t.(pte := t.pte[c.page := a]), c.(msg := Served))
  }

  function HandleServed(t: Tables, c: Core): (Tables, Core) {
    if !c.msg.Served? then (t, c)
    else (t.(mapped := t.mapped + {c.page}, pending := t.pending - {c.page}), c.(msg := Idle))
  }

  // A stalled walker looks whether its page has been served.
  function Unstall(t: Tables, c: Core): Core {
    if c.stall && c.page !in t.pending then c.(stall := false) else c
  }

  // ---------------------------------------------------------------- the system

  datatype Act =
    | DetectAt(p: nat) | FaultEvent | Allocate(frame: nat) | ResponseEvent | ServedEvent | StalledTick
    | Walk(p: nat)      // a mapped page's walk completes
    | Hit(p: nat)       // a request hits a translation buffer
    | Insert(p: nat)    // a finished request's page enters a buffer
    | Evict(p: nat)
    | Release(p: nat)   // a finished request is translated and passed to the cache

  function Put(s: System, i: nat, tc: (Tables, Core)): System
    requires i < |s.cores|
  {
    s.(t := tc.0, cores := s.cores[i := tc.1])
  }

  // One event at core i. The fault handler never hands out a frame twice.
  function Step(s: System, i: nat, a: Act): System {
    if i >= |s.cores| then s
    else
      var c := s.cores[i];
      match a
      case DetectAt(p) => Put(s, i, Detect(s.t, c, p))
      case FaultEvent => Put(s, i, HandleFault(s.t, c))
      case Allocate(f) =>
        if c.msg.Asked? && f !in s.used then s.(cores := s.cores[i := c.(msg := Answer(f))], used := s.used + {f}) else s
      case ResponseEvent =>
        Put(s, i, HandleResponse(s.t, c)).(writes := if c.msg.Answer? && c.level == 0 then s.writes + [c.page] else s.writes)
      case ServedEvent => Put(s, i, HandleServed(s.t, c))
      case StalledTick => s.(cores := s.cores[i := Unstall(s.t, c)])
      case Walk(p) => if !c.stall && p in s.t.mapped then s.(cores := s.cores[i := c.(done := c.done + {p})]) else s
      case Hit(p) => if p in c.cached then s.(cores := s.cores[i := c.(done := c.done + {p})]) else s
      case Insert(p) => if p in c.done then s.(cores := s.cores[i := c.(cached := c.cached + {p})]) else s
      case Evict(p) => s.(cores := s.cores[i := c.(cached := c.cached - {p})])
      case Release(p) =>
        if !c.stall && p in c.done then s.(released := s.released + [(p, Lookup(s.t, p))]) else s
  }

  // A missing entry reads as 0, as a default-initialised map entry does.
  function Lookup(t: Tables, p: nat): nat { if p in t.pte then t.pte[p] else 0 }

  function Run(cores: nat, acts: seq<(nat, Act)>): System {
    if acts == [] then System(EMPTY, seq(cores, i => NEW_CORE), {}, [], [])
    else Step(Run(cores, acts[..|acts| - 1]), acts[|acts| - 1].0, acts[|acts| - 1].1)
  }

  // ---------------------------------------------------------------- the invariant

  // Entries exist top down.
  ghost predicate TopDown(t: Tables) {
    && (forall p :: p in t.pte ==> t.rooted && Key3(p) in t.pgd && Key2(p) in t.pud && Key1(p) in t.pmd)
    && t.mapped <= t.pte.Keys && t.pte.Keys <= t.mapped + t.pending
    && t.mapped !! t.pending && !t.fatal
  }

  // The levels above the one a core builds exist; its page has no entry before it writes it.
  ghost predicate Building(t: Tables, c: Core) {
    && (!c.msg.Idle? ==> c.stall && c.page in t.pending)
    && (c.msg.Fault? || c.msg.Asked? || c.msg.Answer? ==> c.page !in t.pte)
    && (c.msg.Asked? || c.msg.Answer? ==>
          && c.level <= 4 && t.rooted
          && (c.level <= 2 ==> Key3(c.page) in t.pgd)
          && (c.level <= 1 ==> Key2(c.page) in t.pud)
          && (c.level == 0 ==> Key1(c.page) in t.pmd))
    && (c.msg.Served? ==> c.page in t.pte)
    && c.cached <= t.mapped && c.done <= t.mapped
  }

  // At most one core builds a page, and the frames under way are distinct and not in use.
  ghost predicate Apart(c: Core, d: Core) {
    && (!c.msg.Idle? && !d.msg.Idle? ==> c.page != d.page)
    && (c.msg.Answer? && d.msg.Answer? ==> c.msg.frame != d.msg.frame)
  }

  ghost predicate FramesOk(s: System) {
    && (forall p :: p in s.t.pte ==> s.t.pte[p] in s.used)
    && (forall p, q :: p in s.t.pte && q in s.t.pte && p != q ==> s.t.pte[p] != s.t.pte[q])
    && (forall i :: 0 <= i < |s.cores| && s.cores[i].msg.Answer? ==>
          s.cores[i].msg.frame in s.used && s.cores[i].msg.frame !in s.t.pte.Values)
  }

  // Each entry was written once, and every released request carries its page's entry.
  ghost predicate HistoryOk(s: System) {
    && (forall p :: p in s.t.pte <==> p in s.writes)
    && (forall i, j :: 0 <= i < j < |s.writes| ==> s.writes[i] != s.writes[j])
    && (forall k :: 0 <= k < |s.released| ==> s.released[k].0 in s.t.pte && s.released[k].1 == s.t.pte[s.released[k].0])
  }

  ghost predicate Inv(s: System) {
    && TopDown(s.t)
    && (forall i :: 0 <= i < |s.cores| ==> Building(s.t, s.cores[i]))
    && (forall i, j :: 0 <= i < j < |s.cores| ==> Apart(s.cores[i], s.cores[j]))
    && FramesOk(s) && HistoryOk(s)
  }

  // What the other cores may rely on when one core acts.
  ghost predicate Grows(t: Tables, t': Tables, p: nat) {
    && (t.rooted ==> t'.rooted)
    && t.pgd.Keys <= t'.pgd.Keys && t.pud.Keys <= t'.pud.Keys && t.pmd.Keys <= t'.pmd.Keys
    && t.pte.Keys <= t'.pte.Keys <= t.pte.Keys + {p}
    && t.mapped <= t'.mapped && t.pending - {p} <= t'.pending
  }

  lemma OthersKeepBuilding(t: Tables, t': Tables, p: nat, d: Core)
    requires Building(t, d) && Grows(t, t', p) && (d.msg.Idle? || d.page != p)
    ensures Building(t', d)
  {}

  // The four table-changing handlers, each on its own core and table.
  lemma DetectKeeps(t: Tables, c: Core, p: nat)
    requires TopDown(t) && Building(t, c)
    ensures var (t', c') := Detect(t, c, p);
            && TopDown(t') && Building(t', c') && Grows(t, t', p) && t'.pte == t.pte
            && (!c'.msg.Idle? ==> (c'.msg == c.msg && c'.page == c.page) || (c'.page == p && p !in t.pending))
            && (c'.msg.Answer? ==> c'.msg == c.msg)
  {}

  // The fatal branch cannot be taken: a pending page has no entry yet.
  lemma FaultKeeps(t: Tables, c: Core)
    requires TopDown(t) && Building(t, c)
    ensures var (t', c') := HandleFault(t, c);
            && TopDown(t') && Building(t', c') && Grows(t, t', c.page) && t'.pte == t.pte
            && c'.page == c.page && (c'.msg.Idle? <==> c.msg.Idle?) && (c'.msg.Answer? ==> c'.msg == c.msg)
            && (c.msg.Fault? ==> MissingLevel(t, c.page) < 5)
  {}

  lemma ResponseKeeps(t: Tables, c: Core)
    requires TopDown(t) && Building(t, c)
    ensures var (t', c') := HandleResponse(t, c);
            && TopDown(t') && Building(t', c') && Grows(t, t', c.page)
            && c'.page == c.page && (c'.msg.Idle? <==> c.msg.Idle?) && !c'.msg.Answer?
            && t'.pte == (if c.msg.Answer? && c.level == 0 then t.pte[c.page := c.msg.frame] else t.pte)
            && (c.msg.Answer? && c.level == 0 ==> c.page !in t.pte)
  {}

  lemma ServedKeeps(t: Tables, c: Core)
    requires TopDown(t) && Building(t, c)
    ensures var (t', c') := HandleServed(t, c);
            && TopDown(t') && Building(t', c') && Grows(t, t', c.page) && t'.pte == t.pte
            && c'.page == c.page && (!c'.msg.Idle? ==> c'.msg == c.msg)
  {}

  // One core acts on the table: everything that concerns the others survives.
  lemma PutKeeps(s: System, i: nat, t': Tables, c': Core, p: nat)
    requires Inv(s) && i < |s.cores|
    requires TopDown(t') && Building(t', c') && Grows(s.t, t', p) && t'.pte == s.t.pte
    requires !c'.msg.Idle? ==> (c'.page == s.cores[i].page && !s.cores[i].msg.Idle?) || (c'.page == p && p !in s.t.pending)
    requires c'.msg.Answer? ==> c'.msg == s.cores[i].msg
    requires (!s.cores[i].msg.Idle? && p == s.cores[i].page) || p !in s.t.pending || s.t.pending <= t'.pending
    ensures Inv(s.(t := t', cores := s.cores[i := c']))
  {
    var s' := s.(t := t', cores := s.cores[i := c']);
    forall j | 0 <= j < |s.cores| && j != i
      ensures Building(t', s.cores[j]) && Apart(c', s.cores[j]) && Apart(s.cores[j], c')
    {
      assert Building(s.t, s.cores[j]) && Building(s.t, s.cores[i]);
      assert Apart(s.cores[i], s.cores[j]) || Apart(s.cores[j], s.cores[i]);
      if !(s.t.pending <= t'.pending) { OthersKeepBuilding(s.t, t', p, s.cores[j]); }
    }
    assert FramesOk(s') && HistoryOk(s');
  }

  lemma AllocateKeeps(s: System, i: nat, f: nat)
    requires Inv(s) && i < |s.cores|
    ensures Inv(Step(s, i, Allocate(f)))
  {
    var c := s.cores[i];
    if c.msg.Asked? && f !in s.used {
      var s' := Step(s, i, Allocate(f));
      assert Building(s.t, c);
      forall j | 0 <= j < |s.cores| && j != i ensures Apart(s'.cores[i], s.cores[j]) && Apart(s.cores[j], s'.cores[i]) {
        assert Apart(c, s.cores[j]) || Apart(s.cores[j], c);
      }
      assert f !in s.t.pte.Values;
    }
  }

  lemma ResponseStepKeeps(s: System, i: nat)
    requires Inv(s) && i < |s.cores|
    ensures Inv(Step(s, i, ResponseEvent))
  {
    var c := s.cores[i];
    assert Building(s.t, c);
    ResponseKeeps(s.t, c);
    var (t', c') := HandleResponse(s.t, c);
    var s' := Step(s, i, ResponseEvent);
    forall j | 0 <= j < |s.cores| && j != i
      ensures Building(t', s.cores[j]) && Apart(c', s.cores[j]) && Apart(s.cores[j], c')
      ensures s.cores[j].msg.Answer? ==> s.cores[j].msg.frame !in t'.pte.Values
    {
      assert Building(s.t, s.cores[j]);
      assert Apart(c, s.cores[j]) || Apart(s.cores[j], c);
      if !c.msg.Idle? { OthersKeepBuilding(s.t, t', c.page, s.cores[j]); }
    }
    assert HistoryOk(s');
  }

  lemma StepKeeps(s: System, i: nat, a: Act)
    requires Inv(s)
    ensures Inv(Step(s, i, a))
  {
    hide TopDown, Grows, FramesOk, HistoryOk, Detect, HandleFault, HandleResponse, HandleServed;
    if i < |s.cores| {
      var c := s.cores[i];
      assert Building(s.t, c);
      match a {
        case DetectAt(p) => DetectKeeps(s.t, c, p); DetectPending(s.t, c, p); PutKeeps(s, i, Detect(s.t, c, p).0, Detect(s.t, c, p).1, p);
        case FaultEvent => FaultKeeps(s.t, c); FaultPending(s.t, c); PutKeeps(s, i, HandleFault(s.t, c).0, HandleFault(s.t, c).1, c.page);
        case Allocate(f) => AllocateKeeps(s, i, f);
        case ResponseEvent => ResponseStepKeeps(s, i);
        case ServedEvent => ServedStepKeeps(s, i);
        case _ => LocalKeeps(s, i, a);
      }
    }
  }

  lemma DetectPending(t: Tables, c: Core, p: nat)
    ensures t.pending <= Detect(t, c, p).0.pending
  {}

  lemma FaultPending(t: Tables, c: Core)
    ensures t.pending <= HandleFault(t, c).0.pending
  {}

  lemma ServedStepKeeps(s: System, i: nat)
    requires Inv(s) && i < |s.cores|
    ensures Inv(Step(s, i, ServedEvent))
  {
    hide TopDown, Grows, FramesOk, HistoryOk;
    var c := s.cores[i];
    assert Building(s.t, c);
    ServedKeeps(s.t, c);
    if c.msg.Served? {
      PutKeeps(s, i, HandleServed(s.t, c).0, HandleServed(s.t, c).1, c.page);
    } else {
      assert s.cores[i := c] == s.cores;
    }
  }

  lemma LocalKeeps(s: System, i: nat, a: Act)
    requires Inv(s) && i < |s.cores|
    requires a.StalledTick? || a.Walk? || a.Hit? || a.Insert? || a.Evict? || a.Release?
    ensures Inv(Step(s, i, a))
  {
    hide TopDown, FramesOk, HistoryOk, Step, Apart;
    var s' := Step(s, i, a);
    LocalCore(s, i, a);
    LocalHistory(s, i, a);
    forall j | 0 <= j < |s.cores| && j != i ensures Apart(s'.cores[i], s.cores[j]) && Apart(s.cores[j], s'.cores[i]) {
      LocalApart(s.cores[i], s'.cores[i], s.cores[j]);
    }
  }

  lemma LocalCore(s: System, i: nat, a: Act)
    requires i < |s.cores| && Building(s.t, s.cores[i]) && FramesOk(s)
    requires a.StalledTick? || a.Walk? || a.Hit? || a.Insert? || a.Evict? || a.Release?
    ensures var s' := Step(s, i, a);
            && s'.t == s.t && s'.cores == s.cores[i := s'.cores[i]] && Building(s.t, s'.cores[i]) && FramesOk(s')
            && s'.cores[i].msg == s.cores[i].msg && s'.cores[i].page == s.cores[i].page
  {
    hide Key1, Key2, Key3;
  }

  lemma LocalApart(c: Core, c': Core, d: Core)
    requires c'.msg == c.msg && c'.page == c.page
    ensures Apart(c, d) || Apart(d, c) ==> Apart(c', d) && Apart(d, c')
  {}

  lemma LocalHistory(s: System, i: nat, a: Act)
    requires i < |s.cores| && Building(s.t, s.cores[i]) && TopDown(s.t) && HistoryOk(s)
    requires a.StalledTick? || a.Walk? || a.Hit? || a.Insert? || a.Evict? || a.Release?
    ensures HistoryOk(Step(s, i, a))
  {
    hide Key1, Key2, Key3, Unstall;
  }

  // Main result: in every interleaving of any number of cores the page table is built top
  // down, the fatal branch is never taken, each page's entry is written once and has a
  // frame of its own, and every request passed to the cache carries that frame.
  lemma {:induction false} EveryFaultRun(cores: nat, acts: seq<(nat, Act)>)
    ensures Inv(Run(cores, acts))
  {
    hide Step, TopDown, Building, Apart;
    if acts == [] {
      InitialOk(cores);
    } else {
      EveryFaultRun(cores, acts[..|acts| - 1]);
      StepKeeps(Run(cores, acts[..|acts| - 1]), acts[|acts| - 1].0, acts[|acts| - 1].1);
    }
  }

  lemma InitialOk(cores: nat)
    ensures Inv(Run(cores, []))
  {}

  // Two requests for one page, on whatever cores, are always sent to one frame, and
  // requests for two pages never are.
  lemma TranslationIsInjective(cores: nat, acts: seq<(nat, Act)>, k: nat, m: nat)
    requires k < |Run(cores, acts).released| && m < |Run(cores, acts).released|
    ensures var r := Run(cores, acts).released; r[k].0 == r[m].0 <==> r[k].1 == r[m].1
  {
    EveryFaultRun(cores, acts);
  }

  // A core whose page is served is free again at its next clock.
  lemma ServedCoreContinues(cores: nat, acts: seq<(nat, Act)>, i: nat)
    requires i < |Run(cores, acts).cores|
    requires var s := Run(cores, acts); s.cores[i].stall && s.cores[i].page in s.t.mapped
    ensures !Step(Run(cores, acts), i, StalledTick).cores[i].stall
  {
    EveryFaultRun(cores, acts);
  }

  // A core is working on the page's fault.
  ghost predicate Owner(cores: seq<Core>, p: nat) {
    exists i :: 0 <= i < |cores| && !cores[i].msg.Idle? && cores[i].page == p
  }

  lemma OwnerAfter(s: System, i: nat, a: Act, p: nat)
    requires Inv(s) && i < |s.cores| && p in Step(s, i, a).t.pending
    requires p in s.t.pending ==> Owner(s.cores, p)
    ensures Owner(Step(s, i, a).cores, p)
  {
    hide TopDown, FramesOk, HistoryOk, Apart, Building, Step;
    var s' := Step(s, i, a);
    CoreOwns(s, i, a, p);
    if p in s.t.pending {
      var j :| 0 <= j < |s.cores| && !s.cores[j].msg.Idle? && s.cores[j].page == p;
      assert !s'.cores[j].msg.Idle? && s'.cores[j].page == p;
    }
  }

  // The acting core keeps a page that stays pending, and owns one that becomes so.
  lemma CoreOwns(s: System, i: nat, a: Act, p: nat)
    requires i < |s.cores| && Building(s.t, s.cores[i]) && p in Step(s, i, a).t.pending
    ensures var s' := Step(s, i, a);
            && |s'.cores| == |s.cores| && (forall j :: 0 <= j < |s.cores| && j != i ==> s'.cores[j] == s.cores[j])
            && (p !in s.t.pending || (!s.cores[i].msg.Idle? && s.cores[i].page == p) ==>
                  !s'.cores[i].msg.Idle? && s'.cores[i].page == p)
  {
    hide Key1, Key2, Key3, MissingLevel;
  }

  // No page stays pending without a core that is still building it, so nobody waits in vain.
  lemma {:induction false} PendingIsOwned(cores: nat, acts: seq<(nat, Act)>, p: nat)
    requires p in Run(cores, acts).t.pending
    ensures Owner(Run(cores, acts).cores, p)
  {
    if acts != [] {
      var before, x := acts[..|acts| - 1], acts[|acts| - 1];
      EveryFaultRun(cores, before);
      if p in Run(cores, before).t.pending { PendingIsOwned(cores, before, p); }
      if x.0 < |Run(cores, before).cores| { OwnerAfter(Run(cores, before), x.0, x.1, p); }
    }
  }
}
