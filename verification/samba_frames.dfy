// The frames behind every level of the shared page table: each table page, like each data
// page, is a frame that was granted for it and for nothing else.
module SambaFrames {
  import opened SambaFaults

  // The tables of a level: 3 is the topmost below the root, 0 holds the pages themselves.
  function TableAt(t: Tables, level: nat): map<nat, nat> {
    match level
    case 0 => t.pte
    case 1 => t.pmd
    case 2 => t.pud
    case 3 => t.pgd
    case _ => map[]
  }

  ghost predicate EntryAt(t: Tables, level: nat, key: nat, frame: nat) {
    key in TableAt(t, level) && TableAt(t, level)[key] == frame
  }

  // The index of a page's entry at a level.
  function KeyAt(level: nat, page: nat): nat {
    match level
    case 0 => page
    case 1 => Key1(page)
    case 2 => Key2(page)
    case _ => Key3(page)
  }

  ghost predicate HeldFrames(t: Tables, used: set<nat>) {
    && (forall l, k, f :: EntryAt(t, l, k, f) ==> f in used)
    && (forall l, k, f, m, j :: EntryAt(t, l, k, f) && EntryAt(t, m, j, f) ==> l == m && k == j)
  }

  // A frame on its way is in no table yet, and on its way to one core only.
  ghost predicate FreshAnswers(s: System) {
    && (forall i :: 0 <= i < |s.cores| && s.cores[i].msg.Answer? ==> s.cores[i].msg.frame in s.used)
    && (forall i, l, k :: 0 <= i < |s.cores| && s.cores[i].msg.Answer? ==> !EntryAt(s.t, l, k, s.cores[i].msg.frame))
    && (forall i, j :: 0 <= i < |s.cores| && 0 <= j < |s.cores| && i != j && s.cores[i].msg.Answer? ==> s.cores[j].msg != s.cores[i].msg)
  }

  ghost predicate OneUse(s: System) { HeldFrames(s.t, s.used) && FreshAnswers(s) }

  // Main result for one answer: below the root the frame granted becomes the entry of the
  // level being built, for the page the core faulted on, and every other entry at every
  // level stays.
  lemma AnswerIsFiled(t: Tables, c: Core, l: nat, k: nat, f: nat)
    requires c.msg.Answer? && c.level <= 4
    ensures var t' := HandleResponse(t, c).0;
            EntryAt(t', l, k, f) <==>
            if l == c.level && l < 4 && k == KeyAt(l, c.page) then f == c.msg.frame else EntryAt(t, l, k, f)
    ensures c.level == 4 ==> HandleResponse(t, c).0.rooted && HandleResponse(t, c).0.root == c.msg.frame
  {
    hide HandleResponse, TableAt, KeyAt;
    AnswerTables(t, c);
    TableOf(t, c, l);
  }

  // The tables after an answer.
  function Filed(t: Tables, c: Core): Tables
    requires c.msg.Answer?
  {
    var a := c.msg.frame;
    match c.level
    case 0 => t.(pte := t.pte[c.page := a])
    case 1 => t.(pmd := t.pmd[Key1(c.page) := a])
    case 2 => t.(pud := t.pud[Key2(c.page) := a])
    case 3 => t.(pgd := t.pgd[Key3(c.page) := a])
    case _ => t.(rooted := true, root := a)
  }

  lemma AnswerTables(t: Tables, c: Core)
    requires c.msg.Answer? && c.level <= 4
    ensures HandleResponse(t, c).0 == Filed(t, c)
  {
    hide Key1, Key2, Key3;
    match c.level {
      case 0 =>
      case 1 =>
      case 2 =>
      case 3 =>
      case _ =>
    }
  }

  lemma TableOf(t: Tables, c: Core, l: nat)
    requires c.msg.Answer? && c.level <= 4
    ensures TableAt(Filed(t, c), l) == if l == c.level && l < 4 then TableAt(t, l)[KeyAt(l, c.page) := c.msg.frame] else TableAt(t, l)
  {
    hide Key1, Key2, Key3;
    match c.level {
      case 0 =>
      case 1 =>
      case 2 =>
      case 3 =>
      case _ =>
    }
  }

  // The table page or page entry of a level is there.
  ghost predicate Present(t: Tables, level: nat, page: nat) {
    if level == 4 then t.rooted else KeyAt(level, page) in TableAt(t, level)
  }

  // A fault asks for the topmost level that is missing, so it builds nothing that it finds
  // there; only a fault that finds everything is fatal.
  lemma FaultAsksForTopmost(t: Tables, c: Core)
    requires c.msg.Fault?
    ensures var (t', c') := HandleFault(t, c);
            var l := c'.level;
            if forall m :: 0 <= m <= 4 ==> Present(t, m, c.page) then t' == t.(fatal := true) && c' == c
            else c'.msg.Asked? && l <= 4 && !Present(t, l, c.page) && forall m :: l < m <= 4 ==> Present(t, m, c.page)
  {
    hide Key1, Key2, Key3;
    var p := c.page;
    if MissingLevel(t, p) < 5 { assert !Present(t, MissingLevel(t, p), p); }
  }

  // No other event changes an entry.
  lemma OtherEntriesStay(s: System, i: nat, a: Act, l: nat, k: nat, f: nat)
    requires i < |s.cores| && !a.ResponseEvent?
    ensures EntryAt(Step(s, i, a).t, l, k, f) <==> EntryAt(s.t, l, k, f)
  {
    hide Key1, Key2, Key3, MissingLevel, Unstall, Lookup;
  }

  lemma ResponseKeepsFrames(s: System, i: nat)
    requires OneUse(s) && i < |s.cores| && (s.cores[i].msg.Answer? ==> s.cores[i].level <= 4)
    ensures OneUse(Step(s, i, ResponseEvent))
  {
    hide HandleResponse, EntryAt;
    var c := s.cores[i];
    var s' := Step(s, i, ResponseEvent);
    ResponseParts(s, i);
    if c.msg.Answer? {
      forall l: nat, k: nat, f: nat
        ensures EntryAt(s'.t, l, k, f) <==> if l == c.level && l < 4 && k == KeyAt(l, c.page) then f == c.msg.frame else EntryAt(s.t, l, k, f)
      {
        AnswerIsFiled(s.t, c, l, k, f);
      }
    }
  }

  lemma ResponseParts(s: System, i: nat)
    requires i < |s.cores|
    ensures var s' := Step(s, i, ResponseEvent);
            && s'.used == s.used && |s'.cores| == |s.cores| && !s'.cores[i].msg.Answer?
            && (forall j :: 0 <= j < |s.cores| && j != i ==> s'.cores[j] == s.cores[j])
            && (s.cores[i].msg.Answer? ==> s'.t == HandleResponse(s.t, s.cores[i]).0)
            && (!s.cores[i].msg.Answer? ==> s'.t == s.t)
  {
    hide Key1, Key2, Key3;
  }

  lemma OtherKeepsFrames(s: System, i: nat, a: Act)
    requires OneUse(s) && i < |s.cores| && !a.ResponseEvent?
    ensures OneUse(Step(s, i, a))
  {
    hide Step, EntryAt;
    var s' := Step(s, i, a);
    OtherParts(s, i, a);
    forall l: nat, k: nat, f: nat ensures EntryAt(s'.t, l, k, f) <==> EntryAt(s.t, l, k, f) { OtherEntriesStay(s, i, a, l, k, f); }
  }

  // Only an allocation makes an answer, and its frame was not in use.
  lemma OtherParts(s: System, i: nat, a: Act)
    requires i < |s.cores| && !a.ResponseEvent?
    ensures var s' := Step(s, i, a);
            && |s'.cores| == |s.cores| && s.used <= s'.used
            && (forall j :: 0 <= j < |s.cores| && j != i ==> s'.cores[j] == s.cores[j])
            && (s'.cores[i].msg.Answer? ==>
                  s'.cores[i].msg == s.cores[i].msg || (s'.cores[i].msg.frame !in s.used && s'.cores[i].msg.frame in s'.used))
  {
    hide Key1, Key2, Key3, MissingLevel, Lookup;
  }

  // Main result: in every run, whatever the interleaving and however many levels are built
  // twice over, no frame is in two places of the table, and each was granted.
  lemma {:induction false} EveryFrameOneUse(cores: nat, acts: seq<(nat, Act)>)
    ensures OneUse(Run(cores, acts))
  {
    hide Step, OneUse;
    if acts == [] {
      InitialOneUse(cores);
    } else {
      var before, x := acts[..|acts| - 1], acts[|acts| - 1];
      EveryFrameOneUse(cores, before);
      var s := Run(cores, before);
      EveryFaultRun(cores, before);
      if x.0 < |s.cores| {
        assert Building(s.t, s.cores[x.0]);
        if x.1.ResponseEvent? { ResponseKeepsFrames(s, x.0); } else { OtherKeepsFrames(s, x.0, x.1); }
      } else {
        NoCore(s, x.0, x.1);
      }
    }
  }

  lemma NoCore(s: System, i: nat, a: Act)
    requires i >= |s.cores|
    ensures Step(s, i, a) == s
  {}

  lemma InitialOneUse(cores: nat)
    ensures OneUse(Run(cores, []))
  {}
}
