// The NVM controller's power budget: counters of concurrent reads and writes, kept by maps
// of completion times, bound the weighted sum of the operations really in progress; and
// rank and bank occupations never overlap.
module Messier {
  datatype Params = Params(
    tCMD: nat, tCL: nat, tRCD: nat, tCLW: nat, tBURST: nat,
    readWeight: real, writeWeight: real, maxWeight: real, maxWrites: nat)
  {
    predicate Sensible() { readWeight >= 0.0 && writeWeight >= 0.0 && maxWeight >= 0.0 }

    // How long a row activation and a write draw current.
    function ReadTime(): nat { tCMD + tRCD }

    function WriteTime(): nat { tCMD + tCLW + tBURST }
  }

  datatype Kind = Activate | Write | Deliver

  // An operation: when it was issued, when it completes, and until when it occupies its
  // rank and bank.
  datatype Op = Op(kind: Kind, issued: nat, done: nat, rank: nat, rankUntil: nat, bank: nat, bankUntil: nat)

  datatype Dimm = Dimm(
    cycles: nat, currReads: int, currWrites: int,
    readsComplete: map<nat, nat>, writesComplete: map<nat, nat>,
    rankBusy: seq<nat>, bankBusy: seq<nat>,
    ops: seq<Op>)

  function Initial(ranks: nat, banks: nat): Dimm {
    Dimm(0, 0, 0, map[], map[], seq(ranks, i => 0), seq(banks, i => 0), [])
  }

  function At(m: map<nat, nat>, k: nat): nat { if k in m then m[k] else 0 }

  // The clock advances and retires what completes now.
  function Advance(s: Dimm): Dimm {
    var now := s.cycles + 1;
    s.(cycles := now,
       currReads := s.currReads - At(s.readsComplete, now), readsComplete := s.readsComplete - {now},
       currWrites := s.currWrites - At(s.writesComplete, now), writesComplete := s.writesComplete - {now})
  }

  predicate Free(s: Dimm, rank: nat, bank: nat) {
    rank < |s.rankBusy| && bank < |s.bankBusy| && s.rankBusy[rank] < s.cycles && s.bankBusy[bank] < s.cycles
  }

  // The current drawn by n operations of one kind.
  function Load(weight: real, n: int): real { weight * n as real }

  function Weight(p: Params, s: Dimm): real { Load(p.writeWeight, s.currWrites) + Load(p.readWeight, s.currReads) }

  function Occupy(s: Dimm, op: Op): Dimm
    requires op.rank < |s.rankBusy| && op.bank < |s.bankBusy|
  {
    s.(rankBusy := s.rankBusy[op.rank := op.rankUntil], bankBusy := s.bankBusy[op.bank := op.bankUntil], ops := s.ops + [op])
  }

  // A read that is ready in the device is transferred.
  function DeliverRead(p: Params, s: Dimm, rank: nat, bank: nat): Dimm {
    if !Free(s, rank, bank) then s
    else
      var until := s.cycles + p.tCMD + p.tCL + p.tBURST;
      Occupy(s, Op(Deliver, s.cycles, s.cycles, rank, until, bank, until))
  }

  // A buffered write goes out if rank, bank, write limit and budget allow.
  function FlushWrite(p: Params, s: Dimm, rank: nat, bank: nat): Dimm {
    if Free(s, rank, bank) && p.maxWrites > s.currWrites && Weight(p, s) <= p.maxWeight - p.writeWeight then
      var done := s.cycles + p.WriteTime();
      Occupy(s, Op(Write, s.cycles, done, rank, s.cycles + p.tCMD + p.tBURST, bank, done)).(
        currWrites := s.currWrites + 1, writesComplete := s.writesComplete[done := At(s.writesComplete, done) + 1])
    else s
  }

  // A read that misses the row buffer activates its row if the budget allows.
  function IssueRead(p: Params, s: Dimm, rank: nat, bank: nat): Dimm {
    if Free(s, rank, bank) && Weight(p, s) <= p.maxWeight - p.readWeight then
      var done := s.cycles + p.ReadTime();
      Occupy(s, Op(Activate, s.cycles, done, rank, s.cycles + p.tCMD, bank, done)).(
        currReads := s.currReads + 1, readsComplete := s.readsComplete[done := At(s.readsComplete, done) + 1])
    else s
  }

  datatype Act = Tick | Transfer(rank: nat, bank: nat) | Flush(rank: nat, bank: nat) | Issue(rank: nat, bank: nat)

  function Step(p: Params, s: Dimm, a: Act): Dimm {
    match a
    case Tick => Advance(s)
    case Transfer(r, b) => DeliverRead(p, s, r, b)
    case Flush(r, b) => FlushWrite(p, s, r, b)
    case Issue(r, b) => IssueRead(p, s, r, b)
  }

  function Run(p: Params, ranks: nat, banks: nat, acts: seq<Act>): Dimm {
    if acts == [] then Initial(ranks, banks)
    else Step(p, Run(p, ranks, banks, acts[..|acts| - 1]), acts[|acts| - 1])
  }

  // ---------------------------------------------------------------- operations in progress

  // Operations of a kind that complete after cycle c.
  function InProgress(ops: seq<Op>, k: Kind, c: nat): nat {
    if ops == [] then 0
    else
      var op := ops[|ops| - 1];
      InProgress(ops[..|ops| - 1], k, c) + (if op.kind == k && op.done > c then 1 else 0)
  }

  function CompletingAt(ops: seq<Op>, k: Kind, c: nat): nat {
    if ops == [] then 0
    else
      var op := ops[|ops| - 1];
      CompletingAt(ops[..|ops| - 1], k, c) + (if op.kind == k && op.done == c then 1 else 0)
  }

  // Operations of a kind that took no time at all.
  function Instant(ops: seq<Op>, k: Kind): nat {
    if ops == [] then 0
    else
      var op := ops[|ops| - 1];
      Instant(ops[..|ops| - 1], k) + (if op.kind == k && op.done == op.issued then 1 else 0)
  }

  lemma {:induction false} RetireCounts(ops: seq<Op>, k: Kind, c: nat)
    ensures InProgress(ops, k, c) == InProgress(ops, k, c + 1) + CompletingAt(ops, k, c + 1)
  {
    if ops != [] { RetireCounts(ops[..|ops| - 1], k, c); }
  }

  lemma OpCounts(ops: seq<Op>, op: Op, k: Kind, c: nat)
    ensures InProgress(ops + [op], k, c) == InProgress(ops, k, c) + (if op.kind == k && op.done > c then 1 else 0)
    ensures CompletingAt(ops + [op], k, c) == CompletingAt(ops, k, c) + (if op.kind == k && op.done == c then 1 else 0)
    ensures Instant(ops + [op], k) == Instant(ops, k) + (if op.kind == k && op.done == op.issued then 1 else 0)
  {
    assert (ops + [op])[..|ops + [op]| - 1] == ops;
  }

  // A counter is what is in progress and everything that took no time: that is never
  // retired. Its map says when each operation in progress completes, and holds nothing
  // else unless there were such operations.
  ghost predicate Exact(ops: seq<Op>, k: Kind, now: nat, curr: int, m: map<nat, nat>) {
    && curr == InProgress(ops, k, now) + Instant(ops, k)
    && (forall c: nat :: c in m ==> c > now || Instant(ops, k) > 0)
    && (forall c: nat :: c > now ==> At(m, c) == CompletingAt(ops, k, c))
  }

  ghost predicate Budget(p: Params, s: Dimm) {
    Weight(p, s) <= p.maxWeight && s.currWrites <= p.maxWrites && s.currReads >= 0 && s.currWrites >= 0
  }

  ghost predicate Inv(p: Params, s: Dimm) {
    && Exact(s.ops, Activate, s.cycles, s.currReads, s.readsComplete)
    && Exact(s.ops, Write, s.cycles, s.currWrites, s.writesComplete)
    && Budget(p, s)
  }

  lemma AdvanceExact(ops: seq<Op>, k: Kind, now: nat, curr: int, m: map<nat, nat>)
    requires Exact(ops, k, now, curr, m)
    ensures Exact(ops, k, now + 1, curr - At(m, now + 1), m - {now + 1})
    ensures curr - At(m, now + 1) <= curr
  {
    RetireCounts(ops, k, now);
  }

  lemma OpExact(ops: seq<Op>, op: Op, k: Kind, now: nat, curr: int, m: map<nat, nat>)
    requires Exact(ops, k, now, curr, m) && op.issued == now <= op.done
    ensures if op.kind == k then Exact(ops + [op], k, now, curr + 1, m[op.done := At(m, op.done) + 1])
            else Exact(ops + [op], k, now, curr, m)
  {
    forall c: nat ensures CompletingAt(ops + [op], k, c) == CompletingAt(ops, k, c) + (if op.kind == k && op.done == c then 1 else 0) {
      OpCounts(ops, op, k, c);
    }
    OpCounts(ops, op, k, now);
  }

  lemma WeightMonotone(w: real, a: int, b: int)
    requires w >= 0.0 && a <= b
    ensures Load(w, a) <= Load(w, b)
  {}

  lemma WeightStep(w: real, a: int)
    ensures Load(w, a + 1) == Load(w, a) + w
  {}

  lemma StepKeeps(p: Params, s: Dimm, a: Act)
    requires p.Sensible() && Inv(p, s)
    ensures Inv(p, Step(p, s, a))
  {
    hide Exact, Load, Weight;
    match a {
      case Tick => TickKeeps(p, s);
      case Transfer(r, b) => IssuedKeeps(p, s, a);
      case Flush(r, b) => IssuedKeeps(p, s, a);
      case Issue(r, b) => IssuedKeeps(p, s, a);
    }
  }

  lemma TickKeeps(p: Params, s: Dimm)
    requires p.Sensible() && Inv(p, s)
    ensures Inv(p, Advance(s))
  {
    hide Exact, Load, At;
    var s' := Advance(s);
    AdvanceExact(s.ops, Activate, s.cycles, s.currReads, s.readsComplete);
    AdvanceExact(s.ops, Write, s.cycles, s.currWrites, s.writesComplete);
    WeightMonotone(p.readWeight, s'.currReads, s.currReads);
    WeightMonotone(p.writeWeight, s'.currWrites, s.currWrites);
    ExactNonNegative(s'.ops, Activate, s'.cycles, s'.currReads, s'.readsComplete);
    ExactNonNegative(s'.ops, Write, s'.cycles, s'.currWrites, s'.writesComplete);
  }

  lemma IssuedKeeps(p: Params, s: Dimm, a: Act)
    requires Inv(p, s) && !a.Tick?
    ensures Inv(p, Step(p, s, a))
  {
    hide Exact, Load, At;
    var s' := Step(p, s, a);
    if s' != s {
      var op := s'.ops[|s.ops|];
      OpExact(s.ops, op, Activate, s.cycles, s.currReads, s.readsComplete);
      OpExact(s.ops, op, Write, s.cycles, s.currWrites, s.writesComplete);
      WeightStep(p.readWeight, s.currReads);
      WeightStep(p.writeWeight, s.currWrites);
    }
  }

  lemma ExactNonNegative(ops: seq<Op>, k: Kind, now: nat, curr: int, m: map<nat, nat>)
    requires Exact(ops, k, now, curr, m)
    ensures curr >= InProgress(ops, k, now) >= 0
  {}

  lemma InitialInv(p: Params, ranks: nat, banks: nat)
    requires p.Sensible()
    ensures Inv(p, Initial(ranks, banks))
  {}

  lemma {:induction false} RunKeeps(p: Params, ranks: nat, banks: nat, acts: seq<Act>)
    requires p.Sensible()
    ensures Inv(p, Run(p, ranks, banks, acts))
  {
    hide Inv, Step;
    if acts == [] {
      InitialInv(p, ranks, banks);
    } else {
      RunKeeps(p, ranks, banks, acts[..|acts| - 1]);
      StepKeeps(p, Run(p, ranks, banks, acts[..|acts| - 1]), acts[|acts| - 1]);
    }
  }

  // Main result: at every moment of every run, whatever the durations, the weighted sum of
  // the activations and writes really in progress is within the budget, and so is the
  // number of writes; each counter is above the truth by the operations that took no time.
  lemma PowerBudget(p: Params, ranks: nat, banks: nat, acts: seq<Act>)
    requires p.Sensible()
    ensures var s := Run(p, ranks, banks, acts);
            var w, r := InProgress(s.ops, Write, s.cycles), InProgress(s.ops, Activate, s.cycles);
            && Load(p.writeWeight, w) + Load(p.readWeight, r) <= p.maxWeight && w <= p.maxWrites
            && s.currWrites == w + Instant(s.ops, Write) && s.currReads == r + Instant(s.ops, Activate)
  {
    hide Load, Run;
    RunKeeps(p, ranks, banks, acts);
    var s := Run(p, ranks, banks, acts);
    WeightMonotone(p.readWeight, InProgress(s.ops, Activate, s.cycles), s.currReads);
    WeightMonotone(p.writeWeight, InProgress(s.ops, Write, s.cycles), s.currWrites);
  }

  // ---------------------------------------------------------------- operations without duration

  function Counter(s: Dimm, k: Kind): int { if k == Write then s.currWrites else s.currReads }

  function Time(p: Params, k: Kind): nat { if k == Write then p.WriteTime() else p.ReadTime() }

  // How far the counter is above the operations in progress.
  function Excess(s: Dimm, k: Kind): int { Counter(s, k) - InProgress(s.ops, k, s.cycles) }

  lemma ExcessIsInstant(p: Params, ranks: nat, banks: nat, acts: seq<Act>, k: Kind)
    requires p.Sensible() && k != Deliver
    ensures var s := Run(p, ranks, banks, acts); Excess(s, k) == Instant(s.ops, k)
  {
    hide Run, Instant, InProgress, CompletingAt, At, Budget;
    RunKeeps(p, ranks, banks, acts);
  }

  lemma {:induction false} InstantGrows(p: Params, ranks: nat, banks: nat, acts: seq<Act>, later: seq<Act>, k: Kind)
    ensures Instant(Run(p, ranks, banks, acts + later).ops, k) >= Instant(Run(p, ranks, banks, acts).ops, k)
    decreases |later|
  {
    hide Free, Weight, Advance;
    if later == [] {
      assert acts + later == acts;
    } else {
      var all := acts + later;
      var before := later[..|later| - 1];
      assert all[..|all| - 1] == acts + before;
      InstantGrows(p, ranks, banks, acts, before, k);
      StepOps(p, Run(p, ranks, banks, acts + before), all[|all| - 1], k);
    }
  }

  lemma StepOps(p: Params, s: Dimm, a: Act, k: Kind)
    ensures Instant(Step(p, s, a).ops, k) >= Instant(s.ops, k)
  {
    var s' := Step(p, s, a);
    if |s'.ops| > |s.ops| { OpCounts(s.ops, s'.ops[|s.ops|], k, s.cycles); }
  }

  // An activation or write issued without duration is never retired: its completion lies in
  // a cycle the clock has already passed, and whatever happens later the counter stays one
  // higher above the truth than it was.
  lemma ZeroTimeIsNeverRetired(p: Params, ranks: nat, banks: nat, acts: seq<Act>, a: Act, later: seq<Act>)
    requires p.Sensible() && (a.Issue? || a.Flush?)
    requires Time(p, if a.Flush? then Write else Activate) == 0
    requires var s := Run(p, ranks, banks, acts); |Step(p, s, a).ops| > |s.ops|
    ensures var k := if a.Flush? then Write else Activate;
            Excess(Run(p, ranks, banks, acts + [a] + later), k) >= Excess(Run(p, ranks, banks, acts), k) + 1
  {
    hide Excess, Free, Weight;
    var k := if a.Flush? then Write else Activate;
    var s := Run(p, ranks, banks, acts);
    assert (acts + [a])[..|acts + [a]| - 1] == acts;
    var s1 := Run(p, ranks, banks, acts + [a]);
    assert s1 == Step(p, s, a);
    OpCounts(s.ops, s1.ops[|s.ops|], k, s.cycles);
    InstantGrows(p, ranks, banks, acts + [a], later, k);
    ExcessIsInstant(p, ranks, banks, acts, k);
    ExcessIsInstant(p, ranks, banks, acts + [a] + later, k);
  }

  // The parameters let an operation of the kind be issued at all.
  predicate Possible(p: Params, ranks: nat, banks: nat, k: Kind) {
    && ranks > 0 && banks > 0
    && (if k == Write then p.maxWrites > 0 && p.writeWeight <= p.maxWeight else p.readWeight <= p.maxWeight)
  }

  // The counters equal the operations in progress, always.
  ghost predicate CountersExact(p: Params, ranks: nat, banks: nat, k: Kind) {
    forall acts :: Excess(Run(p, ranks, banks, acts), k) == 0
  }

  // An operation issued was possible and takes its kind's time.
  lemma IssuedIsPossible(p: Params, s: Dimm, a: Act, k: Kind)
    requires |Step(p, s, a).ops| > |s.ops| && Step(p, s, a).ops[|s.ops|].kind == k != Deliver
    requires Weight(p, s) >= 0.0 && s.currWrites >= 0
    ensures Possible(p, |s.rankBusy|, |s.bankBusy|, k)
    ensures var op := Step(p, s, a).ops[|s.ops|]; op.done == op.issued + Time(p, k)
  {
    hide Load;
  }

  lemma StepShape(p: Params, s: Dimm, a: Act)
    ensures var s' := Step(p, s, a);
            && |s'.rankBusy| == |s.rankBusy| && |s'.bankBusy| == |s.bankBusy|
            && (s'.ops == s.ops || (|s'.ops| == |s.ops| + 1 && s'.ops == s.ops + [s'.ops[|s.ops|]]))
  {
    hide Weight;
  }

  lemma {:induction false} InstantNeedsZeroTime(p: Params, ranks: nat, banks: nat, acts: seq<Act>, k: Kind)
    requires p.Sensible() && k != Deliver
    ensures var s := Run(p, ranks, banks, acts);
            && |s.rankBusy| == ranks && |s.bankBusy| == banks
            && (Instant(s.ops, k) > 0 ==> Possible(p, ranks, banks, k) && Time(p, k) == 0)
  {
    hide Inv, Weight, Step, Possible, Time;
    if acts != [] {
      var before, a := acts[..|acts| - 1], acts[|acts| - 1];
      InstantNeedsZeroTime(p, ranks, banks, before, k);
      RunKeeps(p, ranks, banks, before);
      var s := Run(p, ranks, banks, before);
      var s' := Step(p, s, a);
      StepShape(p, s, a);
      if |s'.ops| > |s.ops| {
        var op := s'.ops[|s.ops|];
        OpCounts(s.ops, op, k, s.cycles);
        LoadsNonNegative(p, s);
        if op.kind == k { IssuedIsPossible(p, s, a, k); }
      }
    }
  }

  lemma LoadsNonNegative(p: Params, s: Dimm)
    requires p.Sensible() && Inv(p, s)
    ensures Weight(p, s) >= 0.0 && s.currWrites >= 0
  {
    hide Exact;
    WeightMonotone(p.readWeight, 0, s.currReads);
    WeightMonotone(p.writeWeight, 0, s.currWrites);
    assert Load(p.readWeight, 0) == Load(p.writeWeight, 0) == 0.0;
  }

  // Main result, exactly: a counter is right at every moment of every run if and only if its
  // operations take time, or can never be issued.
  lemma CountersExactly(p: Params, ranks: nat, banks: nat, k: Kind)
    requires p.Sensible() && k != Deliver
    ensures CountersExact(p, ranks, banks, k) <==> (Possible(p, ranks, banks, k) ==> Time(p, k) >= 1)
  {
    hide Run, Excess, Instant;
    if Possible(p, ranks, banks, k) && Time(p, k) == 0 {
      FirstIssue(p, ranks, banks, k);
      var a := if k == Write then Flush(0, 0) else Issue(0, 0);
      ZeroTimeIsNeverRetired(p, ranks, banks, [Tick], a, []);
      ExcessIsInstant(p, ranks, banks, [Tick], k);
      assert [Tick] + [a] + [] == [Tick, a];
      assert Excess(Run(p, ranks, banks, [Tick, a]), k) >= 1;
    } else {
      forall acts ensures Excess(Run(p, ranks, banks, acts), k) == 0 {
        ExcessIsInstant(p, ranks, banks, acts, k);
        InstantNeedsZeroTime(p, ranks, banks, acts, k);
      }
    }
  }

  // In the first clock an operation that is possible goes out.
  lemma FirstIssue(p: Params, ranks: nat, banks: nat, k: Kind)
    requires p.Sensible() && k != Deliver && Possible(p, ranks, banks, k)
    ensures var s := Run(p, ranks, banks, [Tick]);
            |Step(p, s, if k == Write then Flush(0, 0) else Issue(0, 0)).ops| > |s.ops|
  {
    assert [Tick][..0] == [];
    var s := Run(p, ranks, banks, [Tick]);
    assert s == Advance(Run(p, ranks, banks, [])) == Advance(Initial(ranks, banks));
    assert s.currReads == s.currWrites == 0 && Load(p.readWeight, 0) == Load(p.writeWeight, 0) == 0.0;
    assert Free(s, 0, 0);
  }

  // ---------------------------------------------------------------- occupation

  // Two operations on one rank, or on one bank, follow each other without overlap, and
  // the busy marks are at least the end of every occupation.
  ghost predicate Exclusive(s: Dimm) {
    && (forall i :: 0 <= i < |s.ops| ==>
          && s.ops[i].issued <= s.cycles && s.ops[i].rank < |s.rankBusy| && s.ops[i].bank < |s.bankBusy|
          && s.ops[i].rankUntil <= s.rankBusy[s.ops[i].rank] && s.ops[i].bankUntil <= s.bankBusy[s.ops[i].bank])
    && (forall i, j :: 0 <= i < j < |s.ops| ==>
          && (s.ops[i].rank == s.ops[j].rank ==> s.ops[i].rankUntil < s.ops[j].issued)
          && (s.ops[i].bank == s.ops[j].bank ==> s.ops[i].bankUntil < s.ops[j].issued))
  }

  lemma OccupyExclusive(s: Dimm, op: Op)
    requires Exclusive(s) && Free(s, op.rank, op.bank) && op.issued == s.cycles
    requires op.rankUntil >= s.cycles && op.bankUntil >= s.cycles
    ensures Exclusive(Occupy(s, op))
  {}

  lemma StepExclusive(p: Params, s: Dimm, a: Act)
    requires Exclusive(s)
    ensures Exclusive(Step(p, s, a))
  {
    hide Exclusive, Weight;
    var s' := Step(p, s, a);
    match a {
      case Tick => ExclusiveSame(s, s');
      case _ =>
        if s' != s {
          var op := s'.ops[|s.ops|];
          OccupyExclusive(s, op);
          ExclusiveSame(Occupy(s, op), s');
        }
    }
  }

  lemma ExclusiveSame(s: Dimm, s': Dimm)
    requires Exclusive(s) && s'.ops == s.ops && s'.rankBusy == s.rankBusy && s'.bankBusy == s.bankBusy && s.cycles <= s'.cycles
    ensures Exclusive(s')
  {}

  // In every run no two operations overlap on a rank or on a bank.
  lemma {:induction false} OccupationsAreDisjoint(p: Params, ranks: nat, banks: nat, acts: seq<Act>)
    ensures Exclusive(Run(p, ranks, banks, acts))
  {
    hide Step;
    if acts != [] {
      OccupationsAreDisjoint(p, ranks, banks, acts[..|acts| - 1]);
      StepExclusive(p, Run(p, ranks, banks, acts[..|acts| - 1]), acts[|acts| - 1]);
    }
  }

  // ---------------------------------------------------------------- how long operations take

  // The command, the array access or burst, and what stays occupied meanwhile.
  predicate Timed(p: Params, op: Op) {
    match op.kind
    case Activate =>
      && op.done == op.issued + p.tCMD + p.tRCD
      && op.rankUntil == op.issued + p.tCMD && op.bankUntil == op.done
    case Write =>
      && op.done == op.issued + p.tCMD + p.tCLW + p.tBURST
      && op.rankUntil == op.issued + p.tCMD + p.tBURST && op.bankUntil == op.done
    case Deliver => op.rankUntil == op.bankUntil == op.issued + p.tCMD + p.tCL + p.tBURST
  }

  // The busy marks are no later than some operation on the rank or bank makes them.
  ghost predicate MarkedByOps(s: Dimm) {
    && (forall r :: 0 <= r < |s.rankBusy| ==> s.rankBusy[r] == 0 || exists i :: 0 <= i < |s.ops| && s.ops[i].rank == r && s.ops[i].rankUntil == s.rankBusy[r])
    && (forall b :: 0 <= b < |s.bankBusy| ==> s.bankBusy[b] == 0 || exists i :: 0 <= i < |s.ops| && s.ops[i].bank == b && s.ops[i].bankUntil == s.bankBusy[b])
  }

  lemma OccupyMarks(s: Dimm, op: Op)
    requires MarkedByOps(s) && op.rank < |s.rankBusy| && op.bank < |s.bankBusy|
    ensures MarkedByOps(Occupy(s, op))
  {
    var s' := Occupy(s, op);
    assert s'.ops[|s.ops|] == op;
    forall r | 0 <= r < |s.rankBusy| && r != op.rank && s.rankBusy[r] != 0
      ensures exists i :: 0 <= i < |s'.ops| && s'.ops[i].rank == r && s'.ops[i].rankUntil == s'.rankBusy[r]
    {
      var i :| 0 <= i < |s.ops| && s.ops[i].rank == r && s.ops[i].rankUntil == s.rankBusy[r];
      assert s'.ops[i] == s.ops[i];
    }
    forall b | 0 <= b < |s.bankBusy| && b != op.bank && s.bankBusy[b] != 0
      ensures exists i :: 0 <= i < |s'.ops| && s'.ops[i].bank == b && s'.ops[i].bankUntil == s'.bankBusy[b]
    {
      var i :| 0 <= i < |s.ops| && s.ops[i].bank == b && s.ops[i].bankUntil == s.bankBusy[b];
      assert s'.ops[i] == s.ops[i];
    }
  }

  lemma MarksSame(s: Dimm, s': Dimm)
    requires MarkedByOps(s) && s'.ops == s.ops && s'.rankBusy == s.rankBusy && s'.bankBusy == s.bankBusy
    ensures MarkedByOps(s')
  {}

  lemma StepTimes(p: Params, s: Dimm, a: Act)
    requires MarkedByOps(s) && forall i :: 0 <= i < |s.ops| ==> Timed(p, s.ops[i])
    ensures var s' := Step(p, s, a); MarkedByOps(s') && forall i :: 0 <= i < |s'.ops| ==> Timed(p, s'.ops[i])
  {
    hide MarkedByOps, Weight;
    var s' := Step(p, s, a);
    StepShape(p, s, a);
    if |s'.ops| > |s.ops| {
      OccupyMarks(s, s'.ops[|s.ops|]);
      MarksSame(Occupy(s, s'.ops[|s.ops|]), s');
    } else {
      MarksSame(s, s');
    }
  }

  // Main result: in every run each operation takes exactly its time, and keeps its rank and
  // bank for exactly its share of it.
  lemma {:induction false} EveryOperationIsTimed(p: Params, ranks: nat, banks: nat, acts: seq<Act>)
    ensures var s := Run(p, ranks, banks, acts); MarkedByOps(s) && forall i :: 0 <= i < |s.ops| ==> Timed(p, s.ops[i])
  {
    hide Step, MarkedByOps;
    if acts == [] {
      assert MarkedByOps(Initial(ranks, banks)) by { InitialMarks(ranks, banks); }
    } else {
      EveryOperationIsTimed(p, ranks, banks, acts[..|acts| - 1]);
      StepTimes(p, Run(p, ranks, banks, acts[..|acts| - 1]), acts[|acts| - 1]);
    }
  }

  lemma InitialMarks(ranks: nat, banks: nat)
    ensures MarkedByOps(Initial(ranks, banks))
  {}

  // So from the first clock on a rank and a bank are free exactly if every operation on
  // them is over.
  lemma FreeExactly(p: Params, ranks: nat, banks: nat, acts: seq<Act>, rank: nat, bank: nat)
    requires rank < ranks && bank < banks && Run(p, ranks, banks, acts).cycles > 0
    ensures var s := Run(p, ranks, banks, acts);
            Free(s, rank, bank) <==>
            forall i :: 0 <= i < |s.ops| ==>
              (s.ops[i].rank == rank ==> s.ops[i].rankUntil < s.cycles) && (s.ops[i].bank == bank ==> s.ops[i].bankUntil < s.cycles)
  {
    hide Run;
    var s := Run(p, ranks, banks, acts);
    EveryOperationIsTimed(p, ranks, banks, acts);
    OccupationsAreDisjoint(p, ranks, banks, acts);
    RunSizes(p, ranks, banks, acts);
  }

  lemma {:induction false} RunSizes(p: Params, ranks: nat, banks: nat, acts: seq<Act>)
    ensures var s := Run(p, ranks, banks, acts); |s.rankBusy| == ranks && |s.bankBusy| == banks
  {
    hide Step;
    if acts != [] {
      RunSizes(p, ranks, banks, acts[..|acts| - 1]);
      StepShape(p, Run(p, ranks, banks, acts[..|acts| - 1]), acts[|acts| - 1]);
    }
  }

  // Main result: with durations of at least a cycle, a write goes out exactly if its rank and
  // bank are free, fewer writes than allowed are in progress, and the current drawn by
  // everything in progress leaves room for one more.
  lemma WriteGoesExactly(p: Params, ranks: nat, banks: nat, acts: seq<Act>, rank: nat, bank: nat)
    requires p.Sensible() && p.WriteTime() > 0 && p.ReadTime() > 0
    ensures var s := Run(p, ranks, banks, acts);
            var w, r := InProgress(s.ops, Write, s.cycles), InProgress(s.ops, Activate, s.cycles);
            |Step(p, s, Flush(rank, bank)).ops| > |s.ops| <==>
            Free(s, rank, bank) && w < p.maxWrites && Load(p.writeWeight, w) + Load(p.readWeight, r) + p.writeWeight <= p.maxWeight
  {
    hide Run, InProgress, Free, Load;
    PowerBudget(p, ranks, banks, acts);
    InstantNeedsZeroTime(p, ranks, banks, acts, Write);
    InstantNeedsZeroTime(p, ranks, banks, acts, Activate);
    FreeInRange(Run(p, ranks, banks, acts), rank, bank);
  }

  // And a row is activated exactly if rank and bank are free and its current is available.
  lemma ActivationGoesExactly(p: Params, ranks: nat, banks: nat, acts: seq<Act>, rank: nat, bank: nat)
    requires p.Sensible() && p.WriteTime() > 0 && p.ReadTime() > 0
    ensures var s := Run(p, ranks, banks, acts);
            var w, r := InProgress(s.ops, Write, s.cycles), InProgress(s.ops, Activate, s.cycles);
            |Step(p, s, Issue(rank, bank)).ops| > |s.ops| <==>
            Free(s, rank, bank) && Load(p.writeWeight, w) + Load(p.readWeight, r) + p.readWeight <= p.maxWeight
  {
    hide Run, InProgress, Free, Load;
    PowerBudget(p, ranks, banks, acts);
    InstantNeedsZeroTime(p, ranks, banks, acts, Write);
    InstantNeedsZeroTime(p, ranks, banks, acts, Activate);
    FreeInRange(Run(p, ranks, banks, acts), rank, bank);
  }

  lemma FreeInRange(s: Dimm, rank: nat, bank: nat)
    ensures Free(s, rank, bank) ==> rank < |s.rankBusy| && bank < |s.bankBusy|
  {}
}
