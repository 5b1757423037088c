// Whole runs of the spiking engine: refinement of the synchronous network and progress.
module GnaRun {
  import opened Gna
  import opened GnaRefine

  // The neurons right after their last update, and the ones that fired in it.
  function Base(c: Config, ns: seq<Neuron>, luck: seq<set<nat>>): (seq<Neuron>, seq<nat>) {
    if |luck| == 0 then (ns, [])
    else
      var a := SyncRun(c, ns, luck[..|luck| - 1]);
      UpdateFrom(a.neurons, a.now, luck[|luck| - 1], 0)
  }

  lemma {:induction false} SyncIsBase(c: Config, ns: seq<Neuron>, luck: seq<set<nat>>)
    ensures SyncRun(c, ns, luck).now == |luck|
    ensures SyncRun(c, ns, luck).neurons == DeliverAll(Base(c, ns, luck).0, Fan(c, Base(c, ns, luck).1), |luck|)
  {
    if |luck| > 0 { SyncIsBase(c, ns, luck[..|luck| - 1]); }
  }

  // No spike is ever left in the past.
  ghost predicate KeysFrom(ns: seq<Neuron>, now: nat) {
    forall n, k :: 0 <= n < |ns| && ns[n].LIF? && k in ns[n].buf ==> now <= k
  }

  lemma {:induction false} DeliverKeys(ns: seq<Neuron>, q: seq<Synapse>, now: nat)
    requires KeysFrom(ns, now)
    ensures KeysFrom(DeliverAll(ns, q, now), now)
    decreases |q|
  {
    if q != [] { DeliverKeys(Deliver(ns, q[0], now), q[1..], now); }
  }

  lemma {:induction false} UpdateKeys(ns: seq<Neuron>, now: nat, lucky: set<nat>, i: nat)
    requires i <= |ns| && KeysFrom(ns, now) && KeysFrom(ns[..i], now + 1)
    ensures KeysFrom(UpdateFrom(ns, now, lucky, i).0, now + 1)
    decreases |ns| - i
  {
    if i < |ns| {
      var n := UpdateNeuron(ns[i], now, i in lucky).0;
      var ns' := ns[i := n];
      assert ns'[..i + 1] == ns[..i] + [n];
      UpdateKeys(ns', now, lucky, i + 1);
    } else {
      assert ns[..i] == ns;
    }
  }

  // The relation of a run to the synchronous network.
  ghost predicate Refines(c: Config, ns: seq<Neuron>, s: Engine, luck: seq<set<nat>>) {
    && Inv(c, s) && s.now == |luck| && |s.neurons| == |ns|
    && Built(s, Base(c, ns, luck).0)
    && Total(c, s) == multiset(Fan(c, Base(c, ns, luck).1))
    && KeysFrom(Base(c, ns, luck).0, s.now)
  }

  lemma InitialRefines(c: Config, ns: seq<Neuron>, units: nat)
    requires NetOk(c, |ns|)
    ensures Refines(c, ns, InitialEngine(ns, units), [])
  {
    ReceivedNothing(InitialEngine(ns, units).units);
    NothingOpen(InitialEngine(ns, units));
  }

  lemma ProcessRefines(c: Config, ns: seq<Neuron>, s: Engine, luck: seq<set<nat>>)
    requires Refines(c, ns, s, luck) && s.phase.ProcessFire?
    ensures Refines(c, ns, Process(c, s), luck)
  {
    hide Tracked, Counted, Owed, DeliverAll, AssignFrom, AdvanceFrom, KeysFrom, Base, Fan, NetOk;
    AssignFromKeeps(c, s, 0, c.dispatch);
    var s1 := AssignFrom(c, s, 0, c.dispatch);
    AdvanceFromKeeps(c, s1, 0);
    var s2 := AdvanceFrom(s1, 0);
    assert Keeps(c, s, s2);
    var s3 := Process(c, s);
    PhaseIrrelevant(c, s2, s3);
  }

  lemma PhaseIrrelevant(c: Config, s: Engine, s': Engine)
    requires s' == s.(phase := s'.phase)
    ensures Tracked(s) ==> Tracked(s')
    ensures Counted(s, 0, 0) ==> Counted(s', 0, 0)
    ensures Total(c, s') == Total(c, s)
  {
    OpenSame(s, s');
  }

  // In the update phase the engine's neurons are exactly those of the synchronous network.
  lemma IntegrateAgrees(c: Config, ns: seq<Neuron>, s: Engine, luck: seq<set<nat>>)
    requires Refines(c, ns, s, luck) && !s.phase.ProcessFire?
    ensures s.neurons == SyncRun(c, ns, luck).neurons
    ensures multiset(s.log) == multiset(Fan(c, Base(c, ns, luck).1))
    ensures s.outgoing == [] && s.inMemory == [] && Owed(c, s) == multiset{}
  {
    hide Tracked, Counted, Owed, Fan, Base, KeysFrom, NetOk;
    NothingOwed(c, s);
    SyncIsBase(c, ns, luck);
    DeliverPermuted(Base(c, ns, luck).0, s.log, Fan(c, Base(c, ns, luck).1), s.now);
  }

  lemma IntegrateRefines(c: Config, ns: seq<Neuron>, s: Engine, luck: seq<set<nat>>, lucky: set<nat>)
    requires Refines(c, ns, s, luck) && s.phase.Integrate? && s.outgoing == []
    ensures Refines(c, ns, Tick(c, s, lucky), luck + [lucky])
  {
    hide Tracked, Counted, Fan, NetOk, UpdateFrom, Received, OpenSyns, KeysFrom;
    var s' := Tick(c, s, lucky);
    SendNothing(s, c.maxOut);
    NothingOwed(c, s);
    IntegrateAgrees(c, ns, s, luck);
    SyncIsBase(c, ns, luck);
    assert (luck + [lucky])[..|luck|] == luck;
    assert Base(c, ns, luck + [lucky]) == UpdateFrom(s.neurons, s.now, lucky, 0);
    DeliverKeys(Base(c, ns, luck).0, s.log, s.now);
    EmptyPrefix(s.neurons, s.now + 1);
    UpdateKeys(s.neurons, s.now, lucky, 0);
    IntegrateTracked(s, s');
    NothingOpen(s');
    assert s'.fired == UpdateFrom(s.neurons, s.now, lucky, 0).1;
    assert Built(s', Base(c, ns, luck + [lucky]).0);
  }

  lemma EmptyPrefix(ns: seq<Neuron>, now: nat)
    ensures KeysFrom(ns[..0], now)
  {}

  lemma SendNothing(s: Engine, k: nat)
    requires s.outgoing == []
    ensures Send(s, k) == s
  {}

  lemma IntegrateTracked(s: Engine, s': Engine)
    requires Tracked(s) && Counted(s, 0, 0)
    requires s'.outgoing == s.outgoing && s'.inMemory == s.inMemory && s'.units == s.units && s'.requests == s.requests && s'.nextId == s.nextId
    ensures Tracked(s') && Counted(s', 0, 0)
  {
    OpenSame(s, s');
  }

  lemma StepRefines(c: Config, ns: seq<Neuron>, s: Engine, luck: seq<set<nat>>, a: Act)
    requires Refines(c, ns, s, luck)
    ensures Refines(c, ns, Step(c, s, a), luck + (if a.Clock? && s.phase.Integrate? then [a.lucky] else []))
  {
    hide Tracked, Counted, DeliverAll, KeysFrom, Base, Fan, NetOk, Process, Owed, Received, UpdateFrom, Respond, Send;
    assert luck + [] == luck;
    match a {
      case Answer(j) => if j < |s.inMemory| { AnswerRefines(c, ns, s, luck, j); }
      case Clock(lucky) =>
        if s.phase.Integrate? {
          NothingOwed(c, s);
          IntegrateRefines(c, ns, s, luck, lucky);
        } else {
          SendKeeps(c, s, c.maxOut);
          var s1 := Send(s, c.maxOut);
          if s.phase.ProcessFire? {
            ProcessRefines(c, ns, s1, luck);
          } else {
            PhaseIrrelevant(c, s1, Tick(c, s, lucky));
          }
        }
    }
  }

  lemma AnswerRefines(c: Config, ns: seq<Neuron>, s: Engine, luck: seq<set<nat>>, j: nat)
    requires Refines(c, ns, s, luck) && j < |s.inMemory|
    ensures Refines(c, ns, Respond(s, j), luck)
  {
    hide Tracked, Counted, DeliverAll, KeysFrom, Base, Fan, NetOk, Owed, Received, Respond;
    if !s.phase.ProcessFire? {
      NothingOwed(c, s);
      assert false;
    }
    RespondKeeps(c, s, j);
  }

  lemma {:induction false} RunRefines(c: Config, ns: seq<Neuron>, units: nat, acts: seq<Act>)
    requires NetOk(c, |ns|)
    ensures Refines(c, ns, Run(c, ns, units, acts), Luck(c, ns, units, acts))
  {
    hide Refines, Step;
    if |acts| == 0 {
      InitialRefines(c, ns, units);
    } else {
      var before := acts[..|acts| - 1];
      RunRefines(c, ns, units, before);
      StepRefines(c, ns, Run(c, ns, units, before), Luck(c, ns, units, before), acts[|acts| - 1]);
    }
  }

  // Main result: for every interleaving of clocks and memory answers, whenever the neurons
  // are about to update, the engine has delivered each synapse of each neuron that fired
  // exactly once, and its neurons are those of the synchronous network after as many
  // steps; no buffered spike lies in the past; every answer is recognised.
  lemma EngineRefinesNetwork(c: Config, ns: seq<Neuron>, units: nat, acts: seq<Act>)
    requires NetOk(c, |ns|)
    ensures var s := Run(c, ns, units, acts);
            var luck := Luck(c, ns, units, acts);
            && s.now == |luck|
            && (s.phase.Integrate? ==>
                  && s.neurons == SyncRun(c, ns, luck).neurons
                  && multiset(s.log) == multiset(Fan(c, Base(c, ns, luck).1)))
            && KeysFrom(s.neurons, s.now)
            && (forall j :: 0 <= j < |s.inMemory| ==>
                  s.inMemory[j].id in s.requests && s.requests[s.inMemory[j].id] == s.inMemory[j].from < |s.units|)
  {
    hide Counted, DeliverAll, Base, Fan, NetOk, Owed, Received, KeysFrom, OpenIds, Run, Luck, SyncRun;
    RunRefines(c, ns, units, acts);
    var s := Run(c, ns, units, acts);
    var luck := Luck(c, ns, units, acts);
    if s.phase.Integrate? { IntegrateAgrees(c, ns, s, luck); }
    DeliverKeys(Base(c, ns, luck).0, s.log, s.now);
    forall j | 0 <= j < |s.inMemory| ensures s.inMemory[j].id in s.requests && s.requests[s.inMemory[j].id] == s.inMemory[j].from < |s.units| {
      assert s.inMemory[j] in s.inMemory;
    }
  }

  // ---------------------------------------------------------------- progress

  function Waiting(units: seq<Unit>): nat {
    if units == [] then 0 else |units[0].incoming| + Waiting(units[1..])
  }

  // Work left in the fire phase.
  function Work(c: Config, s: Engine): nat {
    |s.fired| + 4 * |Fan(c, s.fired)| + 3 * |s.outgoing| + 2 * |s.inMemory| + Waiting(s.units)
  }

  lemma {:induction false} WaitingUpdate(units: seq<Unit>, u: nat, x: Unit)
    requires u < |units|
    ensures Waiting(units[u := x]) + |units[u].incoming| == Waiting(units) + |x.incoming|
  {
    if u == 0 {
      assert units[0 := x][1..] == units[1..];
    } else {
      assert units[u := x][1..] == units[1..][u - 1 := x];
      WaitingUpdate(units[1..], u - 1, x);
    }
  }

  lemma {:induction false} WaitingSame(p: seq<Unit>, q: seq<Unit>)
    requires |p| == |q| && forall u :: 0 <= u < |p| ==> p[u].incoming == q[u].incoming
    ensures Waiting(p) == Waiting(q)
  {
    if p != [] { WaitingSame(p[1..], q[1..]); }
  }

  // Assigning only lowers the work, and does so if the first unit is free and a neuron waits.
  lemma {:induction false} AssignWork(c: Config, s: Engine, u: nat, remain: int)
    requires Tracked(s) && Counted(s, 0, 0) && u <= |s.units|
    ensures Work(c, AssignFrom(c, s, u, remain)) <= Work(c, s)
    ensures u < |s.units| && s.units[u].numSpikes == 0 && s.fired != [] ==> Work(c, AssignFrom(c, s, u, remain)) < Work(c, s)
    ensures forall v :: 0 <= v < |s.units| ==> AssignFrom(c, s, u, remain).units[v].incoming == s.units[v].incoming
    decreases |s.units| - u
  {
    hide Tracked, Counted, Fan, Assign, Waiting;
    if u < |s.units| && s.fired != [] {
      var free := s.units[u].numSpikes == 0;
      var s1 := if free then Assign(s.(fired := s.fired[1..]), u, Fan(c, [s.fired[0]])) else s;
      var remain' := if free then remain - 1 else remain;
      if free {
        AssignKeeps(c, s, u);
        FanFirst(c, s.fired);
        WaitingSame(s.units, s1.units);
      }
      if remain' != 0 { AssignWork(c, s1, u + 1, remain'); }
    }
  }

  lemma {:induction false} AdvanceWork(c: Config, s: Engine, u: nat)
    requires u < |s.units|
    ensures Work(c, Advance(s, u)) == Work(c, s) - |s.units[u].incoming|
    ensures Advance(s, u).units == s.units[u := Advance(s, u).units[u]]
    decreases |s.units[u].incoming|
  {
    hide Fan, Deliver, Waiting;
    if s.units[u].incoming != [] {
      WaitingUpdate(s.units, u, AdvanceOne(s, u).units[u]);
      AdvanceWork(c, AdvanceOne(s, u), u);
    }
  }

  lemma {:induction false} AdvanceFromWork(c: Config, s: Engine, u: nat, v: nat)
    requires u <= v < |s.units|
    ensures Work(c, AdvanceFrom(s, u)) <= Work(c, s) - |s.units[v].incoming|
    decreases |s.units| - u
  {
    hide Work, Advance;
    AdvanceWork(c, s, u);
    if u < v {
      AdvanceFromWork(c, Advance(s, u), u + 1, v);
    } else {
      AdvanceFromLess(c, Advance(s, u), u + 1);
    }
  }

  lemma {:induction false} AdvanceFromLess(c: Config, s: Engine, u: nat)
    requires u <= |s.units|
    ensures Work(c, AdvanceFrom(s, u)) <= Work(c, s)
    decreases |s.units| - u
  {
    hide Work, Advance;
    if u < |s.units| {
      AdvanceWork(c, s, u);
      AdvanceFromLess(c, Advance(s, u), u + 1);
    }
  }

  lemma {:induction false} SendWork(c: Config, s: Engine, k: nat)
    ensures Work(c, Send(s, k)) <= Work(c, s)
    ensures k > 0 && s.outgoing != [] ==> Work(c, Send(s, k)) < Work(c, s)
    decreases k
  {
    hide Fan, Waiting;
    if k > 0 && s.outgoing != [] {
      SendWork(c, s.(outgoing := s.outgoing[1..], inMemory := s.inMemory + [s.outgoing[0]]), k - 1);
    }
  }

  // An answer lowers the work; so does a clock of the fire phase, or it ends the phase,
  // unless every open read is with the memory. Memory that answers is all it takes.
  lemma Progress(c: Config, s: Engine, a: Act)
    requires Inv(c, s) && s.phase.ProcessFire? && |s.units| > 0 && c.maxOut > 0
    requires a.Clock? ==> s.outgoing != [] || s.inMemory == []
    requires a.Answer? ==> a.j < |s.inMemory|
    ensures var s' := Step(c, s, a); Work(c, s') < Work(c, s) || s'.phase.Integrate?
  {
    hide Tracked, Counted, Fan, Waiting, AssignFrom, AdvanceFrom, Send, NetOk;
    match a {
      case Answer(j) =>
        RespondKeeps(c, s, j);
        var r := s.inMemory[j];
        WaitingUpdate(s.units, r.from, s.units[r.from].(incoming := s.units[r.from].incoming + [r]));
      case Clock(lucky) =>
        SendWork(c, s, c.maxOut);
        SendKeeps(c, s, c.maxOut);
        ProcessWork(c, Send(s, c.maxOut));
        if s.outgoing == [] { SendNothing(s, c.maxOut); }
    }
  }

  lemma ProcessWork(c: Config, s: Engine)
    requires Tracked(s) && Counted(s, 0, 0) && |s.units| > 0
    ensures Work(c, Process(c, s)) <= Work(c, s)
    ensures s.outgoing == [] && s.inMemory == [] ==> Work(c, Process(c, s)) < Work(c, s) || Process(c, s).phase.Integrate?
  {
    hide Tracked, Fan, Waiting, AssignFrom, AdvanceFrom, Owed, DeliverAll;
    AssignWork(c, s, 0, c.dispatch);
    AssignFromKeeps(c, s, 0, c.dispatch);
    var s1 := AssignFrom(c, s, 0, c.dispatch);
    AdvanceFromLess(c, s1, 0);
    if s.outgoing == [] && s.inMemory == [] {
      assert forall v :: 0 <= v < |s.units| ==> OpenFroms(s)[v] == 0;
      if v :| 0 <= v < |s.units| && s.units[v].incoming != [] {
        AdvanceFromWork(c, s1, 0, v);
      } else if s.fired == [] {
        AssignIdle(c, s, 0, c.dispatch);
        AdvanceIdle(s, 0);
      }
    }
  }

  lemma AssignIdle(c: Config, s: Engine, u: nat, remain: int)
    requires u <= |s.units| && s.fired == []
    ensures AssignFrom(c, s, u, remain) == s
  {}

  lemma {:induction false} AdvanceIdle(s: Engine, u: nat)
    requires u <= |s.units| && forall v :: 0 <= v < |s.units| ==> s.units[v].incoming == []
    ensures AdvanceFrom(s, u) == s
    decreases |s.units| - u
  {
    if u < |s.units| { AdvanceIdle(s, u + 1); }
  }
}
