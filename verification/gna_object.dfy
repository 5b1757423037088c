// The spiking engine as an object that updates its queues, units and neurons in place.
module GnaObject {
  import G = Gna

  class Engine {
    const c: G.Config
    const neurons: array<G.Neuron>
    const units: array<G.Unit>
    var phase: G.Phase
    var now: nat
    var fired: seq<nat>
    var outgoing: seq<G.Req>
    var inMemory: seq<G.Req>
    var requests: map<nat, nat>
    var nextId: nat
    ghost var log: seq<G.Synapse>

    ghost function Model(): G.Engine
      reads this, neurons, units
    {
      G.Engine(phase, now, neurons[..], fired, units[..], outgoing, inMemory, requests, nextId, log)
    }

    constructor (c: G.Config, ns: seq<G.Neuron>, parallel: nat)
      ensures this.c == c && fresh(neurons) && fresh(units) && Model() == G.InitialEngine(ns, parallel)
    {
      this.c := c;
      neurons := new G.Neuron[|ns|](i requires 0 <= i < |ns| => ns[i]);
      units := new G.Unit[parallel](_ => G.Unit(0, []));
      phase, now, fired, outgoing, inMemory, requests, nextId, log := G.IdlePhase, 0, [], [], [], map[], 0, [];
    }

    // Queues a read and notes which unit it is for.
    method ReadMem(syn: G.Synapse, u: nat)
      modifies this`outgoing, this`requests, this`nextId
      ensures G.AskFor(old(Model()), u, [syn]) == Model()
    {
      outgoing := outgoing + [G.Req(nextId, u, syn)];
      requests := requests[nextId := u];
      nextId := nextId + 1;
    }

    // One read per synapse of the neuron.
    method Assign(u: nat, n: nat)
      requires u < units.Length
      modifies this`outgoing, this`requests, this`nextId, units
      ensures Model() == G.Assign(old(Model()), u, G.Fan(c, [n]))
    {
      var list := if n < |c.synapses| then c.synapses[n] else [];
      assert list == G.Fan(c, [n]);
      units[u] := units[u].(numSpikes := |list|);
      ghost var s := Model();
      var i := 0;
      while i < |list|
        invariant 0 <= i <= |list| && units[..] == s.units
        invariant G.AskFor(Model(), u, list[i..]) == G.AskFor(s, u, list)
      {
        ghost var s1 := Model();
        ReadMem(list[i], u);
        assert G.AskFor(s1, u, [list[i]]) == G.AskFor(Model(), u, []);
        assert G.AskFor(s1, u, list[i..]) == G.AskFor(Model(), u, list[i + 1..]);
        i := i + 1;
      }
    }

    method Deliver(syn: G.Synapse)
      modifies neurons
      ensures neurons[..] == G.Deliver(old(neurons[..]), syn, now)
    {
      if syn.target < neurons.Length {
        var n := neurons[syn.target];
        if n.LIF? {
          var at := syn.delay + now;
          neurons[syn.target] := n.(buf := n.buf[at := (if at in n.buf then n.buf[at] else 0.0) + syn.weight]);
        }
      }
    }

    // Delivers all answers a unit has received.
    method Advance(u: nat)
      requires u < units.Length
      modifies this`log, neurons, units
      ensures Model() == G.Advance(old(Model()), u)
    {
      ghost var s := Model();
      while units[u].incoming != []
        invariant G.Advance(Model(), u) == G.Advance(s, u)
        invariant Model() == s.(neurons := neurons[..], log := log, units := units[..])
        decreases |units[u].incoming|
      {
        ghost var s1 := Model();
        var syn := units[u].incoming[0].syn;
        Deliver(syn);
        log := log + [syn];
        units[u] := G.Unit(units[u].numSpikes - 1, units[u].incoming[1..]);
        assert Model() == s1.(neurons := G.Deliver(s1.neurons, syn, s1.now), log := s1.log + [syn],
                              units := s1.units[u := G.Unit(s1.units[u].numSpikes - 1, s1.units[u].incoming[1..])]);
      }
    }

    method AssignFired()
      modifies this`fired, this`outgoing, this`requests, this`nextId, units
      ensures Model() == G.AssignFrom(c, old(Model()), 0, c.dispatch)
    {
      ghost var s := Model();
      var remain: int := c.dispatch;
      var u, stop := 0, false;
      while u < units.Length && !stop
        invariant 0 <= u <= units.Length
        invariant Model() == s.(fired := fired, outgoing := outgoing, requests := requests, nextId := nextId, units := units[..])
        invariant (if stop then Model() else G.AssignFrom(c, Model(), u, remain)) == G.AssignFrom(c, s, 0, c.dispatch)
      {
        if fired == [] { break; }
        if units[u].numSpikes == 0 {
          var n := fired[0];
          fired := fired[1..];
          Assign(u, n);
          remain := remain - 1;
        }
        stop := remain == 0;
        u := u + 1;
      }
    }

    method ProcessFire()
      modifies this, neurons, units
      ensures Model() == G.Process(c, old(Model()))
    {
      AssignFired();
      ghost var s := Model();
      var allDelivered := true;
      var u := 0;
      while u < units.Length
        invariant 0 <= u <= units.Length
        invariant Model() == s.(neurons := neurons[..], log := log, units := units[..])
        invariant G.AdvanceFrom(Model(), u) == G.AdvanceFrom(s, 0)
        invariant allDelivered <==> forall v :: 0 <= v < u ==> units[v].numSpikes == 0
      {
        ghost var s1 := Model();
        Advance(u);
        AdvanceOther(s1, u);
        allDelivered := allDelivered && units[u].numSpikes == 0;
        u := u + 1;
      }
      if allDelivered && fired == [] { phase := G.Integrate; }
    }

    method SendReads()
      modifies this`outgoing, this`inMemory
      ensures Model() == G.Send(old(Model()), c.maxOut)
    {
      ghost var s := Model();
      var i := 0;
      while i < c.maxOut && outgoing != []
        invariant 0 <= i <= c.maxOut
        invariant G.Send(Model(), c.maxOut - i) == G.Send(s, c.maxOut)
      {
        inMemory := inMemory + [outgoing[0]];
        outgoing := outgoing[1..];
        i := i + 1;
      }
    }

    method UpdateNeurons(lucky: set<nat>)
      modifies this`fired, neurons
      ensures (neurons[..], fired) == (G.UpdateFrom(old(neurons[..]), now, lucky, 0).0,
                                       old(fired) + G.UpdateFrom(old(neurons[..]), now, lucky, 0).1)
    {
      ghost var r := G.UpdateFrom(neurons[..], now, lucky, 0);
      var i := 0;
      while i < neurons.Length
        invariant 0 <= i <= neurons.Length
        invariant G.UpdateFrom(neurons[..], now, lucky, i).0 == r.0
        invariant fired + G.UpdateFrom(neurons[..], now, lucky, i).1 == old(fired) + r.1
      {
        ghost var ns := neurons[..];
        var (n, spiked) := G.UpdateNeuron(neurons[i], now, i in lucky);
        neurons[i] := n;
        assert neurons[..] == ns[i := n];
        if spiked { fired := fired + [i]; }
        i := i + 1;
      }
      assert fired + [] == fired;
    }

    method ClockTic(lucky: set<nat>)
      modifies this, neurons, units
      ensures Model() == G.Tick(c, old(Model()), lucky)
    {
      SendReads();
      match phase {
        case IdlePhase => phase := G.ProcessFire;
        case ProcessFire => ProcessFire();
        case Integrate =>
          UpdateNeurons(lucky);
          now := now + 1;
          phase := G.ProcessFire;
          log := [];
      }
    }

    // An answer from memory; false if nobody asked for it, which the source treats as fatal.
    method HandleEvent(j: nat) returns (known: bool)
      requires j < |inMemory|
      modifies this`inMemory, this`requests, units
      ensures Model() == G.Respond(old(Model()), j)
      ensures known == (old(inMemory)[j].id in old(requests) && old(requests)[old(inMemory)[j].id] < units.Length)
    {
      var req := inMemory[j];
      if req.id !in requests || requests[req.id] >= units.Length { return false; }
      var u := requests[req.id];
      units[u] := units[u].(incoming := units[u].incoming + [req]);
      requests := requests - {req.id};
      inMemory := inMemory[..j] + inMemory[j + 1..];
      return true;
    }
  }

  // A unit's deliveries leave the other units alone.
  lemma {:induction false} AdvanceOther(s: G.Engine, u: nat)
    requires u < |s.units|
    ensures forall v :: 0 <= v < |s.units| && v != u ==> G.Advance(s, u).units[v] == s.units[v]
    decreases |s.units[u].incoming|
  {
    var unit := s.units[u];
    if unit.incoming != [] {
      var syn := unit.incoming[0].syn;
      AdvanceOther(s.(neurons := G.Deliver(s.neurons, syn, s.now), log := s.log + [syn],
                      units := s.units[u := G.Unit(unit.numSpikes - 1, unit.incoming[1..])]), u);
    }
  }
}
