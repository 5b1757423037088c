// The spiking engine: neurons, parallel synapse lookups through asynchronous memory, and
// the simple synchronous network step they are meant to implement. Weights are reals.
module Gna {
  datatype Synapse = Synapse(weight: real, delay: nat, target: nat)

  datatype Neuron =
    | LIF(v: real, threshold: real, reset: real, leak: real, p: real, buf: map<nat, real>)
    | Source(spikes: seq<nat>, next: nat)

  // Synapse lists per neuron, as laid out in memory; dispatch width; sends per clock.
  datatype Config = Config(synapses: seq<seq<Synapse>>, dispatch: nat, maxOut: nat)

  ghost predicate NetOk(c: Config, neurons: nat) {
    && |c.synapses| == neurons
    && forall n, i :: 0 <= n < neurons && 0 <= i < |c.synapses[n]| ==> c.synapses[n][i].target < neurons
  }

  // ---------------------------------------------------------------- neurons

  function Val(n: Neuron, k: nat): real {
    if n.LIF? && k in n.buf then n.buf[k] else 0.0
  }

  // An input neuron ignores what is delivered to it.
  function DeliverSpike(n: Neuron, w: real, when: nat): Neuron {
    if n.LIF? then n.(buf := n.buf[when := Val(n, when) + w]) else n
  }

  // One integrate-and-fire step; `lucky` is the outcome of the random draw, if one is made.
  function UpdateNeuron(n: Neuron, now: nat, lucky: bool): (Neuron, bool) {
    match n
    case LIF(v, threshold, reset, leak, p, buf) =>
      var v' := if now in buf then v + buf[now] else v;
      var n' := n.(buf := buf - {now});
      if v' > threshold then
        if p >= 1.0 || (p > 0.0 && lucky) then (n'.(v := reset), true) else (n'.(v := v'), false)
      else (n'.(v := v' * leak), false)
    case Source(spikes, next) =>
      if next >= |spikes| || spikes[next] > now then (n, false) else (n.(next := next + 1), true)
  }

  // Neurons i and up, in order; the fired ones are listed in order.
  function UpdateFrom(ns: seq<Neuron>, now: nat, lucky: set<nat>, i: nat): (r: (seq<Neuron>, seq<nat>))
    requires i <= |ns|
    ensures |r.0| == |ns|
    ensures forall j :: 0 <= j < |r.1| ==> r.1[j] < |ns|
    decreases |ns| - i
  {
    if i == |ns| then (ns, [])
    else
      var (n, fired) := UpdateNeuron(ns[i], now, i in lucky);
      var (ns', rest) := UpdateFrom(ns[i := n], now, lucky, i + 1);
      (ns', (if fired then [i] else []) + rest)
  }

  // All synapses of the listed neurons.
  function Fan(c: Config, fired: seq<nat>): seq<Synapse> {
    if fired == [] then []
    else (if fired[0] < |c.synapses| then c.synapses[fired[0]] else []) + Fan(c, fired[1..])
  }

  function Deliver(ns: seq<Neuron>, s: Synapse, now: nat): (r: seq<Neuron>)
    ensures |r| == |ns|
  {
    if s.target < |ns| then ns[s.target := DeliverSpike(ns[s.target], s.weight, s.delay + now)] else ns
  }

  function DeliverAll(ns: seq<Neuron>, q: seq<Synapse>, now: nat): (r: seq<Neuron>)
    ensures |r| == |ns|
    decreases |q|
  {
    if q == [] then ns else DeliverAll(Deliver(ns, q[0], now), q[1..], now)
  }

  // ---------------------------------------------------------------- the synchronous step

  datatype Sim = Sim(now: nat, neurons: seq<Neuron>)

  // All neurons update; then every synapse of every fired neuron takes effect at once.
  function SyncStep(c: Config, a: Sim, lucky: set<nat>): Sim {
    var (ns, fired) := UpdateFrom(a.neurons, a.now, lucky, 0);
    Sim(a.now + 1, DeliverAll(ns, Fan(c, fired), a.now + 1))
  }

  function SyncRun(c: Config, ns: seq<Neuron>, luck: seq<set<nat>>): Sim {
    if |luck| == 0 then Sim(0, ns) else SyncStep(c, SyncRun(c, ns, luck[..|luck| - 1]), luck[|luck| - 1])
  }

  // ---------------------------------------------------------------- the engine

  datatype Phase = IdlePhase | ProcessFire | Integrate

  // A read of one synapse, and what is stored at its address. `from` is the unit that
  // asked; the engine itself routes answers by id only.
  datatype Req = Req(id: nat, from: nat, syn: Synapse)

  datatype Unit = Unit(numSpikes: int, incoming: seq<Req>)

  datatype Engine = Engine(
    phase: Phase, now: nat, neurons: seq<Neuron>, fired: seq<nat>, units: seq<Unit>,
    outgoing: seq<Req>,        // reads not sent yet
    inMemory: seq<Req>,        // reads sent and not answered
    requests: map<nat, nat>,   // request id -> unit
    nextId: nat,
    log: seq<Synapse>)         // synapses delivered since the neurons last updated

  function InitialEngine(ns: seq<Neuron>, units: nat): Engine {
    Engine(IdlePhase, 0, ns, [], seq(units, i => Unit(0, [])), [], [], map[], 0, [])
  }

  // A unit asks for every synapse of a neuron.
  function Assign(s: Engine, u: nat, list: seq<Synapse>): Engine
    requires u < |s.units|
  {
    AskFor(s.(units := s.units[u := s.units[u].(numSpikes := |list|)]), u, list)
  }

  function AskFor(s: Engine, u: nat, list: seq<Synapse>): (s': Engine)
    ensures s'.units == s.units && s'.fired == s.fired
    decreases |list|
  {
    if list == [] then s
    else AskFor(s.(outgoing := s.outgoing + [Req(s.nextId, u, list[0])], requests := s.requests[s.nextId := u],
                   nextId := s.nextId + 1), u, list[1..])
  }

  // Fired neurons go to free units, at most `remain` of them.
  function AssignFrom(c: Config, s: Engine, u: nat, remain: int): (s': Engine)
    requires u <= |s.units|
    ensures |s'.units| == |s.units|
    decreases |s.units| - u
  {
    if u == |s.units| || s.fired == [] then s
    else
      var free := s.units[u].numSpikes == 0;
      var s1 := if free
                then Assign(s.(fired := s.fired[1..]), u, Fan(c, [s.fired[0]]))
                else s;
      var remain' := if free then remain - 1 else remain;
      if remain' == 0 then s1 else AssignFrom(c, s1, u + 1, remain')
  }

  // A unit delivers all answers it has received.
  function Advance(s: Engine, u: nat): (s': Engine)
    requires u < |s.units|
    ensures |s'.units| == |s.units|
    decreases |s.units[u].incoming|
  {
    var unit := s.units[u];
    if unit.incoming == [] then s
    else
      var syn := unit.incoming[0].syn;
      Advance(s.(neurons := Deliver(s.neurons, syn, s.now), log := s.log + [syn],
                 units := s.units[u := Unit(unit.numSpikes - 1, unit.incoming[1..])]), u)
  }

  function AdvanceFrom(s: Engine, u: nat): (s': Engine)
    requires u <= |s.units|
    ensures |s'.units| == |s.units|
    decreases |s.units| - u
  {
    if u == |s.units| then s else AdvanceFrom(Advance(s, u), u + 1)
  }

  predicate AllFree(s: Engine) {
    forall u :: 0 <= u < |s.units| ==> s.units[u].numSpikes == 0
  }

  function Process(c: Config, s: Engine): Engine {
    var s1 := AdvanceFrom(AssignFrom(c, s, 0, c.dispatch), 0);
    if AllFree(s1) && s1.fired == [] then s1.(phase := Integrate) else s1
  }

  function Send(s: Engine, k: nat): (s': Engine)
    ensures s'.fired == s.fired && s'.phase == s.phase
    decreases k
  {
    if k == 0 || s.outgoing == [] then s
    else Send(s.(outgoing := s.outgoing[1..], inMemory := s.inMemory + [s.outgoing[0]]), k - 1)
  }

  function Tick(c: Config, s: Engine, lucky: set<nat>): Engine {
    var s1 := Send(s, c.maxOut);
    match s1.phase
    case IdlePhase => s1.(phase := ProcessFire)
    case ProcessFire => Process(c, s1)
    case Integrate =>
      var (ns, fired) := UpdateFrom(s1.neurons, s1.now, lucky, 0);
      s1.(neurons := ns, fired := s1.fired + fired, now := s1.now + 1, phase := ProcessFire, log := [])
  }

  // Memory answers the j-th read it holds, in any order it likes. None: the request is
  // unknown, which ends the simulation.
  function Respond(s: Engine, j: nat): (r: Engine)
    requires j < |s.inMemory|
  {
    var req := s.inMemory[j];
    if req.id !in s.requests || s.requests[req.id] >= |s.units| then s
    else
      var u := s.requests[req.id];
      s.(inMemory := s.inMemory[..j] + s.inMemory[j + 1..],
         units := s.units[u := s.units[u].(incoming := s.units[u].incoming + [req])],
         requests := s.requests - {req.id})
  }

  datatype Act = Clock(lucky: set<nat>) | Answer(j: nat)

  function Step(c: Config, s: Engine, a: Act): Engine {
    match a
    case Clock(lucky) => Tick(c, s, lucky)
    case Answer(j) => if j < |s.inMemory| then Respond(s, j) else s
  }

  function Run(c: Config, ns: seq<Neuron>, units: nat, acts: seq<Act>): Engine {
    if |acts| == 0 then InitialEngine(ns, units)
    else Step(c, Run(c, ns, units, acts[..|acts| - 1]), acts[|acts| - 1])
  }

  // The draws of the clocks in which the neurons updated.
  function Luck(c: Config, ns: seq<Neuron>, units: nat, acts: seq<Act>): seq<set<nat>> {
    if |acts| == 0 then []
    else
      var before := acts[..|acts| - 1];
      var a := acts[|acts| - 1];
      Luck(c, ns, units, before) +
      (if a.Clock? && Run(c, ns, units, before).phase.Integrate? then [a.lucky] else [])
  }
}
