// How much the engine does in one clock: the dispatch width bounds the neurons assigned,
// and the number of reads per clock what goes to the memory; no less is done either.
module GnaWidth {
  import opened Gna

  function Least(a: nat, b: nat): nat { if a < b then a else b }

  // Free units from u on.
  function FreeUnits(units: seq<Unit>, u: nat): nat
    requires u <= |units|
    decreases |units| - u
  {
    if u == |units| then 0 else (if units[u].numSpikes == 0 then 1 else 0) + FreeUnits(units, u + 1)
  }

  lemma {:induction false} SameFree(p: seq<Unit>, q: seq<Unit>, u: nat)
    requires u <= |p| == |q| && forall v :: u <= v < |p| ==> p[v] == q[v]
    ensures FreeUnits(p, u) == FreeUnits(q, u)
    decreases |p| - u
  {
    if u < |p| { SameFree(p, q, u + 1); }
  }

  // Main result: of the fired neurons exactly as many are assigned, the first ones, as there
  // are free units and the dispatch width, which is at least one, allows.
  lemma {:induction false} DispatchExactly(c: Config, s: Engine, u: nat, remain: int)
    requires u <= |s.units| && remain > 0
    ensures var n := Least(|s.fired|, Least(FreeUnits(s.units, u), remain));
            n <= |s.fired| && AssignFrom(c, s, u, remain).fired == s.fired[n..]
    decreases |s.units| - u
  {
    hide Fan, AskFor;
    if u < |s.units| && s.fired != [] {
      var free := s.units[u].numSpikes == 0;
      var s1 := if free then Assign(s.(fired := s.fired[1..]), u, Fan(c, [s.fired[0]])) else s;
      var remain' := if free then remain - 1 else remain;
      SameFree(s.units, s1.units, u + 1);
      if remain' != 0 {
        DispatchExactly(c, s1, u + 1, remain');
        assert free ==> forall k :: 0 <= k < |s.fired| ==> s.fired[1..][k..] == s.fired[k + 1..];
      }
    }
  }

  // Main result: of the reads waiting exactly the first k, or all if there are fewer, go to
  // the memory, in order.
  lemma {:induction false} SendsExactly(s: Engine, k: nat)
    ensures var n := Least(|s.outgoing|, k);
            var s' := Send(s, k);
            s'.outgoing == s.outgoing[n..] && s'.inMemory == s.inMemory + s.outgoing[..n]
    decreases k
  {
    var n := Least(|s.outgoing|, k);
    if k > 0 && s.outgoing != [] {
      var s1 := s.(outgoing := s.outgoing[1..], inMemory := s.inMemory + [s.outgoing[0]]);
      SendsExactly(s1, k - 1);
      assert s.outgoing[1..][n - 1..] == s.outgoing[n..];
      assert s.outgoing[..n] == [s.outgoing[0]] + s.outgoing[1..][..n - 1];
    } else {
      assert s.outgoing[0..] == s.outgoing && s.inMemory + s.outgoing[..0] == s.inMemory;
    }
  }

  // The fire phase ends in the clock in which the last unit becomes free and no fired
  // neuron waits, and in no other.
  lemma FireEndsExactly(c: Config, s: Engine)
    requires s.phase.ProcessFire?
    ensures var s' := Process(c, s);
            s'.phase.Integrate? <==> s'.fired == [] && forall u :: 0 <= u < |s'.units| ==> s'.units[u].numSpikes == 0
  {
    AssignKeepsPhase(c, s, 0, c.dispatch);
    AdvanceKeepsPhase(AssignFrom(c, s, 0, c.dispatch), 0);
  }

  lemma {:induction false} AssignKeepsPhase(c: Config, s: Engine, u: nat, remain: int)
    requires u <= |s.units|
    ensures AssignFrom(c, s, u, remain).phase == s.phase
    decreases |s.units| - u
  {
    hide Fan;
    if u < |s.units| && s.fired != [] {
      var free := s.units[u].numSpikes == 0;
      var t := s.(fired := s.fired[1..]);
      var s1 := if free then Assign(t, u, Fan(c, [s.fired[0]])) else s;
      var remain' := if free then remain - 1 else remain;
      AskKeepsPhase(t.(units := t.units[u := t.units[u].(numSpikes := |Fan(c, [s.fired[0]])|)]), u, Fan(c, [s.fired[0]]));
      if remain' != 0 { AssignKeepsPhase(c, s1, u + 1, remain'); }
    }
  }

  lemma {:induction false} AskKeepsPhase(s: Engine, u: nat, list: seq<Synapse>)
    ensures AskFor(s, u, list).phase == s.phase
    decreases |list|
  {
    if list != [] {
      AskKeepsPhase(s.(outgoing := s.outgoing + [Req(s.nextId, u, list[0])], requests := s.requests[s.nextId := u],
                       nextId := s.nextId + 1), u, list[1..]);
    }
  }

  lemma {:induction false} AdvanceKeepsPhase(s: Engine, u: nat)
    requires u <= |s.units|
    ensures AdvanceFrom(s, u).phase == s.phase
    decreases |s.units| - u
  {
    if u < |s.units| {
      OneKeepsPhase(s, u);
      AdvanceKeepsPhase(Advance(s, u), u + 1);
    }
  }

  lemma {:induction false} OneKeepsPhase(s: Engine, u: nat)
    requires u < |s.units|
    ensures Advance(s, u).phase == s.phase
    decreases |s.units[u].incoming|
  {
    hide Deliver;
    var unit := s.units[u];
    if unit.incoming != [] {
      var syn := unit.incoming[0].syn;
      OneKeepsPhase(s.(neurons := Deliver(s.neurons, syn, s.now), log := s.log + [syn],
                       units := s.units[u := Unit(unit.numSpikes - 1, unit.incoming[1..])]), u);
    }
  }
}
