// What the neurons of the network do over a run, said without the step functions: what
// input a neuron finds, when it fires, how its voltage moves, and when an input neuron spikes.
module GnaNeuron {
  import opened Gna

  // ---------------------------------------------------------------- the law of a neuron

  // The voltage a step works with: the old one and what is buffered for now.
  function Charged(n: Neuron, now: nat): real
    requires n.LIF?
  {
    n.v + Val(n, now)
  }

  predicate MayFire(n: Neuron, lucky: bool)
    requires n.LIF?
  {
    n.p >= 1.0 || (n.p > 0.0 && lucky)
  }

  // When a neuron fires.
  predicate Fires(n: Neuron, now: nat, lucky: bool) {
    match n
    case LIF(_, threshold, _, _, _, _) => Charged(n, now) > threshold && MayFire(n, lucky)
    case Source(spikes, next) => next < |spikes| && spikes[next] <= now
  }

  // The same neuron, apart from its voltage and what is buffered.
  predicate SameCell(n: Neuron, n': Neuron)
    requires n.LIF?
  {
    n'.LIF? && n'.threshold == n.threshold && n'.reset == n.reset && n'.leak == n.leak && n'.p == n.p
  }

  // Main result for one step: it fires exactly if the charge exceeds the threshold and the
  // draw allows it, and then stands at the reset value; a charge above the threshold that
  // does not fire stays, one that is not above it leaks.
  lemma NeuronLaw(n: Neuron, now: nat, lucky: bool)
    ensures var (n', fired) := UpdateNeuron(n, now, lucky);
            && (fired <==> Fires(n, now, lucky))
            && (n.LIF? ==>
                  && SameCell(n, n')
                  && (fired ==> n'.v == n.reset)
                  && (!fired && Charged(n, now) > n.threshold ==> n'.v == Charged(n, now))
                  && (Charged(n, now) <= n.threshold ==> n'.v == Charged(n, now) * n.leak)
                  && (forall t: nat :: Val(n', t) == if t == now then 0.0 else Val(n, t)))
            && (n.Source? ==> n'.Source? && n'.spikes == n.spikes && n'.next == n.next + if fired then 1 else 0)
  {}

  // ---------------------------------------------------------------- all neurons of a step

  // Every neuron is updated once; the list names those that fire, each once and in order.
  lemma {:induction false} UpdateEach(ns: seq<Neuron>, now: nat, lucky: set<nat>, i: nat)
    requires i <= |ns|
    ensures var r := UpdateFrom(ns, now, lucky, i);
            && (forall j :: 0 <= j < |ns| ==> r.0[j] == if j < i then ns[j] else UpdateNeuron(ns[j], now, j in lucky).0)
            && (forall k :: 0 <= k < |r.1| ==> i <= r.1[k] < |ns|)
            && (forall k, m :: 0 <= k < m < |r.1| ==> r.1[k] < r.1[m])
            && (forall j :: i <= j < |ns| ==> (j in r.1 <==> Fires(ns[j], now, j in lucky)))
    decreases |ns| - i
  {
    hide UpdateNeuron, Fires;
    if i < |ns| {
      NeuronLaw(ns[i], now, i in lucky);
      UpdateEach(ns[i := UpdateNeuron(ns[i], now, i in lucky).0], now, lucky, i + 1);
    }
  }

  // What the synapses of a list bring neuron j for time t.
  function Weight(q: seq<Synapse>, j: nat, now: nat, t: nat): real {
    if q == [] then 0.0
    else (if q[0].target == j && q[0].delay + now == t then q[0].weight else 0.0) + Weight(q[1..], j, now, t)
  }

  lemma {:induction false} DeliverEach(ns: seq<Neuron>, q: seq<Synapse>, now: nat, j: nat)
    requires j < |ns|
    ensures var n' := DeliverAll(ns, q, now)[j];
            && (ns[j].Source? ==> n' == ns[j])
            && (ns[j].LIF? ==> SameCell(ns[j], n') && n'.v == ns[j].v && forall t: nat :: Val(n', t) == Val(ns[j], t) + Weight(q, j, now, t))
    decreases |q|
  {
    if q != [] { DeliverEach(Deliver(ns, q[0], now), q[1..], now, j); }
  }

  lemma {:induction false} WeightAppend(a: seq<Synapse>, b: seq<Synapse>, j: nat, now: nat, t: nat)
    ensures Weight(a + b, j, now, t) == Weight(a, j, now, t) + Weight(b, j, now, t)
    decreases |a|
  {
    if a == [] {
      assert a + b == b;
    } else {
      assert (a + b)[1..] == a[1..] + b;
      WeightAppend(a[1..], b, j, now, t);
    }
  }

  // What the neurons i and up that fire send neuron j for time t: all their synapses count.
  function FiringWeight(c: Config, ns: seq<Neuron>, lucky: set<nat>, i: nat, j: nat, now: nat, t: nat): real
    requires i <= |ns|
    decreases |ns| - i
  {
    if i == |ns| then 0.0
    else (if Fires(ns[i], now, i in lucky) && i < |c.synapses| then Weight(c.synapses[i], j, now + 1, t) else 0.0)
         + FiringWeight(c, ns, lucky, i + 1, j, now, t)
  }

  lemma {:induction false} FiringWeightTail(c: Config, ns: seq<Neuron>, ns': seq<Neuron>, lucky: set<nat>, i: nat, j: nat, now: nat, t: nat)
    requires i <= |ns| == |ns'| && forall k :: i <= k < |ns| ==> ns[k] == ns'[k]
    ensures FiringWeight(c, ns, lucky, i, j, now, t) == FiringWeight(c, ns', lucky, i, j, now, t)
    decreases |ns| - i
  {
    hide Fires;
    if i < |ns| { FiringWeightTail(c, ns, ns', lucky, i + 1, j, now, t); }
  }

  // The synapses of one more neuron come first.
  lemma FanFirst(c: Config, i: nat, rest: seq<nat>, j: nat, now: nat, t: nat)
    ensures Weight(Fan(c, [i] + rest), j, now, t)
            == (if i < |c.synapses| then Weight(c.synapses[i], j, now, t) else 0.0) + Weight(Fan(c, rest), j, now, t)
  {
    hide Weight;
    assert ([i] + rest)[1..] == rest;
    WeightAppend(if i < |c.synapses| then c.synapses[i] else [], Fan(c, rest), j, now, t);
    NoWeight(j, now, t);
  }

  lemma NoWeight(j: nat, now: nat, t: nat)
    ensures Weight([], j, now, t) == 0.0
  {}

  lemma {:induction false} FanOfFired(c: Config, ns: seq<Neuron>, lucky: set<nat>, i: nat, j: nat, now: nat, t: nat)
    requires i <= |ns|
    ensures Weight(Fan(c, UpdateFrom(ns, now, lucky, i).1), j, now + 1, t) == FiringWeight(c, ns, lucky, i, j, now, t)
    decreases |ns| - i
  {
    hide UpdateNeuron, Fires, Weight, Fan;
    if i == |ns| {
      assert Fan(c, []) == [] by { EmptyFan(c); }
      NoWeight(j, now + 1, t);
    } else {
      var (n, fired) := UpdateNeuron(ns[i], now, i in lucky);
      NeuronLaw(ns[i], now, i in lucky);
      var rest := UpdateFrom(ns[i := n], now, lucky, i + 1).1;
      FanOfFired(c, ns[i := n], lucky, i + 1, j, now, t);
      FiringWeightTail(c, ns, ns[i := n], lucky, i + 1, j, now, t);
      if fired { FanFirst(c, i, rest, j, now + 1, t); } else { assert [] + rest == rest; }
    }
  }

  lemma EmptyFan(c: Config)
    ensures Fan(c, []) == []
  {}

  // ---------------------------------------------------------------- the network over a run

  lemma {:induction false} TimeIsSteps(c: Config, ns: seq<Neuron>, luck: seq<set<nat>>)
    ensures SyncRun(c, ns, luck).now == |luck| && |SyncRun(c, ns, luck).neurons| == |ns|
  {
    if |luck| > 0 { TimeIsSteps(c, ns, luck[..|luck| - 1]); }
  }

  function NeuronsAfter(c: Config, ns: seq<Neuron>, luck: seq<set<nat>>): (r: seq<Neuron>)
    ensures |r| == |ns|
  {
    TimeIsSteps(c, ns, luck);
    SyncRun(c, ns, luck).neurons
  }

  // All that has been sent to neuron j for time t: what it began with, and what every
  // neuron that fired so far sent over its synapses.
  function Arrivals(c: Config, ns: seq<Neuron>, luck: seq<set<nat>>, j: nat, t: nat): real
    requires j < |ns|
  {
    if |luck| == 0 then Val(ns[j], t)
    else
      var n := |luck| - 1;
      Arrivals(c, ns, luck[..n], j, t) + FiringWeight(c, NeuronsAfter(c, ns, luck[..n]), luck[n], 0, j, n, t)
  }

  // Neuron j fires in the last step.
  predicate FiresLast(c: Config, ns: seq<Neuron>, luck: seq<set<nat>>, j: nat)
    requires j < |ns| && |luck| > 0
  {
    var n := |luck| - 1;
    Fires(NeuronsAfter(c, ns, luck[..n])[j], n, j in luck[n])
  }

  // One step of the network for one neuron.
  lemma StepOf(c: Config, ns: seq<Neuron>, luck: seq<set<nat>>, j: nat)
    requires j < |ns| && |luck| > 0
    ensures var n := |luck| - 1;
            var mid := UpdateNeuron(NeuronsAfter(c, ns, luck[..n])[j], n, j in luck[n]).0;
            var n' := NeuronsAfter(c, ns, luck)[j];
            && (mid.Source? ==> n' == mid)
            && (mid.LIF? ==> SameCell(mid, n') && n'.v == mid.v)
            && (mid.LIF? ==>
                  forall t: nat :: Val(n', t) == Val(mid, t) + FiringWeight(c, NeuronsAfter(c, ns, luck[..n]), luck[n], 0, j, n, t))
  {
    hide UpdateNeuron, Fires, SyncRun, Fan, FiringWeight, Weight, DeliverAll, UpdateFrom, SameCell, Val;
    var n := |luck| - 1;
    var before := NeuronsAfter(c, ns, luck[..n]);
    TimeIsSteps(c, ns, luck[..n]);
    var (us, fired) := UpdateFrom(before, n, luck[n], 0);
    StepUnfold(c, ns, luck);
    UpdateEach(before, n, luck[n], 0);
    DeliverEach(us, Fan(c, fired), n + 1, j);
    forall t: nat ensures Weight(Fan(c, fired), j, n + 1, t) == FiringWeight(c, before, luck[n], 0, j, n, t) {
      FanOfFired(c, before, luck[n], 0, j, n, t);
    }
  }

  lemma StepUnfold(c: Config, ns: seq<Neuron>, luck: seq<set<nat>>)
    requires |luck| > 0
    ensures var n := |luck| - 1;
            var r := UpdateFrom(NeuronsAfter(c, ns, luck[..n]), n, luck[n], 0);
            NeuronsAfter(c, ns, luck) == DeliverAll(r.0, Fan(c, r.1), n + 1)
  {
    hide UpdateFrom, DeliverAll, Fan;
    TimeIsSteps(c, ns, luck[..|luck| - 1]);
  }

  // Main result: what a neuron finds for a time not yet passed is exactly what was sent for
  // it, and its constants never change.
  lemma {:induction false} BufferIsArrivals(c: Config, ns: seq<Neuron>, luck: seq<set<nat>>, j: nat)
    requires j < |ns| && ns[j].LIF?
    ensures var n' := NeuronsAfter(c, ns, luck)[j];
            SameCell(ns[j], n') && forall t: nat :: t >= |luck| ==> Val(n', t) == Arrivals(c, ns, luck, j, t)
  {
    hide UpdateNeuron, Fires, FiringWeight, Val, SyncRun;
    if |luck| == 0 {
      assert NeuronsAfter(c, ns, luck) == ns by { StartOfRun(c, ns); }
    } else {
      var n := |luck| - 1;
      BufferIsArrivals(c, ns, luck[..n], j);
      NeuronLaw(NeuronsAfter(c, ns, luck[..n])[j], n, j in luck[n]);
      StepOf(c, ns, luck, j);
    }
  }

  lemma StartOfRun(c: Config, ns: seq<Neuron>)
    ensures NeuronsAfter(c, ns, []) == ns
  {}

  // Main result, over every run of every network: a neuron fires in a step exactly if its
  // voltage and all that was sent to it for that time together exceed the threshold and the
  // draw allows it; then it stands at its reset value, else the charge stays or leaks.
  lemma FiresExactly(c: Config, ns: seq<Neuron>, luck: seq<set<nat>>, j: nat)
    requires j < |ns| && ns[j].LIF? && |luck| > 0
    ensures var n := |luck| - 1;
            var n0 := NeuronsAfter(c, ns, luck[..n])[j];
            var n1 := NeuronsAfter(c, ns, luck)[j];
            && n0.LIF? && n1.LIF?
            && var charge := n0.v + Arrivals(c, ns, luck[..n], j, n);
               && (FiresLast(c, ns, luck, j) <==> charge > ns[j].threshold && (ns[j].p >= 1.0 || (ns[j].p > 0.0 && j in luck[n])))
               && n1.v == if FiresLast(c, ns, luck, j) then ns[j].reset
                          else if charge > ns[j].threshold then charge else charge * ns[j].leak
  {
    hide UpdateNeuron, FiringWeight, Val, NeuronsAfter, Arrivals;
    var n := |luck| - 1;
    BufferIsArrivals(c, ns, luck[..n], j);
    NeuronLaw(NeuronsAfter(c, ns, luck[..n])[j], n, j in luck[n]);
    StepOf(c, ns, luck, j);
  }

  // ---------------------------------------------------------------- silence

  function Power(x: real, k: nat): real {
    if k == 0 then 1.0 else Power(x, k - 1) * x
  }

  // Nothing is sent to the neuron for the next k steps, and its fading voltage stays at or
  // below the threshold.
  ghost predicate Silent(c: Config, ns: seq<Neuron>, luck: seq<set<nat>>, quiet: seq<set<nat>>, j: nat)
    requires j < |ns| && ns[j].LIF? && NeuronsAfter(c, ns, luck)[j].LIF?
  {
    forall k :: 0 <= k < |quiet| ==>
      && Arrivals(c, ns, luck + quiet[..k], j, |luck| + k) == 0.0
      && NeuronsAfter(c, ns, luck)[j].v * Power(ns[j].leak, k) <= ns[j].threshold
  }

  // Main result: over k silent steps the neuron never fires and its voltage fades as the
  // k-th power of the leak.
  lemma {:induction false} FadesInSilence(c: Config, ns: seq<Neuron>, luck: seq<set<nat>>, quiet: seq<set<nat>>, j: nat)
    requires j < |ns| && ns[j].LIF? && NeuronsAfter(c, ns, luck)[j].LIF? && Silent(c, ns, luck, quiet, j)
    ensures var n' := NeuronsAfter(c, ns, luck + quiet)[j];
            n'.LIF? && n'.v == NeuronsAfter(c, ns, luck)[j].v * Power(ns[j].leak, |quiet|)
    ensures forall k :: 0 < k <= |quiet| ==> !FiresLast(c, ns, luck + quiet[..k], j)
    decreases |quiet|
  {
    hide NeuronsAfter, Arrivals, FiresLast;
    if quiet == [] {
      assert luck + quiet == luck;
    } else {
      var k := |quiet| - 1;
      assert forall m :: 0 <= m <= k ==> quiet[..k][..m] == quiet[..m];
      FadesInSilence(c, ns, luck, quiet[..k], j);
      assert quiet[..|quiet|] == quiet;
      assert (luck + quiet)[..|luck| + k] == luck + quiet[..k];
      FiresExactly(c, ns, luck + quiet, j);
      forall m | 0 < m <= |quiet| ensures !FiresLast(c, ns, luck + quiet[..m], j) {
        if m <= k { assert !FiresLast(c, ns, luck + quiet[..k][..m], j); }
      }
    }
  }

  // A leak between none and all keeps a voltage at or below a threshold that is not negative.
  lemma {:induction false} FadingStaysBelow(v: real, leak: real, threshold: real, k: nat)
    requires v <= threshold && 0.0 <= threshold && 0.0 <= leak <= 1.0
    ensures v * Power(leak, k) <= threshold && 0.0 <= Power(leak, k) <= 1.0
  {
    if k > 0 {
      FadingStaysBelow(v, leak, threshold, k - 1);
      var q := Power(leak, k - 1);
      Shrinks(q, leak);
      if v >= 0.0 { Shrinks2(v, q * leak); } else { NotPositive(v, q * leak); }
    }
  }

  lemma NotNegative(a: real, b: real)
    requires 0.0 <= a && 0.0 <= b
    ensures 0.0 <= a * b
  {
    if a == 0.0 || b == 0.0 { assert a * b == 0.0; } else { assert a * b > 0.0; }
  }

  lemma Shrinks(q: real, leak: real)
    requires 0.0 <= q <= 1.0 && 0.0 <= leak <= 1.0
    ensures 0.0 <= q * leak <= 1.0
  {
    NotNegative(q, leak);
    NotNegative(1.0 - q, leak);
  }

  lemma Shrinks2(v: real, x: real)
    requires 0.0 <= v && 0.0 <= x <= 1.0
    ensures v * x <= v
  {
    assert v * x <= v * 1.0;
  }

  lemma NotPositive(v: real, x: real)
    requires v < 0.0 && 0.0 <= x
    ensures v * x <= 0.0
  {}

  // ---------------------------------------------------------------- input neurons

  // The k-th spike goes out at its time, or one step after the one before it.
  function Slot(spikes: seq<nat>, k: nat): nat
    requires k < |spikes|
  {
    if k == 0 || Slot(spikes, k - 1) < spikes[k] then spikes[k] else Slot(spikes, k - 1) + 1
  }

  lemma {:induction false} SlotsIncrease(spikes: seq<nat>, k: nat, m: nat)
    requires k < m < |spikes|
    ensures Slot(spikes, k) < Slot(spikes, m)
  {
    if k < m - 1 { SlotsIncrease(spikes, k, m - 1); }
  }

  // After n steps the spikes with slots below n are out.
  lemma {:induction false} SourceState(c: Config, ns: seq<Neuron>, luck: seq<set<nat>>, j: nat)
    requires j < |ns| && ns[j].Source? && ns[j].next == 0
    ensures var n' := NeuronsAfter(c, ns, luck)[j];
            && n'.Source? && n'.spikes == ns[j].spikes && n'.next <= |n'.spikes|
            && (forall k :: 0 <= k < |n'.spikes| ==> (k < n'.next <==> Slot(n'.spikes, k) < |luck|))
  {
    hide UpdateNeuron, FiringWeight, Val, SyncRun, Slot;
    if |luck| == 0 {
      assert NeuronsAfter(c, ns, luck) == ns by { StartOfRun(c, ns); }
    } else {
      var n := |luck| - 1;
      SourceState(c, ns, luck[..n], j);
      var n0 := NeuronsAfter(c, ns, luck[..n])[j];
      NeuronLaw(n0, n, j in luck[n]);
      StepOf(c, ns, luck, j);
      forall k | 0 <= k < |n0.spikes| ensures k < n0.next + (if Fires(n0, n, j in luck[n]) then 1 else 0) <==> Slot(n0.spikes, k) <= n {
        NextSlot(n0, n, k);
      }
    }
  }

  // A spike goes out in step n exactly if its slot is n.
  lemma NextSlot(n0: Neuron, n: nat, k: nat)
    requires n0.Source? && n0.next <= |n0.spikes| && k < |n0.spikes|
    requires forall m :: 0 <= m < |n0.spikes| ==> (m < n0.next <==> Slot(n0.spikes, m) < n)
    ensures k < n0.next + (if Fires(n0, n, false) then 1 else 0) <==> Slot(n0.spikes, k) <= n
  {
    var x := n0.next;
    if x < |n0.spikes| {
      assert !(Slot(n0.spikes, x) < n);
      if x > 0 { assert Slot(n0.spikes, x - 1) < n; }
      assert Slot(n0.spikes, x) <= n <==> n0.spikes[x] <= n;
      if k > x { SlotsIncrease(n0.spikes, x, k); }
    }
  }

  ghost predicate HasSlot(spikes: seq<nat>, n: nat) { exists k :: 0 <= k < |spikes| && Slot(spikes, k) == n }

  // Main result: an input neuron fires in step n exactly if one of its spikes has slot n,
  // whatever is delivered to it.
  lemma SourceFiresExactly(c: Config, ns: seq<Neuron>, luck: seq<set<nat>>, j: nat)
    requires j < |ns| && ns[j].Source? && ns[j].next == 0 && |luck| > 0
    ensures FiresLast(c, ns, luck, j) <==> HasSlot(ns[j].spikes, |luck| - 1)
  {
    hide NeuronsAfter, Slot;
    var n := |luck| - 1;
    SourceState(c, ns, luck[..n], j);
    var n0 := NeuronsAfter(c, ns, luck[..n])[j];
    forall k | 0 <= k < |n0.spikes| ensures k < n0.next + (if Fires(n0, n, false) then 1 else 0) <==> Slot(n0.spikes, k) <= n {
      NextSlot(n0, n, k);
    }
    if FiresLast(c, ns, luck, j) {
      assert Slot(n0.spikes, n0.next) == n;
    }
  }

  predicate InIncreasingOrder(spikes: seq<nat>) { forall k, m :: 0 <= k < m < |spikes| ==> spikes[k] < spikes[m] }

  // Every spike goes out at its own time if and only if the times increase.
  lemma OnTimeExactly(spikes: seq<nat>)
    ensures InIncreasingOrder(spikes) <==> forall k :: 0 <= k < |spikes| ==> Slot(spikes, k) == spikes[k]
  {
    hide Slot;
    if InIncreasingOrder(spikes) {
      forall k | 0 <= k < |spikes| ensures Slot(spikes, k) == spikes[k] { OnTime(spikes, k); }
    }
    if forall k :: 0 <= k < |spikes| ==> Slot(spikes, k) == spikes[k] {
      forall k, m | 0 <= k < m < |spikes| ensures spikes[k] < spikes[m] { SlotsIncrease(spikes, k, m); }
    }
  }

  lemma {:induction false} OnTime(spikes: seq<nat>, k: nat)
    requires InIncreasingOrder(spikes) && k < |spikes|
    ensures Slot(spikes, k) == spikes[k]
  {
    if k > 0 { OnTime(spikes, k - 1); }
  }

  // Main result: with increasing times an input neuron fires exactly at those times, and
  // once at each.
  lemma SpikesOnTime(c: Config, ns: seq<Neuron>, luck: seq<set<nat>>, j: nat)
    requires j < |ns| && ns[j].Source? && ns[j].next == 0 && |luck| > 0 && InIncreasingOrder(ns[j].spikes)
    ensures FiresLast(c, ns, luck, j) <==> |luck| - 1 in ns[j].spikes
  {
    hide Slot, FiresLast, InIncreasingOrder;
    SourceFiresExactly(c, ns, luck, j);
    OnTimeExactly(ns[j].spikes);
    var spikes := ns[j].spikes;
    assert HasSlot(spikes, |luck| - 1) <==> |luck| - 1 in spikes by {
      if k :| 0 <= k < |spikes| && Slot(spikes, k) == |luck| - 1 { assert spikes[k] == |luck| - 1; }
      if k :| 0 <= k < |spikes| && spikes[k] == |luck| - 1 { assert Slot(spikes, k) == |luck| - 1; }
    }
  }
}
