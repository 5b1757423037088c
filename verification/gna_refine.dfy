// The engine refines the synchronous step: whatever the order of the memory's answers and
// the dispatch width, every synapse of every fired neuron is delivered exactly once, at the
// right time, before the neurons update again.
module GnaRefine {
  import opened Gna

  // ---------------------------------------------------------------- delivery order is irrelevant

  lemma DeliverSwap(ns: seq<Neuron>, a: Synapse, b: Synapse, now: nat)
    ensures Deliver(Deliver(ns, a, now), b, now) == Deliver(Deliver(ns, b, now), a, now)
  {
    if a.target == b.target && a.target < |ns| && ns[a.target].LIF? {
      var n := ns[a.target];
      var ka, kb := a.delay + now, b.delay + now;
      assert DeliverSpike(DeliverSpike(n, a.weight, ka), b.weight, kb).buf
          == DeliverSpike(DeliverSpike(n, b.weight, kb), a.weight, ka).buf;
    }
  }

  lemma {:induction false} DeliverAppend(ns: seq<Neuron>, p: seq<Synapse>, q: seq<Synapse>, now: nat)
    ensures DeliverAll(ns, p + q, now) == DeliverAll(DeliverAll(ns, p, now), q, now)
    decreases |p|
  {
    if p == [] {
      assert p + q == q;
    } else {
      assert (p + q)[1..] == p[1..] + q;
      DeliverAppend(Deliver(ns, p[0], now), p[1..], q, now);
    }
  }

  // Any delivery can be made first.
  lemma {:induction false} DeliverFirst(ns: seq<Neuron>, q: seq<Synapse>, j: nat, now: nat)
    requires j < |q|
    ensures DeliverAll(ns, q, now) == DeliverAll(Deliver(ns, q[j], now), q[..j] + q[j + 1..], now)
    decreases |q|
  {
    if j == 0 {
      assert q[..0] + q[1..] == q[1..];
    } else {
      DeliverFirst(Deliver(ns, q[0], now), q[1..], j - 1, now);
      DeliverSwap(ns, q[0], q[j], now);
      var rest := q[..j] + q[j + 1..];
      assert rest[1..] == q[1..][..j - 1] + q[1..][j - 1 + 1..];
    }
  }

  lemma {:induction false} DeliverPermuted(ns: seq<Neuron>, p: seq<Synapse>, q: seq<Synapse>, now: nat)
    requires multiset(p) == multiset(q)
    ensures DeliverAll(ns, p, now) == DeliverAll(ns, q, now)
    decreases |p|
  {
    if p == [] {
      assert |multiset(q)| == 0;
    } else {
      assert p[0] in multiset(q);
      var j :| 0 <= j < |q| && q[j] == p[0];
      DeliverFirst(ns, q, j, now);
      var q' := q[..j] + q[j + 1..];
      assert q == q[..j] + [q[j]] + q[j + 1..];
      assert p == [p[0]] + p[1..];
      assert multiset(p[1..]) == multiset(p) - multiset{p[0]} == multiset(q');
      DeliverPermuted(Deliver(ns, p[0], now), p[1..], q', now);
    }
  }

  // ---------------------------------------------------------------- what is still owed

  function Syns(q: seq<Req>): (r: seq<Synapse>)
    ensures |r| == |q|
  {
    seq(|q|, i requires 0 <= i < |q| => q[i].syn)
  }

  function Ids(q: seq<Req>): (r: seq<nat>)
    ensures |r| == |q|
  {
    seq(|q|, i requires 0 <= i < |q| => q[i].id)
  }

  function Froms(q: seq<Req>): (r: seq<nat>)
    ensures |r| == |q|
  {
    seq(|q|, i requires 0 <= i < |q| => q[i].from)
  }

  lemma QueueAppend(p: seq<Req>, q: seq<Req>)
    ensures Syns(p + q) == Syns(p) + Syns(q)
    ensures Ids(p + q) == Ids(p) + Ids(q)
    ensures Froms(p + q) == Froms(p) + Froms(q)
  {}

  lemma QueueOne(r: Req)
    ensures Syns([r]) == [r.syn] && Ids([r]) == [r.id] && Froms([r]) == [r.from]
  {}

  // Taking the j-th entry out of a queue.
  lemma QueueTake(q: seq<Req>, j: nat)
    requires j < |q|
    ensures var q' := q[..j] + q[j + 1..];
            && multiset(Syns(q)) == multiset(Syns(q')) + multiset{q[j].syn}
            && multiset(Ids(q)) == multiset(Ids(q')) + multiset{q[j].id}
            && multiset(Froms(q)) == multiset(Froms(q')) + multiset{q[j].from}
  {
    assert q == q[..j] + [q[j]] + q[j + 1..];
    QueueAppend(q[..j] + [q[j]], q[j + 1..]);
    QueueAppend(q[..j], [q[j]]);
    QueueAppend(q[..j], q[j + 1..]);
    QueueOne(q[j]);
  }

  // Reads not answered yet, by synapse, id and unit.
  function OpenSyns(s: Engine): multiset<Synapse> { multiset(Syns(s.outgoing)) + multiset(Syns(s.inMemory)) }

  function OpenIds(s: Engine): multiset<nat> { multiset(Ids(s.outgoing)) + multiset(Ids(s.inMemory)) }

  function OpenFroms(s: Engine): multiset<nat> { multiset(Froms(s.outgoing)) + multiset(Froms(s.inMemory)) }

  lemma OpenAsk(s: Engine, s': Engine, r: Req)
    requires s'.outgoing == s.outgoing + [r] && s'.inMemory == s.inMemory
    ensures OpenSyns(s') == OpenSyns(s) + multiset{r.syn}
    ensures OpenIds(s') == OpenIds(s) + multiset{r.id} && OpenFroms(s') == OpenFroms(s) + multiset{r.from}
  {
    QueueAppend(s.outgoing, [r]);
    QueueOne(r);
  }

  lemma OpenSend(s: Engine, s': Engine)
    requires s.outgoing != [] && s'.outgoing == s.outgoing[1..] && s'.inMemory == s.inMemory + [s.outgoing[0]]
    ensures OpenSyns(s') == OpenSyns(s) && OpenIds(s') == OpenIds(s) && OpenFroms(s') == OpenFroms(s)
  {
    hide Syns, Ids, Froms;
    var r := s.outgoing[0];
    assert s.outgoing == [r] + s.outgoing[1..];
    QueueAppend([r], s.outgoing[1..]);
    QueueAppend(s.inMemory, [r]);
    QueueOne(r);
  }

  lemma OpenAnswer(s: Engine, s': Engine, j: nat)
    requires j < |s.inMemory| && s'.inMemory == s.inMemory[..j] + s.inMemory[j + 1..] && s'.outgoing == s.outgoing
    ensures OpenSyns(s) == OpenSyns(s') + multiset{s.inMemory[j].syn}
    ensures OpenIds(s) == OpenIds(s') + multiset{s.inMemory[j].id} && OpenFroms(s) == OpenFroms(s') + multiset{s.inMemory[j].from}
  {
    hide Syns, Ids, Froms;
    QueueTake(s.inMemory, j);
  }

  lemma OpenMember(s: Engine, r: Req)
    requires r in s.outgoing || r in s.inMemory
    ensures r.id in OpenIds(s) && r.from in OpenFroms(s) && r.syn in OpenSyns(s)
  {
    if r in s.outgoing {
      var i :| 0 <= i < |s.outgoing| && s.outgoing[i] == r;
      assert Ids(s.outgoing)[i] == r.id && Froms(s.outgoing)[i] == r.from && Syns(s.outgoing)[i] == r.syn;
    } else {
      var i :| 0 <= i < |s.inMemory| && s.inMemory[i] == r;
      assert Ids(s.inMemory)[i] == r.id && Froms(s.inMemory)[i] == r.from && Syns(s.inMemory)[i] == r.syn;
    }
  }

  // The answers the units have received and not delivered.
  function Received(units: seq<Unit>): multiset<Synapse> {
    if units == [] then multiset{} else multiset(Syns(units[0].incoming)) + Received(units[1..])
  }

  lemma Regroup<T>(f: multiset<T>, p: multiset<T>, a: multiset<T>, q: multiset<T>, b: multiset<T>)
    requires p + a == q + b
    ensures f + p + a == f + q + b
  {
    assert f + p + a == f + (p + a);
  }

  lemma {:induction false} ReceivedUpdate(units: seq<Unit>, u: nat, x: Unit)
    requires u < |units|
    ensures Received(units[u := x]) + multiset(Syns(units[u].incoming)) == Received(units) + multiset(Syns(x.incoming))
  {
    hide Syns;
    var units' := units[u := x];
    if u == 0 {
      assert units'[1..] == units[1..];
    } else {
      assert units'[1..] == units[1..][u - 1 := x] && units'[0] == units[0] && units[1..][u - 1] == units[u];
      ReceivedUpdate(units[1..], u - 1, x);
      var first := multiset(Syns(units[0].incoming));
      assert Received(units') == first + Received(units'[1..]);
      Regroup(first, Received(units'[1..]), multiset(Syns(units[u].incoming)), Received(units[1..]), multiset(Syns(x.incoming)));
    }
  }

  lemma {:induction false} ReceivedNothing(units: seq<Unit>)
    requires forall u :: 0 <= u < |units| ==> units[u].incoming == []
    ensures Received(units) == multiset{}
  {
    if units != [] { ReceivedNothing(units[1..]); }
  }

  function Owed(c: Config, s: Engine): multiset<Synapse> {
    multiset(Fan(c, s.fired)) + OpenSyns(s) + Received(s.units)
  }

  // Delivered or owed: what the neurons that fired last give out in all.
  function Total(c: Config, s: Engine): multiset<Synapse> { multiset(s.log) + Owed(c, s) }

  // ---------------------------------------------------------------- bookkeeping

  // The request map knows exactly the open reads, each once and under its own unit.
  ghost predicate Tracked(s: Engine) {
    && (forall r :: r in s.outgoing || r in s.inMemory ==> r.id in s.requests && s.requests[r.id] == r.from < |s.units|)
    && (forall id: nat :: OpenIds(s)[id] == if id in s.requests then 1 else 0)
    && (forall id :: id in s.requests ==> id < s.nextId)
  }

  // A unit counts exactly its open reads and undelivered answers; unit `u` is about to
  // ask for `extra` more.
  ghost predicate Counted(s: Engine, u: nat, extra: nat) {
    forall v :: 0 <= v < |s.units| ==>
      s.units[v].numSpikes == |s.units[v].incoming| + OpenFroms(s)[v] + (if v == u then extra else 0)
  }

  ghost predicate Inv(c: Config, s: Engine) {
    && NetOk(c, |s.neurons|) && Tracked(s) && Counted(s, 0, 0)
    && (!s.phase.ProcessFire? ==> s.fired == [] && AllFree(s))
  }

  // The neurons are the base ones with the log's deliveries applied.
  ghost predicate Built(s: Engine, base: seq<Neuron>) {
    s.neurons == DeliverAll(base, s.log, s.now)
  }

  // Nothing is owed when all units are free and no neuron waits.
  lemma NothingOwed(c: Config, s: Engine)
    requires Tracked(s) && Counted(s, 0, 0) && AllFree(s) && s.fired == []
    ensures s.outgoing == [] && s.inMemory == [] && Received(s.units) == multiset{} && Owed(c, s) == multiset{}
  {
    hide Syns, OpenSyns, OpenIds, OpenFroms;
    if s.outgoing != [] {
      OpenMember(s, s.outgoing[0]);
      assert false;
    }
    if s.inMemory != [] {
      OpenMember(s, s.inMemory[0]);
      assert false;
    }
    ReceivedNothing(s.units);
    NothingOpen(s);
  }

  lemma NothingOpen(s: Engine)
    requires s.outgoing == [] && s.inMemory == []
    ensures OpenSyns(s) == multiset{}
  {}

  // ---------------------------------------------------------------- asking

  function AskOne(s: Engine, u: nat, syn: Synapse): Engine {
    s.(outgoing := s.outgoing + [Req(s.nextId, u, syn)], requests := s.requests[s.nextId := u], nextId := s.nextId + 1)
  }

  lemma AskOneKeeps(s: Engine, u: nat, syn: Synapse, extra: nat)
    requires Tracked(s) && Counted(s, u, extra + 1) && u < |s.units|
    ensures Tracked(AskOne(s, u, syn)) && Counted(AskOne(s, u, syn), u, extra)
    ensures OpenSyns(AskOne(s, u, syn)) == OpenSyns(s) + multiset{syn}
  {
    hide OpenSyns, OpenIds, OpenFroms;
    OpenAsk(s, AskOne(s, u, syn), Req(s.nextId, u, syn));
  }

  lemma {:induction false} AskForKeeps(s: Engine, u: nat, list: seq<Synapse>)
    requires Tracked(s) && Counted(s, u, |list|) && u < |s.units|
    ensures var s' := AskFor(s, u, list);
            && Tracked(s') && Counted(s', u, 0)
            && s' == s.(outgoing := s'.outgoing, requests := s'.requests, nextId := s'.nextId)
            && OpenSyns(s') == OpenSyns(s) + multiset(list)
            && |s'.outgoing| == |s.outgoing| + |list|
    decreases |list|
  {
    hide Tracked, Counted, OpenSyns;
    if list != [] {
      AskOneKeeps(s, u, list[0], |list[1..]|);
      AskForKeeps(AskOne(s, u, list[0]), u, list[1..]);
      assert list == [list[0]] + list[1..];
    }
  }

  lemma FanFirst(c: Config, fired: seq<nat>)
    requires fired != []
    ensures Fan(c, fired) == Fan(c, [fired[0]]) + Fan(c, fired[1..])
  {}

  // A free unit takes a fired neuron: its synapses move from waiting to asked for.
  lemma AssignKeeps(c: Config, s: Engine, u: nat)
    requires Tracked(s) && Counted(s, 0, 0) && u < |s.units| && s.units[u].numSpikes == 0 && s.fired != []
    ensures var s' := Assign(s.(fired := s.fired[1..]), u, Fan(c, [s.fired[0]]));
            && Tracked(s') && Counted(s', 0, 0) && Owed(c, s') == Owed(c, s)
            && s'.neurons == s.neurons && s'.log == s.log && s'.now == s.now && s'.phase == s.phase
            && s'.inMemory == s.inMemory && |s'.outgoing| == |s.outgoing| + |Fan(c, [s.fired[0]])|
            && s'.fired == s.fired[1..] && |s'.units| == |s.units|
            && (forall v :: 0 <= v < |s.units| ==> s'.units[v].incoming == s.units[v].incoming)
  {
    hide OpenIds, OpenSyns, OpenFroms, Fan, Syns, Received, Owed;
    var list := Fan(c, [s.fired[0]]);
    var s1 := s.(fired := s.fired[1..], units := s.units[u := s.units[u].(numSpikes := |list|)]);
    OpenSame(s, s1);
    AskForKeeps(s1, u, list);
    FanFirst(c, s.fired);
    ReceivedUpdate(s.units, u, s1.units[u]);
    SameWithout(Received(s1.units), Received(s.units), multiset(Syns(s.units[u].incoming)));
    OwedMoved(c, s, AskFor(s1, u, list), list);
  }

  lemma OwedMoved(c: Config, s: Engine, s': Engine, list: seq<Synapse>)
    requires s.fired != [] && s'.fired == s.fired[1..] && Fan(c, s.fired) == list + Fan(c, s'.fired)
    requires OpenSyns(s') == OpenSyns(s) + multiset(list) && Received(s'.units) == Received(s.units)
    ensures Owed(c, s') == Owed(c, s)
  {
    hide Fan, OpenSyns, Received;
    assert multiset(Fan(c, s.fired)) == multiset(list) + multiset(Fan(c, s'.fired));
  }

  lemma SameWithout<T>(p: multiset<T>, q: multiset<T>, m: multiset<T>)
    requires p + m == q + m
    ensures p == q
  {
    assert p == (p + m) - m;
    assert q == (q + m) - m;
  }

  // A delivered answer moves from the received ones to the log.
  lemma Moved<T>(log: multiset<T>, f: multiset<T>, o: multiset<T>, r: multiset<T>, r': multiset<T>, m: multiset<T>, x: T)
    requires r' + (m + multiset{x}) == r + m
    ensures (log + multiset{x}) + (f + o + r') == log + (f + o + r)
  {
    assert r' + (m + multiset{x}) == (r' + multiset{x}) + m;
    SameWithout(r' + multiset{x}, r, m);
    assert (log + multiset{x}) + (f + o + r') == log + (f + o + (r' + multiset{x}));
  }

  // An answer moves from the open reads to the received ones.
  lemma MovedBack<T>(log: multiset<T>, f: multiset<T>, o: multiset<T>, o': multiset<T>, r: multiset<T>, r': multiset<T>, m: multiset<T>, x: T)
    requires o == o' + multiset{x} && r' + m == r + (m + multiset{x})
    ensures log + (f + o' + r') == log + (f + o + r)
  {
    assert r + (m + multiset{x}) == (r + multiset{x}) + m;
    SameWithout(r', r + multiset{x}, m);
    assert log + (f + o' + (r + multiset{x})) == log + (f + (o' + multiset{x}) + r);
  }

  lemma OpenSame(s: Engine, s': Engine)
    requires s'.outgoing == s.outgoing && s'.inMemory == s.inMemory
    ensures OpenIds(s') == OpenIds(s) && OpenFroms(s') == OpenFroms(s) && OpenSyns(s') == OpenSyns(s)
  {}

  // What a step of the fire phase keeps.
  ghost predicate Keeps(c: Config, s: Engine, s': Engine) {
    && Tracked(s') && Counted(s', 0, 0) && Total(c, s') == Total(c, s)
    && s'.now == s.now && s'.phase == s.phase && |s'.neurons| == |s.neurons| && |s'.units| == |s.units|
    && (forall base :: Built(s, base) ==> Built(s', base))
  }

  lemma {:induction false} AssignFromKeeps(c: Config, s: Engine, u: nat, remain: int)
    requires Tracked(s) && Counted(s, 0, 0) && u <= |s.units|
    ensures Keeps(c, s, AssignFrom(c, s, u, remain))
    decreases |s.units| - u
  {
    hide Tracked, Counted, Owed, DeliverAll, Assign;
    if u < |s.units| && s.fired != [] {
      var free := s.units[u].numSpikes == 0;
      var s1 := if free then Assign(s.(fired := s.fired[1..]), u, Fan(c, [s.fired[0]])) else s;
      var remain' := if free then remain - 1 else remain;
      if free { AssignKeeps(c, s, u); }
      assert Keeps(c, s, s1);
      if remain' != 0 { AssignFromKeeps(c, s1, u + 1, remain'); }
    }
  }

  // ---------------------------------------------------------------- delivering

  function AdvanceOne(s: Engine, u: nat): Engine
    requires u < |s.units| && s.units[u].incoming != []
  {
    var unit := s.units[u];
    var syn := unit.incoming[0].syn;
    s.(neurons := Deliver(s.neurons, syn, s.now), log := s.log + [syn],
       units := s.units[u := Unit(unit.numSpikes - 1, unit.incoming[1..])])
  }

  lemma AdvanceOneKeeps(c: Config, s: Engine, u: nat)
    requires Tracked(s) && Counted(s, 0, 0) && u < |s.units| && s.units[u].incoming != []
    ensures Keeps(c, s, AdvanceOne(s, u))
  {
    hide Fan, Syns, Received, Deliver, DeliverAll, OpenSyns, OpenIds, OpenFroms;
    var s' := AdvanceOne(s, u);
    var q := s.units[u].incoming;
    OpenSame(s, s');
    ReceivedUpdate(s.units, u, s'.units[u]);
    QueueTake(q, 0);
    assert q[..0] + q[1..] == q[1..];
    assert multiset(Syns(q)) == multiset(Syns(q[1..])) + multiset{q[0].syn};
    assert multiset(s'.log) == multiset(s.log) + multiset{q[0].syn};
    Moved(multiset(s.log), multiset(Fan(c, s.fired)), OpenSyns(s), Received(s.units), Received(s'.units), multiset(Syns(q[1..])), q[0].syn);
    forall base | Built(s, base) ensures Built(s', base) {
      DeliverAppend(base, s.log, [q[0].syn], s.now);
      DeliverOne(DeliverAll(base, s.log, s.now), q[0].syn, s.now);
    }
  }

  lemma DeliverOne(ns: seq<Neuron>, syn: Synapse, now: nat)
    ensures DeliverAll(ns, [syn], now) == Deliver(ns, syn, now)
  {}

  lemma {:induction false} AdvanceKeeps(c: Config, s: Engine, u: nat)
    requires Tracked(s) && Counted(s, 0, 0) && u < |s.units|
    ensures Keeps(c, s, Advance(s, u)) && Advance(s, u).fired == s.fired
    decreases |s.units[u].incoming|
  {
    hide Tracked, Counted, Owed, Deliver, DeliverAll;
    if s.units[u].incoming != [] {
      AdvanceOneKeeps(c, s, u);
      AdvanceKeeps(c, AdvanceOne(s, u), u);
    }
  }

  lemma {:induction false} AdvanceFromKeeps(c: Config, s: Engine, u: nat)
    requires Tracked(s) && Counted(s, 0, 0) && u <= |s.units|
    ensures Keeps(c, s, AdvanceFrom(s, u)) && AdvanceFrom(s, u).fired == s.fired
    decreases |s.units| - u
  {
    hide Tracked, Counted, Owed, Advance, DeliverAll;
    if u < |s.units| {
      AdvanceKeeps(c, s, u);
      AdvanceFromKeeps(c, Advance(s, u), u + 1);
    }
  }

  // ---------------------------------------------------------------- memory

  lemma {:induction false} SendKeeps(c: Config, s: Engine, k: nat)
    requires Tracked(s) && Counted(s, 0, 0)
    ensures Keeps(c, s, Send(s, k)) && Send(s, k).units == s.units && Send(s, k).log == s.log && Send(s, k).neurons == s.neurons
    decreases k
  {
    hide DeliverAll, OpenSyns, OpenIds, OpenFroms, Fan, Received;
    if k > 0 && s.outgoing != [] {
      var s1 := s.(outgoing := s.outgoing[1..], inMemory := s.inMemory + [s.outgoing[0]]);
      OpenSend(s, s1);
      assert forall x :: x in s1.outgoing || x in s1.inMemory ==> x in s.outgoing || x in s.inMemory;
      assert Tracked(s1);
      SendKeeps(c, s1, k - 1);
    }
  }

  // Any answer is recognised, and goes to the unit that asked.
  lemma RespondKeeps(c: Config, s: Engine, j: nat)
    requires Tracked(s) && Counted(s, 0, 0) && j < |s.inMemory|
    ensures var r := s.inMemory[j];
            && r.id in s.requests && s.requests[r.id] == r.from && r.from < |s.units|
            && Keeps(c, s, Respond(s, j)) && Respond(s, j).fired == s.fired
  {
    hide DeliverAll, OpenSyns, OpenIds, OpenFroms, Fan, Received, Syns;
    var r := s.inMemory[j];
    assert r in s.inMemory;
    var s' := Respond(s, j);
    var unit := s.units[r.from];
    OpenAnswer(s, s', j);
    QueueAppend(unit.incoming, [r]);
    QueueOne(r);
    ReceivedUpdate(s.units, r.from, unit.(incoming := unit.incoming + [r]));
    forall x | x in s'.outgoing || x in s'.inMemory ensures (x in s.outgoing || x in s.inMemory) && x.id != r.id {
      OpenMember(s', x);
    }
    assert multiset(Syns(unit.incoming + [r])) == multiset(Syns(unit.incoming)) + multiset{r.syn};
    MovedBack(multiset(s.log), multiset(Fan(c, s.fired)), OpenSyns(s), OpenSyns(s'), Received(s.units), Received(s'.units),
              multiset(Syns(unit.incoming)), r.syn);
  }
}
