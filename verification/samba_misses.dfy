// Miss handling of a TLB unit: dispatch, coalescing of misses to one page, answers from
// below, and return of finished requests. Whether a request hits is an input here.
module SambaMisses {
  datatype Req = Req(id: nat, page: nat)

  // `coalesce` holds for the first level only.
  datatype Config = Config(coalesce: bool, maxOutstanding: nat, maxWidth: nat, hitDelay: nat, missDelay: nat)

  datatype Unit = Unit(
    input: seq<Req>,               // not serviced
    below: set<Req>,               // passed to the next level
    back: seq<Req>,                // answered by it, not processed
    pending: seq<Req>,             // outstanding misses
    pages: set<nat>,               // pages with a miss outstanding
    waiting: map<nat, set<Req>>,   // further misses to such a page
    ready: map<Req, nat>,          // cycle at which a request is finished
    returned: set<Req>)

  const EMPTY: Unit := Unit([], {}, [], [], {}, map[], map[], {})

  function IndexOf(q: seq<Req>, r: Req): (k: nat)
    ensures k <= |q| && (k < |q| ==> q[k] == r) && (k == |q| ==> r !in q)
    ensures forall j :: 0 <= j < k ==> q[j] != r
  {
    if q == [] then 0 else if q[0] == r then 0 else 1 + IndexOf(q[1..], r)
  }

  function Drop(q: seq<Req>, i: nat): seq<Req>
    requires i < |q|
  {
    q[..i] + q[i + 1..]
  }

  // Without the first occurrence of r.
  function Remove(q: seq<Req>, r: Req): seq<Req> {
    if IndexOf(q, r) < |q| then Drop(q, IndexOf(q, r)) else q
  }

  function Waiters(s: Unit, page: nat): set<Req> {
    if page in s.waiting then s.waiting[page] else {}
  }

  function Stamp(rs: set<Req>, t: nat): map<Req, nat> { map w | w in rs :: t }

  // The last answer is finished, and wakes the requests waiting for its page.
  function BackOne(c: Config, s: Unit, x: nat): Unit
    requires s.back != []
  {
    var r := s.back[|s.back| - 1];
    s.(back := s.back[..|s.back| - 1],
       pending := Remove(s.pending, r),
       ready := s.ready[r := x + c.missDelay] + Stamp(if c.coalesce then Waiters(s, r.page) else {}, x + c.missDelay),
       waiting := if c.coalesce then s.waiting - {r.page} else s.waiting,
       pages := s.pages - {r.page})
  }

  function BackAll(c: Config, s: Unit, x: nat): Unit
    decreases |s.back|
  {
    if s.back == [] then s else BackAll(c, BackOne(c, s, x), x)
  }

  // Entry i of the input: finished if it hits; otherwise, if another miss may be
  // outstanding, it waits for its page's miss or goes below.
  function Serve(c: Config, s: Unit, x: nat, hits: set<Req>, i: nat): Unit
    requires i < |s.input|
  {
    var r := s.input[i];
    var taken := s.(input := Drop(s.input, i));
    if r in hits then taken.(ready := s.ready[r := x + c.hitDelay])
    else if |s.pending| >= c.maxOutstanding then s
    else if c.coalesce && r.page in s.pages then
      taken.(waiting := s.waiting[r.page := Waiters(s, r.page) + {r}])
    else
      taken.(pending := s.pending + [r], below := s.below + {r}, pages := if c.coalesce then s.pages + {r.page} else s.pages)
  }

  // The scan: a removed entry's successor takes its place and is passed over.
  function Dispatch(c: Config, s: Unit, x: nat, hits: set<Req>, i: nat, n: nat): Unit
    requires i <= |s.input|
    decreases |s.input| - i
  {
    if i == |s.input| || n >= c.maxWidth then s
    else
      var s' := Serve(c, s, x, hits, i);
      if i >= |s'.input| then s' else Dispatch(c, s', x, hits, i + 1, n + 1)
  }

  // Requests whose time has come go back to the level above.
  function Finish(s: Unit, x: nat): Unit {
    var due := set r | r in s.ready && s.ready[r] <= x;
    s.(ready := s.ready - due, returned := s.returned + due)
  }

  function Tick(c: Config, s: Unit, x: nat, hits: set<Req>): Unit {
    Finish(Dispatch(c, BackAll(c, s, x), x, hits, 0, 0), x)
  }

  // ---------------------------------------------------------------- runs

  datatype Act = Arrive(r: Req) | Answer(r: Req) | Clock(x: nat, hits: set<Req>)

  // A request arrives once; the level below answers what it holds, once.
  function Step(c: Config, s: Unit, arrived: set<Req>, a: Act): Unit {
    match a
    case Arrive(r) => if r in arrived then s else s.(input := s.input + [r])
    case Answer(r) => if r in s.below then s.(below := s.below - {r}, back := s.back + [r]) else s
    case Clock(x, hits) => Tick(c, s, x, hits)
  }

  function Arrived(acts: seq<Act>): set<Req> {
    if acts == [] then {}
    else Arrived(acts[..|acts| - 1]) + (if acts[|acts| - 1].Arrive? then {acts[|acts| - 1].r} else {})
  }

  function Run(c: Config, acts: seq<Act>): Unit {
    if acts == [] then EMPTY
    else Step(c, Run(c, acts[..|acts| - 1]), Arrived(acts[..|acts| - 1]), acts[|acts| - 1])
  }

  // ---------------------------------------------------------------- every request in one place

  // How many places hold the request.
  function Places(s: Unit, r: Req): nat {
    multiset(s.input)[r] + (if r in s.below then 1 else 0) + multiset(s.back)[r]
    + (if r in Waiters(s, r.page) then 1 else 0) + (if r in s.ready then 1 else 0) + (if r in s.returned then 1 else 0)
  }

  ghost predicate OnePlace(s: Unit, arrived: set<Req>) {
    forall r: Req :: Places(s, r) == if r in arrived then 1 else 0
  }

  // The outstanding misses are those below or answered.
  ghost predicate CountsOk(s: Unit) {
    forall r: Req :: multiset(s.pending)[r] == (if r in s.below then 1 else 0) + multiset(s.back)[r]
  }

  ghost predicate WaitOk(c: Config, s: Unit) {
    && (forall p, w :: p in s.waiting && w in s.waiting[p] ==> w.page == p)
    && (if c.coalesce then forall p :: p in s.waiting ==> p in s.pages else s.waiting == map[])
  }

  // At the first level their pages are distinct and are the recorded ones.
  ghost predicate PagesOk(s: Unit) {
    && (forall i, j :: 0 <= i < j < |s.pending| ==> s.pending[i].page != s.pending[j].page)
    && (forall i :: 0 <= i < |s.pending| ==> s.pending[i].page in s.pages)
    && (forall p :: p in s.pages ==> HasMiss(s, p))
  }

  ghost predicate MissesOk(c: Config, s: Unit) {
    |s.pending| <= c.maxOutstanding && CountsOk(s) && WaitOk(c, s) && (c.coalesce ==> PagesOk(s))
  }

  ghost predicate HasMiss(s: Unit, p: nat) { exists i :: 0 <= i < |s.pending| && s.pending[i].page == p }

  ghost predicate Inv(c: Config, s: Unit, arrived: set<Req>) { OnePlace(s, arrived) && MissesOk(c, s) }

  lemma DropCounts(q: seq<Req>, i: nat)
    requires i < |q|
    ensures multiset(q) == multiset(Drop(q, i)) + multiset{q[i]}
  {
    assert q == q[..i] + [q[i]] + q[i + 1..];
  }

  lemma BackOnePlaces(c: Config, s: Unit, x: nat, arrived: set<Req>)
    requires Inv(c, s, arrived) && s.back != []
    ensures OnePlace(BackOne(c, s, x), arrived)
  {
    var s' := BackOne(c, s, x);
    var r := s.back[|s.back| - 1];
    assert s.back == s.back[..|s.back| - 1] + [r];
    forall q: Req ensures Places(s', q) == Places(s, q) {
      assert Places(s, r) <= 1;
      if q != r && c.coalesce && q in Waiters(s, r.page) { assert Places(s, q) <= 1; }
    }
  }

  lemma BackOneMisses(c: Config, s: Unit, x: nat)
    requires MissesOk(c, s) && s.back != []
    ensures MissesOk(c, BackOne(c, s, x))
  {
    hide IndexOf, Drop, WaitOk, PagesOk, Waiters;
    var r := s.back[|s.back| - 1];
    assert s.back == s.back[..|s.back| - 1] + [r];
    assert multiset(s.pending)[r] >= 1;
    DropCounts(s.pending, IndexOf(s.pending, r));
    DropLength(s.pending, IndexOf(s.pending, r));
    BackOneWait(c, s, x);
    if c.coalesce { BackOnePages(c, s, x); }
  }

  lemma DropLength(q: seq<Req>, i: nat)
    requires i < |q|
    ensures |Drop(q, i)| == |q| - 1
  {}

  lemma BackOneWait(c: Config, s: Unit, x: nat)
    requires WaitOk(c, s) && s.back != []
    ensures WaitOk(c, BackOne(c, s, x))
  {
    hide Remove;
  }

  lemma BackOnePages(c: Config, s: Unit, x: nat)
    requires PagesOk(s) && s.back != [] && s.back[|s.back| - 1] in s.pending
    ensures PagesOk(BackOne(c, s, x))
  {
    hide Waiters, IndexOf;
    var s' := BackOne(c, s, x);
    var r := s.back[|s.back| - 1];
    var k := IndexOf(s.pending, r);
    forall p | p in s'.pages ensures HasMiss(s', p) {
      assert HasMiss(s, p);
      var i :| 0 <= i < |s.pending| && s.pending[i].page == p;
      assert s'.pending[if i < k then i else i - 1] == s.pending[i];
    }
  }

  lemma {:induction false} BackAllInv(c: Config, s: Unit, x: nat, arrived: set<Req>)
    requires Inv(c, s, arrived)
    ensures Inv(c, BackAll(c, s, x), arrived) && BackAll(c, s, x).back == []
    decreases |s.back|
  {
    hide OnePlace, MissesOk;
    if s.back != [] {
      BackOnePlaces(c, s, x, arrived);
      BackOneMisses(c, s, x);
      BackAllInv(c, BackOne(c, s, x), x, arrived);
    }
  }

  lemma ServeInv(c: Config, s: Unit, x: nat, hits: set<Req>, i: nat, arrived: set<Req>)
    requires Inv(c, s, arrived) && i < |s.input|
    ensures Inv(c, Serve(c, s, x, hits, i), arrived)
  {
    ServePlaces(c, s, x, hits, i, arrived);
    ServeMisses(c, s, x, hits, i, arrived);
  }

  lemma ServePlaces(c: Config, s: Unit, x: nat, hits: set<Req>, i: nat, arrived: set<Req>)
    requires Inv(c, s, arrived) && i < |s.input|
    ensures OnePlace(Serve(c, s, x, hits, i), arrived)
  {
    hide Drop, MissesOk;
    var s' := Serve(c, s, x, hits, i);
    var r := s.input[i];
    DropCounts(s.input, i);
    assert Places(s, r) <= 1;
    forall q: Req ensures Places(s', q) == Places(s, q) {}
  }

  lemma ServeMisses(c: Config, s: Unit, x: nat, hits: set<Req>, i: nat, arrived: set<Req>)
    requires Inv(c, s, arrived) && i < |s.input|
    ensures MissesOk(c, Serve(c, s, x, hits, i))
  {
    hide WaitOk, PagesOk, Drop, Waiters;
    var s' := Serve(c, s, x, hits, i);
    var r := s.input[i];
    assert Places(s, r) <= 1 && multiset(s.input)[r] >= 1;
    ServeWait(c, s, x, hits, i);
    if c.coalesce { ServePages(c, s, x, hits, i); }
    if s'.pending != s.pending {
      forall q: Req ensures multiset(s'.pending)[q] == multiset(s.pending)[q] + (if q == r then 1 else 0) {}
    }
  }

  lemma ServeWait(c: Config, s: Unit, x: nat, hits: set<Req>, i: nat)
    requires WaitOk(c, s) && i < |s.input|
    ensures WaitOk(c, Serve(c, s, x, hits, i))
  {
    hide Drop;
  }

  lemma ServePages(c: Config, s: Unit, x: nat, hits: set<Req>, i: nat)
    requires c.coalesce && PagesOk(s) && i < |s.input|
    ensures PagesOk(Serve(c, s, x, hits, i))
  {
    hide Waiters, Drop;
    var s' := Serve(c, s, x, hits, i);
    var r := s.input[i];
    forall p | p in s'.pages ensures HasMiss(s', p) {
      if p in s.pages {
        assert HasMiss(s, p);
        var k :| 0 <= k < |s.pending| && s.pending[k].page == p;
        assert s'.pending[k].page == p;
      } else {
        assert s'.pending[|s.pending|].page == p;
      }
    }
  }

  lemma WaitersPage(s: Unit, page: nat)
    requires forall p, w :: p in s.waiting && w in s.waiting[p] ==> w.page == p
    ensures forall w :: w in Waiters(s, page) ==> w.page == page
  {}

  lemma {:induction false} DispatchInv(c: Config, s: Unit, x: nat, hits: set<Req>, i: nat, n: nat, arrived: set<Req>)
    requires Inv(c, s, arrived) && i <= |s.input|
    ensures Inv(c, Dispatch(c, s, x, hits, i, n), arrived) && Dispatch(c, s, x, hits, i, n).back == s.back
    decreases |s.input| - i
  {
    hide Inv;
    if i < |s.input| && n < c.maxWidth {
      ServeInv(c, s, x, hits, i, arrived);
      var s' := Serve(c, s, x, hits, i);
      if i < |s'.input| { DispatchInv(c, s', x, hits, i + 1, n + 1, arrived); }
    }
  }

  lemma FinishInv(c: Config, s: Unit, x: nat, arrived: set<Req>)
    requires Inv(c, s, arrived)
    ensures Inv(c, Finish(s, x), arrived)
  {
    var s' := Finish(s, x);
    forall r: Req ensures Places(s', r) == Places(s, r) { assert Places(s, r) <= 1; }
    forall p | p in s'.pages && c.coalesce ensures HasMiss(s', p) { assert HasMiss(s, p); }
  }

  lemma TickInv(c: Config, s: Unit, x: nat, hits: set<Req>, arrived: set<Req>)
    requires Inv(c, s, arrived)
    ensures Inv(c, Tick(c, s, x, hits), arrived) && Tick(c, s, x, hits).back == []
  {
    hide Inv, BackAll, Dispatch;
    BackAllInv(c, s, x, arrived);
    DispatchInv(c, BackAll(c, s, x), x, hits, 0, 0, arrived);
    FinishInv(c, Dispatch(c, BackAll(c, s, x), x, hits, 0, 0), x, arrived);
  }

  lemma StepInv(c: Config, s: Unit, arrived: set<Req>, a: Act)
    requires Inv(c, s, arrived)
    ensures Inv(c, Step(c, s, arrived, a), arrived + (if a.Arrive? then {a.r} else {}))
  {
    match a {
      case Clock(x, hits) =>
        TickInv(c, s, x, hits, arrived);
        assert arrived + {} == arrived;
      case Arrive(r) => ArriveInv(c, s, arrived, r);
      case Answer(r) =>
        AnswerInv(c, s, arrived, r);
        assert arrived + {} == arrived;
    }
  }

  lemma ArriveInv(c: Config, s: Unit, arrived: set<Req>, r: Req)
    requires Inv(c, s, arrived)
    ensures Inv(c, Step(c, s, arrived, Arrive(r)), arrived + {r})
  {
    var s' := Step(c, s, arrived, Arrive(r));
    if r !in arrived {
      forall q: Req ensures Places(s', q) == if q in arrived + {r} then 1 else 0 {
        assert Places(s, q) == if q in arrived then 1 else 0;
        assert multiset(s'.input)[q] == multiset(s.input)[q] + if q == r then 1 else 0;
      }
      forall p | p in s'.pages && c.coalesce ensures HasMiss(s', p) { assert HasMiss(s, p); }
    } else {
      assert arrived + {r} == arrived;
    }
  }

  lemma AnswerInv(c: Config, s: Unit, arrived: set<Req>, r: Req)
    requires Inv(c, s, arrived)
    ensures Inv(c, Step(c, s, arrived, Answer(r)), arrived)
  {
    var s' := Step(c, s, arrived, Answer(r));
    if r in s.below {
      forall q: Req ensures multiset(s'.back)[q] == multiset(s.back)[q] + (if q == r then 1 else 0) {}
      forall q: Req ensures Places(s', q) == Places(s, q) {}
      forall p | p in s'.pages && c.coalesce ensures HasMiss(s', p) { assert HasMiss(s, p); }
    }
  }

  // Main result: in every run each request that has arrived is in exactly one place; the
  // misses below never exceed the limit; at the first level they are for distinct pages,
  // recorded as such, and a request only waits for a page whose miss is outstanding.
  lemma {:induction false} NothingIsLost(c: Config, acts: seq<Act>)
    ensures Inv(c, Run(c, acts), Arrived(acts))
  {
    hide Inv, Step;
    if acts == [] {
      InitialInv(c);
    } else {
      NothingIsLost(c, acts[..|acts| - 1]);
      StepInv(c, Run(c, acts[..|acts| - 1]), Arrived(acts[..|acts| - 1]), acts[|acts| - 1]);
    }
  }

  lemma InitialInv(c: Config)
    ensures Inv(c, EMPTY, {})
  {}

  // When a miss is answered, the next clock finishes it and everything that waited for its page.
  lemma AnswerWakesWaiters(c: Config, s: Unit, arrived: set<Req>, x: nat, m: Req, w: Req)
    requires Inv(c, s, arrived) && c.coalesce && m in s.back && w in Waiters(s, m.page)
    ensures var s1 := BackAll(c, s, x);
            m in s1.ready && w in s1.ready && s1.ready[m] == s1.ready[w] == x + c.missDelay
    decreases |s.back|
  {
    hide OnePlace, MissesOk;
    BackOnePlaces(c, s, x, arrived);
    BackOneMisses(c, s, x);
    var s1 := BackOne(c, s, x);
    var r := s.back[|s.back| - 1];
    if r.page == m.page {
      OneMissPerPage(c, s, arrived, m, r);
      InOnePlace(s, arrived, m, w);
      assert m in s1.ready && w in s1.ready && s1.ready[w] == s1.ready[m] == x + c.missDelay;
      ReadyStays(c, s1, x, arrived, m);
      ReadyStays(c, s1, x, arrived, w);
    } else {
      assert s.back == s1.back + [r];
      AnswerWakesWaiters(c, s1, arrived, x, m, w);
    }
  }

  lemma InOnePlace(s: Unit, arrived: set<Req>, m: Req, w: Req)
    requires OnePlace(s, arrived) && m in s.back && w in Waiters(s, m.page)
    ensures m != w && Places(s, m) == 1
  {
    assert Places(s, m) <= 1 && multiset(s.back)[m] >= 1;
  }

  lemma OneMissPerPage(c: Config, s: Unit, arrived: set<Req>, m: Req, r: Req)
    requires Inv(c, s, arrived) && c.coalesce && m in s.back && r in s.back && m.page == r.page
    ensures m == r
  {
    assert multiset(s.pending)[m] >= 1 && multiset(s.pending)[r] >= 1;
    var i :| 0 <= i < |s.pending| && s.pending[i] == m;
    var j :| 0 <= j < |s.pending| && s.pending[j] == r;
    assert i == j;
  }

  lemma {:induction false} ReadyStays(c: Config, s: Unit, x: nat, arrived: set<Req>, q: Req)
    requires Inv(c, s, arrived) && q in s.ready
    ensures q in BackAll(c, s, x).ready && BackAll(c, s, x).ready[q] == s.ready[q]
    decreases |s.back|
  {
    if s.back != [] {
      BackOnePlaces(c, s, x, arrived);
      BackOneMisses(c, s, x);
      assert Places(s, q) <= 1;
      var r := s.back[|s.back| - 1];
      assert multiset(s.back)[r] >= 1;
      if q in Waiters(s, r.page) { WaitersPage(s, r.page); }
      ReadyStays(c, BackOne(c, s, x), x, arrived, q);
    }
  }

  // ---------------------------------------------------------------- which entries are served

  lemma {:induction false} DispatchOnlyRemoves(c: Config, s: Unit, x: nat, hits: set<Req>, i: nat, n: nat, r: Req)
    requires i <= |s.input| && r !in s.input
    ensures r !in Dispatch(c, s, x, hits, i, n).input
    decreases |s.input| - i
  {
    if i < |s.input| && n < c.maxWidth {
      var s' := Serve(c, s, x, hits, i);
      assert r !in s'.input by { DropMembers(s.input, i, r); }
      if i < |s'.input| { DispatchOnlyRemoves(c, s', x, hits, i + 1, n + 1, r); }
    }
  }

  lemma DropMembers(q: seq<Req>, i: nat, r: Req)
    requires i < |q| && r !in q
    ensures r !in Drop(q, i)
  {}

  // Answers are processed first: each frees one outstanding miss, and the queue stays.
  lemma {:induction false} AfterAnswers(c: Config, s: Unit, x: nat, arrived: set<Req>)
    requires Inv(c, s, arrived)
    ensures var s' := BackAll(c, s, x);
            Inv(c, s', arrived) && s'.input == s.input && s'.back == [] && |s'.pending| == |s.pending| - |s.back|
    decreases |s.back|
  {
    hide OnePlace, MissesOk, Remove, Stamp;
    if s.back != [] {
      BackOnePlaces(c, s, x, arrived);
      BackOneMisses(c, s, x);
      AnswerFreesMiss(c, s);
      AfterAnswers(c, BackOne(c, s, x), x, arrived);
    }
  }

  lemma AnswerFreesMiss(c: Config, s: Unit)
    requires MissesOk(c, s) && s.back != []
    ensures |Remove(s.pending, s.back[|s.back| - 1])| == |s.pending| - 1
  {
    var r := s.back[|s.back| - 1];
    assert multiset(s.back)[r] >= 1;
    assert multiset(s.pending)[r] >= 1;
  }

  lemma HeadDispatched(c: Config, s: Unit, arrived: set<Req>, x: nat, hits: set<Req>)
    requires Inv(c, s, arrived) && s.input != []
    ensures s.input[0] !in Dispatch(c, s, x, hits, 0, 0).input
            <==> c.maxWidth > 0 && (s.input[0] in hits || |s.pending| < c.maxOutstanding)
  {
    hide MissesOk;
    var r := s.input[0];
    var s' := Serve(c, s, x, hits, 0);
    if r in hits || |s.pending| < c.maxOutstanding {
      DropCounts(s.input, 0);
      assert Places(s, r) <= 1;
      assert s'.input == Drop(s.input, 0) && r !in s'.input;
      if c.maxWidth > 0 && s'.input != [] { DispatchOnlyRemoves(c, s', x, hits, 1, 1, r); }
    } else if c.maxWidth > 0 {
      FrontStays(c, s, x, hits, 1, 1);
      var s2 := Dispatch(c, s, x, hits, 1, 1);
      assert s2.input[0] == s2.input[..1][0] == s.input[..1][0];
    }
  }

  // The oldest entry leaves in a clock exactly if there is a port and it hits or, after this
  // clock's answers, another miss may be outstanding.
  lemma HeadIsServed(c: Config, s: Unit, arrived: set<Req>, x: nat, hits: set<Req>)
    requires Inv(c, s, arrived) && s.input != []
    ensures s.input[0] !in Tick(c, s, x, hits).input
            <==> c.maxWidth > 0 && (s.input[0] in hits || |s.pending| - |s.back| < c.maxOutstanding)
  {
    hide Inv, BackAll, Dispatch;
    AfterAnswers(c, s, x, arrived);
    HeadDispatched(c, BackAll(c, s, x), arrived, x, hits);
  }

  // The entry leaves the input queue if the scan comes to it.
  predicate Servable(c: Config, s: Unit, hits: set<Req>, i: nat)
    requires i < |s.input|
  {
    s.input[i] in hits || |s.pending| < c.maxOutstanding
  }

  lemma {:induction false} FrontStays(c: Config, s: Unit, x: nat, hits: set<Req>, i: nat, n: nat)
    requires i <= |s.input|
    ensures var s' := Dispatch(c, s, x, hits, i, n); i <= |s'.input| && s'.input[..i] == s.input[..i]
    decreases |s.input| - i
  {
    if i < |s.input| && n < c.maxWidth {
      var s1 := Serve(c, s, x, hits, i);
      assert i <= |s1.input| && s1.input[..i] == s.input[..i];
      if i < |s1.input| {
        FrontStays(c, s1, x, hits, i + 1, n + 1);
        var s' := Dispatch(c, s1, x, hits, i + 1, n + 1);
        assert s'.input[..i] == s'.input[..i + 1][..i] == s1.input[..i + 1][..i];
      }
    }
  }

  // Whenever the scan removes an entry, the entry behind it takes its place and is still
  // there when the scan ends.
  lemma SuccessorIsPassedOver(c: Config, s: Unit, x: nat, hits: set<Req>, i: nat, n: nat)
    requires i + 1 < |s.input| && n < c.maxWidth && Servable(c, s, hits, i)
    ensures var s' := Dispatch(c, s, x, hits, i, n);
            i < |s'.input| && s'.input[i] == s.input[i + 1]
  {
    var s1 := Serve(c, s, x, hits, i);
    assert s1.input == Drop(s.input, i) && s1.input[i] == s.input[i + 1];
    FrontStays(c, s1, x, hits, i + 1, n + 1);
    var s' := Dispatch(c, s1, x, hits, i + 1, n + 1);
    assert s'.input[i] == s'.input[..i + 1][i] == s1.input[..i + 1][i];
  }

  ghost predicate DistinctInput(s: Unit) { forall j, k :: 0 <= j < k < |s.input| ==> s.input[j] != s.input[k] }

  // Every queued entry hits, or there is room for a miss of each.
  ghost predicate AllServable(c: Config, s: Unit, hits: set<Req>) {
    forall k :: 0 <= k < |s.input| ==> s.input[k] in hits || |s.pending| + |s.input| <= c.maxOutstanding
  }

  predicate Reached(c: Config, k: nat, i: nat, n: nat) { k >= i && (k - i) % 2 == 0 && k - i < 2 * (c.maxWidth - n) }

  lemma DropAt(q: seq<Req>, i: nat, k: nat)
    requires i < |q| && k < |q| - 1
    ensures |Drop(q, i)| == |q| - 1 && Drop(q, i)[k] == q[if k < i then k else k + 1]
  {}

  // One entry served: the rest close up, and can all still be served.
  lemma ServeCloses(c: Config, s: Unit, x: nat, hits: set<Req>, i: nat)
    requires i < |s.input| && DistinctInput(s) && AllServable(c, s, hits)
    ensures var s1 := Serve(c, s, x, hits, i);
            && |s1.input| == |s.input| - 1 && DistinctInput(s1) && AllServable(c, s1, hits) && s.input[i] !in s1.input
            && forall k :: 0 <= k < |s1.input| ==> s1.input[k] == s.input[if k < i then k else k + 1]
  {
    hide Drop, Waiters;
    var s1 := Serve(c, s, x, hits, i);
    assert s1.input == Drop(s.input, i) && |s1.pending| <= |s.pending| + 1;
    assert |s1.input| == |s.input| - 1 by { if |s.input| > 1 { DropAt(s.input, i, 0); } else { assert Drop(s.input, i) == [] by { DropOne(s.input); } } }
    forall k | 0 <= k < |s1.input| ensures s1.input[k] == s.input[if k < i then k else k + 1] { DropAt(s.input, i, k); }
  }

  lemma DropOne(q: seq<Req>)
    requires |q| == 1
    ensures Drop(q, 0) == []
  {}

  lemma {:induction false} ServedFrom(c: Config, s: Unit, x: nat, hits: set<Req>, i: nat, n: nat, k: nat)
    requires i <= |s.input| && k < |s.input| && DistinctInput(s) && AllServable(c, s, hits)
    ensures s.input[k] !in Dispatch(c, s, x, hits, i, n).input <==> Reached(c, k, i, n)
    decreases |s.input| - i
  {
    hide Serve, Drop, DistinctInput, AllServable;
    if k < i {
      FrontStays(c, s, x, hits, i, n);
      assert s.input[k] == s.input[..i][k];
    } else if n < c.maxWidth {
      var s1 := Serve(c, s, x, hits, i);
      ServeCloses(c, s, x, hits, i);
      if k != i { assert s1.input[k - 1] == s.input[k]; }
      if i == |s1.input| {
        assert k == i;
      } else if k == i {
        DispatchOnlyRemoves(c, s1, x, hits, i + 1, n + 1, s.input[k]);
      } else {
        ServedFrom(c, s1, x, hits, i + 1, n + 1, k - 1);
        assert Reached(c, k - 1, i + 1, n + 1) <==> Reached(c, k, i, n);
      }
    }
  }

  lemma SecondsDispatched(c: Config, s: Unit, arrived: set<Req>, x: nat, hits: set<Req>, k: nat)
    requires Inv(c, s, arrived) && k < |s.input| && AllServable(c, s, hits)
    ensures s.input[k] !in Dispatch(c, s, x, hits, 0, 0).input <==> k % 2 == 0 && k < 2 * c.maxWidth
  {
    hide MissesOk, AllServable, Dispatch;
    forall i, j | 0 <= i < j < |s.input| ensures s.input[i] != s.input[j] {
      assert Places(s, s.input[i]) <= 1;
      if s.input[i] == s.input[j] { TwiceCounted(s.input, i, j); }
    }
    ServedFrom(c, s, x, hits, 0, 0, k);
  }

  // What the skip costs, exactly: of a queue whose entries hit or, after this clock's
  // answers, could all be outstanding, entry k leaves in the clock if and only if k is even
  // and below twice the port width.
  lemma EverySecondIsServed(c: Config, s: Unit, arrived: set<Req>, x: nat, hits: set<Req>, k: nat)
    requires Inv(c, s, arrived) && k < |s.input|
    requires forall i :: 0 <= i < |s.input| ==> s.input[i] in hits || |s.pending| - |s.back| + |s.input| <= c.maxOutstanding
    ensures s.input[k] !in Tick(c, s, x, hits).input <==> k % 2 == 0 && k < 2 * c.maxWidth
  {
    hide Inv, BackAll, Dispatch;
    AfterAnswers(c, s, x, arrived);
    SecondsDispatched(c, BackAll(c, s, x), arrived, x, hits, k);
  }

  lemma TwiceCounted(q: seq<Req>, i: nat, j: nat)
    requires i < j < |q| && q[i] == q[j]
    ensures multiset(q)[q[i]] >= 2
  {
    assert q == q[..j] + q[j..];
    assert q[i] in q[..j] && q[i] in q[j..] by { assert q[..j][i] == q[i] && q[j..][0] == q[i]; }
    assert multiset(q) == multiset(q[..j]) + multiset(q[j..]);
    assert multiset(q[..j])[q[i]] >= 1 && multiset(q[j..])[q[i]] >= 1;
  }
}
