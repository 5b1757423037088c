// The transaction scheduler: per-channel queues, first-come and row-hit-first selection,
// read-first mode with its write-flush flag, and what order and progress it guarantees.
module TxnScheduling {
  datatype Req = Req(seqNo: nat, write: bool, addr: nat, bank: nat, row: nat)

  datatype Config = Config(readFirst: bool, rowHitFirst: bool, entries: nat, maxPending: nat, minPending: nat)

  // What the later stages report: banks with at least three free command slots, and the
  // row the converter has open per bank.
  datatype Env = Env(free: set<nat>, open: map<nat, nat>)

  // `q` holds all requests, or the reads in read-first mode; `w` then holds the writes;
  // `out` lists the requests passed on.
  datatype Channel = Channel(q: seq<Req>, w: seq<Req>, out: seq<Req>)

  datatype State = State(channels: seq<Channel>, flush: bool, last: nat)

  // ---------------------------------------------------------------- selection

  // An earlier request to the address; the scan ends at the first that is not earlier.
  function HasDependency(q: seq<Req>, t: Req): bool {
    if q == [] then false
    else
      var here := q[0].addr == t.addr && q[0].seqNo < t.seqNo;
      if q[0].seqNo >= t.seqNo then here else here || HasDependency(q[1..], t)
  }

  // The queue a request is checked against: in read-first mode, the other one.
  function Opposite(c: Config, ch: Channel, t: Req): seq<Req> {
    if !c.readFirst then ch.q else if t.write then ch.q else ch.w
  }

  predicate Issuable(c: Config, e: Env, ch: Channel, t: Req) {
    t.bank in e.free && !HasDependency(Opposite(c, ch, t), t)
  }

  predicate RowHit(e: Env, t: Req) { t.bank in e.open && e.open[t.bank] == t.row }

  datatype Choice = Nothing | Entry(index: nat)

  // Row-hit-first: the first issuable row hit, or else the last issuable request.
  function LastOrHit(c: Config, e: Env, ch: Channel, q: seq<Req>, i: nat, best: Choice): (r: Choice)
    requires i <= |q| && (best.Entry? ==> best.index < i)
    ensures r.Entry? ==> r.index < |q|
    decreases |q| - i
  {
    if i == |q| then best
    else if !Issuable(c, e, ch, q[i]) then LastOrHit(c, e, ch, q, i + 1, best)
    else if RowHit(e, q[i]) then Entry(i)
    else LastOrHit(c, e, ch, q, i + 1, Entry(i))
  }

  function NextTxn(c: Config, e: Env, ch: Channel, q: seq<Req>): (r: Choice)
    ensures r.Entry? ==> r.index < |q|
  {
    if q == [] then Nothing
    else if c.rowHitFirst then LastOrHit(c, e, ch, q, 0, Nothing)
    else if Issuable(c, e, ch, q[0]) then Entry(0)
    else Nothing
  }

  function NewFlush(c: Config, ch: Channel, flush: bool): bool {
    if !c.readFirst then flush
    else if |ch.w| >= c.maxPending || |ch.q| == 0 then true
    else if |ch.w| < c.minPending then false
    else flush
  }

  function Drop(q: seq<Req>, i: nat): seq<Req>
    requires i < |q|
  {
    q[..i] + q[i + 1..]
  }

  // Where the channel's next request comes from: the preferred queue, else the other.
  datatype Pick = None | Pick(writes: bool, index: nat)

  function Select(c: Config, e: Env, ch: Channel, flush: bool): (p: Pick)
    ensures p.Pick? ==> p.index < |if p.writes then ch.w else ch.q|
  {
    var writes := c.readFirst && flush;
    var first := NextTxn(c, e, ch, if writes then ch.w else ch.q);
    if first.Entry? then Pick(writes, first.index)
    else if !c.readFirst then None
    else
      var second := NextTxn(c, e, ch, if writes then ch.q else ch.w);
      if second.Entry? then Pick(!writes, second.index) else None
  }

  function Take(ch: Channel, p: Pick): Channel
    requires p.Pick? ==> p.index < |if p.writes then ch.w else ch.q|
  {
    if p.None? then ch
    else if p.writes then ch.(w := Drop(ch.w, p.index), out := ch.out + [ch.w[p.index]])
    else ch.(q := Drop(ch.q, p.index), out := ch.out + [ch.q[p.index]])
  }

  function RunChannel(c: Config, e: Env, ch: Channel, flush: bool): Channel {
    Take(ch, Select(c, e, ch, NewFlush(c, ch, flush)))
  }

  // The flush flag is shared: each channel starts from what the one before left.
  function RunFrom(c: Config, e: Env, s: State, i: nat): (s': State)
    requires i <= |s.channels|
    ensures |s'.channels| == |s.channels| && s'.last == s.last
    decreases |s.channels| - i
  {
    if i == |s.channels| then s
    else
      var ch := s.channels[i];
      RunFrom(c, e, s.(channels := s.channels[i := RunChannel(c, e, ch, s.flush)], flush := NewFlush(c, ch, s.flush)), i + 1)
  }

  function Push(c: Config, ch: Channel, t: Req): (Channel, bool) {
    if c.readFirst && t.write then (if |ch.w| < c.entries then (ch.(w := ch.w + [t]), true) else (ch, false))
    else if |ch.q| < c.entries then (ch.(q := ch.q + [t]), true)
    else (ch, false)
  }

  datatype Act = Arrive(channel: nat, t: Req) | Clock(e: Env)

  // Sequence numbers arrive increasing; a refused request may come again.
  function Step(c: Config, s: State, a: Act): State {
    match a
    case Clock(e) => RunFrom(c, e, s, 0)
    case Arrive(i, t) =>
      if i >= |s.channels| || t.seqNo < s.last then s
      else
        var (ch, ok) := Push(c, s.channels[i], t);
        if ok then s.(channels := s.channels[i := ch], last := t.seqNo + 1) else s
  }

  function Run(c: Config, channels: nat, acts: seq<Act>): (s: State)
    ensures |s.channels| == channels
  {
    if acts == [] then State(seq(channels, i => Channel([], [], [])), false, 0)
    else Step(c, Run(c, channels, acts[..|acts| - 1]), acts[|acts| - 1])
  }

  // ---------------------------------------------------------------- order

  predicate Sorted(q: seq<Req>) { forall i, j :: 0 <= i < j < |q| ==> q[i].seqNo < q[j].seqNo }

  // Row-hit-first selection in read-first mode may swap two reads or two writes, as soon as
  // a queue can hold two.
  predicate Swaps(c: Config) { c.readFirst && c.rowHitFirst && c.entries >= 2 }

  // The pairs whose order the configuration keeps.
  predicate Kept(c: Config, a: Req, b: Req) {
    a.addr == b.addr && (Swaps(c) ==> a.write != b.write)
  }

  ghost predicate Queued(c: Config, ch: Channel, last: nat) {
    && Sorted(ch.q) && Sorted(ch.w) && |ch.q| <= c.entries && |ch.w| <= c.entries
    && (forall i :: 0 <= i < |ch.q| ==> ch.q[i].seqNo < last)
    && (forall i :: 0 <= i < |ch.w| ==> ch.w[i].seqNo < last)
    && (!c.readFirst ==> ch.w == [])
    && (c.readFirst ==> (forall i :: 0 <= i < |ch.q| ==> !ch.q[i].write) && (forall i :: 0 <= i < |ch.w| ==> ch.w[i].write))
    && (forall i, j :: 0 <= i < |ch.q| && 0 <= j < |ch.w| ==> ch.q[i].seqNo != ch.w[j].seqNo)
  }

  ghost predicate Before(c: Config, out: seq<Req>, q: seq<Req>) {
    forall k, i :: 0 <= k < |out| && 0 <= i < |q| && Kept(c, out[k], q[i]) ==> out[k].seqNo < q[i].seqNo
  }

  // Departed requests precede queued ones, and each other, in sequence order.
  ghost predicate InOrder(c: Config, ch: Channel, last: nat) {
    && (forall k :: 0 <= k < |ch.out| ==> ch.out[k].seqNo < last)
    && Before(c, ch.out, ch.q) && Before(c, ch.out, ch.w)
    && (forall k, m :: 0 <= k < m < |ch.out| && Kept(c, ch.out[k], ch.out[m]) ==> ch.out[k].seqNo < ch.out[m].seqNo)
  }

  // In a sorted queue the early end of the scan overlooks nothing.
  lemma {:induction false} ScanIsComplete(q: seq<Req>, t: Req)
    requires Sorted(q)
    ensures HasDependency(q, t) <==> exists i :: 0 <= i < |q| && q[i].addr == t.addr && q[i].seqNo < t.seqNo
  {
    if q != [] {
      assert Sorted(q[1..]);
      ScanIsComplete(q[1..], t);
      if i :| 0 <= i < |q| && q[i].addr == t.addr && q[i].seqNo < t.seqNo {
        if i > 0 { assert q[1..][i - 1] == q[i]; }
      }
    }
  }

  // Whatever row-hit-first selection returns is issuable; it returns something if it can.
  lemma {:induction false} LastOrHitIssuable(c: Config, e: Env, ch: Channel, q: seq<Req>, i: nat, best: Choice)
    requires i <= |q| && (best.Entry? ==> best.index < i && Issuable(c, e, ch, q[best.index]))
    ensures var r := LastOrHit(c, e, ch, q, i, best);
            && (r.Entry? ==> Issuable(c, e, ch, q[r.index]))
            && (r.Nothing? ==> best.Nothing? && forall j :: i <= j < |q| ==> !Issuable(c, e, ch, q[j]))
    decreases |q| - i
  {
    hide Issuable, RowHit;
    if i < |q| {
      if !Issuable(c, e, ch, q[i]) { LastOrHitIssuable(c, e, ch, q, i + 1, best); }
      else if !RowHit(e, q[i]) { LastOrHitIssuable(c, e, ch, q, i + 1, Entry(i)); }
    }
  }

  lemma NextTxnIssuable(c: Config, e: Env, ch: Channel, q: seq<Req>)
    ensures var r := NextTxn(c, e, ch, q);
            && (r.Entry? ==> Issuable(c, e, ch, q[r.index]) && (!c.rowHitFirst ==> r.index == 0))
            && (r.Nothing? && q != [] ==> !Issuable(c, e, ch, q[0]))
  {
    if q != [] && c.rowHitFirst { LastOrHitIssuable(c, e, ch, q, 0, Nothing); }
  }

  // The request selected has no earlier one of its kept pairs left behind.
  lemma SelectedIsFirst(c: Config, e: Env, ch: Channel, flush: bool, last: nat)
    requires Queued(c, ch, last) && Select(c, e, ch, flush).Pick?
    ensures var p := Select(c, e, ch, flush);
            var t := if p.writes then ch.w[p.index] else ch.q[p.index];
            && (forall i :: 0 <= i < |ch.q| && Kept(c, t, ch.q[i]) ==> t.seqNo <= ch.q[i].seqNo)
            && (forall i :: 0 <= i < |ch.w| && Kept(c, t, ch.w[i]) ==> t.seqNo <= ch.w[i].seqNo)
  {
    hide HasDependency;
    NextTxnIssuable(c, e, ch, ch.q);
    NextTxnIssuable(c, e, ch, ch.w);
    var p := Select(c, e, ch, flush);
    var t := if p.writes then ch.w[p.index] else ch.q[p.index];
    ScanIsComplete(ch.q, t);
    ScanIsComplete(ch.w, t);
  }

  lemma TakeKeeps(c: Config, e: Env, ch: Channel, flush: bool, last: nat)
    requires Queued(c, ch, last) && InOrder(c, ch, last)
    ensures var ch' := Take(ch, Select(c, e, ch, flush)); Queued(c, ch', last) && InOrder(c, ch', last)
  {
    hide NextTxn;
    var p := Select(c, e, ch, flush);
    if p.Pick? {
      SelectedIsFirst(c, e, ch, flush, last);
      TakenQueues(c, ch, p, last);
      TakenOrder(c, ch, p, last);
    }
  }

  lemma TakenQueues(c: Config, ch: Channel, p: Pick, last: nat)
    requires Queued(c, ch, last) && p.Pick? && p.index < |if p.writes then ch.w else ch.q|
    ensures Queued(c, Take(ch, p), last)
  {
    hide Sorted;
    if p.writes {
      DropFrom(ch.w, p.index);
      DropSorted(ch.w, p.index);
    } else {
      DropFrom(ch.q, p.index);
      DropSorted(ch.q, p.index);
    }
  }

  lemma DropSorted(q: seq<Req>, k: nat)
    requires Sorted(q) && k < |q|
    ensures Sorted(Drop(q, k))
  {}

  lemma TakenOrder(c: Config, ch: Channel, p: Pick, last: nat)
    requires Queued(c, ch, last) && InOrder(c, ch, last) && p.Pick? && p.index < |if p.writes then ch.w else ch.q|
    requires var t := if p.writes then ch.w[p.index] else ch.q[p.index];
             && (forall i :: 0 <= i < |ch.q| && Kept(c, t, ch.q[i]) ==> t.seqNo <= ch.q[i].seqNo)
             && (forall i :: 0 <= i < |ch.w| && Kept(c, t, ch.w[i]) ==> t.seqNo <= ch.w[i].seqNo)
    ensures InOrder(c, Take(ch, p), last)
  {
    hide Sorted, Kept, Drop, Before;
    var ch' := Take(ch, p);
    if p.writes {
      DropFrom(ch.w, p.index);
      AppendBefore(c, ch.out, ch.w, ch'.w, ch.w[p.index]);
      AppendBefore(c, ch.out, ch.q, ch.q, ch.w[p.index]);
      DepartsLast(c, ch.out, ch.w, p.index);
    } else {
      DropFrom(ch.q, p.index);
      AppendBefore(c, ch.out, ch.q, ch'.q, ch.q[p.index]);
      AppendBefore(c, ch.out, ch.w, ch.w, ch.q[p.index]);
      DepartsLast(c, ch.out, ch.q, p.index);
    }
  }

  // What stays queued was queued, and keeps behind the request that departs.
  lemma AppendBefore(c: Config, out: seq<Req>, q: seq<Req>, q': seq<Req>, t: Req)
    requires Before(c, out, q) && (forall i :: 0 <= i < |q'| ==> q'[i] in q && q'[i].seqNo != t.seqNo)
    requires forall i :: 0 <= i < |q| && Kept(c, t, q[i]) ==> t.seqNo <= q[i].seqNo
    ensures Before(c, out + [t], q')
  {
    hide Kept;
  }

  lemma DepartsLast(c: Config, out: seq<Req>, q: seq<Req>, i: nat)
    requires Before(c, out, q) && i < |q|
    ensures forall k :: 0 <= k < |out| && Kept(c, out[k], q[i]) ==> out[k].seqNo < q[i].seqNo
  {}

  // What remains of a sorted queue was in it, under another number.
  lemma DropFrom(q: seq<Req>, k: nat)
    requires Sorted(q) && k < |q|
    ensures forall i :: 0 <= i < |Drop(q, k)| ==>
              Drop(q, k)[i] == q[if i < k then i else i + 1] && Drop(q, k)[i] in q && Drop(q, k)[i].seqNo != q[k].seqNo
  {}

  ghost predicate AllInOrder(c: Config, s: State) {
    forall i :: 0 <= i < |s.channels| ==> Queued(c, s.channels[i], s.last) && InOrder(c, s.channels[i], s.last)
  }

  lemma {:induction false} RunKeeps(c: Config, e: Env, s: State, i: nat)
    requires AllInOrder(c, s) && i <= |s.channels|
    ensures AllInOrder(c, RunFrom(c, e, s, i))
    decreases |s.channels| - i
  {
    hide Queued, InOrder, RunChannel;
    if i < |s.channels| {
      var ch := s.channels[i];
      TakeKeeps(c, e, ch, NewFlush(c, ch, s.flush), s.last);
      assert RunChannel(c, e, ch, s.flush) == Take(ch, Select(c, e, ch, NewFlush(c, ch, s.flush))) by { Unfold(c, e, ch, s.flush); }
      RunKeeps(c, e, s.(channels := s.channels[i := RunChannel(c, e, ch, s.flush)], flush := NewFlush(c, ch, s.flush)), i + 1);
    }
  }

  lemma Unfold(c: Config, e: Env, ch: Channel, flush: bool)
    ensures RunChannel(c, e, ch, flush) == Take(ch, Select(c, e, ch, NewFlush(c, ch, flush)))
  {}

  lemma PushKeeps(c: Config, ch: Channel, t: Req, last: nat)
    requires Queued(c, ch, last) && InOrder(c, ch, last) && last <= t.seqNo
    ensures Queued(c, Push(c, ch, t).0, t.seqNo + 1) && InOrder(c, Push(c, ch, t).0, t.seqNo + 1)
  {
    PushQueued(c, ch, t, last);
    PushOrder(c, ch, t, last);
  }

  lemma PushQueued(c: Config, ch: Channel, t: Req, last: nat)
    requires Queued(c, ch, last) && last <= t.seqNo
    ensures Queued(c, Push(c, ch, t).0, t.seqNo + 1)
  {
    hide Sorted;
    if Sorted(ch.q) && Sorted(ch.w) {
      SortedAppend(ch.q, t, last);
      SortedAppend(ch.w, t, last);
    }
  }

  lemma SortedAppend(q: seq<Req>, t: Req, last: nat)
    requires Sorted(q) && last <= t.seqNo && forall i :: 0 <= i < |q| ==> q[i].seqNo < last
    ensures Sorted(q + [t])
  {}

  lemma PushOrder(c: Config, ch: Channel, t: Req, last: nat)
    requires InOrder(c, ch, last) && last <= t.seqNo
    ensures InOrder(c, Push(c, ch, t).0, t.seqNo + 1)
  {}

  // Main result: in every run, on every channel, requests to one address leave in the order
  // they arrived, for the single queue under either policy, for read-first with first-come
  // and with queues of one entry; in the remaining configurations this holds for every
  // read/write pair.
  lemma {:induction false} SameAddressOrder(c: Config, channels: nat, acts: seq<Act>)
    ensures AllInOrder(c, Run(c, channels, acts))
  {
    hide Step, AllInOrder;
    if acts == [] {
      InitialOrder(c, channels);
    } else {
      SameAddressOrder(c, channels, acts[..|acts| - 1]);
      StepInOrder(c, Run(c, channels, acts[..|acts| - 1]), acts[|acts| - 1]);
    }
  }

  lemma StepInOrder(c: Config, s: State, a: Act)
    requires AllInOrder(c, s)
    ensures AllInOrder(c, Step(c, s, a))
  {
    hide RunFrom, Push, Queued, InOrder;
    match a {
      case Clock(e) => RunKeeps(c, e, s, 0);
      case Arrive(i, t) =>
        if i < |s.channels| && t.seqNo >= s.last {
          PushKeeps(c, s.channels[i], t, s.last);
          forall j | 0 <= j < |s.channels| ensures Queued(c, s.channels[j], t.seqNo + 1) && InOrder(c, s.channels[j], t.seqNo + 1) {
            LaterLast(c, s.channels[j], s.last, t.seqNo + 1);
          }
        }
    }
  }

  lemma LaterLast(c: Config, ch: Channel, last: nat, later: nat)
    requires Queued(c, ch, last) && InOrder(c, ch, last) && last <= later
    ensures Queued(c, ch, later) && InOrder(c, ch, later)
  {}

  lemma InitialOrder(c: Config, channels: nat)
    ensures AllInOrder(c, Run(c, channels, []))
  {}

  ghost predicate OutInOrder(out: seq<Req>) {
    forall k, m :: 0 <= k < m < |out| && out[k].addr == out[m].addr ==> out[k].seqNo < out[m].seqNo
  }

  // Whatever arrives and whatever the later stages report.
  ghost predicate KeepsOrder(c: Config, channels: nat) {
    forall acts: seq<Act>, i :: 0 <= i < channels ==> OutInOrder(Run(c, channels, acts).channels[i].out)
  }

  // The channels before i are done.
  lemma {:induction false} EarlierChannelsStay(c: Config, e: Env, s: State, i: nat, j: nat)
    requires j < i <= |s.channels|
    ensures RunFrom(c, e, s, i).channels[j] == s.channels[j]
    decreases |s.channels| - i
  {
    hide RunChannel, NewFlush;
    if i < |s.channels| {
      var ch := s.channels[i];
      EarlierChannelsStay(c, e, s.(channels := s.channels[i := RunChannel(c, e, ch, s.flush)], flush := NewFlush(c, ch, s.flush)), i + 1, j);
    }
  }

  // Of two writes to one address the later is taken first: with no row hit the last
  // issuable request is selected.
  lemma LastWriteFirst(c: Config, e: Env, a: Req, b: Req, out: seq<Req>, flush: bool)
    requires Swaps(c) && a.write && b.write && a.bank in e.free && b.bank in e.free && e.open == map[]
    ensures RunChannel(c, e, Channel([], [a, b], out), flush) == Channel([], [a], out + [b])
    ensures RunChannel(c, e, Channel([], [a], out), flush) == Channel([], [], out + [a])
  {
    var ch2, ch1 := Channel([], [a, b], out), Channel([], [a], out);
    assert LastOrHit(c, e, ch2, [a, b], 1, Entry(0)) == LastOrHit(c, e, ch2, [a, b], 2, Entry(1)) == Entry(1);
    assert NextTxn(c, e, ch2, [a, b]) == Entry(1);
    assert LastOrHit(c, e, ch1, [a], 0, Nothing) == LastOrHit(c, e, ch1, [a], 1, Entry(0)) == Entry(0);
    assert NextTxn(c, e, ch1, [a]) == Entry(0);
  }

  // Two writes to one address arrive and leave swapped.
  lemma WritesSwap(c: Config, channels: nat, a: Req, b: Req, e: Env)
    requires Swaps(c) && channels > 0
    requires a == Req(0, true, 64, 0, 5) && b == Req(1, true, 64, 0, 5) && e == Env({0}, map[])
    ensures Run(c, channels, [Arrive(0, a), Arrive(0, b), Clock(e), Clock(e)]).channels[0].out == [b, a]
  {
    hide RunFrom, RunChannel;
    var acts := [Arrive(0, a), Arrive(0, b), Clock(e), Clock(e)];
    assert acts[..3][..2][..1][..0] == [] && acts[..3][..2][..1] == [Arrive(0, a)];
    assert acts[..3][..2] == [Arrive(0, a), Arrive(0, b)] && acts[..3] == [Arrive(0, a), Arrive(0, b), Clock(e)];
    var s0 := Run(c, channels, []);
    var s1 := Run(c, channels, [Arrive(0, a)]);
    assert s1 == Step(c, s0, Arrive(0, a)) && s1.channels[0] == Channel([], [a], []);
    var s2 := Run(c, channels, acts[..3][..2]);
    assert s2 == Step(c, s1, Arrive(0, b)) && s2.channels[0] == Channel([], [a, b], []);
    var s3 := Run(c, channels, acts[..3]);
    assert s3 == RunFrom(c, e, s2, 0);
    FirstChannel(c, e, s2);
    LastWriteFirst(c, e, a, b, [], s2.flush);
    assert s3.channels[0] == Channel([], [a], [b]);
    assert Run(c, channels, acts) == RunFrom(c, e, s3, 0);
    FirstChannel(c, e, s3);
    LastWriteFirst(c, e, a, b, [b], s3.flush);
  }

  lemma FirstChannel(c: Config, e: Env, s: State)
    requires s.channels != []
    ensures RunFrom(c, e, s, 0).channels[0] == RunChannel(c, e, s.channels[0], s.flush)
  {
    var ch := s.channels[0];
    EarlierChannelsStay(c, e, s.(channels := s.channels[0 := RunChannel(c, e, ch, s.flush)], flush := NewFlush(c, ch, s.flush)), 1, 0);
  }

  // Main result, exactly: all requests to one address leave in order in every run if and
  // only if the configuration is not both read-first and row-hit-first with room for two.
  lemma OrderKeptExactly(c: Config, channels: nat)
    requires channels > 0
    ensures KeepsOrder(c, channels) <==> !(c.readFirst && c.rowHitFirst && c.entries >= 2)
  {
    hide Run;
    if Swaps(c) {
      var a, b, e := Req(0, true, 64, 0, 5), Req(1, true, 64, 0, 5), Env({0}, map[]);
      WritesSwap(c, channels, a, b, e);
      var out := Run(c, channels, [Arrive(0, a), Arrive(0, b), Clock(e), Clock(e)]).channels[0].out;
      assert out[0] == b && out[1] == a;
      assert !OutInOrder(out);
    } else {
      forall acts: seq<Act>, i | 0 <= i < channels ensures OutInOrder(Run(c, channels, acts).channels[i].out) {
        SameAddressOrder(c, channels, acts);
        assert InOrder(c, Run(c, channels, acts).channels[i], Run(c, channels, acts).last);
      }
    }
  }

  // ---------------------------------------------------------------- what a clock passes on

  ghost predicate Queues(ch: Channel, t: Req) { t in ch.q || t in ch.w }

  // At most one request leaves the channel; its bank has room, and the others stay queued.
  ghost predicate PassesOne(e: Env, ch: Channel, ch': Channel) {
    && (forall t :: Queues(ch', t) ==> Queues(ch, t))
    && |ch.out| <= |ch'.out| <= |ch.out| + 1 && ch'.out[..|ch.out|] == ch.out
    && (|ch'.out| > |ch.out| ==> ch'.out[|ch.out|].bank in e.free && Queues(ch, ch'.out[|ch.out|]))
  }

  lemma ChannelPassesOne(c: Config, e: Env, ch: Channel, flush: bool)
    ensures PassesOne(e, ch, RunChannel(c, e, ch, flush))
  {
    hide NextTxn, HasDependency;
    NextTxnIssuable(c, e, ch, ch.q);
    NextTxnIssuable(c, e, ch, ch.w);
  }

  // Main result for one clock: every channel passes on at most one request, and only for a
  // bank with room.
  lemma {:induction false} ClockPassesOne(c: Config, e: Env, s: State, i: nat, j: nat)
    requires i <= j < |s.channels|
    ensures PassesOne(e, s.channels[j], RunFrom(c, e, s, i).channels[j])
    decreases |s.channels| - i
  {
    hide RunChannel, NewFlush, PassesOne;
    var ch := s.channels[i];
    ChannelPassesOne(c, e, ch, s.flush);
    var s1 := s.(channels := s.channels[i := RunChannel(c, e, ch, s.flush)], flush := NewFlush(c, ch, s.flush));
    if i == j { EarlierChannelsStay(c, e, s1, i + 1, j); } else { ClockPassesOne(c, e, s1, i + 1, j); }
  }

  // ---------------------------------------------------------------- nothing is lost

  // The requests a channel holds or has passed on.
  function All(ch: Channel): multiset<Req> { multiset(ch.q) + multiset(ch.w) + multiset(ch.out) }

  lemma DropCounts(q: seq<Req>, i: nat)
    requires i < |q|
    ensures multiset(Drop(q, i)) + multiset([q[i]]) == multiset(q)
  {
    assert q == q[..i] + [q[i]] + q[i + 1..];
  }

  lemma ChannelLosesNothing(c: Config, e: Env, ch: Channel, flush: bool)
    ensures All(RunChannel(c, e, ch, flush)) == All(ch)
  {
    hide Select, Drop;
    var p := Select(c, e, ch, NewFlush(c, ch, flush));
    if p.Pick? { DropCounts(if p.writes then ch.w else ch.q, p.index); }
  }

  lemma {:induction false} ClockLosesNothing(c: Config, e: Env, s: State, i: nat, j: nat)
    requires i <= j < |s.channels|
    ensures All(RunFrom(c, e, s, i).channels[j]) == All(s.channels[j])
    decreases |s.channels| - i
  {
    hide RunChannel, NewFlush, All;
    var ch := s.channels[i];
    ChannelLosesNothing(c, e, ch, s.flush);
    var s1 := s.(channels := s.channels[i := RunChannel(c, e, ch, s.flush)], flush := NewFlush(c, ch, s.flush));
    if i == j { EarlierChannelsStay(c, e, s1, i + 1, j); } else { ClockLosesNothing(c, e, s1, i + 1, j); }
  }

  // ---------------------------------------------------------------- progress

  // The oldest request of a channel heads its queue and is held back by none.
  ghost predicate Oldest(ch: Channel, t: Req) {
    && (t in ch.q || t in ch.w)
    && (forall i :: 0 <= i < |ch.q| ==> t.seqNo <= ch.q[i].seqNo)
    && (forall i :: 0 <= i < |ch.w| ==> t.seqNo <= ch.w[i].seqNo)
  }

  lemma OldestIsIssuable(c: Config, e: Env, ch: Channel, last: nat, t: Req)
    requires Queued(c, ch, last) && Oldest(ch, t) && t.bank in e.free
    ensures Issuable(c, e, ch, t) && ((ch.q != [] && ch.q[0] == t) || (ch.w != [] && ch.w[0] == t))
  {
    ScanIsComplete(ch.q, t);
    ScanIsComplete(ch.w, t);
    if t in ch.q {
      var i :| 0 <= i < |ch.q| && ch.q[i] == t;
      assert i == 0;
    } else {
      var i :| 0 <= i < |ch.w| && ch.w[i] == t;
      assert i == 0;
    }
  }

  // Main result: in every configuration, if the oldest request's bank has room, the
  // channel passes on a request in this clock, whatever the flush flag says.
  lemma Progress(c: Config, e: Env, ch: Channel, flush: bool, last: nat, t: Req)
    requires Queued(c, ch, last) && Oldest(ch, t) && t.bank in e.free
    ensures |RunChannel(c, e, ch, flush).out| == |ch.out| + 1
  {
    hide Issuable, HasDependency, Queued;
    OldestIsIssuable(c, e, ch, last, t);
    NextTxnIssuable(c, e, ch, ch.q);
    NextTxnIssuable(c, e, ch, ch.w);
    if !c.readFirst { assert ch.w == [] by { UnifiedHasNoWrites(c, ch, last); } }
  }

  // The same for a channel among the others, whatever flag they leave it.
  lemma {:induction false} ClockProgress(c: Config, e: Env, s: State, i: nat, j: nat, last: nat, t: Req)
    requires i <= j < |s.channels| && Queued(c, s.channels[j], last) && Oldest(s.channels[j], t) && t.bank in e.free
    ensures |RunFrom(c, e, s, i).channels[j].out| == |s.channels[j].out| + 1
    decreases |s.channels| - i
  {
    hide RunChannel, NewFlush, Queued, Oldest;
    var ch := s.channels[i];
    var s1 := s.(channels := s.channels[i := RunChannel(c, e, ch, s.flush)], flush := NewFlush(c, ch, s.flush));
    if i == j {
      Progress(c, e, ch, s.flush, last, t);
      EarlierChannelsStay(c, e, s1, i + 1, j);
    } else {
      ClockProgress(c, e, s1, i + 1, j, last, t);
    }
  }

  lemma UnifiedHasNoWrites(c: Config, ch: Channel, last: nat)
    requires Queued(c, ch, last) && !c.readFirst
    ensures ch.w == []
  {}

  // In read-first mode the heads of the two queues never hold each other back.
  lemma HeadsNeverBlockEachOther(c: Config, ch: Channel, last: nat)
    requires Queued(c, ch, last) && c.readFirst && ch.q != [] && ch.w != []
    ensures !HasDependency(Opposite(c, ch, ch.q[0]), ch.q[0]) || !HasDependency(Opposite(c, ch, ch.w[0]), ch.w[0])
  {
    ScanIsComplete(ch.w, ch.q[0]);
    ScanIsComplete(ch.q, ch.w[0]);
  }
}
