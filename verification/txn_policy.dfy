// Which request a channel passes on, said of the queues alone: reads go first while few
// writes wait, writes while many do, and between the two bounds the direction stays.
module TxnPolicy {
  import opened TxnScheduling

  // An earlier request to the address waits among these.
  ghost predicate HeldBack(others: seq<Req>, t: Req) {
    exists i :: 0 <= i < |others| && others[i].addr == t.addr && others[i].seqNo < t.seqNo
  }

  // The bank has room, and no request the policy looks at comes first.
  ghost predicate Ready(c: Config, e: Env, ch: Channel, t: Req) {
    t.bank in e.free && !HeldBack(if c.readFirst && !t.write then ch.w else ch.q, t)
  }

  function Side(ch: Channel, writes: bool): seq<Req> { if writes then ch.w else ch.q }

  // First-come takes only the head of a queue, row-hit-first any request that is ready.
  ghost predicate MayGo(c: Config, e: Env, ch: Channel, writes: bool) {
    var q := Side(ch, writes);
    exists i :: 0 <= i < |q| && Ready(c, e, ch, q[i]) && (c.rowHitFirst || i == 0)
  }

  // Row-hit-first means the first row hit that is ready; without one, the last that is ready.
  ghost predicate Preferred(c: Config, e: Env, ch: Channel, q: seq<Req>, i: nat)
    requires i < |q|
  {
    && Ready(c, e, ch, q[i])
    && (!c.rowHitFirst ==> i == 0)
    && (c.rowHitFirst && RowHit(e, q[i]) ==> forall j :: 0 <= j < i && RowHit(e, q[j]) ==> !Ready(c, e, ch, q[j]))
    && (c.rowHitFirst && !RowHit(e, q[i]) ==>
          && (forall j :: 0 <= j < |q| && RowHit(e, q[j]) ==> !Ready(c, e, ch, q[j]))
          && (forall j :: i < j < |q| ==> !Ready(c, e, ch, q[j])))
  }

  // The preferred request of one queue leaves, and all else stays as it was.
  ghost predicate Passes(c: Config, e: Env, ch: Channel, ch': Channel, writes: bool) {
    var q := Side(ch, writes);
    exists i :: 0 <= i < |q| && Preferred(c, e, ch, q, i) && ch'.out == ch.out + [q[i]]
      && Side(ch', writes) == q[..i] + q[i + 1..] && Side(ch', !writes) == Side(ch, !writes)
  }

  // ---------------------------------------------------------------- one queue

  lemma ReadyIsIssuable(c: Config, e: Env, ch: Channel, last: nat, writes: bool)
    requires Queued(c, ch, last)
    ensures forall i :: 0 <= i < |Side(ch, writes)| ==> (Issuable(c, e, ch, Side(ch, writes)[i]) <==> Ready(c, e, ch, Side(ch, writes)[i]))
  {
    hide HasDependency;
    var q := Side(ch, writes);
    forall i | 0 <= i < |q| ensures Issuable(c, e, ch, q[i]) <==> Ready(c, e, ch, q[i]) {
      ScanIsComplete(ch.q, q[i]);
      ScanIsComplete(ch.w, q[i]);
    }
  }

  // The scan of row-hit-first, with what it has seen.
  lemma {:induction false} RowHitChoice(c: Config, e: Env, ch: Channel, q: seq<Req>, i: nat, best: Choice)
    requires i <= |q| && (best.Entry? ==> best.index < i && Issuable(c, e, ch, q[best.index]))
    requires forall j :: 0 <= j < i ==> !(Issuable(c, e, ch, q[j]) && RowHit(e, q[j]))
    requires forall j :: 0 <= j < i && (best.Entry? ==> best.index < j) ==> !Issuable(c, e, ch, q[j])
    ensures var r := LastOrHit(c, e, ch, q, i, best);
            && (r.Nothing? ==> forall j :: 0 <= j < |q| ==> !Issuable(c, e, ch, q[j]))
            && (r.Entry? && RowHit(e, q[r.index]) ==>
                  forall j :: 0 <= j < r.index ==> !(Issuable(c, e, ch, q[j]) && RowHit(e, q[j])))
            && (r.Entry? && !RowHit(e, q[r.index]) ==>
                  && (forall j :: 0 <= j < |q| ==> !(Issuable(c, e, ch, q[j]) && RowHit(e, q[j])))
                  && (forall j :: r.index < j < |q| ==> !Issuable(c, e, ch, q[j])))
    decreases |q| - i
  {
    hide Issuable, RowHit;
    if i < |q| {
      if !Issuable(c, e, ch, q[i]) { RowHitChoice(c, e, ch, q, i + 1, best); }
      else if !RowHit(e, q[i]) { RowHitChoice(c, e, ch, q, i + 1, Entry(i)); }
    }
  }

  // One queue offers its preferred request, or none if none may go.
  lemma NextIsPreferred(c: Config, e: Env, ch: Channel, last: nat, writes: bool)
    requires Queued(c, ch, last)
    ensures var r := NextTxn(c, e, ch, Side(ch, writes));
            && (r.Entry? <==> MayGo(c, e, ch, writes))
            && (r.Entry? ==> Preferred(c, e, ch, Side(ch, writes), r.index))
  {
    hide Issuable, RowHit, Ready, Queued;
    var q := Side(ch, writes);
    ReadyIsIssuable(c, e, ch, last, writes);
    NextTxnIssuable(c, e, ch, q);
    if q != [] && c.rowHitFirst {
      RowHitChoice(c, e, ch, q, 0, Nothing);
      LastOrHitIssuable(c, e, ch, q, 0, Nothing);
    }
    var r := NextTxn(c, e, ch, q);
    if r.Entry? { assert Ready(c, e, ch, q[r.index]); }
  }

  // ---------------------------------------------------------------- one channel

  // With a preferred queue: its request, else the other queue's, else none.
  lemma PassesFrom(c: Config, e: Env, ch: Channel, flush: bool, last: nat)
    requires Queued(c, ch, last)
    ensures var ch' := Take(ch, Select(c, e, ch, flush));
            var first := c.readFirst && flush;
            && (MayGo(c, e, ch, first) ==> Passes(c, e, ch, ch', first))
            && (!MayGo(c, e, ch, first) && c.readFirst && MayGo(c, e, ch, !first) ==> Passes(c, e, ch, ch', !first))
            && (!MayGo(c, e, ch, first) && (c.readFirst ==> !MayGo(c, e, ch, !first)) ==> ch' == ch)
  {
    hide MayGo, Preferred, NextTxn, Queued;
    NextIsPreferred(c, e, ch, last, true);
    NextIsPreferred(c, e, ch, last, false);
    var p := Select(c, e, ch, flush);
    var ch' := Take(ch, p);
    if p.Pick? {
      var q := Side(ch, p.writes);
      assert Preferred(c, e, ch, q, p.index) && Side(ch', p.writes) == q[..p.index] + q[p.index + 1..];
      assert Passes(c, e, ch, ch', p.writes);
    }
  }

  // Main result, the single queue: its preferred request leaves if one may go.
  lemma SingleQueuePasses(c: Config, e: Env, ch: Channel, flush: bool, last: nat)
    requires Queued(c, ch, last) && !c.readFirst
    ensures var ch' := RunChannel(c, e, ch, flush);
            if MayGo(c, e, ch, false) then Passes(c, e, ch, ch', false) else ch' == ch
  {
    hide MayGo, Passes, Queued, Take, Select;
    PassesFrom(c, e, ch, flush, last);
  }

  // Main result, few writes: a read leaves if one may go, whatever was decided before.
  lemma FewWritesWait(c: Config, e: Env, ch: Channel, flush: bool, last: nat)
    requires Queued(c, ch, last) && c.readFirst && |ch.w| < c.minPending && |ch.w| < c.maxPending && MayGo(c, e, ch, false)
    ensures Passes(c, e, ch, RunChannel(c, e, ch, flush), false)
    ensures var ch' := RunChannel(c, e, ch, flush); |ch'.out| == |ch.out| + 1 && !ch'.out[|ch.out|].write
  {
    hide Queued, Take, Select, Preferred;
    PassesFrom(c, e, ch, false, last);
    PassedKind(c, e, ch, RunChannel(c, e, ch, flush), last, false);
  }

  // Main result, many writes or no reads: a write leaves if one may go.
  lemma ManyWritesDrain(c: Config, e: Env, ch: Channel, flush: bool, last: nat)
    requires Queued(c, ch, last) && c.readFirst && (|ch.w| >= c.maxPending || ch.q == []) && MayGo(c, e, ch, true)
    ensures Passes(c, e, ch, RunChannel(c, e, ch, flush), true)
    ensures var ch' := RunChannel(c, e, ch, flush); |ch'.out| == |ch.out| + 1 && ch'.out[|ch.out|].write
  {
    hide Queued, Take, Select, Preferred;
    PassesFrom(c, e, ch, true, last);
    PassedKind(c, e, ch, RunChannel(c, e, ch, flush), last, true);
  }

  lemma PassedKind(c: Config, e: Env, ch: Channel, ch': Channel, last: nat, writes: bool)
    requires Queued(c, ch, last) && c.readFirst && Passes(c, e, ch, ch', writes)
    ensures |ch'.out| == |ch.out| + 1 && ch'.out[|ch.out|].write == writes
  {
    hide Preferred;
  }

  // No queue keeps the other from being served: what may go goes.
  lemma OtherQueueStepsIn(c: Config, e: Env, ch: Channel, flush: bool, last: nat, writes: bool)
    requires Queued(c, ch, last) && c.readFirst && MayGo(c, e, ch, writes) && !MayGo(c, e, ch, !writes)
    ensures Passes(c, e, ch, RunChannel(c, e, ch, flush), writes)
  {
    hide MayGo, Passes, Queued, Take, Select, NewFlush;
    PassesFrom(c, e, ch, NewFlush(c, ch, flush), last);
  }

  // A request joins its own queue, behind all others, exactly if that has room.
  lemma JoinsExactly(c: Config, ch: Channel, t: Req)
    ensures var (ch', ok) := Push(c, ch, t);
            var writes := c.readFirst && t.write;
            && (ok <==> |Side(ch, writes)| < c.entries)
            && ch'.out == ch.out && Side(ch', !writes) == Side(ch, !writes)
            && Side(ch', writes) == Side(ch, writes) + (if ok then [t] else [])
  {
    assert Side(ch, c.readFirst && t.write) + [] == Side(ch, c.readFirst && t.write);
  }

  // ---------------------------------------------------------------- the direction over a run

  // Neither bound is met: reads wait, and as many writes as leave the direction alone.
  predicate Undecided(c: Config, ch: Channel) { ch.q != [] && c.minPending <= |ch.w| < c.maxPending }

  predicate AllUndecided(c: Config, s: State) {
    forall i :: 0 <= i < |s.channels| ==> Undecided(c, s.channels[i])
  }

  // Between the bounds the channel goes on in the direction it is given.
  lemma UndecidedGoesOn(c: Config, e: Env, ch: Channel, flush: bool, last: nat)
    requires Queued(c, ch, last) && c.readFirst && Undecided(c, ch) && MayGo(c, e, ch, flush)
    ensures Passes(c, e, ch, RunChannel(c, e, ch, flush), flush)
  {
    hide MayGo, Passes, Queued, Take, Select;
    PassesFrom(c, e, ch, flush, last);
  }

  lemma {:induction false} ClockKeepsDirection(c: Config, e: Env, s: State, i: nat)
    requires i <= |s.channels| && forall j :: i <= j < |s.channels| ==> Undecided(c, s.channels[j])
    ensures RunFrom(c, e, s, i).flush == s.flush
    decreases |s.channels| - i
  {
    hide RunChannel;
    if i < |s.channels| {
      var ch := s.channels[i];
      assert Undecided(c, ch);
      ClockKeepsDirection(c, e, s.(channels := s.channels[i := RunChannel(c, e, ch, s.flush)], flush := NewFlush(c, ch, s.flush)), i + 1);
    }
  }

  // A channel at its turn, with the direction left by the channels before it.
  lemma {:induction false} ChannelsTurn(c: Config, e: Env, s: State, i: nat, j: nat)
    requires i <= j < |s.channels| && forall k :: i <= k < j ==> Undecided(c, s.channels[k])
    ensures RunFrom(c, e, s, i).channels[j] == RunChannel(c, e, s.channels[j], s.flush)
    decreases |s.channels| - i
  {
    hide RunChannel;
    var ch := s.channels[i];
    var s1 := s.(channels := s.channels[i := RunChannel(c, e, ch, s.flush)], flush := NewFlush(c, ch, s.flush));
    if i == j {
      EarlierChannelsStay(c, e, s1, i + 1, j);
    } else {
      assert Undecided(c, ch);
      ChannelsTurn(c, e, s1, i + 1, j);
    }
  }

  // The last channel to meet a bound in a clock decides the direction.
  lemma {:induction false} LastDecides(c: Config, e: Env, s: State, i: nat, j: nat)
    requires c.readFirst && i <= j < |s.channels| && forall k :: j < k < |s.channels| ==> Undecided(c, s.channels[k])
    ensures |s.channels[j].w| >= c.maxPending || s.channels[j].q == [] ==> RunFrom(c, e, s, i).flush
    ensures |s.channels[j].w| < c.maxPending && s.channels[j].q != [] && |s.channels[j].w| < c.minPending ==> !RunFrom(c, e, s, i).flush
    decreases |s.channels| - i
  {
    hide RunChannel;
    var ch := s.channels[i];
    var s1 := s.(channels := s.channels[i := RunChannel(c, e, ch, s.flush)], flush := NewFlush(c, ch, s.flush));
    if i == j { ClockKeepsDirection(c, e, s1, i + 1); } else { LastDecides(c, e, s1, i + 1, j); }
  }

  // In every clock of the second part all channels are between the bounds.
  ghost predicate StaysUndecided(c: Config, channels: nat, before: seq<Act>, acts: seq<Act>) {
    forall k :: 0 <= k < |acts| && acts[k].Clock? ==> AllUndecided(c, Run(c, channels, before + acts[..k]))
  }

  lemma {:induction false} DirectionPersists(c: Config, channels: nat, before: seq<Act>, acts: seq<Act>)
    requires StaysUndecided(c, channels, before, acts)
    ensures Run(c, channels, before + acts).flush == Run(c, channels, before).flush
  {
    hide RunFrom, Push, Undecided;
    if acts == [] {
      assert before + acts == before;
    } else {
      var n := |acts| - 1;
      assert forall k :: 0 <= k < n ==> acts[..n][..k] == acts[..k];
      DirectionPersists(c, channels, before, acts[..n]);
      var s := Run(c, channels, before + acts[..n]);
      assert (before + acts)[..|before| + n] == before + acts[..n];
      assert Run(c, channels, before + acts) == Step(c, s, acts[n]);
      if acts[n].Clock? {
        assert AllUndecided(c, s);
        ClockKeepsDirection(c, acts[n].e, s, 0);
      }
    }
  }

  // Main result: once a clock has ended in a direction, and for as long as no channel meets
  // a bound, every channel passes on a request of that direction in every clock in which one may go.
  lemma DirectionIsKept(c: Config, channels: nat, before: seq<Act>, acts: seq<Act>, e: Env, j: nat)
    requires c.readFirst && j < channels && StaysUndecided(c, channels, before, acts + [Clock(e)])
    requires var writes := Run(c, channels, before).flush;
             MayGo(c, e, Run(c, channels, before + acts).channels[j], writes)
    ensures var writes := Run(c, channels, before).flush;
            Passes(c, e, Run(c, channels, before + acts).channels[j],
                   Run(c, channels, before + acts + [Clock(e)]).channels[j], writes)
  {
    hide RunFrom, MayGo, Passes, RunChannel, Queued, InOrder, Undecided, Run;
    var all := acts + [Clock(e)];
    assert all[..|acts|] == acts && all[|acts|] == Clock(e);
    assert forall k :: 0 <= k < |acts| ==> all[k] == acts[k] && all[..k] == acts[..k];
    assert StaysUndecided(c, channels, before, acts);
    DirectionPersists(c, channels, before, acts);
    var s := Run(c, channels, before + acts);
    assert AllUndecided(c, s);
    SameAddressOrder(c, channels, before + acts);
    OneMore(c, channels, before + acts, e);
    ChannelsTurn(c, e, s, 0, j);
    UndecidedGoesOn(c, e, s.channels[j], s.flush, s.last);
  }

  lemma OneMore(c: Config, channels: nat, acts: seq<Act>, e: Env)
    ensures Run(c, channels, acts + [Clock(e)]) == RunFrom(c, e, Run(c, channels, acts), 0)
  {
    hide RunFrom;
    assert (acts + [Clock(e)])[..|acts|] == acts;
  }
}
