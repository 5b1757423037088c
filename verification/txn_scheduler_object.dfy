// The transaction scheduler as an object; its scans are loops over the queues.
module TxnSchedulerObject {
  import T = TxnScheduling

  class TxnScheduler {
    const c: T.Config
    const channels: array<T.Channel>
    var flush: bool
    ghost var last: nat   // one above the last number taken

    ghost function Model(): T.State
      reads this, channels
    {
      T.State(channels[..], flush, last)
    }

    constructor (c: T.Config, count: nat)
      ensures this.c == c && fresh(channels) && Model() == T.Run(c, count, [])
    {
      this.c, flush, last := c, false, 0;
      channels := new T.Channel[count](_ => T.Channel([], [], []));
    }

    method HasDependency(q: seq<T.Req>, t: T.Req) returns (found: bool)
      ensures found == T.HasDependency(q, t)
    {
      found := false;
      var i := 0;
      while i < |q|
        invariant 0 <= i <= |q|
        invariant T.HasDependency(q, t) == (found || T.HasDependency(q[i..], t))
      {
        if q[i].addr == t.addr && q[i].seqNo < t.seqNo { found := true; }
        if q[i].seqNo >= t.seqNo { return; }
        i := i + 1;
      }
    }

    method IsIssuable(e: T.Env, ch: T.Channel, t: T.Req) returns (ok: bool)
      ensures ok == T.Issuable(c, e, ch, t)
    {
      if t.bank !in e.free { return false; }
      var q := if !c.readFirst then ch.q else if t.write then ch.q else ch.w;
      var found := HasDependency(q, t);
      return !found;
    }

    method GetNextTxn(e: T.Env, ch: T.Channel, q: seq<T.Req>) returns (r: T.Choice)
      ensures r == T.NextTxn(c, e, ch, q)
    {
      r := T.Nothing;
      if q == [] { return; }
      if !c.rowHitFirst {
        var ok := IsIssuable(e, ch, q[0]);
        if ok { r := T.Entry(0); }
        return;
      }
      var i := 0;
      while i < |q|
        invariant 0 <= i <= |q| && (r.Entry? ==> r.index < i)
        invariant T.LastOrHit(c, e, ch, q, i, r) == T.LastOrHit(c, e, ch, q, 0, T.Nothing)
      {
        var ok := IsIssuable(e, ch, q[i]);
        if ok {
          r := T.Entry(i);
          if q[i].bank in e.open && e.open[q[i].bank] == q[i].row { return; }
        }
        i := i + 1;
      }
    }

    // One channel: choose the queue, select, and pass the request on.
    method RunOne(e: T.Env, i: nat)
      requires i < channels.Length
      modifies this`flush, channels
      ensures channels[..] == old(channels[..])[i := T.RunChannel(c, e, old(channels[i]), old(flush))]
      ensures flush == T.NewFlush(c, old(channels[i]), old(flush))
    {
      var ch := channels[i];
      var fromWrites := false;
      if c.readFirst {
        if |ch.w| >= c.maxPending || |ch.q| == 0 { flush := true; }
        else if |ch.w| < c.minPending { flush := false; }
        fromWrites := flush;
      }
      var r := GetNextTxn(e, ch, if fromWrites then ch.w else ch.q);
      if r.Nothing? && c.readFirst {
        fromWrites := !fromWrites;
        r := GetNextTxn(e, ch, if fromWrites then ch.w else ch.q);
      }
      if r.Entry? {
        if fromWrites {
          channels[i] := ch.(w := ch.w[..r.index] + ch.w[r.index + 1..], out := ch.out + [ch.w[r.index]]);
        } else {
          channels[i] := ch.(q := ch.q[..r.index] + ch.q[r.index + 1..], out := ch.out + [ch.q[r.index]]);
        }
      }
      assert channels[i] == T.RunChannel(c, e, ch, old(flush));
    }

    method Run(e: T.Env)
      modifies this`flush, channels
      ensures Model() == T.RunFrom(c, e, old(Model()), 0)
    {
      ghost var s := Model();
      var i := 0;
      while i < channels.Length
        invariant 0 <= i <= channels.Length
        invariant T.RunFrom(c, e, Model(), i) == T.RunFrom(c, e, s, 0)
      {
        RunOne(e, i);
        i := i + 1;
      }
    }

    // As in a run if the transactions come in order; the queues do not ask for it.
    method Push(i: nat, t: T.Req) returns (ok: bool)
      requires i < channels.Length
      modifies this`last, channels
      ensures channels[..] == old(channels[..])[i := T.Push(c, old(channels[i]), t).0]
      ensures ok == T.Push(c, old(channels[i]), t).1
      ensures old(last) <= t.seqNo ==> Model() == T.Step(c, old(Model()), T.Arrive(i, t))
    {
      var ch := channels[i];
      if c.readFirst && t.write {
        ok := |ch.w| < c.entries;
        if ok { channels[i] := ch.(w := ch.w + [t]); }
      } else {
        ok := |ch.q| < c.entries;
        if ok { channels[i] := ch.(q := ch.q + [t]); }
      }
      if ok { last := t.seqNo + 1; }
    }
  }
}
