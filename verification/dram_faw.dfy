// The four-activate window: no rank ever sees more than four ACTs in nFAW consecutive
// cycles, nor two in one cycle, because the shift-register trackers count exactly the
// ACTs of the trace.
module DramFaw {
  import opened Common
  import opened DramTypes
  import opened DramBank
  import opened DramDevice
  import opened DramDriver

  // ACTs accepted on rank r in cycles lo <= cycle < hi.
  function ActsIn(t: Topology, trace: seq<Event>, r: nat, lo: int, hi: int): nat {
    if trace == [] then 0
    else
      var e := trace[|trace| - 1];
      ActsIn(t, trace[..|trace| - 1], r, lo, hi) +
      (if e.cmd.kind.ACT? && t.RankOf(e.cmd.bank) == r && lo <= e.cycle < hi then 1 else 0)
  }

  // ACTs in the n cycles from cycle c on.
  function Window(t: Topology, trace: seq<Event>, r: nat, c: int, n: nat): nat {
    ActsIn(t, trace, r, c, c + n)
  }

  ghost predicate Past(d: Device) {
    forall e :: e in d.trace ==> e.cycle <= d.now
  }

  // Every window of nFAW cycles, anywhere in time, holds at most four ACTs of the rank.
  ghost predicate Windows(g: Config, d: Device, r: nat) {
    forall c: int :: Window(g.t, d.trace, r, c, g.p.nFAW) <= 4
  }

  ghost predicate OnePerCycle(g: Config, d: Device, r: nat) {
    forall c: int :: Window(g.t, d.trace, r, c, 1) <= 1
  }

  // The tracker of a rank holds, oldest first, the ACTs of the last nFAW - 1 cycles.
  ghost predicate Tracks(t: Topology, trace: seq<Event>, r: nat, from: int, q: seq<nat>) {
    forall j :: 0 <= j < |q| ==> q[j] == Window(t, trace, r, from + j, 1)
  }

  // After an ACT on the rank in this cycle, none of its banks accepts another.
  ghost predicate ActBlocked(g: Config, d: Device, r: nat) {
    forall b :: 0 <= b < |d.banks| && g.t.RankOf(b) == r ==> !Allowed(d.banks[b], ACT, d.now)
  }

  ghost predicate RankFaw(g: Config, d: Device, r: nat, q: seq<nat>, issued: bool) {
    && Windows(g, d, r) && OnePerCycle(g, d, r) && Tracks(g.t, d.trace, r, d.now - |q|, q)
    && (issued <==> Window(g.t, d.trace, r, d.now, 1) == 1)
    && (issued ==> ActBlocked(g, d, r))
  }

  ghost predicate FawOk(g: Config, d: Device, faw: seq<seq<nat>>, issued: seq<bool>) {
    && Past(d) && |faw| == |issued| == g.t.Ranks()
    && forall r :: 0 <= r < g.t.Ranks() ==> |faw[r]| + 1 == g.p.nFAW && RankFaw(g, d, r, faw[r], issued[r])
  }

  // ---------------------------------------------------------------- counting

  lemma {:induction false} NoneLater(t: Topology, trace: seq<Event>, r: nat, lo: int, hi: int)
    requires forall e :: e in trace ==> e.cycle < lo
    ensures ActsIn(t, trace, r, lo, hi) == 0
  {
    if trace != [] { NoneLater(t, trace[..|trace| - 1], r, lo, hi); }
  }

  // Splitting an interval splits the count.
  lemma {:induction false} ActsSplit(t: Topology, trace: seq<Event>, r: nat, lo: int, mid: int, hi: int)
    requires lo <= mid <= hi
    ensures ActsIn(t, trace, r, lo, hi) == ActsIn(t, trace, r, lo, mid) + ActsIn(t, trace, r, mid, hi)
  {
    if trace != [] { ActsSplit(t, trace[..|trace| - 1], r, lo, mid, hi); }
  }

  lemma WindowAppend(t: Topology, trace: seq<Event>, e: Event, r: nat, c: int, n: nat)
    ensures Window(t, trace + [e], r, c, n) == Window(t, trace, r, c, n) +
              (if e.cmd.kind.ACT? && t.RankOf(e.cmd.bank) == r && c <= e.cycle < c + n then 1 else 0)
  {
    assert (trace + [e])[..|trace + [e]| - 1] == trace;
  }

  // The sum of a tracker is the count of ACTs over the cycles it covers.
  lemma {:induction false} TrackerSum(t: Topology, trace: seq<Event>, r: nat, q: seq<nat>, from: int)
    requires Tracks(t, trace, r, from, q)
    ensures Sum(q) == Window(t, trace, r, from, |q|)
  {
    if q == [] {
      Empty(t, trace, r, from);
    } else {
      forall j | 0 <= j < |q[1..]| ensures q[1..][j] == Window(t, trace, r, from + 1 + j, 1) {
        assert q[1 + j] == Window(t, trace, r, from + (1 + j), 1);
      }
      TrackerSum(t, trace, r, q[1..], from + 1);
      ActsSplit(t, trace, r, from, from + 1, from + |q|);
      assert q[0] == Window(t, trace, r, from + 0, 1);
    }
  }

  lemma {:induction false} Empty(t: Topology, trace: seq<Event>, r: nat, c: int)
    ensures ActsIn(t, trace, r, c, c) == 0
  {
    if trace != [] { Empty(t, trace[..|trace| - 1], r, c); }
  }

  // ---------------------------------------------------------------- preservation

  lemma FawInitial(g: Config)
    requires g.t.Valid() && g.p.nFAW > 0
    ensures var s := InitialDriver(g); FawOk(g, s.dev, s.faw, s.actIssued)
  {}

  // A clock shifts a tracker by one cycle.
  lemma FawShift(g: Config, d: Device, d': Device, r: nat, q: seq<nat>, issued: bool)
    requires Past(d) && RankFaw(g, d, r, q, issued) && d'.trace == d.trace && d'.now == d.now + 1
    ensures RankFaw(g, d', r, ShiftFaw(q, issued), false)
  {
    NoneLater(g.t, d.trace, r, d'.now, d'.now + 1);
    var q' := ShiftFaw(q, issued);
    forall j | 0 <= j < |q'| ensures q'[j] == Window(g.t, d'.trace, r, d'.now - |q'| + j, 1) {
      if j < |q| - 1 {
        assert q[j + 1] == Window(g.t, d.trace, r, d.now - |q| + (j + 1), 1);
      } else {
        assert Window(g.t, d.trace, r, d.now, 1) <= 1;
      }
    }
  }

  lemma FawUpdate(g: Config, s: Driver)
    requires Shaped(g, s) && FawOk(g, s.dev, s.faw, s.actIssued)
    ensures var s' := Update(g, s); FawOk(g, s'.dev, s'.faw, s'.actIssued)
  {
    hide RankFaw, ShiftFaw, Tick, Topology.Valid, QueueOk, RefQOk;
    var s' := Update(g, s);
    forall r | 0 <= r < g.t.Ranks() ensures RankFaw(g, s'.dev, r, s'.faw[r], s'.actIssued[r]) {
      FawShift(g, s.dev, s'.dev, r, s.faw[r], s.actIssued[r]);
    }
  }

  // A command never makes a bank accept an ACT in the same cycle.
  lemma SendKeepsActBlocked(g: Config, d: Device, c: Cmd, r: nat)
    requires |d.banks| == g.t.Banks() && CanSend(d, c) && ActBlocked(g, d, r)
    ensures ActBlocked(g, DevSend(g.p, g.t, d, c), r)
  {
    hide Push;
    var d' := DevSend(g.p, g.t, d, c);
    forall b | 0 <= b < |d'.banks| && g.t.RankOf(b) == r ensures !Allowed(d'.banks[b], ACT, d'.now) {
      PushActLater(g.p, g.t.Relate(c.bank, b), d.banks[b], c.kind, d.now);
    }
  }

  lemma PushActLater(p: Params, rel: Rel, b: Bank, k: Kind, t: nat)
    ensures var b' := Push(p, rel, b, k, t);
            && b'.st == b.st && b.next.act <= b'.next.act
            && (k.ACT? && rel.SameGroup? ==> t + p.nRRD_L <= b'.next.act)
            && (k.ACT? && rel.SameRank? ==> t + p.nRRD_S <= b'.next.act)
  {}

  // A rank that gets no ACT keeps what is tracked of it.
  lemma FawSendElse(g: Config, d: Device, c: Cmd, r: nat, q: seq<nat>, issued: bool)
    requires |d.banks| == g.t.Banks() && CanSend(d, c) && Past(d) && RankFaw(g, d, r, q, issued)
    requires !(c.kind.ACT? && g.t.RankOf(c.bank) == r)
    ensures RankFaw(g, DevSend(g.p, g.t, d, c), r, q, issued)
  {
    hide Push, Handle, Allowed;
    var d' := DevSend(g.p, g.t, d, c);
    forall lo: int, n: nat ensures Window(g.t, d'.trace, r, lo, n) == Window(g.t, d.trace, r, lo, n) {
      WindowAppend(g.t, d.trace, d'.trace[|d.trace|], r, lo, n);
    }
    if issued { SendKeepsActBlocked(g, d, c, r); }
  }

  lemma FawSendOther(g: Config, d: Device, c: Cmd, faw: seq<seq<nat>>, issued: seq<bool>)
    requires |d.banks| == g.t.Banks() && CanSend(d, c) && !c.kind.ACT? && FawOk(g, d, faw, issued)
    ensures FawOk(g, DevSend(g.p, g.t, d, c), faw, issued)
  {
    hide Push, Handle, Allowed, RankFaw;
    var d' := DevSend(g.p, g.t, d, c);
    forall r | 0 <= r < g.t.Ranks() ensures RankFaw(g, d', r, faw[r], issued[r]) {
      FawSendElse(g, d, c, r, faw[r], issued[r]);
    }
  }

  // An ACT below the limit keeps every window within four, and bars a second one.
  lemma FawSendAct(g: Config, d: Device, c: Cmd, faw: seq<seq<nat>>, issued: seq<bool>)
    requires g.t.Valid() && |d.banks| == g.t.Banks() && CanSend(d, c) && c.kind.ACT? && FawOk(g, d, faw, issued)
    requires g.p.nRRD_L >= 1 && g.p.nRRD_S >= 1
    requires g.t.RankOf(c.bank) < g.t.Ranks() && Sum(faw[g.t.RankOf(c.bank)]) < 4
    ensures !issued[g.t.RankOf(c.bank)]
    ensures FawOk(g, DevSend(g.p, g.t, d, c), faw, issued[g.t.RankOf(c.bank) := true])
  {
    hide Push, Handle, Allowed, Topology.Valid;
    var x := g.t.RankOf(c.bank);
    assert !issued[x] by {
      assert RankFaw(g, d, x, faw[x], issued[x]);
      assert Allowed(d.banks[c.bank], c.kind, d.now);
    }
    var d' := DevSend(g.p, g.t, d, c);
    forall r | 0 <= r < g.t.Ranks() ensures RankFaw(g, d', r, faw[r], issued[x := true][r]) {
      assert RankFaw(g, d, r, faw[r], issued[r]);
      if r == x { FawSendHere(g, d, c, faw[x]); } else { FawSendElse(g, d, c, r, faw[r], issued[r]); }
    }
  }

  lemma FawSendHere(g: Config, d: Device, c: Cmd, q: seq<nat>)
    requires |d.banks| == g.t.Banks() && CanSend(d, c) && c.kind.ACT? && Past(d)
    requires RankFaw(g, d, g.t.RankOf(c.bank), q, false) && |q| + 1 == g.p.nFAW && Sum(q) < 4
    requires g.p.nRRD_L >= 1 && g.p.nRRD_S >= 1
    ensures RankFaw(g, DevSend(g.p, g.t, d, c), g.t.RankOf(c.bank), q, true)
  {
    hide Push, Handle, Allowed;
    var r := g.t.RankOf(c.bank);
    var d' := DevSend(g.p, g.t, d, c);
    forall lo: int, n: nat
      ensures Window(g.t, d'.trace, r, lo, n) ==
              Window(g.t, d.trace, r, lo, n) + (if lo <= d.now < lo + n then 1 else 0)
    {
      WindowAppend(g.t, d.trace, d'.trace[|d.trace|], r, lo, n);
    }
    ActWindows(g, d, r, q);
    ActBars(g, d, c);
  }

  // With fewer than four ACTs in the tracker, every window reaching the present has room.
  lemma ActWindows(g: Config, d: Device, r: nat, q: seq<nat>)
    requires Past(d) && RankFaw(g, d, r, q, false) && |q| + 1 == g.p.nFAW && Sum(q) < 4
    ensures forall c: int :: c <= d.now < c + g.p.nFAW ==> Window(g.t, d.trace, r, c, g.p.nFAW) <= 3
    ensures Window(g.t, d.trace, r, d.now, 1) == 0
  {
    TrackerSum(g.t, d.trace, r, q, d.now - |q|);
    assert Window(g.t, d.trace, r, d.now, 1) <= 1;
    forall c: int | c <= d.now < c + g.p.nFAW ensures Window(g.t, d.trace, r, c, g.p.nFAW) <= 3 {
      NoneLater(g.t, d.trace, r, d.now + 1, c + g.p.nFAW);
      ActsSplit(g.t, d.trace, r, c, d.now + 1, c + g.p.nFAW);
      ActsSplit(g.t, d.trace, r, d.now - |q|, c, d.now + 1);
      ActsSplit(g.t, d.trace, r, d.now - |q|, d.now, d.now + 1);
    }
  }

  lemma ActBars(g: Config, d: Device, c: Cmd)
    requires |d.banks| == g.t.Banks() && CanSend(d, c) && c.kind.ACT? && g.p.nRRD_L >= 1 && g.p.nRRD_S >= 1
    ensures ActBlocked(g, DevSend(g.p, g.t, d, c), g.t.RankOf(c.bank))
  {
    hide Push;
    var d' := DevSend(g.p, g.t, d, c);
    forall b | 0 <= b < |d'.banks| && g.t.RankOf(b) == g.t.RankOf(c.bank) ensures !Allowed(d'.banks[b], ACT, d'.now) {
      PushActLater(g.p, g.t.Relate(c.bank, b), d.banks[b], c.kind, d.now);
    }
  }
}
