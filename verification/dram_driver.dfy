// The device driver: input queue, command buses, four-activate trackers and refresh,
// as a step function over one value per clock phase.
module DramDriver {
  import opened Common
  import opened DramTypes
  import opened DramBank
  import opened DramDevice

  // An all-bank precharge or refresh command waiting in a rank's refresh queue.
  datatype RefCmd = RefCmd(kind: Kind, banks: seq<nat>)

  // The last column command sent to the device.
  datatype DataCmd = DataCmd(cycle: nat, kind: Kind, chan: nat)

  datatype Config = Config(
    p: Params, t: Topology, dualBus: bool, multiAct: bool, useRefresh: bool, singleBank: bool)

  datatype Driver = Driver(
    dev: Device,
    inputQ: seq<Cmd>,
    blocked: seq<bool>,      // banks already served in this clock
    inflight: set<nat>,      // addresses of writes seen in this clock
    rowBus: seq<nat>,        // remaining occupancy per command bus
    colBus: seq<nat>,
    faw: seq<seq<nat>>,      // per rank: ACTs in each of the last nFAW - 1 clocks
    actIssued: seq<bool>,    // per rank: an ACT was sent in this clock
    refi: seq<nat>,          // per rank: clocks until the next refresh
    refQ: seq<seq<RefCmd>>,  // per rank: refresh commands not sent yet
    nextRef: seq<nat>,       // per rank: next bank of single-bank refresh
    data: DataCmd,
    dataClash: bool,         // the assertion on the data bus has failed
    actClash: bool)          // the assertion on one ACT per rank and clock has failed

  const QUEUE_LIMIT: nat := 32

  predicate Distinct(q: seq<nat>) {
    forall i, j :: 0 <= i < j < |q| ==> q[i] != q[j]
  }

  ghost predicate QueueOk(t: Topology, q: seq<Cmd>) {
    forall i :: 0 <= i < |q| ==> q[i].bank < t.Banks()
  }

  // A queued refresh command names distinct banks of its rank.
  ghost predicate RefOk(t: Topology, r: nat, rc: RefCmd) {
    && (rc.kind.PRE? || rc.kind.REF?) && |rc.banks| > 0 && Distinct(rc.banks)
    && forall j :: 0 <= j < |rc.banks| ==> rc.banks[j] < t.Banks() && t.RankOf(rc.banks[j]) == r
  }

  ghost predicate RefQOk(t: Topology, r: nat, q: seq<RefCmd>) {
    forall i :: 0 <= i < |q| ==> RefOk(t, r, q[i])
  }

  // Everything is indexed as the topology says.
  ghost predicate Shaped(g: Config, s: Driver) {
    && g.t.Valid()
    && Fits(g.t, s.dev)
    && |s.blocked| == g.t.Banks()
    && |s.rowBus| == |s.colBus| == g.t.buses
    && |s.faw| == |s.actIssued| == |s.refi| == |s.refQ| == |s.nextRef| == g.t.Ranks()
    && QueueOk(g.t, s.inputQ)
    && (forall r :: 0 <= r < g.t.Ranks() ==> |s.faw[r]| + 1 == g.p.nFAW)
    && (forall r :: 0 <= r < g.t.Ranks() ==> s.nextRef[r] < |g.t.rankBanks[r]|)
    && (forall r :: 0 <= r < g.t.Ranks() ==> RefQOk(g.t, r, s.refQ[r]))
  }

  // Refreshes of the ranks are staggered.
  function FirstRefi(p: Params, r: nat): nat { p.nREFI / (r + 1) }

  function InitialDriver(g: Config): (s: Driver)
    requires g.t.Valid() && g.p.nFAW > 0
  {
    Driver(InitialDevice(g.t), [], seq(g.t.Banks(), i => false), {},
           seq(g.t.buses, i => 0), seq(g.t.buses, i => 0),
           seq(g.t.Ranks(), r => seq(g.p.nFAW - 1, i => 0)), seq(g.t.Ranks(), r => false),
           seq(g.t.Ranks(), (r: nat) => FirstRefi(g.p, r)), seq(g.t.Ranks(), r => []),
           seq(g.t.Ranks(), r => 0), DataCmd(0, READ, 0), false, false)
  }

  lemma InitialShaped(g: Config)
    requires g.t.Valid() && g.p.nFAW > 0
    ensures Shaped(g, InitialDriver(g))
  {
    hide INITIAL;
    var s := InitialDriver(g);
    assert Fits(g.t, s.dev);
    assert forall r :: 0 <= r < g.t.Ranks() ==> s.refQ[r] == [] && RefQOk(g.t, r, s.refQ[r]);
  }

  // ---------------------------------------------------------------- command buses

  function ReleaseBus(bus: seq<nat>): (r: seq<nat>)
    ensures |r| == |bus|
  {
    seq(|bus|, i requires 0 <= i < |bus| => if bus[i] > 0 then bus[i] - 1 else 0)
  }

  predicate BusFree(s: Driver, bus: nat, k: Kind) {
    if k.IsCol() then bus < |s.colBus| && s.colBus[bus] == 0
    else bus < |s.rowBus| && s.rowBus[bus] == 0
  }

  function Occupy(g: Config, s: Driver, bus: nat, k: Kind): Driver
    requires bus < |s.rowBus| == |s.colBus|
  {
    var n := if k.ACT? && g.multiAct then 2 else 1;
    if !g.dualBus then s.(colBus := s.colBus[bus := 1], rowBus := s.rowBus[bus := 1])
    else if k.IsCol() then s.(colBus := s.colBus[bus := n])
    else s.(rowBus := s.rowBus[bus := n])
  }

  predicate AllBusy(s: Driver) {
    (forall i :: 0 <= i < |s.colBus| ==> s.colBus[i] > 0) && (forall i :: 0 <= i < |s.rowBus| ==> s.rowBus[i] > 0)
  }

  // ---------------------------------------------------------------- start of a clock

  function ShiftFaw(q: seq<nat>, issued: bool): (r: seq<nat>)
    ensures |r| == |q|
  {
    (q + [if issued then 1 else 0])[1..]
  }

  function Update(g: Config, s: Driver): (s': Driver)
    requires Shaped(g, s)
    ensures Shaped(g, s')
  {
    s.(dev := DevTick(g.p, s.dev),
       faw := seq(|s.faw|, r requires 0 <= r < |s.faw| && |s.actIssued| == |s.faw| => ShiftFaw(s.faw[r], s.actIssued[r])),
       inflight := {},
       blocked := seq(|s.blocked|, i => false),
       rowBus := ReleaseBus(s.rowBus), colBus := ReleaseBus(s.colBus),
       actIssued := seq(|s.actIssued|, r => false))
  }

  // ---------------------------------------------------------------- the command scheduler's interface

  function FirstOnBank(q: seq<Cmd>, b: nat): Option<Cmd> {
    if q == [] then None else if q[0].bank == b then Some(q[0]) else FirstOnBank(q[1..], b)
  }

  predicate HasAct(q: seq<Cmd>, b: nat) {
    exists i :: 0 <= i < |q| && q[i].bank == b && q[i].kind.ACT?
  }

  predicate Precharged(b: Bank) { b.st.Precharging? || b.st.Idle? }

  predicate IsRefreshing(g: Config, s: Driver, b: nat) {
    g.useRefresh && g.t.RankOf(b) < |s.refQ| && s.refQ[g.t.RankOf(b)] != []
  }

  function Reactivation(c: Cmd): Cmd { Cmd(0, ACT, c.addr, c.bank, c.row) }

  // May the command be pushed now? A column command for a closed bank instead
  // queues an ACT for its row, unless one is queued already.
  function CmdAllowed(g: Config, s: Driver, c: Cmd): (r: (Driver, bool))
    requires Shaped(g, s) && c.bank < g.t.Banks()
    ensures Shaped(g, r.0)
  {
    if IsRefreshing(g, s, c.bank) then (s, false)
    else if c.kind.IsCol() && Precharged(s.dev.banks[c.bank]) then
      (if HasAct(s.inputQ, c.bank) then s else s.(inputQ := s.inputQ + [Reactivation(c)]), false)
    else (s, BusFree(s, g.t.BusOf(c.bank), c.kind) && CanSend(s.dev, c))
  }

  function PushCmd(g: Config, s: Driver, c: Cmd): (r: (Driver, bool))
    requires Shaped(g, s) && c.bank < g.t.Banks()
    ensures Shaped(g, r.0)
  {
    if |s.inputQ| < QUEUE_LIMIT
    then (Occupy(g, s.(inputQ := s.inputQ + [c]), g.t.BusOf(c.bank), c.kind), true)
    else (s, false)
  }

  // ---------------------------------------------------------------- refresh

  // The banks of a refresh that are not precharged.
  function OpenBanks(banks: seq<Bank>, ids: seq<nat>): (r: seq<nat>)
    requires forall i :: 0 <= i < |ids| ==> ids[i] < |banks|
    ensures forall i :: 0 <= i < |r| ==> r[i] in ids && r[i] < |banks| && !Precharged(banks[r[i]])
    ensures Distinct(ids) ==> Distinct(r)
  {
    if ids == [] then []
    else
      var rest := OpenBanks(banks, ids[1..]);
      if Precharged(banks[ids[0]]) then rest else [ids[0]] + rest
  }

  // A queued column command whose bank the refresh closes gets an ACT in front.
  function ReinsertOne(q: seq<Cmd>, b: nat): seq<Cmd> {
    var first := FirstOnBank(q, b);
    if first.Some? && first.value.kind.IsCol() then [Reactivation(first.value)] + q else q
  }

  function Reinsert(q: seq<Cmd>, ids: seq<nat>): seq<Cmd>
    decreases |ids|
  {
    if ids == [] then q else Reinsert(ReinsertOne(q, ids[0]), ids[1..])
  }

  function Requesters(g: Config, s: Driver, r: nat): (ids: seq<nat>)
    requires Shaped(g, s) && r < g.t.Ranks()
    ensures RefOk(g.t, r, RefCmd(REF, ids))
  {
    if g.singleBank then [g.t.rankBanks[r][s.nextRef[r]]] else g.t.rankBanks[r]
  }

  lemma FirstOnBankIsQueued(q: seq<Cmd>, b: nat)
    ensures FirstOnBank(q, b).Some? ==> FirstOnBank(q, b).value in q && FirstOnBank(q, b).value.bank == b
  {}

  lemma ReinsertKeepsQueueOk(t: Topology, q: seq<Cmd>, ids: seq<nat>)
    requires QueueOk(t, q)
    ensures QueueOk(t, Reinsert(q, ids))
    decreases |ids|
  {
    if ids != [] {
      FirstOnBankIsQueued(q, ids[0]);
      ReinsertKeepsQueueOk(t, ReinsertOne(q, ids[0]), ids[1..]);
    }
  }

  // The next bank on the rank's round.
  function NextBank(t: Topology, r: nat, k: nat): (k': nat)
    requires r < |t.rankBanks| && |t.rankBanks[r]| > 0
    ensures k' < |t.rankBanks[r]|
  {
    (k + 1) % |t.rankBanks[r]|
  }

  function CreateRefresh(g: Config, s: Driver, r: nat): (s': Driver)
    requires Shaped(g, s) && r < g.t.Ranks()
    ensures Shaped(g, s')
  {
    var ids := Requesters(g, s, r);
    var open := OpenBanks(s.dev.banks, ids);
    ReinsertKeepsQueueOk(g.t, s.inputQ, ids);
    s.(nextRef := if g.singleBank then s.nextRef[r := NextBank(g.t, r, s.nextRef[r])] else s.nextRef,
       refQ := s.refQ[r := (if open == [] then [] else [RefCmd(PRE, open)]) + [RefCmd(REF, ids)]],
       inputQ := Reinsert(s.inputQ, ids))
  }

  // Sends the command to each listed bank that accepts it.
  function SendEach(g: Config, d: Device, k: Kind, ids: seq<nat>): (r: Device)
    requires Fits(g.t, d)
    ensures Fits(g.t, r)
    decreases |ids|
  {
    if ids == [] then d
    else
      var c := Cmd(0, k, 0, ids[0], 0);
      SendEach(g, if CanSend(d, c) then DevSend(g.p, g.t, d, c) else d, k, ids[1..])
  }

  predicate AllCanSend(d: Device, k: Kind, ids: seq<nat>) {
    forall i :: 0 <= i < |ids| ==> CanSend(d, Cmd(0, k, 0, ids[i], 0))
  }

  // All banks must be ready, and the bus free, before any bank gets the command.
  function SendRefresh(g: Config, s: Driver, r: nat): (s': Driver)
    requires Shaped(g, s) && r < g.t.Ranks() && s.refQ[r] != []
    ensures Shaped(g, s')
  {
    var rc := s.refQ[r][0];
    if AllCanSend(s.dev, rc.kind, rc.banks) && BusFree(s, g.t.RefBus(r), rc.kind)
    then Occupy(g, s.(dev := SendEach(g, s.dev, rc.kind, rc.banks), refQ := s.refQ[r := s.refQ[r][1..]]),
                g.t.RefBus(r), rc.kind)
    else s
  }

  // One rank's share of the refresh phase.
  function RefreshRank(g: Config, s: Driver, r: nat): (s': Driver)
    requires Shaped(g, s) && r < g.t.Ranks()
    ensures Shaped(g, s')
  {
    var s1 := if s.refi[r] > 0 then s.(refi := s.refi[r := s.refi[r] - 1])
              else CreateRefresh(g, s, r).(refi := s.refi[r := g.p.nREFI]);
    if s1.refQ[r] == [] then s1 else SendRefresh(g, s1, r)
  }

  function RefreshFrom(g: Config, s: Driver, r: nat): (s': Driver)
    requires Shaped(g, s) && r <= g.t.Ranks()
    ensures Shaped(g, s')
    decreases g.t.Ranks() - r
  {
    if r == g.t.Ranks() then s else RefreshFrom(g, RefreshRank(g, s, r), r + 1)
  }

  // ---------------------------------------------------------------- requests

  function Sum(q: seq<nat>): nat {
    if q == [] then 0 else q[0] + Sum(q[1..])
  }

  // ACTs per rank within the window, counted once before the requests of a clock.
  function ActCounts(s: Driver): (c: seq<nat>)
    ensures |c| == |s.faw|
  {
    seq(|s.faw|, r requires 0 <= r < |s.faw| => Sum(s.faw[r]))
  }

  function Without<T>(q: seq<T>, i: nat): seq<T>
    requires i < |q|
  {
    q[..i] + q[i + 1..]
  }

  // Where the scan of the input queue stands after one command.
  datatype Scan = Scan(s: Driver, i: nat, stop: bool)

  predicate DataBusOk(g: Config, s: Driver, c: Cmd) {
    || s.data.kind != c.kind || s.data.chan != g.t.ChanOf(c.bank)
    || s.dev.now - s.data.cycle >= Min(g.p.nBL, Max(g.p.nCCD_L, g.p.nCCD_S))
  }

  // The device accepts queue entry i.
  function Issue(g: Config, s: Driver, i: nat): (s': Driver)
    requires Shaped(g, s) && i < |s.inputQ| && CanSend(s.dev, s.inputQ[i])
    ensures Shaped(g, s') && s'.inputQ == Without(s.inputQ, i)
  {
    var c := s.inputQ[i];
    var r := g.t.RankOf(c.bank);
    var s1 := s.(dev := DevSend(g.p, g.t, s.dev, c), inputQ := Without(s.inputQ, i),
                 dataClash := s.dataClash || (c.kind.IsCol() && !DataBusOk(g, s, c)),
                 actClash := s.actClash || (c.kind.ACT? && s.actIssued[r]),
                 data := if c.kind.IsCol() then DataCmd(s.dev.now, c.kind, g.t.ChanOf(c.bank)) else s.data,
                 actIssued := if c.kind.ACT? then s.actIssued[r := true] else s.actIssued);
    Occupy(g, s1, g.t.BusOf(c.bank), c.kind)
  }

  // What the scan does with a command: pass over it because its rank is refreshing, end
  // the scan at a REF, leave it queued, drop a superfluous precharge, or send it.
  datatype Verdict = Pass | Halt | Hold | Drop | Send

  // `counts` are the ACT counts taken before the scan.
  function Judge(g: Config, s: Driver, c: Cmd, counts: seq<nat>): (v: Verdict)
    requires Shaped(g, s) && c.bank < g.t.Banks() && |counts| == g.t.Ranks()
  {
    BankPlace(g.t, c.bank);
    if IsRefreshing(g, s, c.bank) then Pass
    else if c.kind.REF? then Halt
    else if s.blocked[c.bank] || (c.kind.ACT? && counts[g.t.RankOf(c.bank)] >= 4) || c.addr % TWO32 in s.inflight then Hold
    else if !BusFree(s, g.t.BusOf(c.bank), c.kind) then Hold
    else if c.kind.PRE? && Precharged(s.dev.banks[c.bank]) then Drop
    else if CanSend(s.dev, c) then Send
    else Hold
  }

  // The command's bank is served for this clock, and a write's address noted.
  function Mark(s: Driver, c: Cmd): Driver
    requires c.bank < |s.blocked|
  {
    s.(blocked := s.blocked[c.bank := true],
       inflight := if c.kind.WRITE? || c.kind.WRITEA? then s.inflight + {c.addr % TWO32} else s.inflight)
  }

  function ScanOne(g: Config, s: Driver, i: nat, counts: seq<nat>): (r: Scan)
    requires Shaped(g, s) && i < |s.inputQ| && |counts| == g.t.Ranks()
    ensures Shaped(g, r.s) && r.i <= |r.s.inputQ|
    ensures r.stop || |r.s.inputQ| - r.i < |s.inputQ| - i
  {
    var c := s.inputQ[i];
    match Judge(g, s, c, counts)
    case Pass => Scan(s, i + 1, false)
    case Halt => Scan(Mark(s, c), i, true)
    case Hold => Scan(Mark(s, c), i + 1, false)
    case Drop => Scan(Mark(s, c).(inputQ := Without(s.inputQ, i)), i, false)
    case Send =>
      var s' := Issue(g, Mark(s, c), i);
      Scan(s', i, AllBusy(s'))
  }

  function ScanFrom(g: Config, s: Driver, i: nat, counts: seq<nat>): (s': Driver)
    requires Shaped(g, s) && i <= |s.inputQ| && |counts| == g.t.Ranks()
    ensures Shaped(g, s')
    decreases |s.inputQ| - i
  {
    if i == |s.inputQ| then s
    else
      var r := ScanOne(g, s, i, counts);
      if r.stop then r.s else ScanFrom(g, r.s, r.i, counts)
  }

  function Run(g: Config, s: Driver): (s': Driver)
    requires Shaped(g, s)
    ensures Shaped(g, s')
  {
    var s1 := s.(rowBus := ReleaseBus(s.rowBus), colBus := ReleaseBus(s.colBus));
    var s2 := if g.useRefresh then RefreshFrom(g, s1, 0) else s1;
    ScanFrom(g, s2, 0, ActCounts(s2))
  }
}
