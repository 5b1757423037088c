// The converter, the command scheduler and the controller's clock as objects, each proved
// to take the step of the pipeline model.
module ControllerObject {
  import opened Common
  import opened DramTypes
  import opened DramPipeline
  import D = DramDriver
  import opened DeviceDriverObject

  class CmdScheduler {
    const u: Setup
    const driver: DeviceDriver
    const channels: nat
    const perChannel: nat      // banks per channel
    var queues: seq<seq<Cmd>>  // per bank
    var next: seq<nat>         // per channel: the queue to visit first

    ghost predicate Valid()
      reads this
    {
      && driver.g == u.g && |queues| == u.g.t.Banks() == Slot(channels, perChannel, 0) && |next| == channels
      && (forall b :: 0 <= b < |queues| ==> |queues[b]| <= u.cap)
      && (forall b, i :: 0 <= b < |queues| && 0 <= i < |queues[b]| ==> queues[b][i].bank < u.g.t.Banks())
      && (perChannel > 0 ==> forall c :: 0 <= c < channels ==> next[c] < perChannel)
    }

    constructor (u: Setup, driver: DeviceDriver, channels: nat, perChannel: nat)
      requires driver.g == u.g && u.g.t.Banks() == Slot(channels, perChannel, 0)
      ensures Valid() && this.u == u && this.driver == driver && this.channels == channels && this.perChannel == perChannel
      ensures queues == seq(u.g.t.Banks(), i => []) && next == seq(channels, i => 0)
    {
      this.u, this.driver, this.channels, this.perChannel := u, driver, channels, perChannel;
      queues := seq(u.g.t.Banks(), i => []);
      next := seq(channels, i => 0);
    }

    method Push(c: Cmd) returns (ok: bool)
      requires Valid() && c.bank < |queues|
      modifies this`queues
      ensures Valid() && ok == (old(|queues[c.bank]|) < u.cap)
      ensures queues == if ok then old(queues)[c.bank := old(queues[c.bank]) + [c]] else old(queues)
    {
      if |queues[c.bank]| < u.cap {
        queues := queues[c.bank := queues[c.bank] + [c]];
        return true;
      }
      return false;
    }

    // Offers the head of one queue to the driver.
    method VisitQueue(b: nat, ghost P: Pipe)
      requires Valid() && driver.Valid() && b < |queues| && P.drv == driver.Model() && P.cmdQ == queues
      modifies this`queues, driver
      ensures Valid() && driver.Valid() && Visit(u, P, b) == P.(drv := driver.Model(), cmdQ := queues)
    {
      hide Topology.Valid, D.CmdAllowed, D.PushCmd, D.QueueOk, D.RefQOk, DeviceDriver.Values, DeviceDriver.Separate;
      if queues[b] == [] { return; }
      var c := queues[b][0];
      var ok := driver.IsCmdAllowed(c);
      if ok {
        ok := driver.PushCmd(c);
        if ok { queues := queues[b := queues[b][1..]]; }
      }
    }

    // One channel: every queue once, round robin; the next clock begins one queue later.
    method VisitChannel(ch: nat, ghost P: Pipe)
      requires Valid() && driver.Valid() && ch < channels && P.drv == driver.Model() && P.cmdQ == queues
      modifies this, driver
      ensures Valid() && driver.Valid()
      ensures VisitAll(u, P, Round(ch, perChannel, old(next[ch]), perChannel)) == P.(drv := driver.Model(), cmdQ := queues)
      ensures next == if perChannel == 0 then old(next) else old(next)[ch := Succ(old(next[ch]), perChannel)]
    {
      hide D.Shaped, Slot, Visit;
      var at: nat := next[ch];
      ghost var Q := P;
      var i: nat := 0;
      while i < perChannel
        invariant 0 <= i <= perChannel && Valid() && driver.Valid() && next == old(next)
        invariant perChannel > 0 ==> at < perChannel
        invariant Q == P.(drv := driver.Model(), cmdQ := queues)
        invariant VisitAll(u, Q, Round(ch, perChannel, at, perChannel - i)) == VisitAll(u, P, Round(ch, perChannel, next[ch], perChannel))
      {
        SlotBound(ch, channels, perChannel, at);
        VisitQueue(Slot(ch, perChannel, at), Q);
        Q := Visit(u, Q, Slot(ch, perChannel, at));
        SuccIsMod(at, perChannel);
        at := (at + 1) % perChannel;
        i := i + 1;
      }
      if perChannel > 0 {
        SuccIsMod(next[ch], perChannel);
        next := next[ch := (next[ch] + 1) % perChannel];
      }
    }

    method Run(ghost P: Pipe)
      requires Valid() && driver.Valid() && P.drv == driver.Model() && P.cmdQ == queues
      modifies this, driver
      ensures Valid() && driver.Valid()
      ensures VisitAll(u, P, Order(channels, perChannel, old(next))) == P.(drv := driver.Model(), cmdQ := queues)
    {
      hide D.Shaped, Slot, Visit, Round;
      ghost var Q := P;
      var ch := 0;
      while ch < channels
        invariant 0 <= ch <= channels && Valid() && driver.Valid()
        invariant forall c :: ch <= c < channels ==> next[c] == old(next)[c]
        invariant Q == P.(drv := driver.Model(), cmdQ := queues)
        invariant VisitAll(u, P, Order(ch, perChannel, old(next)[..ch])) == Q
      {
        VisitAllAppend(u, P, Order(ch, perChannel, old(next)[..ch]), Round(ch, perChannel, next[ch], perChannel));
        assert old(next)[..ch + 1][..ch] == old(next)[..ch];
        VisitChannel(ch, Q);
        Q := Q.(drv := driver.Model(), cmdQ := queues);
        ch := ch + 1;
      }
      assert old(next)[..channels] == old(next);
    }
  }

  class TxnConverter {
    const u: Setup
    const sched: CmdScheduler
    const views: array<View>  // per bank
    var inputQ: seq<Txn>
    var nextSeq: nat
    ghost var emitted: seq<seq<Cmd>>
    var pushFailed: bool

    ghost predicate Valid()
      reads this, sched
    {
      && sched.Valid() && sched.u == u && views.Length == |emitted| == |sched.queues| && nextSeq < TWO32
      && forall i :: 0 <= i < |inputQ| ==> inputQ[i].bank < views.Length
    }

    constructor (u: Setup, sched: CmdScheduler)
      requires sched.Valid() && sched.u == u
      ensures Valid() && fresh(views) && this.u == u && this.sched == sched
      ensures inputQ == [] && nextSeq == 0 && !pushFailed && emitted == seq(u.g.t.Banks(), i => [])
      ensures views[..] == seq(u.g.t.Banks(), i => View(false, 0, if u.policy.PseudoOpen? then u.policy.closeTime else 0))
    {
      this.u, this.sched := u, sched;
      views := new View[u.g.t.Banks()](_ => View(false, 0, if u.policy.PseudoOpen? then u.policy.closeTime else 0));
      inputQ, nextSeq, pushFailed := [], 0, false;
      emitted := seq(u.g.t.Banks(), i => []);
    }

    // A new command of the transaction at the end of the package.
    method Append(pkg: seq<Cmd>, t: Txn, k: Kind, ghost kinds: seq<Kind>, ghost n: nat) returns (r: seq<Cmd>)
      requires pkg == Numbered(t, kinds, n) && nextSeq == (n + |kinds|) % TWO32
      modifies this`nextSeq
      ensures r == Numbered(t, kinds + [k], n) && nextSeq == (n + |kinds + [k]|) % TWO32
    {
      r := pkg + [Cmd(nextSeq, k, t.addr, t.bank, t.row)];
      nextSeq := (nextSeq + 1) % TWO32;
    }

    // Opens the row if need be, which restarts the bank's close timer.
    method GetPreCommands(t: Txn) returns (pkg: seq<Cmd>)
      requires Valid() && t.bank < views.Length
      modifies this`nextSeq, views
      ensures Valid()
      ensures var v := old(views[t.bank]);
              && pkg == Numbered(t, if u.policy.ClosePage? then [ACT] else Opening(v, t), old(nextSeq))
              && nextSeq == (old(nextSeq) + |pkg|) % TWO32
              && views[..] == old(views[..])[t.bank := Touched(u.policy, v, t)]
    {
      var v := views[t.bank];
      ghost var n := nextSeq;
      if u.policy.ClosePage? {
        pkg := Append([], t, ACT, [], n);
      } else if v.rowOpen && v.row == t.row {
        pkg := [];
      } else {
        pkg := [];
        ghost var kinds: seq<Kind> := [];
        if v.rowOpen {
          pkg := Append(pkg, t, PRE, kinds, n);
          kinds := [PRE];
        }
        pkg := Append(pkg, t, ACT, kinds, n);
        assert kinds + [ACT] == Opening(v, t);
        if u.policy.PseudoOpen? { views[t.bank] := v.(timer := u.policy.closeTime); }
      }
    }

    // Accesses the row, and closes it again where the policy says so.
    method GetPostCommands(t: Txn, first: seq<Cmd>, ghost kinds: seq<Kind>, ghost n: nat) returns (pkg: seq<Cmd>)
      requires Valid() && t.bank < views.Length && first == Numbered(t, kinds, n) && nextSeq == (n + |kinds|) % TWO32
      modifies this`nextSeq
      ensures Valid() && pkg == Numbered(t, kinds + Access(u.policy, views[t.bank], t), n)
      ensures nextSeq == (n + |pkg|) % TWO32
    {
      ghost var access := Access(u.policy, views[t.bank], t);
      var col: Kind, close: bool;
      match u.policy {
        case ClosePage(useA) =>
          col := if useA then (if t.write then WRITEA else READA) else (if t.write then WRITE else READ);
          close := !useA;
        case OpenPage =>
          col, close := if t.write then WRITE else READ, false;
        case PseudoOpen(_) =>
          col, close := if t.write then WRITE else READ, views[t.bank].timer == 0;
      }
      assert access == if close then [col, PRE] else [col];
      pkg := Append(first, t, col, kinds, n);
      if close {
        pkg := Append(pkg, t, PRE, kinds + [col], n);
        assert kinds + [col] + [PRE] == kinds + access;
      }
    }

    method GetCommands(t: Txn) returns (pkg: seq<Cmd>)
      requires Valid() && t.bank < views.Length
      modifies this`nextSeq, views
      ensures Valid()
      ensures var v := old(views[t.bank]);
              && pkg == Numbered(t, PackageKinds(u.policy, v, t), old(nextSeq))
              && nextSeq == (old(nextSeq) + |pkg|) % TWO32
              && views[..] == old(views[..])[t.bank := Touched(u.policy, v, t)]
    {
      ghost var kinds := if u.policy.ClosePage? then [ACT] else Opening(views[t.bank], t);
      ghost var n := nextSeq;
      pkg := GetPreCommands(t);
      pkg := GetPostCommands(t, pkg, kinds, n);
    }

    // The bank's record after the transaction.
    method UpdateBankInfo(t: Txn, ghost v: View)
      requires Valid() && t.bank < views.Length && views[t.bank] == Touched(u.policy, v, t)
      modifies views
      ensures Valid() && views[..] == old(views[..])[t.bank := Updated(u.policy, v, t)]
    {
      var w := views[t.bank];
      match u.policy {
        case ClosePage(_) => views[t.bank] := w.(rowOpen := false);
        case OpenPage => views[t.bank] := w.(rowOpen := true, row := t.row);
        case PseudoOpen(_) =>
          views[t.bank] := if w.timer == 0 then w.(rowOpen := false) else w.(rowOpen := true, row := t.row);
      }
    }

    method PushPackage(pkg: seq<Cmd>, b: nat)
      requires Valid() && b < |sched.queues| && forall i :: 0 <= i < |pkg| ==> pkg[i].bank == b
      modifies this`pushFailed, sched`queues
      ensures Valid() && sched.queues == old(sched.queues)[b := PushAll(old(sched.queues)[b], pkg, u.cap)]
      ensures pushFailed == (old(pushFailed) || old(|sched.queues[b]|) + |pkg| > u.cap)
    {
      ghost var q := sched.queues[b];
      var i: nat := 0;
      while i < |pkg|
        invariant 0 <= i <= |pkg| && Valid()
        invariant sched.queues == old(sched.queues)[b := sched.queues[b]]
        invariant PushAll(sched.queues[b], pkg[i..], u.cap) == PushAll(q, pkg, u.cap)
        invariant |sched.queues[b]| == Min(|q| + i, u.cap)
        invariant pushFailed == (old(pushFailed) || |q| + i > u.cap)
      {
        var ok := sched.Push(pkg[i]);
        if !ok { pushFailed := true; }
        i := i + 1;
      }
    }

    // One transaction, as a step of the pipeline model.
    method ConvertTxn(t: Txn, ghost P: Pipe)
      requires Valid() && t.bank < views.Length
      requires P.cmdQ == sched.queues && P.view == views[..] && P.nextSeq == nextSeq && P.emitted == emitted && P.pushFailed == pushFailed
      modifies this`nextSeq, this`pushFailed, this`emitted, views, sched`queues
      ensures Valid()
      ensures ConvertOne(u, P, t) ==
              P.(cmdQ := sched.queues, view := views[..], nextSeq := nextSeq, emitted := emitted, pushFailed := pushFailed)
    {
      var pkg := GetCommands(t);
      PushPackage(pkg, t.bank);
      UpdateBankInfo(t, P.view[t.bank]);
      emitted := emitted[t.bank := emitted[t.bank] + pkg];
    }

    // Converts what has room, and keeps the rest in order.
    method ConvertQueue(ghost P: Pipe)
      requires Valid() && Formed(u, P) && P.waiting == inputQ
      requires P.cmdQ == sched.queues && P.view == views[..] && P.nextSeq == nextSeq && P.emitted == emitted && P.pushFailed == pushFailed
      modifies this, views, sched`queues
      ensures Valid()
      ensures Convert(u, P.(waiting := []), P.waiting) ==
              P.(cmdQ := sched.queues, view := views[..], waiting := inputQ, nextSeq := nextSeq, emitted := emitted, pushFailed := pushFailed)
    {
      hide D.Shaped, ConvertOne;
      ghost var Q := P.(waiting := []);
      var i: nat := 0;
      while i < |inputQ|
        invariant 0 <= i <= |inputQ| && Valid()
        invariant Q == P.(cmdQ := sched.queues, view := views[..], waiting := inputQ[..i], nextSeq := nextSeq,
                          emitted := emitted, pushFailed := pushFailed)
        invariant Convert(u, Q, inputQ[i..]) == Convert(u, P.(waiting := []), P.waiting)
        decreases |inputQ| - i
      {
        var t := inputQ[i];
        if Tokens(u.cap, |sched.queues[t.bank]|) >= 3 {
          ConvertTxn(t, Q);
          Q := ConvertOne(u, Q, t);
          inputQ := inputQ[..i] + inputQ[i + 1..];
        } else {
          Q := Q.(waiting := Q.waiting + [t]);
          i := i + 1;
        }
      }
    }

    // One clock of the converter; afterwards open rows of the pseudo-open policy age.
    method Run(ghost P: Pipe)
      requires Valid() && Formed(u, P) && P.waiting == inputQ
      requires P.cmdQ == sched.queues && P.view == views[..] && P.nextSeq == nextSeq && P.emitted == emitted && P.pushFailed == pushFailed
      modifies this, views, sched`queues
      ensures Valid()
      ensures ConvertPhase(u, P, []) ==
              P.(cmdQ := sched.queues, view := views[..], waiting := inputQ, nextSeq := nextSeq, emitted := emitted, pushFailed := pushFailed)
    {
      hide D.Shaped, Convert, Aged, CmdScheduler.Valid;
      assert P.waiting + [] == inputQ;
      ConvertQueue(P);
      AgeRows();
    }

    method AgeRows()
      requires Valid()
      modifies views
      ensures Valid() && views[..] == seq(views.Length, i requires 0 <= i < views.Length => Aged(u.policy, old(views[i])))
    {
      if !u.policy.PseudoOpen? {
        assert views[..] == seq(views.Length, i requires 0 <= i < views.Length => Aged(u.policy, old(views[i])));
        return;
      }
      var i: nat := 0;
      while i < views.Length
        invariant 0 <= i <= views.Length
        invariant forall j :: 0 <= j < views.Length ==> views[j] == if j < i then Aged(u.policy, old(views[j])) else old(views[j])
      {
        if views[i].rowOpen && views[i].timer > 0 { views[i] := views[i].(timer := views[i].timer - 1); }
        i := i + 1;
      }
    }
  }

  // The controller's clock below the transaction scheduler.
  class Controller {
    const u: Setup
    const driver: DeviceDriver
    const sched: CmdScheduler
    const conv: TxnConverter

    ghost function Model(): Pipe
      reads driver, driver.banks, sched, conv, conv.views
    {
      Pipe(driver.Model(), sched.queues, conv.views[..], conv.inputQ, conv.nextSeq, conv.emitted, conv.pushFailed)
    }

    ghost predicate Valid()
      reads driver, driver.banks, sched, conv
    {
      sched.u == u && sched.driver == driver && conv.sched == sched && driver.Valid() && sched.Valid() && conv.Valid()
    }

    // Wires the parts together; freshly built ones make the initial pipeline.
    constructor (driver: DeviceDriver, sched: CmdScheduler, conv: TxnConverter)
      requires sched.driver == driver && conv.sched == sched && driver.Valid() && sched.Valid() && conv.Valid()
      ensures Valid() && this.u == sched.u && this.driver == driver && this.sched == sched && this.conv == conv
      ensures Model() == Pipe(driver.Model(), sched.queues, conv.views[..], conv.inputQ, conv.nextSeq, conv.emitted, conv.pushFailed)
    {
      this.u, this.driver, this.sched, this.conv := sched.u, driver, sched, conv;
    }

    // Update the device, convert what was scheduled, forward commands, run the driver.
    method ClockTic(scheduled: seq<Txn>)
      requires Valid() && forall i :: 0 <= i < |scheduled| ==> scheduled[i].bank < u.g.t.Banks()
      modifies driver, driver.banks, sched, conv, conv.views
      ensures Valid()
      ensures Formed(u, old(Model())) &&
              Model() == PipeTick(u, old(Model()), Input(scheduled, Order(sched.channels, sched.perChannel, old(sched.next))))
    {
      hide D.Shaped, Convert, VisitAll, D.Update, D.Run, DeviceDriver.Values, DeviceDriver.Separate, Order, Aged;
      ghost var P := Model();
      driver.Update();
      conv.inputQ := conv.inputQ + scheduled;
      ghost var P1 := Model();
      conv.Run(P1);
      assert P1.waiting + [] == P1.waiting;
      ghost var P2 := Model();
      assert P2 == ConvertPhase(u, P.(drv := D.Update(u.g, P.drv)), scheduled);
      sched.Run(P2);
      driver.Run();
    }
  }

  // The global number of a channel's bank.
  function Slot(ch: nat, perChannel: nat, at: nat): nat { ch * perChannel + at }

  function Succ(at: nat, m: nat): nat { if at + 1 == m then 0 else at + 1 }

  // `n` queues of a channel from its `at`-th on, wrapping round.
  function Round(ch: nat, perChannel: nat, at: nat, n: nat): seq<nat>
    decreases n
  {
    if n == 0 then [] else [Slot(ch, perChannel, at)] + Round(ch, perChannel, Succ(at, perChannel), n - 1)
  }

  // All channels in turn.
  function Order(channels: nat, perChannel: nat, next: seq<nat>): seq<nat>
    requires |next| == channels
  {
    if channels == 0 then []
    else Order(channels - 1, perChannel, next[..channels - 1]) + Round(channels - 1, perChannel, next[channels - 1], perChannel)
  }

  lemma {:induction false} RoundVisits(ch: nat, perChannel: nat, at: nat, n: nat, j: nat)
    requires at < perChannel && j < n <= perChannel
    ensures Slot(ch, perChannel, if at + j < perChannel then at + j else at + j - perChannel) in Round(ch, perChannel, at, n)
    decreases n
  {
    hide Slot;
    var rest := Round(ch, perChannel, Succ(at, perChannel), n - 1);
    assert Round(ch, perChannel, at, n) == [Slot(ch, perChannel, at)] + rest;
    if j > 0 { RoundVisits(ch, perChannel, Succ(at, perChannel), n - 1, j - 1); }
  }

  // Round robin leaves nobody out: wherever it starts, every queue is visited each clock.
  lemma {:induction false} EveryQueueIsVisited(channels: nat, perChannel: nat, next: seq<nat>, ch: nat, x: nat)
    requires |next| == channels && (forall c :: 0 <= c < channels ==> next[c] < perChannel) && ch < channels && x < perChannel
    ensures Slot(ch, perChannel, x) in Order(channels, perChannel, next)
    decreases channels
  {
    hide Slot, Round;
    if ch == channels - 1 {
      var at := next[ch];
      RoundVisits(ch, perChannel, at, perChannel, if x >= at then x - at else x + perChannel - at);
    } else {
      EveryQueueIsVisited(channels - 1, perChannel, next[..channels - 1], ch, x);
    }
  }

  lemma SuccIsMod(at: nat, m: nat)
    requires at < m
    ensures (at + 1) % m == Succ(at, m) < m
  {}

  lemma SlotBound(ch: nat, channels: nat, perChannel: nat, at: nat)
    requires ch < channels && at < perChannel
    ensures Slot(ch, perChannel, at) < Slot(channels, perChannel, 0)
  {
    assert (ch + 1) * perChannel <= channels * perChannel;
  }

  lemma {:induction false} VisitAllAppend(u: Setup, P: Pipe, a: seq<nat>, b: seq<nat>)
    requires D.Shaped(u.g, P.drv)
    ensures VisitAll(u, P, a + b) == VisitAll(u, VisitAll(u, P, a), b)
    decreases |a|
  {
    hide Visit;
    if a == [] {
      assert a + b == b;
    } else {
      assert (a + b)[1..] == a[1..] + b;
      VisitAllAppend(u, Visit(u, P, a[0]), a[1..], b);
    }
  }
}
