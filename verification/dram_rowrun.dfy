// Row correctness of the device driver: every driver operation keeps, for every bank, the
// relation between the open row, the queued commands and the converter's view of the row.
module DramRowRun {
  import opened Common
  import opened DramTypes
  import opened DramBank
  import opened DramDevice
  import opened DramDriver
  import opened DramRows

  // What the stages before the driver hold for a bank: the scheduler's queue, and the
  // row the converter believes open.
  datatype Tail = Tail(cmds: seq<Cmd>, conv: Option<nat>)

  // Every column command of the trace found its own row open.
  ghost predicate RowsRight(trace: seq<Event>) {
    forall e :: e in trace && e.cmd.kind.IsCol() ==> e.rowOpen && e.openRow == e.cmd.row
  }

  function OnBank(q: seq<Cmd>, b: nat): seq<Cmd> {
    if q == [] then [] else (if q[0].bank == b then [q[0]] else []) + OnBank(q[1..], b)
  }

  // A refresh precharge of the bank is pending.
  ghost predicate Doomed(refQ: seq<RefCmd>, b: nat) {
    exists i :: 0 <= i < |refQ| && refQ[i].kind.PRE? && b in refQ[i].banks
  }

  ghost predicate BankRowOk(bank: Bank, inQ: seq<Cmd>, tail: Tail) {
    BankOk(bank) && RowOk(RowOf(bank), inQ, tail.cmds, tail.conv)
  }

  ghost predicate RowsOk(g: Config, s: Driver, tails: seq<Tail>) {
    && Shaped(g, s) && |tails| == g.t.Banks()
    && (forall b :: 0 <= b < g.t.Banks() ==> BankRowOk(s.dev.banks[b], OnBank(s.inputQ, b), tails[b]))
    && (forall b :: 0 <= b < g.t.Banks() && g.t.RankOf(b) < g.t.Ranks() && Doomed(s.refQ[g.t.RankOf(b)], b) ==>
          Doomable(OnBank(s.inputQ, b)))
    && (g.useRefresh || forall r :: 0 <= r < g.t.Ranks() ==> s.refQ[r] == [])
    && RowsRight(s.dev.trace)
  }

  // No bank has just accepted an ACT.
  ghost predicate Settled(d: Device) {
    forall b :: 0 <= b < |d.banks| ==> !ActPending(d.banks[b])
  }

  // ---------------------------------------------------------------- queues by bank

  lemma {:induction false} OnBankAppend(q: seq<Cmd>, r: seq<Cmd>, b: nat)
    ensures OnBank(q + r, b) == OnBank(q, b) + OnBank(r, b)
  {
    if q == [] {
      assert q + r == r;
    } else {
      assert (q + r)[1..] == q[1..] + r;
      OnBankAppend(q[1..], r, b);
      var first := if q[0].bank == b then [q[0]] else [];
      assert OnBank(q + r, b) == first + (OnBank(q[1..], b) + OnBank(r, b));
    }
  }

  lemma OnBankOne(c: Cmd, b: nat)
    ensures OnBank([c], b) == if c.bank == b then [c] else []
  {}

  lemma {:induction false} OnBankNone(q: seq<Cmd>, b: nat)
    requires forall j :: 0 <= j < |q| ==> q[j].bank != b
    ensures OnBank(q, b) == []
  {
    if q != [] { OnBankNone(q[1..], b); }
  }

  // The i-th command is the first of its bank: without it, its bank's queue starts one
  // later, and no other bank's queue changes.
  lemma OnBankWithout(q: seq<Cmd>, i: nat, b: nat)
    requires i < |q| && forall j :: 0 <= j < i ==> q[j].bank != q[i].bank
    ensures OnBank(q, q[i].bank) == [q[i]] + OnBank(Without(q, i), q[i].bank)
    ensures b != q[i].bank ==> OnBank(q, b) == OnBank(Without(q, i), b)
  {
    hide OnBank, Without;
    OnBankNone(q[..i], q[i].bank);
    OnBankSplit(q, i, q[i].bank);
    OnBankSplit(q, i, b);
  }

  lemma OnBankSplit(q: seq<Cmd>, i: nat, b: nat)
    requires i < |q|
    ensures OnBank(q, b) == OnBank(q[..i], b) + (if q[i].bank == b then [q[i]] else []) + OnBank(q[i + 1..], b)
    ensures OnBank(Without(q, i), b) == OnBank(q[..i], b) + OnBank(q[i + 1..], b)
  {
    hide OnBank;
    assert q == q[..i] + [q[i]] + q[i + 1..];
    OnBankAppend(q[..i] + [q[i]], q[i + 1..], b);
    OnBankAppend(q[..i], [q[i]], b);
    OnBankOne(q[i], b);
    OnBankAppend(q[..i], q[i + 1..], b);
  }

  lemma {:induction false} FirstIsHead(q: seq<Cmd>, b: nat)
    ensures FirstOnBank(q, b) == if OnBank(q, b) == [] then None else Some(OnBank(q, b)[0])
    ensures FirstOnBank(q, b).Some? ==> FirstOnBank(q, b).value.bank == b
  {
    if q != [] { FirstIsHead(q[1..], b); }
  }

  lemma {:induction false} HasActOnBank(q: seq<Cmd>, b: nat)
    requires !HasAct(q, b)
    ensures forall i :: 0 <= i < |OnBank(q, b)| ==> !OnBank(q, b)[i].kind.ACT?
  {
    if q != [] {
      assert !HasAct(q[1..], b) by {
        assert forall i :: 0 <= i < |q[1..]| ==> q[1..][i] == q[i + 1];
      }
      assert !(q[0].bank == b && q[0].kind.ACT?);
      HasActOnBank(q[1..], b);
    }
  }

  // ---------------------------------------------------------------- the device

  lemma InitialRows(g: Config)
    requires g.t.Valid() && g.p.nFAW > 0
    ensures RowsOk(g, InitialDriver(g), seq(g.t.Banks(), i => Tail([], None))) && Settled(InitialDriver(g).dev)
  {
    InitialBankOk();
    RowOkInitial();
  }

  // A clock keeps every relation and settles all banks.
  lemma UpdateRows(g: Config, s: Driver, tails: seq<Tail>)
    requires RowsOk(g, s, tails)
    ensures RowsOk(g, Update(g, s), tails) && Settled(Update(g, s).dev)
    ensures forall b :: 0 <= b < |s.dev.banks| ==> !TickFatal(s.dev.banks[b])
  {
    hide Tick, BankOk, RowOk, RowOf, ActPending, TickFatal, Topology.Valid;
    var s' := Update(g, s);
    forall b | 0 <= b < g.t.Banks()
      ensures BankRowOk(s'.dev.banks[b], OnBank(s'.inputQ, b), tails[b]) && !ActPending(s'.dev.banks[b]) && !TickFatal(s.dev.banks[b])
    {
      TickRow(g.p, s.dev.banks[b], s'.dev.now);
      assert BankRowOk(s.dev.banks[b], OnBank(s.inputQ, b), tails[b]);
    }
  }

  // A command whose step the automaton allows changes the row of its own bank only.
  lemma SendRow(g: Config, d: Device, c: Cmd, b: nat)
    requires Fits(g.t, d) && CanSend(d, c) && b < g.t.Banks() && BankOk(d.banks[b])
    requires b == c.bank ==> StepRow(RowOf(d.banks[b]), c).Some?
    ensures var b' := DevSend(g.p, g.t, d, c).banks[b];
            && BankOk(b')
            && RowOf(b') == (if b == c.bank then StepRow(RowOf(d.banks[b]), c).value else RowOf(d.banks[b]))
            && (ActPending(b') ==> ActPending(d.banks[b]) || (b == c.bank && c.kind.ACT?))
  {
    hide BankOk, RowOf, Push, Handle, StepRow, Allowed, ActPending;
    if b == c.bank {
      HandleRow(d.banks[b], c, d.now);
      HandlePending(d.banks[b], c, d.now);
    } else {
      PushRow(g.p, g.t.Relate(c.bank, b), d.banks[b], c.kind, d.now);
    }
  }

  lemma HandlePending(b: Bank, c: Cmd, cycle: nat)
    requires Allowed(b, c.kind, cycle)
    ensures ActPending(Handle(b, c, cycle)) ==> c.kind.ACT?
  {}

  lemma SendRowsRight(g: Config, d: Device, c: Cmd)
    requires Fits(g.t, d) && CanSend(d, c) && BankOk(d.banks[c.bank])
    requires StepRow(RowOf(d.banks[c.bank]), c).Some? && RowsRight(d.trace)
    ensures RowsRight(DevSend(g.p, g.t, d, c).trace)
  {
    hide BankOk, RowOf, Push, Handle, StepRow, Allowed;
    HandleRow(d.banks[c.bank], c, d.now);
  }

  // ---------------------------------------------------------------- the scheduler's interface

  // Asking never harms: a re-activation is queued only for a bank with nothing queued.
  lemma CmdAllowedRows(g: Config, s: Driver, tails: seq<Tail>, c: Cmd)
    requires RowsOk(g, s, tails) && Settled(s.dev) && c.bank < g.t.Banks()
    requires tails[c.bank].cmds != [] && tails[c.bank].cmds[0] == c
    ensures RowsOk(g, CmdAllowed(g, s, c).0, tails) && Settled(CmdAllowed(g, s, c).0.dev)
    ensures CmdAllowed(g, s, c).1 ==> CmdAllowed(g, s, c).0 == s && CanSend(s.dev, c) && !IsRefreshing(g, s, c.bank)
  {
    hide RowOk, BusFree, Allowed, Topology.Valid, BankOk, OnBank, RowsRight, RefQOk;
    var s' := CmdAllowed(g, s, c).0;
    if s' != s {
      var a := Reactivation(c);
      assert RowOf(s.dev.banks[c.bank]) == Closed;
      HasActOnBank(s.inputQ, c.bank);
      assert BankRowOk(s.dev.banks[c.bank], OnBank(s.inputQ, c.bank), tails[c.bank]);
      RowReactivated(OnBank(s.inputQ, c.bank), tails[c.bank].cmds, tails[c.bank].conv, a);
      forall b: nat
        ensures OnBank(s'.inputQ, b) == if b == c.bank then OnBank(s.inputQ, b) + [a] else OnBank(s.inputQ, b)
      {
        OnBankAppend(s.inputQ, [a], b);
        OnBankOne(a, b);
      }
    }
  }

  // An accepted push moves the command from the scheduler's queue to the driver's.
  lemma PushRows(g: Config, s: Driver, tails: seq<Tail>, c: Cmd)
    requires RowsOk(g, s, tails) && Settled(s.dev) && c.bank < g.t.Banks()
    requires tails[c.bank].cmds != [] && tails[c.bank].cmds[0] == c
    requires CanSend(s.dev, c) && !IsRefreshing(g, s, c.bank)
    ensures var (s', ok) := PushCmd(g, s, c);
            var tails' := if ok then tails[c.bank := tails[c.bank].(cmds := tails[c.bank].cmds[1..])] else tails;
            RowsOk(g, s', tails') && Settled(s'.dev)
  {
    hide RowOk, Topology.Valid, BankOk, RowOf, RowsRight, OnBank, RefQOk;
    ColNeedsRow(s.dev, c);
    var (s', ok) := PushCmd(g, s, c);
    if ok {
      var tails' := tails[c.bank := tails[c.bank].(cmds := tails[c.bank].cmds[1..])];
      forall b: nat
        ensures OnBank(s'.inputQ, b) == if b == c.bank then OnBank(s.inputQ, b) + [c] else OnBank(s.inputQ, b)
      {
        OnBankAppend(s.inputQ, [c], b);
        OnBankOne(c, b);
      }
      forall b | 0 <= b < g.t.Banks()
        ensures BankRowOk(s'.dev.banks[b], OnBank(s'.inputQ, b), tails'[b])
      {
        assert BankRowOk(s.dev.banks[b], OnBank(s.inputQ, b), tails[b]);
        if b == c.bank {
          RowForwarded(RowOf(s.dev.banks[b]), OnBank(s.inputQ, b), tails[b].cmds, tails[b].conv);
        }
      }
    }
  }

  // A bank that accepts a column command has its row open.
  lemma ColNeedsRow(d: Device, c: Cmd)
    requires CanSend(d, c)
    ensures c.kind.IsCol() ==> RowOf(d.banks[c.bank]).Open?
  {}

  // ---------------------------------------------------------------- refresh

  // Each bank of the list accepts at most one precharge or refresh; the rest is untouched.
  lemma {:induction false} SendEachRows(g: Config, d: Device, k: Kind, ids: seq<nat>, b: nat)
    requires Fits(g.t, d) && (k.PRE? || k.REF?) && RowsRight(d.trace) && b < g.t.Banks()
    requires forall x :: 0 <= x < g.t.Banks() ==> BankOk(d.banks[x]) && !ActPending(d.banks[x])
    ensures var d' := SendEach(g, d, k, ids);
            && RowsRight(d'.trace) && BankOk(d'.banks[b]) && !ActPending(d'.banks[b])
            && (RowOf(d'.banks[b]) == RowOf(d.banks[b]) ||
                (k.PRE? && b in ids && RowOf(d'.banks[b]) == Closed))
    decreases |ids|
  {
    hide BankOk, RowOf, ActPending, Push, Handle, Allowed;
    if ids != [] {
      var c := Cmd(0, k, 0, ids[0], 0);
      if CanSend(d, c) {
        RefAllowedClosed(d, c);
        var d1 := DevSend(g.p, g.t, d, c);
        SendRowsRight(g, d, c);
        forall x | 0 <= x < g.t.Banks() ensures BankOk(d1.banks[x]) && !ActPending(d1.banks[x]) {
          SendRow(g, d, c, x);
        }
        SendRow(g, d, c, b);
        SendEachRows(g, d1, k, ids[1..], b);
      } else {
        SendEachRows(g, d, k, ids[1..], b);
      }
    }
  }

  // Only a closed bank accepts a refresh.
  lemma RefAllowedClosed(d: Device, c: Cmd)
    requires CanSend(d, c) && (c.kind.PRE? || c.kind.REF?)
    ensures StepRow(RowOf(d.banks[c.bank]), c) == Some(Closed)
    ensures c.kind.REF? ==> RowOf(d.banks[c.bank]) == Closed
  {}

  // The banks to be precharged hold no column command first, so closing them is harmless.
  lemma SendRefreshRows(g: Config, s: Driver, tails: seq<Tail>, r: nat)
    requires RowsOk(g, s, tails) && Settled(s.dev) && r < g.t.Ranks() && s.refQ[r] != []
    ensures RowsOk(g, SendRefresh(g, s, r), tails) && Settled(SendRefresh(g, s, r).dev)
  {
    hide RowOk, Topology.Valid, BankOk, BusFree, RowOf, ActPending, SendEach, AllCanSend, Doomable;
    var s' := SendRefresh(g, s, r);
    var rc := s.refQ[r][0];
    assert RefOk(g.t, r, rc);
    if s'.dev != s.dev || s'.refQ != s.refQ {
      forall b | 0 <= b < g.t.Banks()
        ensures BankRowOk(s'.dev.banks[b], OnBank(s.inputQ, b), tails[b]) && RowsRight(s'.dev.trace) && !ActPending(s'.dev.banks[b])
      {
        assert BankRowOk(s.dev.banks[b], OnBank(s.inputQ, b), tails[b]);
        SendEachRows(g, s.dev, rc.kind, rc.banks, b);
        if RowOf(s'.dev.banks[b]) != RowOf(s.dev.banks[b]) {
          assert Doomed(s.refQ[r], b) && g.t.RankOf(b) == r;
          RowRefreshed(RowOf(s.dev.banks[b]), OnBank(s.inputQ, b), tails[b].cmds, tails[b].conv);
        }
      }
      assert g.t.Banks() == 0 ==> false by { assert rc.banks[0] < g.t.Banks(); }
      assert RowsRight(s'.dev.trace) by { assert BankRowOk(s'.dev.banks[0], OnBank(s.inputQ, 0), tails[0]); }
      forall b | 0 <= b < g.t.Banks() && g.t.RankOf(b) < g.t.Ranks() && Doomed(s'.refQ[g.t.RankOf(b)], b)
        ensures Doomable(OnBank(s.inputQ, b))
      {
        if g.t.RankOf(b) == r { DoomedTail(s.refQ[r], b); }
      }
    }
  }

  lemma DoomedTail(q: seq<RefCmd>, b: nat)
    requires q != [] && Doomed(q[1..], b)
    ensures Doomed(q, b)
  {
    var i :| 0 <= i < |q[1..]| && q[1..][i].kind.PRE? && b in q[1..][i].banks;
    assert q[i + 1].kind.PRE? && b in q[i + 1].banks;
  }
}
