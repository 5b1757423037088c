// Row correctness of one bank: a small open/closed automaton over command streams, its
// agreement with the bank state machine, and the relation between the row a bank holds
// open, the commands queued for it and the converter's idea of the row.
module DramRows {
  import opened Common
  import opened DramTypes
  import opened DramBank

  // A bank as its command stream sees it; `untouched` until the first column command.
  datatype Row = Closed | Open(row: nat, untouched: bool)

  // None: the command is illegal here.
  function StepRow(s: Row, c: Cmd): Option<Row> {
    match c.kind
    case ACT => if s.Closed? then Some(Open(c.row, true)) else None
    case PRE => Some(Closed)
    case REF => if s.Closed? then Some(Closed) else None
    case _ =>
      if s.Closed? || s.row != c.row then None
      else if !c.kind.IsAuto() then Some(Open(c.row, false))
      else if s.untouched then Some(Closed)
      else None
  }

  function RunRow(s: Row, q: seq<Cmd>): Option<Row>
    decreases |q|
  {
    if q == [] then Some(s)
    else match StepRow(s, q[0])
      case None => None
      case Some(s') => RunRow(s', q[1..])
  }

  lemma {:induction false} RunRowAppend(s: Row, q: seq<Cmd>, r: seq<Cmd>)
    ensures RunRow(s, q + r) == match RunRow(s, q) case None => None case Some(s') => RunRow(s', r)
    decreases |q|
  {
    if q == [] {
      assert q + r == r;
    } else {
      assert (q + r)[1..] == q[1..] + r;
      match StepRow(s, q[0])
      case None =>
      case Some(s') => RunRowAppend(s', q[1..], r);
    }
  }

  // ---------------------------------------------------------------- the bank and the automaton

  // The row state that holds once the bank has carried out the command it stores.
  function RowOf(b: Bank): Row {
    match b.st
    case Idle(_, Some(c)) => if c.kind.ACT? then Open(c.row, true) else Closed
    case Activating(_, c) => Open(c.row, true)
    case Active(_, r) => After(r, b.openRow, true)
    case Reading(_, _, r) => After(r, b.openRow, false)
    case Writing(_, _, r) => After(r, b.openRow, false)
    case _ => Closed
  }

  function After(r: Option<Cmd>, row: nat, untouched: bool): Row {
    match r
    case None => Open(row, untouched)
    case Some(c) => if c.kind.PRE? || c.kind.IsAuto() then Closed else Open(row, false)
  }

  // No read or write state ever holds an auto-precharge command.
  predicate BankOk(b: Bank) {
    match b.st
    case Idle(t, Some(c)) => t == 1 && (c.kind.ACT? || c.kind.PRE? || c.kind.REF?)
    case Active(_, r) => b.rowOpen && (r.Some? ==> r.value.kind.IsCol() || r.value.kind.PRE?)
    case Reading(_, _, r) => b.rowOpen && (r.Some? ==> r.value.kind.READ? || r.value.kind.WRITE? || r.value.kind.PRE?)
    case Writing(_, _, r) => b.rowOpen && (r.Some? ==> r.value.kind.READ? || r.value.kind.WRITE? || r.value.kind.PRE?)
    case _ => true
  }

  // The bank is about to open a row: true only within the clock that accepted the ACT.
  predicate ActPending(b: Bank) { b.st.Idle? && b.st.received.Some? && b.st.received.value.kind.ACT? }

  lemma InitialBankOk()
    ensures BankOk(INITIAL) && RowOf(INITIAL) == Closed && !ActPending(INITIAL)
  {}

  // A clock never changes the row state, never ends the simulation, and starts any pending ACT.
  lemma TickRow(p: Params, b: Bank, cycle: nat)
    requires BankOk(b)
    ensures var b' := Tick(p, b, cycle); BankOk(b') && RowOf(b') == RowOf(b) && !ActPending(b')
    ensures !TickFatal(b)
  {
    hide ReadExit, WriteExit, Sub32, Max;
  }

  // An accepted command moves the row state as the automaton says, and a column
  // command finds its own row open.
  lemma HandleRow(b: Bank, c: Cmd, cycle: nat)
    requires BankOk(b) && Allowed(b, c.kind, cycle) && StepRow(RowOf(b), c).Some?
    ensures BankOk(Handle(b, c, cycle)) && RowOf(Handle(b, c, cycle)) == StepRow(RowOf(b), c).value
    ensures c.kind.IsCol() ==> b.rowOpen && b.openRow == c.row
  {}

  lemma PushRow(p: Params, rel: Rel, b: Bank, k: Kind, t: nat)
    requires BankOk(b)
    ensures var b' := Push(p, rel, b, k, t);
            BankOk(b') && RowOf(b') == RowOf(b) && (ActPending(b') <==> ActPending(b)) && b'.st == b.st
    ensures !k.ACT? && !k.IsCol() ==> Push(p, rel, b, k, t) == b
  {
    hide Max, Sub64;
  }

  // ---------------------------------------------------------------- queued commands

  // The converter's view of the row: None when it believes the bank closed.
  predicate Matches(s: Row, conv: Option<nat>) {
    match conv
    case None => s.Closed?
    case Some(r) => s.Open? && s.row == r
  }

  // The row state from which the queued commands are to be read. A leading ACT waits for
  // the bank to close; and a bank closed by a refresh, with nothing left in the driver,
  // will be reopened for the next column command.
  function Start(row: Row, inQ: seq<Cmd>, cmdQ: seq<Cmd>, conv: Option<nat>): Row {
    if inQ != [] then (if inQ[0].kind.ACT? then Closed else row)
    else if row.Open? then row
    else if cmdQ != [] then (if cmdQ[0].kind.IsCol() then Open(cmdQ[0].row, true) else Closed)
    else if conv.Some? then Open(conv.value, true)
    else Closed
  }

  // The driver's queue and then the scheduler's queue of the bank run without error and
  // end in the row state the converter has recorded.
  predicate RowOk(row: Row, inQ: seq<Cmd>, cmdQ: seq<Cmd>, conv: Option<nat>) {
    var end := RunRow(Start(row, inQ, cmdQ, conv), inQ + cmdQ);
    end.Some? && Matches(end.value, conv)
  }

  // No column command may be first in the driver when a refresh closes the bank.
  predicate Doomable(inQ: seq<Cmd>) { inQ != [] ==> !inQ[0].kind.IsCol() }

  lemma RowOkInitial()
    ensures RowOk(Closed, [], [], None)
  {}

  // The first queued command is accepted.
  lemma RowAccept(row: Row, inQ: seq<Cmd>, cmdQ: seq<Cmd>, conv: Option<nat>)
    requires inQ != [] && RowOk(row, inQ, cmdQ, conv) && (inQ[0].kind.ACT? ==> row.Closed?)
    ensures StepRow(row, inQ[0]).Some? && RowOk(StepRow(row, inQ[0]).value, inQ[1..], cmdQ, conv)
    ensures var row' := StepRow(row, inQ[0]).value; Start(row', inQ[1..], cmdQ, conv) == row'
  {
    assert (inQ + cmdQ)[1..] == inQ[1..] + cmdQ;
    var row' := StepRow(row, inQ[0]).value;
    var start' := Start(row', inQ[1..], cmdQ, conv);
    assert RunRow(Start(row, inQ, cmdQ, conv), inQ + cmdQ) == RunRow(row', inQ[1..] + cmdQ);
    assert RunRow(row', inQ[1..] + cmdQ).Some?;
    assert start' == row';
  }

  // A refresh closes the bank under the queued commands.
  lemma RowRefreshed(row: Row, inQ: seq<Cmd>, cmdQ: seq<Cmd>, conv: Option<nat>)
    requires RowOk(row, inQ, cmdQ, conv) && Doomable(inQ)
    ensures RowOk(Closed, inQ, cmdQ, conv)
  {
    if inQ == [] { assert inQ + cmdQ == cmdQ; }
  }

  // The scheduler's next command is a column command, and the bank is closed.
  lemma RowReactivated(inQ: seq<Cmd>, cmdQ: seq<Cmd>, conv: Option<nat>, a: Cmd)
    requires RowOk(Closed, inQ, cmdQ, conv) && cmdQ != [] && cmdQ[0].kind.IsCol()
    requires forall i :: 0 <= i < |inQ| ==> !inQ[i].kind.ACT?
    requires a.kind.ACT? && a.row == cmdQ[0].row
    ensures inQ == [] && RowOk(Closed, inQ + [a], cmdQ, conv)
  {
    if inQ != [] {
      RunRowAppend(Closed, inQ, cmdQ);
      StaysClosed(inQ);
      assert false;
    }
    assert ([a] + cmdQ)[1..] == cmdQ && [] + cmdQ == cmdQ && inQ + [a] == [a];
  }

  lemma {:induction false} StaysClosed(q: seq<Cmd>)
    requires forall i :: 0 <= i < |q| ==> !q[i].kind.ACT?
    ensures RunRow(Closed, q).None? || RunRow(Closed, q) == Some(Closed)
  {
    if q != [] { StaysClosed(q[1..]); }
  }

  // A command moves from the scheduler to the driver; a column command only to an open bank.
  lemma RowForwarded(row: Row, inQ: seq<Cmd>, cmdQ: seq<Cmd>, conv: Option<nat>)
    requires RowOk(row, inQ, cmdQ, conv) && cmdQ != [] && (cmdQ[0].kind.IsCol() ==> row.Open?)
    ensures RowOk(row, inQ + [cmdQ[0]], cmdQ[1..], conv)
  {
    assert inQ + [cmdQ[0]] + cmdQ[1..] == inQ + cmdQ;
    if inQ == [] { assert inQ + cmdQ == cmdQ; }
  }

  // A refresh puts an ACT in front of a queued column command.
  lemma RowReinserted(row: Row, inQ: seq<Cmd>, cmdQ: seq<Cmd>, conv: Option<nat>, a: Cmd)
    requires RowOk(row, inQ, cmdQ, conv) && inQ != [] && inQ[0].kind.IsCol()
    requires a.kind.ACT? && a.row == inQ[0].row
    ensures RowOk(row, [a] + inQ, cmdQ, conv)
  {
    assert ([a] + inQ + cmdQ)[1..] == inQ + cmdQ;
  }

  // A package takes every row state that matches `conv` to one that matches `conv'`.
  ghost predicate PackageOk(conv: Option<nat>, pkg: seq<Cmd>, conv': Option<nat>) {
    forall s :: Matches(s, conv) ==> RunRow(s, pkg).Some? && Matches(RunRow(s, pkg).value, conv')
  }

  // The converter appends a package.
  lemma RowConverted(row: Row, inQ: seq<Cmd>, cmdQ: seq<Cmd>, conv: Option<nat>, pkg: seq<Cmd>, conv': Option<nat>)
    requires RowOk(row, inQ, cmdQ, conv) && PackageOk(conv, pkg, conv') && pkg != []
    ensures RowOk(row, inQ, cmdQ + pkg, conv')
  {
    var start := Start(row, inQ, cmdQ, conv);
    RunRowAppend(start, inQ + cmdQ, pkg);
    assert inQ + cmdQ + pkg == inQ + (cmdQ + pkg);
    if inQ == [] && cmdQ == [] {
      assert inQ + (cmdQ + pkg) == pkg;
      assert Matches(start, conv);
    }
  }
}
