// The controller's response bookkeeping: every accepted transaction is answered exactly
// once, in normal and in quick-response mode, for every order of the device's answers.
module Responses {
  datatype Txn = Txn(id: nat, write: bool)

  // An entry of the response queue. Quick mode adds copies for writes; `cmds` are the
  // numbers of the commands generated for the transaction.
  datatype Entry = Entry(txn: Txn, copy: bool, ready: bool, waiting: nat, cmds: set<nat>)

  datatype Ctl = Ctl(
    reqQ: seq<Txn>,          // received, not taken by the transaction scheduler
    resQ: seq<Entry>,
    queued: seq<Txn>,        // taken, not converted to commands
    issued: map<nat, Txn>,   // column commands the device has not answered
    next: nat,               // next command number
    sent: seq<Txn>,          // responses sent
    lost: bool)              // an answer matched no entry, which is fatal

  const EMPTY: Ctl := Ctl([], [], [], map[], 0, [], false)

  // ---------------------------------------------------------------- operations

  function Receive(s: Ctl, t: Txn): Ctl {
    s.(reqQ := s.reqQ + [t], resQ := s.resQ + [Entry(t, false, false, 0, {})])
  }

  // All ready entries leave, in queue order.
  function NotReady(q: seq<Entry>): seq<Entry> {
    if q == [] then [] else (if q[0].ready then [] else [q[0]]) + NotReady(q[1..])
  }

  function ReadyTxns(q: seq<Entry>): seq<Txn> {
    if q == [] then [] else (if q[0].ready then [q[0].txn] else []) + ReadyTxns(q[1..])
  }

  function SendResponse(s: Ctl): Ctl {
    s.(resQ := NotReady(s.resQ), sent := s.sent + ReadyTxns(s.resQ))
  }

  function MarkReady(q: seq<Entry>, t: Txn): seq<Entry> {
    seq(|q|, i requires 0 <= i < |q| => if q[i].txn == t && !q[i].copy then q[i].(ready := true) else q[i])
  }

  // What the controller does with the first waiting request: answer a read that hits a
  // queued write, hand it to the scheduler, or wait (the scheduler is full).
  datatype Verdict = Hit | Taken | Full

  function TakeOne(s: Ctl, quick: bool, v: Verdict): Ctl
    requires s.reqQ != []
  {
    var t := s.reqQ[0];
    if v.Hit? && quick && !t.write then s.(reqQ := s.reqQ[1..], resQ := MarkReady(s.resQ, t))
    else if v.Full? then s
    else s.(reqQ := s.reqQ[1..], queued := s.queued + [t],
            resQ := if quick && t.write then s.resQ + [Entry(t, true, true, 0, {})] else s.resQ)
  }

  // Commands first..next-1 are generated for the transaction; one of them, `col`, is its
  // column command and the only one the device answers.
  function Record(q: seq<Entry>, t: Txn, cmds: set<nat>): seq<Entry> {
    seq(|q|, i requires 0 <= i < |q| =>
               if q[i].txn == t && !q[i].copy then q[i].(waiting := 1, cmds := q[i].cmds + cmds) else q[i])
  }

  function Block(first: nat, n: nat): (r: set<nat>)
    ensures forall k :: k in r <==> first <= k < first + n
  {
    if n == 0 then {} else Block(first, n - 1) + {first + n - 1}
  }

  function ConvertTxn(s: Ctl, i: nat, n: nat, col: nat): Ctl
    requires i < |s.queued| && col < n
  {
    var t := s.queued[i];
    s.(queued := s.queued[..i] + s.queued[i + 1..],
       resQ := Record(s.resQ, t, Block(s.next, n)),
       issued := s.issued[s.next + col := t], next := s.next + n)
  }

  // The first entry one of whose commands has the number.
  function Find(q: seq<Entry>, no: nat): (i: nat)
    ensures i <= |q| && (i < |q| ==> no in q[i].cmds) && forall j :: 0 <= j < i ==> no !in q[j].cmds
  {
    if q == [] then 0 else if no in q[0].cmds then 0 else 1 + Find(q[1..], no)
  }

  // The device answers command `no`.
  function Answer(s: Ctl, quick: bool, no: nat): Ctl
    requires no in s.issued
  {
    var i := Find(s.resQ, no);
    var s1 := s.(issued := s.issued - {no});
    if i == |s.resQ| then s1.(lost := true)
    else
      var e := s.resQ[i];
      var left := if e.waiting == 0 then 0xFFFF_FFFF else e.waiting - 1;
      if left > 0 then s1.(resQ := s.resQ[i := e.(waiting := left)])
      else if quick && e.txn.write then s1.(resQ := s.resQ[..i] + s.resQ[i + 1..])
      else s1.(resQ := s.resQ[i := e.(waiting := 0, ready := true)])
  }

  datatype Act =
    | Arrive(t: Txn) | Respond | Take(v: Verdict) | Convert(i: nat, n: nat, col: nat) | DeviceAnswer(no: nat)

  function Step(s: Ctl, quick: bool, arrived: set<Txn>, a: Act): Ctl {
    match a
    case Arrive(t) => if t in arrived then s else Receive(s, t)
    case Respond => SendResponse(s)
    case Take(v) => if s.reqQ == [] then s else TakeOne(s, quick, v)
    case Convert(i, n, col) => if i < |s.queued| && col < n then ConvertTxn(s, i, n, col) else s
    case DeviceAnswer(no) => if no in s.issued then Answer(s, quick, no) else s
  }

  function Arrived(acts: seq<Act>): set<Txn> {
    if acts == [] then {}
    else Arrived(acts[..|acts| - 1]) + (if acts[|acts| - 1].Arrive? then {acts[|acts| - 1].t} else {})
  }

  function Run(quick: bool, acts: seq<Act>): Ctl {
    if acts == [] then EMPTY
    else Step(Run(quick, acts[..|acts| - 1]), quick, Arrived(acts[..|acts| - 1]), acts[|acts| - 1])
  }

  // ---------------------------------------------------------------- counting

  datatype Kind = Original | Copy | Done
  {
    // Done: an original whose answer is ready.
    predicate Has(e: Entry) {
      match this
      case Original => !e.copy
      case Copy => e.copy
      case Done => !e.copy && e.ready
    }
  }

  function Count(q: seq<Entry>, k: Kind, t: Txn): nat {
    if q == [] then 0 else (if k.Has(q[0]) && q[0].txn == t then 1 else 0) + Count(q[1..], k, t)
  }

  lemma {:induction false} CountAppend(p: seq<Entry>, q: seq<Entry>, k: Kind, t: Txn)
    ensures Count(p + q, k, t) == Count(p, k, t) + Count(q, k, t)
  {
    if p == [] {
      assert p + q == q;
    } else {
      assert (p + q)[1..] == p[1..] + q;
      CountAppend(p[1..], q, k, t);
    }
  }

  lemma {:induction false} CountUpdate(q: seq<Entry>, i: nat, e: Entry, k: Kind, t: Txn)
    requires i < |q|
    ensures Count(q[i := e], k, t) + (if k.Has(q[i]) && q[i].txn == t then 1 else 0)
         == Count(q, k, t) + (if k.Has(e) && e.txn == t then 1 else 0)
  {
    if i == 0 {
      assert q[0 := e][1..] == q[1..];
    } else {
      assert q[i := e][1..] == q[1..][i - 1 := e];
      CountUpdate(q[1..], i - 1, e, k, t);
    }
  }

  lemma CountRemove(q: seq<Entry>, i: nat, k: Kind, t: Txn)
    requires i < |q|
    ensures Count(q[..i] + q[i + 1..], k, t) + (if k.Has(q[i]) && q[i].txn == t then 1 else 0) == Count(q, k, t)
  {
    assert q == q[..i] + ([q[i]] + q[i + 1..]);
    CountAppend(q[..i], [q[i]] + q[i + 1..], k, t);
    CountAppend([q[i]], q[i + 1..], k, t);
    CountAppend(q[..i], q[i + 1..], k, t);
    CountOne(q[i], k, t);
  }

  lemma CountOne(e: Entry, k: Kind, t: Txn)
    ensures Count([e], k, t) == if k.Has(e) && e.txn == t then 1 else 0
  {}

  lemma {:induction false} CountPositive(q: seq<Entry>, k: Kind, t: Txn)
    ensures Count(q, k, t) > 0 <==> exists i :: 0 <= i < |q| && k.Has(q[i]) && q[i].txn == t
  {
    if q != [] {
      CountPositive(q[1..], k, t);
      if i :| 0 <= i < |q| && k.Has(q[i]) && q[i].txn == t {
        if i > 0 { assert q[1..][i - 1] == q[i]; }
      }
    }
  }

  // What leaves with the responses, and what stays.
  lemma {:induction false} SentCounts(q: seq<Entry>, t: Txn)
    requires forall e :: e in q && e.copy ==> e.ready
    ensures multiset(ReadyTxns(q))[t] == Count(q, Copy, t) + Count(q, Done, t)
  {
    if q != [] {
      assert q[0] in q;
      assert forall e :: e in q[1..] ==> e in q;
      SentCounts(q[1..], t);
      if !q[0].ready { assert [] + ReadyTxns(q[1..]) == ReadyTxns(q[1..]); }
    }
  }

  lemma {:induction false} StayCounts(q: seq<Entry>, t: Txn)
    requires forall e :: e in q && e.copy ==> e.ready
    ensures Count(NotReady(q), Copy, t) == 0 && Count(NotReady(q), Done, t) == 0
    ensures Count(NotReady(q), Original, t) == Count(q, Original, t) - Count(q, Done, t)
    ensures forall e :: e in NotReady(q) ==> e in q
  {
    if q != [] {
      assert q[0] in q;
      assert forall e :: e in q[1..] ==> e in q;
      StayCounts(q[1..], t);
      if q[0].ready {
        assert NotReady(q) == NotReady(q[1..]);
      } else {
        assert NotReady(q)[1..] == NotReady(q[1..]) && NotReady(q)[0] == q[0];
      }
    }
  }

  // Marking or recording the originals of one transaction.
  lemma {:induction false} MarkCounts(q: seq<Entry>, t: Txn, u: Txn)
    ensures Count(MarkReady(q, t), Original, u) == Count(q, Original, u)
    ensures Count(MarkReady(q, t), Copy, u) == Count(q, Copy, u)
    ensures Count(MarkReady(q, t), Done, u) == if u == t then Count(q, Original, u) else Count(q, Done, u)
  {
    if q != [] {
      assert MarkReady(q, t)[1..] == MarkReady(q[1..], t);
      MarkCounts(q[1..], t, u);
    }
  }

  lemma {:induction false} RecordCounts(q: seq<Entry>, t: Txn, cmds: set<nat>, k: Kind, u: Txn)
    ensures Count(Record(q, t, cmds), k, u) == Count(q, k, u)
  {
    if q != [] {
      assert Record(q, t, cmds)[1..] == Record(q[1..], t, cmds);
      RecordCounts(q[1..], t, cmds, k, u);
    }
  }

  // ---------------------------------------------------------------- the invariant

  // Column commands of t still with the device.
  function Open(issued: map<nat, Txn>, t: Txn): set<nat> { set no | no in issued && issued[no] == t }

  // Where an unanswered original stands: waiting, with the scheduler, at the device, or done.
  function Stages(s: Ctl, t: Txn): nat {
    multiset(s.reqQ)[t] + multiset(s.queued)[t] + |Open(s.issued, t)| + Count(s.resQ, Done, t)
  }

  // Responses sent and responses still to come.
  function Responses(s: Ctl, quick: bool, t: Txn): nat {
    multiset(s.sent)[t] + Count(s.resQ, Copy, t) +
    (if quick && t.write && t !in s.reqQ then 0 else Count(s.resQ, Original, t))
  }

  ghost predicate Counted(s: Ctl, quick: bool, arrived: set<Txn>) {
    forall t: Txn ::
      && Responses(s, quick, t) == (if t in arrived then 1 else 0)
      && Stages(s, t) == Count(s.resQ, Original, t) <= (if t in arrived then 1 else 0)
  }

  // Copies are ready; quick writes never become ready themselves; a command number in use
  // belongs to the transaction whose command it is, which waits for that one answer.
  ghost predicate Linked(s: Ctl, quick: bool) {
    && !s.lost
    && (forall no :: no in s.issued ==> no < s.next)
    && (forall e :: e in s.resQ ==> EntryOk(s, quick, e))
  }

  ghost predicate EntryOk(s: Ctl, quick: bool, e: Entry) {
    && (e.copy ==> e.ready && e.cmds == {})
    && (quick && e.txn.write && !e.copy ==> !e.ready)
    && (forall no :: no in e.cmds ==> no < s.next && (no in s.issued ==> s.issued[no] == e.txn))
    && (forall no :: !e.copy && no in s.issued && s.issued[no] == e.txn ==> no in e.cmds && e.waiting == 1)
  }

  ghost predicate Inv(s: Ctl, quick: bool, arrived: set<Txn>) { Counted(s, quick, arrived) && Linked(s, quick) }

  lemma ReceiveKeeps(s: Ctl, quick: bool, arrived: set<Txn>, t: Txn)
    requires Inv(s, quick, arrived) && t !in arrived
    ensures Inv(Receive(s, t), quick, arrived + {t})
  {
    hide Count, Stages, Responses, EntryOk;
    forall u: Txn
      ensures Responses(Receive(s, t), quick, u) == (if u in arrived + {t} then 1 else 0)
      ensures Stages(Receive(s, t), u) == Count(Receive(s, t).resQ, Original, u) <= (if u in arrived + {t} then 1 else 0)
    {
      ReceiveCounts(s, quick, arrived, t, u);
    }
    NotOpen(s, quick, arrived, t);
    ReceiveLinked(s, quick, t);
  }

  lemma ReceiveCounts(s: Ctl, quick: bool, arrived: set<Txn>, t: Txn, u: Txn)
    requires Counted(s, quick, arrived) && t !in arrived
    ensures var s' := Receive(s, t);
            && Responses(s', quick, u) == (if u in arrived + {t} then 1 else 0)
            && Stages(s', u) == Count(s'.resQ, Original, u) <= (if u in arrived + {t} then 1 else 0)
  {
    hide Count, Open;
    var e := Entry(t, false, false, 0, {});
    assert Responses(s, quick, u) == (if u in arrived then 1 else 0) && Stages(s, u) == Count(s.resQ, Original, u);
    forall k ensures Count(s.resQ + [e], k, u) == Count(s.resQ, k, u) + (if k.Has(e) && u == t then 1 else 0) {
      CountAppend(s.resQ, [e], k, u);
      CountOne(e, k, u);
    }
    assert u in s.reqQ + [t] <==> u in s.reqQ || u == t;
  }

  lemma NotOpen(s: Ctl, quick: bool, arrived: set<Txn>, t: Txn)
    requires Counted(s, quick, arrived) && t !in arrived
    ensures forall no :: no in s.issued ==> s.issued[no] != t
  {
    assert Stages(s, t) == Count(s.resQ, Original, t);
    forall no | no in s.issued ensures s.issued[no] != t { assert no in Open(s.issued, t) <==> s.issued[no] == t; }
  }

  lemma ReceiveLinked(s: Ctl, quick: bool, t: Txn)
    requires Linked(s, quick) && forall no :: no in s.issued ==> s.issued[no] != t
    ensures Linked(Receive(s, t), quick)
  {
    var s' := Receive(s, t);
    forall e | e in s'.resQ ensures EntryOk(s', quick, e) {
      if e in s.resQ { assert EntryOk(s, quick, e); }
    }
  }

  lemma SendKeeps(s: Ctl, quick: bool, arrived: set<Txn>)
    requires Inv(s, quick, arrived)
    ensures Inv(SendResponse(s), quick, arrived)
  {
    hide Count, Stages, Responses;
    var s' := SendResponse(s);
    forall u: Txn
      ensures Responses(s', quick, u) == (if u in arrived then 1 else 0)
      ensures Stages(s', u) == Count(s'.resQ, Original, u) <= (if u in arrived then 1 else 0)
    {
      SendCounts(s, quick, u);
      assert Responses(s, quick, u) == (if u in arrived then 1 else 0) && Stages(s, u) == Count(s.resQ, Original, u);
    }
    forall e | e in s'.resQ ensures EntryOk(s', quick, e) {
      StayCounts(s.resQ, e.txn);
      assert EntryOk(s, quick, e);
    }
  }

  lemma SendCounts(s: Ctl, quick: bool, u: Txn)
    requires Linked(s, quick) && Stages(s, u) == Count(s.resQ, Original, u)
    ensures var s' := SendResponse(s);
            && Responses(s', quick, u) == Responses(s, quick, u)
            && Stages(s', u) == Count(s'.resQ, Original, u) <= Count(s.resQ, Original, u)
  {
    hide Count, Open, NotReady, ReadyTxns;
    assert forall e :: e in s.resQ ==> EntryOk(s, quick, e);
    SentCounts(s.resQ, u);
    StayCounts(s.resQ, u);
    assert multiset(s.sent + ReadyTxns(s.resQ))[u] == multiset(s.sent)[u] + multiset(ReadyTxns(s.resQ))[u];
    if quick && u.write { NoQuickWriteDone(s, quick, u); }
  }

  lemma NoQuickWriteDone(s: Ctl, quick: bool, u: Txn)
    requires Linked(s, quick) && quick && u.write
    ensures Count(s.resQ, Done, u) == 0
  {
    CountPositive(s.resQ, Done, u);
    forall i | 0 <= i < |s.resQ| && s.resQ[i].txn == u ensures !Done.Has(s.resQ[i]) {
      assert s.resQ[i] in s.resQ && EntryOk(s, quick, s.resQ[i]);
    }
  }

  // A request at the head of the waiting ones is nowhere else.
  lemma HeadStage(s: Ctl, quick: bool, arrived: set<Txn>)
    requires Counted(s, quick, arrived) && s.reqQ != []
    ensures var t := s.reqQ[0];
            && multiset(s.reqQ)[t] == 1 && t !in s.reqQ[1..] && Count(s.resQ, Original, t) == 1 && Count(s.resQ, Done, t) == 0
            && Open(s.issued, t) == {} && multiset(s.queued)[t] == 0
  {
    var t := s.reqQ[0];
    assert s.reqQ == [t] + s.reqQ[1..];
    assert Stages(s, t) == Count(s.resQ, Original, t) <= 1;
  }

  lemma TakeKeeps(s: Ctl, quick: bool, arrived: set<Txn>, v: Verdict)
    requires Inv(s, quick, arrived) && s.reqQ != []
    ensures Inv(TakeOne(s, quick, v), quick, arrived)
  {
    hide Count, EntryOk, MarkReady;
    var t := s.reqQ[0];
    var s' := TakeOne(s, quick, v);
    HeadStage(s, quick, arrived);
    assert s.reqQ == [t] + s.reqQ[1..];
    var c := Entry(t, true, true, 0, {});
    var hit := v.Hit? && quick && !t.write;
    if hit || !v.Full? {
      forall u: Txn
        ensures Responses(s', quick, u) == Responses(s, quick, u)
        ensures Stages(s', u) == Count(s'.resQ, Original, u) == Count(s.resQ, Original, u)
      {
        assert Stages(s, u) == Count(s.resQ, Original, u);
        MarkCounts(s.resQ, t, u);
        CopyCounts(s.resQ, c, u);
      }
      TakeLinked(s, quick, v);
    }
  }

  lemma CopyCounts(q: seq<Entry>, c: Entry, u: Txn)
    requires c.copy
    ensures Count(q + [c], Original, u) == Count(q, Original, u) && Count(q + [c], Done, u) == Count(q, Done, u)
    ensures Count(q + [c], Copy, u) == Count(q, Copy, u) + (if u == c.txn then 1 else 0)
  {
    CountAppend(q, [c], Original, u);
    CountAppend(q, [c], Copy, u);
    CountAppend(q, [c], Done, u);
    CountOne(c, Original, u);
    CountOne(c, Copy, u);
    CountOne(c, Done, u);
  }

  lemma TakeLinked(s: Ctl, quick: bool, v: Verdict)
    requires Linked(s, quick) && s.reqQ != []
    ensures Linked(TakeOne(s, quick, v), quick)
  {
    var s' := TakeOne(s, quick, v);
    var t := s.reqQ[0];
    forall e | e in s'.resQ ensures EntryOk(s', quick, e) {
      var i :| 0 <= i < |s'.resQ| && s'.resQ[i] == e;
      if i < |s.resQ| { assert EntryOk(s, quick, s.resQ[i]); }
    }
  }

  lemma ConvertKeeps(s: Ctl, quick: bool, arrived: set<Txn>, i: nat, n: nat, col: nat)
    requires Inv(s, quick, arrived) && i < |s.queued| && col < n
    ensures Inv(ConvertTxn(s, i, n, col), quick, arrived)
  {
    hide Stages, Responses, Count, EntryOk;
    var s' := ConvertTxn(s, i, n, col);
    forall u: Txn
      ensures Responses(s', quick, u) == (if u in arrived then 1 else 0)
      ensures Stages(s', u) == Count(s'.resQ, Original, u) <= (if u in arrived then 1 else 0)
    {
      ConvertCounts(s, quick, i, n, col, u);
      assert Responses(s, quick, u) == (if u in arrived then 1 else 0) && Stages(s, u) == Count(s.resQ, Original, u);
    }
    ConvertLinked(s, quick, i, n, col);
  }

  lemma ConvertCounts(s: Ctl, quick: bool, i: nat, n: nat, col: nat, u: Txn)
    requires Linked(s, quick) && i < |s.queued| && col < n
    ensures var s' := ConvertTxn(s, i, n, col);
            && Responses(s', quick, u) == Responses(s, quick, u) && Stages(s', u) == Stages(s, u)
            && Count(s'.resQ, Original, u) == Count(s.resQ, Original, u)
  {
    hide Count, EntryOk, Record, Block, Open;
    var t := s.queued[i];
    var no := s.next + col;
    var s' := ConvertTxn(s, i, n, col);
    OpenAdds(s.issued, no, t, u);
    assert s.queued == s.queued[..i] + [t] + s.queued[i + 1..];
    RecordCounts(s.resQ, t, Block(s.next, n), Original, u);
    RecordCounts(s.resQ, t, Block(s.next, n), Copy, u);
    RecordCounts(s.resQ, t, Block(s.next, n), Done, u);
  }

  lemma OpenAdds(issued: map<nat, Txn>, no: nat, t: Txn, u: Txn)
    requires no !in issued
    ensures no !in Open(issued, u)
    ensures Open(issued[no := t], u) == if u == t then Open(issued, u) + {no} else Open(issued, u)
  {}

  lemma ConvertLinked(s: Ctl, quick: bool, i: nat, n: nat, col: nat)
    requires Linked(s, quick) && i < |s.queued| && col < n
    ensures Linked(ConvertTxn(s, i, n, col), quick)
  {
    var s' := ConvertTxn(s, i, n, col);
    forall e | e in s'.resQ ensures EntryOk(s', quick, e) {
      var j :| 0 <= j < |s'.resQ| && s'.resQ[j] == e;
      assert EntryOk(s, quick, s.resQ[j]);
    }
  }

  // The answer finds the one entry that waits for it, whatever else is queued.
  lemma AnswerFinds(s: Ctl, quick: bool, arrived: set<Txn>, no: nat)
    requires Inv(s, quick, arrived) && no in s.issued
    ensures var i := Find(s.resQ, no);
            var t := s.issued[no];
            && i < |s.resQ| && s.resQ[i].txn == t && !s.resQ[i].copy && !s.resQ[i].ready && s.resQ[i].waiting == 1
            && Open(s.issued, t) == {no} && t !in s.reqQ && Count(s.resQ, Original, t) == 1 && Count(s.resQ, Done, t) == 0
  {
    var t := s.issued[no];
    assert no in Open(s.issued, t);
    assert Stages(s, t) == Count(s.resQ, Original, t) <= 1;
    OneElement(Open(s.issued, t), no);
    CountPositive(s.resQ, Original, t);
    var j :| 0 <= j < |s.resQ| && Original.Has(s.resQ[j]) && s.resQ[j].txn == t;
    assert s.resQ[j] in s.resQ && EntryOk(s, quick, s.resQ[j]);
    var i := Find(s.resQ, no);
    assert i < |s.resQ| && s.resQ[i] in s.resQ && EntryOk(s, quick, s.resQ[i]);
    CountPositive(s.resQ, Done, t);
    assert s.resQ[i].ready ==> Done.Has(s.resQ[i]);
  }

  lemma OneElement(a: set<nat>, x: nat)
    requires x in a && |a| <= 1
    ensures a == {x}
  {
    assert |a - {x}| == 0;
  }

  lemma AnswerKeeps(s: Ctl, quick: bool, arrived: set<Txn>, no: nat)
    requires Inv(s, quick, arrived) && no in s.issued
    ensures Inv(Answer(s, quick, no), quick, arrived)
  {
    AnswerFinds(s, quick, arrived, no);
    var s' := Answer(s, quick, no);
    var i := Find(s.resQ, no);
    var t := s.issued[no];
    forall u: Txn
      ensures Responses(s', quick, u) == (if u in arrived then 1 else 0)
      ensures Stages(s', u) == Count(s'.resQ, Original, u) <= (if u in arrived then 1 else 0)
    {
      assert Responses(s, quick, u) == (if u in arrived then 1 else 0) && Stages(s, u) == Count(s.resQ, Original, u);
      assert Open(s'.issued, u) == if u == t then {} else Open(s.issued, u);
      AnswerCounts(s, quick, no, u);
    }
    AnswerLinked(s, quick, no);
  }

  lemma AnswerCounts(s: Ctl, quick: bool, no: nat, u: Txn)
    requires no in s.issued
    requires var i := Find(s.resQ, no);
             i < |s.resQ| && s.resQ[i].txn == s.issued[no] && !s.resQ[i].copy && !s.resQ[i].ready && s.resQ[i].waiting == 1
    ensures var s' := Answer(s, quick, no);
            var t := s.issued[no];
            var gone := if u == t && quick && t.write then 1 else 0;
            && Count(s'.resQ, Copy, u) == Count(s.resQ, Copy, u)
            && Count(s'.resQ, Original, u) == Count(s.resQ, Original, u) - gone
            && Count(s'.resQ, Done, u) == Count(s.resQ, Done, u) + (if u == t then 1 - gone else 0)
  {
    hide Count;
    var i := Find(s.resQ, no);
    var e := s.resQ[i].(waiting := 0, ready := true);
    CountUpdate(s.resQ, i, e, Original, u);
    CountUpdate(s.resQ, i, e, Copy, u);
    CountUpdate(s.resQ, i, e, Done, u);
    CountRemove(s.resQ, i, Original, u);
    CountRemove(s.resQ, i, Copy, u);
    CountRemove(s.resQ, i, Done, u);
  }

  lemma AnswerLinked(s: Ctl, quick: bool, no: nat)
    requires Linked(s, quick) && no in s.issued
    requires var i := Find(s.resQ, no);
             i < |s.resQ| && s.resQ[i].txn == s.issued[no] && !s.resQ[i].copy && s.resQ[i].waiting == 1 && Open(s.issued, s.issued[no]) == {no}
    ensures Linked(Answer(s, quick, no), quick)
  {
    var s' := Answer(s, quick, no);
    var i := Find(s.resQ, no);
    forall e | e in s'.resQ ensures EntryOk(s', quick, e) {
      var j :| 0 <= j < |s'.resQ| && s'.resQ[j] == e;
      assert s.resQ[i] in s.resQ && EntryOk(s, quick, s.resQ[i]);
      if e in s.resQ {
        assert EntryOk(s, quick, e);
      } else {
        assert j == i && e == s.resQ[i].(waiting := 0, ready := true);
        assert forall k :: k in s'.issued ==> k !in Open(s.issued, s.issued[no]) || k == no;
      }
    }
  }

  // Main result: in every run each transaction received is answered once or still owed
  // one answer, never both and never more; and every answer of the device is recognised.
  lemma {:induction false} ExactlyOneResponse(quick: bool, acts: seq<Act>)
    ensures Inv(Run(quick, acts), quick, Arrived(acts))
  {
    hide Inv, Receive, SendResponse, TakeOne, ConvertTxn, Answer;
    if acts == [] {
      NothingYet(quick);
    } else {
      var before, a := acts[..|acts| - 1], acts[|acts| - 1];
      var s, arrived := Run(quick, before), Arrived(before);
      ExactlyOneResponse(quick, before);
      assert arrived + {} == arrived;
      match a {
        case Arrive(t) => if t !in arrived { ReceiveKeeps(s, quick, arrived, t); } else { assert arrived + {t} == arrived; }
        case Respond => SendKeeps(s, quick, arrived);
        case Take(v) => if s.reqQ != [] { TakeKeeps(s, quick, arrived, v); }
        case Convert(i, n, col) => if i < |s.queued| && col < n { ConvertKeeps(s, quick, arrived, i, n, col); }
        case DeviceAnswer(no) => if no in s.issued { AnswerKeeps(s, quick, arrived, no); }
      }
    }
  }

  lemma NothingYet(quick: bool)
    ensures Inv(EMPTY, quick, {})
  {
    forall t: Txn ensures Open(EMPTY.issued, t) == {} {}
  }

  // Once nothing waits, is queued or is open at the device, and responses have just been
  // sent, every transaction received has been answered exactly once.
  lemma AllAnswered(quick: bool, acts: seq<Act>, t: Txn)
    requires var s := Run(quick, acts); s.reqQ == [] && s.queued == [] && s.issued == map[]
    requires t in Arrived(acts)
    ensures multiset(SendResponse(Run(quick, acts)).sent)[t] == 1
  {
    ExactlyOneResponse(quick, acts);
    var s := Run(quick, acts);
    SendKeeps(s, quick, Arrived(acts));
    var s' := SendResponse(s);
    assert Linked(s, quick);
    assert forall e :: e in s.resQ ==> EntryOk(s, quick, e);
    StayCounts(s.resQ, t);
    assert Responses(s', quick, t) == 1 && Stages(s', t) == Count(s'.resQ, Original, t);
    assert Open(s'.issued, t) == {};
  }
}
