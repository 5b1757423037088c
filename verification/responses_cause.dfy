// What each response is for: in normal mode only an answer of the device makes one due; in
// quick mode a write is answered when it is taken, a read also when it hits a queued write.
module ResponseCauses {
  import opened Responses

  // The responses for t that one step makes due.
  function MadeDue(s: Ctl, quick: bool, a: Act, t: Txn): nat {
    match a
    case DeviceAnswer(no) => if no in s.issued && s.issued[no] == t && !(quick && t.write) then 1 else 0
    case Take(v) => if s.reqQ != [] && s.reqQ[0] == t && quick && (if t.write then !v.Full? else v.Hit?) then 1 else 0
    case _ => 0
  }

  function AllDue(quick: bool, acts: seq<Act>, t: Txn): nat {
    if acts == [] then 0
    else
      var before := acts[..|acts| - 1];
      AllDue(quick, before, t) + MadeDue(Run(quick, before), quick, acts[|acts| - 1], t)
  }

  // The responses for t sent, or ready to be sent.
  function SentOrReady(s: Ctl, t: Txn): nat { multiset(s.sent)[t] + Count(s.resQ, Copy, t) + Count(s.resQ, Done, t) }

  lemma ReceiveMakesNone(s: Ctl, t: Txn, u: Txn)
    ensures SentOrReady(Receive(s, t), u) == SentOrReady(s, u)
  {
    hide Count;
    var e := Entry(t, false, false, 0, {});
    CountAppend(s.resQ, [e], Copy, u);
    CountAppend(s.resQ, [e], Done, u);
    CountOne(e, Copy, u);
    CountOne(e, Done, u);
  }

  lemma SendKeepsAll(s: Ctl, quick: bool, u: Txn)
    requires Linked(s, quick)
    ensures SentOrReady(SendResponse(s), u) == SentOrReady(s, u)
  {
    hide Count, NotReady, ReadyTxns;
    assert forall e :: e in s.resQ ==> EntryOk(s, quick, e);
    SentCounts(s.resQ, u);
    StayCounts(s.resQ, u);
    assert multiset(s.sent + ReadyTxns(s.resQ))[u] == multiset(s.sent)[u] + multiset(ReadyTxns(s.resQ))[u];
  }

  lemma TakeMakes(s: Ctl, quick: bool, arrived: set<Txn>, v: Verdict, u: Txn)
    requires Inv(s, quick, arrived) && s.reqQ != []
    ensures SentOrReady(TakeOne(s, quick, v), u) == SentOrReady(s, u) + MadeDue(s, quick, Take(v), u)
  {
    hide Count, MarkReady, Linked;
    var t := s.reqQ[0];
    HeadStage(s, quick, arrived);
    MarkCounts(s.resQ, t, u);
    CopyCounts(s.resQ, Entry(t, true, true, 0, {}), u);
  }

  lemma ConvertMakesNone(s: Ctl, i: nat, n: nat, col: nat, u: Txn)
    requires i < |s.queued| && col < n
    ensures SentOrReady(ConvertTxn(s, i, n, col), u) == SentOrReady(s, u)
  {
    hide Count, Record, Block;
    RecordCounts(s.resQ, s.queued[i], Block(s.next, n), Copy, u);
    RecordCounts(s.resQ, s.queued[i], Block(s.next, n), Done, u);
  }

  lemma AnswerMakes(s: Ctl, quick: bool, arrived: set<Txn>, no: nat, u: Txn)
    requires Inv(s, quick, arrived) && no in s.issued
    ensures SentOrReady(Answer(s, quick, no), u) == SentOrReady(s, u) + MadeDue(s, quick, DeviceAnswer(no), u)
  {
    hide Count, Counted, Linked;
    AnswerFinds(s, quick, arrived, no);
    AnswerCounts(s, quick, no, u);
    assert Answer(s, quick, no).sent == s.sent;
  }

  // Main result: in every run the responses sent or ready for a transaction are exactly
  // those its causes have made due: none comes early, none is held back.
  lemma {:induction false} AnsweredForCause(quick: bool, acts: seq<Act>, t: Txn)
    ensures SentOrReady(Run(quick, acts), t) == AllDue(quick, acts, t)
  {
    hide Inv, Receive, SendResponse, TakeOne, ConvertTxn, Answer, SentOrReady;
    if acts == [] {
      NothingDue(t);
    } else {
      var before, a := acts[..|acts| - 1], acts[|acts| - 1];
      var s, arrived := Run(quick, before), Arrived(before);
      AnsweredForCause(quick, before, t);
      ExactlyOneResponse(quick, before);
      match a {
        case Arrive(x) => if x !in arrived { ReceiveMakesNone(s, x, t); }
        case Respond => SentFromInv(s, quick, arrived, t);
        case Take(v) => if s.reqQ != [] { TakeMakes(s, quick, arrived, v, t); }
        case Convert(i, n, col) => if i < |s.queued| && col < n { ConvertMakesNone(s, i, n, col, t); }
        case DeviceAnswer(no) => if no in s.issued { AnswerMakes(s, quick, arrived, no, t); }
      }
    }
  }

  lemma SentFromInv(s: Ctl, quick: bool, arrived: set<Txn>, t: Txn)
    requires Inv(s, quick, arrived)
    ensures SentOrReady(SendResponse(s), t) == SentOrReady(s, t)
  {
    hide Counted, Linked, SentOrReady, SendResponse;
    SendKeepsAll(s, quick, t);
  }

  lemma NothingDue(t: Txn)
    ensures SentOrReady(EMPTY, t) == 0
  {}

  // Responses leave in the order of the queue, and the entries that stay keep theirs.
  lemma LeaveInOrder(p: seq<Entry>, q: seq<Entry>)
    ensures ReadyTxns(p + q) == ReadyTxns(p) + ReadyTxns(q) && NotReady(p + q) == NotReady(p) + NotReady(q)
  {
    hide ReadyTxns, NotReady;
    ReadyJoin(p, q);
    NotReadyJoin(p, q);
  }

  lemma {:induction false} ReadyJoin(p: seq<Entry>, q: seq<Entry>)
    ensures ReadyTxns(p + q) == ReadyTxns(p) + ReadyTxns(q)
  {
    hide NotReady;
    if p == [] {
      assert p + q == q;
    } else {
      ReadyJoin(p[1..], q);
      assert (p + q)[1..] == p[1..] + q;
      Join(if p[0].ready then [p[0].txn] else [], ReadyTxns(p[1..]), ReadyTxns(q));
    }
  }

  lemma {:induction false} NotReadyJoin(p: seq<Entry>, q: seq<Entry>)
    ensures NotReady(p + q) == NotReady(p) + NotReady(q)
  {
    hide ReadyTxns;
    if p == [] {
      assert p + q == q;
    } else {
      NotReadyJoin(p[1..], q);
      assert (p + q)[1..] == p[1..] + q;
      Join(if p[0].ready then [] else [p[0]], NotReady(p[1..]), NotReady(q));
    }
  }

  lemma Join<T>(a: seq<T>, b: seq<T>, c: seq<T>)
    ensures (a + b) + c == a + (b + c)
  {}

  lemma OneLeaves(e: Entry)
    ensures ReadyTxns([e]) == (if e.ready then [e.txn] else []) && NotReady([e]) == (if e.ready then [] else [e])
  {
    assert [e][1..] == [] && ReadyTxns([]) == [] && NotReady([]) == [];
  }
}
