// The controller's request and response queues as an object.
module ResponsesObject {
  import R = Responses

  class ResponseQueues {
    const quick: bool
    var reqQ: seq<R.Txn>
    var resQ: seq<R.Entry>
    var queued: seq<R.Txn>
    var issued: map<nat, R.Txn>
    var next: nat
    var sent: seq<R.Txn>
    var lost: bool

    ghost function Model(): R.Ctl
      reads this
    {
      R.Ctl(reqQ, resQ, queued, issued, next, sent, lost)
    }

    constructor (quick: bool)
      ensures this.quick == quick && Model() == R.EMPTY
    {
      this.quick := quick;
      reqQ, resQ, queued, issued, next, sent, lost := [], [], [], map[], 0, [], false;
    }

    method HandleIncoming(t: R.Txn)
      modifies this`reqQ, this`resQ
      ensures Model() == R.Receive(old(Model()), t)
    {
      reqQ := reqQ + [t];
      resQ := resQ + [R.Entry(t, false, false, 0, {})];
    }

    // Ready entries leave in queue order.
    method SendResponse()
      modifies this`resQ, this`sent
      ensures Model() == R.SendResponse(old(Model()))
    {
      var kept: seq<R.Entry>, i := [], 0;
      while i < |resQ|
        invariant 0 <= i <= |resQ| && resQ == old(resQ)
        invariant sent + R.ReadyTxns(resQ[i..]) == old(sent) + R.ReadyTxns(resQ)
        invariant kept + R.NotReady(resQ[i..]) == R.NotReady(resQ)
      {
        assert resQ[i..] == [resQ[i]] + resQ[i + 1..];
        if resQ[i].ready { sent := sent + [resQ[i].txn]; } else { kept := kept + [resQ[i]]; }
        i := i + 1;
      }
      assert sent + [] == sent && kept + [] == kept && resQ[i..] == [];
      resQ := kept;
    }

    // The head of the waiting requests, given what the scheduler says of it.
    method TakeRequest(v: R.Verdict) returns (again: bool)
      requires reqQ != []
      modifies this`reqQ, this`resQ, this`queued
      ensures Model() == R.TakeOne(old(Model()), quick, v)
      ensures !again ==> Model() == old(Model())
    {
      var t := reqQ[0];
      if v.Hit? && quick && !t.write {
        SetReady(t);
        reqQ := reqQ[1..];
        return true;
      }
      if v.Full? { return false; }
      if quick && t.write { resQ := resQ + [R.Entry(t, true, true, 0, {})]; }
      queued := queued + [t];
      reqQ := reqQ[1..];
      return true;
    }

    method SetReady(t: R.Txn)
      modifies this`resQ
      ensures resQ == R.MarkReady(old(resQ), t)
    {
      var i := 0;
      while i < |resQ|
        invariant 0 <= i <= |resQ| == |old(resQ)|
        invariant forall j :: 0 <= j < |resQ| ==> resQ[j] == if j < i then R.MarkReady(old(resQ), t)[j] else old(resQ)[j]
      {
        if resQ[i].txn == t && !resQ[i].copy { resQ := resQ[i := resQ[i].(ready := true)]; }
        i := i + 1;
      }
    }

    // An answer of the device: the first entry with the command number has one less to wait for.
    method HandleDeviceAnswer(no: nat)
      requires no in issued
      modifies this`resQ, this`issued, this`lost
      ensures Model() == R.Answer(old(Model()), quick, no)
    {
      issued := issued - {no};
      var i := 0;
      while i < |resQ| && no !in resQ[i].cmds
        invariant 0 <= i <= |resQ| && forall j :: 0 <= j < i ==> no !in resQ[j].cmds
      {
        i := i + 1;
      }
      if i == |resQ| {
        lost := true;
        return;
      }
      var e := resQ[i];
      var left := if e.waiting == 0 then 0xFFFF_FFFF else e.waiting - 1;
      if left > 0 {
        resQ := resQ[i := e.(waiting := left)];
      } else if quick && e.txn.write {
        resQ := resQ[..i] + resQ[i + 1..];
      } else {
        resQ := resQ[i := e.(waiting := 0, ready := true)];
      }
    }
  }
}
