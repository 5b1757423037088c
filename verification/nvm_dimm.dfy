// The NVM controller's issue logic as an object.
module NvmDimm {
  import M = Messier

  class Dimm {
    const p: M.Params
    const rankBusy: array<nat>
    const bankBusy: array<nat>
    var cycles: nat
    var currReads: int
    var currWrites: int
    var readsComplete: map<nat, nat>
    var writesComplete: map<nat, nat>
    ghost var ops: seq<M.Op>

    ghost function Model(): M.Dimm
      reads this, rankBusy, bankBusy
    {
      M.Dimm(cycles, currReads, currWrites, readsComplete, writesComplete, rankBusy[..], bankBusy[..], ops)
    }

    constructor (p: M.Params, ranks: nat, banks: nat)
      ensures this.p == p && fresh(rankBusy) && fresh(bankBusy) && rankBusy != bankBusy && Model() == M.Initial(ranks, banks)
    {
      this.p := p;
      rankBusy := new nat[ranks](_ => 0);
      bankBusy := new nat[banks](_ => 0);
      cycles, currReads, currWrites, readsComplete, writesComplete, ops := 0, 0, 0, map[], map[], [];
    }

    // The start of a clock: what completes now is retired.
    method Advance()
      modifies this
      ensures Model() == M.Advance(old(Model()))
    {
      cycles := cycles + 1;
      if cycles in readsComplete { currReads := currReads - readsComplete[cycles]; }
      readsComplete := readsComplete - {cycles};
      if cycles in writesComplete { currWrites := currWrites - writesComplete[cycles]; }
      writesComplete := writesComplete - {cycles};
    }

    method IsFree(rank: nat, bank: nat) returns (ok: bool)
      ensures ok == M.Free(Model(), rank, bank)
    {
      return rank < rankBusy.Length && bank < bankBusy.Length && rankBusy[rank] < cycles && bankBusy[bank] < cycles;
    }

    method Deliver(rank: nat, bank: nat) returns (ok: bool)
      requires rankBusy != bankBusy
      modifies this`ops, rankBusy, bankBusy
      ensures Model() == M.DeliverRead(p, old(Model()), rank, bank) && ok == M.Free(old(Model()), rank, bank)
    {
      ok := IsFree(rank, bank);
      if ok {
        var until := cycles + p.tCMD + p.tCL + p.tBURST;
        ops := ops + [M.Op(M.Deliver, cycles, cycles, rank, until, bank, until)];
        rankBusy[rank] := until;
        bankBusy[bank] := until;
      }
    }

    method TryFlush(rank: nat, bank: nat) returns (ok: bool)
      requires rankBusy != bankBusy
      modifies this`ops, this`currWrites, this`writesComplete, rankBusy, bankBusy
      ensures Model() == M.FlushWrite(p, old(Model()), rank, bank)
      ensures var s := old(Model());
              ok <==> M.Free(s, rank, bank) && p.maxWrites > s.currWrites && M.Weight(p, s) <= p.maxWeight - p.writeWeight
    {
      ok := IsFree(rank, bank);
      if ok && p.maxWrites > currWrites && M.Load(p.writeWeight, currWrites) + M.Load(p.readWeight, currReads) <= p.maxWeight - p.writeWeight {
        var done := cycles + p.tCMD + p.tCLW + p.tBURST;
        ops := ops + [M.Op(M.Write, cycles, done, rank, cycles + p.tCMD + p.tBURST, bank, done)];
        rankBusy[rank] := cycles + p.tCMD + p.tBURST;
        bankBusy[bank] := done;
        currWrites := currWrites + 1;
        writesComplete := writesComplete[done := (if done in writesComplete then writesComplete[done] else 0) + 1];
      } else {
        ok := false;
      }
    }

    method TryRead(rank: nat, bank: nat) returns (ok: bool)
      requires rankBusy != bankBusy
      modifies this`ops, this`currReads, this`readsComplete, rankBusy, bankBusy
      ensures Model() == M.IssueRead(p, old(Model()), rank, bank)
      ensures ok <==> M.Free(old(Model()), rank, bank) && M.Weight(p, old(Model())) <= p.maxWeight - p.readWeight
    {
      ok := IsFree(rank, bank);
      if ok && M.Load(p.writeWeight, currWrites) + M.Load(p.readWeight, currReads) <= p.maxWeight - p.readWeight {
        var done := cycles + p.tCMD + p.tRCD;
        ops := ops + [M.Op(M.Activate, cycles, done, rank, cycles + p.tCMD, bank, done)];
        rankBusy[rank] := cycles + p.tCMD;
        bankBusy[bank] := done;
        currReads := currReads + 1;
        readsComplete := readsComplete[done := (if done in readsComplete then readsComplete[done] else 0) + 1];
      } else {
        ok := false;
      }
    }
  }
}
