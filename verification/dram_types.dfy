// Commands, timing parameters and the rank/group/channel tree of the DRAM model.
module DramTypes {
  import opened Common

  datatype Kind = ACT | READ | READA | WRITE | WRITEA | PRE | REF
  {
    predicate IsCol() { READ? || READA? || WRITE? || WRITEA? }
    predicate IsAuto() { READA? || WRITEA? }
  }

  // A bank command; `bank` is the global bank id, `row` the row of its hashed address.
  datatype Cmd = Cmd(seqNo: nat, kind: Kind, addr: nat, bank: nat, row: nat)

  // The per-kind cycle tables of a bank (last issue, earliest next issue).
  datatype Cycles = Cycles(act: nat, read: nat, reada: nat, write: nat, writea: nat, pre: nat, ref: nat)
  {
    function At(k: Kind): nat {
      match k
      case ACT => act
      case READ => read
      case READA => reada
      case WRITE => write
      case WRITEA => writea
      case PRE => pre
      case REF => ref
    }

    function With(k: Kind, v: nat): Cycles {
      match k
      case ACT => this.(act := v)
      case READ => this.(read := v)
      case READA => this.(reada := v)
      case WRITE => this.(write := v)
      case WRITEA => this.(writea := v)
      case PRE => this.(pre := v)
      case REF => this.(ref := v)
    }
  }

  function ZeroCycles(): Cycles { Cycles(0, 0, 0, 0, 0, 0, 0) }

  datatype Params = Params(
    nRRD_L: u32, nRRD_S: u32, nRCD: u32, nCCD_L: u32, nCCD_S: u32, nCL: u32, nCWL: u32,
    nWR: u32, nWTR: u32, nWTR_L: u32, nWTR_S: u32, nRTW: u32, nEWTR: u32, nERTW: u32,
    nEWTW: u32, nERTR: u32, nRAS: u32, nRTP: u32, nRP: u32, nRFC: u32, nREFI: u32,
    nFAW: u32, nBL: u32)

  // How two banks are related in the hierarchy; the closest relation wins.
  datatype Rel = SameBank | SameGroup | SameRank | SameChannel | Unrelated

  // The tree bank -> bank group -> rank -> (pseudo) channel, the command bus of each
  // (pseudo) channel for requests and for refresh commands, and each rank's bank list.
  datatype Topology = Topology(
    groupOf: seq<nat>, rankOf: seq<nat>, chanOf: seq<nat>,
    busOf: seq<nat>, refBusOf: seq<nat>, buses: nat, rankBanks: seq<seq<nat>>)
  {
    ghost predicate Valid() {
      && (forall b :: 0 <= b < |groupOf| ==> groupOf[b] < |rankOf|)
      && (forall g :: 0 <= g < |rankOf| ==> rankOf[g] < |chanOf|)
      && (forall r :: 0 <= r < |chanOf| ==> chanOf[r] < |busOf|)
      && |refBusOf| == |busOf|
      && (forall c :: 0 <= c < |busOf| ==> busOf[c] < buses && refBusOf[c] < buses)
      && |rankBanks| == |chanOf|
      && (forall r :: 0 <= r < |rankBanks| ==> |rankBanks[r]| > 0)
      && (forall r, i :: 0 <= r < |rankBanks| && 0 <= i < |rankBanks[r]| ==>
            rankBanks[r][i] < |groupOf| && RankOf(rankBanks[r][i]) == r)
      && (forall r, i, j :: 0 <= r < |rankBanks| && 0 <= i < j < |rankBanks[r]| ==>
            rankBanks[r][i] != rankBanks[r][j])
    }

    function Banks(): nat { |groupOf| }

    function Ranks(): nat { |chanOf| }

    function RankOf(b: nat): nat {
      if b < |groupOf| && groupOf[b] < |rankOf| then rankOf[groupOf[b]] else 0
    }

    function ChanOf(b: nat): nat {
      if RankOf(b) < |chanOf| then chanOf[RankOf(b)] else 0
    }

    function BusOf(b: nat): nat {
      if ChanOf(b) < |busOf| then busOf[ChanOf(b)] else 0
    }

    function RefBus(r: nat): nat {
      if r < |chanOf| && chanOf[r] < |refBusOf| then refBusOf[chanOf[r]] else 0
    }

    function Relate(a: nat, b: nat): Rel {
      if a == b then SameBank
      else if a >= |groupOf| || b >= |groupOf| then Unrelated
      else if groupOf[a] == groupOf[b] then SameGroup
      else if RankOf(a) == RankOf(b) then SameRank
      else if ChanOf(a) == ChanOf(b) then SameChannel
      else Unrelated
    }
  }

  // Every bank lies in a rank, and every rank in a channel with its buses.
  lemma BankPlace(t: Topology, b: nat)
    requires t.Valid() && b < t.Banks()
    ensures t.RankOf(b) < t.Ranks() && t.BusOf(b) < t.buses
  {}
}
