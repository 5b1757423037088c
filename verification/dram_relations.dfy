// How two banks are related, told by their addresses: the relation that decides the spacing
// of their commands is the one of their decoded channel, rank, group and bank numbers.
module DramRelations {
  import opened Common
  import opened DramTypes
  import opened AddressMap
  import opened DramTree

  // The numbers of the levels above a bank.
  function PchanNo(g: Geometry, d: Digits): nat { d.chan * g.pchannels + d.pchan }

  function RankNo(g: Geometry, d: Digits): nat { PchanNo(g, d) * g.ranks + d.rank }

  function GroupNo(g: Geometry, d: Digits): nat { RankNo(g, d) * g.groups + d.group }

  // The bank id written from the top digit down.
  lemma Horner(g: Geometry, d: Digits)
    ensures d.bank + Times(d.group, g.banks) + Times(d.rank, RankSize(g)) + Times(d.pchan, PchanSize(g)) + Times(d.chan, ChanSize(g))
            == GroupNo(g, d) * g.banks + d.bank
  {
    Regroup(PchanNo(g, d) * g.ranks, g.groups, g.banks);
    Level(RankNo(g, d), d.group, g.groups, g.banks);
    Level(PchanNo(g, d), d.rank, g.ranks, RankSize(g));
    Level(d.chan, d.pchan, g.pchannels, PchanSize(g));
    assert GroupNo(g, d) * g.banks == RankNo(g, d) * RankSize(g) + d.group * g.banks;
    assert RankNo(g, d) * RankSize(g) == PchanNo(g, d) * PchanSize(g) + d.rank * RankSize(g);
    assert PchanNo(g, d) * PchanSize(g) == d.chan * ChanSize(g) + d.pchan * PchanSize(g);
  }

  // One level unfolded.
  lemma Level(hi: nat, digit: nat, size: nat, n: nat)
    ensures (hi * size + digit) * n == hi * (n * size) + digit * n
  {
    Regroup(hi, size, n);
  }

  // A number and its digit determine each other's quotient.
  lemma DigitsApart(p: nat, d: nat, q: nat, e: nat, size: nat)
    requires d < size && e < size
    ensures p * size + d == q * size + e <==> p == q && d == e
  {
    QuotientOf(p, d, size);
    QuotientOf(q, e, size);
  }

  // Where a bank is in the tree.
  lemma PlaceByDigits(g: Geometry, id: nat)
    requires g.Positive() && id < Total(g)
    ensures var d, t := Split(g, id), Tree(g);
            && d.chan < g.channels && d.pchan < g.pchannels && d.rank < g.ranks && d.group < g.groups && d.bank < g.banks
            && id < t.Banks() && t.groupOf[id] == GroupNo(g, d) && id == GroupNo(g, d) * g.banks + d.bank
            && t.RankOf(id) == RankNo(g, d) && t.ChanOf(id) == PchanNo(g, d)
  {
    hide Split, Quot, Rem, Times, GroupNo, RankNo, PchanNo;
    var d := Split(g, id);
    SplitFacts(g, id);
    Horner(g, d);
    AllTotal(g);
    RankBanks(g);
    assert id == GroupNo(g, d) * g.banks + d.bank;
    Nested3(g, d);
    QuotientOf(GroupNo(g, d), d.bank, g.banks);
    QuotientOf(RankNo(g, d), d.group, g.groups);
    QuotientOf(PchanNo(g, d), d.rank, g.ranks);
    PlaceInTree(g, id, GroupNo(g, d), RankNo(g, d), PchanNo(g, d));
  }

  lemma Nested3(g: Geometry, d: Digits)
    requires d.chan < g.channels && d.pchan < g.pchannels && d.rank < g.ranks && d.group < g.groups
    ensures PchanNo(g, d) < AllChannels(g) && RankNo(g, d) < AllRanks(g) && GroupNo(g, d) < AllGroups(g)
    ensures RankNo(g, d) == PchanNo(g, d) * g.ranks + d.rank && GroupNo(g, d) == RankNo(g, d) * g.groups + d.group
  {
    Nested(d.pchan, g.pchannels, d.chan, g.channels);
    Nested(d.rank, g.ranks, PchanNo(g, d), AllChannels(g));
    Nested(d.group, g.groups, RankNo(g, d), AllRanks(g));
  }

  lemma PlaceInTree(g: Geometry, id: nat, group: nat, rank: nat, pchan: nat)
    requires g.Positive() && id < AllBanks(g) && group < AllGroups(g) && rank < AllRanks(g)
    requires group == Quot(id, g.banks) && rank == Quot(group, g.groups) && pchan == Quot(rank, g.ranks)
    ensures var t := Tree(g); id < t.Banks() && t.groupOf[id] == group && t.RankOf(id) == rank && t.ChanOf(id) == pchan
  {
    hide Quot, Rem;
  }

  // Main result: two banks are in one group exactly if all but their bank digits agree, in
  // one rank if channel, pseudo channel and rank agree, in one channel if channel and
  // pseudo channel do; the closest relation counts.
  lemma RelationByDigits(g: Geometry, a: nat, b: nat)
    requires g.Positive() && a < Total(g) && b < Total(g)
    ensures var x, y := Split(g, a), Split(g, b);
            var pchans := x.chan == y.chan && x.pchan == y.pchan;
            var ranks := pchans && x.rank == y.rank;
            var groups := ranks && x.group == y.group;
            Tree(g).Relate(a, b) ==
              if groups && x.bank == y.bank then SameBank
              else if groups then SameGroup else if ranks then SameRank else if pchans then SameChannel else Unrelated
  {
    hide Split, Tree, GroupNo, RankNo, PchanNo;
    var x, y := Split(g, a), Split(g, b);
    PlaceByDigits(g, a);
    PlaceByDigits(g, b);
    Unfolded(g, x);
    Unfolded(g, y);
    DigitsApart(x.chan, x.pchan, y.chan, y.pchan, g.pchannels);
    DigitsApart(PchanNo(g, x), x.rank, PchanNo(g, y), y.rank, g.ranks);
    DigitsApart(RankNo(g, x), x.group, RankNo(g, y), y.group, g.groups);
    DigitsApart(GroupNo(g, x), x.bank, GroupNo(g, y), y.bank, g.banks);
  }

  lemma Unfolded(g: Geometry, d: Digits)
    ensures PchanNo(g, d) == d.chan * g.pchannels + d.pchan && RankNo(g, d) == PchanNo(g, d) * g.ranks + d.rank
    ensures GroupNo(g, d) == RankNo(g, d) * g.groups + d.group
  {}
}
