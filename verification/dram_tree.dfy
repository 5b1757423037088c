// The tree of channels, ranks, bank groups and banks that the device driver builds from
// five counts, and how the address hasher's bank and rank numbers fit it.
module DramTree {
  import opened Common
  import opened DramTypes
  import opened AddressMap

  // Pseudo channels, ranks and groups in all.
  function AllChannels(g: Geometry): nat { g.channels * g.pchannels }

  function AllRanks(g: Geometry): nat { AllChannels(g) * g.ranks }

  function AllGroups(g: Geometry): nat { AllRanks(g) * g.groups }

  function AllBanks(g: Geometry): nat { AllGroups(g) * g.banks }

  // Every member of a level belongs to one of the level above, in equal consecutive shares.
  function Owners(total: nat, share: nat): (r: seq<nat>)
    requires share > 0
    ensures |r| == total
  {
    seq(total, (k: nat) => Quot(k, share))
  }

  // The banks of a rank, group by group.
  function BanksOf(g: Geometry, r: nat): (q: seq<nat>)
    ensures |q| == RankSize(g)
  {
    seq(RankSize(g), (i: nat) => Times(r, RankSize(g)) + i)
  }

  // Commands use the bus of their channel; refresh commands that of the pseudo channel's
  // number modulo the channels.
  function Tree(g: Geometry): Topology
    requires g.Positive()
  {
    Topology(Owners(AllBanks(g), g.banks), Owners(AllGroups(g), g.groups), Owners(AllRanks(g), g.ranks),
             Owners(AllChannels(g), g.pchannels), seq(AllChannels(g), (c: nat) => Rem(c, g.channels)), g.channels,
             seq(AllRanks(g), (r: nat) => BanksOf(g, r)))
  }

  // ---------------------------------------------------------------- division

  lemma ShareOf(k: nat, share: nat, owners: nat)
    requires share > 0 && k < owners * share
    ensures Quot(k, share) < owners
  {
    Divide(k, share, owners);
  }

  lemma QuotientOf(q: nat, m: nat, n: nat)
    requires m < n
    ensures Quot(q * n + m, n) == q
  {
    QuotUnique(q * n + m, n, q, m);
  }

  lemma RankBanks(g: Geometry)
    ensures AllBanks(g) == Times(AllRanks(g), RankSize(g))
  {
    Regroup(AllRanks(g), g.groups, g.banks);
  }

  lemma Regroup(a: nat, b: nat, c: nat)
    ensures a * b * c == a * (c * b)
  {}

  lemma Product(a: nat, b: nat)
    requires a > 0 && b > 0
    ensures a * b > 0
  {}

  // ---------------------------------------------------------------- the tree is one

  // Bank i of rank r is in the tree, in that rank.
  lemma BankOfRank(g: Geometry, r: nat, i: nat)
    requires g.Positive() && r < AllRanks(g) && i < RankSize(g)
    ensures var b := Times(r, RankSize(g)) + i;
            && b < AllBanks(g) && Quot(b, g.banks) < AllGroups(g) && Quot(Quot(b, g.banks), g.groups) == r
  {
    hide Quot, Rem;
    var b := Times(r, RankSize(g)) + i;
    RankBanks(g);
    SharesApart(r, AllRanks(g), RankSize(g));
    ShareOf(b, g.banks, AllGroups(g));
    Divide(i, g.banks, g.groups);
    var q, m := Quot(i, g.banks), Rem(i, g.banks);
    Spread(r, g.groups, g.banks, q);
    QuotientOf(r * g.groups + q, m, g.banks);
    QuotientOf(r, q, g.groups);
  }

  lemma SharesApart(r: nat, ranks: nat, n: nat)
    requires r < ranks
    ensures Times(r, n) + n <= Times(ranks, n)
  {
    Multiples(r, ranks, n);
  }

  lemma Spread(r: nat, groups: nat, banks: nat, q: nat)
    ensures (r * groups + q) * banks == r * (banks * groups) + q * banks
  {
    Regroup(r, groups, banks);
  }

  // Every tree the driver builds meets what the driver's results ask of a topology.
  lemma TreeIsValid(g: Geometry)
    requires g.Positive()
    ensures Tree(g).Valid()
    ensures Tree(g).Banks() == AllBanks(g) && Tree(g).Ranks() == AllRanks(g) && Tree(g).buses == g.channels
  {
    hide Quot, Rem, Times, AllBanks, AllGroups, AllRanks, AllChannels, RankSize;
    var t := Tree(g);
    forall b | 0 <= b < AllBanks(g) ensures t.groupOf[b] < AllGroups(g) { Levels(g); ShareOf(b, g.banks, AllGroups(g)); }
    forall x | 0 <= x < AllGroups(g) ensures t.rankOf[x] < AllRanks(g) { Levels(g); ShareOf(x, g.groups, AllRanks(g)); }
    forall r | 0 <= r < AllRanks(g) ensures t.chanOf[r] < AllChannels(g) { Levels(g); ShareOf(r, g.ranks, AllChannels(g)); }
    forall c | 0 <= c < AllChannels(g) ensures t.busOf[c] < g.channels && t.refBusOf[c] < g.channels {
      Levels(g);
      ShareOf(c, g.pchannels, g.channels);
      Remainder(c, g.channels);
    }
    SizesPositive(g);
    forall r, i | 0 <= r < AllRanks(g) && 0 <= i < RankSize(g)
      ensures t.rankBanks[r][i] < AllBanks(g) && t.RankOf(t.rankBanks[r][i]) == r
    {
      BankOfRank(g, r, i);
    }
  }

  lemma Levels(g: Geometry)
    ensures AllBanks(g) == AllGroups(g) * g.banks && AllGroups(g) == AllRanks(g) * g.groups
    ensures AllRanks(g) == AllChannels(g) * g.ranks && AllChannels(g) == g.channels * g.pchannels
  {}

  lemma Remainder(c: nat, n: nat)
    requires n > 0
    ensures Rem(c, n) < n
  {}

  // A rank lists exactly its banks.
  lemma RankListsItsBanks(g: Geometry, r: nat, b: nat)
    requires g.Positive() && r < AllRanks(g) && b < AllBanks(g)
    ensures b in Tree(g).rankBanks[r] <==> Tree(g).RankOf(b) == r
  {
    hide Topology.Valid, Times, AllBanks, AllRanks;
    SizesPositive(g);
    RankBanks(g);
    var r', i := Quot(b, RankSize(g)), Rem(b, RankSize(g));
    InRank(b, RankSize(g), AllRanks(g));
    BankOfRank(g, r', i);
    InTree(g, b);
    assert BanksOf(g, r')[i] == b;
    if b in Tree(g).rankBanks[r] {
      var j :| 0 <= j < |BanksOf(g, r)| && BanksOf(g, r)[j] == b;
      BankOfRank(g, r, j);
    }
  }

  lemma InRank(b: nat, size: nat, ranks: nat)
    requires size > 0 && b < Times(ranks, size)
    ensures Quot(b, size) < ranks && Rem(b, size) < size && b == Times(Quot(b, size), size) + Rem(b, size)
  {
    Divide(b, size, ranks);
  }

  lemma InTree(g: Geometry, b: nat)
    requires g.Positive() && b < AllBanks(g) && Quot(b, g.banks) < AllGroups(g)
    ensures Tree(g).RankOf(b) == Quot(Quot(b, g.banks), g.groups)
  {
    hide Quot, Topology.Valid;
  }

  // ---------------------------------------------------------------- the hasher's numbers

  // A decoded address whose fields are within the counts names a bank of the tree, and its
  // rank id and channel are that bank's rank and command bus.
  lemma DecodedPlace(h: Hasher, g: Geometry, a: nat)
    requires g.Positive() && Total(g) <= TWO32
    requires var x := Decode(h, g, a);
             x.chan < g.channels && x.pchan < g.pchannels && x.rank < g.ranks && x.group < g.groups && x.bank < g.banks
    ensures var x := Decode(h, g, a);
            && x.bankId < Tree(g).Banks()
            && x.rankId == Tree(g).RankOf(x.bankId) && x.chan == Tree(g).BusOf(x.bankId)
  {
    hide Decode, Quot, Rem, Topology.Valid;
    var x := Decode(h, g, a);
    var rank := x.rank + (x.pchan + x.chan * g.pchannels) * g.ranks;
    var i := x.bank + x.group * g.banks;
    Nested(x.bank, g.banks, x.group, g.groups);
    Nested(x.pchan, g.pchannels, x.chan, g.channels);
    Nested(x.rank, g.ranks, x.pchan + x.chan * g.pchannels, AllChannels(g));
    assert rank < AllRanks(g) && i < RankSize(g);
    DecodedIds(h, g, a, rank, i);
    BankOfRank(g, rank, i);
    TreeIsValid(g);
    QuotientOf(x.pchan + x.chan * g.pchannels, x.rank, g.ranks);
    QuotientOf(x.chan, x.pchan, g.pchannels);
    TreePlace(g, x.bankId, rank, x.pchan + x.chan * g.pchannels, x.chan);
  }

  lemma Nested(lo: nat, size: nat, hi: nat, count: nat)
    requires lo < size && hi < count
    ensures lo + hi * size < count * size == size * count
  {
    Multiples(hi, count, size);
  }

  lemma TreePlace(g: Geometry, b: nat, r: nat, c: nat, bus: nat)
    requires g.Positive() && Tree(g).Valid() && b < AllBanks(g) && Quot(b, g.banks) < AllGroups(g)
    requires r == Quot(Quot(b, g.banks), g.groups) < AllRanks(g)
    requires c == Quot(r, g.ranks) < AllChannels(g) && bus == Quot(c, g.pchannels)
    ensures Tree(g).RankOf(b) == r && Tree(g).BusOf(b) == bus
  {
    hide Quot, Rem, Topology.Valid;
  }

  // Neither id is cut to 32 bits.
  lemma DecodedIds(h: Hasher, g: Geometry, a: nat, rank: nat, i: nat)
    requires g.Positive() && Total(g) <= TWO32
    requires var x := Decode(h, g, a);
             rank == x.rank + (x.pchan + x.chan * g.pchannels) * g.ranks < AllRanks(g) && i == x.bank + x.group * g.banks < RankSize(g)
    ensures var x := Decode(h, g, a); x.rankId == rank && x.bankId == Times(rank, RankSize(g)) + i
  {
    hide Decode, Total, AllRanks, RankSize;
    var x := Decode(h, g, a);
    SizesPositive(g);
    SharesApart(rank, AllRanks(g), RankSize(g));
    AllTotal(g);
    Product(AllRanks(g), RankSize(g));
    AtMost(AllRanks(g), RankSize(g));
    Flatten(x.rank, x.pchan, x.chan, g.ranks, g.pchannels, RankSize(g));
    DecodedSums(h, g, a);
    Uncut(rank);
    Uncut(Times(rank, RankSize(g)) + i);
  }

  lemma AtMost(a: nat, b: nat)
    requires b > 0
    ensures a <= Times(a, b)
  {}

  lemma Uncut(x: nat)
    requires x < TWO32
    ensures x % TWO32 == x
  {}

  lemma DecodedSums(h: Hasher, g: Geometry, a: nat)
    ensures var x := Decode(h, g, a);
            && x.rankId == (x.rank + x.pchan * g.ranks + x.chan * (g.pchannels * g.ranks)) % TWO32
            && x.bankId == (Times(x.rank, RankSize(g)) + Times(x.pchan, RankSize(g) * g.ranks)
                            + Times(x.chan, RankSize(g) * g.ranks * g.pchannels) + (x.bank + x.group * g.banks)) % TWO32
  {
    hide Get;
  }

  lemma AllTotal(g: Geometry)
    ensures Times(AllRanks(g), RankSize(g)) == Total(g)
  {
    var n, r, p, c := RankSize(g), g.ranks, g.pchannels, g.channels;
    assert (c * p) * r * n == n * r * p * c by {
      assert (c * p) * r * n == c * (p * (r * n));
      assert n * r * p * c == c * (p * (r * n));
    }
  }

  lemma Flatten(rank: nat, pchan: nat, chan: nat, ranks: nat, pchans: nat, n: nat)
    ensures rank + (pchan + chan * pchans) * ranks == rank + pchan * ranks + chan * (pchans * ranks)
    ensures Times(rank + (pchan + chan * pchans) * ranks, n) == Times(rank, n) + Times(pchan, n * ranks) + Times(chan, n * ranks * pchans)
  {
    assert (pchan + chan * pchans) * ranks == pchan * ranks + chan * (pchans * ranks);
    assert (rank + pchan * ranks + chan * (pchans * ranks)) * n == rank * n + pchan * ranks * n + chan * (pchans * ranks) * n;
    assert pchan * ranks * n == pchan * (n * ranks);
    assert chan * (pchans * ranks) * n == chan * (n * ranks * pchans);
  }

  // ---------------------------------------------------------------- the refresh bus

  // Refresh commands occupy the bus of their own channel in every rank, exactly if there is
  // one channel or one pseudo channel in each.
  lemma RefreshBusExactly(g: Geometry)
    requires g.Positive()
    ensures (forall c: nat :: c < AllChannels(g) ==> Tree(g).refBusOf[c] == Tree(g).busOf[c]) <==> g.channels == 1 || g.pchannels == 1
  {
    hide Quot, Rem;
    var t := Tree(g);
    if g.channels > 1 && g.pchannels > 1 {
      Factors(g.channels, g.pchannels);
      One(g.channels);
      One(g.pchannels);
      assert t.refBusOf[1] == 1 && t.busOf[1] == 0;
    } else {
      forall c: nat | c < AllChannels(g) ensures t.refBusOf[c] == t.busOf[c] {
        ShareOf(c, g.pchannels, g.channels);
        if g.channels == 1 { Remainder(c, 1); } else { Alone(c, g.channels); }
      }
    }
  }

  lemma One(n: nat)
    requires n > 1
    ensures Quot(1, n) == 0 && Rem(1, n) == 1
  {}

  lemma Alone(c: nat, n: nat)
    requires c < n
    ensures Quot(c, 1) == c == Rem(c, n)
  {}
}
