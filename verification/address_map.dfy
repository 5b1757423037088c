// The address hasher: a map string is parsed into a bit layout; addresses are decoded
// through it, and a bank id is turned back into an address of that bank.
module AddressMap {
  import opened Common
  import opened AddressBits

  datatype Geometry = Geometry(
    channels: nat, pchannels: nat, ranks: nat, groups: nat, banks: nat, rows: nat, cols: nat, burst: nat)
  {
    predicate Positive() {
      channels > 0 && pchannels > 0 && ranks > 0 && groups > 0 && banks > 0 && rows > 0 && cols > 0 && burst > 0
    }
  }

  // ---------------------------------------------------------------- parsing, from the end backwards

  datatype Field = Field(letter: char, size: nat)

  // Stuck: the scan runs off the front without a letter and removes nothing.
  datatype Parse = Match(field: Field, rest: string) | Fatal | Stuck

  predicate IsDigit(ch: char) { '0' <= ch <= '9' }

  predicate IsAlpha(ch: char) { 'a' <= ch <= 'z' || 'A' <= ch <= 'Z' }

  predicate Known(ch: char) { ch in {'r', 'l', 'R', 'B', 'b', 'C', 'h', 'c', 'x'} }

  function Number(digits: string): nat
    requires forall i :: 0 <= i < |digits| ==> IsDigit(digits[i])
  {
    if digits == [] then 0
    else
      var last := digits[|digits| - 1];
      assert IsDigit(last);
      10 * Number(digits[..|digits| - 1]) + (last as nat - '0' as nat)
  }

  // The first n characters are still to be read; `digits` were read after them.
  function Scan(s: string, n: nat, digits: string, colon: bool): Parse
    requires n <= |s| && forall i :: 0 <= i < |digits| ==> IsDigit(digits[i])
    decreases n
  {
    if n == 0 then Stuck
    else
      var ch := s[n - 1];
      if IsDigit(ch) then (if colon then Fatal else Scan(s, n - 1, [ch] + digits, colon))
      else if IsAlpha(ch) then
        (if !Known(ch) then Fatal
         else if !colon then Match(Field(ch, 1), s[..n - 1])
         else if digits == [] || Number(digits) >= 0x8000_0000 then Fatal
         else Match(Field(ch, Number(digits)), s[..n - 1]))
      else if ch == ':' then Scan(s, n - 1, digits, true)
      else Fatal
  }

  lemma {:induction false} ScanShrinks(s: string, n: nat, digits: string, colon: bool)
    requires n <= |s| && forall i :: 0 <= i < |digits| ==> IsDigit(digits[i])
    ensures var p := Scan(s, n, digits, colon);
            p.Match? ==> |p.rest| < n && p.rest == s[..|p.rest|] && s[|p.rest|] == p.field.letter && Known(p.field.letter)
    decreases n
  {
    if n > 0 {
      var ch := s[n - 1];
      if IsDigit(ch) && !colon { ScanShrinks(s, n - 1, [ch] + digits, colon); }
      if ch == ':' { ScanShrinks(s, n - 1, digits, true); }
    }
  }

  // Colons and then digits: no letter to attach the size to.
  predicate OnlySize(s: string) {
    && (forall i :: 0 <= i < |s| ==> s[i] == ':' || IsDigit(s[i]))
    && (forall i, j :: 0 <= i < j < |s| && s[j] == ':' ==> s[i] == ':')
  }

  // Exactly when the parser makes no progress.
  lemma {:induction false} StuckExactly(s: string, n: nat, digits: string, colon: bool)
    requires n <= |s| && forall i :: 0 <= i < |digits| ==> IsDigit(digits[i])
    ensures Scan(s, n, digits, colon).Stuck? <==>
            OnlySize(s[..n]) && (colon ==> forall i :: 0 <= i < n ==> s[i] == ':')
    decreases n
  {
    if n > 0 {
      var ch := s[n - 1];
      var t, u := s[..n], s[..n - 1];
      assert t == u + [ch];
      if IsDigit(ch) {
        if !colon { StuckExactly(s, n - 1, [ch] + digits, colon); }
      } else if ch == ':' {
        StuckExactly(s, n - 1, digits, true);
        if OnlySize(t) { assert forall i :: 0 <= i < n - 1 ==> t[i] == ':' by { assert t[n - 1] == ':'; } }
      } else {
        assert t[n - 1] == ch;
      }
    }
  }

  // Underscores and newlines are taken out before parsing.
  function Strip(s: string): (r: string)
    ensures '_' !in r && '\n' !in r && |r| <= |s|
  {
    if s == [] then []
    else if s[0] == '_' || s[0] == '\n' then Strip(s[1..])
    else [s[0]] + Strip(s[1..])
  }

  lemma {:induction false} StripSplits(a: string, b: string)
    ensures Strip(a + b) == Strip(a) + Strip(b)
  {
    if a == [] {
      assert a + b == b;
    } else {
      assert (a + b)[1..] == a[1..] + b;
      StripSplits(a[1..], b);
    }
  }

  // Fields in parsing order. Hang: the loop over the map string never ends.
  datatype Parsed = Fields(fields: seq<Field>) | Error | Hang

  function ParseAll(s: string): Parsed
    decreases |s|
  {
    if s == [] then Fields([])
    else
      ScanShrinks(s, |s|, [], false);
      match Scan(s, |s|, [], false)
      case Fatal => Error
      case Stuck => Hang
      case Match(f, rest) =>
        match ParseAll(rest)
        case Fields(fs) => Fields([f] + fs)
        case other => other
  }

  // A map that is accepted begins with a known letter and has known letters only.
  lemma {:induction false} ParseLetters(s: string)
    ensures ParseAll(s).Fields? ==> s == [] || Known(s[0])
    ensures ParseAll(s).Fields? ==> forall i :: 0 <= i < |ParseAll(s).fields| ==> Known(ParseAll(s).fields[i].letter)
    decreases |s|
  {
    if s != [] {
      ScanShrinks(s, |s|, [], false);
      var p := Scan(s, |s|, [], false);
      if p.Match? { ParseLetters(p.rest); }
    }
  }

  function Behind(p: string, r: Parse): Parse { if r.Match? then Match(r.field, p + r.rest) else r }

  // What stands in front of the part scanned does not matter, unless the scan runs into it.
  lemma {:induction false} ScanIsLocal(p: string, u: string, n: nat, digits: string, colon: bool)
    requires n <= |u| && forall i :: 0 <= i < |digits| ==> IsDigit(digits[i])
    ensures var inner, outer := Scan(u, n, digits, colon), Scan(p + u, |p| + n, digits, colon);
            && (!inner.Stuck? ==> outer == Behind(p, inner))
            && (outer.Match? && |outer.rest| >= |p| ==> inner.Match?)
    decreases n
  {
    if n == 0 {
      ScanShrinks(p + u, |p|, digits, colon);
    } else {
      var ch := u[n - 1];
      assert (p + u)[|p| + n - 1] == ch && (p + u)[..|p| + n - 1] == p + u[..n - 1];
      if IsDigit(ch) && !colon { ScanIsLocal(p, u, n - 1, [ch] + digits, colon); }
      if ch == ':' { ScanIsLocal(p, u, n - 1, digits, true); }
    }
  }

  // Colons and digits without a letter, in front of nothing or of an acceptable map.
  ghost predicate LooseSize(s: string, k: nat) {
    0 < k <= |s| && OnlySize(s[..k]) && (k == |s| || (Known(s[k]) && ParseAll(s[k..]).Fields?))
  }

  lemma {:induction false} LooseSizeHangs(p: string, u: string)
    requires p != [] && OnlySize(p) && ParseAll(u).Fields?
    ensures ParseAll(p + u).Hang?
    decreases |u|
  {
    if u == [] {
      assert p + u == p;
      StuckExactly(p, |p|, [], false);
      assert p[..|p|] == p;
    } else {
      ScanShrinks(u, |u|, [], false);
      ScanIsLocal(p, u, |u|, [], false);
      LooseSizeHangs(p, Scan(u, |u|, [], false).rest);
    }
  }

  lemma {:induction false} HangHasLooseSize(s: string) returns (k: nat)
    requires ParseAll(s).Hang?
    ensures LooseSize(s, k)
    decreases |s|
  {
    hide Scan, OnlySize, Known;
    ScanShrinks(s, |s|, [], false);
    var r := Scan(s, |s|, [], false);
    if r.Stuck? {
      StuckExactly(s, |s|, [], false);
      assert s[..|s|] == s;
      k := |s|;
    } else {
      k := HangHasLooseSize(r.rest);
      var p, u := s[..k], s[k..];
      assert s == p + u && p == r.rest[..k];
      ScanIsLocal(p, u, |u|, [], false);
      var inner := Scan(u, |u|, [], false);
      assert r == Behind(p, inner);
      assert inner.rest == r.rest[k..];
      ScanShrinks(u, |u|, [], false);
      if k == |r.rest| { assert inner.rest == []; } else { assert s[k] == r.rest[k]; }
      assert ParseAll(inner.rest).Fields?;
      assert ParseAll(u).Fields?;
      assert Known(s[k]) && OnlySize(s[..k]);
    }
  }

  // Main result: building the layout never ends exactly for such maps.
  lemma HangsExactly(s: string)
    ensures ParseAll(s).Hang? <==> exists k: nat :: LooseSize(s, k)
  {
    if ParseAll(s).Hang? { var k := HangHasLooseSize(s); }
    if k: nat :| LooseSize(s, k) {
      assert s == s[..k] + s[k..];
      if k == |s| { assert s[k..] == []; }
      LooseSizeHangs(s[..k], s[k..]);
    }
  }

  // Such as a size alone; one whose colon is on the wrong side is reported instead.
  lemma HangExample()
    ensures ParseAll(":3").Hang? && ParseAll("3:b").Error?
  {
    LooseSizeHangs(":3", []);
    assert ":3" + [] == ":3";
    assert Scan("3:b", 3, [], false) == Match(Field('b', 1), "3:") by { assert "3:b"[..2] == "3:"; }
    assert Scan("3:", 2, [], false) == Scan("3:", 1, [], true) == Fatal;
  }

  // ---------------------------------------------------------------- the layout

  type Layout = map<char, seq<nat>>

  function Pos(m: Layout, c: char): seq<nat> { if c in m then m[c] else [] }

  function Range(from: nat, n: nat): (r: seq<nat>)
    ensures |r| == n
  {
    seq(n, (i: nat) => from + i)
  }

  // The next `size` address bits go to the letter.
  function AddField(m: Layout, at: nat, f: Field): Layout {
    if f.size == 0 then m else m[f.letter := Pos(m, f.letter) + Range(at, f.size)]
  }

  function Place(m: Layout, at: nat, fs: seq<Field>): (Layout, nat)
    decreases |fs|
  {
    if fs == [] then (m, at) else Place(AddField(m, at, fs[0]), at + fs[0].size, fs[1..])
  }

  function Sizes(sizes: map<char, nat>, fs: seq<Field>): map<char, nat>
    decreases |fs|
  {
    if fs == [] then sizes
    else
      var before := if fs[0].letter in sizes then sizes[fs[0].letter] else 0;
      Sizes(sizes[fs[0].letter := before + fs[0].size], fs[1..])
  }

  // Every bit below `at` belongs to exactly one letter, and each letter's bits ascend.
  ghost predicate Covers(m: Layout, at: nat) {
    && (forall c :: c in m ==> Increasing(m[c]) && forall i :: 0 <= i < |m[c]| ==> m[c][i] < at)
    && (forall c, d, k :: c in m && d in m && k in m[c] && k in m[d] ==> c == d)
    && (forall k: nat :: k < at ==> Owned(m, k))
  }

  ghost predicate Owned(m: Layout, k: nat) { exists c :: c in m && k in m[c] }

  lemma AddFieldCovers(m: Layout, at: nat, f: Field)
    requires Covers(m, at)
    ensures Covers(AddField(m, at, f), at + f.size)
  {
    var m' := AddField(m, at, f);
    if f.size > 0 {
      var had, added := Pos(m, f.letter), Range(at, f.size);
      assert m'[f.letter] == had + added;
      forall c, d, k | c in m' && d in m' && k in m'[c] && k in m'[d] ensures c == d {
        if c == f.letter && d != f.letter { RangeMembers(m, at, f, k); }
        if d == f.letter && c != f.letter { RangeMembers(m, at, f, k); }
      }
      forall k: nat | k < at + f.size ensures Owned(m', k) {
        if k < at {
          assert Owned(m, k);
          var c :| c in m && k in m[c];
          assert k in m'[c];
        } else {
          assert added[k - at] == k && k in m'[f.letter];
        }
      }
    }
  }

  lemma RangeMembers(m: Layout, at: nat, f: Field, k: nat)
    requires f.size > 0 && k in AddField(m, at, f)[f.letter]
    ensures k in Pos(m, f.letter) || k >= at
  {}

  lemma {:induction false} PlaceCovers(m: Layout, at: nat, fs: seq<Field>)
    requires Covers(m, at)
    ensures Covers(Place(m, at, fs).0, Place(m, at, fs).1)
    decreases |fs|
  {
    if fs != [] {
      AddFieldCovers(m, at, fs[0]);
      PlaceCovers(AddField(m, at, fs[0]), at + fs[0].size, fs[1..]);
    }
  }

  // A letter has as many positions as its size; only letters of the map have any.
  lemma {:induction false} PlaceSizes(m: Layout, at: nat, sizes: map<char, nat>, fs: seq<Field>, c: char)
    requires if c in sizes then |Pos(m, c)| == sizes[c] else Pos(m, c) == []
    ensures var m' := Place(m, at, fs).0;
            var s' := Sizes(sizes, fs);
            if c in s' then |Pos(m', c)| == s'[c] else Pos(m', c) == []
    decreases |fs|
  {
    if fs != [] {
      var before := if fs[0].letter in sizes then sizes[fs[0].letter] else 0;
      PlaceSizes(AddField(m, at, fs[0]), at + fs[0].size, sizes[fs[0].letter := before + fs[0].size], fs[1..], c);
    }
  }

  // ---------------------------------------------------------------- simple maps

  // Rounded down, as the truncation of the floating-point logarithm does.
  function Log2(n: nat): (r: nat)
    requires n > 0
    ensures Pow2(r) <= n
    decreases n
  {
    if n == 1 then 0 else 1 + Log2(n / 2)
  }

  function ConfiguredBits(g: Geometry, c: char): nat
    requires g.Positive()
  {
    if c == 'C' then Log2(g.channels) else if c == 'c' then Log2(g.pchannels)
    else if c == 'R' then Log2(g.ranks) else if c == 'B' then Log2(g.groups)
    else if c == 'b' then Log2(g.banks) else if c == 'r' then Log2(g.rows)
    else if c == 'l' then Log2(g.cols) else if c == 'h' then Log2(g.burst) else 0
  }

  predicate AllSimple(m: Layout) { forall c :: c in m ==> |m[c]| <= 1 }

  function Configured(g: Geometry, fs: seq<Field>): seq<Field>
    requires g.Positive()
  {
    seq(|fs|, i requires 0 <= i < |fs| => Field(fs[i].letter, ConfiguredBits(g, fs[i].letter)))
  }

  // In a simple map each letter stands for as many bits as the configuration needs.
  function SimpleSizes(g: Geometry, fs: seq<Field>): map<char, nat>
    requires g.Positive()
  {
    if fs == [] then map[] else SimpleSizes(g, fs[..|fs| - 1])[fs[|fs| - 1].letter := ConfiguredBits(g, fs[|fs| - 1].letter)]
  }

  lemma {:induction false} SimpleCounts(m: Layout, at: nat, g: Geometry, fs: seq<Field>, c: char)
    requires g.Positive()
    ensures var m' := Place(m, at, Configured(g, fs)).0;
            && |Pos(m', c)| >= |Pos(m, c)|
            && (Mentions(fs, c) ==> |Pos(m', c)| >= ConfiguredBits(g, c))
    decreases |fs|
  {
    if fs != [] {
      var conf := Configured(g, fs);
      assert conf[1..] == Configured(g, fs[1..]);
      var m1 := AddField(m, at, conf[0]);
      SimpleCounts(m1, at + conf[0].size, g, fs[1..], c);
      if Mentions(fs, c) && fs[0].letter != c {
        var i :| 0 <= i < |fs| && fs[i].letter == c;
        assert fs[1..][i - 1].letter == c;
      }
    }
  }

  predicate Mentions(fs: seq<Field>, c: char) { exists i :: 0 <= i < |fs| && fs[i].letter == c }

  lemma {:induction false} SimpleSizesKeys(g: Geometry, fs: seq<Field>, c: char)
    requires g.Positive()
    ensures c in SimpleSizes(g, fs) ==> SimpleSizes(g, fs)[c] == ConfiguredBits(g, c)
    ensures c in SimpleSizes(g, fs) <==> Mentions(fs, c)
  {
    if fs != [] {
      var fs0 := fs[..|fs| - 1];
      SimpleSizesKeys(g, fs0, c);
      assert fs == fs0 + [fs[|fs| - 1]];
      assert Mentions(fs0, c) ==> Mentions(fs, c) by {
        if Mentions(fs0, c) {
          var i :| 0 <= i < |fs0| && fs0[i].letter == c;
          assert fs[i].letter == c;
        }
      }
      if Mentions(fs, c) && fs[|fs| - 1].letter != c {
        var i :| 0 <= i < |fs| && fs[i].letter == c;
        assert fs0[i].letter == c;
      }
    }
  }

  // ---------------------------------------------------------------- building

  datatype Hasher = Hasher(pos: Layout, bits: nat)

  // A letter that is missing must not be needed, and one that is there must be wide enough.
  predicate Fits(sizes: map<char, nat>, c: char, count: nat) {
    if c in sizes then Pow2(sizes[c]) >= count else count <= 1
  }

  predicate Accepts(sizes: map<char, nat>, g: Geometry) {
    && Fits(sizes, 'C', g.channels) && Fits(sizes, 'c', g.pchannels) && Fits(sizes, 'R', g.ranks)
    && Fits(sizes, 'B', g.groups) && Fits(sizes, 'b', g.banks) && Fits(sizes, 'r', g.rows) && Fits(sizes, 'l', g.cols)
    && (if 'h' in sizes then Pow2(sizes['h']) == g.burst else g.burst <= 1)
  }

  function Build(s: string, g: Geometry): Option<Hasher>
    requires g.Positive()
  {
    match ParseAll(Strip(s))
    case Fields(fs) =>
      var (m, n) := Place(map[], 0, fs);
      if AllSimple(m) then
        var (m', n') := Place(map[], 0, Configured(g, fs));
        if Accepts(SimpleSizes(g, fs), g) then Some(Hasher(m', n')) else None
      else if Accepts(Sizes(map[], fs), g) then Some(Hasher(m, n))
      else None
    case _ => None
  }

  // What an accepted map guarantees.
  ghost predicate Good(h: Hasher, g: Geometry) {
    && Covers(h.pos, h.bits)
    && g.channels <= Pow2(|Pos(h.pos, 'C')|) && g.pchannels <= Pow2(|Pos(h.pos, 'c')|)
    && g.ranks <= Pow2(|Pos(h.pos, 'R')|) && g.groups <= Pow2(|Pos(h.pos, 'B')|) && g.banks <= Pow2(|Pos(h.pos, 'b')|)
  }

  lemma WideEnough(m: Layout, sizes: map<char, nat>, c: char, count: nat)
    requires Fits(sizes, c, count) && (c in sizes ==> |Pos(m, c)| >= sizes[c])
    ensures count <= Pow2(|Pos(m, c)|)
  {
    if c in sizes { Pow2Grows(sizes[c], |Pos(m, c)|); }
  }

  lemma SimpleWide(g: Geometry, fs: seq<Field>, c: char)
    requires g.Positive()
    ensures var m := Place(map[], 0, Configured(g, fs)).0;
            var sizes := SimpleSizes(g, fs);
            c in sizes ==> |Pos(m, c)| >= sizes[c]
  {
    SimpleCounts(map[], 0, g, fs, c);
    SimpleSizesKeys(g, fs, c);
  }

  lemma BuildIsGood(s: string, g: Geometry)
    requires g.Positive() && Build(s, g).Some?
    ensures Good(Build(s, g).value, g)
  {
    hide Covers, Pos, Place, Sizes, SimpleSizes, Configured, Fits, ParseAll;
    var fs := ParseAll(Strip(s)).fields;
    EmptyCovers();
    PlaceCovers(map[], 0, fs);
    PlaceCovers(map[], 0, Configured(g, fs));
    var m := Place(map[], 0, fs).0;
    var simple := AllSimple(m);
    var sizes := if simple then SimpleSizes(g, fs) else Sizes(map[], fs);
    var m' := if simple then Place(map[], 0, Configured(g, fs)).0 else m;
    forall c ensures c in sizes ==> |Pos(m', c)| >= sizes[c] {
      EmptyPos(c);
      if simple { SimpleWide(g, fs, c); } else { PlaceSizes(map[], 0, map[], fs, c); }
    }
    WideEnough(m', sizes, 'C', g.channels);
    WideEnough(m', sizes, 'c', g.pchannels);
    WideEnough(m', sizes, 'R', g.ranks);
    WideEnough(m', sizes, 'B', g.groups);
    WideEnough(m', sizes, 'b', g.banks);
  }

  lemma EmptyCovers()
    ensures Covers(map[], 0)
  {}

  lemma EmptyPos(c: char)
    ensures Pos(map[], c) == []
  {}

  // ---------------------------------------------------------------- decoding and encoding

  datatype Hashed = Hashed(
    chan: nat, pchan: nat, rank: nat, group: nat, bank: nat, row: nat, col: nat, line: nat, bankId: nat, rankId: nat)

  // Fields are 32-bit unsigned.
  function Get(h: Hasher, a: nat, c: char): nat { Gather(a, Pos(h.pos, c)) % TWO32 }

  // Banks per rank, pseudo channel and channel.
  function RankSize(g: Geometry): nat { g.banks * g.groups }

  function PchanSize(g: Geometry): nat { RankSize(g) * g.ranks }

  function ChanSize(g: Geometry): nat { PchanSize(g) * g.pchannels }

  function Total(g: Geometry): nat { ChanSize(g) * g.channels }

  function Times(a: nat, b: nat): nat { a * b }

  function Decode(h: Hasher, g: Geometry, a: nat): Hashed {
    var chan, pchan, rank, group, bank := Get(h, a, 'C'), Get(h, a, 'c'), Get(h, a, 'R'), Get(h, a, 'B'), Get(h, a, 'b');
    Hashed(chan, pchan, rank, group, bank, Get(h, a, 'r'), Get(h, a, 'l'), Get(h, a, 'h'),
           (bank + Times(group, g.banks) + Times(rank, RankSize(g)) + Times(pchan, PchanSize(g)) + Times(chan, ChanSize(g))) % TWO32,
           (rank + Times(pchan, g.ranks) + Times(chan, g.pchannels * g.ranks)) % TWO32)
  }

  // A bank id split into channel, pseudo channel, rank, group and bank.
  datatype Digits = Digits(chan: nat, pchan: nat, rank: nat, group: nat, bank: nat)

  function Quot(x: nat, n: nat): nat
    requires n > 0
  {
    x / n
  }

  function Rem(x: nat, n: nat): nat
    requires n > 0
  {
    x % n
  }

  function Split(g: Geometry, id: nat): Digits
    requires g.Positive()
  {
    SizesPositive(g);
    var r4 := Rem(id, ChanSize(g));
    var r3 := Rem(r4, PchanSize(g));
    var r2 := Rem(r3, RankSize(g));
    Digits(Quot(id, ChanSize(g)), Quot(r4, PchanSize(g)), Quot(r3, RankSize(g)), Quot(r2, g.banks), Rem(r2, g.banks))
  }

  lemma SizesPositive(g: Geometry)
    requires g.Positive()
    ensures RankSize(g) > 0 && PchanSize(g) > 0 && ChanSize(g) > 0
  {
    Factors(g.banks, g.groups);
    Factors(RankSize(g), g.ranks);
    Factors(PchanSize(g), g.pchannels);
  }

  lemma Factors(a: nat, b: nat)
    requires a > 0 && b > 0
    ensures a <= a * b && b <= a * b
  {}

  function Encode(h: Hasher, g: Geometry, id: nat): nat
    requires g.Positive()
  {
    var d := Split(g, id);
    Scatter(d.bank, Pos(h.pos, 'b')) + Scatter(d.group, Pos(h.pos, 'B')) + Scatter(d.rank, Pos(h.pos, 'R'))
    + Scatter(d.pchan, Pos(h.pos, 'c')) + Scatter(d.chan, Pos(h.pos, 'C'))
  }

  lemma Divide(x: nat, n: nat, m: nat)
    requires n > 0 && x < n * m
    ensures Quot(x, n) < m && Rem(x, n) < n && x == Times(Quot(x, n), n) + Rem(x, n)
  {
    if x / n >= m {
      Monotone(m, x / n, n);
      assert false;
    }
  }

  lemma Monotone(a: nat, b: nat, n: nat)
    requires a <= b
    ensures n * a <= n * b
  {}

  lemma QuotUnique(x: nat, n: nat, q: nat, r: nat)
    requires n > 0 && x == Times(q, n) + r && r < n
    ensures q == Quot(x, n) && r == Rem(x, n)
  {
    var q' := x / n;
    if q < q' {
      Multiples(q, q', n);
      assert false;
    } else if q' < q {
      Multiples(q', q, n);
      assert false;
    }
  }

  // Mixed-radix digits are in range and add up.
  lemma SplitFacts(g: Geometry, id: nat)
    requires g.Positive() && id < Total(g)
    ensures var d := Split(g, id);
            && d.chan < g.channels && d.pchan < g.pchannels && d.rank < g.ranks && d.group < g.groups && d.bank < g.banks
            && id == d.bank + Times(d.group, g.banks) + Times(d.rank, RankSize(g)) + Times(d.pchan, PchanSize(g)) + Times(d.chan, ChanSize(g))
  {
    hide Quot, Rem, Times;
    SizesPositive(g);
    var r4 := Rem(id, ChanSize(g));
    var r3 := Rem(r4, PchanSize(g));
    var r2 := Rem(r3, RankSize(g));
    Divide(id, ChanSize(g), g.channels);
    Divide(r4, PchanSize(g), g.pchannels);
    Divide(r3, RankSize(g), g.ranks);
    Divide(r2, g.banks, g.groups);
  }

  // ---------------------------------------------------------------- the round trip

  // The bits of the address so far are clear at a letter whose field is still to be added.
  ghost predicate Clear(a: nat, pos: seq<nat>) { forall i :: 0 <= i < |pos| ==> Bit(a, pos[i]) == 0 }

  ghost predicate Disjoint(p: seq<nat>, q: seq<nat>) { forall k :: k in p ==> k !in q }

  // Adding a field sets it.
  lemma AddScatter(a: nat, v: nat, pos: seq<nat>)
    requires Increasing(pos) && Clear(a, pos) && v < Pow2(|pos|)
    ensures Gather(a + Scatter(v, pos), pos) == v
  {
    hide Bit, Scatter;
    var a' := a + Scatter(v, pos);
    forall i | 0 <= i < |pos| ensures Bit(a', pos[i]) == Bit(v, i) { ScatterAt(a, v, pos, i); }
    GatherIs(a', v, pos);
  }

  // It keeps a disjoint field, and leaves it clear if it was.
  lemma AddElsewhere(a: nat, v: nat, pos: seq<nat>, q: seq<nat>)
    requires Increasing(pos) && Clear(a, pos) && Disjoint(q, pos)
    ensures Gather(a + Scatter(v, pos), q) == Gather(a, q)
    ensures Clear(a, q) ==> Clear(a + Scatter(v, pos), q)
  {
    hide Bit, Scatter;
    var a' := a + Scatter(v, pos);
    forall i | 0 <= i < |q| ensures Bit(a', q[i]) == Bit(a, q[i]) {
      assert q[i] in q;
      ScatterElse(a, v, pos, q[i]);
    }
    SameGather(a, a', q);
  }

  lemma {:induction false} SameGather(a: nat, b: nat, q: seq<nat>)
    requires forall i :: 0 <= i < |q| ==> Bit(a, q[i]) == Bit(b, q[i])
    ensures Gather(a, q) == Gather(b, q)
    decreases |q|
  {
    if q != [] {
      assert Bit(a, q[0]) == Bit(b, q[0]);
      forall i | 0 <= i < |q[1..]| ensures Bit(a, q[1..][i]) == Bit(b, q[1..][i]) { assert q[1..][i] == q[i + 1]; }
      SameGather(a, b, q[1..]);
    }
  }

  lemma LettersApart(h: Hasher, c: char, d: char)
    requires Covers(h.pos, h.bits) && c != d
    ensures Disjoint(Pos(h.pos, c), Pos(h.pos, d)) && Increasing(Pos(h.pos, c))
  {}

  lemma ZeroClear(pos: seq<nat>)
    ensures Clear(0, pos)
  {
    forall i | 0 <= i < |pos| ensures Bit(0, pos[i]) == 0 { ZeroBits(pos[i]); }
  }

  // Main result: decoding the address made for a bank id gives that bank id, for every
  // accepted map, whatever other letters it has.
  lemma BankRoundTrip(h: Hasher, g: Geometry, id: nat)
    requires Good(h, g) && g.Positive() && id < Total(g) <= TWO32
    ensures Decode(h, g, Encode(h, g, id)).bankId == id
    ensures var x := Decode(h, g, Encode(h, g, id));
            Digits(x.chan, x.pchan, x.rank, x.group, x.bank) == Split(g, id)
  {
    hide Split, Covers, Decode, Times, Encode, Total, RankSize, PchanSize, ChanSize, Gather;
    SplitFacts(g, id);
    EncodedFields(h, g, id);
    DigitsSmall(g, Split(g, id));
    DecodeOf(h, g, Encode(h, g, id), Split(g, id));
  }

  lemma BuiltRoundTrip(s: string, g: Geometry, id: nat)
    requires g.Positive() && Build(s, g).Some? && id < Total(g) <= TWO32
    ensures var h := Build(s, g).value; Decode(h, g, Encode(h, g, id)).bankId == id
  {
    hide Build, Good, Decode, Encode, Total;
    BuildIsGood(s, g);
    BankRoundTrip(Build(s, g).value, g, id);
  }

  lemma DecodeOf(h: Hasher, g: Geometry, a: nat, d: Digits)
    requires Gather(a, Pos(h.pos, 'C')) == d.chan < TWO32 && Gather(a, Pos(h.pos, 'c')) == d.pchan < TWO32
    requires Gather(a, Pos(h.pos, 'R')) == d.rank < TWO32 && Gather(a, Pos(h.pos, 'B')) == d.group < TWO32
    requires Gather(a, Pos(h.pos, 'b')) == d.bank < TWO32
    ensures var x := Decode(h, g, a);
            && Digits(x.chan, x.pchan, x.rank, x.group, x.bank) == d
            && x.bankId == (d.bank + Times(d.group, g.banks) + Times(d.rank, RankSize(g)) + Times(d.pchan, PchanSize(g))
                            + Times(d.chan, ChanSize(g))) % TWO32
  {
    hide Gather, Pos, Times, RankSize, PchanSize, ChanSize;
  }

  // No digit is cut to 32 bits.
  lemma DigitsSmall(g: Geometry, d: Digits)
    requires g.Positive() && Total(g) <= TWO32
    requires d.chan < g.channels && d.pchan < g.pchannels && d.rank < g.ranks && d.group < g.groups && d.bank < g.banks
    ensures d.chan < TWO32 && d.pchan < TWO32 && d.rank < TWO32 && d.group < TWO32 && d.bank < TWO32
  {
    SizesPositive(g);
    Factors(ChanSize(g), g.channels);
    Factors(PchanSize(g), g.pchannels);
    Factors(RankSize(g), g.ranks);
    Factors(g.banks, g.groups);
  }

  lemma EncodedFields(h: Hasher, g: Geometry, id: nat)
    requires Good(h, g) && g.Positive() && id < Total(g)
    ensures var a := Encode(h, g, id);
            var d := Split(g, id);
            && Gather(a, Pos(h.pos, 'C')) == d.chan && Gather(a, Pos(h.pos, 'c')) == d.pchan
            && Gather(a, Pos(h.pos, 'R')) == d.rank && Gather(a, Pos(h.pos, 'B')) == d.group && Gather(a, Pos(h.pos, 'b')) == d.bank
  {
    hide Gather, Scatter, Pow2, Split, Covers, Disjoint, Clear, Increasing, Pos, Times, Total, RankSize, PchanSize, ChanSize;
    var d := Split(g, id);
    SplitFacts(g, id);
    var a0 := 0;
    var a1 := a0 + Scatter(d.bank, Pos(h.pos, 'b'));
    var a2 := a1 + Scatter(d.group, Pos(h.pos, 'B'));
    var a3 := a2 + Scatter(d.rank, Pos(h.pos, 'R'));
    var a4 := a3 + Scatter(d.pchan, Pos(h.pos, 'c'));
    forall c ensures Clear(0, Pos(h.pos, c)) { ZeroClear(Pos(h.pos, c)); }
    AddLetter(h, a0, d.bank, 'b', {}, {'B', 'R', 'c', 'C'});
    AddLetter(h, a1, d.group, 'B', {'b'}, {'R', 'c', 'C'});
    AddLetter(h, a2, d.rank, 'R', {'b', 'B'}, {'c', 'C'});
    AddLetter(h, a3, d.pchan, 'c', {'b', 'B', 'R'}, {'C'});
    AddLetter(h, a4, d.chan, 'C', {'b', 'B', 'R', 'c'}, {});
  }

  // Adding the field of one letter: those done keep their value, those to come stay clear.
  lemma AddLetter(h: Hasher, a: nat, v: nat, c: char, done: set<char>, todo: set<char>)
    requires Covers(h.pos, h.bits) && c !in done && c !in todo
    requires Clear(a, Pos(h.pos, c)) && v < Pow2(|Pos(h.pos, c)|) && forall e :: e in todo ==> Clear(a, Pos(h.pos, e))
    ensures var a' := a + Scatter(v, Pos(h.pos, c));
            && Gather(a', Pos(h.pos, c)) == v
            && (forall e :: e in done ==> Gather(a', Pos(h.pos, e)) == Gather(a, Pos(h.pos, e)))
            && (forall e :: e in todo ==> Clear(a', Pos(h.pos, e)))
  {
    hide Gather, Scatter, Pow2, Covers, Disjoint, Clear, Increasing, Pos;
    LettersApart(h, c, if c == 'b' then 'B' else 'b');
    AddScatter(a, v, Pos(h.pos, c));
    forall e | e in done || e in todo
      ensures Gather(a + Scatter(v, Pos(h.pos, c)), Pos(h.pos, e)) == Gather(a, Pos(h.pos, e))
      ensures Clear(a, Pos(h.pos, e)) ==> Clear(a + Scatter(v, Pos(h.pos, c)), Pos(h.pos, e))
    {
      LettersApart(h, e, c);
      AddElsewhere(a, v, Pos(h.pos, c), Pos(h.pos, e));
    }
  }

  // Main result: without don't-care bits and with fields of at most 32 bits, addresses of
  // the map's width that decode alike are equal.
  lemma DecodeInjective(h: Hasher, g: Geometry, a: nat, b: nat)
    requires Covers(h.pos, h.bits) && a < Pow2(h.bits) && b < Pow2(h.bits)
    requires forall c :: c in h.pos ==> Known(c) && c != 'x' && |h.pos[c]| <= 32
    requires Decode(h, g, a) == Decode(h, g, b)
    ensures a == b
  {
    hide Gather, Bit, Pow2, Known;
    forall k: nat | k < h.bits ensures Bit(a, k) == Bit(b, k) {
      assert Owned(h.pos, k);
      var c :| c in h.pos && k in h.pos[c];
      SameField(h, g, a, b, c);
      var i :| 0 <= i < |h.pos[c]| && h.pos[c][i] == k;
      GatherBits(a, b, h.pos[c], i);
    }
    BitsDetermine(a, b, h.bits);
  }

  lemma {:induction false} PlaceKeys(m: Layout, at: nat, fs: seq<Field>, c: char)
    requires c in Place(m, at, fs).0
    ensures c in m || Mentions(fs, c)
    decreases |fs|
  {
    if fs != [] {
      PlaceKeys(AddField(m, at, fs[0]), at + fs[0].size, fs[1..], c);
      if Mentions(fs[1..], c) {
        var i :| 0 <= i < |fs[1..]| && fs[1..][i].letter == c;
        assert fs[i + 1].letter == c;
      } else {
        assert fs[0].letter == c || c in m;
      }
    }
  }

  // For a map as built, only the don't-care letter and the 32-bit fields stand in the way.
  lemma BuiltDecodeInjective(s: string, g: Geometry, a: nat, b: nat)
    requires g.Positive() && Build(s, g).Some?
    requires var h := Build(s, g).value;
             && a < Pow2(h.bits) && b < Pow2(h.bits) && Decode(h, g, a) == Decode(h, g, b)
             && 'x' !in h.pos && forall c :: c in h.pos ==> |h.pos[c]| <= 32
    ensures a == b
  {
    hide Pow2, Place, Configured, SimpleSizes, Sizes, ParseAll, Decode, Covers, Known, Accepts;
    BuildIsGood(s, g);
    ParseLetters(Strip(s));
    var h := Build(s, g).value;
    var fs := ParseAll(Strip(s)).fields;
    forall c | c in h.pos ensures Known(c) { BuiltLetters(g, fs, h.pos, c); }
    DecodeInjective(h, g, a, b);
  }

  lemma BuiltLetters(g: Geometry, fs: seq<Field>, m: Layout, c: char)
    requires g.Positive() && c in m && (m == Place(map[], 0, fs).0 || m == Place(map[], 0, Configured(g, fs)).0)
    requires forall i :: 0 <= i < |fs| ==> Known(fs[i].letter)
    ensures Known(c)
  {
    hide Known;
    if m == Place(map[], 0, fs).0 {
      PlaceKeys(map[], 0, fs, c);
    } else {
      PlaceKeys(map[], 0, Configured(g, fs), c);
    }
  }

  lemma SameField(h: Hasher, g: Geometry, a: nat, b: nat, c: char)
    requires c in h.pos && Known(c) && c != 'x' && |h.pos[c]| <= 32 && Decode(h, g, a) == Decode(h, g, b)
    ensures Gather(a, h.pos[c]) == Gather(b, h.pos[c])
  {
    hide Gather, Pow2, Decode, Known;
    GatherBound(a, h.pos[c]);
    GatherBound(b, h.pos[c]);
    Pow2Grows(|h.pos[c]|, 32);
    Pow32();
    SameGet(h, g, a, b, c);
  }

  lemma SameGet(h: Hasher, g: Geometry, a: nat, b: nat, c: char)
    requires Known(c) && c != 'x' && Decode(h, g, a) == Decode(h, g, b)
    ensures Get(h, a, c) == Get(h, b, c)
  {
    hide Get, Times;
  }

  lemma Pow32()
    ensures Pow2(32) == TWO32
  {
    assert Pow2(8) == 256;
    assert Pow2(16) == 0x1_0000;
    assert Pow2(24) == 0x100_0000;
  }

  // A don't-care bit makes two addresses decode alike.
  lemma DontCare(h: Hasher, g: Geometry, k: nat)
    requires Covers(h.pos, h.bits) && 'x' in h.pos && k in h.pos['x']
    ensures Decode(h, g, 0) == Decode(h, g, Pow2(k))
  {
    hide Gather, Pow2, Bit, Times, Get;
    forall c | c != 'x' ensures Get(h, Pow2(k), c) == Get(h, 0, c) { DontCareField(h, k, c); }
  }

  lemma DontCareField(h: Hasher, k: nat, c: char)
    requires Covers(h.pos, h.bits) && 'x' in h.pos && k in h.pos['x'] && c != 'x'
    ensures Get(h, Pow2(k), c) == Get(h, 0, c)
  {
    hide Gather, Pow2, Bit;
    ZeroBits(k);
    var pos := Pos(h.pos, c);
    forall i | 0 <= i < |pos| ensures Bit(0, pos[i]) == Bit(Pow2(k), pos[i]) {
      AddPower(0, k, pos[i]);
      assert pos[i] in pos;
    }
    SameGather(0, Pow2(k), pos);
  }
}
