// What a map string means, stated without the parser and the layout: the fields written
// are the fields read, each gets the bits it stands over, and every value put into an
// address comes out of it again.
module AddressFields {
  import opened Common
  import opened AddressBits
  import opened AddressMap

  // ---------------------------------------------------------------- every field, there and back

  // A value for each letter, the don't-care bits included.
  datatype Values = Values(
    chan: nat, pchan: nat, rank: nat, group: nat, bank: nat, row: nat, col: nat, line: nat, unused: nat)

  // The address with each value at its letter's positions.
  function EncodeAll(h: Hasher, v: Values): nat {
    Scatter(v.chan, Pos(h.pos, 'C')) + Scatter(v.pchan, Pos(h.pos, 'c')) + Scatter(v.rank, Pos(h.pos, 'R'))
    + Scatter(v.group, Pos(h.pos, 'B')) + Scatter(v.bank, Pos(h.pos, 'b')) + Scatter(v.row, Pos(h.pos, 'r'))
    + Scatter(v.col, Pos(h.pos, 'l')) + Scatter(v.line, Pos(h.pos, 'h')) + Scatter(v.unused, Pos(h.pos, 'x'))
  }

  predicate Within(h: Hasher, c: char, v: nat) { v < Pow2(|Pos(h.pos, c)|) }

  // Each value fits the bits of its letter.
  predicate AllWithin(h: Hasher, v: Values) {
    && Within(h, 'C', v.chan) && Within(h, 'c', v.pchan) && Within(h, 'R', v.rank) && Within(h, 'B', v.group)
    && Within(h, 'b', v.bank) && Within(h, 'r', v.row) && Within(h, 'l', v.col) && Within(h, 'h', v.line)
    && Within(h, 'x', v.unused)
  }

  lemma GatherAll(h: Hasher, v: Values)
    requires Covers(h.pos, h.bits) && AllWithin(h, v)
    ensures var a := EncodeAll(h, v);
            && Gather(a, Pos(h.pos, 'C')) == v.chan && Gather(a, Pos(h.pos, 'c')) == v.pchan
            && Gather(a, Pos(h.pos, 'R')) == v.rank && Gather(a, Pos(h.pos, 'B')) == v.group
            && Gather(a, Pos(h.pos, 'b')) == v.bank && Gather(a, Pos(h.pos, 'r')) == v.row
            && Gather(a, Pos(h.pos, 'l')) == v.col && Gather(a, Pos(h.pos, 'h')) == v.line
  {
    hide Gather, Scatter, Pow2, Covers, Disjoint, Clear, Increasing, Pos;
    var a1 := Scatter(v.chan, Pos(h.pos, 'C'));
    var a2 := a1 + Scatter(v.pchan, Pos(h.pos, 'c'));
    var a3 := a2 + Scatter(v.rank, Pos(h.pos, 'R'));
    var a4 := a3 + Scatter(v.group, Pos(h.pos, 'B'));
    var a5 := a4 + Scatter(v.bank, Pos(h.pos, 'b'));
    var a6 := a5 + Scatter(v.row, Pos(h.pos, 'r'));
    var a7 := a6 + Scatter(v.col, Pos(h.pos, 'l'));
    var a8 := a7 + Scatter(v.line, Pos(h.pos, 'h'));
    forall c ensures Clear(0, Pos(h.pos, c)) { ZeroClear(Pos(h.pos, c)); }
    AddLetter(h, 0, v.chan, 'C', {}, {'c', 'R', 'B', 'b', 'r', 'l', 'h', 'x'});
    AddLetter(h, a1, v.pchan, 'c', {'C'}, {'R', 'B', 'b', 'r', 'l', 'h', 'x'});
    AddLetter(h, a2, v.rank, 'R', {'C', 'c'}, {'B', 'b', 'r', 'l', 'h', 'x'});
    AddLetter(h, a3, v.group, 'B', {'C', 'c', 'R'}, {'b', 'r', 'l', 'h', 'x'});
    AddLetter(h, a4, v.bank, 'b', {'C', 'c', 'R', 'B'}, {'r', 'l', 'h', 'x'});
    AddLetter(h, a5, v.row, 'r', {'C', 'c', 'R', 'B', 'b'}, {'l', 'h', 'x'});
    AddLetter(h, a6, v.col, 'l', {'C', 'c', 'R', 'B', 'b', 'r'}, {'h', 'x'});
    AddLetter(h, a7, v.line, 'h', {'C', 'c', 'R', 'B', 'b', 'r', 'l'}, {'x'});
    AddLetter(h, a8, v.unused, 'x', {'C', 'c', 'R', 'B', 'b', 'r', 'l', 'h'}, {});
  }

  // Main result: whatever the layout and the don't-care bits, every value that fits its
  // letter is read back as itself, cut to 32 bits, under its own name.
  lemma FieldsRoundTrip(h: Hasher, g: Geometry, v: Values)
    requires Covers(h.pos, h.bits) && AllWithin(h, v)
    ensures var x := Decode(h, g, EncodeAll(h, v));
            && x.chan == v.chan % TWO32 && x.pchan == v.pchan % TWO32 && x.rank == v.rank % TWO32
            && x.group == v.group % TWO32 && x.bank == v.bank % TWO32 && x.row == v.row % TWO32
            && x.col == v.col % TWO32 && x.line == v.line % TWO32
  {
    hide Gather, Scatter, Covers, Pos, Times, EncodeAll, AllWithin, RankSize, PchanSize, ChanSize;
    GatherAll(h, v);
  }

  // So for every map that is accepted.
  lemma BuiltFieldsRoundTrip(s: string, g: Geometry, v: Values)
    requires g.Positive() && Build(s, g).Some? && AllWithin(Build(s, g).value, v)
    ensures var x := Decode(Build(s, g).value, g, EncodeAll(Build(s, g).value, v));
            && x.chan == v.chan % TWO32 && x.pchan == v.pchan % TWO32 && x.rank == v.rank % TWO32
            && x.group == v.group % TWO32 && x.bank == v.bank % TWO32 && x.row == v.row % TWO32
            && x.col == v.col % TWO32 && x.line == v.line % TWO32
  {
    hide Build, Decode, EncodeAll, AllWithin, Covers;
    BuildIsGood(s, g);
    FieldsRoundTrip(Build(s, g).value, g, v);
  }

  // ---------------------------------------------------------------- which bits a field gets

  function SizesBefore(fs: seq<Field>, i: nat): nat
    requires i <= |fs|
  {
    if i == 0 then 0 else SizesBefore(fs, i - 1) + fs[i - 1].size
  }

  lemma {:induction false} SizesBeforeTail(fs: seq<Field>, i: nat)
    requires 0 < i <= |fs|
    ensures SizesBefore(fs, i) == fs[0].size + SizesBefore(fs[1..], i - 1)
    decreases i
  {
    if i > 1 { SizesBeforeTail(fs, i - 1); }
  }

  lemma {:induction false} PlaceGrows(m: Layout, at: nat, fs: seq<Field>, c: char, k: nat)
    requires k in Pos(m, c)
    ensures k in Pos(Place(m, at, fs).0, c)
    decreases |fs|
  {
    if fs != [] { PlaceGrows(AddField(m, at, fs[0]), at + fs[0].size, fs[1..], c, k); }
  }

  // Main result: bit j of field i stands behind all bits of the fields before it, and
  // belongs to the field's letter.
  lemma {:induction false} BitOfField(m: Layout, at: nat, fs: seq<Field>, i: nat, j: nat)
    requires i < |fs| && j < fs[i].size
    ensures at + SizesBefore(fs, i) + j in Pos(Place(m, at, fs).0, fs[i].letter)
    decreases |fs|
  {
    var m1 := AddField(m, at, fs[0]);
    if i == 0 {
      assert Range(at, fs[0].size)[j] == at + j;
      assert m1[fs[0].letter][|Pos(m, fs[0].letter)| + j] == at + j;
      PlaceGrows(m1, at + fs[0].size, fs[1..], fs[0].letter, at + j);
    } else {
      SizesBeforeTail(fs, i);
      BitOfField(m1, at + fs[0].size, fs[1..], i - 1, j);
    }
  }

  // ---------------------------------------------------------------- writing a map string

  function Decimal(n: nat): (r: string)
    ensures r != [] && forall i :: 0 <= i < |r| ==> IsDigit(r[i])
  {
    (if n < 10 then [] else Decimal(n / 10)) + [('0' as nat + n % 10) as char]
  }

  lemma {:induction false} DecimalReads(n: nat)
    ensures Number(Decimal(n)) == n
    decreases n
  {
    var r := Decimal(n);
    var front := if n < 10 then [] else Decimal(n / 10);
    assert r[..|r| - 1] == front;
    if n >= 10 { DecimalReads(n / 10); }
  }

  // A letter with its size; a single bit needs none.
  function WriteField(f: Field): string {
    if f.size == 1 then [f.letter] else [f.letter] + ":" + Decimal(f.size)
  }

  // The last field of the string is the one over the lowest bits.
  function WriteMap(fs: seq<Field>): string {
    if fs == [] then [] else WriteMap(fs[1..]) + WriteField(fs[0])
  }

  lemma {:induction false} ReadDigits(s: string, k: nat, n: nat, digits: string)
    requires k <= n <= |s| && (forall i :: k <= i < n ==> IsDigit(s[i])) && forall i :: 0 <= i < |digits| ==> IsDigit(digits[i])
    ensures Scan(s, n, digits, false) == Scan(s, k, s[k..n] + digits, false)
    decreases n
  {
    if k < n {
      ReadDigits(s, k, n - 1, [s[n - 1]] + digits);
      assert s[k..n - 1] + ([s[n - 1]] + digits) == s[k..n] + digits;
    } else {
      assert s[k..n] + digits == digits;
    }
  }

  // The letter ends the scan; behind a colon it takes the digits read.
  lemma ReadLetter(p: string, tail: string, letter: char, digits: string, colon: bool)
    requires Known(letter) && (forall i :: 0 <= i < |digits| ==> IsDigit(digits[i]))
    requires colon ==> digits != [] && Number(digits) < 0x8000_0000
    ensures Scan(p + [letter] + tail, |p| + 1, digits, colon) == Match(Field(letter, if colon then Number(digits) else 1), p)
  {
    hide Number;
    var s := p + [letter] + tail;
    assert s[|p|] == letter && s[..|p|] == p;
  }

  lemma ReadColon(s: string, k: nat, digits: string)
    requires k < |s| && s[k] == ':' && forall i :: 0 <= i < |digits| ==> IsDigit(digits[i])
    ensures Scan(s, k + 1, digits, false) == Scan(s, k, digits, true)
  {
    hide Number;
  }

  lemma ReadField(p: string, f: Field)
    requires Known(f.letter) && f.size < 0x8000_0000
    ensures var s := p + WriteField(f); Scan(s, |s|, [], false) == Match(f, p)
  {
    hide Scan, Number, Decimal, Known;
    var s := p + WriteField(f);
    if f.size == 1 {
      ReadLetter(p, [], f.letter, [], false);
      assert s == p + [f.letter] + [];
    } else {
      var ds := Decimal(f.size);
      DecimalReads(f.size);
      assert s == p + [f.letter] + (":" + ds);
      assert s[|p| + 2..|s|] + [] == ds;
      assert forall i :: |p| + 2 <= i < |s| ==> s[i] == ds[i - |p| - 2];
      ReadDigits(s, |p| + 2, |s|, []);
      ReadColon(s, |p| + 1, ds);
      ReadLetter(p, ":" + ds, f.letter, ds, true);
    }
  }

  // A size that does not fit a signed 32-bit number is refused.
  lemma LargeSizeRefused(p: string, f: Field)
    requires Known(f.letter) && f.size >= 0x8000_0000
    ensures ParseAll(p + WriteField(f)) == Error
  {
    hide Scan, Number, Decimal, Known;
    var s := p + WriteField(f);
    var ds := Decimal(f.size);
    DecimalReads(f.size);
    assert s == p + [f.letter] + (":" + ds);
    assert s[|p| + 2..|s|] + [] == ds;
    assert forall i :: |p| + 2 <= i < |s| ==> s[i] == ds[i - |p| - 2];
    ReadDigits(s, |p| + 2, |s|, []);
    ReadColon(s, |p| + 1, ds);
    ReadLargeSize(p, ":" + ds, f.letter, ds);
  }

  lemma ReadLargeSize(p: string, tail: string, letter: char, digits: string)
    requires Known(letter) && (forall i :: 0 <= i < |digits| ==> IsDigit(digits[i])) && Number(digits) >= 0x8000_0000
    ensures Scan(p + [letter] + tail, |p| + 1, digits, true) == Fatal
  {
    hide Number;
    assert (p + [letter] + tail)[|p|] == letter;
  }

  // Main result: the fields written are the fields read, lowest bits first.
  lemma {:induction false} WrittenIsRead(fs: seq<Field>)
    requires forall i :: 0 <= i < |fs| ==> Known(fs[i].letter) && fs[i].size < 0x8000_0000
    ensures ParseAll(WriteMap(fs)) == Fields(fs)
  {
    hide Scan, Known;
    if fs != [] {
      assert forall i :: 0 <= i < |fs[1..]| ==> fs[1..][i] == fs[i + 1];
      WrittenIsRead(fs[1..]);
      ReadField(WriteMap(fs[1..]), fs[0]);
    }
  }

  // Only underscores and newlines are taken out.
  lemma {:induction false} StripKeeps(s: string)
    requires '_' !in s && '\n' !in s
    ensures Strip(s) == s
  {
    if s != [] { StripKeeps(s[1..]); }
  }

  lemma {:induction false} WrittenHasNoMarks(fs: seq<Field>)
    requires forall i :: 0 <= i < |fs| ==> Known(fs[i].letter)
    ensures '_' !in WriteMap(fs) && '\n' !in WriteMap(fs)
  {
    hide Number;
    if fs != [] {
      assert forall i :: 0 <= i < |fs[1..]| ==> fs[1..][i] == fs[i + 1];
      WrittenHasNoMarks(fs[1..]);
      FieldHasNoMarks(fs[0]);
    }
  }

  lemma FieldHasNoMarks(f: Field)
    requires Known(f.letter)
    ensures '_' !in WriteField(f) && '\n' !in WriteField(f)
  {
    hide Decimal;
    var ds := Decimal(f.size);
    forall i | 0 <= i < |ds| ensures ds[i] != '_' && ds[i] != '\n' { assert IsDigit(ds[i]); }
  }

  // ---------------------------------------------------------------- simple maps

  function CountOf(g: Geometry, c: char): nat {
    if c == 'C' then g.channels else if c == 'c' then g.pchannels else if c == 'R' then g.ranks
    else if c == 'B' then g.groups else if c == 'b' then g.banks else if c == 'r' then g.rows
    else if c == 'l' then g.cols else if c == 'h' then g.burst else 1
  }

  ghost predicate IsPower(n: nat) { exists k: nat :: Pow2(k) == n }

  lemma {:induction false} Log2Exact(n: nat)
    requires n > 0
    ensures Pow2(Log2(n)) <= n < 2 * Pow2(Log2(n))
    decreases n
  {
    if n > 1 { Log2Exact(n / 2); }
  }

  lemma PowerExactly(n: nat)
    requires n > 0
    ensures Pow2(Log2(n)) >= n <==> IsPower(n)
    ensures Pow2(Log2(n)) == n <==> IsPower(n)
  {
    hide Pow2, Log2;
    Log2Exact(n);
    if k: nat :| Pow2(k) == n {
      if k <= Log2(n) { Pow2Grows(k, Log2(n)); } else { Pow2Grows(Log2(n) + 1, k); Doubles(Log2(n)); }
    }
  }

  lemma Doubles(n: nat)
    ensures Pow2(n + 1) == 2 * Pow2(n)
  {}

  predicate LettersOnce(fs: seq<Field>) {
    && (forall i :: 0 <= i < |fs| ==> Known(fs[i].letter) && fs[i].size == 1)
    && forall i, j :: 0 <= i < j < |fs| ==> fs[i].letter != fs[j].letter
  }

  lemma {:induction false} OncePlaced(m: Layout, at: nat, fs: seq<Field>, c: char)
    requires LettersOnce(fs)
    ensures |Pos(Place(m, at, fs).0, c)| == |Pos(m, c)| + if Mentions(fs, c) then 1 else 0
    decreases |fs|
  {
    if fs != [] {
      var m1 := AddField(m, at, fs[0]);
      assert forall i :: 0 <= i < |fs[1..]| ==> fs[1..][i] == fs[i + 1];
      assert Mentions(fs, c) <==> fs[0].letter == c || Mentions(fs[1..], c) by {
        if Mentions(fs[1..], c) {
          var i :| 0 <= i < |fs[1..]| && fs[1..][i].letter == c;
          assert fs[i + 1].letter == c;
        }
      }
      OncePlaced(m1, at + fs[0].size, fs[1..], c);
    }
  }

  // What the configuration must be for a map of bare letters.
  ghost predicate MeetsMap(g: Geometry, fs: seq<Field>, c: char) {
    if Mentions(fs, c) then IsPower(CountOf(g, c)) else CountOf(g, c) <= 1
  }

  lemma LetterAccepted(g: Geometry, fs: seq<Field>, c: char)
    requires g.Positive()
    ensures AddressMap.Fits(SimpleSizes(g, fs), c, CountOf(g, c)) <==> MeetsMap(g, fs, c)
    ensures (if c in SimpleSizes(g, fs) then Pow2(SimpleSizes(g, fs)[c]) == CountOf(g, c) else CountOf(g, c) <= 1) <==> MeetsMap(g, fs, c)
  {
    hide Pow2, Log2, SimpleSizes, Mentions, IsPower;
    SimpleSizesKeys(g, fs, c);
    PowerExactly(CountOf(g, c));
    Log2One();
  }

  lemma Log2One()
    ensures Log2(1) == 0
  {}

  // Main result: a map of bare letters is accepted if and only if every count of the
  // configuration whose letter it has is a power of two, and every other count is one.
  lemma SimpleAcceptedExactly(fs: seq<Field>, g: Geometry)
    requires g.Positive() && LettersOnce(fs)
    ensures Build(WriteMap(fs), g).Some? <==>
            forall c :: c in {'C', 'c', 'R', 'B', 'b', 'r', 'l', 'h'} ==> MeetsMap(g, fs, c)
  {
    hide Place, SimpleSizes, WriteMap, ParseAll, Strip, MeetsMap, Configured, Pow2, Mentions, Sizes;
    WrittenHasNoMarks(fs);
    StripKeeps(WriteMap(fs));
    WrittenIsRead(fs);
    var m := Place(map[], 0, fs).0;
    assert AllSimple(m) by {
      forall c | c in m ensures |m[c]| <= 1 { OncePlaced(map[], 0, fs, c); }
    }
    LetterAccepted(g, fs, 'C');
    LetterAccepted(g, fs, 'c');
    LetterAccepted(g, fs, 'R');
    LetterAccepted(g, fs, 'B');
    LetterAccepted(g, fs, 'b');
    LetterAccepted(g, fs, 'r');
    LetterAccepted(g, fs, 'l');
    LetterAccepted(g, fs, 'h');
  }
}
