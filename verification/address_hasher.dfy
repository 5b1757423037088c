// The address hasher as an object with the loops of its parser, layout builder, decoder
// and encoder.
module AddressHasherObject {
  import opened Common
  import opened AddressBits
  import opened AddressMap

  class AddressHasher {
    const g: Geometry
    var pos: Layout
    var bits: nat

    ghost predicate Valid()
      reads this
    {
      g.Positive() && Covers(pos, bits)
    }

    constructor (g: Geometry)
      requires g.Positive()
      ensures Valid() && this.g == g && pos == map[] && bits == 0
    {
      this.g, pos, bits := g, map[], 0;
    }

    // Takes out the underscores and newlines.
    method RemoveMarks(s: string) returns (r: string)
      ensures r == Strip(s)
    {
      r := [];
      var i := 0;
      while i < |s|
        invariant 0 <= i <= |s| && r == Strip(s[..i])
      {
        assert s[..i + 1] == s[..i] + [s[i]];
        StripSplits(s[..i], [s[i]]);
        if s[i] != '_' && s[i] != '\n' { r := r + [s[i]]; }
        i := i + 1;
      }
      assert s[..|s|] == s;
    }

    // Reads one letter with its size from the end of the string.
    method ParsePattern(s: string) returns (p: Parse)
      ensures p == Scan(s, |s|, [], false)
    {
      var n, digits, colon := |s|, [], false;
      while n > 0
        invariant 0 <= n <= |s| && forall i :: 0 <= i < |digits| ==> IsDigit(digits[i])
        invariant Scan(s, n, digits, colon) == Scan(s, |s|, [], false)
      {
        var ch := s[n - 1];
        if IsDigit(ch) {
          if colon { return Fatal; }
          digits := [ch] + digits;
        } else if IsAlpha(ch) {
          if !Known(ch) { return Fatal; }
          if !colon { return Match(Field(ch, 1), s[..n - 1]); }
          if digits == [] || Number(digits) >= 0x8000_0000 { return Fatal; }
          return Match(Field(ch, Number(digits)), s[..n - 1]);
        } else if ch == ':' {
          colon := true;
        } else {
          return Fatal;
        }
        n := n - 1;
      }
      return Stuck;
    }

    // Parses the whole map; the result is Hang where the source would loop forever.
    method ParseMap(s: string) returns (r: Parsed)
      ensures r == ParseAll(s)
    {
      var rest, fields := s, [];
      while rest != []
        invariant ParseAll(s) == Prefixed(fields, ParseAll(rest))
        decreases |rest|
      {
        var p := ParsePattern(rest);
        ScanShrinks(rest, |rest|, [], false);
        match p {
          case Fatal => return Error;
          case Stuck => return Hang;
          case Match(f, shorter) =>
            PrefixedAppend(fields, f, ParseAll(shorter));
            fields := fields + [f];
            rest := shorter;
        }
      }
      assert fields + [] == fields;
      return Fields(fields);
    }

    // Gives each field its address bits, lowest first.
    method PlaceFields(fs: seq<Field>)
      requires Valid() && pos == map[] && bits == 0
      modifies this
      ensures Valid() && (pos, bits) == Place(map[], 0, fs)
    {
      PlaceCovers(map[], 0, fs);
      var i := 0;
      while i < |fs|
        invariant 0 <= i <= |fs|
        invariant Place(pos, bits, fs[i..]) == Place(map[], 0, fs)
      {
        AppendBits(fs[i]);
        i := i + 1;
      }
    }

    method AppendBits(f: Field)
      modifies this
      ensures pos == AddField(old(pos), old(bits), f) && bits == old(bits) + f.size
    {
      var m := pos;
      var at := bits;
      var j: nat := 0;
      while j < f.size
        invariant 0 <= j <= f.size && bits == at + j
        invariant pos == AddField(m, at, Field(f.letter, j))
      {
        assert Range(at, j + 1) == Range(at, j) + [at + j];
        assert Pos(m, f.letter) + Range(at, j + 1) == Pos(pos, f.letter) + [bits] by {
          if j == 0 { assert Range(at, 0) == []; }
        }
        pos := pos[f.letter := (if f.letter in pos then pos[f.letter] else []) + [bits]];
        bits := bits + 1;
        j := j + 1;
      }
    }

    // One field of a decoded address.
    method GetField(a: nat, c: char) returns (v: nat)
      ensures v == Get(Hasher(pos, bits), a, c)
    {
      if c !in pos { return 0; }
      var p := pos[c];
      v := 0;
      var power := 1;
      var i := 0;
      while i < |p|
        invariant 0 <= i <= |p| && power >= 1
        invariant v + power * Gather(a, p[i..]) == Gather(a, p)
      {
        GatherStep(a, p, i, v, power);
        v := v + Bit(a, p[i]) * power;
        power := 2 * power;
        i := i + 1;
      }
      assert Gather(a, p[i..]) == 0;
      return v % TWO32;
    }

    method FillHashedAddress(a: nat) returns (x: Hashed)
      ensures x == Decode(Hasher(pos, bits), g, a)
    {
      var chan := GetField(a, 'C');
      var pchan := GetField(a, 'c');
      var rank := GetField(a, 'R');
      var group := GetField(a, 'B');
      var bank := GetField(a, 'b');
      var row := GetField(a, 'r');
      var col := GetField(a, 'l');
      var line := GetField(a, 'h');
      var bankId := (bank + Times(group, g.banks) + Times(rank, RankSize(g)) + Times(pchan, PchanSize(g)) + Times(chan, ChanSize(g))) % TWO32;
      var rankId := (rank + Times(pchan, g.ranks) + Times(chan, g.pchannels * g.ranks)) % TWO32;
      return Hashed(chan, pchan, rank, group, bank, row, col, line, bankId, rankId);
    }

    // Division by repeated subtraction.
    method CountOff(x: nat, n: nat) returns (q: nat, r: nat)
      requires n > 0
      ensures q == Quot(x, n) && r == Rem(x, n)
    {
      q, r := 0, x;
      while r >= n
        invariant x == Times(q, n) + r
      {
        NextTimes(q, n);
        r := r - n;
        q := q + 1;
      }
      QuotUnique(x, n, q, r);
    }

    method SpreadBits(v: nat, c: char) returns (a: nat)
      requires v < Pow2(|Pos(pos, c)|)
      ensures a == Scatter(v, Pos(pos, c))
    {
      var p := Pos(pos, c);
      var left: nat := v;
      var i: nat := 0;
      a := 0;
      while left > 0
        invariant 0 <= i <= |p| && left < Pow2(|p| - i)
        invariant a + Scatter(left, p[i..]) == Scatter(v, p)
        decreases left
      {
        if left % 2 == 1 { a := a + Pow2(p[i]); }
        left := left / 2;
        i := i + 1;
      }
      ScatterZero(p[i..]);
    }

    // An address of the given bank.
    method GetAddressForBankId(id: nat) returns (a: nat)
      requires Valid() && Good(Hasher(pos, bits), g) && id < Total(g)
      ensures a == Encode(Hasher(pos, bits), g, id)
    {
      hide Pow2, Times, Total, Quot, Rem, Covers, Scatter;
      SizesPositive(g);
      SplitFacts(g, id);
      var chan, r4 := CountOff(id, ChanSize(g));
      var pchan, r3 := CountOff(r4, PchanSize(g));
      var rank, r2 := CountOff(r3, RankSize(g));
      var group, bank := CountOff(r2, g.banks);
      var a1 := SpreadBits(bank, 'b');
      var a2 := SpreadBits(group, 'B');
      var a3 := SpreadBits(rank, 'R');
      var a4 := SpreadBits(pchan, 'c');
      var a5 := SpreadBits(chan, 'C');
      return a1 + a2 + a3 + a4 + a5;
    }
  }

  // The fields read so far in front of what the rest yields.
  function Prefixed(fs: seq<Field>, r: Parsed): Parsed {
    if r.Fields? then Fields(fs + r.fields) else r
  }

  lemma PrefixedAppend(fs: seq<Field>, f: Field, r: Parsed)
    ensures Prefixed(fs + [f], r) == Prefixed(fs, if r.Fields? then Fields([f] + r.fields) else r)
  {
    if r.Fields? { assert fs + [f] + r.fields == fs + ([f] + r.fields); }
  }

  lemma GatherStep(a: nat, p: seq<nat>, i: nat, v: nat, power: nat)
    requires i < |p|
    ensures v + power * Gather(a, p[i..]) == (v + Bit(a, p[i]) * power) + (2 * power) * Gather(a, p[i + 1..])
  {
    assert p[i..][1..] == p[i + 1..];
    var rest := Gather(a, p[i + 1..]);
    assert power * (Bit(a, p[i]) + 2 * rest) == Bit(a, p[i]) * power + (2 * power) * rest;
  }

  lemma NextTimes(q: nat, n: nat)
    ensures Times(q + 1, n) == Times(q, n) + n
  {}

  lemma {:induction false} ScatterZero(p: seq<nat>)
    ensures Scatter(0, p) == 0
  {
    if p != [] { ScatterZero(p[1..]); }
  }
}
