/** The Bech32 checksum (section "Checksum" of BIP 173).  A Go int is a word of 64 bits, the lowest
    first, and the bitwise operators are what they are bit by bit. */
module Bech32 {
  import opened Radix

  function Zeros(n: nat): (s: seq<bool>)
    ensures |s| == n && forall i :: 0 <= i < n ==> !s[i]
  {
    if n == 0 then [] else [false] + Zeros(n - 1)
  }

  const ZERO := Zeros(64)

  type Word = w: seq<bool> | |w| == 64 witness Zeros(64)

  function Xor(a: Word, b: Word): Word { seq(64, i requires 0 <= i < 64 => a[i] != b[i]) }

  /** a & (2^n - 1) */
  function Low(a: Word, n: nat): Word { seq(64, i requires 0 <= i < 64 => i < n && a[i]) }

  /** a << n */
  function Left(a: Word, n: nat): Word { seq(64, i requires 0 <= i < 64 => i >= n && a[i - n]) }

  /** a >> n, for a non-negative a */
  function Right(a: Word, n: nat): Word { seq(64, i requires 0 <= i < 64 => i + n < 64 && a[i + n]) }

  /** 0 <= a < 2^n */
  predicate Fits(a: Word, n: nat) { forall i :: n <= i < 64 ==> !a[i] }

  /** The binary notation of a constant. */
  function Bits(v: nat, n: nat): (s: seq<bool>)
    ensures |s| == n
  {
    if n == 0 then [] else [v % 2 == 1] + Bits(v / 2, n - 1)
  }

  function One(): Word { Bits(1, 64) }

  const GENERATORS: seq<nat> := [0x3b6a57b2, 0x26508e6d, 0x1ea119fa, 0x3d4233dd, 0x2a1462b3]

  function Generators(): Table { seq(5, i requires 0 <= i < 5 => Bits(GENERATORS[i], 64)) }

  /** A table of five generators; linearity does not depend on which. */
  type Table = g: seq<Word> | |g| == 5 witness [ZERO, ZERO, ZERO, ZERO, ZERO]

  /** The register after the first n generators have been added, each if its bit of top is set. */
  function Fed(g: Table, chk: Word, top: Word, n: nat): Word
    requires n <= 5
  {
    if n == 0 then chk
    else if top[n - 1] then Xor(Fed(g, chk, top, n - 1), g[n - 1])
    else Fed(g, chk, top, n - 1)
  }

  function Step(g: Table, chk: Word, value: Word): Word {
    Fed(g, Xor(Left(Low(chk, 25), 5), value), Right(chk, 25), 5)
  }

  /** The register after reading the values, starting from chk. */
  function Read(g: Table, chk: Word, values: seq<Word>): Word {
    if values == [] then chk
    else Step(g, Read(g, chk, values[..|values| - 1]), values[|values| - 1])
  }

  function Polymod(values: seq<Word>): Word {
    Read(Generators(), One(), values)
  }

  /** Every value lies below 2^n. */
  predicate AllFit(values: seq<Word>, n: nat) {
    forall i :: 0 <= i < |values| ==> Fits(values[i], n)
  }

  function HrpExpand(hrp: seq<Word>): seq<Word> {
    seq(|hrp|, i requires 0 <= i < |hrp| => Right(hrp[i], 5)) + [ZERO] +
    seq(|hrp|, i requires 0 <= i < |hrp| => Low(hrp[i], 5))
  }

  const ZEROS: seq<Word> := [ZERO, ZERO, ZERO, ZERO, ZERO, ZERO]

  /** Six groups of five bits, the highest first. */
  function Spread(p: Word): (s: seq<Word>)
    ensures |s| == 6
  {
    seq(6, i requires 0 <= i < 6 => Low(Right(p, 5 * (5 - i)), 5))
  }

  function Checksum(hrp: seq<Word>, data: seq<Word>): seq<Word> {
    Spread(Xor(Polymod(HrpExpand(hrp) + data + ZEROS), One()))
  }

  // ---- The loops ----

  method ComputePolymod(g: Table, values: seq<Word>) returns (chk: Word)
    ensures chk == Read(g, One(), values)
  {
    chk := One();
    for n := 0 to |values|
      invariant chk == Read(g, One(), values[..n])
    {
      var top := Right(chk, 25);
      var shifted := Xor(Left(Low(chk, 25), 5), values[n]);
      chk := shifted;
      for i := 0 to 5
        invariant chk == Fed(g, shifted, top, i)
      {
        if top[i] {
          chk := Xor(chk, g[i]);
        }
      }
      assert values[..n + 1][..n] == values[..n];
    }
    assert values[..|values|] == values;
  }

  method CreateChecksum(hrp: seq<Word>, data: seq<Word>) returns (checksum: seq<Word>)
    ensures checksum == Checksum(hrp, data)
  {
    var polymod := ComputePolymod(Generators(), HrpExpand(hrp) + data + ZEROS);
    checksum := SpreadOut(Xor(polymod, One()));
  }

  method SpreadOut(p: Word) returns (checksum: seq<Word>)
    ensures checksum == Spread(p)
  {
    checksum := [];
    for i := 0 to 6
      invariant |checksum| == i && checksum == Spread(p)[..i]
    {
      checksum := checksum + [Low(Right(p, 5 * (5 - i)), 5)];
    }
  }

  // ---- Linearity: what a difference in the input does to the register ----

  /** Feeding back commutes with adding a difference. */
  lemma {:induction false} FedLinear(g: Table, chk: Word, d: Word, top: Word, n: nat)
    requires n <= 5
    ensures Fed(g, Xor(chk, d), top, n) == Xor(Fed(g, chk, top, n), d)
  {
    if n > 0 {
      FedLinear(g, chk, d, top, n - 1);
      var a := Fed(g, chk, top, n - 1);
      assert Xor(Xor(a, d), g[n - 1]) == Xor(Xor(a, g[n - 1]), d);
    }
  }

  /** A difference confined to the low 25 bits of the register just moves up. */
  lemma StepLinear(g: Table, x: Word, d: Word, v: Word)
    requires Fits(d, 25)
    ensures Step(g, Xor(x, d), v) == Xor(Step(g, x, ZERO), Xor(Left(d, 5), v))
  {
    assert Right(Xor(x, d), 25) == Right(x, 25);
    assert Xor(Left(Low(Xor(x, d), 25), 5), v) == Xor(Xor(Left(Low(x, 25), 5), ZERO), Xor(Left(d, 5), v));
    FedLinear(g, Xor(Left(Low(x, 25), 5), ZERO), Xor(Left(d, 5), v), Right(x, 25), 5);
  }

  lemma {:induction false} ReadAppend(g: Table, chk: Word, a: seq<Word>, b: seq<Word>)
    ensures Read(g, chk, a + b) == Read(g, Read(g, chk, a), b)
  {
    if b == [] {
      assert a + b == a;
    } else {
      var t := b[..|b| - 1];
      ReadAppend(g, chk, a, t);
      assert (a + b)[..|a + b| - 1] == a + t;
    }
  }

  lemma NextGroup(p: Word, n: nat)
    requires n < 6 && Fits(p, 30)
    ensures Fits(Right(p, 5 * (6 - n)), 25)
    ensures Xor(Left(Right(p, 5 * (6 - n)), 5), Spread(p)[n]) == Right(p, 5 * (5 - n))
  {
  }

  /** Reading the groups of p instead of zeros changes the register by p. */
  lemma {:induction false} ReadSpread(g: Table, x: Word, p: Word, n: nat)
    requires n <= 6 && Fits(p, 30)
    ensures Read(g, x, Spread(p)[..n]) == Xor(Read(g, x, ZEROS[..n]), Right(p, 5 * (6 - n)))
  {
    if n == 0 {
      assert Xor(x, Right(p, 30)) == x;
    } else {
      ReadSpread(g, x, p, n - 1);
      NextGroup(p, n - 1);
      assert Spread(p)[..n][..n - 1] == Spread(p)[..n - 1];
      assert ZEROS[..n][..n - 1] == ZEROS[..n - 1];
      StepLinear(g, Read(g, x, ZEROS[..n - 1]), Right(p, 5 * (7 - n)), Spread(p)[n - 1]);
    }
  }

  // ---- The register stays below 2^30 ----

  predicate Narrow(g: Table) {
    forall i :: 0 <= i < 5 ==> Fits(g[i], 30)
  }

  lemma {:induction false} FedBelow(g: Table, chk: Word, top: Word, n: nat)
    requires n <= 5 && Narrow(g) && Fits(chk, 30)
    ensures Fits(Fed(g, chk, top, n), 30)
  {
    if n > 0 {
      FedBelow(g, chk, top, n - 1);
    }
  }

  lemma {:induction false} StaysBelow(g: Table, chk: Word, values: seq<Word>)
    requires Narrow(g) && Fits(chk, 30) && AllFit(values, 5)
    ensures Fits(Read(g, chk, values), 30)
  {
    if values != [] {
      var t := values[..|values| - 1];
      StaysBelow(g, chk, t);
      var c := Read(g, chk, t);
      FedBelow(g, Xor(Left(Low(c, 25), 5), values[|values| - 1]), Right(c, 25), 5);
    }
  }

  lemma {:induction false} BitsFit(v: nat, n: nat, k: nat)
    requires v < Power(2, k)
    ensures forall i :: k <= i < n ==> !Bits(v, n)[i]
  {
    if n > 0 && k > 0 {
      BitsFit(v / 2, n - 1, k - 1);
    } else if n > 0 {
      BitsFit(v / 2, n - 1, 0);
    }
  }

  lemma ThirtyBits()
    ensures Power(2, 30) == 0x40000000
  {
    assert Power(2, 5) == 32;
    PowerAdd(2, 5, 5);
    PowerAdd(2, 10, 10);
    PowerAdd(2, 20, 10);
  }

  lemma GeneratorsNarrow()
    ensures Narrow(Generators()) && Fits(One(), 30)
  {
    ThirtyBits();
    BitsFit(1, 64, 30);
    forall i | 0 <= i < 5
      ensures Fits(Generators()[i], 30)
    {
      BitsFit(GENERATORS[i], 64, 30);
    }
  }

  lemma HrpGroups(hrp: seq<Word>)
    requires AllFit(hrp, 7)
    ensures AllFit(HrpExpand(hrp), 5)
  {
  }

  lemma SixZeros(g: Table, x: Word, start: Word)
    requires Narrow(g) && Fits(Xor(Read(g, x, ZEROS), start), 30)
    ensures Read(g, x, Spread(Xor(Read(g, x, ZEROS), start))) == start
  {
    var p := Xor(Read(g, x, ZEROS), start);
    ReadSpread(g, x, p, 6);
    assert Spread(p)[..6] == Spread(p) && ZEROS[..6] == ZEROS;
    assert Xor(Read(g, x, ZEROS), Right(p, 0)) == start;
  }

  lemma XorFits(a: Word, b: Word, n: nat)
    requires Fits(a, n) && Fits(b, n)
    ensures Fits(Xor(a, b), n)
  {
  }

  /** Whatever the table, the groups of the register after six zeros, corrected by the start,
      lead the register back to the start. */
  lemma BackToStart(g: Table, start: Word, front: seq<Word>)
    requires Narrow(g) && Fits(start, 30) && AllFit(front, 5)
    ensures Read(g, start, front + Spread(Xor(Read(g, start, front + ZEROS), start))) == start
  {
    var x := Read(g, start, front);
    StaysBelow(g, start, front);
    StaysBelow(g, x, ZEROS);
    ReadAppend(g, start, front, ZEROS);
    XorFits(Read(g, x, ZEROS), start, 30);
    ReadAppend(g, start, front, Spread(Xor(Read(g, x, ZEROS), start)));
    SixZeros(g, x, start);
  }

  /** Appending the checksum to an ASCII prefix and any 5-bit groups makes the register end at 1. */
  lemma ChecksumVerifies(hrp: seq<Word>, data: seq<Word>)
    requires AllFit(hrp, 7) && AllFit(data, 5)
    ensures Polymod(HrpExpand(hrp) + data + Checksum(hrp, data)) == One()
  {
    GeneratorsNarrow();
    HrpGroups(hrp);
    BackToStart(Generators(), One(), HrpExpand(hrp) + data);
  }

  /** And after every value read on the way it lies below 2^30. */
  lemma RegisterBelow(hrp: seq<Word>, data: seq<Word>, n: nat)
    requires AllFit(hrp, 7) && AllFit(data, 5) && n <= |HrpExpand(hrp) + data| + 6
    ensures Fits(Polymod((HrpExpand(hrp) + data + Checksum(hrp, data))[..n]), 30)
  {
    var sum := Checksum(hrp, data);
    ChecksumFits(hrp, data);
    PrefixBelow(hrp, data, sum, n);
  }

  lemma PrefixBelow(hrp: seq<Word>, data: seq<Word>, sum: seq<Word>, n: nat)
    requires AllFit(hrp, 7) && AllFit(data, 5) && AllFit(sum, 5) && n <= |HrpExpand(hrp) + data + sum|
    ensures Fits(Polymod((HrpExpand(hrp) + data + sum)[..n]), 30)
  {
    GeneratorsNarrow();
    HrpGroups(hrp);
    var front := HrpExpand(hrp);
    AllFitAppend(front, data, sum, n);
    StaysBelow(Generators(), One(), (front + data + sum)[..n]);
  }

  lemma AllFitAppend(a: seq<Word>, b: seq<Word>, c: seq<Word>, n: nat)
    requires AllFit(a, 5) && AllFit(b, 5) && AllFit(c, 5) && n <= |a + b + c|
    ensures AllFit((a + b + c)[..n], 5)
  {
  }

  lemma ChecksumFits(hrp: seq<Word>, data: seq<Word>)
    ensures AllFit(Checksum(hrp, data), 5)
  {
    SpreadFits(Xor(Polymod(HrpExpand(hrp) + data + ZEROS), One()));
  }

  lemma SpreadFits(p: Word)
    ensures AllFit(Spread(p), 5)
  {
  }

  // ---- Error detection: no step loses information ----

  /** Bit i of the sum of the generators selected by top. */
  function Sum(g: Table, top: Word, i: nat): bool
    requires i < 64
  {
    (((((top[0] && g[0][i]) != (top[1] && g[1][i])) != (top[2] && g[2][i])) != (top[3] && g[3][i])) !=
     (top[4] && g[4][i]))
  }

  lemma FedBit(g: Table, top: Word, i: nat)
    requires i < 64
    ensures Fed(g, ZERO, top, 5)[i] == Sum(g, top, i)
  {
    assert Fed(g, ZERO, top, 1)[i] == (top[0] && g[0][i]);
    assert Fed(g, ZERO, top, 2)[i] == (Fed(g, ZERO, top, 1)[i] != (top[1] && g[1][i]));
    assert Fed(g, ZERO, top, 3)[i] == (Fed(g, ZERO, top, 2)[i] != (top[2] && g[2][i]));
    assert Fed(g, ZERO, top, 4)[i] == (Fed(g, ZERO, top, 3)[i] != (top[3] && g[3][i]));
  }

  /** The low k bits of a number are those of its remainder. */
  lemma {:induction false} LowBits(q: nat, r: nat, k: nat, n: nat)
    requires k <= n && r < Power(2, k)
    ensures Bits(Power(2, k) * q + r, n)[..k] == Bits(r, k)
  {
    if k > 0 {
      var v := Power(2, k) * q + r;
      Assoc(2, Power(2, k - 1), q);
      assert v == 2 * (Power(2, k - 1) * q) + r;
      LowBits(q, r / 2, k - 1, n - 1);
      assert Bits(v, n)[1..][..k - 1] == Bits(r, k)[1..];
      assert Bits(v, n)[..k] == [Bits(v, n)[0]] + Bits(v, n)[1..][..k - 1];
    }
  }

  /** The low five bits of the generators form an invertible matrix. */
  lemma TopRecovered(s: Word, t: Word)
    requires forall i :: 0 <= i < 5 ==> Fed(Generators(), ZERO, s, 5)[i] == Fed(Generators(), ZERO, t, 5)[i]
    ensures s[..5] == t[..5]
  {
    LowRow(Generators()[0], GENERATORS[0], 31150781, 0x12);
    LowRow(Generators()[1], GENERATORS[1], 20087923, 0x0d);
    LowRow(Generators()[2], GENERATORS[2], 16058575, 0x1a);
    LowRow(Generators()[3], GENERATORS[3], 32117150, 0x1d);
    LowRow(Generators()[4], GENERATORS[4], 22061845, 0x13);
    Solve(Generators(), s, t);
  }

  ghost predicate HasRow(w: Word, r: nat) {
    forall i :: 0 <= i < 5 ==> w[i] == Row(r)[i]
  }

  function Row(r: nat): (s: seq<bool>)
    ensures |s| == 5
  {
    Bits(r, 5)
  }

  function Bit(b: bool): nat { if b then 1 else 0 }

  lemma TailOf(c: bool, d: bool, e: bool, n: nat)
    requires n == 3
    ensures Bits(Bit(c) + 2 * (Bit(d) + 2 * Bit(e)), n) == [c, d, e]
  {
  }

  lemma FrontOf(a: bool, b: bool, q: nat, n: nat)
    ensures Bits(Bit(a) + 2 * (Bit(b) + 2 * q), n + 2) == [a, b] + Bits(q, n)
  {
  }

  lemma RowOf(a: bool, b: bool, c: bool, d: bool, e: bool, r: nat)
    requires r == Bit(a) + 2 * (Bit(b) + 2 * (Bit(c) + 2 * (Bit(d) + 2 * Bit(e))))
    ensures Row(r) == [a, b, c, d, e]
  {
    var n, q := 3, Bit(c) + 2 * (Bit(d) + 2 * Bit(e));
    TailOf(c, d, e, n);
    FrontOf(a, b, q, n);
  }

  lemma FiveBits()
    ensures Row(0x12) == [false, true, false, false, true] && Row(0x0d) == [true, false, true, true, false]
    ensures Row(0x1a) == [false, true, false, true, true] && Row(0x1d) == [true, false, true, true, true]
    ensures Row(0x13) == [true, true, false, false, true]
  {
    RowOf(false, true, false, false, true, 0x12);
    RowOf(true, false, true, true, false, 0x0d);
    RowOf(false, true, false, true, true, 0x1a);
    RowOf(true, false, true, true, true, 0x1d);
    RowOf(true, true, false, false, true, 0x13);
  }

  lemma LowRow(w: Word, v: nat, q: nat, r: nat)
    requires w == Bits(v, 64) && v == 32 * q + r && r < 32
    ensures HasRow(w, r)
  {
    assert Power(2, 5) == 32;
    LowBits(q, r, 5, 64);
    assert forall i :: 0 <= i < 5 ==> w[i] == w[..5][i];
  }

  lemma Solve(g: Table, s: Word, t: Word)
    requires forall i :: 0 <= i < 5 ==> Fed(g, ZERO, s, 5)[i] == Fed(g, ZERO, t, 5)[i]
    requires HasRow(g[0], 0x12) && HasRow(g[1], 0x0d) && HasRow(g[2], 0x1a) && HasRow(g[3], 0x1d) && HasRow(g[4], 0x13)
    ensures s[..5] == t[..5]
  {
    forall i | 0 <= i < 5
      ensures Sum(g, s, i) == Sum(g, t, i)
    {
      FedBit(g, s, i);
      FedBit(g, t, i);
    }
    FiveBits();
    assert Sum(g, s, 0) == Sum(g, t, 0) && Sum(g, s, 1) == Sum(g, t, 1) && Sum(g, s, 2) == Sum(g, t, 2);
    assert Sum(g, s, 3) == Sum(g, t, 3) && Sum(g, s, 4) == Sum(g, t, 4);
    assert s[4] == t[4];
    assert s[3] == t[3];
    assert s[1] == t[1];
    assert s[2] == t[2];
    assert s[0] == t[0];
  }

  lemma StepInjective(x: Word, y: Word, v: Word)
    requires Fits(x, 30) && Fits(y, 30) && Step(Generators(), x, v) == Step(Generators(), y, v)
    ensures x == y
  {
    var g, s, t := Generators(), Right(x, 25), Right(y, 25);
    var a, b := Xor(Left(Low(x, 25), 5), v), Xor(Left(Low(y, 25), 5), v);
    FromZero(g, a, s);
    FromZero(g, b, t);
    forall i | 0 <= i < 5
      ensures Fed(g, ZERO, s, 5)[i] == Fed(g, ZERO, t, 5)[i]
    {
      assert Xor(Fed(g, ZERO, s, 5), a)[i] == Xor(Fed(g, ZERO, t, 5), b)[i];
    }
    TopRecovered(s, t);
    SameTop(g, s, t, 5);
    XorCancel(Fed(g, ZERO, s, 5), a, b);
    Halves(x, y, v);
  }

  lemma FromZero(g: Table, c: Word, top: Word)
    ensures Fed(g, c, top, 5) == Xor(Fed(g, ZERO, top, 5), c)
  {
    assert Xor(ZERO, c) == c;
    FedLinear(g, ZERO, c, top, 5);
  }

  lemma {:induction false} SameTop(g: Table, s: Word, t: Word, n: nat)
    requires n <= 5 && s[..5] == t[..5]
    ensures Fed(g, ZERO, s, n) == Fed(g, ZERO, t, n)
  {
    if n > 0 {
      SameTop(g, s, t, n - 1);
      assert s[n - 1] == s[..5][n - 1];
    }
  }

  lemma XorCancel(f: Word, a: Word, b: Word)
    requires Xor(f, a) == Xor(f, b)
    ensures a == b
  {
    forall i | 0 <= i < 64
      ensures a[i] == b[i]
    {
      assert Xor(f, a)[i] == Xor(f, b)[i];
    }
  }

  lemma Halves(x: Word, y: Word, v: Word)
    requires Fits(x, 30) && Fits(y, 30) && Right(x, 25)[..5] == Right(y, 25)[..5]
    requires Xor(Left(Low(x, 25), 5), v) == Xor(Left(Low(y, 25), 5), v)
    ensures x == y
  {
    forall i | 0 <= i < 64
      ensures x[i] == y[i]
    {
      if i < 25 {
        assert Xor(Left(Low(x, 25), 5), v)[i + 5] == Xor(Left(Low(y, 25), 5), v)[i + 5];
      } else if i < 30 {
        assert Right(x, 25)[..5][i - 25] == Right(y, 25)[..5][i - 25];
      }
    }
  }

  lemma {:induction false} ReadInjective(x: Word, y: Word, values: seq<Word>)
    requires Fits(x, 30) && Fits(y, 30) && AllFit(values, 5)
    requires Read(Generators(), x, values) == Read(Generators(), y, values)
    ensures x == y
  {
    if values != [] {
      var t := values[..|values| - 1];
      GeneratorsNarrow();
      StaysBelow(Generators(), x, t);
      StaysBelow(Generators(), y, t);
      StepInjective(Read(Generators(), x, t), Read(Generators(), y, t), values[|values| - 1]);
      ReadInjective(x, y, t);
    }
  }

  /** A single wrong group is always noticed: the register no longer ends at the same value. */
  lemma SingleErrorDetected(front: seq<Word>, v: Word, w: Word, back: seq<Word>)
    requires AllFit(front, 5) && Fits(v, 5) && Fits(w, 5) && AllFit(back, 5) && v != w
    ensures Polymod(front + [v] + back) != Polymod(front + [w] + back)
  {
    var g := Generators();
    GeneratorsNarrow();
    var x := Read(g, One(), front);
    StaysBelow(g, One(), front + [v]);
    StaysBelow(g, One(), front + [w]);
    ReadAppend(g, One(), front + [v], back);
    ReadAppend(g, One(), front + [w], back);
    if Polymod(front + [v] + back) == Polymod(front + [w] + back) {
      ReadInjective(Read(g, One(), front + [v]), Read(g, One(), front + [w]), back);
      SameStep(g, front, v, w);
    }
  }

  lemma SameStep(g: Table, front: seq<Word>, v: Word, w: Word)
    requires Read(g, One(), front + [v]) == Read(g, One(), front + [w])
    ensures v == w
  {
    var x := Read(g, One(), front);
    var up := Left(Low(x, 25), 5);
    assert (front + [v])[..|front|] == front && (front + [w])[..|front|] == front;
    FromZero(g, Xor(up, v), Right(x, 25));
    FromZero(g, Xor(up, w), Right(x, 25));
    XorCancel(Fed(g, ZERO, Right(x, 25), 5), Xor(up, v), Xor(up, w));
    XorCancel(up, v, w);
  }
}
