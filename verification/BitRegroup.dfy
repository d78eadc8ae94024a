/** Regrouping of bit strings between digit widths, as used for Bech32 addresses. */
module BitRegroup {
  import opened Radix

  datatype Outcome = Groups(groups: seq<nat>) | BadRange | BadPadding

  function Two(n: nat): (p: nat)
    ensures p >= 1
  {
    Power(2, n)
  }

  /** What regrouping means: read the input as one number, shift it to the left by the
      padding (or cut the surplus bits, which have to be zero), and write it down again. */
  function Regroup(data: seq<nat>, from: nat, to: nat, pad: bool): Outcome
    requires from >= 1 && to >= 1
  {
    if !InRange(data, Two(from)) then BadRange
    else
      var v := Value(data, Two(from));
      var count, rest := (from * |data|) / to, (from * |data|) % to;
      if pad then Groups(Padded(v, count, rest, to)) else Cut(v, count, rest, from, to)
  }

  function Padded(v: nat, count: nat, rest: nat, to: nat): seq<nat>
    requires rest < to
  {
    if rest == 0 then Digits(v, Two(to), count) else Digits(v * Two(to - rest), Two(to), count + 1)
  }

  function Cut(v: nat, count: nat, rest: nat, from: nat, to: nat): Outcome {
    if rest >= from || v % Two(rest) != 0 then BadPadding else Groups(Digits(v / Two(rest), Two(to), count))
  }

  /** A Go int holds 64 bits; a left shift drops what does not fit. */
  function Wrap64(x: int): (r: int)
    ensures -0x8000_0000_0000_0000 <= r < 0x8000_0000_0000_0000
  {
    (x + 0x8000_0000_0000_0000) % 0x1_0000_0000_0000_0000 - 0x8000_0000_0000_0000
  }

  /** An int64 that agrees with v modulo 2^64. */
  predicate Tracks(acc: int, v: int) {
    (acc - v) % 0x1_0000_0000_0000_0000 == 0
  }

  lemma WrapTracks(acc: int, v: int, m: int, d: int)
    requires Tracks(acc, v)
    ensures Tracks(Wrap64(acc * m + d), v * m + d)
  {
    var q := (acc - v) / 0x1_0000_0000_0000_0000;
    var x := acc * m + d + 0x8000_0000_0000_0000;
    var k := x / 0x1_0000_0000_0000_0000;
    assert acc * m == v * m + (q * m) * 0x1_0000_0000_0000_0000;
    assert Wrap64(acc * m + d) - (v * m + d) == (q * m - k) * 0x1_0000_0000_0000_0000;
  }

  lemma Two64()
    ensures Two(64) == 0x1_0000_0000_0000_0000
  {
    assert Two(4) == 16;
    Square(4, 8, 16);
    Square(8, 16, 256);
    Square(16, 32, 0x1_0000);
    Square(32, 64, 0x1_0000_0000);
  }

  lemma Square(n: nat, m: nat, p: nat)
    requires m == 2 * n && Two(n) == p
    ensures Two(m) == p * p
  {
    PowerAdd(2, n, n);
  }

  lemma AddMultiple(x: int, q: int, d: int)
    requires d > 0
    ensures (x + q * d) / d == x / d + q && (x + q * d) % d == x % d
  {
    assert x + q * d == (x / d + q) * d + x % d;
    DivMod(x / d + q, x % d, d);
  }

  lemma LowPart(v: int, q: int, gap: int, width: int, shift: int)
    requires width > 0 && shift > 0
    ensures ((v + q * ((gap * width) * shift)) / shift) % width == (v / shift) % width
  {
    Assoc(q, gap * width, shift);
    AddMultiple(v, q * (gap * width), shift);
    Assoc(q, gap, width);
    AddMultiple(v / shift, q * gap, width);
  }

  /** The bits read from the accumulator are those of the untruncated number: what
      was shifted out lies above them. */
  lemma LowBits(acc: int, v: nat, shift: nat, width: nat)
    requires Tracks(acc, v) && shift + width <= 64
    ensures (acc / Two(shift)) % Two(width) == (v / Two(shift)) % Two(width)
  {
    var gap := 64 - shift - width;
    Two64();
    PowerAdd(2, gap, width);
    PowerAdd(2, gap + width, shift);
    LowPart(v, (acc - v) / 0x1_0000_0000_0000_0000, Two(gap), Two(width), Two(shift));
  }

  /** One group leaves the buffer: the groups written so far are v without its last `bits` bits. */
  lemma TakeGroup(v: nat, bits: nat, to: nat)
    requires to <= bits
    ensures v / Two(bits - to) == (v / Two(bits)) * Two(to) + (v / Two(bits - to)) % Two(to)
  {
    PowerAdd(2, to, bits - to);
    GroupOut(v, Two(bits), Two(to), Two(bits - to));
  }

  lemma GroupOut(v: nat, all: nat, width: nat, shift: nat)
    requires width > 0 && shift > 0 && all == width * shift > 0
    ensures v / shift == (v / all) * width + (v / shift) % width
  {
    DivDiv(v, width, shift);
    Split(v / shift, width);
  }

  /** A new input digit enters the buffer. */
  lemma PutDigit(v: nat, bits: nat, d: nat, from: nat)
    requires d < Two(from)
    ensures (v * Two(from) + d) / Two(bits + from) == v / Two(bits)
  {
    PowerAdd(2, bits, from);
    Split(v, Two(bits));
    ScaleUp(v / Two(bits), v % Two(bits), Two(bits), Two(from), d);
    DivMod(v / Two(bits), (v % Two(bits)) * Two(from) + d, Two(bits + from));
  }

  lemma Raise(v: nat, low: nat, s: nat, all: nat)
    requires low > 0 && s > 0 && all == low * s > 0
    ensures (v * s) % all == (v % low) * s
    ensures v * s == (v / low) * all + (v % low) * s
  {
    Split(v, low);
    Monotone(1, low, s);
    ScaleUp(v / low, v % low, low, s, 0);
    DivMod(v / low, (v % low) * s, low * s);
  }

  /** The surplus bits, moved up to a full group. */
  function Surplus(acc: int, bits: nat, to: nat): nat
    requires bits <= to
  {
    Wrap64(acc * Two(to - bits)) % Two(to)
  }

  lemma TakeRest(acc: int, v: nat, bits: nat, to: nat)
    requires bits <= to <= 64 && Tracks(acc, v)
    ensures Surplus(acc, bits, to) == (v % Two(bits)) * Two(to - bits)
    ensures v * Two(to - bits) == (v / Two(bits)) * Two(to) + Surplus(acc, bits, to)
  {
    var s := Two(to - bits);
    assert Surplus(acc, bits, to) == (v * s) % Two(to) by {
      WrapTracks(acc, v, s, 0);
      LowBits(Wrap64(acc * s), v * s, 0, to);
    }
    PowerAdd(2, bits, to - bits);
    Raise(v, Two(bits), s, Two(to));
  }

  /** The state of the loop after reading the number v: the groups written are v without its
      last `bits` bits, and the accumulator still knows enough of v to write the rest. */
  ghost predicate Buffered(v: nat, acc: int, bits: nat, ret: seq<nat>, to: nat) {
    Tracks(acc, v) && InRange(ret, Two(to)) && Value(ret, Two(to)) == v / Two(bits)
  }

  // The shifted accumulator ends in `from` zero bits, so the bitwise or is a sum.
  function Absorb(acc: int, d: nat, from: nat): int {
    Wrap64(acc * Two(from) + d)
  }

  function Emit(acc: int, bits: nat, to: nat): nat {
    (acc / Two(bits)) % Two(to)
  }

  lemma AbsorbStep(data: seq<nat>, i: nat, from: nat, acc: int, bits: nat, ret: seq<nat>, to: nat)
    requires i < |data| && data[i] < Two(from)
    requires Buffered(Value(data[..i], Two(from)), acc, bits, ret, to)
    ensures Buffered(Value(data[..i + 1], Two(from)), Absorb(acc, data[i], from), bits + from, ret, to)
  {
    var v := Value(data[..i], Two(from));
    assert data[..i + 1] == data[..i] + [data[i]];
    ValueSnoc(data[..i], data[i], Two(from));
    WrapTracks(acc, v, Two(from), data[i]);
    PutDigit(v, bits, data[i], from);
  }

  lemma EmitStep(v: nat, acc: int, bits: nat, ret: seq<nat>, to: nat)
    requires to <= bits <= 64 && Buffered(v, acc, bits, ret, to)
    ensures Buffered(v, acc, bits - to, ret + [Emit(acc, bits - to, to)], to)
  {
    TakeGroup(v, bits, to);
    LowBits(acc, v, bits - to, to);
    ValueSnoc(ret, Emit(acc, bits - to, to), Two(to));
  }

  lemma FinishPadded(v: nat, acc: int, bits: nat, ret: seq<nat>, to: nat)
    requires bits < to <= 64 && Buffered(v, acc, bits, ret, to)
    ensures Padded(v, |ret|, bits, to) == if bits == 0 then ret else ret + [Surplus(acc, bits, to)]
  {
    if bits == 0 {
      assert Two(bits) == 1;
      DigitsOfValue(ret, Two(to));
    } else {
      TakeRest(acc, v, bits, to);
      ValueSnoc(ret, Surplus(acc, bits, to), Two(to));
      DigitsOfValue(ret + [Surplus(acc, bits, to)], Two(to));
    }
  }

  lemma FinishCut(v: nat, acc: int, bits: nat, ret: seq<nat>, from: nat, to: nat)
    requires bits < to <= 64 && Buffered(v, acc, bits, ret, to)
    ensures Cut(v, |ret|, bits, from, to) ==
            if bits >= from || Surplus(acc, bits, to) != 0 then BadPadding else Groups(ret)
  {
    TakeRest(acc, v, bits, to);
    Positive(v % Two(bits), Two(to - bits));
    DigitsOfValue(ret, Two(to));
  }

  /** n groups of w bits; the recursion keeps products out of the loops below. */
  function Times(n: nat, w: nat): nat { if n == 0 then 0 else Times(n - 1, w) + w }

  lemma {:induction false} TimesIs(n: nat, w: nat)
    ensures Times(n, w) == n * w
  {
    if n > 0 {
      TimesIs(n - 1, w);
      Dist(n - 1, 1, w);
    }
  }

  lemma CountsOf(n: nat, from: nat, groups: nat, bits: nat, to: nat)
    requires bits < to && Times(groups, to) + bits == Times(n, from)
    ensures (from * n) / to == groups && (from * n) % to == bits
  {
    TimesIs(n, from);
    TimesIs(groups, to);
    DivMod(groups, bits, to);
  }

  /** What the loop has left over decides the result. */
  lemma Finish(data: seq<nat>, acc: int, bits: nat, ret: seq<nat>, from: nat, to: nat, pad: bool)
    requires from >= 1 && bits < to <= 64 && InRange(data, Two(from)) && Times(|ret|, to) + bits == Times(|data|, from)
    requires Buffered(Value(data, Two(from)), acc, bits, ret, to)
    ensures Regroup(data, from, to, pad) ==
            if pad then Groups(if bits == 0 then ret else ret + [Surplus(acc, bits, to)])
            else if bits >= from || Surplus(acc, bits, to) != 0 then BadPadding else Groups(ret)
  {
    CountsOf(|data|, from, |ret|, bits, to);
    FinishPadded(Value(data, Two(from)), acc, bits, ret, to);
    FinishCut(Value(data, Two(from)), acc, bits, ret, from, to);
  }

  /** The inner loop: full groups leave the accumulator. */
  method Drain(acc: int, have: nat, done: seq<nat>, to: nat, ghost v: nat) returns (bits: nat, ret: seq<nat>)
    requires 1 <= to && have <= 64 && Buffered(v, acc, have, done, to)
    ensures bits < to && Buffered(v, acc, bits, ret, to)
    ensures Times(|ret|, to) + bits == Times(|done|, to) + have
  {
    bits, ret := have, done;
    while bits >= to
      invariant bits <= have && Buffered(v, acc, bits, ret, to)
      invariant Times(|ret|, to) + bits == Times(|done|, to) + have
      decreases bits
    {
      EmitStep(v, acc, bits, ret, to);
      bits := bits - to;
      ret := ret + [Emit(acc, bits, to)];
    }
  }

  /** The state of the loop after the first n digits. */
  ghost predicate Loaded(data: seq<nat>, n: nat, from: nat, to: nat, acc: int, bits: nat, ret: seq<nat>)
    requires n <= |data|
  {
    && InRange(data[..n], Two(from)) && bits < to && Times(|ret|, to) + bits == Times(n, from)
    && Buffered(Value(data[..n], Two(from)), acc, bits, ret, to)
  }

  /** One digit goes through the accumulator. */
  method Feed(data: seq<nat>, n: nat, from: nat, to: nat, acc: int, bits: nat, ret: seq<nat>)
    returns (acc': int, bits': nat, ret': seq<nat>)
    requires 1 <= from <= 8 && 1 <= to <= 8 && n < |data| && data[n] < Two(from) &&
             Loaded(data, n, from, to, acc, bits, ret)
    ensures Loaded(data, n + 1, from, to, acc', bits', ret')
  {
    AbsorbStep(data, n, from, acc, bits, ret, to);
    acc' := Absorb(acc, data[n], from);
    bits', ret' := Drain(acc', bits + from, ret, to, Value(data[..n + 1], Two(from)));
    assert data[..n + 1] == data[..n] + [data[n]];
  }

  lemma NothingLoaded(data: seq<nat>, from: nat, to: nat)
    requires to >= 1
    ensures Loaded(data, 0, from, to, 0, 0, [])
  {
  }

  lemma AllLoaded(data: seq<nat>, from: nat, to: nat, acc: int, bits: nat, ret: seq<nat>, pad: bool)
    requires from >= 1 && to <= 64 && Loaded(data, |data|, from, to, acc, bits, ret)
    ensures bits < to
    ensures Regroup(data, from, to, pad) ==
            if pad then Groups(if bits == 0 then ret else ret + [Surplus(acc, bits, to)])
            else if bits >= from || Surplus(acc, bits, to) != 0 then BadPadding else Groups(ret)
  {
    assert data[..|data|] == data;
    Finish(data, acc, bits, ret, from, to, pad);
  }

  lemma OutOfRange(data: seq<nat>, n: nat, from: nat, to: nat, pad: bool)
    requires from >= 1 && to >= 1 && n < |data| && data[n] >= Two(from)
    ensures Regroup(data, from, to, pad) == BadRange
  {
  }

  /** The accumulator loop of convertBits computes the regrouping, although nothing ever
      masks the accumulator. */
  method ConvertBits(data: seq<nat>, from: nat, to: nat, pad: bool) returns (r: Outcome)
    requires 1 <= from <= 8 && 1 <= to <= 8
    ensures r == Regroup(data, from, to, pad)
  {
    var acc, bits: nat := 0, 0;
    var ret: seq<nat> := [];
    NothingLoaded(data, from, to);
    for n := 0 to |data|
      invariant Loaded(data, n, from, to, acc, bits, ret)
    {
      BelowBase(data[n], Two(from));
      if data[n] / Two(from) != 0 {
        OutOfRange(data, n, from, to, pad);
        return BadRange;
      }
      acc, bits, ret := Feed(data, n, from, to, acc, bits, ret);
    }
    AllLoaded(data, from, to, acc, bits, ret, pad);
    if pad {
      if bits > 0 {
        ret := ret + [Surplus(acc, bits, to)];
      }
    } else if bits >= from || Surplus(acc, bits, to) != 0 {
      return BadPadding;
    }
    return Groups(ret);
  }

  lemma BelowBase(d: nat, b: nat)
    requires b >= 1
    ensures d / b == 0 <==> d < b
  {
  }

  lemma Positive(x: nat, y: nat)
    requires y > 0
    ensures x * y == 0 <==> x == 0
  {
  }

  lemma PaddedFits(v: nat, n: nat, p: nat, m: nat)
    requires v < Power(256, n) && 8 * n + p == 5 * m
    ensures v * Two(p) < Power(32, m)
  {
    assert Two(8) == 256;
    assert Two(5) == 32;
    Exponents(8, n);
    Exponents(5, m);
    PowerAdd(2, 8 * n, p);
    ScaleUp(0, v, Two(8 * n), Two(p), 0);
  }

  /** How many groups there are and what is left over, both ways. */
  lemma Counts(n: nat, m: nat, p: nat)
    requires p < 5 && 5 * m == 8 * n + p
    ensures (8 * n) / 5 == (if p == 0 then m else m - 1) && (8 * n) % 5 == (if p == 0 then 0 else 5 - p)
    ensures (5 * m) / 8 == n && (5 * m) % 8 == p
  {
  }

  lemma SplitGroups(v: nat, n: nat, m: nat, p: nat, count: nat, rest: nat)
    requires v < Power(256, n) && p < 5 && 5 * m == 8 * n + p
    requires count == (if p == 0 then m else m - 1) && rest == (if p == 0 then 0 else 5 - p)
    ensures var groups := Padded(v, count, rest, 5);
            |groups| == m && InRange(groups, 32) && Value(groups, 32) == v * Two(p)
  {
    PaddedFits(v, n, p, m);
    GroupsOf(v, v * Two(p), m, p, count, rest);
  }

  lemma GroupsOf(v: nat, w: nat, m: nat, p: nat, count: nat, rest: nat)
    requires p < 5 && (p > 0 ==> m > 0) && w == v * Two(p) && w < Power(32, m)
    requires count == (if p == 0 then m else m - 1) && rest == (if p == 0 then 0 else 5 - p)
    ensures var groups := Padded(v, count, rest, 5);
            |groups| == m && InRange(groups, 32) && Value(groups, 32) == w
  {
    var base := 32;
    PaddedWhole(v, m, p);
    ValueOfDigits(w, base, m);
  }

  lemma PaddedWhole(v: nat, m: nat, p: nat)
    requires p < 5 && (p > 0 ==> m > 0)
    ensures Padded(v, if p == 0 then m else m - 1, if p == 0 then 0 else 5 - p, 5) == Digits(v * Two(p), 32, m)
  {
  }

  lemma JoinGroups(v: nat, data: seq<nat>, p: nat)
    requires InRange(data, 256) && p < 5 && v == Value(data, 256) * Two(p)
    ensures Cut(v, |data|, p, 5, 8) == Groups(data)
  {
    assert Two(8) == 256;
    DivMod(Value(data, 256), 0, Two(p));
    DigitsOfValue(data, 256);
  }

  /** Splitting any byte string into 5-bit groups with padding succeeds, every group is
      below 32, and joining the groups without padding gives the bytes back. */
  lemma RoundTrip(data: seq<nat>)
    requires InRange(data, 256)
    ensures Regroup(data, 8, 5, true).Groups? && InRange(Regroup(data, 8, 5, true).groups, 32)
    ensures Regroup(Regroup(data, 8, 5, true).groups, 5, 8, false) == Groups(data)
  {
    var n, m := |data|, (8 * |data| + 4) / 5;
    var p := 5 * m - 8 * n;
    var v, groups := Value(data, 256), Regroup(data, 8, 5, true).groups;
    assert Two(8) == 256 && Two(5) == 32;
    ValueBelow(data, 256);
    Counts(n, m, p);
    SplitGroups(v, n, m, p, (8 * n) / 5, (8 * n) % 5);
    JoinGroups(v * Two(p), data, p);
    Rejoin(groups, m, v * Two(p), n, p);
  }

  /** Joining is cutting the surplus off the number that the groups spell. */
  lemma Rejoin(groups: seq<nat>, m: nat, v: nat, n: nat, p: nat)
    requires |groups| == m && InRange(groups, 32) && Value(groups, 32) == v && (5 * m) / 8 == n && (5 * m) % 8 == p
    ensures Regroup(groups, 5, 8, false) == Cut(v, n, p, 5, 8)
  {
  }

  lemma {:induction false} Exponents(w: nat, n: nat)
    ensures Power(Two(w), n) == Two(w * n)
  {
    if n > 0 {
      Exponents(w, n - 1);
      PowerAdd(2, w, w * (n - 1));
      assert w + w * (n - 1) == w * n;
    }
  }
}
