/** The Bech32 checksum once more, on numbers: what the words of bits stand for, and the values BIP 173 gives. */
module Bech32Numbers {
  import opened Radix
  import opened Bech32

  /** Bit i of a number. */
  function BitOf(v: nat, i: nat): bool { if i == 0 then v % 2 == 1 else BitOf(v / 2, i - 1) }

  function Number(v: nat): Word { Bits(v, 64) }

  lemma {:induction false} BitsAre(v: nat, n: nat, i: nat)
    requires i < n
    ensures Bits(v, n)[i] == BitOf(v, i)
  {
    if i > 0 {
      BitsAre(v / 2, n - 1, i - 1);
    }
  }

  /** A word that has the number's bits is the number's. */
  lemma ByBits(w: Word, v: nat)
    requires forall i :: 0 <= i < 64 ==> w[i] == BitOf(v, i)
    ensures w == Number(v)
  {
    forall i | 0 <= i < 64 ensures w[i] == Number(v)[i] {
      BitsAre(v, 64, i);
    }
  }

  // ---- Shifts and masks ----

  lemma {:induction false} BitShift(v: nat, i: nat, k: nat)
    ensures BitOf(v, i + k) == BitOf(v / Power(2, k), i)
  {
    if k > 0 {
      BitShift(v / 2, i, k - 1);
      DivDiv(v, Power(2, k - 1), 2);
    }
  }

  lemma HalfOfMod(v: nat, p: nat)
    requires p >= 1
    ensures (v % (2 * p)) % 2 == v % 2 && (v % (2 * p)) / 2 == (v / 2) % p
  {
    var q, r := v / (2 * p), v % (2 * p);
    Split(v, 2 * p);
    Assoc(q, p, 2);
    assert v == 2 * (q * p) + r;
    assert v / 2 == q * p + r / 2;
    DivMod(q, r / 2, p);
  }

  /** The lowest k bits. */
  lemma {:induction false} BitOfMod(v: nat, k: nat, i: nat)
    ensures BitOf(v % Power(2, k), i) == (i < k && BitOf(v, i))
    decreases i
  {
    if k == 0 {
      ZeroBit(i);
    } else {
      HalfOfMod(v, Power(2, k - 1));
      if i > 0 {
        BitOfMod(v / 2, k - 1, i - 1);
      }
    }
  }

  lemma {:induction false} ZeroBit(i: nat)
    ensures !BitOf(0, i)
  {
    if i > 0 {
      ZeroBit(i - 1);
    }
  }

  lemma Above(v: nat, k: nat, i: nat)
    requires v < Power(2, k) && i >= k
    ensures !BitOf(v, i)
  {
    DivMod(0, v, Power(2, k));
    BitOfMod(v, k, i);
  }

  lemma LowIs(v: nat, k: nat)
    ensures Low(Number(v), k) == Number(v % Power(2, k))
  {
    forall i | 0 <= i < 64 ensures Low(Number(v), k)[i] == BitOf(v % Power(2, k), i) {
      BitsAre(v, 64, i);
      BitOfMod(v, k, i);
    }
    ByBits(Low(Number(v), k), v % Power(2, k));
  }

  lemma RightBit(v: nat, k: nat, m: nat, q: nat, i: nat)
    requires v < Power(2, m) && m <= 64 && i < 64 && q == v / Power(2, k)
    ensures Right(Number(v), k)[i] == BitOf(q, i)
  {
    BitShift(v, i, k);
    if i + k < 64 {
      BitsAre(v, 64, i + k);
    } else {
      Above(v, m, i + k);
    }
  }

  lemma RightIs(v: nat, k: nat, m: nat, q: nat)
    requires v < Power(2, m) && m <= 64 && q == v / Power(2, k)
    ensures Right(Number(v), k) == Number(q)
  {
    forall i | 0 <= i < 64 ensures Right(Number(v), k)[i] == BitOf(q, i) {
      RightBit(v, k, m, q, i);
    }
    ByBits(Right(Number(v), k), q);
  }

  lemma LeftIs(v: nat, k: nat)
    ensures Left(Number(v), k) == Number(v * Power(2, k))
  {
    var w := v * Power(2, k);
    DivMod(v, 0, Power(2, k));
    forall i | 0 <= i < 64 ensures Left(Number(v), k)[i] == BitOf(w, i) {
      if i >= k {
        BitsAre(v, 64, i - k);
        BitShift(w, i - k, k);
      } else {
        BitOfMod(w, k, i);
        ZeroBit(i);
      }
    }
    ByBits(Left(Number(v), k), w);
  }

  // ---- Exclusive or ----

  function XorNat(a: nat, b: nat): nat {
    if a == 0 && b == 0 then 0 else (if a % 2 == b % 2 then 0 else 1) + 2 * XorNat(a / 2, b / 2)
  }

  lemma {:induction false} XorBit(a: nat, b: nat, i: nat)
    ensures BitOf(XorNat(a, b), i) == (BitOf(a, i) != BitOf(b, i))
    decreases i
  {
    if a == 0 && b == 0 {
      ZeroBit(i);
    } else if i > 0 {
      XorBit(a / 2, b / 2, i - 1);
    }
  }

  lemma {:induction false} XorBelow(a: nat, b: nat, k: nat)
    requires a < Power(2, k) && b < Power(2, k)
    ensures XorNat(a, b) < Power(2, k)
  {
    if k > 0 {
      XorBelow(a / 2, b / 2, k - 1);
    }
  }

  lemma XorIs(a: nat, b: nat)
    ensures Xor(Number(a), Number(b)) == Number(XorNat(a, b))
  {
    forall i | 0 <= i < 64 ensures Xor(Number(a), Number(b))[i] == BitOf(XorNat(a, b), i) {
      BitsAre(a, 64, i);
      BitsAre(b, 64, i);
      XorBit(a, b, i);
    }
    ByBits(Xor(Number(a), Number(b)), XorNat(a, b));
  }

  // ---- The register as a number ----

  function FedNat(c: nat, top: nat, n: nat): nat
    requires n <= 5
  {
    if n == 0 then c
    else if BitOf(top, n - 1) then XorNat(FedNat(c, top, n - 1), GENERATORS[n - 1])
    else FedNat(c, top, n - 1)
  }

  /** The step of BIP 173: the top five bits select generators. */
  function StepNat(c: nat, v: nat): nat {
    FedNat(XorNat((c % 0x2000000) * 32, v), c / 0x2000000, 5)
  }

  function PolymodNat(values: seq<nat>): nat {
    if values == [] then 1 else StepNat(PolymodNat(values[..|values| - 1]), values[|values| - 1])
  }

  function Numbers(values: seq<nat>): (ws: seq<Word>)
    ensures |ws| == |values| && forall i :: 0 <= i < |ws| ==> ws[i] == Number(values[i])
  {
    seq(|values|, i requires 0 <= i < |values| => Number(values[i]))
  }

  lemma {:induction false} FedIs(c: nat, top: nat, n: nat)
    requires n <= 5
    ensures Fed(Generators(), Number(c), Number(top), n) == Number(FedNat(c, top, n))
  {
    if n > 0 {
      FedIs(c, top, n - 1);
      BitsAre(top, 64, n - 1);
      XorIs(FedNat(c, top, n - 1), GENERATORS[n - 1]);
    }
  }

  lemma {:induction false} FedStays(c: nat, top: nat, n: nat)
    requires n <= 5 && c < Power(2, 30)
    ensures FedNat(c, top, n) < Power(2, 30)
  {
    if n > 0 {
      FedStays(c, top, n - 1);
      ThirtyBits();
      XorBelow(FedNat(c, top, n - 1), GENERATORS[n - 1], 30);
    }
  }

  lemma Powers()
    ensures Power(2, 25) == 0x2000000 && Power(2, 5) == 32 && Power(2, 30) == 0x40000000
  {
    ThirtyBits();
    assert Power(2, 5) == 32;
    PowerAdd(2, 25, 5);
  }

  lemma StepIs(c: nat, v: nat)
    requires c < Power(2, 30) && v < 32
    ensures Step(Generators(), Number(c), Number(v)) == Number(StepNat(c, v)) && StepNat(c, v) < Power(2, 30)
  {
    var low, top := c % 0x2000000, c / 0x2000000;
    Powers();
    LowIs(c, 25);
    LeftIs(low, 5);
    XorIs(low * 32, v);
    RightIs(c, 25, 30, top);
    FedIs(XorNat(low * 32, v), top, 5);
    XorBelow(low * 32, v, 30);
    FedStays(XorNat(low * 32, v), top, 5);
  }

  /** The register of bits is the register of numbers. */
  lemma {:induction false} PolymodIs(values: seq<nat>)
    requires forall i :: 0 <= i < |values| ==> values[i] < 32
    ensures Polymod(Numbers(values)) == Number(PolymodNat(values)) && PolymodNat(values) < Power(2, 30)
  {
    if values == [] {
      Powers();
    } else {
      var past := values[..|values| - 1];
      PolymodIs(past);
      StepIs(PolymodNat(past), values[|values| - 1]);
      assert Numbers(values)[..|values| - 1] == Numbers(past);
    }
  }

  // ---- The expanded prefix ----

  lemma ExpandAt(hrp: seq<Word>, i: nat)
    requires i < |hrp|
    ensures var n, e := |hrp|, HrpExpand(hrp);
            |e| == 2 * n + 1 && e[i] == Right(hrp[i], 5) && e[n] == ZERO && e[n + 1 + i] == Low(hrp[i], 5)
  {
  }

  lemma CodeHalves(code: nat)
    requires code < 128
    ensures Right(Number(code), 5) == Number(code / 32) && Low(Number(code), 5) == Number(code % 32)
  {
    assert Power(2, 5) == 32;
    assert Power(2, 7) == 128;
    RightIs(code, 5, 7, code / 32);
    LowIs(code, 5);
  }

  /** For every prefix of n characters the expansion has 2n + 1 entries: the codes divided by 32, a zero, and the codes
      modulo 32. */
  lemma ExpansionMeans(codes: seq<nat>, i: nat)
    requires (forall j :: 0 <= j < |codes| ==> codes[j] < 128) && i < |codes|
    ensures var n, e := |codes|, HrpExpand(Numbers(codes));
            && |e| == 2 * n + 1 && e[i] == Number(codes[i] / 32) && e[n] == Number(0)
            && e[n + 1 + i] == Number(codes[i] % 32)
  {
    ExpandAt(Numbers(codes), i);
    CodeHalves(codes[i]);
    ZeroIs();
  }

  lemma ZeroIs()
    ensures ZERO == Number(0)
  {
    forall i | 0 <= i < 64 ensures ZERO[i] == BitOf(0, i) {
      ZeroBit(i);
    }
    ByBits(ZERO, 0);
  }

  // ---- A value of BIP 173 ----

  // Numbers with the same bits are the same.

  lemma {:induction false} SameNumber(u: nat, v: nat)
    requires forall i: nat :: BitOf(u, i) == BitOf(v, i)
    ensures u == v
  {
    if u != 0 || v != 0 {
      assert BitOf(u, 0) == BitOf(v, 0);
      forall i: nat ensures BitOf(u / 2, i) == BitOf(v / 2, i) {
        assert BitOf(u, i + 1) == BitOf(v, i + 1);
      }
      SameNumber(u / 2, v / 2);
    }
  }

  lemma BitOfSum(a: nat, x: nat, p: nat, k: nat, i: nat)
    requires p == Power(2, k) && x < p
    ensures BitOf(a * p + x, i) == if i < k then BitOf(x, i) else BitOf(a, i - k)
  {
    DivMod(a, x, p);
    if i < k {
      BitOfMod(a * p + x, k, i);
      DivMod(0, x, p);
      BitOfMod(x, k, i);
    } else {
      BitShift(a * p + x, i - k, k);
    }
  }

  /** u is a, shifted by k bits, with x below it. */
  ghost predicate Glued(u: nat, a: nat, x: nat, k: nat) {
    forall i: nat :: BitOf(u, i) == if i < k then BitOf(x, i) else BitOf(a, i - k)
  }

  lemma GluedBy(u: nat, a: nat, x: nat, p: nat, k: nat)
    requires p == Power(2, k) && x < p && u == a * p + x
    ensures Glued(u, a, x, k)
  {
    forall i: nat ensures BitOf(u, i) == if i < k then BitOf(x, i) else BitOf(a, i - k) {
      BitOfSum(a, x, p, k, i);
    }
  }

  lemma XorGlued(u: nat, a: nat, x: nat, v: nat, b: nat, y: nat, t: nat, r: nat, z: nat, k: nat)
    requires Glued(u, a, x, k) && Glued(v, b, y, k) && Glued(t, r, z, k) && XorNat(a, b) == r && XorNat(x, y) == z
    ensures XorNat(u, v) == t
  {
    forall i: nat ensures BitOf(XorNat(u, v), i) == BitOf(t, i) {
      XorBit(u, v, i);
      if i < k {
        XorBit(x, y, i);
      } else {
        XorBit(a, b, i - k);
      }
    }
    SameNumber(XorNat(u, v), t);
  }

  /** Digits are added one by one. */
  lemma XorDigit(u: nat, a: nat, x: nat, v: nat, b: nat, y: nat, t: nat, r: nat, z: nat, p: nat, k: nat)
    requires p == Power(2, k) && x < p && y < p && u == a * p + x && v == b * p + y && t == r * p + z
    requires XorNat(a, b) == r && XorNat(x, y) == z
    ensures XorNat(u, v) == t
  {
    XorBelow(x, y, k);
    GluedBy(u, a, x, p, k);
    GluedBy(v, b, y, p, k);
    GluedBy(t, r, z, p, k);
    XorGlued(u, a, x, v, b, y, t, r, z, k);
  }

  lemma XorByte(a: nat, b: nat, p: nat, q: nat, i: nat, j: nat)
    requires b < 16 && q < 16 && XorNat(a, p) == i && XorNat(b, q) == j
    ensures XorNat(a * 16 + b, p * 16 + q) == i * 16 + j
  {
    assert Power(2, 4) == 16;
    XorDigit(a * 16 + b, a, b, p * 16 + q, p, q, i * 16 + j, i, j, 16, 4);
  }

  lemma XorShort(a: nat, b: nat, p: nat, q: nat, i: nat, j: nat)
    requires b < 256 && q < 256 && XorNat(a, p) == i && XorNat(b, q) == j
    ensures XorNat(a * 256 + b, p * 256 + q) == i * 256 + j
  {
    assert Power(2, 8) == 256;
    XorDigit(a * 256 + b, a, b, p * 256 + q, p, q, i * 256 + j, i, j, 256, 8);
  }

  function Four(a: nat, b: nat, c: nat, d: nat): nat { (a * 16 + b) * 256 + (c * 16 + d) }

  lemma XorFour(a: nat, b: nat, c: nat, d: nat, p: nat, q: nat, r: nat, s: nat, i: nat, j: nat, k: nat, l: nat)
    requires b < 16 && c < 16 && d < 16 && q < 16 && r < 16 && s < 16
    requires XorNat(a, p) == i && XorNat(b, q) == j && XorNat(c, r) == k && XorNat(d, s) == l
    ensures XorNat(Four(a, b, c, d), Four(p, q, r, s)) == Four(i, j, k, l)
  {
    XorByte(a, b, p, q, i, j);
    XorByte(c, d, r, s, k, l);
    XorShort(a * 16 + b, c * 16 + d, p * 16 + q, r * 16 + s, i * 16 + j, k * 16 + l);
  }

  /** Two numbers of eight hexadecimal digits, each in two halves. */
  lemma XorHex(x: nat, g: nat, xh: nat, xl: nat, gh: nat, gl: nat, rh: nat, rl: nat)
    requires x == xh * 65536 + xl && g == gh * 65536 + gl && xl < 65536 && gl < 65536
    requires XorNat(xh, gh) == rh && XorNat(xl, gl) == rl
    ensures XorNat(x, g) == rh * 65536 + rl
  {
    assert Power(2, 8) == 256;
    PowerAdd(2, 8, 8);
    XorDigit(x, xh, xl, g, gh, gl, rh * 65536 + rl, rh, rl, 65536, 16);
  }

  lemma {:induction false} XorZero(a: nat)
    ensures XorNat(a, 0) == a && XorNat(0, a) == a
  {
    if a > 0 {
      XorZero(a / 2);
    }
  }

  /** A value fits below the shifted register. */
  lemma XorLow(c: nat, v: nat)
    requires v < 32
    ensures XorNat(c * 32, v) == c * 32 + v
  {
    assert Power(2, 5) == 32;
    XorZero(c);
    XorZero(v);
    XorDigit(c * 32, c, 0, v, 0, v, c * 32 + v, c, v, 32, 5);
  }

  lemma FedBy(c: nat, top: nat, b0: bool, b1: bool, b2: bool, b3: bool, b4: bool,
              r1: nat, r2: nat, r3: nat, r4: nat, r5: nat)
    requires top == Bit(b0) + 2 * (Bit(b1) + 2 * (Bit(b2) + 2 * (Bit(b3) + 2 * Bit(b4))))
    requires r1 == (if b0 then XorNat(c, GENERATORS[0]) else c) && r2 == (if b1 then XorNat(r1, GENERATORS[1]) else r1)
    requires r3 == (if b2 then XorNat(r2, GENERATORS[2]) else r2) &&
             r4 == (if b3 then XorNat(r3, GENERATORS[3]) else r3)
    requires r5 == (if b4 then XorNat(r4, GENERATORS[4]) else r4)
    ensures FedNat(c, top, 5) == r5
  {
    RowOf(b0, b1, b2, b3, b4, top);
    forall i | 0 <= i < 5 ensures BitOf(top, i) == [b0, b1, b2, b3, b4][i] {
      BitsAre(top, 5, i);
    }
    var n: nat := 5;
    assert FedNat(c, top, n - 5) == c;
    assert FedNat(c, top, n - 4) == r1;
    assert FedNat(c, top, n - 3) == r2;
    assert FedNat(c, top, n - 2) == r3;
    assert FedNat(c, top, n - 1) == r4;
  }

  lemma StepBy(c: nat, v: nat, low: nat, top: nat, base: nat, r: nat)
    requires c == 0x2000000 * top + low && low < 0x2000000 && v < 32 && base == low * 32 + v &&
             FedNat(base, top, 5) == r
    ensures StepNat(c, v) == r
  {
    XorLow(low, v);
  }

  lemma High1(x: nat, g: nat)
    requires x == 0x600 && g == 0x3b6a
    ensures XorNat(x, g) == 0x3d6a
  {
    XorFour(0x0, 0x6, 0x0, 0x0, 0x3, 0xb, 0x6, 0xa, 0x3, 0xd, 0x6, 0xa);
  }

  lemma Low1(x: nat, g: nat)
    requires x == 0xab99 && g == 0x57b2
    ensures XorNat(x, g) == 0xfc2b
  {
    XorFour(0xa, 0xb, 0x9, 0x9, 0x5, 0x7, 0xb, 0x2, 0xf, 0xc, 0x2, 0xb);
  }

  lemma Sum1(x: nat, g: nat)
    requires x == 0x600ab99 && g == 0x3b6a57b2
    ensures XorNat(x, g) == 0x3d6afc2b
  {
    var xh, xl, gh, gl := 0x600, 0xab99, 0x3b6a, 0x57b2;
    High1(xh, gh);
    Low1(xl, gl);
    XorHex(x, g, xh, xl, gh, gl, 0x3d6a, 0xfc2b);
  }

  lemma High2(x: nat, g: nat)
    requires x == 0x2d5f && g == 0x2650
    ensures XorNat(x, g) == 0xb0f
  {
    XorFour(0x2, 0xd, 0x5, 0xf, 0x2, 0x6, 0x5, 0x0, 0x0, 0xb, 0x0, 0xf);
  }

  lemma Low2(x: nat, g: nat)
    requires x == 0x857f && g == 0x8e6d
    ensures XorNat(x, g) == 0xb12
  {
    XorFour(0x8, 0x5, 0x7, 0xf, 0x8, 0xe, 0x6, 0xd, 0x0, 0xb, 0x1, 0x2);
  }

  lemma Sum2(x: nat, g: nat)
    requires x == 0x2d5f857f && g == 0x26508e6d
    ensures XorNat(x, g) == 0xb0f0b12
  {
    var xh, xl, gh, gl := 0x2d5f, 0x857f, 0x2650, 0x8e6d;
    High2(xh, gh);
    Low2(xl, gl);
    XorHex(x, g, xh, xl, gh, gl, 0xb0f, 0xb12);
  }

  lemma High3(x: nat, g: nat)
    requires x == 0xb0f && g == 0x1ea1
    ensures XorNat(x, g) == 0x15ae
  {
    XorFour(0x0, 0xb, 0x0, 0xf, 0x1, 0xe, 0xa, 0x1, 0x1, 0x5, 0xa, 0xe);
  }

  lemma Low3(x: nat, g: nat)
    requires x == 0xb12 && g == 0x19fa
    ensures XorNat(x, g) == 0x12e8
  {
    XorFour(0x0, 0xb, 0x1, 0x2, 0x1, 0x9, 0xf, 0xa, 0x1, 0x2, 0xe, 0x8);
  }

  lemma Sum3(x: nat, g: nat)
    requires x == 0xb0f0b12 && g == 0x1ea119fa
    ensures XorNat(x, g) == 0x15ae12e8
  {
    var xh, xl, gh, gl := 0xb0f, 0xb12, 0x1ea1, 0x19fa;
    High3(xh, gh);
    Low3(xl, gl);
    XorHex(x, g, xh, xl, gh, gl, 0x15ae, 0x12e8);
  }

  lemma High4(x: nat, g: nat)
    requires x == 0x15ae && g == 0x3d42
    ensures XorNat(x, g) == 0x28ec
  {
    XorFour(0x1, 0x5, 0xa, 0xe, 0x3, 0xd, 0x4, 0x2, 0x2, 0x8, 0xe, 0xc);
  }

  lemma Low4(x: nat, g: nat)
    requires x == 0x12e8 && g == 0x33dd
    ensures XorNat(x, g) == 0x2135
  {
    XorFour(0x1, 0x2, 0xe, 0x8, 0x3, 0x3, 0xd, 0xd, 0x2, 0x1, 0x3, 0x5);
  }

  lemma Sum4(x: nat, g: nat)
    requires x == 0x15ae12e8 && g == 0x3d4233dd
    ensures XorNat(x, g) == 0x28ec2135
  {
    var xh, xl, gh, gl := 0x15ae, 0x12e8, 0x3d42, 0x33dd;
    High4(xh, gh);
    Low4(xl, gl);
    XorHex(x, g, xh, xl, gh, gl, 0x28ec, 0x2135);
  }

  lemma High5(x: nat, g: nat)
    requires x == 0x28ec && g == 0x2a14
    ensures XorNat(x, g) == 0x2f8
  {
    XorFour(0x2, 0x8, 0xe, 0xc, 0x2, 0xa, 0x1, 0x4, 0x0, 0x2, 0xf, 0x8);
  }

  lemma Low5(x: nat, g: nat)
    requires x == 0x2135 && g == 0x62b3
    ensures XorNat(x, g) == 0x4386
  {
    XorFour(0x2, 0x1, 0x3, 0x5, 0x6, 0x2, 0xb, 0x3, 0x4, 0x3, 0x8, 0x6);
  }

  lemma Sum5(x: nat, g: nat)
    requires x == 0x28ec2135 && g == 0x2a1462b3
    ensures XorNat(x, g) == 0x2f84386
  {
    var xh, xl, gh, gl := 0x28ec, 0x2135, 0x2a14, 0x62b3;
    High5(xh, gh);
    Low5(xl, gl);
    XorHex(x, g, xh, xl, gh, gl, 0x2f8, 0x4386);
  }

  lemma High6(x: nat, g: nat)
    requires x == 0x1f08 && g == 0x3b6a
    ensures XorNat(x, g) == 0x2462
  {
    XorFour(0x1, 0xf, 0x0, 0x8, 0x3, 0xb, 0x6, 0xa, 0x2, 0x4, 0x6, 0x2);
  }

  lemma Low6(x: nat, g: nat)
    requires x == 0x70d4 && g == 0x57b2
    ensures XorNat(x, g) == 0x2766
  {
    XorFour(0x7, 0x0, 0xd, 0x4, 0x5, 0x7, 0xb, 0x2, 0x2, 0x7, 0x6, 0x6);
  }

  lemma Sum6(x: nat, g: nat)
    requires x == 0x1f0870d4 && g == 0x3b6a57b2
    ensures XorNat(x, g) == 0x24622766
  {
    var xh, xl, gh, gl := 0x1f08, 0x70d4, 0x3b6a, 0x57b2;
    High6(xh, gh);
    Low6(xl, gl);
    XorHex(x, g, xh, xl, gh, gl, 0x2462, 0x2766);
  }

  lemma High7(x: nat, g: nat)
    requires x == 0xc44 && g == 0x2650
    ensures XorNat(x, g) == 0x2a14
  {
    XorFour(0x0, 0xc, 0x4, 0x4, 0x2, 0x6, 0x5, 0x0, 0x2, 0xa, 0x1, 0x4);
  }

  lemma Low7(x: nat, g: nat)
    requires x == 0xecdf && g == 0x8e6d
    ensures XorNat(x, g) == 0x62b2
  {
    XorFour(0xe, 0xc, 0xd, 0xf, 0x8, 0xe, 0x6, 0xd, 0x6, 0x2, 0xb, 0x2);
  }

  lemma Sum7(x: nat, g: nat)
    requires x == 0xc44ecdf && g == 0x26508e6d
    ensures XorNat(x, g) == 0x2a1462b2
  {
    var xh, xl, gh, gl := 0xc44, 0xecdf, 0x2650, 0x8e6d;
    High7(xh, gh);
    Low7(xl, gl);
    XorHex(x, g, xh, xl, gh, gl, 0x2a14, 0x62b2);
  }

  lemma High8(x: nat, g: nat)
    requires x == 0x2a14 && g == 0x2a14
    ensures XorNat(x, g) == 0x0
  {
    XorFour(0x2, 0xa, 0x1, 0x4, 0x2, 0xa, 0x1, 0x4, 0x0, 0x0, 0x0, 0x0);
  }

  lemma Low8(x: nat, g: nat)
    requires x == 0x62b2 && g == 0x62b3
    ensures XorNat(x, g) == 0x1
  {
    XorFour(0x6, 0x2, 0xb, 0x2, 0x6, 0x2, 0xb, 0x3, 0x0, 0x0, 0x0, 0x1);
  }

  lemma Sum8(x: nat, g: nat)
    requires x == 0x2a1462b2 && g == 0x2a1462b3
    ensures XorNat(x, g) == 0x1
  {
    var xh, xl, gh, gl := 0x2a14, 0x62b2, 0x2a14, 0x62b3;
    High8(xh, gh);
    Low8(xl, gl);
    XorHex(x, g, xh, xl, gh, gl, 0x0, 0x1);
  }

  lemma Step1(c: nat, v: nat)
    requires c == 0x1 && v == 3
    ensures StepNat(c, v) == 0x23
  {
    FedBy(0x23, 0, false, false, false, false, false, 0x23, 0x23, 0x23, 0x23, 0x23);
    StepBy(c, v, 0x1, 0, 0x23, 0x23);
  }

  lemma Step2(c: nat, v: nat)
    requires c == 0x23 && v == 0
    ensures StepNat(c, v) == 0x460
  {
    FedBy(0x460, 0, false, false, false, false, false, 0x460, 0x460, 0x460, 0x460, 0x460);
    StepBy(c, v, 0x23, 0, 0x460, 0x460);
  }

  lemma Step3(c: nat, v: nat)
    requires c == 0x460 && v == 1
    ensures StepNat(c, v) == 0x8c01
  {
    FedBy(0x8c01, 0, false, false, false, false, false, 0x8c01, 0x8c01, 0x8c01, 0x8c01, 0x8c01);
    StepBy(c, v, 0x460, 0, 0x8c01, 0x8c01);
  }

  lemma Step4(c: nat, v: nat)
    requires c == 0x8c01 && v == 10
    ensures StepNat(c, v) == 0x11802a
  {
    FedBy(0x11802a, 0, false, false, false, false, false, 0x11802a, 0x11802a, 0x11802a, 0x11802a, 0x11802a);
    StepBy(c, v, 0x8c01, 0, 0x11802a, 0x11802a);
  }

  lemma Step5(c: nat, v: nat)
    requires c == 0x11802a && v == 28
    ensures StepNat(c, v) == 0x230055c
  {
    FedBy(0x230055c, 0, false, false, false, false, false, 0x230055c, 0x230055c, 0x230055c, 0x230055c, 0x230055c);
    StepBy(c, v, 0x11802a, 0, 0x230055c, 0x230055c);
  }

  lemma Step6(c: nat, v: nat)
    requires c == 0x230055c && v == 25
    ensures StepNat(c, v) == 0x3d6afc2b
  {
    Sum1(0x600ab99, GENERATORS[0]);
    FedBy(0x600ab99, 1, true, false, false, false, false, 0x3d6afc2b, 0x3d6afc2b, 0x3d6afc2b, 0x3d6afc2b, 0x3d6afc2b);
    StepBy(c, v, 0x30055c, 1, 0x600ab99, 0x3d6afc2b);
  }

  lemma Step7(c: nat, v: nat)
    requires c == 0x3d6afc2b && v == 31
    ensures StepNat(c, v) == 0x2f84386
  {
    Sum2(0x2d5f857f, GENERATORS[1]);
    Sum3(0xb0f0b12, GENERATORS[2]);
    Sum4(0x15ae12e8, GENERATORS[3]);
    Sum5(0x28ec2135, GENERATORS[4]);
    FedBy(0x2d5f857f, 30, false, true, true, true, true, 0x2d5f857f, 0xb0f0b12, 0x15ae12e8, 0x28ec2135, 0x2f84386);
    StepBy(c, v, 0x16afc2b, 30, 0x2d5f857f, 0x2f84386);
  }

  lemma Step8(c: nat, v: nat)
    requires c == 0x2f84386 && v == 20
    ensures StepNat(c, v) == 0x24622766
  {
    Sum6(0x1f0870d4, GENERATORS[0]);
    FedBy(0x1f0870d4, 1, true, false, false, false, false, 0x24622766, 0x24622766, 0x24622766, 0x24622766, 0x24622766);
    StepBy(c, v, 0xf84386, 1, 0x1f0870d4, 0x24622766);
  }

  lemma Step9(c: nat, v: nat)
    requires c == 0x24622766 && v == 31
    ensures StepNat(c, v) == 0x1
  {
    Sum7(0xc44ecdf, GENERATORS[1]);
    Sum8(0x2a1462b2, GENERATORS[4]);
    FedBy(0xc44ecdf, 18, false, true, false, false, true, 0xc44ecdf, 0x2a1462b2, 0x2a1462b2, 0x2a1462b2, 0x1);
    StepBy(c, v, 0x622766, 18, 0xc44ecdf, 0x1);
  }

  lemma Next(values: seq<nat>, n: nat, r: nat)
    requires n < |values| && StepNat(PolymodNat(values[..n]), values[n]) == r
    ensures PolymodNat(values[..n + 1]) == r
  {
    assert values[..n + 1][..n] == values[..n];
  }

  lemma Begin(values: seq<nat>)
    ensures PolymodNat(values[..0]) == 1
  {
    assert values[..0] == [];
  }

  lemma FirstThree(values: seq<nat>)
    requires |values| == 9 && values[0] == 3 && values[1] == 0 && values[2] == 1
    ensures PolymodNat(values[..3]) == 0x8c01
  {
    Begin(values);
    Step1(PolymodNat(values[..0]), values[0]);
    Next(values, 0, 0x23);
    Step2(PolymodNat(values[..1]), values[1]);
    Next(values, 1, 0x460);
    Step3(PolymodNat(values[..2]), values[2]);
    Next(values, 2, 0x8c01);
  }

  lemma NextThree(values: seq<nat>)
    requires |values| == 9 && values[3] == 10 && values[4] == 28 && values[5] == 25 && PolymodNat(values[..3]) == 0x8c01
    ensures PolymodNat(values[..6]) == 0x3d6afc2b
  {
    Step4(PolymodNat(values[..3]), values[3]);
    Next(values, 3, 0x11802a);
    Step5(PolymodNat(values[..4]), values[4]);
    Next(values, 4, 0x230055c);
    Step6(PolymodNat(values[..5]), values[5]);
    Next(values, 5, 0x3d6afc2b);
  }

  lemma LastThree(values: seq<nat>)
    requires |values| == 9 && values[6] == 31 && values[7] == 20 && values[8] == 31 &&
             PolymodNat(values[..6]) == 0x3d6afc2b
    ensures PolymodNat(values[..9]) == 1
  {
    Step7(PolymodNat(values[..6]), values[6]);
    Next(values, 6, 0x2f84386);
    Step8(PolymodNat(values[..7]), values[7]);
    Next(values, 7, 0x24622766);
    Step9(PolymodNat(values[..8]), values[8]);
    Next(values, 8, 0x1);
  }

  lemma NineCount(values: seq<nat>)
    requires |values| == 9 && values[0] == 3 && values[1] == 0 && values[2] == 1 && values[3] == 10 && values[4] == 28
    requires values[5] == 25 && values[6] == 31 && values[7] == 20 && values[8] == 31
    ensures Polymod(Numbers(values)) == Number(1)
  {
    FirstThree(values);
    NextThree(values);
    LastThree(values);
    assert values[..9] == values;
    PolymodIs(values);
  }

  lemma ExpandOne(codes: seq<nat>, e: seq<nat>)
    requires |codes| == 1 && codes[0] < 128 && |e| == 3 && e[0] == codes[0] / 32 && e[1] == 0 && e[2] == codes[0] % 32
    ensures HrpExpand(Numbers(codes)) == Numbers(e)
  {
    ExpansionMeans(codes, 0);
  }

  lemma NumbersAppend(a: seq<nat>, b: seq<nat>)
    ensures Numbers(a + b) == Numbers(a) + Numbers(b)
  {
  }

  /** The expansion of the prefix "a", whose code is 97, followed by the groups of "2uel5l", ends at 1. */
  lemma VectorVerifies(prefix: seq<nat>, groups: seq<nat>)
    requires prefix == [97] && groups == [10, 28, 25, 31, 20, 31]
    ensures Polymod(HrpExpand(Numbers(prefix)) + Numbers(groups)) == Number(1)
  {
    var e := [3, 0, 1];
    ExpandOne(prefix, e);
    Together(e, groups, e + groups);
  }

  lemma Together(e: seq<nat>, groups: seq<nat>, values: seq<nat>)
    requires values == e + groups && |e| == 3 && e[0] == 3 && e[1] == 0 && e[2] == 1
    requires |groups| == 6 && groups[0] == 10 && groups[1] == 28 && groups[2] == 25
    requires groups[3] == 31 && groups[4] == 20 && groups[5] == 31
    ensures Polymod(Numbers(e) + Numbers(groups)) == Number(1)
  {
    NumbersAppend(e, groups);
    NineCount(values);
  }
}
