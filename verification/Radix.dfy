/** Positional notation: digit sequences, most significant digit first, and the
    numbers they stand for.  Both bit regrouping and Base58 are statements about it. */
module Radix {

  function Power(b: nat, n: nat): (p: nat)
    ensures b >= 1 ==> p >= 1
  {
    if n == 0 then 1 else b * Power(b, n - 1)
  }

  /** The number a digit sequence stands for. */
  function Value(s: seq<nat>, b: nat): nat {
    if s == [] then 0 else Value(s[..|s| - 1], b) * b + s[|s| - 1]
  }

  /** The last n digits of v. */
  function Digits(v: nat, b: nat, n: nat): (s: seq<nat>)
    requires b >= 1
    ensures |s| == n
  {
    if n == 0 then [] else Digits(v / b, b, n - 1) + [v % b]
  }

  /** The digits of v without leading zeros; zero has none. */
  function Minimal(v: nat, b: nat): (s: seq<nat>)
    requires b >= 2
    decreases v
  {
    if v == 0 then [] else Shrinks(v, b); Minimal(v / b, b) + [v % b]
  }

  predicate InRange(s: seq<nat>, b: nat) {
    forall i :: 0 <= i < |s| ==> s[i] < b
  }

  lemma Shrinks(v: nat, b: nat)
    requires b >= 2 && v > 0
    ensures v / b < v
  {
  }

  lemma Monotone(x: int, y: int, d: nat)
    requires x <= y
    ensures x * d <= y * d
  {
  }

  lemma Assoc(x: int, y: int, z: int)
    ensures (x * y) * z == x * (y * z)
  {
  }

  lemma Split(v: nat, b: nat)
    requires b >= 1
    ensures v == (v / b) * b + v % b
  {
  }

  lemma DivMod(q: int, r: int, d: int)
    requires 0 <= r < d
    ensures (q * d + r) / d == q && (q * d + r) % d == r
  {
    var x := q * d + r;
    var k := x / d - q;
    assert x == (x / d) * d + x % d;
    assert k * d == r - x % d;
    assert k < 1 by { Monotone(1, if k < 1 then 1 else k, d); }
    assert -1 < k by { Monotone(if -1 < k then -1 else k, -1, d); }
  }

  lemma Dist(x: int, y: int, z: int)
    ensures (x + y) * z == x * z + y * z
  {
  }

  lemma ScaleUp(head: nat, rem: nat, width: nat, shift: nat, d: nat)
    requires rem < width && d < shift
    ensures rem * shift + d < width * shift
    ensures (head * width + rem) * shift + d == head * (width * shift) + (rem * shift + d)
  {
    Monotone(rem + 1, width, shift);
    Dist(rem, 1, shift);
    Assoc(head, width, shift);
    Dist(head * width, rem, shift);
  }

  lemma DivDiv(v: nat, width: nat, shift: nat)
    requires width > 0 && shift > 0
    ensures width * shift > 0 && v / (width * shift) == (v / shift) / width
  {
    var q := v / shift;
    Split(v, shift);
    Split(q, width);
    Monotone(1, width, shift);
    ScaleUp(q / width, q % width, width, shift, v % shift);
    DivMod(q / width, (q % width) * shift + v % shift, width * shift);
  }

  lemma {:induction false} PowerAdd(b: nat, m: nat, n: nat)
    ensures Power(b, m + n) == Power(b, m) * Power(b, n)
  {
    if m > 0 {
      PowerAdd(b, m - 1, n);
      Assoc(b, Power(b, m - 1), Power(b, n));
    }
  }

  lemma {:induction false} ValueSnoc(s: seq<nat>, d: nat, b: nat)
    ensures Value(s + [d], b) == Value(s, b) * b + d
  {
  }

  lemma DigitFits(v: nat, d: nat, b: nat, p: nat)
    requires v < p && d < b
    ensures v * b + d < b * p
  {
    Monotone(v + 1, p, b);
  }

  lemma {:induction false} ValueBelow(s: seq<nat>, b: nat)
    requires b >= 1 && InRange(s, b)
    ensures Value(s, b) < Power(b, |s|)
  {
    if s != [] {
      var t := s[..|s| - 1];
      ValueBelow(t, b);
      DigitFits(Value(t, b), s[|s| - 1], b, Power(b, |t|));
    }
  }

  /** A digit sequence is determined by its length and its value. */
  lemma {:induction false} DigitsOfValue(s: seq<nat>, b: nat)
    requires b >= 1 && InRange(s, b)
    ensures Digits(Value(s, b), b, |s|) == s
  {
    if s != [] {
      var t := s[..|s| - 1];
      DigitsOfValue(t, b);
      DivMod(Value(t, b), s[|s| - 1], b);
      assert s == t + [s[|s| - 1]];
    }
  }

  lemma DivBelow(v: nat, b: nat, p: nat)
    requires b >= 1 && v < b * p
    ensures v / b < p
  {
  }

  lemma {:induction false} ValueOfDigits(v: nat, b: nat, n: nat)
    requires b >= 1 && v < Power(b, n)
    ensures InRange(Digits(v, b, n), b) && Value(Digits(v, b, n), b) == v
  {
    if n > 0 {
      DivBelow(v, b, Power(b, n - 1));
      ValueOfDigits(v / b, b, n - 1);
      ValueSnoc(Digits(v / b, b, n - 1), v % b, b);
      Split(v, b);
    }
  }

  /** The minimal digits stand for v and do not start with a zero. */
  lemma {:induction false} ValueOfMinimal(v: nat, b: nat)
    requires b >= 2
    ensures InRange(Minimal(v, b), b) && Value(Minimal(v, b), b) == v
    ensures v > 0 ==> Minimal(v, b) != [] && Minimal(v, b)[0] != 0
    decreases v
  {
    if v > 0 {
      Shrinks(v, b);
      ValueOfMinimal(v / b, b);
      ValueSnoc(Minimal(v / b, b), v % b, b);
      Split(v, b);
    }
  }

  lemma {:induction false} ValuePositive(s: seq<nat>, b: nat)
    requires b >= 1 && s != [] && s[0] != 0
    ensures Value(s, b) > 0
  {
    if |s| > 1 {
      ValuePositive(s[..|s| - 1], b);
      assert Value(s[..|s| - 1], b) * b >= 1;
    }
  }

  /** A digit sequence without a leading zero is the minimal one for its value. */
  lemma {:induction false} MinimalOfValue(s: seq<nat>, b: nat)
    requires b >= 2 && InRange(s, b) && (s != [] ==> s[0] != 0)
    ensures Minimal(Value(s, b), b) == s
  {
    if s != [] {
      var t := s[..|s| - 1];
      ValuePositive(s, b);
      MinimalOfValue(t, b);
      DivMod(Value(t, b), s[|s| - 1], b);
      assert s == t + [s[|s| - 1]];
    }
  }

  lemma {:induction false} LeadingZeros(z: nat, s: seq<nat>, b: nat)
    ensures Value(seq(z, _ => 0) + s, b) == Value(s, b)
  {
    var zeros: seq<nat> := seq(z, _ => 0);
    if s != [] {
      LeadingZeros(z, s[..|s| - 1], b);
      assert (zeros + s)[..|zeros + s| - 1] == zeros + s[..|s| - 1];
    } else {
      assert zeros + s == zeros;
      if z > 0 {
        LeadingZeros(z - 1, [], b);
        assert zeros[..z - 1] == seq(z - 1, _ => 0) + [];
      }
    }
  }
}
