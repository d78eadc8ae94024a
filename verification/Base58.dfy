/** Base58 text of a byte string, as used for peer identifiers. */
module Base58 {
  import opened Options
  import opened Radix

  const ALPHABET := "123456789" + "ABCDEFGH" + "JKLMN" + "PQRSTUVWXYZ" + "abcdefghijk" + "mnopqrstuvwxyz"

  /** How many entries of s in front are equal to x. */
  function Leading<T(==)>(s: seq<T>, x: T): (n: nat)
    ensures n <= |s|
    ensures forall i :: 0 <= i < n ==> s[i] == x
    ensures n < |s| ==> s[n] != x
  {
    if s != [] && s[0] == x then 1 + Leading(s[1..], x) else 0
  }

  function Letter(d: nat): char {
    if d < 58 then ALPHABET[d] else '?'
  }

  function Letters(ds: seq<nat>): (t: string)
    ensures |t| == |ds|
  {
    seq(|ds|, i requires 0 <= i < |ds| => Letter(ds[i]))
  }

  /** The digit a character stands for, by the ranges of the alphabet: no 0, I, O or l. */
  function DigitOf(c: char): Option<nat> {
    if '1' <= c <= '9' then Some((c - '1') as nat)
    else if 'A' <= c <= 'H' then Some((c - 'A') as nat + 9)
    else if 'J' <= c <= 'N' then Some((c - 'J') as nat + 17)
    else if 'P' <= c <= 'Z' then Some((c - 'P') as nat + 22)
    else if 'a' <= c <= 'k' then Some((c - 'a') as nat + 33)
    else if 'm' <= c <= 'z' then Some((c - 'm') as nat + 44)
    else None
  }

  function DigitsOf(t: string): Option<seq<nat>> {
    if t == [] then Some([])
    else match (DigitOf(t[0]), DigitsOf(t[1..])) {
      case (Some(d), Some(ds)) => Some([d] + ds)
      case _ => None
    }
  }

  /** A standard decoder: every leading '1' is a zero byte, the rest is one number. */
  function Decode(t: string): Option<seq<nat>> {
    var ones := Leading(t, '1');
    match DigitsOf(t[ones..]) {
      case None => None
      case Some(ds) => Some(seq(ones, _ => 0) + Minimal(Value(ds, 58), 256))
    }
  }

  /** The encoding, written down directly: the zero bytes in front, then the digits. */
  function Ones(n: nat): (s: string)
    ensures |s| == n && forall i :: 0 <= i < n ==> s[i] == '1'
  {
    seq(n, _ => '1')
  }

  function Text(data: seq<nat>): string {
    var t := Ones(Leading(data, 0)) + Letters(Minimal(Value(data, 256), 58));
    if t == [] then "1" else t
  }

  function Reversed<T>(s: seq<T>): (r: seq<T>)
    ensures |r| == |s| && forall i :: 0 <= i < |s| ==> r[i] == s[|s| - 1 - i]
  {
    seq(|s|, i requires 0 <= i < |s| => s[|s| - 1 - i])
  }

  /** Repeated division, the zero bytes appended, and the whole turned around in place. */
  method Encode(data: seq<nat>) returns (text: string)
    ensures text == Text(data)
  {
    var number := BigEndian(data);
    var digits := DivideOut(number);
    var encoded := AppendZeros(data, digits);
    TurnedText(data, digits, encoded);
    text := Finished(encoded);
  }

  /** The letters turned around, or the letter for zero if there are none. */
  method Finished(encoded: string) returns (text: string)
    ensures text == if encoded == [] then "1" else Reversed(encoded)
  {
    if |encoded| == 0 {
      FirstLetter();
      return [ALPHABET[0]];
    }
    var buffer := new char[|encoded|](i requires 0 <= i < |encoded| => encoded[i]);
    assert buffer[..] == encoded;
    TurnAround(buffer);
    return buffer[..];
  }

  method BigEndian(data: seq<nat>) returns (number: nat)
    ensures number == Value(data, 256)
  {
    number := 0;
    for i := 0 to |data|
      invariant number == Value(data[..i], 256)
    {
      assert data[..i + 1][..i] == data[..i];
      number := number * 256 + data[i];
    }
    assert data[..|data|] == data;
  }

  /** The digits of the number, the last one first. */
  method DivideOut(value: nat) returns (encoded: string)
    ensures Reversed(encoded) == Letters(Minimal(value, 58))
  {
    var number := value;
    encoded := [];
    while number > 0
      invariant Letters(Minimal(value, 58)) == Letters(Minimal(number, 58)) + Reversed(encoded)
      decreases number
    {
      Shrinks(number, 58);
      NextDigit(number, encoded);
      encoded := encoded + [Letter(number % 58)];
      number := number / 58;
    }
    assert Letters(Minimal(0, 58)) == [];
  }

  lemma NextDigit(number: nat, encoded: string)
    requires number > 0
    ensures Letters(Minimal(number, 58)) + Reversed(encoded) ==
            Letters(Minimal(number / 58, 58)) + Reversed(encoded + [Letter(number % 58)])
  {
    Shrinks(number, 58);
    assert Minimal(number, 58) == Minimal(number / 58, 58) + [number % 58];
    MoveLetter(Minimal(number / 58, 58), number % 58, encoded);
  }

  lemma MoveLetter(ds: seq<nat>, d: nat, encoded: string)
    ensures Letters(ds + [d]) + Reversed(encoded) == Letters(ds) + Reversed(encoded + [Letter(d)])
  {
    assert Letters(ds + [d]) == Letters(ds) + [Letter(d)];
    assert Reversed(encoded + [Letter(d)]) == [Letter(d)] + Reversed(encoded);
  }

  /** One more letter for every zero byte in front. */
  method AppendZeros(data: seq<nat>, digits: string) returns (encoded: string)
    ensures encoded == digits + Ones(Leading(data, 0))
  {
    FirstLetter();
    encoded := digits;
    var zeros := 0;
    while zeros < |data| && data[zeros] == 0
      invariant zeros <= Leading(data, 0) && encoded == digits + Ones(zeros)
    {
      encoded := encoded + [ALPHABET[0]];
      zeros := zeros + 1;
    }
  }

  /** Turned around, zeros and digits are the text. */
  lemma TurnedText(data: seq<nat>, digits: string, encoded: string)
    requires Reversed(digits) == Letters(Minimal(Value(data, 256), 58))
    requires encoded == digits + Ones(Leading(data, 0))
    ensures Text(data) == if encoded == [] then "1" else Reversed(encoded)
  {
    var zeros := Ones(Leading(data, 0));
    assert Reversed(encoded) == zeros + Reversed(digits);
  }

  method TurnAround(a: array<char>)
    modifies a
    ensures a[..] == Reversed(old(a[..]))
  {
    var left, right := 0, a.Length - 1;
    while left < right
      invariant 0 <= left <= right + 2 && right == a.Length - 1 - left
      invariant forall k :: left <= k <= right ==> a[k] == old(a[k])
      invariant forall k :: 0 <= k < left ==> a[k] == old(a[a.Length - 1 - k])
      invariant forall k :: right < k < a.Length ==> a[k] == old(a[a.Length - 1 - k])
    {
      a[left], a[right] := a[right], a[left];
      left, right := left + 1, right - 1;
    }
  }

  lemma FirstLetter()
    ensures ALPHABET[0] == '1'
  {
  }

  lemma UpperDigit(d: nat)
    requires d < 33
    ensures DigitOf(ALPHABET[d]) == Some(d)
  {
  }

  lemma LetterDigit(d: nat)
    requires d < 58
    ensures DigitOf(ALPHABET[d]) == Some(d)
  {
    if d < 33 {
      UpperDigit(d);
    } else if d < 44 {
      assert ALPHABET[d] == "abcdefghijk"[d - 33];
    } else {
      assert ALPHABET[d] == "mnopqrstuvwxyz"[d - 44];
    }
  }

  lemma {:induction false} LettersDigits(ds: seq<nat>)
    requires InRange(ds, 58)
    ensures DigitsOf(Letters(ds)) == Some(ds)
  {
    if ds != [] {
      LettersDigits(ds[1..]);
      LetterDigit(ds[0]);
      assert Letters(ds)[1..] == Letters(ds[1..]);
      assert Letters(ds)[0] == ALPHABET[ds[0]];
      assert ds == [ds[0]] + ds[1..];
    }
  }

  lemma {:induction false} LeadingOf<T>(n: nat, x: T, rest: seq<T>)
    requires rest == [] || rest[0] != x
    ensures Leading(seq(n, _ => x) + rest, x) == n
  {
    var s := seq(n, _ => x) + rest;
    if n > 0 {
      LeadingOf(n - 1, x, rest);
      assert s[1..] == seq(n - 1, _ => x) + rest;
    } else {
      assert s == rest;
    }
  }

  /** Decoding inverts encoding on every byte string but the empty one, whose text is that of
      a single zero byte. */
  lemma RoundTrip(data: seq<nat>)
    requires InRange(data, 256)
    ensures Decode(Text(data)) == Some(if data == [] then [0] else data)
  {
    if data == [] {
      assert Text(data) == "1";
      LeadingOf(1, '1', []);
      assert "1" == Ones(1) + [];
      assert "1"[1..] == [] && Value([], 58) == 0;
      assert seq(1, _ => 0) + Minimal(0, 256) == [0];
    } else {
      Normal(data);
      DecodeText(Leading(data, 0), Minimal(Value(data, 256), 58));
      var t := Ones(Leading(data, 0)) + Letters(Minimal(Value(data, 256), 58));
      assert t != [];
    }
  }

  /** The number and the count of leading zeros determine the bytes. */
  lemma Normal(data: seq<nat>)
    requires InRange(data, 256)
    ensures seq(Leading(data, 0), _ => 0) + Minimal(Value(data, 256), 256) == data
    ensures var ds := Minimal(Value(data, 256), 58);
            InRange(ds, 58) && Value(ds, 58) == Value(data, 256) && (ds != [] ==> ds[0] != 0)
    ensures data != [] ==> Leading(data, 0) > 0 || Minimal(Value(data, 256), 58) != []
  {
    var z := Leading(data, 0);
    assert data == seq(z, _ => 0) + data[z..];
    LeadingZeros(z, data[z..], 256);
    MinimalOfValue(data[z..], 256);
    ValueOfMinimal(Value(data, 256), 58);
    if data != [] && z == 0 {
      ValuePositive(data, 256);
    }
  }

  lemma DecodeText(ones: nat, ds: seq<nat>)
    requires InRange(ds, 58) && (ds != [] ==> ds[0] != 0)
    ensures Decode(Ones(ones) + Letters(ds)) == Some(seq(ones, _ => 0) + Minimal(Value(ds, 58), 256))
  {
    var t := Ones(ones) + Letters(ds);
    if ds != [] {
      assert Letters(ds)[0] == ALPHABET[ds[0]];
      LetterDigit(ds[0]);
      LetterDigit(0);
      FirstLetter();
    }
    LeadingOf(ones, '1', Letters(ds));
    assert t[ones..] == Letters(ds);
    LettersDigits(ds);
  }

  lemma Injective(a: seq<nat>, b: seq<nat>)
    requires InRange(a, 256) && InRange(b, 256) && Text(a) == Text(b)
    ensures a == b || {a, b} == {[], [0]}
  {
    RoundTrip(a);
    RoundTrip(b);
  }
}
