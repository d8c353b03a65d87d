/** Identifier minting: 48 bits of milliseconds and 80 random bits as 26 Crockford base-32 digits. */
module Ulid {
  import opened Radix

  const CROCKFORD := "0123456789ABCDEFGHJKMNPQRSTVWXYZ"

  const WIDTH: nat := 26
  const TWO16: nat := 0x1_0000
  const TWO48: nat := 0x1_0000_0000_0000
  const TWO64: nat := 0x1_0000_0000_0000_0000
  const TWO80: nat := 0x1_0000_0000_0000_0000_0000

  type U64 = x: nat | x < TWO64

  /** The 128-bit value: the clock keeps its low 48 bits, the second random word its low 16. */
  function Bits(millis: nat, r1: U64, r2: U64): nat {
    (millis % TWO48) * TWO80 + (r1 * TWO16 + r2 % TWO16)
  }

  function Encode(value: nat): (s: string)
    ensures |s| == WIDTH
  {
    assert |CROCKFORD| == 32;
    Print(Digits(value, 32, WIDTH), CROCKFORD)
  }

  /** The digit a character stands for; 32 if none. */
  function DigitOf(c: char, from: nat): (d: nat)
    requires from <= |CROCKFORD|
    ensures d <= |CROCKFORD| && (d < |CROCKFORD| ==> CROCKFORD[d] == c)
    ensures forall j :: from <= j < d ==> CROCKFORD[j] != c
    decreases |CROCKFORD| - from
  {
    if from == |CROCKFORD| then from
    else if CROCKFORD[from] == c then from
    else DigitOf(c, from + 1)
  }

  function DigitsOf(s: string): (ds: seq<nat>)
    ensures |ds| == |s|
  {
    if s == "" then [] else [DigitOf(s[0], 0)] + DigitsOf(s[1..])
  }

  function Decode(s: string): nat {
    Value(DigitsOf(s), 32)
  }

  /** The i-th character: five bits, counted from the top. */
  function CharAt(value: nat, i: nat): char
    requires i < WIDTH
  {
    CROCKFORD[Shifted(value, 32, 25 - i)]
  }

  lemma EncodeAt(value: nat, i: nat)
    requires i < WIDTH
    ensures Encode(value)[i] == CharAt(value, i)
  {
    PrintAt(value, 32, WIDTH, i, CROCKFORD);
  }

  lemma EncodeIs(value: nat, s: string)
    requires |s| == WIDTH && forall i :: 0 <= i < WIDTH ==> s[i] == CharAt(value, i)
    ensures s == Encode(value)
  {
    forall i | 0 <= i < WIDTH ensures s[i] == Encode(value)[i] {
      EncodeAt(value, i);
    }
  }

  /** Digit by digit into a fixed array, five bits at a time from the top. */
  method Mint(millis: nat, r1: U64, r2: U64) returns (id: string)
    ensures id == Encode(Bits(millis, r1, r2))
  {
    var value := Bits(millis, r1, r2);
    var out := new char[26];
    for i := 0 to 26
      invariant forall k :: 0 <= k < i ==> out[k] == CharAt(value, k)
    {
      var digit := Shifted(value, 32, 25 - i);
      out[i] := CROCKFORD[digit];
    }
    id := out[..];
    EncodeIs(value, id);
  }

  lemma TableAscends()
    ensures Ascending(CROCKFORD) && |CROCKFORD| == 32
  {
  }

  lemma BitsFit(millis: nat, r1: U64, r2: U64)
    ensures r1 * TWO16 + r2 % TWO16 < TWO80
    ensures Fits(Bits(millis, r1, r2), 32, WIDTH)
  {
    PowersOf32();
    FitsBelowPow(Bits(millis, r1, r2), 32, WIDTH);
  }

  lemma PowersOf32()
    ensures Pow(32, 26) == 4 * TWO48 * TWO80
  {
    assert Pow(32, 5) == 0x200_0000;
    assert Pow(32, 10) == 0x4_0000_0000_0000;
    assert Pow(32, 15) == 0x800_0000_0000_0000_0000;
    assert Pow(32, 20) == 0x10_0000_0000_0000_0000_0000_0000;
  }

  lemma {:induction false} DigitsReadBack(ds: seq<nat>)
    requires forall i :: 0 <= i < |ds| ==> ds[i] < |CROCKFORD|
    ensures DigitsOf(Print(ds, CROCKFORD)) == ds
  {
    if ds != [] {
      TableAscends();
      DigitsReadBack(ds[1..]);
      PrintHead(ds, CROCKFORD);
      var d := DigitOf(CROCKFORD[ds[0]], 0);
      assert d <= ds[0];
      TableOrder(CROCKFORD, d, ds[0]);
    }
  }

  /** Decoding a minted id gives back its 128 bits. */
  lemma UlidRoundTrip(millis: nat, r1: U64, r2: U64)
    ensures Decode(Encode(Bits(millis, r1, r2))) == Bits(millis, r1, r2)
  {
    BitsFit(millis, r1, r2);
    TableAscends();
    var v := Bits(millis, r1, r2);
    DigitsReadBack(Digits(v, 32, WIDTH));
    DigitsRoundTrip(v, 32, WIDTH);
  }

  /** String order is numeric order. */
  lemma EncodeOrder(a: nat, b: nat)
    requires Fits(a, 32, WIDTH) && Fits(b, 32, WIDTH)
    ensures StringLess(Encode(a), Encode(b)) <==> a < b
  {
    TableAscends();
    DigitsOrder(a, b, 32, WIDTH);
    PrintOrder(Digits(a, 32, WIDTH), Digits(b, 32, WIDTH), CROCKFORD);
  }

  /**
   * Ids minted in different milliseconds sort by time, whatever the random bits; the clock is read
   * modulo 2^48 milliseconds.
   */
  lemma EarlierSortsFirst(early: nat, r1: U64, r2: U64, late: nat, s1: U64, s2: U64)
    requires early % TWO48 != late % TWO48
    ensures StringLess(Encode(Bits(early, r1, r2)), Encode(Bits(late, s1, s2))) <==> early % TWO48 < late % TWO48
  {
    BitsFit(early, r1, r2);
    BitsFit(late, s1, s2);
    EncodeOrder(Bits(early, r1, r2), Bits(late, s1, s2));
  }
}
