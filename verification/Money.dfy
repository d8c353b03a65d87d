/** Integer money: the cost of one usage record, in micros. */
module Money {
  import opened Core

  const TWO63: int := 0x8000_0000_0000_0000

  type Int64 = x: int | -TWO63 <= x < TWO63

  /** Micros per million tokens. */
  datatype Price = Price(input: Int64, output: Int64, cacheRead: Int64, cacheWrite: Int64)

  const MILLION := 1_000_000

  /** Signed division as the hardware does it: toward zero. */
  function TruncDiv(n: int, d: int): int
    requires d > 0
  {
    if n >= 0 then n / d else -((-n) / d)
  }

  /** The low 64 bits, read as a signed number. */
  function WrapInt64(x: int): (r: Int64)
    ensures (r - x) % (2 * TWO63) == 0
  {
    (x + TWO63) % (2 * TWO63) - TWO63
  }

  /** The exact cost times one million. */
  function Exact(t: Tokens, p: Price): int {
    t.input * p.input + t.output * p.output + t.cacheRead * p.cacheRead + t.cacheWrite * p.cacheWrite
  }

  function CostMicros(t: Tokens, p: Price): Int64 {
    WrapInt64(TruncDiv(Exact(t, p), MILLION))
  }

  const TWO127: int := 0x8000_0000_0000_0000_0000_0000_0000_0000

  lemma MulMono(a: int, b: int, q: nat)
    requires a <= b
    ensures a * q <= b * q
  {
    assert (b - a) * q >= 0;
  }

  lemma ProductBound(n: Counter, p: Int64)
    ensures -0x8000_0000_0000_0000_0000_0000 <= n * p <= 0x8000_0000_0000_0000_0000_0000
  {
    var q: int := p;
    if q >= 0 {
      MulMono(n, 0x1_0000_0000, q);
    } else {
      MulMono(n, 0x1_0000_0000, -q);
      assert n * -q == -(n * q);
    }
  }

  /** The 128-bit intermediates never overflow, whatever the counters and prices. */
  lemma IntermediatesFit(t: Tokens, p: Price)
    ensures -TWO127 <= t.input * p.input < TWO127
    ensures -TWO127 <= t.input * p.input + t.output * p.output < TWO127
    ensures -TWO127 <= t.input * p.input + t.output * p.output + t.cacheRead * p.cacheRead < TWO127
    ensures -TWO127 <= Exact(t, p) < TWO127
  {
    ProductBound(t.input, p.input);
    ProductBound(t.output, p.output);
    ProductBound(t.cacheRead, p.cacheRead);
    ProductBound(t.cacheWrite, p.cacheWrite);
  }

  /** The final cast back to 64 bits is what can lose the value: exactly when the quotient is too big. */
  lemma CostExactlyWhenItFits(t: Tokens, p: Price)
    ensures CostMicros(t, p) == TruncDiv(Exact(t, p), MILLION)
      <==> -(TWO63 + 1) * MILLION < Exact(t, p) < TWO63 * MILLION
  {
  }

  /** Full counters at the largest price do not fit. */
  lemma CostCanWrap()
    ensures exists t: Tokens, p: Price :: CostMicros(t, p) != TruncDiv(Exact(t, p), MILLION)
  {
    var n: Counter := 0xFFFF_FFFF;
    var t := Tokens(n, 0, 0, 0);
    var top: Int64 := TWO63 - 1;
    var p := Price(top, 0, 0, 0);
    CostExactlyWhenItFits(t, p);
    assert CostMicros(t, p) != TruncDiv(Exact(t, p), MILLION);
  }

  datatype Record = Record(tokens: Tokens, price: Price)

  function SumExact(rs: seq<Record>): int {
    if rs == [] then 0 else Exact(rs[0].tokens, rs[0].price) + SumExact(rs[1..])
  }

  function SumCost(rs: seq<Record>): int {
    if rs == [] then 0 else CostMicros(rs[0].tokens, rs[0].price) + SumCost(rs[1..])
  }

  /** Rounding each record down loses less than one micro a record, and never gains. */
  lemma {:induction false} RoundingLoss(rs: seq<Record>)
    requires forall r :: r in rs ==> 0 <= Exact(r.tokens, r.price) < TWO63 * MILLION
    ensures MILLION * SumCost(rs) <= SumExact(rs)
    ensures rs != [] ==> SumExact(rs) < MILLION * (SumCost(rs) + |rs|)
  {
    if rs != [] {
      assert rs[0] in rs;
      assert forall r :: r in rs[1..] ==> r in rs;
      RoundingLoss(rs[1..]);
      CostExactlyWhenItFits(rs[0].tokens, rs[0].price);
    }
  }
}
