/** Fixed-width positional notation, and the order of the strings it prints. */
module Radix {

  function Pow(base: nat, k: nat): (p: nat)
    requires base >= 1
    ensures p >= 1
  {
    if k == 0 then 1 else
      var rest := Pow(base, k - 1);
      assert base * rest >= rest;
      base * rest
  }

  function Digits(n: nat, base: nat, width: nat): (ds: seq<nat>)
    requires base >= 2
    ensures |ds| == width && forall i :: 0 <= i < |ds| ==> ds[i] < base
    decreases width
  {
    if width == 0 then [] else Digits(n / base, base, width - 1) + [n % base]
  }

  function Value(ds: seq<nat>, base: nat): nat {
    if ds == [] then 0 else Value(ds[..|ds| - 1], base) * base + ds[|ds| - 1]
  }

  lemma MulMonotone(d: nat, a: int, b: int)
    requires a <= b
    ensures d * a <= d * b
  {
  }

  lemma DivMod(n: nat, d: nat)
    requires d >= 1
    ensures n == d * (n / d) + n % d && n % d < d
  {
  }

  lemma QuotientIs(n: nat, d: nat, q: nat, r: nat)
    requires d >= 1 && n == d * q + r && r < d
    ensures n / d == q && n % d == r
  {
    DivMod(n, d);
    SameSplit(d, q, r, n / d, n % d);
  }

  lemma SameSplit(d: nat, q: nat, r: nat, p: nat, s: nat)
    requires d * q + r == d * p + s && r < d && s < d
    ensures q == p && r == s
  {
    CompareSplit(d, q, r, p, s);
    CompareSplit(d, p, s, q, r);
  }

  lemma CompareSplit(d: nat, q: nat, r: nat, p: nat, s: nat)
    requires r < d && s < d
    ensures d * q + r < d * p + s <==> q < p || (q == p && r < s)
  {
    if q < p {
      MulMonotone(d, q + 1, p);
      assert d * (q + 1) == d * q + d;
    } else if p < q {
      MulMonotone(d, p + 1, q);
      assert d * (p + 1) == d * p + d;
    }
  }

  lemma DivideBound(n: nat, base: nat, p: nat)
    requires base >= 2 && n < base * p
    ensures n / base < p
  {
    DivMod(n, base);
    if p <= n / base {
      MulMonotone(base, p, n / base);
      assert false;
    }
  }

  /** The number needs no more than `width` digits. */
  predicate Fits(n: nat, base: nat, width: nat)
    requires base >= 2
    decreases width
  {
    if width == 0 then n == 0 else Fits(n / base, base, width - 1)
  }

  lemma FitsStep(n: nat, base: nat, width: nat) returns (q: nat)
    requires base >= 2 && width > 0 && n < Pow(base, width)
    ensures q < Pow(base, width - 1) && (Fits(q, base, width - 1) ==> Fits(n, base, width))
  {
    q := n / base;
    DivideBound(n, base, Pow(base, width - 1));
  }

  lemma {:induction false} FitsBelowPow(n: nat, base: nat, width: nat)
    requires base >= 2 && n < Pow(base, width)
    ensures Fits(n, base, width)
    decreases width
  {
    if width > 0 {
      var q := FitsStep(n, base, width);
      FitsBelowPow(q, base, width - 1);
    }
  }

  lemma DigitsSnoc(n: nat, base: nat, width: nat) returns (q: nat, r: nat)
    requires base >= 2 && width > 0 && Fits(n, base, width)
    ensures Digits(n, base, width) == Digits(q, base, width - 1) + [r]
    ensures n == base * q + r && Fits(q, base, width - 1)
  {
    DivMod(n, base);
    q, r := n / base, n % base;
  }

  /** What is printed is read back. */
  lemma {:induction false} DigitsRoundTrip(n: nat, base: nat, width: nat)
    requires base >= 2 && Fits(n, base, width)
    ensures Value(Digits(n, base, width), base) == n
    decreases width
  {
    if width > 0 {
      var q, r := DigitsSnoc(n, base, width);
      DigitsRoundTrip(q, base, width - 1);
      ValueSnoc(Digits(q, base, width - 1), r, base);
    }
  }

  lemma ValueSnoc(ds: seq<nat>, d: nat, base: nat)
    ensures Value(ds + [d], base) == base * Value(ds, base) + d
  {
    assert (ds + [d])[..|ds|] == ds;
  }

  lemma DivideTwice(n: nat, a: nat, b: nat)
    requires a >= 1 && b >= 1
    ensures a * b >= 1 && n / (a * b) == (n / a) / b
  {
    var m := n / a;
    var q, r := m / b, m % b;
    DivMod(n, a);
    DivMod(m, b);
    MulMonotone(a, 1, b);
    MulMonotone(a, r, b - 1);
    Regroup(n, a, b, q, r, n % a);
    QuotientIs(n, a * b, q, a * r + n % a);
  }

  lemma Regroup(n: nat, a: nat, b: nat, q: nat, r: nat, s: nat)
    requires n == a * (b * q + r) + s
    requires s < a && a * r <= a * (b - 1)
    ensures n == (a * b) * q + (a * r + s) && a * r + s < a * b
  {
    assert a * (b * q + r) == a * (b * q) + a * r;
    assert a * (b * q) == (a * b) * q;
    assert a * (b - 1) == a * b - a;
  }

  lemma ShiftOnce(n: nat, base: nat, k: nat)
    requires base >= 2
    ensures n / Pow(base, k + 1) == (n / base) / Pow(base, k)
  {
    DivideTwice(n, base, Pow(base, k));
  }

  /** The k-th digit from the right: shift, then take the remainder. */
  function Shifted(n: nat, base: nat, k: nat): (d: nat)
    requires base >= 2
    ensures d < base
  {
    n / Pow(base, k) % base
  }

  /** Each digit by itself: shift the number right and take the remainder. */
  lemma {:induction false} DigitAt(n: nat, base: nat, width: nat, i: nat)
    requires base >= 2 && i < width
    ensures Digits(n, base, width)[i] == Shifted(n, base, width - 1 - i)
    decreases width
  {
    if i < width - 1 {
      DigitAt(n / base, base, width - 1, i);
      ShiftOnce(n, base, width - 2 - i);
    } else {
      assert n / 1 == n;
    }
  }

  // ----- order -----

  predicate Below(a: seq<nat>, b: seq<nat>) {
    a != [] && b != [] && (a[0] < b[0] || (a[0] == b[0] && Below(a[1..], b[1..])))
  }

  lemma {:induction false} BelowSnoc(a: seq<nat>, b: seq<nat>, x: nat, y: nat)
    requires |a| == |b|
    ensures Below(a + [x], b + [y]) <==> Below(a, b) || (a == b && x < y)
  {
    if a == [] {
      assert a + [x] == [x] && b + [y] == [y];
    } else {
      BelowSnoc(a[1..], b[1..], x, y);
      assert (a + [x])[1..] == a[1..] + [x] && (b + [y])[1..] == b[1..] + [y];
      assert a == [a[0]] + a[1..] && b == [b[0]] + b[1..];
    }
  }

  predicate Proper(ds: seq<nat>, base: nat) {
    forall i :: 0 <= i < |ds| ==> ds[i] < base
  }

  /** Equally long digit sequences compare as their values do. */
  lemma {:induction false} ValueOrder(a: seq<nat>, b: seq<nat>, base: nat)
    requires |a| == |b| && Proper(a, base) && Proper(b, base)
    ensures Below(a, b) <==> Value(a, base) < Value(b, base)
    ensures a == b <==> Value(a, base) == Value(b, base)
  {
    if a != [] {
      var c, x, d, y := a[..|a| - 1], a[|a| - 1], b[..|b| - 1], b[|b| - 1];
      assert a == c + [x] && b == d + [y];
      ValueOrder(c, d, base);
      BelowSnoc(c, d, x, y);
      ValueSnoc(c, x, base);
      ValueSnoc(d, y, base);
      CompareSplit(base, Value(c, base), x, Value(d, base), y);
      CompareSplit(base, Value(d, base), y, Value(c, base), x);
    }
  }

  /** Fixed-width digits compare as the numbers do. */
  lemma DigitsOrder(m: nat, n: nat, base: nat, width: nat)
    requires base >= 2 && Fits(m, base, width) && Fits(n, base, width)
    ensures m < n <==> Below(Digits(m, base, width), Digits(n, base, width))
    ensures m == n <==> Digits(m, base, width) == Digits(n, base, width)
  {
    DigitsRoundTrip(m, base, width);
    DigitsRoundTrip(n, base, width);
    ValueOrder(Digits(m, base, width), Digits(n, base, width), base);
  }

  /** Strings compare character by character, a proper prefix first. */
  predicate StringLess(a: string, b: string) {
    b != "" && (a == "" || a[0] < b[0] || (a[0] == b[0] && StringLess(a[1..], b[1..])))
  }

  /** Digits printed through a table. */
  function Print(ds: seq<nat>, table: string): (s: string)
    requires forall i :: 0 <= i < |ds| ==> ds[i] < |table|
    ensures |s| == |ds| && forall i :: 0 <= i < |s| ==> s[i] == table[ds[i]]
  {
    if ds == [] then "" else [table[ds[0]]] + Print(ds[1..], table)
  }

  predicate Ascending(table: string) {
    forall i, j :: 0 <= i < j < |table| ==> table[i] < table[j]
  }

  lemma PrintAt(n: nat, base: nat, width: nat, i: nat, table: string)
    requires base >= 2 && |table| == base && i < width
    ensures Print(Digits(n, base, width), table)[i] == table[Shifted(n, base, width - 1 - i)]
  {
    DigitAt(n, base, width, i);
  }

  lemma PrintHead(a: seq<nat>, table: string)
    requires a != [] && forall i :: 0 <= i < |a| ==> a[i] < |table|
    ensures Print(a, table)[0] == table[a[0]] && Print(a, table)[1..] == Print(a[1..], table)
  {
  }

  lemma TableOrder(table: string, x: nat, y: nat)
    requires Ascending(table) && x < |table| && y < |table|
    ensures table[x] < table[y] <==> x < y
    ensures table[x] == table[y] <==> x == y
  {
  }

  lemma {:induction false} PrintOrder(a: seq<nat>, b: seq<nat>, table: string)
    requires |a| == |b| && Ascending(table)
    requires forall i :: 0 <= i < |a| ==> a[i] < |table| && b[i] < |table|
    ensures StringLess(Print(a, table), Print(b, table)) <==> Below(a, b)
  {
    if a != [] {
      PrintOrder(a[1..], b[1..], table);
      PrintHead(a, table);
      PrintHead(b, table);
      TableOrder(table, a[0], b[0]);
    }
  }

  /** Equally wide leading fields decide first. */
  lemma {:induction false} FieldOrder(a: string, b: string, x: string, y: string)
    requires |a| == |b|
    ensures StringLess(a + x, b + y) <==> StringLess(a, b) || (a == b && StringLess(x, y))
  {
    if a == "" {
      assert a + x == x && b + y == y;
    } else {
      FieldOrder(a[1..], b[1..], x, y);
      assert (a + x)[1..] == a[1..] + x && (b + y)[1..] == b[1..] + y;
      assert a == [a[0]] + a[1..] && b == [b[0]] + b[1..];
    }
  }

  // ----- decimal text -----

  const TEN := "0123456789"

  /** The shortest decimal form. */
  function Decimal(n: nat): (s: string)
    ensures s != ""
  {
    if n < 10 then [TEN[n]] else Decimal(n / 10) + [TEN[n % 10]]
  }

  function PadLeft(s: string, width: nat): string
    decreases width - |s|
  {
    if |s| >= width then s else PadLeft("0" + s, width)
  }

  /** Decimal, zero-filled on the left to at least `width` characters. */
  function Padded(n: nat, width: nat): string {
    PadLeft(Decimal(n), width)
  }

  lemma TenAscends()
    ensures Ascending(TEN) && |TEN| == 10
  {
  }

  lemma {:induction false} PadLeftSnoc(s: string, c: char, width: nat)
    requires width >= 1
    ensures PadLeft(s + [c], width) == PadLeft(s, width - 1) + [c]
    decreases width - |s|
  {
    if |s| + 1 < width {
      PadLeftSnoc("0" + s, c, width);
      assert "0" + (s + [c]) == ("0" + s) + [c];
    }
  }

  lemma {:induction false} ZeroDigits(s: string, width: nat, k: nat)
    requires |s| + k == width
    ensures PadLeft(s, width) == Print(Digits(0, 10, k), TEN) + s
    decreases k
  {
    if k == 0 {
      assert "" + s == s;
    } else {
      ZeroDigits("0" + s, width, k - 1);
      PrintSnoc(Digits(0, 10, k - 1), 0, TEN);
      assert (Print(Digits(0, 10, k - 1), TEN) + ['0']) + s == Print(Digits(0, 10, k - 1), TEN) + ("0" + s);
    }
  }

  lemma {:induction false} PrintSnoc(ds: seq<nat>, d: nat, table: string)
    requires d < |table| && forall i :: 0 <= i < |ds| ==> ds[i] < |table|
    ensures Print(ds + [d], table) == Print(ds, table) + [table[d]]
  {
    if ds == [] {
      assert [] + [d] == [d];
    } else {
      PrintSnoc(ds[1..], d, table);
      assert (ds + [d])[1..] == ds[1..] + [d];
    }
  }

  /** A padded number that fits is its fixed-width digits. */
  lemma {:induction false} PaddedIsDigits(n: nat, width: nat)
    requires width >= 1 && Fits(n, 10, width)
    ensures Padded(n, width) == Print(Digits(n, 10, width), TEN)
    decreases width
  {
    if n < 10 {
      ZeroDigits([TEN[n]], width, width - 1);
      PrintSnoc(Digits(n / 10, 10, width - 1), n % 10, TEN);
    } else {
      PaddedIsDigits(n / 10, width - 1);
      PadLeftSnoc(Decimal(n / 10), TEN[n % 10], width);
      PrintSnoc(Digits(n / 10, 10, width - 1), n % 10, TEN);
    }
  }

  lemma PaddedWidth(n: nat, width: nat)
    requires width >= 1 && Fits(n, 10, width)
    ensures |Padded(n, width)| == width
    ensures forall i :: 0 <= i < width ==> '0' <= Padded(n, width)[i] <= '9'
  {
    PaddedIsDigits(n, width);
    var ds := Digits(n, 10, width);
    forall i | 0 <= i < width ensures '0' <= Print(ds, TEN)[i] <= '9' {
      DigitChar(ds[i]);
    }
  }

  lemma DigitChar(d: nat)
    requires d < 10
    ensures '0' <= TEN[d] <= '9'
  {
  }

  lemma PaddedOrder(m: nat, n: nat, width: nat)
    requires width >= 1 && Fits(m, 10, width) && Fits(n, 10, width)
    ensures |Padded(m, width)| == |Padded(n, width)|
    ensures StringLess(Padded(m, width), Padded(n, width)) <==> m < n
    ensures Padded(m, width) == Padded(n, width) <==> m == n
  {
    PaddedIsDigits(m, width);
    PaddedIsDigits(n, width);
    TenAscends();
    DigitsOrder(m, n, 10, width);
    DigitsOrder(n, m, 10, width);
    PrintOrder(Digits(m, 10, width), Digits(n, 10, width), TEN);
    PrintOrder(Digits(n, 10, width), Digits(m, 10, width), TEN);
    LessIrreflexive(Padded(m, width));
  }

  lemma {:induction false} LessIrreflexive(s: string)
    ensures !StringLess(s, s)
  {
    if s != "" {
      LessIrreflexive(s[1..]);
    }
  }
}
