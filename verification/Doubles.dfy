// Binary64 floats, as far as keying needs them: rounding an unbounded integer
// to the nearest double, ties to even, and refusing one that is too large.

module Doubles {
  import opened Text

  /** 2 to the 53: below it every integer is a double. */
  const MANTISSA := 0x20_0000_0000_0000

  const TWO_TO_256 := 0x1_0000000000000000_0000000000000000_0000000000000000_0000000000000000

  /** 2 to the 1024: no finite double reaches it. */
  const LIMIT := TWO_TO_256 * TWO_TO_256 * TWO_TO_256 * TWO_TO_256

  /** The distance between neighbouring doubles at `n`. */
  function Unit(n: nat): (u: nat)
    ensures u >= 1
  {
    if n < MANTISSA then 1 else 2 * Unit(n / 2)
  }

  /** The nearest double, ties to the even one. */
  function Nearest(n: nat): nat {
    var u, q, over := Unit(n), n / Unit(n), n % Unit(n);
    if 2 * over < u || (2 * over == u && q % 2 == 0) then q * u else (q + 1) * u
  }

  function Magnitude(n: int): nat { if n < 0 then -n else n }

  function Rounded(n: int): int { if n < 0 then 0 - Nearest(0 - n) else Nearest(n) }

  // ---------------------------------------------------- which integers are doubles

  /** A mantissa of 53 bits, any number of times doubled. */
  predicate Exact(n: nat) { n < MANTISSA || (n % 2 == 0 && Exact(n / 2)) }

  lemma {:induction false} UnitBounds(n: nat)
    ensures n / Unit(n) < MANTISSA
    ensures n >= MANTISSA ==> n / Unit(n) >= MANTISSA / 2
  {
    if n >= MANTISSA {
      UnitBounds(n / 2);
      Halves(n, Unit(n / 2));
    }
  }

  lemma Halves(n: nat, u: nat)
    requires u >= 1
    ensures n / (2 * u) == n / 2 / u
  {
    var q, r := n / 2 / u, n / 2 % u;
    assert n / 2 == q * u + r;
    assert n == q * (2 * u) + (2 * r + n % 2) && 2 * r + n % 2 < 2 * u;
    Quotient(n, 2 * u, q, 2 * r + n % 2);
  }

  lemma Quotient(n: nat, d: nat, q: nat, r: nat)
    requires d > 0 && n == q * d + r && r < d
    ensures n / d == q && n % d == r
  {
    OneQuotient(d, n / d, n % d, q, r);
  }

  lemma OneQuotient(d: nat, p: nat, s: nat, q: nat, r: nat)
    requires s < d && r < d && p * d + s == q * d + r
    ensures p == q && s == r
  {
    if p < q {
      Larger(d, p, q);
    } else if q < p {
      Larger(d, q, p);
    }
  }

  lemma {:induction false} Larger(d: nat, p: nat, q: nat)
    requires p < q
    ensures q * d >= p * d + d
  {
    Plus(q - 1, d);
    if p < q - 1 {
      Larger(d, p, q - 1);
    }
  }

  lemma Plus(q: nat, d: nat)
    ensures (q + 1) * d == q * d + d
  {}

  /** Every multiple of the unit, up to the next power of two, is a double. */
  lemma {:induction false} MultiplesExact(n: nat, q: nat)
    requires q <= MANTISSA
    ensures Exact(q * Unit(n))
    decreases n
  {
    if n < MANTISSA {
      assert q == MANTISSA ==> Exact(q / 2);
    } else {
      var half := q * Unit(n / 2);
      MultiplesExact(n / 2, q);
      assert q * Unit(n) == 2 * half;
    }
  }

  lemma {:induction false} ExactDivides(n: nat)
    requires Exact(n)
    ensures n % Unit(n) == 0
  {
    if n >= MANTISSA {
      ExactDivides(n / 2);
      var u := Unit(n / 2);
      var q := n / 2 / u;
      assert n / 2 == q * u;
      assert n == q * (2 * u);
      Quotient(n, 2 * u, q, 0);
    }
  }

  /** Rounding gives a double, and leaves doubles alone. */
  lemma NearestExact(n: nat)
    ensures Exact(Nearest(n))
    ensures Exact(n) ==> Nearest(n) == n
  {
    UnitBounds(n);
    MultiplesExact(n, n / Unit(n));
    MultiplesExact(n, n / Unit(n) + 1);
    if Exact(n) {
      ExactDivides(n);
    }
  }

  /** No double lies strictly between two neighbours. */
  lemma {:induction false} NoneBetween(n: nat, q: nat, d: nat)
    requires n >= MANTISSA ==> q >= MANTISSA / 2
    requires q * Unit(n) < d < (q + 1) * Unit(n)
    ensures !Exact(d)
    decreases n
  {
    if n >= MANTISSA {
      var u := Unit(n / 2);
      assert q * Unit(n) == 2 * (q * u) && (q + 1) * Unit(n) == 2 * ((q + 1) * u);
      assert q * u >= MANTISSA / 2 by {
        if u > 1 { assert q * u >= q; }
      }
      if d % 2 == 0 {
        NoneBetween(n / 2, q, d / 2);
      }
    }
  }

  /** Halfway between two doubles, the one with the even mantissa is taken. */
  lemma TiesToEven(n: nat)
    requires 2 * (n % Unit(n)) == Unit(n)
    ensures Nearest(n) / Unit(n) % 2 == 0
    ensures Nearest(n) - n == Unit(n) / 2 || n - Nearest(n) == Unit(n) / 2
  {
    hide Unit;
    var u, q := Unit(n), n / Unit(n);
    assert n == q * u + n % u;
    Plus(q, u);
    Quotient(q * u, u, q, 0);
    Quotient((q + 1) * u, u, q + 1, 0);
  }

  /** The first two ties: one goes down, the next goes up. */
  lemma FirstTies()
    ensures Nearest(0x20_0000_0000_0001) == 0x20_0000_0000_0000
    ensures Nearest(0x20_0000_0000_0003) == 0x20_0000_0000_0004
  {
    assert Unit(0x10_0000_0000_0000) == 1 && Unit(0x10_0000_0000_0001) == 1;
    assert Unit(0x20_0000_0000_0001) == 2 && Unit(0x20_0000_0000_0003) == 2;
  }

  // ---------------------------------------------------- floats

  predicate Integral(x: real) { x == x.Floor as real }

  predicate FitsDouble(n: int) { Exact(Magnitude(n)) && Magnitude(n) < LIMIT }

  /** A finite float. An integral one is exactly representable; of fractions no
      more is needed than their value. */
  type FiniteValue = x: real | Integral(x) ==> FitsDouble(x.Floor)

  /** A float. Zero has two signs; `Finite(0.0)` is the positive one. */
  datatype Double = Finite(x: FiniteValue) | NegativeZero | Infinite(negative: bool) | NotANumber

  /** An integer as a float; None is the overflow error. */
  function FromInt(n: int): Option<Double> {
    hide Nearest, Exact;
    if Nearest(Magnitude(n)) < LIMIT then
      NearestExact(Magnitude(n));
      FloorOfInt(Rounded(n));
      Some(Finite(Rounded(n) as real))
    else None
  }

  lemma FloorOfInt(n: int)
    ensures (n as real).Floor == n && Integral(n as real)
  {}

  /** A float's own integer value is read back as that float. */
  lemma FromIntegral(n: int)
    requires FitsDouble(n)
    ensures Rounded(n) == n && FromInt(n).Some? && FromInt(n).value.Finite? && FromInt(n).value.x == n as real
  {
    hide Nearest, Exact;
    NearestExact(Magnitude(n));
  }

  function Distance(a: nat, b: nat): nat { if a < b then b - a else a - b }

  /** No double is nearer. */
  lemma NearestNearest(n: nat, d: nat)
    requires Exact(d)
    ensures Distance(n, Nearest(n)) <= Distance(n, d)
  {
    var u, q := Unit(n), n / Unit(n);
    UnitBounds(n);
    Plus(q, u);
    var low, high := q * u, (q + 1) * u;
    NearestIs(n, u, q);
    if low < d < high {
      NoneBetween(n, q, d);
    }
  }

  lemma NearestIs(n: nat, u: nat, q: nat)
    requires u == Unit(n) && q == n / u
    ensures n == q * u + n % u && n % u < u
    ensures Nearest(n) == if 2 * (n % u) < u || (2 * (n % u) == u && q % 2 == 0) then q * u else (q + 1) * u
  {
    hide Unit;
  }

  /** Too large for a float. */
  lemma HugeOverflows(n: int)
    requires Magnitude(n) >= 2 * LIMIT
    ensures FromInt(n) == None
  {
    var m := Magnitude(n);
    hide Unit, Nearest;
    var u, q := Unit(m), m / Unit(m);
    UnitBounds(m);
    NearestIs(m, u, q);
    Plus(q, u);
    Larger(u, 0, q);
  }
}
