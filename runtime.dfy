/** The integer loops of the power and factorial blocks
    (compiler/generator.go), on 64-bit signed integers.

    Both operands have already been rounded to integers by the block
    (`frndint`, `fistp`); the loops then multiply with `imul`, whose
    overflow flag sends the program to `register_overflow`. */
module Runtime {

  const MinInt64: int := -0x8000_0000_0000_0000
  const MaxInt64: int := 0x7fff_ffff_ffff_ffff

  predicate InInt64(x: int) {
    MinInt64 <= x <= MaxInt64
  }

  /** What an integer loop leaves: a value, or the jump to the overflow
      handler. */
  datatype IntResult = Value(v: int) | Overflow

  function Pow(b: int, n: nat): int
    decreases n
  {
    if n == 0 then 1 else Pow(b, n - 1) * b
  }

  function Fact(n: nat): (r: int)
    ensures r >= 1
    decreases n
  {
    if n == 0 then 1 else n * Fact(n - 1)
  }

  /** The result of the power block on integer operands: exponent 0 gives 0,
      any other exponent gives the power unless it leaves the 64-bit range. */
  function PowerSpec(base: int, exponent: nat): IntResult {
    if exponent == 0 then Value(0)
    else if InInt64(Pow(base, exponent)) then Value(Pow(base, exponent))
    else Overflow
  }

  /** The result of the factorial block on an integer operand. */
  function FactorialSpec(n: int): IntResult {
    if n <= 0 then Value(0)
    else if InInt64(Fact(n)) then Value(Fact(n))
    else Overflow
  }

  /** Multiplying an out-of-range value by a factor of magnitude at least 2
      stays out of range. */
  lemma OutOfRangeGrows(x: int, b: int)
    requires !InInt64(x) && (b >= 2 || b <= -2)
    ensures !InInt64(x * b)
  {
    if x > 0 {
      if b >= 2 {
        assert x * b >= x * 2;
      } else {
        assert x * b <= x * -2;
      }
    } else {
      if b >= 2 {
        assert x * b <= x * 2;
      } else {
        assert x * b >= x * -2;
      }
    }
  }

  lemma SmallBasePow(b: int, n: nat)
    requires -1 <= b <= 1
    ensures -1 <= Pow(b, n) <= 1
    decreases n
  {
    if n > 0 {
      SmallBasePow(b, n - 1);
      var p := Pow(b, n - 1);
      assert p * b == 0 || p * b == 1 || p * b == -1 by {
        assert p == 0 || p == 1 || p == -1;
        assert b == 0 || b == 1 || b == -1;
      }
    }
  }

  /** Once a power leaves the 64-bit range, every higher power does too:
      the first overflow of the loop decides the result. */
  lemma {:induction false} PowOutOfRangeStays(b: int, k: nat, n: nat)
    requires k <= n && !InInt64(Pow(b, k))
    ensures !InInt64(Pow(b, n))
    decreases n - k
  {
    if k < n {
      if -1 <= b <= 1 {
        SmallBasePow(b, k);
        assert false;
      }
      OutOfRangeGrows(Pow(b, k), b);
      assert Pow(b, k + 1) == Pow(b, k) * b;
      PowOutOfRangeStays(b, k + 1, n);
    }
  }

  /** The power loop: `rax` holds the base, `rbx` the exponent. Exponent 0
      loads zero and exponent 1 keeps the base; otherwise the loop multiplies
      the base in exponent - 1 times and stops at the first overflow. */
  method Power(base: int, exponent: int) returns (r: IntResult)
    requires InInt64(base) && InInt64(exponent) && exponent >= 0
    ensures r == PowerSpec(base, exponent)
  {
    var rax, rbx := base, exponent;
    if rbx == 0 {
      return Value(0);
    }
    if rbx == 1 {
      return Value(rax);
    }
    var rcx := rax;
    rbx := rbx - 1;
    while rbx != 0
      invariant 0 <= rbx < exponent && rax == Pow(base, exponent - rbx) && InInt64(rax)
      decreases rbx
    {
      var product := rax * rcx;
      assert product == Pow(base, exponent - rbx + 1);
      if !InInt64(product) {
        PowOutOfRangeStays(base, exponent - rbx + 1, exponent);
        return Overflow;
      }
      rax := product;
      rbx := rbx - 1;
    }
    return Value(rax);
  }

  lemma ProductAtLeast(a: int, b: int)
    requires a >= 1 && b >= 1
    ensures a * b >= a
  {
  }

  /** The factorial loop: `rcx` counts down from n while `rax` accumulates
      the product; a non-positive n stores zero. */
  method Factorial(n: int) returns (r: IntResult)
    requires InInt64(n)
    ensures r == FactorialSpec(n)
  {
    var rcx := n;
    var rax := 1;
    if !(rcx > 0) {
      return Value(0);
    }
    while rcx != 0
      invariant 0 <= rcx <= n && rax >= 1 && InInt64(rax) && rax * Fact(rcx) == Fact(n)
      decreases rcx
    {
      var product := rax * rcx;
      assert product * Fact(rcx - 1) == Fact(n) by {
        assert Fact(rcx) == rcx * Fact(rcx - 1);
        assert rax * (rcx * Fact(rcx - 1)) == (rax * rcx) * Fact(rcx - 1);
      }
      ProductAtLeast(rax, rcx);
      if !InInt64(product) {
        ProductAtLeast(product, Fact(rcx - 1));
        return Overflow;
      }
      rax := product;
      rcx := rcx - 1;
    }
    return Value(rax);
  }

  /** The powers of the valid-output programs `2 8 ^`, `2 0 ^`, `2 1 ^` and
      `2 12 ^`: exponent 1 gives the base itself, exponent 0 gives 0, not 1,
      and larger exponents the ordinary power. A negative base keeps its
      sign on odd exponents. */
  lemma PowerExamples()
    ensures PowerSpec(2, 8) == Value(256)
    ensures PowerSpec(2, 0) == Value(0)
    ensures PowerSpec(2, 1) == Value(2)
    ensures PowerSpec(2, 12) == Value(4096)
    ensures PowerSpec(-3, 3) == Value(-27)
  {
  }

  lemma {:induction false} PowAdd(b: int, m: nat, n: nat)
    ensures Pow(b, m + n) == Pow(b, m) * Pow(b, n)
    decreases n
  {
    if n > 0 {
      PowAdd(b, m, n - 1);
      assert Pow(b, m + n) == Pow(b, m + n - 1) * b;
    }
  }

  /** 2^63 does not fit, while -2^63 does. */
  lemma PowerBoundary()
    ensures PowerSpec(2, 63) == Overflow
    ensures PowerSpec(-2, 63) == Value(MinInt64)
    ensures PowerSpec(2, 62) == Value(0x4000_0000_0000_0000)
  {
    assert Pow(2, 8) == 256;
    PowAdd(2, 8, 8);
    PowAdd(2, 16, 16);
    PowAdd(2, 32, 32);
    assert Pow(2, 64) == 0x1_0000_0000_0000_0000;
    assert Pow(2, 64) == Pow(2, 63) * 2 && Pow(2, 63) == Pow(2, 62) * 2;
    assert Pow(-2, 63) == -Pow(2, 63) by {
      PowNegated(2, 63);
    }
  }

  lemma {:induction false} PowNegated(b: int, n: nat)
    ensures Pow(-b, n) == if n % 2 == 0 then Pow(b, n) else -Pow(b, n)
    decreases n
  {
    if n > 0 {
      PowNegated(b, n - 1);
    }
  }

  /** 20! is the largest factorial that fits in 64 bits. */
  lemma FactorialBoundary()
    ensures FactorialSpec(20) == Value(2432902008176640000)
    ensures FactorialSpec(21) == Overflow
    ensures FactorialSpec(0) == Value(0) && FactorialSpec(-4) == Value(0)
  {
    assert Fact(20) == 2432902008176640000 by {
      assert Fact(10) == 3628800;
    }
    assert Fact(21) == 21 * Fact(20);
  }
}
