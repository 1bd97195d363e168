/**
 * The utility macros: integer division rounded to the nearest quotient, and
 * the guard-and-early-return assertions that raise a system error.
 */
module Utils {
  import opened Types

  /**
   * UTILS_DIVIDE_AND_ROUND(a, b) = (a + (b >> 1)) / b on unsigned operands,
   * here unbounded: the wrap of the sum at the operands' width is not modelled.
   * The quotient is the nearest integer to a / b, halves rounded up:
   * q * b is at most half a divisor below or above a.
   */
  function DivideAndRound(a: nat, b: nat): (q: nat)
    requires b > 0
    ensures q * b <= a + b / 2 < q * b + b
  {
    (a + b / 2) / b
  }

  /** When b divides a, rounding changes nothing. */
  lemma DivideAndRoundExact(a: nat, b: nat)
    requires b > 0 && a % b == 0
    ensures DivideAndRound(a, b) == a / b
  {
    var k := a / b;
    assert k * b == a;
    DivUnique(a + b / 2, b, k);
  }

  /** A quotient q with q * b <= x < q * b + b is the floor quotient x / b. */
  lemma DivUnique(x: nat, b: nat, q: nat)
    requires b > 0 && q * b <= x < q * b + b
    ensures x / b == q
  {
    var d := x / b;
    assert d * b <= x < d * b + b;
    assert d * b < (q + 1) * b;
    MulCancel(d, q + 1, b);
    assert q * b < (d + 1) * b;
    MulCancel(q, d + 1, b);
  }

  /** For a fixed divisor the rounded quotient never decreases as a grows. */
  lemma DivideAndRoundMonotone(a1: nat, a2: nat, b: nat)
    requires b > 0 && a1 <= a2
    ensures DivideAndRound(a1, b) <= DivideAndRound(a2, b)
  {
    DivMonotone(a1 + b / 2, a2 + b / 2, b);
  }

  /** Floor division by a positive divisor is monotone. */
  lemma DivMonotone(x: nat, y: nat, b: nat)
    requires b > 0 && x <= y
    ensures x / b <= y / b
  {
    var qx, qy := x / b, y / b;
    assert qx * b <= x && y < qy * b + b;
    assert qx * b < (qy + 1) * b;
    MulCancel(qx, qy + 1, b);
  }

  /** A product with the same factor b is smaller only if the other factor is. */
  lemma {:induction false} MulCancel(x: nat, y: nat, b: nat)
    requires x * b < y * b
    ensures x < y
    decreases x
  {
    assert y != 0;
    if x > 0 {
      assert (x - 1) * b == x * b - b && (y - 1) * b == y * b - b;
      MulCancel(x - 1, y - 1, b);
    }
  }

  /** Whether the firmware is built with RELEASE defined. */
  datatype Build = Debug | Release

  /**
   * What a UTILS_ASSERT guard does: either execution continues after it, or
   * it raises `raised` through System_RaiseError once and the enclosing
   * function returns `value`.
   */
  datatype Guard<V> = Continue | EarlyReturn(raised: SystemErrorFlag, value: V)

  /**
   * UTILS_ASSERT(condition, error, returnValue). In a debug build a false
   * condition raises `error` and returns `returnValue`; a true one lets
   * execution continue. In a release build the macro expands to nothing, so
   * execution always continues.
   */
  function Assert<V>(build: Build, condition: bool, error: SystemErrorFlag, returnValue: V): (g: Guard<V>)
    ensures g.Continue? <==> build.Release? || condition
    ensures g.EarlyReturn? ==> g.raised == error && g.value == returnValue
  {
    if build.Debug? && !condition then EarlyReturn(error, returnValue) else Continue
  }

  /** UTILS_ASSERT_VOID(condition, error): the same guard with a bare return. */
  function AssertVoid(build: Build, condition: bool, error: SystemErrorFlag): (g: Guard<()>)
    ensures g.Continue? <==> build.Release? || condition
    ensures g.EarlyReturn? ==> g.raised == error
  {
    Assert(build, condition, error, ())
  }

  /**
   * Executes a UTILS_ASSERT or UTILS_ASSERT_VOID guard: `proceed` tells
   * whether the enclosing function goes on, and the flag is raised exactly
   * when it does not.
   */
  method CheckAssert(build: Build, condition: bool, error: SystemErrorFlag, system: System) returns (proceed: bool)
    modifies system
    ensures proceed <==> AssertVoid(build, condition, error).Continue?
    ensures system.raised == old(system.raised) + (if proceed then [] else [error])
  {
    match AssertVoid(build, condition, error)
    case Continue =>
      proceed := true;
    case EarlyReturn(raised, _) =>
      system.RaiseError(raised);
      proceed := false;
  }
}
