/**
 * The market factor of `PriceOptimizationService.optimize_price`: the product of
 * the impacts of the applied market conditions, multiplied for an upward trend and
 * divided for a downward one.
 */
module Market {
  import opened Wrappers
  import opened Models

  datatype ArithmeticError = ZeroDivisionError

  /** A 'down' condition with impact 0 makes `market_factor /= impact` raise. */
  predicate DividesByZero(c: MarketCondition)
  {
    c.trend == "down" && c.impactFactor == 0.0
  }

  /**
   * What one condition multiplies the market factor by. A condition that
   * divides by zero never reaches a product (`MarketFactor` fails first); it is
   * given the factor 0 only to keep this function total.
   */
  function Factor(c: MarketCondition): real
  {
    if c.trend == "up" then c.impactFactor
    else if c.trend == "down" then (if c.impactFactor == 0.0 then 0.0 else 1.0 / c.impactFactor)
    else 1.0
  }

  /** The fold of `op` over `f(x)` for the elements of `xs`, left to right, starting from `unit`. */
  function Fold<T>(xs: seq<T>, f: T -> real, op: (real, real) -> real, unit: real): real
  {
    if xs == [] then unit else op(Fold(xs[..|xs| - 1], f, op, unit), f(xs[|xs| - 1]))
  }

  ghost predicate Monoid(op: (real, real) -> real, unit: real)
  {
    && (forall x, y, z :: op(op(x, y), z) == op(x, op(y, z)))
    && (forall x :: op(x, unit) == x)
  }

  ghost predicate CommutativeMonoid(op: (real, real) -> real, unit: real)
  {
    && Monoid(op, unit)
    && (forall x, y :: op(x, y) == op(y, x))
  }

  function Times(x: real, y: real): real
  {
    x * y
  }

  lemma TimesCommutativeMonoid()
    ensures CommutativeMonoid(Times, 1.0)
  {
  }

  /** The product of the factors, `market_factor` after the loop when no division fails. */
  function FactorProduct(conditions: seq<MarketCondition>): real
  {
    Fold(conditions, Factor, Times, 1.0)
  }

  /** The market factor of the applied conditions, or the division by zero it raises. */
  function MarketFactor(conditions: seq<MarketCondition>): (r: Result<real, ArithmeticError>)
    ensures r.Err? <==> exists c :: c in conditions && DividesByZero(c)
  {
    if exists c :: c in conditions && DividesByZero(c) then Err(ZeroDivisionError)
    else Ok(FactorProduct(conditions))
  }

  lemma {:induction false} FoldAppend<T>(a: seq<T>, b: seq<T>, f: T -> real, op: (real, real) -> real,
                                         unit: real)
    requires Monoid(op, unit)
    ensures Fold(a + b, f, op, unit) == op(Fold(a, f, op, unit), Fold(b, f, op, unit))
  {
    if b != [] {
      var n := |b|;
      var ab := a + b;
      assert ab[..|ab| - 1] == a + b[..n - 1];
      assert ab[|ab| - 1] == b[n - 1];
      FoldAppend(a, b[..n - 1], f, op, unit);
      var x, y, z := Fold(a, f, op, unit), Fold(b[..n - 1], f, op, unit), f(b[n - 1]);
      assert Fold(ab, f, op, unit) == op(op(x, y), z);
      assert op(op(x, y), z) == op(x, op(y, z));
    } else {
      assert a + b == a;
    }
  }

  lemma FoldRemove<T>(b: seq<T>, k: int, f: T -> real, op: (real, real) -> real, unit: real)
    requires CommutativeMonoid(op, unit)
    requires 0 <= k < |b|
    ensures Fold(b, f, op, unit) == op(Fold(b[..k] + b[k + 1..], f, op, unit), f(b[k]))
  {
    var front, back := b[..k], b[k + 1..];
    var mid := [b[k]] + back;
    assert b == front + mid;
    FoldAppend(front, mid, f, op, unit);
    FoldAppend([b[k]], back, f, op, unit);
    FoldAppend(front, back, f, op, unit);
    assert [b[k]][..0] == [];
    assert Fold([b[k]], f, op, unit) == f(b[k]);
  }

  /** A fold of a commutative monoid does not depend on the order of the elements. */
  lemma {:induction false} FoldPermutation<T>(a: seq<T>, b: seq<T>, f: T -> real, op: (real, real) -> real,
                                              unit: real)
    requires CommutativeMonoid(op, unit)
    requires multiset(a) == multiset(b)
    ensures Fold(a, f, op, unit) == Fold(b, f, op, unit)
  {
    if a != [] {
      var n := |a|;
      assert a[n - 1] in multiset(b);
      var k :| 0 <= k < |b| && b[k] == a[n - 1];
      RemoveMatching(a, b, k);
      FoldPermutation(a[..n - 1], b[..k] + b[k + 1..], f, op, unit);
      FoldRemove(b, k, f, op, unit);
    }
  }

  lemma RemoveMatching<T>(a: seq<T>, b: seq<T>, k: int)
    requires multiset(a) == multiset(b) && a != []
    requires 0 <= k < |b| && b[k] == a[|a| - 1]
    ensures multiset(a[..|a| - 1]) == multiset(b[..k] + b[k + 1..])
  {
    var n := |a|;
    assert a == a[..n - 1] + [a[n - 1]];
    assert b == b[..k] + [b[k]] + b[k + 1..];
    var front, rest := a[..n - 1], b[..k] + b[k + 1..];
    forall x
      ensures multiset(front)[x] == multiset(rest)[x]
    {
      assert multiset(a)[x] == multiset(front)[x] + multiset{a[n - 1]}[x];
      assert multiset(b)[x] == multiset(b[..k])[x] + multiset{b[k]}[x] + multiset(b[k + 1..])[x];
      assert multiset(rest)[x] == multiset(b[..k])[x] + multiset(b[k + 1..])[x];
    }
  }

  /** The market factor is the same for any order of the same conditions. */
  lemma MarketFactorOrderFree(a: seq<MarketCondition>, b: seq<MarketCondition>)
    requires multiset(a) == multiset(b)
    ensures MarketFactor(a) == MarketFactor(b)
  {
    assert forall c :: c in b <==> c in multiset(b);
    assert forall c :: c in a <==> c in multiset(a);
    TimesCommutativeMonoid();
    FoldPermutation(a, b, Factor, Times, 1.0);
  }

  /** The service's loop over the applied conditions. */
  method ComputeMarketFactor(conditions: seq<MarketCondition>) returns (r: Result<real, ArithmeticError>)
    ensures r == MarketFactor(conditions)
  {
    var marketFactor := 1.0;
    var i := 0;
    while i < |conditions|
      invariant 0 <= i <= |conditions|
      invariant forall c :: c in conditions[..i] ==> !DividesByZero(c)
      invariant marketFactor == FactorProduct(conditions[..i])
    {
      var condition := conditions[i];
      assert conditions[..i + 1][..i] == conditions[..i];
      assert FactorProduct(conditions[..i + 1]) == Times(marketFactor, Factor(condition));
      if condition.trend == "up" {
        marketFactor := marketFactor * condition.impactFactor;
      } else if condition.trend == "down" {
        if condition.impactFactor == 0.0 {
          assert condition in conditions && DividesByZero(condition);
          return Err(ZeroDivisionError);
        }
        marketFactor := marketFactor / condition.impactFactor;
      }
      i := i + 1;
    }
    assert conditions[..i] == conditions;
    return Ok(marketFactor);
  }

}
