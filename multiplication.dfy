/** The documentation-style example script: the product of two integers.
    Python integers are unbounded, as Dafny's `int` is. */
module Multiplication {

  /** `multiplie_nombres`: the product of two integers, with no side effect. */
  function MultiplieNombres(nombre1: int, nombre2: int): (produit: int)
    ensures produit == 0 <==> nombre1 == 0 || nombre2 == 0
  {
    nombre1 * nombre2
  }

  /** Reference definition: `b` added to itself `n` times. */
  function RepeatedSum(n: nat, b: int): int
  {
    if n == 0 then 0 else RepeatedSum(n - 1, b) + b
  }

  lemma {:induction false} RepeatedSumIsProduct(n: nat, b: int)
    ensures RepeatedSum(n, b) == n * b
  {
    if n > 0 {
      RepeatedSumIsProduct(n - 1, b);
      assert (n - 1) * b + b == n * b;
    }
  }

  /** The product agrees with repeated addition, for either sign of the
      first factor, and does not depend on the order of the factors. */
  lemma {:induction false} MultiplieIsRepeatedAddition(nombre1: int, nombre2: int)
    ensures MultiplieNombres(nombre1, nombre2) ==
      if nombre1 >= 0 then RepeatedSum(nombre1, nombre2) else -RepeatedSum(-nombre1, nombre2)
    ensures MultiplieNombres(nombre1, nombre2) == MultiplieNombres(nombre2, nombre1)
  {
    if nombre1 >= 0 {
      RepeatedSumIsProduct(nombre1, nombre2);
    } else {
      RepeatedSumIsProduct(-nombre1, nombre2);
    }
  }

  /** The two calls of the script's demonstration. */
  lemma DemoExamples()
    ensures MultiplieNombres(2, 3) == 6
    ensures MultiplieNombres(4, 5) == 20
  {
  }
}
