/** Quotients and remainders of natural numbers, named so that proofs can speak of
    them without the solver unfolding every division. */
module Quotients {

  function Div(x: nat, n: nat): nat
    requires n > 0
  {
    x / n
  }

  function Mod(x: nat, n: nat): (r: nat)
    requires n > 0
    ensures r < n
  {
    x % n
  }

  lemma MulMono(a: int, b: int, n: nat)
    ensures a <= b ==> a * n <= b * n
  {
  }

  lemma DivMod(x: nat, n: nat)
    requires n > 0
    ensures x == Div(x, n) * n + Mod(x, n)
  {
  }

  lemma DivUnique(x: nat, n: nat, q: nat, r: nat)
    requires r < n && x == q * n + r
    ensures Div(x, n) == q && Mod(x, n) == r
  {
    DivMod(x, n);
    MulMono(Div(x, n) + 1, q, n);
    MulMono(q + 1, Div(x, n), n);
  }

  /** A quotient is below m exactly when the number is below m * n. */
  lemma DivBelow(x: nat, n: nat, m: nat)
    requires n > 0
    ensures Div(x, n) < m <==> x < m * n
  {
    DivMod(x, n);
    MulMono(Div(x, n) + 1, m, n);
    MulMono(m, Div(x, n), n);
  }

  lemma ProductOfDivs(x: nat, n: nat, m: nat)
    requires n > 0 && m > 0 && Mod(x, n) == 0 && Mod(Div(x, n), m) == 0
    ensures n * m > 0 && Mod(x, n * m) == 0
  {
    MulMono(1, m, n);
    DivMod(x, n);
    DivMod(Div(x, n), m);
    var k := Div(Div(x, n), m);
    assert x == k * m * n == k * (n * m);
    DivUnique(x, n * m, k, 0);
  }

  lemma DivsOfProduct(x: nat, n: nat, m: nat)
    requires n > 0 && m > 0 && n * m > 0 && Mod(x, n * m) == 0
    ensures Mod(x, n) == 0 && Mod(Div(x, n), m) == 0
  {
    var k := Div(x, n * m);
    DivMod(x, n * m);
    assert x == k * (n * m) == k * m * n;
    DivUnique(x, n, k * m, 0);
    DivUnique(k * m, m, k, 0);
  }

  /** Divisibility by a product, digit by digit. */
  lemma ModProduct(x: nat, n: nat, m: nat)
    requires n > 0 && m > 0
    ensures n * m > 0 && (Mod(x, n * m) == 0 <==> Mod(x, n) == 0 && Mod(Div(x, n), m) == 0)
  {
    MulMono(1, m, n);
    if Mod(x, n) == 0 && Mod(Div(x, n), m) == 0 { ProductOfDivs(x, n, m); }
    if Mod(x, n * m) == 0 { DivsOfProduct(x, n, m); }
  }

  /** Rounded-up division. */
  function Ceil(x: nat, n: nat): nat
    requires n > 0
  {
    Div(x + n - 1, n)
  }

  lemma DivDiv(x: nat, n: nat, m: nat)
    requires n > 0 && m > 0
    ensures n * m > 0 && Div(Div(x, n), m) == Div(x, n * m)
  {
    MulMono(1, m, n);
    var d, s, r := Div(Div(x, n), m), Mod(Div(x, n), m), Mod(x, n);
    DivMod(x, n);
    DivMod(Div(x, n), m);
    MulMono(s + 1, m, n);
    assert x == (d * m + s) * n + r == d * (n * m) + (s * n + r);
    DivUnique(x, n * m, d, s * n + r);
  }

  lemma CeilStep(x: nat, n: nat)
    requires n > 0
    ensures Mod(x, n) == 0 ==> Ceil(x, n) * n == x && Ceil(x + 1, n) == Ceil(x, n) + 1
    ensures Mod(x, n) != 0 ==> Ceil(x + 1, n) == Ceil(x, n)
  {
    var q, r := Div(x, n), Mod(x, n);
    DivMod(x, n);
    DivUnique(x + n, n, q + 1, r);
    if r == 0 {
      DivUnique(x + n - 1, n, q, n - 1);
    } else {
      DivUnique(x + n - 1, n, q + 1, r - 1);
    }
  }

  lemma CeilCases(x: nat, n: nat)
    requires n > 0
    ensures Ceil(x, n) == if Mod(x, n) == 0 then Div(x, n) else Div(x, n) + 1
  {
    DivMod(x, n);
    if Mod(x, n) == 0 {
      DivUnique(x + n - 1, n, Div(x, n), n - 1);
    } else {
      DivUnique(x + n - 1, n, Div(x, n) + 1, Mod(x, n) - 1);
    }
  }
}
