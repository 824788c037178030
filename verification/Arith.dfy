/** Division by a variable, in the form the chunk arithmetic needs. */
module Arith {
  function CeilDiv(a: nat, b: nat): nat
    requires b > 0
  {
    (a + b - 1) / b
  }

  lemma CeilDivBounds(a: nat, b: nat)
    requires b > 0
    ensures a <= CeilDiv(a, b) * b < a + b
    ensures a > 0 ==> CeilDiv(a, b) > 0
  {
    var q, r := (a + b - 1) / b, (a + b - 1) % b;
    assert a + b - 1 == q * b + r;
    assert q == 0 ==> q * b == 0;
  }

  lemma Multiple(a: nat, b: nat)
    requires b > 0 && a % b == 0
    ensures a == a / b * b
  {
  }

  lemma {:induction false} MulLess(i: nat, j: nat, c: nat)
    requires i < j
    ensures i * c + c <= j * c
    decreases j
  {
    assert j * c == (j - 1) * c + c;
    if i < j - 1 {
      MulLess(i, j - 1, c);
    }
  }

  lemma CeilDivLeast(a: nat, q: nat, b: nat)
    requires b > 0 && a <= q * b
    ensures CeilDiv(a, b) <= q
  {
    CeilDivBounds(a, b);
    if q < CeilDiv(a, b) {
      MulLess(q, CeilDiv(a, b), b);
    }
  }

  lemma CeilDivMore(a: nat, q: nat, b: nat)
    requires b > 0 && q * b < a
    ensures q < CeilDiv(a, b)
  {
    CeilDivBounds(a, b);
    if CeilDiv(a, b) < q {
      MulLess(CeilDiv(a, b), q, b);
    }
  }

  /** Item `i` of `b` runs of `c` items is in one of the runs. */
  lemma DivLess(i: nat, b: nat, c: nat)
    requires c > 0 && i < c * b
    ensures i / c < b && (i / c) * c <= i < (i / c + 1) * c
  {
    var t := i / c;
    assert i == t * c + i % c;
    MulAdd(t, 1, c);
    if t > b {
      MulLess(b, t, c);
    }
    assert t >= b ==> t * c >= b * c;
  }

  lemma MulAdd(x: nat, y: nat, c: nat)
    ensures (x + y) * c == x * c + y * c
  {
  }
}
