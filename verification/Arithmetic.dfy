// Facts about products, quotients and remainders of integers.
module Arithmetic {
  lemma Monotone(a: int, b: int, m: nat)
    requires a <= b
    ensures a * m <= b * m
  {
  }

  lemma ModUnique(x: int, q: int, r: nat, m: nat)
    requires r < m && x == q * m + r
    ensures x % m == r && x / m == q
  {
    var d := x / m - q;
    assert d * m == r - x % m;
    if d >= 1 {
      Monotone(1, d, m);
    } else if d <= -1 {
      Monotone(d, -1, m);
    }
  }

  lemma ShiftMod(a: nat, q: nat, m: nat)
    requires m > 0
    ensures (q * m + a) % m == a % m
  {
    assert q * m + a == (q + a / m) * m + a % m;
    ModUnique(q * m + a, q + a / m, a % m, m);
  }

  predicate Divides(d: int, n: int) {
    d > 0 && n % d == 0
  }

  lemma Multiple(q: int, d: nat)
    requires d > 0
    ensures Divides(d, q * d) && q * d / d == q
  {
    ModUnique(q * d, q, 0, d);
  }

  lemma DividesTrans(a: int, b: int, c: int)
    requires Divides(a, b) && Divides(b, c)
    ensures Divides(a, c)
  {
    assert c == c / b * b && b == b / a * a;
    assert c == c / b * (b / a) * a;
    Multiple(c / b * (b / a), a);
  }

  lemma DividesSum(d: int, x: int, y: int, a: int, b: int)
    requires Divides(d, x) && Divides(d, y)
    ensures Divides(d, x * a + y * b)
  {
    assert x == x / d * d && y == y / d * d;
    assert x * a + y * b == (x / d * a + y / d * b) * d;
    Multiple(x / d * a + y / d * b, d);
  }

  lemma DividesBound(d: int, n: int)
    requires Divides(d, n) && n > 0
    ensures d <= n
  {
  }

  // Euclid's algorithm.
  function Gcd(a: nat, b: nat): (g: nat)
    ensures a > 0 || b > 0 ==> g > 0
    decreases b
  {
    if b == 0 then a else Gcd(b, a % b)
  }

  // The result is a linear combination of the arguments.
  lemma {:induction false} Bezout(a: nat, b: nat) returns (x: int, y: int)
    ensures a * x + b * y == Gcd(a, b)
    decreases b
  {
    if b == 0 {
      x, y := 1, 0;
    } else {
      var x', y' := Bezout(b, a % b);
      x, y := y', x' - a / b * y';
      assert a == a / b * b + a % b;
      assert a * y' == (a / b * b) * y' + (a % b) * y';
      assert b * (x' - a / b * y') == b * x' - (a / b * b) * y';
    }
  }

  lemma {:induction false} GcdDivides(a: nat, b: nat)
    requires a > 0 || b > 0
    ensures Divides(Gcd(a, b), a) && Divides(Gcd(a, b), b)
    decreases b
  {
    if b > 0 {
      GcdDivides(b, a % b);
      var g := Gcd(a, b);
      DividesSum(g, b, a % b, a / b, 1);
      assert b * (a / b) + a % b * 1 == a;
    }
  }

  // Every common divisor divides the greatest.
  lemma GcdGreatest(a: nat, b: nat, d: int)
    requires Divides(d, a) && Divides(d, b)
    ensures Divides(d, Gcd(a, b))
  {
    var x, y := Bezout(a, b);
    DividesSum(d, a, b, x, y);
  }

  lemma Factor(g: int, a: nat)
    requires Divides(g, a) && a > 0
    ensures a / g > 0 && a == a / g * g
  {
  }

  // With a == p * g and b == q * g, the number p * b is a multiple of both.
  lemma CrossMultiple(p: nat, q: nat, g: nat, a: nat, b: nat)
    requires p > 0 && q > 0 && a > 0 && b > 0 && a == p * g && b == q * g
    ensures p * b == q * a && p * b > 0 && Divides(a, p * b) && Divides(b, p * b)
  {
    Swap(p, q, g);
    Monotone(1, p, b);
    Multiple(p, b);
    Multiple(q, a);
  }

  lemma Swap(p: int, q: int, g: int)
    ensures p * (q * g) == q * (p * g)
  {
  }

  // a / gcd * b is a common multiple that divides every common multiple.
  lemma LcmLeast(a: nat, b: nat, m: int)
    requires a > 0 && b > 0
    ensures var l := a / Gcd(a, b) * b;
      && l > 0 && Divides(a, l) && Divides(b, l)
      && (Divides(a, m) && Divides(b, m) ==> Divides(l, m))
  {
    var g := Gcd(a, b);
    GcdDivides(a, b);
    Factor(g, a);
    Factor(g, b);
    CrossMultiple(a / g, b / g, g, a, b);
    if Divides(a, m) && Divides(b, m) {
      var x, y := Bezout(a, b);
      CommonMultiple(a, b, g, b / g, x, y, m);
    }
  }

  lemma CommonMultiple(a: nat, b: nat, g: nat, b': nat, x: int, y: int, m: int)
    requires a > 0 && b > 0 && g > 0 && b == b' * g && b' > 0 && a * x + b * y == g
    requires Divides(a, m) && Divides(b, m)
    ensures b' * a > 0 && Divides(b' * a, m)
  {
    var k, n := m / a, m / b;
    assert m == k * a && m == n * b;
    var c := n * x + k * y;
    assert g * k == b * c by {
      assert g * k == (a * x + b * y) * k;
      assert (a * x + b * y) * k == (k * a) * x + b * y * k;
      assert (n * b) * x + b * y * k == b * (n * x + k * y);
    }
    assert g * k == g * (b' * c) by {
      assert b * c == g * (b' * c);
    }
    Cancel(g, k, b' * c);
    assert m == b' * c * a;
    assert b' * c * a == c * (b' * a);
    assert b' * a > 0 by {
      Monotone(1, b', a);
    }
    Multiple(c, b' * a);
  }

  lemma Cancel(g: nat, x: int, y: int)
    requires g > 0 && g * x == g * y
    ensures x == y
  {
    ModUnique(g * x, x, 0, g);
    ModUnique(g * x, y, 0, g);
  }
}
