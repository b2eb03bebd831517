/** The least-common-multiple helpers of app/gui/helpers.py, which size the
    figure grid so that every column's rows tile it evenly. */
module GuiHelpers {
  import opened Wrappers

  /** Euclid's greatest common divisor, the reference for the loop of
      `find_lcm`. */
  function Gcd(a: nat, b: nat): nat
    decreases b
  {
    if b == 0 then a else Gcd(b, a % b)
  }

  /** `n` is a multiple of the positive number `d`. */
  predicate Divides(d: int, n: int)
  {
    d > 0 && n % d == 0
  }

  /** The least common multiple of two positive numbers. */
  function Lcm(a: nat, b: nat): nat
    requires a > 0 && b > 0
  {
    GcdDividesBoth(a, b);
    a * b / Gcd(a, b)
  }

  // ---------------------------------------------------------------------
  // Arithmetic facts

  lemma {:induction false} MulAtLeast(d: int, t: int)
    requires d > 0 && t >= 1
    ensures d * t >= d
    decreases t
  {
    if t > 1 {
      MulAtLeast(d, t - 1);
      assert d * t == d * (t - 1) + d;
    }
  }

  /** Quotient and remainder are the only ones with a remainder in [0, d). */
  lemma DivModUnique(d: int, x: int, q: int, r: int)
    requires d > 0 && x == d * q + r && 0 <= r < d
    ensures x / d == q && x % d == r
  {
    var q0, r0 := x / d, x % d;
    assert x == d * q0 + r0;
    assert d * (q - q0) == r0 - r;
    if q - q0 >= 1 {
      MulAtLeast(d, q - q0);
    } else if q0 - q >= 1 {
      MulAtLeast(d, q0 - q);
    }
  }

  lemma MultipleMod(d: int, k: int)
    requires d > 0
    ensures (d * k) % d == 0
  {
    DivModUnique(d, d * k, k, 0);
  }

  lemma MultipleDiv(d: int, k: int)
    requires d > 0
    ensures (d * k) / d == k
  {
    DivModUnique(d, d * k, k, 0);
  }

  /** A multiple is `d` times its quotient. */
  lemma Quotient(d: int, n: int)
    requires Divides(d, n)
    ensures n == d * (n / d)
  {
  }

  // ---------------------------------------------------------------------
  // gcd

  /** The gcd of two numbers, not both zero, is positive and divides both. */
  lemma {:induction false} GcdDividesBoth(a: nat, b: nat)
    requires a > 0 || b > 0
    ensures Gcd(a, b) > 0 && Divides(Gcd(a, b), a) && Divides(Gcd(a, b), b)
    decreases b
  {
    if b > 0 {
      GcdDividesBoth(b, a % b);
      var g := Gcd(a, b);
      Quotient(g, b);
      if a % b > 0 {
        Quotient(g, a % b);
      }
      var q, r := b / g, (a % b) / g;
      assert b == g * q && a % b == g * r;
      assert a == g * ((a / b) * q + r) by {
        assert a == (a / b) * b + a % b;
      }
      MultipleMod(g, (a / b) * q + r);
    }
  }

  /** Bezout's identity: the gcd is an integer combination of the two numbers. */
  lemma {:induction false} Bezout(a: nat, b: nat) returns (x: int, y: int)
    ensures x * a + y * b == Gcd(a, b)
    decreases b
  {
    if b == 0 {
      x, y := 1, 0;
    } else {
      var x', y' := Bezout(b, a % b);
      assert a % b == a - (a / b) * b;
      x, y := y', x' - y' * (a / b);
      calc {
        x * a + y * b;
        y' * a + x' * b - y' * (a / b) * b;
        x' * b + y' * (a - (a / b) * b);
        x' * b + y' * (a % b);
      }
    }
  }

  /** Swapping the arguments leaves the gcd unchanged. */
  lemma GcdSymmetric(a: nat, b: nat)
    ensures Gcd(a, b) == Gcd(b, a)
  {
    if a > 0 && b > 0 {
      if a < b {
        DivModUnique(b, a, 0, a);
        assert Gcd(a, b) == Gcd(b, a % b);
      } else if b < a {
        DivModUnique(a, b, 0, b);
        assert Gcd(b, a) == Gcd(a, b % a);
      }
    } else if a == 0 && b > 0 {
      assert Gcd(a, b) == Gcd(b, 0);
    } else if b == 0 && a > 0 {
      assert Gcd(b, a) == Gcd(a, 0);
    }
  }

  // ---------------------------------------------------------------------
  // lcm

  /** `Lcm(a, b)` is a positive common multiple of `a` and `b`. */
  lemma LcmIsCommonMultiple(a: nat, b: nat)
    requires a > 0 && b > 0
    ensures Lcm(a, b) > 0 && Divides(a, Lcm(a, b)) && Divides(b, Lcm(a, b))
  {
    var g := Gcd(a, b);
    GcdDividesBoth(a, b);
    Quotient(g, a);
    Quotient(g, b);
    var a', b' := a / g, b / g;
    assert a' > 0 && b' > 0;
    assert a * b == g * (a * b') by {
      assert a * b == a * (g * b');
    }
    MultipleDiv(g, a * b');
    assert Lcm(a, b) == a * b';
    assert a * b' == a' * b by {
      assert a * b' == (g * a') * b';
      assert a' * b == a' * (g * b');
    }
    MultipleMod(a, b');
    MultipleMod(b, a');
  }

  /** `Lcm(a, b)` divides every common multiple of `a` and `b`. */
  lemma LcmDividesCommonMultiples(a: nat, b: nat, m: int)
    requires a > 0 && b > 0 && Divides(a, m) && Divides(b, m)
    ensures Divides(Lcm(a, b), m)
  {
    var g := Gcd(a, b);
    LcmIsCommonMultiple(a, b);
    GcdDividesBoth(a, b);
    Quotient(g, a);
    Quotient(g, b);
    Quotient(a, m);
    Quotient(b, m);
    var a', b', p, q := a / g, b / g, m / a, m / b;
    var x, y := Bezout(a, b);
    var l := Lcm(a, b);
    // as in LcmIsCommonMultiple
    MultipleDiv(g, a * b');
    assert a * b == g * (a * b') by {
      assert a * b == a * (g * b');
    }
    assert l == a * b' && l == a' * b by {
      assert a * b' == (g * a') * b';
      assert a' * b == a' * (g * b');
    }
    var k := x * q + y * p;
    ScaledCombination(g, a, b, a', b', x, y, p, q, m);
    MulCancel(g, l * k, m);
    MultipleMod(l, k);
  }

  lemma ScaledCombination(g: int, a: int, b: int, a': int, b': int, x: int, y: int, p: int, q: int, m: int)
    requires a == g * a' && b == g * b' && m == a * p && m == b * q && x * a + y * b == g
    ensures g * ((a * b') * (x * q + y * p)) == g * m
  {
    assert g * ((a * b') * (x * q)) == x * a * m by {
      assert g * ((a * b') * (x * q)) == x * a * ((g * b') * q);
    }
    assert g * ((a * b') * (y * p)) == y * b * m by {
      assert g * ((a * b') * (y * p)) == y * (g * b') * (a * p);
    }
    assert (x * a + y * b) * m == x * a * m + y * b * m;
  }

  lemma MulCancel(g: int, u: int, v: int)
    requires g > 0 && g * u == g * v
    ensures u == v
  {
    if u - v >= 1 {
      MulAtLeast(g, u - v);
    } else if v - u >= 1 {
      MulAtLeast(g, v - u);
    }
  }

  /** Swapping the arguments leaves the lcm unchanged. */
  lemma LcmSymmetric(a: nat, b: nat)
    requires a > 0 && b > 0
    ensures Lcm(a, b) == Lcm(b, a)
  {
    GcdSymmetric(a, b);
    assert a * b == b * a;
  }

  // ---------------------------------------------------------------------
  // The loops of the source

  /** `find_lcm(num1, num2)`: order the arguments, run Euclid's loop to get
      the gcd, then divide the product by it. A zero argument would divide
      by zero, so both must be positive. */
  method FindLcm(num1: int, num2: int) returns (lcm: int)
    requires num1 > 0 && num2 > 0
    ensures lcm == Lcm(num1, num2)
  {
    var num, den;
    if num1 > num2 {
      num, den := num1, num2;
    } else {
      num, den := num2, num1;
    }
    GcdSymmetric(num1, num2);
    var rem := num % den;
    while rem != 0
      invariant den > 0 && num >= 0 && rem == num % den
      invariant Gcd(num, den) == Gcd(num1, num2)
      decreases rem
    {
      num := den;
      den := rem;
      rem := num % den;
    }
    var gcd := den;
    assert Gcd(num, den) == Gcd(den, 0) == den;
    lcm := num1 * num2 / gcd;
  }

  /** The left fold of `Lcm` over a non-empty list. */
  function LcmAll(numbers: seq<int>): (r: int)
    requires |numbers| > 0 && forall i | 0 <= i < |numbers| :: numbers[i] > 0
    ensures r > 0
  {
    if |numbers| == 1 then numbers[0]
    else
      var l := LcmAll(numbers[..|numbers| - 1]);
      LcmIsCommonMultiple(l, numbers[|numbers| - 1]);
      Lcm(l, numbers[|numbers| - 1])
  }

  lemma DividesTransitive(a: int, b: int, c: int)
    requires Divides(a, b) && Divides(b, c)
    ensures Divides(a, c)
  {
    Quotient(a, b);
    Quotient(b, c);
    assert c == a * ((b / a) * (c / b));
    MultipleMod(a, (b / a) * (c / b));
  }

  /** The fold is a multiple of every entry and divides every common
      multiple of the entries: it is their least common multiple. */
  lemma {:induction false} LcmAllIsLeast(numbers: seq<int>)
    requires |numbers| > 0 && forall i | 0 <= i < |numbers| :: numbers[i] > 0
    ensures forall i | 0 <= i < |numbers| :: Divides(numbers[i], LcmAll(numbers))
    ensures forall m | (forall i | 0 <= i < |numbers| :: Divides(numbers[i], m)) :: Divides(LcmAll(numbers), m)
  {
    if |numbers| > 1 {
      var init, last := numbers[..|numbers| - 1], numbers[|numbers| - 1];
      LcmAllIsLeast(init);
      var l := LcmAll(init);
      LcmIsCommonMultiple(l, last);
      forall i | 0 <= i < |numbers| ensures Divides(numbers[i], LcmAll(numbers)) {
        if i < |numbers| - 1 {
          assert numbers[i] == init[i];
          DividesTransitive(numbers[i], l, Lcm(l, last));
        }
      }
      forall m | (forall i | 0 <= i < |numbers| :: Divides(numbers[i], m)) ensures Divides(LcmAll(numbers), m) {
        assert forall i | 0 <= i < |init| :: Divides(init[i], m) by {
          forall i | 0 <= i < |init| ensures Divides(init[i], m) {
            assert init[i] == numbers[i];
          }
        }
        assert Divides(last, m);
        LcmDividesCommonMultiples(l, last, m);
      }
    }
  }

  /** `global_lcm(numbers)`: None for fewer than two numbers, otherwise
      `find_lcm` folded from the left over the list. */
  method GlobalLcm(numbers: seq<int>) returns (r: Option<int>)
    requires |numbers| >= 2 ==> forall i | 0 <= i < |numbers| :: numbers[i] > 0
    ensures |numbers| < 2 <==> r.None?
    ensures r.Some? ==> r.value == LcmAll(numbers)
  {
    if |numbers| < 2 {
      return None;
    }
    var lcm := FindLcm(numbers[0], numbers[1]);
    assert numbers[..2][..1] == numbers[..1];
    for i := 2 to |numbers|
      invariant lcm == LcmAll(numbers[..i])
    {
      assert numbers[..i + 1][..i] == numbers[..i];
      lcm := FindLcm(lcm, numbers[i]);
    }
    assert numbers[..|numbers|] == numbers;
    return Some(lcm);
  }
}
