/** Cosine similarity of sparse vectors (similarity.go), with float64 taken as real and
    the square root as any function that squares back. */
module SparseVectors {

  type Vector = map<string, real>

  /** A Go map read: zero for what is not there. */
  function At(a: Vector, t: string): real {
    if t in a then a[t] else 0.0
  }

  /** Multiplication and division under a name, so that a proof can do without them. */
  function Mul(x: real, y: real): real { x * y }

  function Over(d: real, p: real, q: real): real
    requires p > 0.0 && q > 0.0
  {
    MulSign(p, q);
    d / (p * q)
  }

  function Product(a: Vector, b: Vector, t: string): real {
    Mul(At(a, t), At(b, t))
  }

  /** The sum over some terms of the products of two vectors' weights: `:|` picks the terms in
      no particular order, as ranging over a Go map does. */
  ghost function Dot(terms: set<string>, a: Vector, b: Vector): real {
    if terms == {} then 0.0
    else
      var t :| t in terms;
      Product(a, b, t) + Dot(terms - {t}, a, b)
  }

  ghost function NormSquared(a: Vector): real {
    Dot(a.Keys, a, a)
  }

  ghost predicate IsSqrt(sqrt: real -> real) {
    forall x: real :: x >= 0.0 ==> sqrt(x) >= 0.0 && sqrt(x) * sqrt(x) == x
  }

  ghost function Cosine(sqrt: real -> real, a: Vector, b: Vector): real
    requires IsSqrt(sqrt)
  {
    if NormSquared(a) == 0.0 || NormSquared(b) == 0.0 then 0.0
    else
      LengthSquares(sqrt, a);
      LengthSquares(sqrt, b);
      Over(Dot(a.Keys, a, b), sqrt(NormSquared(a)), sqrt(NormSquared(b)))
  }

  // ------------------------------------------------------------ real arithmetic

  lemma SquareOfNegated(x: real)
    ensures Mul(-x, -x) == Mul(x, x)
  {
  }

  lemma ProductSign(x: real, y: real)
    ensures x > 0.0 && y > 0.0 ==> Mul(x, y) > 0.0
    ensures x >= 0.0 && y >= 0.0 ==> Mul(x, y) >= 0.0
    ensures x == 0.0 || y == 0.0 ==> Mul(x, y) == 0.0
    ensures Mul(x, y) == Mul(y, x)
  {
  }

  lemma MulSign(x: real, y: real)
    ensures x > 0.0 && y > 0.0 ==> Mul(x, y) > 0.0
    ensures x >= 0.0 && y >= 0.0 ==> Mul(x, y) >= 0.0
    ensures x == 0.0 || y == 0.0 ==> Mul(x, y) == 0.0
    ensures Mul(x, x) >= 0.0 && (x != 0.0 ==> Mul(x, x) > 0.0)
    ensures Mul(x, y) == Mul(y, x)
  {
    hide Mul;
    ProductSign(x, y);
    ProductSign(x, x);
    ProductSign(-x, -x);
    SquareOfNegated(x);
  }

  lemma SqrtIs(sqrt: real -> real, x: real)
    requires IsSqrt(sqrt) && x >= 0.0
    ensures sqrt(x) >= 0.0 && Mul(sqrt(x), sqrt(x)) == x && (x > 0.0 ==> sqrt(x) > 0.0)
  {
    assert sqrt(x) * sqrt(x) == x;
  }

  lemma Larger(d: real, m: real)
    requires d > m >= 0.0
    ensures d * d > m * m
  {
    MulSign(d - m, d + m);
    assert Mul(d - m, d + m) == d * d - m * m;
  }

  lemma SquareOrder(d: real, m: real)
    requires m >= 0.0 && d * d <= m * m
    ensures -m <= d <= m
  {
    if d > m {
      Larger(d, m);
    }
    if -d > m {
      Larger(-d, m);
    }
  }

  lemma QuotientIs(n: real, d: real, q: real)
    requires d > 0.0 && q * d == n
    ensures n / d == q
  {
    assert (n / d) * d == n;
    assert (n / d - q) * d == 0.0;
  }

  lemma QuotientOrder(n: real, d: real)
    requires d > 0.0
    ensures n <= d ==> n / d <= 1.0
    ensures -d <= n ==> -1.0 <= n / d
    ensures n > 0.0 <==> n / d > 0.0
    ensures n >= 0.0 <==> n / d >= 0.0
  {
    var q := n / d;
    assert q * d == n;
    assert (1.0 - q) * d == d - n;
    assert (q + 1.0) * d == n + d;
  }

  lemma OverIsBounded(d: real, p: real, q: real, x: real, y: real)
    requires p > 0.0 && q > 0.0 && Mul(p, p) == x && Mul(q, q) == y && Mul(d, d) <= Mul(x, y)
    ensures -1.0 <= Over(d, p, q) <= 1.0
  {
    var m := p * q;
    MulSign(p, q);
    assert m * m == (p * p) * (q * q);
    SquareOrder(d, m);
    QuotientOrder(d, m);
  }

  lemma OverSign(d: real, p: real, q: real)
    requires p > 0.0 && q > 0.0
    ensures Over(d, p, q) > 0.0 <==> d > 0.0
    ensures Over(d, p, q) >= 0.0 <==> d >= 0.0
    ensures Over(d, p, q) == Over(d, q, p)
  {
    MulSign(p, q);
    QuotientOrder(d, p * q);
    assert p * q == q * p;
  }

  lemma OverScales(k: real, d: real, p: real, q: real)
    requires k > 0.0 && p > 0.0 && q > 0.0
    ensures Mul(k, p) > 0.0 && Over(Mul(k, d), Mul(k, p), q) == Over(d, p, q)
  {
    MulSign(k, p);
    MulSign(p, q);
    MulSign(k * p, q);
    var r := d / (p * q);
    assert r * (p * q) == d;
    assert (k * p) * q == k * (p * q);
    assert r * (k * (p * q)) == k * (r * (p * q));
    QuotientIs(k * d, (k * p) * q, r);
  }

  lemma SqrtScales(sqrt: real -> real, k: real, x: real)
    requires IsSqrt(sqrt) && k > 0.0 && x > 0.0
    ensures Mul(Mul(k, k), x) > 0.0 && sqrt(Mul(Mul(k, k), x)) == Mul(k, sqrt(x))
  {
    MulSign(k, k);
    MulSign(k * k, x);
    SqrtIs(sqrt, x);
    SqrtIs(sqrt, k * k * x);
    assert Mul(Mul(k, k), x) == k * k * x;
    var r, s := k * sqrt(x), sqrt(k * k * x);
    MulSign(k, sqrt(x));
    assert r * r == (k * k) * (sqrt(x) * sqrt(x)) == s * s;
    assert r >= 0.0 && s >= 0.0;
    SquareOrder(r, s);
    SquareOrder(s, r);
  }

  /** One more term in the expansion of a sum of (x - ky)^2. */
  lemma DifferenceStep(x: real, y: real, k: real, xs: real, ys: real, d: real)
    ensures Mul(x - Mul(k, y), x - Mul(k, y)) + (xs - 2.0 * Mul(k, d) + Mul(Mul(k, k), ys))
         == (Mul(x, x) + xs) - 2.0 * Mul(k, Mul(x, y) + d) + Mul(Mul(k, k), Mul(y, y) + ys)
  {
    var p := k * y;
    assert (x - p) * (x - p) == x * x - 2.0 * (x * p) + p * p;
    assert x * p == k * (x * y);
    assert p * p == (k * k) * (y * y);
    assert k * (x * y + d) == k * (x * y) + k * d;
    assert (k * k) * (y * y + ys) == (k * k) * (y * y) + (k * k) * ys;
  }

  /** What is left of the parabola at its lowest point. */
  lemma AtLowestPoint(x: real, y: real, d: real)
    requires y > 0.0
    requires x - 2.0 * Mul(d / y, d) + Mul(Mul(d / y, d / y), y) >= 0.0
    ensures Mul(d, d) <= Mul(x, y)
  {
    var k := d / y;
    assert k * y == d;
    assert (k * k) * y == k * (k * y) == k * d;
    assert x - k * d >= 0.0;
    MulSign(x - k * d, y);
    assert (x - k * d) * y == x * y - (k * d) * y;
    assert (k * d) * y == (k * y) * d;
  }

  lemma ScaleStep(k: real, x: real, y: real, d: real, xs: real)
    ensures Mul(Mul(k, x), y) + Mul(k, d) == Mul(k, Mul(x, y) + d)
    ensures Mul(Mul(k, x), Mul(k, x)) + Mul(Mul(k, k), xs) == Mul(Mul(k, k), Mul(x, x) + xs)
  {
    assert (k * x) * y == k * (x * y);
    assert (k * x) * (k * x) == (k * k) * (x * x);
    assert k * (x * y + d) == k * (x * y) + k * d;
    assert (k * k) * (x * x + xs) == (k * k) * (x * x) + (k * k) * xs;
  }

  // ------------------------------------------------------------ sums of products

  /** No order of summation gives another sum. */
  lemma {:induction false} DotPick(terms: set<string>, a: Vector, b: Vector, t: string)
    requires t in terms
    ensures Dot(terms, a, b) == Product(a, b, t) + Dot(terms - {t}, a, b)
    decreases terms
  {
    hide Product;
    var u :| u in terms && Dot(terms, a, b) == Product(a, b, u) + Dot(terms - {u}, a, b);
    if u != t {
      hide Dot;
      DotPick(terms - {u}, a, b, t);
      DotPick(terms - {t}, a, b, u);
      assert terms - {u} - {t} == terms - {t} - {u};
    }
  }

  lemma DotOfNothing(a: Vector, b: Vector)
    ensures Dot({}, a, b) == 0.0
  {
  }

  lemma {:induction false} SquaresArePositive(terms: set<string>, a: Vector)
    ensures Dot(terms, a, a) >= 0.0
  {
    hide Dot, Mul;
    DotOfNothing(a, a);
    if terms != {} {
      var t :| t in terms;
      DotPick(terms, a, a, t);
      SquaresArePositive(terms - {t}, a);
      MulSign(At(a, t), At(a, t));
    }
  }

  lemma LengthSquares(sqrt: real -> real, a: Vector)
    requires IsSqrt(sqrt)
    ensures var x := NormSquared(a);
            x >= 0.0 && Mul(sqrt(x), sqrt(x)) == x && (x != 0.0 ==> sqrt(x) > 0.0)
  {
    hide Dot, Mul, IsSqrt;
    SquaresArePositive(a.Keys, a);
    SqrtIs(sqrt, NormSquared(a));
  }

  lemma {:induction false} DotSymmetric(terms: set<string>, a: Vector, b: Vector)
    ensures Dot(terms, a, b) == Dot(terms, b, a)
  {
    hide Dot, Mul;
    DotOfNothing(a, b);
    DotOfNothing(b, a);
    if terms != {} {
      var t :| t in terms;
      DotPick(terms, a, b, t);
      DotPick(terms, b, a, t);
      DotSymmetric(terms - {t}, a, b);
      MulSign(At(a, t), At(b, t));
    }
  }

  /** Terms that only one of the two vectors weighs do not count. */
  lemma {:induction false} DotSupport(terms: set<string>, more: set<string>, a: Vector, b: Vector)
    requires terms <= more && forall t | t in more - terms :: t !in a || t !in b
    ensures Dot(more, a, b) == Dot(terms, a, b)
    decreases more
  {
    hide Dot, Mul;
    if more - terms == {} {
      assert forall t | t in more :: t !in terms ==> t in more - terms;
      assert more == terms;
    } else {
      var t :| t in more - terms;
      DotPick(more, a, b, t);
      DotSupport(terms, more - {t}, a, b);
      MulSign(At(a, t), At(b, t));
    }
  }

  lemma OverUnion(a: Vector, b: Vector)
    ensures var all := a.Keys + b.Keys;
            && Dot(all, a, a) == NormSquared(a) && Dot(all, b, b) == NormSquared(b)
            && Dot(all, a, b) == Dot(a.Keys, a, b) == Dot(b.Keys, b, a)
  {
    hide Dot;
    var all := a.Keys + b.Keys;
    DotSupport(a.Keys, all, a, a);
    DotSupport(b.Keys, all, b, b);
    DotSupport(a.Keys, all, a, b);
    DotSupport(b.Keys, all, b, a);
    DotSymmetric(all, a, b);
  }

  // ------------------------------------------------------------ the algorithm

  method ComputeCosine(sqrt: real -> real, a: Vector, b: Vector) returns (r: real)
    requires IsSqrt(sqrt)
    ensures r == Cosine(sqrt, a, b)
  {
    hide Dot, Mul, IsSqrt, Over;
    var dot, normA, normB := 0.0, 0.0, 0.0;
    DotOfNothing(a, b);
    DotOfNothing(a, a);
    DotOfNothing(b, b);
    var todo := a.Keys;
    while todo != {}
      invariant todo <= a.Keys
      invariant normA + Dot(todo, a, a) == NormSquared(a)
      invariant dot + Dot(todo, a, b) == Dot(a.Keys, a, b)
      decreases |todo|
    {
      var term :| term in todo;
      DotPick(todo, a, a, term);
      DotPick(todo, a, b, term);
      todo := todo - {term};
      var va := a[term];
      normA := normA + Mul(va, va);
      MulSign(va, 0.0);
      if term in b {
        dot := dot + Mul(va, b[term]);
      }
    }
    todo := b.Keys;
    while todo != {}
      invariant todo <= b.Keys
      invariant normB + Dot(todo, b, b) == NormSquared(b)
      decreases |todo|
    {
      var term :| term in todo;
      DotPick(todo, b, b, term);
      todo := todo - {term};
      var vb := b[term];
      normB := normB + Mul(vb, vb);
    }
    if normA == 0.0 || normB == 0.0 {
      return 0.0;
    }
    LengthSquares(sqrt, a);
    LengthSquares(sqrt, b);
    return Over(dot, sqrt(normA), sqrt(normB));
  }

  // ------------------------------------------------------------ Cauchy-Schwarz

  function Minus(terms: set<string>, a: Vector, k: real, b: Vector): Vector {
    map t | t in terms :: At(a, t) - Mul(k, At(b, t))
  }

  lemma {:induction false} DotOfDifference(terms: set<string>, all: set<string>, a: Vector, k: real, b: Vector)
    requires terms <= all
    ensures var c := Minus(all, a, k, b);
            Dot(terms, c, c) == Dot(terms, a, a) - 2.0 * Mul(k, Dot(terms, a, b)) + Mul(Mul(k, k), Dot(terms, b, b))
  {
    hide Dot, Mul;
    var c := Minus(all, a, k, b);
    if terms == {} {
      DotOfNothing(a, a);
      DotOfNothing(a, b);
      DotOfNothing(b, b);
      DotOfNothing(c, c);
      MulSign(k, 0.0);
      MulSign(Mul(k, k), 0.0);
    } else {
      var t :| t in terms;
      var rest := terms - {t};
      DotPick(terms, c, c, t);
      DotPick(terms, a, a, t);
      DotPick(terms, a, b, t);
      DotPick(terms, b, b, t);
      DotOfDifference(rest, all, a, k, b);
      DifferenceStep(At(a, t), At(b, t), k, Dot(rest, a, a), Dot(rest, b, b), Dot(rest, a, b));
    }
  }

  lemma {:induction false} ZeroNorm(terms: set<string>, a: Vector, b: Vector)
    requires Dot(terms, b, b) == 0.0
    ensures Dot(terms, a, b) == 0.0
  {
    hide Dot, Mul;
    DotOfNothing(a, b);
    if terms != {} {
      var t :| t in terms;
      DotPick(terms, b, b, t);
      DotPick(terms, a, b, t);
      SquaresArePositive(terms - {t}, b);
      MulSign(At(b, t), At(b, t));
      MulSign(At(a, t), At(b, t));
      ZeroNorm(terms - {t}, a, b);
    }
  }

  /** Cauchy-Schwarz, for sparse vectors of any size. */
  lemma CauchySchwarz(a: Vector, b: Vector)
    ensures var d := Dot(a.Keys, a, b); Mul(d, d) <= Mul(NormSquared(a), NormSquared(b))
  {
    hide Dot, Mul;
    var all := a.Keys + b.Keys;
    OverUnion(a, b);
    SquaresArePositive(all, b);
    var x, y, d := Dot(all, a, a), Dot(all, b, b), Dot(all, a, b);
    if y > 0.0 {
      var k := d / y;
      DotOfDifference(all, all, a, k, b);
      SquaresArePositive(all, Minus(all, a, k, b));
      AtLowestPoint(x, y, d);
    } else {
      ZeroNorm(all, a, b);
      MulSign(d, d);
      MulSign(x, y);
    }
  }

  // ------------------------------------------------------------ what cosine promises

  lemma CosineIsSymmetric(sqrt: real -> real, a: Vector, b: Vector)
    requires IsSqrt(sqrt)
    ensures Cosine(sqrt, a, b) == Cosine(sqrt, b, a)
  {
    hide Dot, Mul, IsSqrt, Over;
    OverUnion(a, b);
    LengthSquares(sqrt, a);
    LengthSquares(sqrt, b);
    if NormSquared(a) != 0.0 && NormSquared(b) != 0.0 {
      OverSign(Dot(a.Keys, a, b), sqrt(NormSquared(a)), sqrt(NormSquared(b)));
    }
  }

  lemma ProductIs(a: Vector, b: Vector, t: string)
    ensures Product(a, b, t) == (if t in a then a[t] else 0.0) * (if t in b then b[t] else 0.0)
  {
  }

  /** The sum, term by term, whichever term is taken first. */
  lemma DotIsSum(terms: set<string>, a: Vector, b: Vector)
    ensures terms == {} ==> Dot(terms, a, b) == 0.0
    ensures forall t | t in terms ::
              Dot(terms, a, b)
              == (if t in a then a[t] else 0.0) * (if t in b then b[t] else 0.0) + Dot(terms - {t}, a, b)
  {
    DotOfNothing(a, b);
    hide Dot, Product;
    forall t | t in terms
      ensures Dot(terms, a, b)
           == (if t in a then a[t] else 0.0) * (if t in b then b[t] else 0.0) + Dot(terms - {t}, a, b)
    {
      DotPick(terms, a, b, t);
      ProductIs(a, b, t);
    }
  }

  lemma OverTimes(d: real, p: real, q: real)
    requires p > 0.0 && q > 0.0
    ensures Over(d, p, q) * (p * q) == d
  {
    MulSign(p, q);
    QuotientIs(d, p * q, d / (p * q));
  }

  /** Cosine times the two lengths is the inner product - and 0 if there is a length of 0. */
  lemma CosineIs(sqrt: real -> real, a: Vector, b: Vector)
    requires IsSqrt(sqrt)
    ensures var x, y := Dot(a.Keys, a, a), Dot(b.Keys, b, b);
            && (x == 0.0 || y == 0.0 ==> Cosine(sqrt, a, b) == 0.0)
            && (x != 0.0 && y != 0.0 ==> Cosine(sqrt, a, b) * (sqrt(x) * sqrt(y)) == Dot(a.Keys, a, b))
  {
    hide Dot, IsSqrt, Over;
    var x, y := NormSquared(a), NormSquared(b);
    if x != 0.0 && y != 0.0 {
      LengthSquares(sqrt, a);
      LengthSquares(sqrt, b);
      OverTimes(Dot(a.Keys, a, b), sqrt(x), sqrt(y));
    }
  }

  /** Nothing is more similar to a text than itself. */
  lemma CosineOfSelf(sqrt: real -> real, a: Vector)
    requires IsSqrt(sqrt) && exists t :: t in a && a[t] != 0.0
    ensures Cosine(sqrt, a, a) == 1.0
  {
    hide Dot, IsSqrt, Over;
    var x := NormSquared(a);
    NormIsPositive(a);
    LengthSquares(sqrt, a);
    CosineIs(sqrt, a, a);
    assert Mul(sqrt(x), sqrt(x)) == sqrt(x) * sqrt(x) == x;
    QuotientIs(x, x, 1.0);
    QuotientIs(x, x, Cosine(sqrt, a, a));
  }

  lemma NormIsPositive(a: Vector)
    requires exists t :: t in a && a[t] != 0.0
    ensures NormSquared(a) > 0.0
  {
    hide Dot, Mul;
    var t :| t in a && a[t] != 0.0;
    DotPick(a.Keys, a, a, t);
    SquaresArePositive(a.Keys - {t}, a);
    MulSign(a[t], a[t]);
  }

  /** Cosine lies in [-1, 1] whatever the weights. */
  lemma CosineIsBounded(sqrt: real -> real, a: Vector, b: Vector)
    requires IsSqrt(sqrt)
    ensures -1.0 <= Cosine(sqrt, a, b) <= 1.0
  {
    hide Dot, Mul, IsSqrt, Over;
    CauchySchwarz(a, b);
    var x, y := NormSquared(a), NormSquared(b);
    if x != 0.0 && y != 0.0 {
      LengthSquares(sqrt, a);
      LengthSquares(sqrt, b);
      OverIsBounded(Dot(a.Keys, a, b), sqrt(x), sqrt(y), x, y);
    }
  }

  predicate NonNegative(a: Vector) {
    forall t | t in a :: a[t] >= 0.0
  }

  ghost predicate Shared(t: string, a: Vector, b: Vector) {
    At(a, t) > 0.0 && At(b, t) > 0.0
  }

  lemma {:induction false} DotOfShared(terms: set<string>, a: Vector, b: Vector)
    requires NonNegative(a) && NonNegative(b)
    ensures Dot(terms, a, b) >= 0.0
    ensures Dot(terms, a, b) > 0.0 <==> exists t :: t in terms && Shared(t, a, b)
  {
    hide Dot, Mul;
    DotOfNothing(a, b);
    if terms != {} {
      var t :| t in terms;
      DotPick(terms, a, b, t);
      DotOfShared(terms - {t}, a, b);
      MulSign(At(a, t), At(b, t));
      if Dot(terms - {t}, a, b) > 0.0 {
        var u :| u in terms - {t} && Shared(u, a, b);
        assert u in terms;
      }
      if u :| u in terms && Shared(u, a, b) && u != t {
        assert u in terms - {t};
      }
    }
  }

  /** With non-negative weights it lies in [0, 1], and is positive exactly when some term has
      positive weight in both. */
  lemma CosineIsPositiveIff(sqrt: real -> real, a: Vector, b: Vector)
    requires IsSqrt(sqrt) && NonNegative(a) && NonNegative(b)
    ensures 0.0 <= Cosine(sqrt, a, b) <= 1.0
    ensures Cosine(sqrt, a, b) > 0.0 <==> exists t :: Shared(t, a, b)
  {
    CosineIsBounded(sqrt, a, b);
    DotOfShared(a.Keys, a, b);
    DotOfShared(a.Keys, a, a);
    DotOfShared(b.Keys, b, b);
    hide Dot, Mul, IsSqrt, Over;
    if t :| Shared(t, a, b) {
      assert t in a.Keys && t in b.Keys && Shared(t, a, a) && Shared(t, b, b);
    }
    if NormSquared(a) != 0.0 && NormSquared(b) != 0.0 {
      LengthSquares(sqrt, a);
      LengthSquares(sqrt, b);
      OverSign(Dot(a.Keys, a, b), sqrt(NormSquared(a)), sqrt(NormSquared(b)));
    }
  }

  function Scaled(k: real, a: Vector): Vector {
    map t | t in a :: Mul(k, a[t])
  }

  lemma {:induction false} DotScales(terms: set<string>, k: real, a: Vector, b: Vector)
    ensures Dot(terms, Scaled(k, a), b) == Mul(k, Dot(terms, a, b))
    ensures Dot(terms, Scaled(k, a), Scaled(k, a)) == Mul(Mul(k, k), Dot(terms, a, a))
  {
    hide Dot, Mul;
    var s := Scaled(k, a);
    MulSign(k, 0.0);
    if terms == {} {
      DotOfNothing(a, a);
      DotOfNothing(a, b);
      DotOfNothing(s, b);
      DotOfNothing(s, s);
      MulSign(Mul(k, k), 0.0);
    } else {
      var t :| t in terms;
      var rest := terms - {t};
      assert At(s, t) == Mul(k, At(a, t));
      DotPick(terms, s, b, t);
      DotPick(terms, s, s, t);
      DotPick(terms, a, b, t);
      DotPick(terms, a, a, t);
      DotScales(rest, k, a, b);
      ScaleStep(k, At(a, t), At(b, t), Dot(rest, a, b), Dot(rest, a, a));
    }
  }

  /** Only direction counts: scaling either vector by a positive factor changes nothing. */
  lemma CosineIgnoresScale(sqrt: real -> real, k: real, a: Vector, b: Vector)
    requires IsSqrt(sqrt) && k > 0.0
    ensures Cosine(sqrt, Scaled(k, a), b) == Cosine(sqrt, a, b) == Cosine(sqrt, b, Scaled(k, a))
  {
    hide Dot, Mul, IsSqrt, Over;
    var s, x, y := Scaled(k, a), NormSquared(a), NormSquared(b);
    assert s.Keys == a.Keys;
    CosineIsSymmetric(sqrt, s, b);
    DotScales(a.Keys, k, a, b);
    LengthSquares(sqrt, a);
    LengthSquares(sqrt, b);
    MulSign(Mul(k, k), x);
    if x > 0.0 && y > 0.0 {
      SqrtScales(sqrt, k, x);
      OverScales(k, Dot(a.Keys, a, b), sqrt(x), sqrt(y));
    }
  }
}
