/**
 Two formulas of the controlled multi-agent evaluation, over the reals: the F1 score of two evidence
 sets and the Wilson lower bound of a success rate. The square root is a function given by the caller.
 */
module ControlledMetrics {
  import opened Collections
  import opened Whitespace
  import opened Wrappers

  // ---------- F1 of two sets ----------

  function Cleaned(items: seq<string>): set<string> {
    set s <- items | Strip(s) != "" :: Strip(s)
  }

  function SetF1(expected: seq<string>, predicted: seq<string>): real {
    F1(Cleaned(expected), Cleaned(predicted))
  }

  function F1(e: set<string>, p: set<string>): real {
    if e == {} && p == {} then 1.0
    else if e == {} || p == {} then 0.0
    else
      var overlap := |e * p| as real;
      var precision, recall := overlap / |p| as real, overlap / |e| as real;
      if precision + recall == 0.0 then 0.0 else 2.0 * precision * recall / (precision + recall)
  }

  lemma HarmonicMean(o: real, e: real, p: real)
    requires o > 0.0 && e > 0.0 && p > 0.0
    ensures o / p + o / e > 0.0
    ensures 2.0 * (o / p) * (o / e) / (o / p + o / e) == 2.0 * o / (e + p)
  {
    var a, b := o / p, o / e;
    assert a * p == o && b * e == o;
    assert (a + b) * (e * p) == o * (e + p) by {
      assert a * (e * p) == (a * p) * e && b * (e * p) == (b * e) * p;
    }
    assert (a * b) * (e * p) == o * o by {
      assert (a * b) * (e * p) == (a * p) * (b * e);
    }
    var h := 2.0 * o / (e + p);
    assert h * (e + p) == 2.0 * o;
    assert (h * (a + b)) * (e * p) == h * (o * (e + p)) == o * (h * (e + p)) == (2.0 * a * b) * (e * p);
    Cancel(h * (a + b), 2.0 * a * b, e * p);
  }

  lemma Cancel(x: real, y: real, k: real)
    requires k > 0.0 && x * k == y * k
    ensures x == y
  {
  }

  lemma OverlapSize(e: set<string>, p: set<string>)
    ensures |e * p| <= |e| && |e * p| <= |p|
    ensures |e * p| == |e| == |p| <==> e == p
  {
    SubsetSize(e * p, e);
    SubsetSize(e * p, p);
    if |e * p| == |e| == |p| {
      assert e * p == e && e * p == p;
    }
  }

  /** When the cleaned sets are not both empty the score is 2|A∩B| / (|A|+|B|). */
  lemma F1IsDice(e: set<string>, p: set<string>)
    requires e != {} || p != {}
    ensures |e| + |p| > 0 && F1(e, p) == 2.0 * |e * p| as real / (|e| + |p|) as real
  {
    var o, a, b := |e * p| as real, |e| as real, |p| as real;
    assert (|e| + |p|) as real == a + b;
    if e == {} || p == {} {
      assert e * p == {};
    } else if |e * p| > 0 {
      HarmonicMean(o, a, b);
    }
  }

  lemma F1Symmetric(e: set<string>, p: set<string>)
    ensures F1(e, p) == F1(p, e)
  {
    if e != {} || p != {} {
      F1IsDice(e, p);
      F1IsDice(p, e);
      assert e * p == p * e;
    }
  }

  lemma F1Range(e: set<string>, p: set<string>)
    ensures 0.0 <= F1(e, p) <= 1.0
    ensures F1(e, p) == 1.0 <==> e == p
    ensures F1(e, p) == 0.0 <==> e * p == {} && e + p != {}
  {
    if e != {} || p != {} {
      F1IsDice(e, p);
      OverlapSize(e, p);
      Ratio(|e * p|, |e| + |p|);
    }
  }

  /** The score is symmetric, between 0 and 1, and 1 exactly when the cleaned sets are equal. */
  lemma F1Laws(expected: seq<string>, predicted: seq<string>)
    ensures SetF1(expected, predicted) == SetF1(predicted, expected)
    ensures 0.0 <= SetF1(expected, predicted) <= 1.0
    ensures SetF1(expected, predicted) == 1.0 <==> Cleaned(expected) == Cleaned(predicted)
    ensures SetF1(expected, predicted) == 0.0
            <==> Cleaned(expected) * Cleaned(predicted) == {} && Cleaned(expected) + Cleaned(predicted) != {}
  {
    F1Symmetric(Cleaned(expected), Cleaned(predicted));
    F1Range(Cleaned(expected), Cleaned(predicted));
  }

  lemma Ratio(o: nat, n: nat)
    requires n > 0 && 2 * o <= n
    ensures 0.0 <= 2.0 * o as real / n as real <= 1.0
    ensures 2.0 * o as real / n as real == 1.0 <==> 2 * o == n
    ensures 2.0 * o as real / n as real == 0.0 <==> o == 0
  {
  }

  // ---------- Wilson lower bound ----------

  ghost predicate IsSqrt(sqrt: real -> real) {
    forall x :: x >= 0.0 ==> sqrt(x) >= 0.0 && sqrt(x) * sqrt(x) == x
  }

  function Radicand(p: real, n: real, z: real): real
    requires n > 0.0
  {
    (p * (1.0 - p) + z * z / (4.0 * n)) / n
  }

  function Denominator(n: real, z: real): real
    requires n > 0.0
  {
    1.0 + z * z / n
  }

  function Center(p: real, n: real, z: real): real
    requires n > 0.0
  {
    p + z * z / (2.0 * n)
  }

  /** The bound before it is cut off at zero, `root` being the square root of the radicand. */
  function Bound(p: real, n: real, z: real, root: real): real
    requires n > 0.0
  {
    var denominator, margin := Denominator(n, z), z * root;
    if denominator == 0.0 then 0.0 else (Center(p, n, z) - margin) / denominator
  }

  /** `None` is the domain error of the square root. */
  function WilsonLowerBound(sqrt: real -> real, successes: int, total: int, z: real): Option<real> {
    if total <= 0 then Some(0.0)
    else
      var n := total as real;
      var p := successes as real / n;
      if Radicand(p, n, z) < 0.0 then None else Some(CutOff(Bound(p, n, z, sqrt(Radicand(p, n, z)))))
  }

  function CutOff(x: real): real {
    if x > 0.0 then x else 0.0
  }

  lemma DenominatorInSteps(n: real, z: real, t: real)
    requires n > 0.0 && z == 2.0 * n * t
    ensures Denominator(n, z) == 1.0 + 4.0 * n * (t * t)
  {
    var w, x := z * z, 4.0 * n * (t * t);
    assert w == x * n;
    Divide(w, x, n);
  }

  lemma Divide(w: real, x: real, n: real)
    requires n > 0.0 && w == x * n
    ensures w / n == x
  {
  }

  lemma CenterInSteps(p: real, n: real, z: real, r: real, t: real)
    requires n > 0.0 && z == 2.0 * n * t
    ensures Center(p, n, z) - z * r == p + 2.0 * n * (t * t) - 2.0 * n * (t * r)
  {
    assert z * z == (2.0 * n * (t * t)) * (2.0 * n);
    assert z * r == 2.0 * n * (t * r);
  }

  lemma RadicandInSteps(p: real, n: real, z: real, t: real)
    requires n > 0.0 && z == 2.0 * n * t
    ensures Radicand(p, n, z) == p * (1.0 - p) / n + t * t
  {
    assert z * z == (n * (t * t)) * (4.0 * n);
    assert z * z / (4.0 * n) == n * (t * t);
  }

  lemma Product(a: real, b: real)
    requires a >= 0.0 && b >= 0.0
    ensures a * b >= 0.0
    ensures a * b == 0.0 <==> a == 0.0 || b == 0.0
  {
  }

  lemma SquareOrder(a: real, b: real)
    requires a >= 0.0 && b >= 0.0
    ensures a * a >= b * b <==> a >= b
  {
    assert a * a - b * b == (a - b) * (a + b);
    if a >= b {
      Product(a - b, a + b);
    } else {
      Product(b - a, a + b);
      assert (a - b) * (a + b) == -((b - a) * (a + b));
    }
  }

  /** The heart of the comparison with the observed rate. */
  lemma HalfStepComparison(p: real, n: real, t: real, r: real)
    requires n > 0.0 && 0.0 <= p <= 1.0 && r >= 0.0 && r * r == p * (1.0 - p) / n + t * t
    ensures t * t * (1.0 - 2.0 * p) <= t * r <==> t >= 0.0 || p == 1.0
  {
    var q := p * (1.0 - p);
    Product(p, 1.0 - p);
    assert q / n >= 0.0;
    if t >= 0.0 {
      SquareOrder(r, t);
      Product(t, r - t);
      assert t * (r - t) == t * r - t * t;
      Product(t * t, 2.0 * p);
      assert t * t * (1.0 - 2.0 * p) == t * t - t * t * (2.0 * p);
    } else {
      NegativeHalfStep(p, n, -t, r);
      var s := -t;
      assert t * t * (1.0 - 2.0 * p) == s * (s * (1.0 - 2.0 * p));
      assert t * r == s * (-r);
      Scale(s, s * (1.0 - 2.0 * p), -r);
    }
  }

  lemma Scale(s: real, a: real, b: real)
    requires s > 0.0
    ensures s * a <= s * b <==> a <= b
  {
    assert s * b - s * a == s * (b - a);
  }

  lemma NegativeHalfStep(p: real, n: real, s: real, r: real)
    requires n > 0.0 && 0.0 <= p <= 1.0 && r >= 0.0 && s > 0.0 && r * r == p * (1.0 - p) / n + s * s
    ensures s * (1.0 - 2.0 * p) <= -r <==> p == 1.0
  {
    var q, w := p * (1.0 - p), s * (2.0 * p - 1.0);
    assert w == -(s * (1.0 - 2.0 * p));
    assert w * w == (s * s) * ((2.0 * p - 1.0) * (2.0 * p - 1.0));
    assert (2.0 * p - 1.0) * (2.0 * p - 1.0) == 1.0 - 4.0 * q;
    assert w * w == s * s - 4.0 * ((s * s) * q);
    Product(p, 1.0 - p);
    if p == 1.0 {
      SquareOrder(w, r);
    } else if p > 0.0 {
      Product(s * s, q);
      assert q > 0.0 && q / n > 0.0;
      assert r * r > w * w;
      if w >= 0.0 {
        SquareOrder(w, r);
      }
    }
  }

  lemma DividedComparison(p: real, top: real, bottom: real)
    requires bottom > 0.0
    ensures top / bottom <= p <==> top <= p * bottom
    ensures top / bottom > 0.0 <==> top > 0.0
  {
  }

  lemma RateInRange(successes: int, total: int)
    requires 0 <= successes <= total && total > 0
    ensures var p := successes as real / total as real;
            0.0 <= p <= 1.0 && (p == 1.0 <==> successes == total) && (p > 0.0 <==> successes > 0)
  {
  }

  lemma RadicandInRange(p: real, n: real, z: real)
    requires n > 0.0 && 0.0 <= p <= 1.0
    ensures Radicand(p, n, z) >= 0.0
  {
    Product(p, 1.0 - p);
    assert z * z >= 0.0;
    assert z * z / (4.0 * n) >= 0.0;
  }

  lemma ComparedInSteps(p: real, n: real, t: real, r: real, top: real, bottom: real)
    requires n > 0.0 && 0.0 <= p <= 1.0 && r >= 0.0 && r * r == p * (1.0 - p) / n + t * t
    requires top == p + 2.0 * n * (t * t) - 2.0 * n * (t * r) && bottom == 1.0 + 4.0 * n * (t * t)
    ensures bottom > 0.0
    ensures top / bottom <= p <==> t >= 0.0 || p == 1.0
  {
    HalfStepComparison(p, n, t, r);
    StepComparison(p, n, t * t, t * r, top, bottom);
  }

  /** With the pieces of the formula in terms of t. */
  lemma BoundComparison(p: real, n: real, z: real, r: real, t: real)
    requires n > 0.0 && 0.0 <= p <= 1.0 && r >= 0.0 && z == 2.0 * n * t && r * r == Radicand(p, n, z)
    ensures Bound(p, n, z, r) <= p <==> t >= 0.0 || p == 1.0
  {
    RadicandInSteps(p, n, z, t);
    DenominatorInSteps(n, z, t);
    CenterInSteps(p, n, z, r, t);
    ComparedInSteps(p, n, t, r, Center(p, n, z) - z * r, Denominator(n, z));
    BoundIsQuotient(p, n, z, r, Center(p, n, z) - z * r, Denominator(n, z));
  }

  lemma BoundIsQuotient(p: real, n: real, z: real, r: real, top: real, bottom: real)
    requires n > 0.0 && top == Center(p, n, z) - z * r && bottom == Denominator(n, z) && bottom > 0.0
    ensures Bound(p, n, z, r) == top / bottom
  {
  }

  lemma StepComparison(p: real, n: real, u: real, v: real, top: real, bottom: real)
    requires n > 0.0 && u >= 0.0 && top == p + 2.0 * n * u - 2.0 * n * v && bottom == 1.0 + 4.0 * n * u
    ensures bottom > 0.0
    ensures top / bottom <= p <==> u * (1.0 - 2.0 * p) <= v
  {
    Product(n, u);
    assert 4.0 * n * u == 4.0 * (n * u);
    DividedComparison(p, top, bottom);
    assert top - p * bottom == 2.0 * n * (u * (1.0 - 2.0 * p)) - 2.0 * n * v;
    Scale(2.0 * n, u * (1.0 - 2.0 * p), v);
  }

  lemma SameSign(z: real, k: real, t: real)
    requires k > 0.0 && t == z / k
    ensures (z >= 0.0 <==> t >= 0.0) && z == k * t
  {
  }

  /** The bound is defined and never negative, and it is at most the observed rate exactly when z is not
      negative or every attempt succeeded. */
  lemma WilsonAtMostRate(sqrt: real -> real, successes: int, total: int, z: real)
    requires IsSqrt(sqrt) && 0 <= successes <= total && total > 0
    ensures var bound := WilsonLowerBound(sqrt, successes, total, z);
            && bound.Some? && bound.value >= 0.0
            && (bound.value <= successes as real / total as real <==> z >= 0.0 || successes == total)
  {
    var n, p := total as real, successes as real / total as real;
    RateInRange(successes, total);
    RadicandInRange(p, n, z);
    var r := sqrt(Radicand(p, n, z));
    SameSign(z, 2.0 * n, z / (2.0 * n));
    BoundComparison(p, n, z, r, z / (2.0 * n));
  }

  /** One failed attempt at z = -1: the rate is zero and the bound is one half. */
  lemma NegativeZExceedsRate(sqrt: real -> real)
    requires IsSqrt(sqrt)
    ensures WilsonLowerBound(sqrt, 0, 1, -1.0) == Some(0.5)
  {
    var r := sqrt(Radicand(0.0, 1.0, -1.0));
    assert Radicand(0.0, 1.0, -1.0) == 0.25;
    assert r == 0.5 by {
      SquareOrder(r, 0.5);
      SquareOrder(0.5, r);
    }
  }
}
