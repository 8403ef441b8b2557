/** The significance test of a report comparison (internal/eval/compare.go), exactly:
    the code sums exponentials of log-gamma differences, which here are the fractions
    they stand for, and its tolerance for rounding is zero. */
module Fisher {

  // ---- Binomial coefficients ----

  function Factorial(n: nat): (f: nat)
    ensures f > 0
  {
    if n == 0 then 1 else n * Factorial(n - 1)
  }

  /** Pascal's triangle, zero outside it. */
  function Choose(n: nat, k: int): nat {
    if k < 0 || k > n then 0 else if n == 0 then 1 else Choose(n - 1, k - 1) + Choose(n - 1, k)
  }

  /** The coefficient as the code writes it (logChoose): factorials divided. */
  function Ways(n: nat, k: int): real {
    if k < 0 || k > n then 0.0
    else Factorial(n) as real / Factorial(k) as real / Factorial(n - k) as real
  }

  lemma {:induction false} ChoosePositive(n: nat, k: int)
    ensures Choose(n, k) > 0 <==> 0 <= k <= n
  {
    if 0 <= k <= n && n > 0 {
      ChoosePositive(n - 1, k - 1);
      ChoosePositive(n - 1, k);
    }
  }

  lemma Regroup(a: int, b: int, c: int, d: int)
    ensures (a * b) * (c * d) == (a * c) * (b * d)
  {
    assert (a * b) * (c * d) == a * (b * (c * d)) == a * (c * (b * d));
  }

  lemma AbsorbSum(p: int, q: int, r: int, n: int, k: int)
    requires r * (k + 1) == q * (n - 1 - k) && q * k == p * (n - k)
    ensures (q + r) * (k + 1) == (p + q) * (n - k)
  {
  }

  /** Neighbours in a row of the triangle. */
  lemma {:induction false} Absorb(n: nat, k: int)
    requires k >= 0
    ensures Choose(n, k + 1) * (k + 1) == Choose(n, k) * (n - k)
  {
    if 0 < n && k < n {
      Absorb(n - 1, k);
      if k > 0 { Absorb(n - 1, k - 1); }
      AbsorbStep(n, k);
    }
  }

  lemma AbsorbStep(n: nat, k: nat)
    requires k < n
    requires Choose(n - 1, k + 1) * (k + 1) == Choose(n - 1, k) * (n - 1 - k)
    requires k > 0 ==> Choose(n - 1, k) * k == Choose(n - 1, k - 1) * (n - k)
    ensures Choose(n, k + 1) * (k + 1) == Choose(n, k) * (n - k)
  {
    var p, q, r := Choose(n - 1, k - 1), Choose(n - 1, k), Choose(n - 1, k + 1);
    assert Choose(n, k) == p + q;
    assert Choose(n, k + 1) == q + r by { if k + 1 == n { assert r == 0; } }
    assert k == 0 ==> p == 0;
    hide Choose;
    AbsorbSum(p, q, r, n, k);
  }

  lemma {:induction false} ChooseIsFactorials(n: nat, k: nat)
    requires k <= n
    ensures Choose(n, k) * (Factorial(k) * Factorial(n - k)) == Factorial(n)
    decreases k
  {
    if k == 0 {
      ChooseZero(n);
    } else {
      ChooseIsFactorials(n, k - 1);
      Absorb(n, k - 1);
      var c, d, f, g := Choose(n, k - 1), Choose(n, k), Factorial(k - 1), Factorial(n - k);
      assert Factorial(k) == k * f && Factorial(n - k + 1) == (n - k + 1) * g;
      hide Choose, Factorial;
      calc {
        d * ((k * f) * g);
        { Reassociate(k, f, g); }
        d * (k * (f * g));
        { Reassociate(d, k, f * g); }
        (c * (n - k + 1)) * (f * g);
        { Regroup(c, n - k + 1, f, g); }
        (c * f) * ((n - k + 1) * g);
        { Reassociate(c, f, (n - k + 1) * g); }
        c * (f * ((n - k + 1) * g));
      }
    }
  }

  lemma Reassociate(x: int, y: int, z: int)
    ensures (x * y) * z == x * (y * z)
  {
  }

  lemma {:induction false} ChooseZero(n: nat)
    ensures Choose(n, 0) == 1
  {
    if n > 0 {
      ChooseZero(n - 1);
    }
  }

  lemma WaysIsChoose(n: nat, k: int)
    ensures Ways(n, k) == Choose(n, k) as real
  {
    if 0 <= k <= n {
      ChooseIsFactorials(n, k);
      Quotient(Choose(n, k), Factorial(k), Factorial(n - k), Factorial(n));
      hide Choose, Factorial;
    } else {
      assert Choose(n, k) == 0;
    }
  }

  lemma Quotient(c: nat, f: nat, g: nat, h: nat)
    requires f > 0 && g > 0 && c * (f * g) == h
    ensures h as real / f as real / g as real == c as real
  {
    RealProduct(f, g);
    RealProduct(c, f * g);
    DivideTwice(h as real, f as real, g as real, c as real);
  }

  lemma RealProduct(x: int, y: int)
    ensures (x * y) as real == x as real * y as real
  {
  }

  lemma DivideTwice(h: real, f: real, g: real, c: real)
    requires f > 0.0 && g > 0.0 && c * (f * g) == h
    ensures h / f / g == c
  {
    assert h == (c * g) * f;
    assert h / f == c * g;
  }

  lemma {:induction false} ChooseSymmetric(n: nat, k: int)
    ensures Choose(n, k) == Choose(n, n - k)
  {
    if 0 <= k <= n && n > 0 {
      ChooseSymmetric(n - 1, k);
      ChooseSymmetric(n - 1, k - 1);
    }
  }

  // ---- Sums ----

  function Sum(f: int -> nat, lo: int, hi: int): nat
    decreases hi - lo
  {
    if lo > hi then 0 else Sum(f, lo, hi - 1) + f(hi)
  }

  lemma {:induction false} SumFromLeft(f: int -> nat, lo: int, hi: int)
    requires lo <= hi
    ensures Sum(f, lo, hi) == f(lo) + Sum(f, lo + 1, hi)
    decreases hi - lo
  {
    if lo < hi {
      SumFromLeft(f, lo, hi - 1);
    }
  }

  lemma {:induction false} SumReversed(f: int -> nat, g: int -> nat, c: int, lo: int, hi: int)
    requires forall k | lo <= k <= hi :: f(k) == g(c - k)
    ensures Sum(f, lo, hi) == Sum(g, c - hi, c - lo)
    decreases hi - lo
  {
    if lo <= hi {
      SumReversed(f, g, c, lo, hi - 1);
      SumFromLeft(g, c - hi, c - lo);
    }
  }

  /** Summing less of each term gives less, and equally much only if nothing was left
      out. */
  lemma {:induction false} SumBelow(f: int -> nat, g: int -> nat, lo: int, hi: int)
    requires forall k | lo <= k <= hi :: f(k) <= g(k)
    ensures Sum(f, lo, hi) <= Sum(g, lo, hi)
    ensures Sum(f, lo, hi) == Sum(g, lo, hi) <==> forall k | lo <= k <= hi :: f(k) == g(k)
    decreases hi - lo
  {
    if lo <= hi {
      SumBelow(f, g, lo, hi - 1);
    }
  }

  /** Terms that are zero can be left out at either end. */
  lemma {:induction false} SumTrimmed(f: int -> nat, lo: int, from: int, to: int, hi: int)
    requires lo <= from <= to + 1 <= hi + 1
    requires forall k | lo <= k < from || to < k <= hi :: f(k) == 0
    ensures Sum(f, lo, hi) == Sum(f, from, to)
    decreases hi - lo
  {
    if to < hi {
      SumTrimmed(f, lo, from, to, hi - 1);
    } else if lo < from {
      SumFromLeft(f, lo, hi);
      SumTrimmed(f, lo + 1, from, to, hi);
    }
  }

  lemma {:induction false} SumHas(f: int -> nat, lo: int, k: int, hi: int)
    requires lo <= k <= hi
    ensures f(k) <= Sum(f, lo, hi)
    decreases hi - lo
  {
    if k < hi {
      SumHas(f, lo, k, hi - 1);
    }
  }

  // ---- The hypergeometric distribution ----

  /** Tables with given margins in which group A passes k times, not yet divided by the
      number of all tables with those margins. */
  function Weight(rowA: nat, rowB: nat, pass: int, k: int): nat {
    Choose(rowA, k) * Choose(rowB, pass - k)
  }

  function Weights(rowA: nat, rowB: nat, pass: int): int -> nat {
    k => Weight(rowA, rowB, pass, k)
  }

  lemma WeightPositive(rowA: nat, rowB: nat, pass: int, k: int)
    ensures Weight(rowA, rowB, pass, k) > 0 <==> 0 <= k <= rowA && 0 <= pass - k <= rowB
  {
    ChoosePositive(rowA, k);
    ChoosePositive(rowB, pass - k);
    var x, y := Choose(rowA, k), Choose(rowB, pass - k);
    assert x > 0 && y > 0 ==> x * y > 0;
  }

  lemma {:induction false} VandermondeStep(rowA: nat, rowB: nat, pass: nat, top: int)
    requires rowA > 0 && -1 <= top
    ensures Sum(Weights(rowA, rowB, pass), 0, top)
            == Sum(Weights(rowA - 1, rowB, pass - 1), 0, top - 1) + Sum(Weights(rowA - 1, rowB, pass), 0, top)
    decreases top + 1
  {
    if top >= 0 {
      VandermondeStep(rowA, rowB, pass, top - 1);
      PascalWeight(rowA, rowB, pass, top);
    }
  }

  lemma PascalWeight(rowA: nat, rowB: nat, pass: int, k: nat)
    requires rowA > 0
    ensures Weight(rowA, rowB, pass, k)
            == Weight(rowA - 1, rowB, pass - 1, k - 1) + Weight(rowA - 1, rowB, pass, k)
  {
    assert Choose(rowA, k) == Choose(rowA - 1, k - 1) + Choose(rowA - 1, k);
    assert pass - 1 - (k - 1) == pass - k;
    var x, y, z := Choose(rowA - 1, k - 1), Choose(rowA - 1, k), Choose(rowB, pass - k);
    assert (x + y) * z == x * z + y * z;
  }

  /** Vandermonde's identity: the weights of all tables add up to the number of them. */
  lemma {:induction false} Vandermonde(rowA: nat, rowB: nat, pass: int)
    ensures Sum(Weights(rowA, rowB, pass), 0, pass) == Choose(rowA + rowB, pass)
    decreases rowA
  {
    if pass < 0 {
    } else if rowA == 0 {
      ChooseZero(0);
      assert forall k | 0 < k <= pass :: Weight(0, rowB, pass, k) == 0;
      SumTrimmed(Weights(0, rowB, pass), 0, 0, 0, pass);
      assert Sum(Weights(0, rowB, pass), 0, 0) == Sum(Weights(0, rowB, pass), 0, -1) + Weight(0, rowB, pass, 0);
    } else {
      VandermondeStep(rowA, rowB, pass, pass);
      Vandermonde(rowA - 1, rowB, pass - 1);
      Vandermonde(rowA - 1, rowB, pass);
      if pass > rowA + rowB {
        assert Choose(rowA + rowB - 1, pass - 1) == 0;
      }
    }
  }

  function Low(rowB: nat, pass: int): int {
    if pass - rowB > 0 then pass - rowB else 0
  }

  function High(rowA: nat, pass: int): int {
    if rowA < pass then rowA else pass
  }

  /** The loop's range from low to high leaves out only impossible tables. */
  lemma RangeIsEverything(rowA: nat, rowB: nat, pass: nat)
    requires pass <= rowA + rowB
    ensures Low(rowB, pass) <= High(rowA, pass)
    ensures Sum(Weights(rowA, rowB, pass), Low(rowB, pass), High(rowA, pass)) == Choose(rowA + rowB, pass)
  {
    Vandermonde(rowA, rowB, pass);
    SumTrimmed(Weights(rowA, rowB, pass), 0, Low(rowB, pass), High(rowA, pass), pass);
  }

  // ---- The p-value ----

  /** The tables at least as extreme as one of the given weight. */
  function Extreme(rowA: nat, rowB: nat, pass: int, observed: nat): int -> nat {
    k => if Weight(rowA, rowB, pass, k) <= observed then Weight(rowA, rowB, pass, k) else 0
  }

  function Tail(a: nat, b: nat, c: nat, d: nat): nat {
    Sum(Extreme(a + b, c + d, a + c, Weight(a + b, c + d, a + c, a)), Low(c + d, a + c), High(a + b, a + c))
  }

  predicate Counted(a: int, b: int, c: int, d: int) {
    a >= 0 && b >= 0 && c >= 0 && d >= 0 && a + b + c + d > 0
  }

  lemma TablesExist(a: nat, b: nat, c: nat, d: nat)
    ensures Choose(a + b + c + d, a + c) > 0
  {
    ChoosePositive(a + b + c + d, a + c);
  }

  /** The two-sided p-value: of all tables with the observed margins, the share that is
      at least as unlikely as the observed one.  Nonsensical counts and no counts at all
      say nothing, so they are never significant. */
  function PValue(a: int, b: int, c: int, d: int): real {
    if Counted(a, b, c, d) then
      TablesExist(a, b, c, d);
      Tail(a, b, c, d) as real / Choose(a + b + c + d, a + c) as real
    else 1.0
  }

  /** Never zero and never above one: the clamp at the end of the code only ever
      corrects rounding. */
  lemma PValueIsAProbability(a: int, b: int, c: int, d: int)
    ensures 0.0 < PValue(a, b, c, d) <= 1.0
  {
    if Counted(a, b, c, d) {
      TailIsSome(a, b, c, d);
      hide Tail, Choose;
      Fraction(Tail(a, b, c, d), Choose(a + b + c + d, a + c));
    }
  }

  lemma TailIsSome(a: nat, b: nat, c: nat, d: nat)
    ensures 0 < Tail(a, b, c, d) <= Choose(a + b + c + d, a + c)
  {
    var rowA, rowB, pass := a + b, c + d, a + c;
    var w := Weight(rowA, rowB, pass, a);
    var f, g := Extreme(rowA, rowB, pass, w), Weights(rowA, rowB, pass);
    assert forall k :: f(k) <= g(k);
    assert f(a) == w;
    hide Choose, Weight, Sum, Extreme, Weights;
    RangeIsEverything(rowA, rowB, pass);
    SumBelow(f, g, Low(rowB, pass), High(rowA, pass));
    WeightPositive(rowA, rowB, pass, a);
    SumHas(f, Low(rowB, pass), a, High(rowA, pass));
  }

  lemma Fraction(x: nat, y: nat)
    requires 0 < x <= y
    ensures 0.0 < x as real / y as real <= 1.0
  {
    var q := x as real / y as real;
    assert q * y as real == x as real;
  }

  /** Comparing B with A says what comparing A with B says. */
  lemma SwappingReports(a: int, b: int, c: int, d: int)
    ensures PValue(a, b, c, d) == PValue(c, d, a, b)
  {
    if Counted(a, b, c, d) {
      SwappedTail(a, b, c, d);
      hide Tail, Choose;
    }
  }

  lemma SwappedTail(a: nat, b: nat, c: nat, d: nat)
    ensures Tail(a, b, c, d) == Tail(c, d, a, b)
  {
    hide Choose, Weight, Sum;
    var rowA, rowB, pass := a + b, c + d, a + c;
    var w := Weight(rowA, rowB, pass, a);
    SwappedWeight(rowA, rowB, pass, a);
    var f, g := Extreme(rowA, rowB, pass, w), Extreme(rowB, rowA, pass, w);
    forall k ensures f(k) == g(pass - k) {
      SwappedWeight(rowA, rowB, pass, k);
    }
    hide Extreme;
    SumReversed(f, g, pass, Low(rowB, pass), High(rowA, pass));
  }

  lemma SwappedWeight(rowA: nat, rowB: nat, pass: int, k: int)
    ensures Weight(rowA, rowB, pass, k) == Weight(rowB, rowA, pass, pass - k)
  {
    hide Choose;
    assert pass - (pass - k) == k;
  }

  /** Counting failures instead of passes changes nothing. */
  lemma SwappingOutcomes(a: int, b: int, c: int, d: int)
    ensures PValue(a, b, c, d) == PValue(b, a, d, c)
  {
    if Counted(a, b, c, d) {
      InvertedTail(a, b, c, d);
      ChooseSymmetric(a + b + c + d, a + c);
      hide Tail, Choose;
    }
  }

  lemma InvertedTail(a: nat, b: nat, c: nat, d: nat)
    ensures Tail(a, b, c, d) == Tail(b, a, d, c)
  {
    hide Choose, Weight, Sum;
    var rowA, rowB := a + b, c + d;
    var w := Weight(rowA, rowB, a + c, a);
    InvertedWeight(a, b, c, d, a);
    var f, g := Extreme(rowA, rowB, a + c, w), Extreme(rowA, rowB, b + d, w);
    forall k ensures f(k) == g(rowA - k) {
      InvertedWeight(a, b, c, d, k);
    }
    hide Extreme;
    SumReversed(f, g, rowA, Low(rowB, a + c), High(rowA, a + c));
  }

  lemma InvertedWeight(a: nat, b: nat, c: nat, d: nat, k: int)
    ensures Weight(a + b, c + d, a + c, k) == Weight(b + a, d + c, b + d, a + b - k)
  {
    ChooseSymmetric(a + b, k);
    ChooseSymmetric(c + d, a + c - k);
    hide Choose;
    assert c + d - (a + c - k) == b + d - (a + b - k);
  }

  // ---- When there is no evidence at all ----

  /** Moving one pass from group B to group A. */
  lemma WeightRatio(rowA: nat, rowB: nat, pass: int, k: int)
    requires 0 <= k && k < pass
    ensures Weight(rowA, rowB, pass, k + 1) * ((k + 1) * (rowB - pass + k + 1))
            == Weight(rowA, rowB, pass, k) * ((rowA - k) * (pass - k))
  {
    hide Choose;
    Absorb(rowA, k);
    Absorb(rowB, pass - k - 1);
    var x, x', y, y' := Choose(rowA, k), Choose(rowA, k + 1), Choose(rowB, pass - k), Choose(rowB, pass - k - 1);
    assert pass - k - 1 == pass - (k + 1);
    var m := rowB - pass + k + 1;
    assert m == rowB - (pass - k - 1);
    calc {
      (x' * y') * ((k + 1) * m);
      { Regroup(x', y', k + 1, m); }
      (x' * (k + 1)) * (y' * m);
      (x * (rowA - k)) * (y * (pass - k));
      { Regroup(x, y, rowA - k, pass - k); }
      (x * y) * ((rowA - k) * (pass - k));
    }
  }

  lemma Grows(w: nat, w': nat, up: int, down: int)
    requires w' * down == w * up && down > 0
    ensures up <= down ==> w' <= w
    ensures w > 0 && up > down ==> w' > w
    ensures w' > 0 && up >= down ==> w' >= w
  {
    if up <= down {
      assert w * up <= w * down;
      assert w' * down <= w * down;
    } else {
      assert w * up >= w * down;
      assert w' * down >= w * down;
      if w > 0 { assert w * up > w * down; }
    }
  }

  /** Log-concavity: from a table on whose right neighbour is no likelier, the weights
      only fall. */
  lemma {:induction false} FallsToTheRight(a: nat, b: nat, c: nat, d: nat, k: int)
    requires b * c <= (a + 1) * (d + 1) && a <= k <= High(a + b, a + c)
    ensures Weight(a + b, c + d, a + c, k) <= Weight(a + b, c + d, a + c, a)
    decreases k
  {
    if k > a {
      FallsToTheRight(a, b, c, d, k - 1);
      WeightRatio(a + b, c + d, a + c, k - 1);
      var up, down := (a + b - (k - 1)) * (a + c - (k - 1)), k * (c + d - (a + c) + k);
      assert up <= down by {
        Products(a + b - (k - 1), a + c - (k - 1), b, c);
        Products(a + 1, d + 1, k, c + d - (a + c) + k);
      }
      assert down > 0 by { Products(1, 1, k, c + d - (a + c) + k); }
      Grows(Weight(a + b, c + d, a + c, k - 1), Weight(a + b, c + d, a + c, k), up, down);
    }
  }

  lemma PositiveFactors(x: nat, y: nat)
    requires x * y > 0
    ensures x > 0 && y > 0
  {
  }

  lemma Products(p: int, q: int, x: int, y: int)
    requires 0 <= p <= x && 0 <= q <= y
    ensures p * q <= x * y
  {
    assert p * q <= p * y;
    assert p * y <= x * y;
  }

  lemma FallsToTheLeft(a: nat, b: nat, c: nat, d: nat, k: int)
    requires a * d <= (b + 1) * (c + 1) && Low(c + d, a + c) <= k <= a
    ensures Weight(a + b, c + d, a + c, k) <= Weight(a + b, c + d, a + c, a)
  {
    hide Weight, Choose;
    FallsToTheRight(b, a, d, c, a + b - k);
    InvertedWeight(a, b, c, d, k);
    InvertedWeight(a, b, c, d, a);
  }

  /** The p-value is exactly one, no evidence of any difference, just when moving a
      single pass either way between the two groups makes no likelier table. */
  lemma PValueIsOneIff(a: nat, b: nat, c: nat, d: nat)
    requires a + b + c + d > 0
    ensures PValue(a, b, c, d) == 1.0 <==> b * c <= (a + 1) * (d + 1) && a * d <= (b + 1) * (c + 1)
  {
    hide Weight, Choose, Sum;
    PValueIsOneIfLikeliest(a, b, c, d);
    if b * c <= (a + 1) * (d + 1) && a * d <= (b + 1) * (c + 1) {
      forall k | Low(c + d, a + c) <= k <= High(a + b, a + c)
        ensures NoLikelier(a, b, c, d, k)
      {
        if k >= a { FallsToTheRight(a, b, c, d, k); } else { FallsToTheLeft(a, b, c, d, k); }
      }
    } else {
      LikelierNeighbour(a, b, c, d);
    }
  }

  predicate NoLikelier(a: nat, b: nat, c: nat, d: nat, k: int) {
    Weight(a + b, c + d, a + c, k) <= Weight(a + b, c + d, a + c, a)
  }

  predicate Likeliest(a: nat, b: nat, c: nat, d: nat) {
    forall k | Low(c + d, a + c) <= k <= High(a + b, a + c) :: NoLikelier(a, b, c, d, k)
  }

  lemma PValueIsOneIfLikeliest(a: nat, b: nat, c: nat, d: nat)
    requires a + b + c + d > 0
    ensures PValue(a, b, c, d) == 1.0 <==> Likeliest(a, b, c, d)
  {
    var rowA, rowB, pass := a + b, c + d, a + c;
    var lo, hi, w := Low(rowB, pass), High(rowA, pass), Weight(rowA, rowB, pass, a);
    var f, g := Extreme(rowA, rowB, pass, w), Weights(rowA, rowB, pass);
    forall k ensures f(k) == (if g(k) <= w then g(k) else 0) && (NoLikelier(a, b, c, d, k) <==> f(k) == g(k)) {
      assert g(k) == Weight(rowA, rowB, pass, k);
    }
    TailIsAllIff(a, b, c, d);
    hide *;
    SumBelow(f, g, lo, hi);
    RangeIsEverything(rowA, rowB, pass);
    assert Likeliest(a, b, c, d) <==> forall k | lo <= k <= hi :: f(k) == g(k);
  }

  lemma TailIsAllIff(a: nat, b: nat, c: nat, d: nat)
    requires a + b + c + d > 0
    ensures PValue(a, b, c, d) == 1.0 <==> Tail(a, b, c, d) == Choose(a + b + c + d, a + c)
  {
    hide Tail, Choose;
    PValueIsAProbability(a, b, c, d);
    TablesExist(a, b, c, d);
    UnitFraction(Tail(a, b, c, d), Choose(a + b + c + d, a + c));
  }

  lemma UnitFraction(x: nat, y: nat)
    requires y > 0
    ensures x as real / y as real == 1.0 <==> x == y
  {
    var q := x as real / y as real;
    assert q * y as real == x as real;
  }

  lemma LikelierNeighbour(a: nat, b: nat, c: nat, d: nat)
    requires b * c > (a + 1) * (d + 1) || a * d > (b + 1) * (c + 1)
    ensures !Likeliest(a, b, c, d)
  {
    hide Weight, Choose;
    if b * c > (a + 1) * (d + 1) {
      LikelierToTheRight(a, b, c, d);
      assert !NoLikelier(a, b, c, d, a + 1);
    } else {
      LikelierToTheRight(b, a, d, c);
      InvertedWeight(a, b, c, d, a - 1);
      InvertedWeight(a, b, c, d, a);
      assert a > 0 && d > 0 by { PositiveFactors(a, d); }
      assert !NoLikelier(a, b, c, d, a - 1);
    }
  }

  lemma LikelierToTheRight(a: nat, b: nat, c: nat, d: nat)
    requires b * c > (a + 1) * (d + 1)
    ensures b > 0 && c > 0
    ensures Weight(a + b, c + d, a + c, a + 1) > Weight(a + b, c + d, a + c, a)
  {
    hide Weight, Choose;
    PositiveFactors(b, c);
    WeightPositive(a + b, c + d, a + c, a);
    WeightRatio(a + b, c + d, a + c, a);
    assert c + d - (a + c) + a + 1 == d + 1;
    Products(1, 1, a + 1, d + 1);
    Grows(Weight(a + b, c + d, a + c, a), Weight(a + b, c + d, a + c, a + 1), b * c, (a + 1) * (d + 1));
  }

  /** A report compared with itself, or with any report of the same pass rate. */
  lemma EqualRatesAreNoEvidence(a: nat, b: nat, c: nat, d: nat)
    requires a * d == b * c
    ensures PValue(a, b, c, d) == 1.0
  {
    if a + b + c + d > 0 {
      assert b * c <= (a + 1) * (d + 1) by { Products(a, d, a + 1, d + 1); }
      assert a * d <= (b + 1) * (c + 1) by { Products(b, c, b + 1, c + 1); }
      PValueIsOneIff(a, b, c, d);
    }
  }

  lemma SelfComparison(a: int, b: int)
    ensures PValue(a, b, a, b) == 1.0
  {
    if a >= 0 && b >= 0 {
      EqualRatesAreNoEvidence(a, b, a, b);
    }
  }

  // ---- The computation ----

  /** exp of logHypergeometric. */
  function Hypergeometric(k: int, rowA: nat, rowB: nat, pass: int): real
    requires Ways(rowA + rowB, pass) != 0.0
  {
    Ways(rowA, k) * Ways(rowB, pass - k) / Ways(rowA + rowB, pass)
  }

  /** p is x out of n. */
  predicate IsShare(p: real, x: int, n: nat) {
    n > 0 && p * n as real == x as real
  }

  lemma ProductShare(wx: real, wy: real, wn: real, x: int, y: int, n: nat)
    requires n > 0 && wx == x as real && wy == y as real && wn == n as real
    ensures IsShare(wx * wy / wn, x * y, n)
  {
    RealProduct(x, y);
  }

  lemma HypergeometricIsWeight(k: int, rowA: nat, rowB: nat, pass: int)
    requires 0 <= pass <= rowA + rowB
    ensures Ways(rowA + rowB, pass) != 0.0
    ensures IsShare(Hypergeometric(k, rowA, rowB, pass), Weight(rowA, rowB, pass, k), Choose(rowA + rowB, pass))
  {
    hide Choose, Ways, Factorial;
    ChoosePositive(rowA + rowB, pass);
    WaysIsChoose(rowA, k);
    WaysIsChoose(rowB, pass - k);
    WaysIsChoose(rowA + rowB, pass);
    ProductShare(Ways(rowA, k), Ways(rowB, pass - k), Ways(rowA + rowB, pass),
                 Choose(rowA, k), Choose(rowB, pass - k), Choose(rowA + rowB, pass));
    assert Weight(rowA, rowB, pass, k) == Choose(rowA, k) * Choose(rowB, pass - k);
    assert Hypergeometric(k, rowA, rowB, pass) == Ways(rowA, k) * Ways(rowB, pass - k) / Ways(rowA + rowB, pass);
  }

  lemma SameOrder(p: real, q: real, n: nat, x: int, y: int)
    requires IsShare(p, x, n) && IsShare(q, y, n)
    ensures p <= q <==> x <= y
  {
    ScaledOrder(p, q, n as real);
  }

  lemma ScaledOrder(p: real, q: real, n: real)
    requires n > 0.0
    ensures p <= q <==> p * n <= q * n
  {
    assert (q - p) * n == q * n - p * n;
    assert q - p > 0.0 ==> (q - p) * n > 0.0;
    assert q - p < 0.0 ==> (p - q) * n > 0.0;
  }

  lemma AddShares(p: real, q: real, n: nat, x: int, y: int)
    requires IsShare(p, x, n) && IsShare(q, y, n)
    ensures IsShare(p + q, x + y, n)
  {
    assert (p + q) * n as real == p * n as real + q * n as real;
  }

  lemma SharesAreFractions(p: real, x: int, n: nat)
    requires IsShare(p, x, n)
    ensures p == x as real / n as real
  {
  }

  lemma SumSnoc(f: int -> nat, lo: int, hi: int)
    requires lo <= hi
    ensures Sum(f, lo, hi) == Sum(f, lo, hi - 1) + f(hi)
  {
  }

  /** fisherExact. */
  method FisherExact(a: int, b: int, c: int, d: int) returns (p: real)
    ensures p == PValue(a, b, c, d)
  {
    if a < 0 || b < 0 || c < 0 || d < 0 {
      return 1.0;
    }
    var n := a + b + c + d;
    if n == 0 {
      return 1.0;
    }
    var rowA, rowB, colPass := a + b, c + d, a + c;
    HypergeometricIsWeight(a, rowA, rowB, colPass);
    var observed := Hypergeometric(a, rowA, rowB, colPass);
    ghost var f := Extreme(rowA, rowB, colPass, Weight(rowA, rowB, colPass, a));
    var low := Low(rowB, colPass);
    var high := High(rowA, colPass);
    var total := SumExtreme(rowA, rowB, colPass, a, observed, low, high);
    SharesAreFractions(total, Sum(f, low, high), Choose(n, colPass));
    PValueIsAProbability(a, b, c, d);
    p := if total < 1.0 then total else 1.0;
  }

  /** The loop of fisherExact. */
  method SumExtreme(rowA: nat, rowB: nat, colPass: nat, a: int, observed: real, low: int, high: int)
    returns (total: real)
    requires colPass <= rowA + rowB && low <= high + 1
    requires Ways(rowA + rowB, colPass) != 0.0 && observed == Hypergeometric(a, rowA, rowB, colPass)
    ensures IsShare(total, Sum(Extreme(rowA, rowB, colPass, Weight(rowA, rowB, colPass, a)), low, high),
                    Choose(rowA + rowB, colPass))
  {
    ghost var w, tables := Weight(rowA, rowB, colPass, a), Choose(rowA + rowB, colPass);
    ghost var f := Extreme(rowA, rowB, colPass, w);
    HypergeometricIsWeight(a, rowA, rowB, colPass);
    total := 0.0;
    assert IsShare(total, Sum(f, low, low - 1), tables);
    assert forall i :: f(i) == if Weight(rowA, rowB, colPass, i) <= w then Weight(rowA, rowB, colPass, i) else 0;
    hide *;
    var k := low;
    while k <= high
      invariant low <= k <= high + 1
      invariant IsShare(total, Sum(f, low, k - 1), tables)
    {
      HypergeometricIsWeight(k, rowA, rowB, colPass);
      var q := Hypergeometric(k, rowA, rowB, colPass);
      SameOrder(q, observed, tables, Weight(rowA, rowB, colPass, k), w);
      SumSnoc(f, low, k);
      if q <= observed {
        AddShares(total, q, tables, Sum(f, low, k - 1), f(k));
        total := total + q;
      }
      k := k + 1;
    }
  }
}
