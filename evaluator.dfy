/** The escape-time evaluator: iterate z := z*z + c from z = 0 until the
    squared modulus exceeds 4 or the iteration cap is reached. Doubles are
    modelled as reals. */
module Evaluator {
  import opened Config

  /** A point of the complex plane. */
  datatype Complex = Complex(re: real, im: real)

  const Origin := Complex(0.0, 0.0)

  function Add(a: Complex, b: Complex): Complex {
    Complex(a.re + b.re, a.im + b.im)
  }

  function Mul(a: Complex, b: Complex): Complex {
    Complex(a.re * b.re - a.im * b.im, a.re * b.im + a.im * b.re)
  }

  /** One step of the recurrence, written out on real and imaginary parts
      as the source does. */
  function Step(z: Complex, c: Complex): Complex {
    Complex(z.re * z.re - z.im * z.im + c.re, 2.0 * z.im * z.re + c.im)
  }

  /** The expanded step is z*z + c in complex arithmetic. */
  lemma StepIsSquarePlusC(z: Complex, c: Complex)
    ensures Step(z, c) == Add(Mul(z, z), c)
  {
  }

  /** Squared modulus within the escape radius 2. */
  predicate Bounded(z: Complex) {
    z.re * z.re + z.im * z.im <= 4.0
  }

  /** `k` steps of the recurrence from `z`. */
  function Iterate(z: Complex, c: Complex, k: nat): Complex
    decreases k
  {
    if k == 0 then z else Iterate(Step(z, c), c, k - 1)
  }

  /** The orbit of 0 under the recurrence: the value of z after k steps. */
  function Orbit(c: Complex, k: nat): Complex {
    Iterate(Origin, c, k)
  }

  lemma {:induction false} IterateLast(z: Complex, c: Complex, k: nat)
    ensures Iterate(z, c, k + 1) == Step(Iterate(z, c, k), c)
    decreases k
  {
    if k > 0 {
      IterateLast(Step(z, c), c, k - 1);
    }
  }

  /** Each point of the orbit is one step on from the previous one. */
  lemma OrbitNext(c: Complex, k: nat)
    ensures Orbit(c, k + 1) == Step(Orbit(c, k), c)
  {
    IterateLast(Origin, c, k);
  }

  /** `n` is what the evaluator must answer for `c`: `n` steps of the orbit
      stayed bounded, and unless `n` is the cap the orbit has escaped at `n`.
      This is the first escape index, cut off at MaxIter. */
  ghost predicate IsEscapeCount(c: Complex, n: int) {
    && 1 <= n <= MaxIter
    && (n < MaxIter ==> !Bounded(Orbit(c, n)))
    && forall j :: 0 <= j < n ==> Bounded(Orbit(c, j))
  }

  /** The count the loop returns when it reaches the test with `z` after
      `k` completed steps. */
  function EscapeFrom(c: Complex, z: Complex, k: int): (n: int)
    requires 0 <= k <= MaxIter
    ensures k <= n <= MaxIter
    ensures n == k <==> !Bounded(z) || k == MaxIter
    decreases MaxIter - k
  {
    if !Bounded(z) then k
    else if k >= MaxIter then MaxIter
    else EscapeFrom(c, Step(z, c), k + 1)
  }

  /** computeIterations as a function of the point. */
  function EscapeTime(c: Complex): (n: int)
    ensures 1 <= n <= MaxIter
  {
    EscapeFrom(c, Origin, 0)
  }

  /** What EscapeFrom computes from a prefix of the orbit that stayed bounded. */
  lemma {:induction false} EscapeFromIsEscapeCount(c: Complex, k: int)
    requires 0 <= k <= MaxIter
    requires forall j :: 0 <= j < k ==> Bounded(Orbit(c, j))
    ensures IsEscapeCount(c, EscapeFrom(c, Orbit(c, k), k))
    decreases MaxIter - k
  {
    if Bounded(Orbit(c, k)) && k < MaxIter {
      OrbitNext(c, k);
      EscapeFromIsEscapeCount(c, k + 1);
    }
  }

  /** EscapeTime answers the first escape index, capped at MaxIter. */
  lemma EscapeTimeIsEscapeCount(c: Complex)
    ensures IsEscapeCount(c, EscapeTime(c))
  {
    EscapeFromIsEscapeCount(c, 0);
  }

  /** At most one count fits a point. */
  lemma EscapeCountUnique(c: Complex, n: int, m: int)
    requires IsEscapeCount(c, n) && IsEscapeCount(c, m)
    ensures n == m
  {
  }

  lemma {:induction false} OriginOrbitIsOrigin(k: nat)
    ensures Orbit(Origin, k) == Origin
  {
    if k > 0 {
      assert Step(Origin, Origin) == Origin;
      OriginOrbitIsOrigin(k - 1);
    }
  }

  /** The origin lies inside the set: its orbit stays at 0. */
  lemma OriginIsInside()
    ensures EscapeTime(Origin) == MaxIter
  {
    var n := EscapeTime(Origin);
    EscapeTimeIsEscapeCount(Origin);
    if n < MaxIter {
      OriginOrbitIsOrigin(n);
      assert false;
    }
  }

  /** c = 2: z goes 0, 2, 6; the test sees |2|^2 = 4 still inside and
      |6|^2 = 36 outside, so the answer is 2. */
  lemma TwoEscapesAfterTwoSteps()
    ensures EscapeTime(Complex(2.0, 0.0)) == 2
  {
    var c := Complex(2.0, 0.0);
    calc {
      EscapeTime(c);
      EscapeFrom(c, Origin, 0);
      EscapeFrom(c, Complex(2.0, 0.0), 1);
      EscapeFrom(c, Complex(6.0, 0.0), 2);
      2;
    }
  }

  /** c = (-2, -1.5), the start-up top-left corner: the first step
      lands on c itself, with squared modulus 6.25, so the answer is 1. */
  lemma CornerEscapesAfterOneStep()
    ensures EscapeTime(Complex(-2.0, -1.5)) == 1
  {
    var c := Complex(-2.0, -1.5);
    assert Step(Origin, c) == c;
    assert !Bounded(c);
    calc {
      EscapeTime(c);
      EscapeFrom(c, Origin, 0);
      EscapeFrom(c, c, 1);
      1;
    }
  }

  /** A point whose orbit stays bounded for MaxIter + 1 tests is inside. */
  lemma BoundedThroughCap(c: Complex)
    requires forall j :: 0 <= j <= MaxIter ==> Bounded(Orbit(c, j))
    ensures EscapeTime(c) == MaxIter
  {
    EscapeTimeIsEscapeCount(c);
  }

  /** A point whose orbit first leaves the radius at `k` has count `k`. */
  lemma FirstEscapeAt(c: Complex, k: int)
    requires 1 <= k <= MaxIter
    requires forall j :: 0 <= j < k ==> Bounded(Orbit(c, j))
    requires !Bounded(Orbit(c, k))
    ensures EscapeTime(c) == k
  {
    EscapeTimeIsEscapeCount(c);
    EscapeCountUnique(c, k, EscapeTime(c));
  }

  /** computeIterations. The loop keeps the current z equal to the orbit
      after `iterCount` steps; the imaginary update uses the real part saved
      before it was overwritten. Escaping or not, the answer is at least 1
      (the first test sees z = 0), and at most MaxIter + 1 steps are taken. */
  method ComputeIterations(cr: real, ci: real) returns (n: int, ghost steps: nat)
    ensures n == EscapeTime(Complex(cr, ci))
    ensures 1 <= n <= MaxIter
    ensures steps <= MaxIter + 1
    ensures n < MaxIter ==> steps == n
  {
    ghost var c := Complex(cr, ci);
    var zr, zi := 0.0, 0.0;
    var iterCount := 0;
    steps := 0;
    while zr * zr + zi * zi <= 4.0
      invariant 0 <= iterCount <= MaxIter
      invariant steps == iterCount
      invariant Complex(zr, zi) == Orbit(c, iterCount)
      invariant forall j :: 0 <= j < iterCount ==> Bounded(Orbit(c, j))
      decreases MaxIter - iterCount
    {
      ghost var z := Complex(zr, zi);
      var zrOld := zr;
      zr := zr * zr - zi * zi + cr;
      zi := 2.0 * zi * zrOld + ci;
      steps := steps + 1;
      OrbitNext(c, iterCount);
      assert Complex(zr, zi) == Step(z, c);
      if iterCount >= MaxIter {
        // Still bounded after MaxIter steps: inside the set.
        BoundedThroughCap(c);
        n := MaxIter;
        return;
      }
      iterCount := iterCount + 1;
    }
    assert iterCount != 0;
    FirstEscapeAt(c, iterCount);
    n := iterCount;
  }
}
