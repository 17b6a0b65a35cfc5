/**
 The one-dimensional root solver: Newton steps on a numerical slope, then a doubling search for a sign
 change and bisection inside it.
 */
module RootSolver {
  import opened Numbers
  import opened Options

  datatype Sample = Sample(x: real, f: real)
  datatype Bisection = Bisection(root: Option<real>, residual: real, iterations: nat)
  datatype Bracket = Bracket(lo: real, fLo: real, hi: real, fHi: real)
  datatype Method = Newton | Bisected | Neither
  datatype NewtonOptions = NewtonOptions(tol: Option<real>, relTol: Option<real>, scale: Option<real>,
                                         maxIter: Option<int>, initialStep: Option<real>, bracketMax: Option<real>)
  datatype NewtonResult = NewtonResult(root: Option<real>, iterations: nat, residual: real, converged: bool,
                                       trace: seq<Sample>, how: Method)

  const DEFAULT_TOL := 0.000000001
  const DEFAULT_REL_TOL := 0.0000000001
  const DEFAULT_MAX_ITER := 50
  const DEFAULT_STEP := 0.0001
  const DEFAULT_BRACKET := 32.0
  const SMALLEST_WIDTH := 0.000000000001

  function Pow2(n: nat): (p: real)
    ensures p >= 1.0
  {
    if n == 0 then 1.0 else 2.0 * Pow2(n - 1)
  }

  /** The values have opposite signs, or one of them is zero. */
  predicate SignChange(u: real, v: real) {
    (u <= 0.0 && v >= 0.0) || (u >= 0.0 && v <= 0.0)
  }

  lemma SignOfProduct(u: real, v: real)
    ensures u * v <= 0.0 <==> SignChange(u, v)
  {
    if u > 0.0 && v > 0.0 {
      assert u * v > 0.0;
    } else if u < 0.0 && v < 0.0 {
      assert (-u) * (-v) > 0.0;
    } else if u > 0.0 {
      assert u * (-v) >= 0.0;
    } else if u < 0.0 {
      assert (-u) * v >= 0.0;
    }
  }

  /** `r` is at most `reach` away from both ends of a stretch of [lo, hi] over which `f` changes sign. */
  ghost predicate Encloses(f: real -> real, lo: real, hi: real, r: real, reach: real) {
    exists a, b :: lo <= a <= r <= b <= hi && SignChange(f(a), f(b)) && r - a <= reach && b - r <= reach
  }

  /** Each sample on the trace is a point of the graph. */
  ghost predicate OnGraph(f: real -> real, trace: seq<Sample>) {
    forall i :: 0 <= i < |trace| ==> trace[i].f == f(trace[i].x)
  }

  lemma Halve(w: real, n: nat)
    ensures w / Pow2(n) / 2.0 == w / Pow2(n + 1)
  {
    var p := Pow2(n);
    assert w / p / 2.0 * (2.0 * p) == w;
  }

  method Bisect(f: real -> real, lo: real, fLo: real, hi: real, fHi: real, tol: real, maxIter: int, trace0: seq<Sample>)
    returns (r: Bisection, trace: seq<Sample>)
    requires lo <= hi && fLo == f(lo) && fHi == f(hi) && OnGraph(f, trace0)
    ensures r.root.None? <==> !SignChange(fLo, fHi)
    ensures r.root.None? ==> r.iterations == 0 && (r.residual == Abs(fLo) || r.residual == Abs(fHi))
    ensures r.root.Some? ==> r.residual == f(r.root.value)
    ensures r.root.Some? ==> Encloses(f, lo, hi, r.root.value, (hi - lo) / Pow2(r.iterations))
    ensures r.iterations == 0 || r.iterations <= maxIter
    ensures OnGraph(f, trace) && |trace| == |trace0| + r.iterations && trace0 <= trace
  {
    trace := trace0;
    SignOfProduct(fLo, fHi);
    if fLo * fHi > 0.0 {
      return Bisection(None, if Abs(fLo) < Abs(fHi) then Abs(fLo) else Abs(fHi), 0), trace;
    }
    var a, b, fa := lo, hi, fLo;
    var iter := 0;
    while iter < maxIter
      invariant lo <= a <= b <= hi && fa == f(a) && SignChange(f(a), f(b))
      invariant b - a == (hi - lo) / Pow2(iter)
      invariant iter == 0 || iter <= maxIter
      invariant OnGraph(f, trace) && |trace| == |trace0| + iter && trace0 <= trace
    {
      var mid := 0.5 * (a + b);
      var fm := f(mid);
      trace := trace + [Sample(mid, fm)];
      Halve(hi - lo, iter);
      iter := iter + 1;
      assert mid - a == (b - a) / 2.0 && b - mid == (b - a) / 2.0;
      if Abs(fm) <= tol || Abs(b - a) < tol {
        assert Encloses(f, lo, hi, mid, (hi - lo) / Pow2(iter));
        return Bisection(Some(mid), fm, iter), trace;
      }
      SignOfProduct(fa, fm);
      if fa * fm <= 0.0 {
        b := mid;
      } else {
        a, fa := mid, fm;
      }
    }
    var mid := 0.5 * (a + b);
    assert mid - a == (b - a) / 2.0 && b - mid == (b - a) / 2.0;
    assert Encloses(f, lo, hi, mid, (hi - lo) / Pow2(iter));
    r := Bisection(Some(mid), f(mid), iter);
  }

  /** The half-width of the i-th bracket tried. */
  function Width(step: real, i: nat): real {
    Max(Abs(step), SMALLEST_WIDTH) * Pow2(i)
  }

  method ExpandBracket(f: real -> real, x0: real, step: real, maxDoubles: int, trace0: seq<Sample>)
    returns (r: Option<Bracket>, trace: seq<Sample>)
    requires OnGraph(f, trace0)
    ensures r.Some? ==>
      var k := r.value;
      && k.lo <= k.hi && k.fLo == f(k.lo) && k.fHi == f(k.hi) && SignChange(k.fLo, k.fHi)
      && exists i: nat :: i < maxDoubles && k.lo == x0 - Width(step, i) && k.hi == x0 + Width(step, i)
    ensures r.None? ==> forall i: nat :: i < maxDoubles ==> !SignChange(f(x0 - Width(step, i)), f(x0 + Width(step, i)))
    ensures OnGraph(f, trace) && |trace0| <= |trace| <= |trace0| + (if maxDoubles > 0 then 2 * maxDoubles else 0)
    ensures trace0 <= trace
  {
    trace := trace0;
    var width := Max(Abs(step), SMALLEST_WIDTH);
    var i := 0;
    while i < maxDoubles
      invariant i == 0 || i <= maxDoubles
      invariant width == Width(step, i) > 0.0
      invariant forall j: nat :: j < i ==> !SignChange(f(x0 - Width(step, j)), f(x0 + Width(step, j)))
      invariant OnGraph(f, trace) && |trace| == |trace0| + 2 * i && trace0 <= trace
    {
      var lo, hi := x0 - width, x0 + width;
      var fLo, fHi := f(lo), f(hi);
      trace := trace + [Sample(lo, fLo), Sample(hi, fHi)];
      SignOfProduct(fLo, fHi);
      if fLo * fHi <= 0.0 {
        return Some(Bracket(lo, fLo, hi, fHi)), trace;
      }
      Doubled(Max(Abs(step), SMALLEST_WIDTH), Pow2(i));
      width := width * 2.0;
      i := i + 1;
    }
    r := None;
  }

  lemma Doubled(w: real, p: real)
    ensures w * p * 2.0 == w * (2.0 * p)
  {
  }

  /** The least k with 2^k at least `m`. */
  function CeilLog2(m: real): nat
    decreases if m > 1.0 then m.Floor else 0
  {
    if m <= 1.0 then 0 else 1 + CeilLog2(m / 2.0)
  }

  /** How many brackets are tried. */
  function Doubles(bracketMax: real): nat { CeilLog2(Max(bracketMax, 2.0)) + 1 }

  /** The bracket tried last is at least `bracketMax` first steps wide. */
  lemma {:induction false} BracketReaches(m: real)
    ensures m <= Pow2(CeilLog2(m))
    decreases if m > 1.0 then m.Floor else 0
  {
    if m > 1.0 {
      BracketReaches(m / 2.0);
    }
  }

  function Tolerance(opts: NewtonOptions): real {
    Max(GetOr(opts.tol, DEFAULT_TOL), GetOr(opts.relTol, DEFAULT_REL_TOL) * Abs(GetOr(opts.scale, 0.0)))
  }

  function InitialStep(opts: NewtonOptions): real { GetOr(opts.initialStep, DEFAULT_STEP) }

  function Brackets(opts: NewtonOptions): nat { Doubles(GetOr(opts.bracketMax, DEFAULT_BRACKET)) }

  function Iterations(opts: NewtonOptions): nat {
    var n := GetOr(opts.maxIter, DEFAULT_MAX_ITER);
    if n < 0 then 0 else n
  }

  /** Newton's loop as far as it got: the best point so far is on the trace and no sample there is better. */
  ghost predicate Best(f: real -> real, trace: seq<Sample>, best: real) {
    && (exists i :: 0 <= i < |trace| && Abs(trace[i].f) == best)
    && (forall i :: 0 <= i < |trace| ==> best <= Abs(trace[i].f))
  }

  datatype NewtonState = NewtonState(x: real, fx: real, bestAbs: real, iterations: nat, stalled: bool, found: bool)

  method NewtonSteps(f: real -> real, x0: real, tol: real, maxIter: int, step: real)
    returns (s: NewtonState, trace: seq<Sample>, ghost evaluations: nat)
    requires Abs(f(x0)) > tol
    ensures s.fx == f(s.x) && (s.found <==> Abs(s.fx) <= tol)
    ensures trace != [] && trace[0] == Sample(x0, f(x0)) && OnGraph(f, trace) && |trace| == 1 + s.iterations
    ensures Best(f, trace, s.bestAbs)
    ensures s.iterations == 0 || s.iterations <= maxIter
    ensures evaluations <= 1 + 3 * (if maxIter < 0 then 0 else maxIter)
    ensures s.stalled ==> !s.found
  {
    var x, fx := x0, f(x0);
    trace, evaluations := [Sample(x, fx)], 1;
    var iterations, bestAbs, stalled := 0, Abs(fx), false;
    assert trace[0] == Sample(x0, f(x0));
    var i := 0;
    while i < maxIter
      invariant i == 0 || i <= maxIter
      invariant iterations == i && !stalled && evaluations == 1 + 3 * i
      invariant fx == f(x) && Abs(fx) > tol
      invariant trace != [] && trace[0] == Sample(x0, f(x0)) && OnGraph(f, trace) && |trace| == 1 + iterations
      invariant Best(f, trace, bestAbs)
    {
      // A zero step gives a slope that is not finite.
      if step == 0.0 {
        stalled := true;
        break;
      }
      var slope := (f(x + step) - f(x - step)) / (2.0 * step);
      evaluations := evaluations + 2;
      var smallest := step * step;
      SquarePositive(step, smallest);
      if Abs(slope) < smallest {
        stalled := true;
        break;
      }
      assert slope != 0.0;
      var next := x - fx / slope;
      var fNext := f(next);
      evaluations := evaluations + 1;
      iterations := iterations + 1;
      BestStep(f, trace, bestAbs, Sample(next, fNext));
      trace := trace + [Sample(next, fNext)];
      if Abs(fNext) < bestAbs {
        bestAbs := Abs(fNext);
      }
      x, fx := next, fNext;
      if Abs(fx) <= tol {
        return NewtonState(x, fx, bestAbs, iterations, false, true), trace, evaluations;
      }
      i := i + 1;
    }
    s := NewtonState(x, fx, bestAbs, iterations, stalled, false);
  }

  lemma SquarePositive(step: real, square: real)
    requires step != 0.0 && square == step * step
    ensures square > 0.0
  {
    var size := if step < 0.0 then -step else step;
    assert size * size == square;
    PositiveProduct(size, size, square);
  }

  lemma PositiveProduct(a: real, b: real, product: real)
    requires a > 0.0 && b > 0.0 && product == a * b
    ensures product > 0.0
  {
  }

  lemma BestStep(f: real -> real, trace: seq<Sample>, best: real, s: Sample)
    requires Best(f, trace, best)
    ensures Best(f, trace + [s], if Abs(s.f) < best then Abs(s.f) else best)
  {
    var i :| 0 <= i < |trace| && Abs(trace[i].f) == best;
    assert (trace + [s])[i] == trace[i] && (trace + [s])[|trace|] == s;
  }

  /** `root` lies inside one of the brackets tried, within its width halved once per bisection. */
  ghost predicate RootEnclosed(f: real -> real, x0: real, step: real, doubles: nat, maxIter: nat, root: real) {
    exists i: nat, n: nat :: i < doubles && n <= maxIter && EnclosedBy(f, x0, Width(step, i), n, root)
  }

  ghost predicate EnclosedBy(f: real -> real, x0: real, w: real, n: nat, root: real) {
    Encloses(f, x0 - w, x0 + w, root, 2.0 * w / Pow2(n))
  }

  /** None of the brackets tried has a sign change at its ends. */
  ghost predicate NoSignChange(f: real -> real, x0: real, step: real, doubles: nat) {
    forall i: nat :: i < doubles ==> !SignChange(f(x0 - Width(step, i)), f(x0 + Width(step, i)))
  }

  function NonNegative(n: int): nat { if n < 0 then 0 else n }

  /** The fallback: search for a bracket, then bisect it. The root is None when no bracket was found. */
  method BracketAndBisect(f: real -> real, x0: real, step: real, doubles: nat, tol: real, maxIter: int,
                          newton: seq<Sample>)
    returns (r: Option<Bisection>, trace: seq<Sample>, ghost evaluations: nat)
    requires OnGraph(f, newton)
    ensures r.None? ==> NoSignChange(f, x0, step, doubles)
    ensures r.Some? ==>
      && r.value.root.Some? && r.value.residual == f(r.value.root.value)
      && RootEnclosed(f, x0, step, doubles, NonNegative(maxIter), r.value.root.value)
    ensures OnGraph(f, trace) && newton <= trace
    ensures |trace| <= |newton| + 2 * doubles + NonNegative(maxIter)
    ensures evaluations <= 2 * doubles + NonNegative(maxIter) + 1
  {
    hide Width, Encloses, EnclosedBy, Pow2;
    var bracket, searched := ExpandBracket(f, x0, step, doubles, newton);
    evaluations := |searched| - |newton|;
    if bracket.None? { return None, searched, evaluations; }
    var k := bracket.value;
    ghost var i: nat :| i < doubles && k.lo == x0 - Width(step, i) && k.hi == x0 + Width(step, i);
    var bis;
    bis, trace := Bisect(f, k.lo, k.fLo, k.hi, k.fHi, tol, maxIter, searched);
    evaluations := evaluations + bis.iterations + 1;
    EnclosedFrom(f, x0, Width(step, i), k.lo, k.hi, bis.iterations, bis.root.value);
    r := Some(bis);
  }

  lemma EnclosedFrom(f: real -> real, x0: real, w: real, lo: real, hi: real, n: nat, root: real)
    requires lo == x0 - w && hi == x0 + w && Encloses(f, lo, hi, root, (hi - lo) / Pow2(n))
    ensures EnclosedBy(f, x0, w, n, root)
  {
    assert hi - lo == 2.0 * w;
  }

  method SolveNewton(f: real -> real, x0: real, opts: NewtonOptions) returns (r: NewtonResult, ghost evaluations: nat)
    ensures r.converged <==> r.root.Some? && Abs(f(r.root.value)) <= Tolerance(opts)
    ensures r.root.Some? ==> r.residual == f(r.root.value)
    ensures r.root.Some? && r.how.Newton? ==> r.converged
    ensures r.root.Some? && !r.how.Newton? ==>
      r.how.Bisected? && RootEnclosed(f, x0, InitialStep(opts), Brackets(opts), Iterations(opts), r.root.value)
    ensures r.root.None? ==> NoSignChange(f, x0, InitialStep(opts), Brackets(opts))
    ensures 1 + r.iterations <= |r.trace| && r.trace[0] == Sample(x0, f(x0)) && OnGraph(f, r.trace)
    ensures r.root.None? ==> Best(f, r.trace[..1 + r.iterations], r.residual)
    ensures r.iterations <= Iterations(opts)
    ensures |r.trace| <= 1 + 2 * Iterations(opts) + 2 * Brackets(opts)
    ensures evaluations <= 2 + 4 * Iterations(opts) + 2 * Brackets(opts)
  {
    hide Best, NoSignChange, RootEnclosed, OnGraph;
    var tol := Tolerance(opts);
    var maxIter := GetOr(opts.maxIter, DEFAULT_MAX_ITER);
    var step := InitialStep(opts);
    var fx := f(x0);
    evaluations := 1;
    if Abs(fx) <= tol {
      StartOnGraph(f, x0);
      return NewtonResult(Some(x0), 0, fx, true, [Sample(x0, fx)], Newton), evaluations;
    }
    var s, newton;
    s, newton, evaluations := NewtonSteps(f, x0, tol, maxIter, step);
    if s.found {
      return NewtonResult(Some(s.x), s.iterations, s.fx, true, newton, Newton), evaluations;
    }
    var bis, trace;
    ghost var more;
    bis, trace, more := BracketAndBisect(f, x0, step, Brackets(opts), tol, maxIter, newton);
    evaluations := evaluations + more;
    assert trace[..1 + s.iterations] == newton;
    if bis.None? {
      var via := if s.stalled then Neither else Newton;
      return NewtonResult(None, s.iterations, s.bestAbs, false, trace, via), evaluations;
    }
    r := NewtonResult(bis.value.root, s.iterations, bis.value.residual, Abs(bis.value.residual) <= tol, trace,
                      Bisected);
  }

  lemma StartOnGraph(f: real -> real, x0: real)
    ensures OnGraph(f, [Sample(x0, f(x0))])
  {
  }
}
