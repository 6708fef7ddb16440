/**
 * Python's random module as the generator uses it: one shared generator whose
 * draws are consumed in program order. Each draw is one uniform value from
 * [0, 1); randint and randrange map it onto their range the way
 * randrange(start, stop, step) = start + step * randbelow(n) does.
 */
module Random {
  import opened Common

  /** The generator's output: the k-th uniform value it yields. */
  type UnitStream = f: nat -> real | forall k: nat :: 0.0 <= f(k) < 1.0 witness (k: nat) => 0.0

  /** randbelow(n): an integer in [0, n) chosen by the uniform u. */
  function Below(u: real, n: int): (r: int)
    requires 0.0 <= u < 1.0 && n > 0
    ensures 0 <= r < n
  {
    var x := u * n as real;
    UnitScaled(u, n as real);
    assert x.Floor as real <= x < n as real;
    x.Floor
  }

  /** A value of [0, 1) scaled by a positive x lies in [0, x). */
  lemma UnitScaled(u: real, x: real)
    requires 0.0 <= u < 1.0 && x > 0.0
    ensures 0.0 <= u * x < x
  {
    RealMulNonNeg(u, x);
    RealMulPos(1.0 - u, x);
    assert x - u * x == (1.0 - u) * x;
  }

  lemma RealMulNonNeg(a: real, b: real)
    requires a >= 0.0 && b >= 0.0
    ensures a * b >= 0.0
  {
  }

  lemma RealMulPos(a: real, b: real)
    requires a > 0.0 && b > 0.0
    ensures a * b > 0.0
  {
  }

  /** v is one of the values range(start, stop, step) yields. */
  predicate InRange(v: int, start: int, stop: int, step: int) {
    || (step > 0 && start <= v < stop && (v - start) % step == 0)
    || (step < 0 && stop < v <= start && (start - v) % (-step) == 0)
  }

  /** For a positive step s, the count (w + s - 1) // s is positive iff w > 0. */
  lemma CountPositive(w: int, s: int)
    requires s > 0
    ensures FloorDiv(w + s - 1, s) > 0 <==> w > 0
  {
    var q := FloorDiv(w + s - 1, s);
    if q > 0 {
      assert q * s >= s by { MulMono(q, s); }
    }
    if w > 0 && q <= 0 {
      assert q * s <= 0 by { MulNonPos(q, s); }
    }
  }

  lemma MulMono(q: int, s: int)
    requires q >= 1 && s > 0
    ensures q * s >= s
  {
    assert q * s == (q - 1) * s + s;
    assert (q - 1) * s >= 0;
  }

  lemma MulNonPos(q: int, s: int)
    requires q <= 0 && s > 0
    ensures q * s <= 0
  {
  }

  /** The k-th value of a range with positive step s lies below the width w, on the grid. */
  lemma StepWithin(w: int, s: int, k: int)
    requires s > 0 && 0 <= k < FloorDiv(w + s - 1, s)
    ensures 0 <= s * k < w && (s * k) % s == 0
  {
    var q := FloorDiv(w + s - 1, s);
    assert q * s <= w + s - 1;
    MulNonNeg(s, q - 1 - k);
    assert s * (q - 1 - k) == q * s - s - s * k;
    MulNonNeg(s, k);
    ModMultiple(s, k);
  }

  lemma MulNonNeg(a: int, b: int)
    requires a >= 0 && b >= 0
    ensures a * b >= 0
  {
  }

  lemma ModMultiple(s: int, k: int)
    requires s > 0 && k >= 0
    ensures (s * k) % s == 0
  {
    var q, r := (s * k) / s, (s * k) % s;
    assert s * k == s * q + r && 0 <= r < s;
    assert r == s * (k - q);
    if k - q >= 1 {
      MulMono(k - q, s);
    } else if k - q <= -1 {
      MulMono(q - k, s);
    }
  }

  /** random.randrange(start, stop, step) on the uniform u. */
  function DrawRange(u: real, start: int, stop: int, step: int): (r: Result<int>)
    requires 0.0 <= u < 1.0
    ensures r.Ok? <==> (step > 0 && start < stop) || (step < 0 && stop < start)
    ensures step == 0 ==> r == Err(ZeroStep)
    ensures step != 0 && r.Err? ==> r.error == EmptyRange
    ensures r.Ok? ==> InRange(r.value, start, stop, step)
  {
    if step == 0 then Err(ZeroStep)
    else if step > 0 then DrawUp(u, start, stop, step)
    else DrawDown(u, start, stop, step)
  }

  /** randrange with a positive step: n = (stop - start + step - 1) // step values. */
  function DrawUp(u: real, start: int, stop: int, step: int): (r: Result<int>)
    requires 0.0 <= u < 1.0 && step > 0
    ensures r.Ok? <==> start < stop
    ensures r.Err? ==> r.error == EmptyRange
    ensures r.Ok? ==> InRange(r.value, start, stop, step)
  {
    var width := stop - start;
    var n := FloorDiv(width + step - 1, step);
    CountPositive(width, step);
    if n <= 0 then Err(EmptyRange)
    else
      var k := Below(u, n);
      StepWithin(width, step, k);
      Ok(start + step * k)
  }

  /** randrange with a negative step: n = (stop - start + step + 1) // step values. */
  function DrawDown(u: real, start: int, stop: int, step: int): (r: Result<int>)
    requires 0.0 <= u < 1.0 && step < 0
    ensures r.Ok? <==> stop < start
    ensures r.Err? ==> r.error == EmptyRange
    ensures r.Ok? ==> InRange(r.value, start, stop, step)
  {
    var width := stop - start;
    var n := FloorDiv(width + step + 1, step);
    FloorDivNegated(width + step + 1, step);
    CountPositive(-width, -step);
    if n <= 0 then Err(EmptyRange)
    else
      var k := Below(u, n);
      StepWithin(-width, -step, k);
      MulNegated(step, k);
      Ok(start + step * k)
  }

  lemma FloorDivNegated(a: int, b: int)
    requires b < 0
    ensures FloorDiv(a, b) == FloorDiv(-a, -b)
  {
  }

  lemma MulNegated(a: int, b: int)
    ensures (-a) * b == -(a * b)
  {
  }

  /** random.randint(a, b), which is randrange(a, b + 1). */
  function DrawInt(u: real, a: int, b: int): (r: Result<int>)
    requires 0.0 <= u < 1.0
    ensures r.Ok? <==> a <= b
    ensures r.Err? ==> r.error == EmptyRange
    ensures r.Ok? ==> a <= r.value <= b
  {
    DrawRange(u, a, b + 1, 1)
  }

  /** The shared generator: its stream and how many values have been drawn. */
  class Rng {
    const stream: UnitStream
    var pos: nat

    constructor (stream: UnitStream)
      ensures this.stream == stream && pos == 0
    {
      this.stream := stream;
      pos := 0;
    }

    /** random.random() */
    method Random() returns (u: real)
      modifies this`pos
      ensures u == stream(old(pos)) && pos == old(pos) + 1
    {
      u := stream(pos);
      pos := pos + 1;
    }

    /** random.randint(a, b): raises before drawing when the range is empty. */
    method RandInt(a: int, b: int) returns (r: Result<int>)
      modifies this`pos
      ensures r == DrawInt(stream(old(pos)), a, b)
      ensures pos == old(pos) + (if r.Ok? then 1 else 0)
    {
      r := DrawInt(stream(pos), a, b);
      if r.Ok? {
        pos := pos + 1;
      }
    }

    /** random.randrange(start, stop, step): raises before drawing on a zero step or an empty range. */
    method RandRange(start: int, stop: int, step: int) returns (r: Result<int>)
      modifies this`pos
      ensures r == DrawRange(stream(old(pos)), start, stop, step)
      ensures pos == old(pos) + (if r.Ok? then 1 else 0)
    {
      r := DrawRange(stream(pos), start, stop, step);
      if r.Ok? {
        pos := pos + 1;
      }
    }
  }
}
