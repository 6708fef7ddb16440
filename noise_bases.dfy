/**
 * The two noise bases main draws before the noise is written: the
 * population base and the industry base, both randint(0, 65536), with the
 * industry base drawn again for as long as it equals the population base.
 */
module NoiseBases {
  import opened Common
  import opened Random

  /** The largest base drawn; the noise library itself only faults for inputs beyond 100000 in size. */
  const MaxBase := 65536

  /** randint(0, 65536) on the uniform u: randbelow(65537), since the range starts at 0 with step 1. */
  function Base(u: real): (b: int)
    requires 0.0 <= u < 1.0
    ensures 0 <= b <= MaxBase
  {
    Below(u, MaxBase + 1)
  }

  /** randint(0, 65536) always succeeds, with the base as its value. */
  lemma BaseDrawn(u: real)
    requires 0.0 <= u < 1.0
    ensures DrawInt(u, 0, MaxBase) == Ok(Base(u))
  {
    assert FloorDiv(MaxBase + 1, 1) == MaxBase + 1;
  }

  /**
   * Some later draw gives a base other than the one drawn at pos: without
   * that the loop in main never ends.
   */
  ghost predicate EventuallyDiffers(stream: UnitStream, pos: nat) {
    exists k: nat :: k > pos && Base(stream(k)) != Base(stream(pos))
  }

  /**
   * The population base is the draw at the starting position; the industry
   * base is the first later draw that differs from it, after every draw in
   * between gave the population base again.
   */
  method DrawBases(rng: Rng) returns (population: int, industry: int)
    requires EventuallyDiffers(rng.stream, rng.pos)
    modifies rng
    ensures population == Base(rng.stream(old(rng.pos)))
    ensures old(rng.pos) + 2 <= rng.pos && industry == Base(rng.stream(rng.pos - 1))
    ensures industry != population && 0 <= population <= MaxBase && 0 <= industry <= MaxBase
    ensures forall j :: old(rng.pos) < j < rng.pos - 1 ==> Base(rng.stream(j)) == population
  {
    ghost var start := rng.pos;
    ghost var k: nat :| k > start && Base(rng.stream(k)) != Base(rng.stream(start));
    population := DrawBase(rng);
    industry := DrawBase(rng);
    while population == industry
      invariant start + 2 <= rng.pos <= k + 1
      invariant population == Base(rng.stream(start)) && industry == Base(rng.stream(rng.pos - 1))
      invariant forall j :: start < j < rng.pos - 1 ==> Base(rng.stream(j)) == population
      decreases k + 1 - rng.pos
    {
      industry := DrawBase(rng);
    }
  }

  /** random.randint(0, 65536): never raises, and uses one value. */
  method DrawBase(rng: Rng) returns (b: int)
    modifies rng
    ensures b == Base(rng.stream(old(rng.pos))) && rng.pos == old(rng.pos) + 1
  {
    BaseDrawn(rng.stream(rng.pos));
    var r := rng.RandInt(0, MaxBase);
    b := r.value;
  }
}
