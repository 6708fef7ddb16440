/**
 * find_school_edges: the network's edges are sorted by the mean of their
 * centroid's coordinates, cut into consecutive districts of ceil(E / k) edges,
 * and from each district the edge of highest population number is chosen.
 */
module SchoolDistricts {
  import opened Common
  import opened Network
  import opened Sorting
  import opened Perlin

  /** The sort key: the mean of the centroid's two coordinates, not one coordinate alone. */
  function CentroidKey(e: Edge): (k: real)
    ensures var c := Centroid(e.shape); k == (c.x + c.y) / 2.0
  {
    var c := Centroid(e.shape);
    assert Sum([c.x]) == c.x by {
      assert [c.x][..0] == [];
    }
    assert [c.x, c.y][..1] == [c.x];
    Mean([c.x, c.y])
  }

  /** s cut into consecutive slices of d elements, the last one possibly shorter. */
  function Districts<T>(s: seq<T>, d: nat): (ds: seq<seq<T>>)
    requires d > 0
    decreases |s|
  {
    if s == [] then []
    else if |s| <= d then [s]
    else [s[..d]] + Districts(s[d..], d)
  }

  /** The districts one after the other. */
  function Concat<T>(ds: seq<seq<T>>): seq<T> {
    if ds == [] then [] else ds[0] + Concat(ds[1..])
  }

  /** There are ceil(|s| / d) districts. */
  lemma {:induction false} DistrictsCount<T>(s: seq<T>, d: nat)
    requires d > 0
    ensures |Districts(s, d)| == CeilDiv(|s|, d)
    decreases |s|
  {
    if s == [] {
      DivUnique(d - 1, d, 0, d - 1);
    } else if |s| <= d {
      DivUnique(|s| + d - 1, d, 1, |s| - 1);
    } else {
      assert Districts(s, d) == [s[..d]] + Districts(s[d..], d);
      DistrictsCount(s[d..], d);
      CeilDivStep(|s| - d, d);
    }
  }

  /** The districts are non-empty, all but the last hold exactly d elements and the last at most d. */
  lemma {:induction false} DistrictsSizes<T>(s: seq<T>, d: nat)
    requires d > 0
    ensures forall j :: 0 <= j < |Districts(s, d)| ==> 0 < |Districts(s, d)[j]| <= d
    ensures forall j :: 0 <= j < |Districts(s, d)| - 1 ==> |Districts(s, d)[j]| == d
    decreases |s|
  {
    if |s| > d {
      var rest := Districts(s[d..], d);
      DistrictsSizes(s[d..], d);
      var ds := [s[..d]] + rest;
      assert Districts(s, d) == ds;
      assert forall j :: 1 <= j < |ds| ==> ds[j] == rest[j - 1];
    } else if s != [] {
      assert Districts(s, d) == [s];
    }
  }

  /** Joined one after the other, the districts give back s. */
  lemma {:induction false} DistrictsConcat<T>(s: seq<T>, d: nat)
    requires d > 0
    ensures Concat(Districts(s, d)) == s
    decreases |s|
  {
    if s != [] && |s| <= d {
      assert Concat([s]) == s + Concat([]);
    } else if |s| > d {
      var rest := Districts(s[d..], d);
      DistrictsConcat(s[d..], d);
      var ds := [s[..d]] + rest;
      assert ds[1..] == rest;
      assert s == s[..d] + s[d..];
    }
  }

  /** (x + d) / d is x / d + 1 for a non-negative x and positive d. */
  lemma CeilDivStep(a: nat, d: nat)
    requires d > 0
    ensures CeilDiv(a + d, d) == CeilDiv(a, d) + 1
  {
    var x := a + d - 1;
    var q, r := x / d, x % d;
    assert x == q * d + r && 0 <= r < d;
    assert x + d == (q + 1) * d + r;
    DivUnique(x + d, d, q + 1, r);
  }

  /** Euclidean division is unique: x = m * d + r with 0 <= r < d gives x / d == m. */
  lemma DivUnique(x: int, d: nat, m: int, r: int)
    requires d > 0 && 0 <= r < d && x == m * d + r
    ensures x / d == m
  {
    var q, r2 := x / d, x % d;
    assert x == q * d + r2 && 0 <= r2 < d;
    assert (q - m) * d == r - r2 by {
      assert (q - m) * d == q * d - m * d;
    }
    if q - m >= 1 {
      MulMonoLeft(1, q - m, d);
    } else if q - m <= -1 {
      MulMonoLeft(q - m, -1, d);
    }
  }

  /**
   * With d = ceil(E / k) for k > 0 districts wanted, there are
   * ceil(E / d) <= k districts, and at least one when E > 0.
   */
  lemma DistrictCount(e: nat, k: nat)
    requires k > 0 && e > 0
    ensures CeilDiv(e, k) > 0
    ensures 0 < CeilDiv(e, CeilDiv(e, k)) <= k
  {
    var d := CeilDiv(e, k);
    CeilDivPositive(e, k);
    var c := CeilDiv(e, d);
    CeilDivPositive(e, d);
    assert (c - 1) * d < e <= d * k;
    if c > k {
      MulMonoLeft(k, c - 1, d);
    }
  }

  /** A positive dividend needs at least one divisor's worth. */
  lemma CeilDivPositive(a: nat, b: nat)
    requires a > 0 && b > 0
    ensures CeilDiv(a, b) > 0
  {
    ProductPositive(CeilDiv(a, b), b);
  }

  lemma ProductPositive(c: nat, b: nat)
    requires c * b > 0
    ensures c > 0
  {
  }

  lemma MulMonoLeft(a: int, b: int, d: nat)
    requires a <= b
    ensures a * d <= b * d
  {
    assert b * d - a * d == (b - a) * d;
  }

  /** For every district in order, its last element once sorted by population number. */
  function Picks(ds: seq<seq<Edge>>, pop: Edge -> real): (r: seq<Edge>)
    requires forall j :: 0 <= j < |ds| ==> |ds[j]| > 0
    ensures |r| == |ds|
  {
    if ds == [] then []
    else
      var last := ds[|ds| - 1];
      Picks(ds[..|ds| - 1], pop) + [SortBy(last, pop)[|last| - 1]]
  }

  /** The pick for district j is the last element of maximal key in it. */
  lemma {:induction false} PicksAt(ds: seq<seq<Edge>>, pop: Edge -> real, j: nat)
    requires forall m :: 0 <= m < |ds| ==> |ds[m]| > 0
    requires j < |ds|
    ensures Picks(ds, pop)[j] == ds[j][LastMaxBy(ds[j], pop)]
    decreases |ds|
  {
    var n := |ds|;
    if j < n - 1 {
      PicksAt(ds[..n - 1], pop, j);
    } else {
      SortedLastIsLastMax(ds[j], pop);
    }
  }

  /**
   * find_school_edges over the edge list: an error when there are no edges,
   * otherwise one pick per district of the centroid-sorted edges.
   */
  function SchoolEdges(edges: seq<Edge>, k: int, pop: Edge -> real): Result<seq<Edge>>
    requires k > 0
  {
    var size := CeilDiv(|edges|, k);
    if size == 0 then Err(ZeroStep)
    else
      var sorted := SortBy(edges, CentroidKey);
      DistrictsSizes(sorted, size);
      Ok(Picks(Districts(sorted, size), pop))
  }

  /** The sorted edges cut into districts, as find_school_edges forms them. */
  function DistrictsOf(edges: seq<Edge>, k: int): seq<seq<Edge>>
    requires k > 0 && edges != []
  {
    DistrictCount(|edges|, k);
    Districts(SortBy(edges, CentroidKey), CeilDiv(|edges|, k))
  }

  /**
   * Without edges the slicing raises; otherwise there are between one and k
   * picks, one per district.
   */
  lemma SchoolEdgesCount(edges: seq<Edge>, k: int, pop: Edge -> real)
    requires k > 0
    ensures SchoolEdges(edges, k, pop).Err? <==> edges == []
    ensures SchoolEdges(edges, k, pop).Err? ==> SchoolEdges(edges, k, pop).error == ZeroStep
    ensures SchoolEdges(edges, k, pop).Ok? ==>
      && |SchoolEdges(edges, k, pop).value| == |DistrictsOf(edges, k)| == CeilDiv(|edges|, CeilDiv(|edges|, k))
      && 0 < |SchoolEdges(edges, k, pop).value| <= k
  {
    if edges != [] {
      DistrictCount(|edges|, k);
      DistrictsCount(SortBy(edges, CentroidKey), CeilDiv(|edges|, k));
    }
  }

  /**
   * Ten edges for six schools: districts of two edges, so only five school
   * edges come back.
   */
  lemma TenEdgesSixSchools(edges: seq<Edge>, pop: Edge -> real)
    requires |edges| == 10
    ensures SchoolEdges(edges, 6, pop).Ok? && |SchoolEdges(edges, 6, pop).value| == 5
  {
    SchoolEdgesCount(edges, 6, pop);
    assert CeilDiv(10, 6) == 2 && CeilDiv(10, 2) == 5;
  }

  /**
   * The districts are consecutive slices of the edges sorted by centroid key,
   * which hold every edge exactly once; pick j lies in district j and no edge
   * of that district has a higher population number.
   */
  lemma SchoolEdgesPick(edges: seq<Edge>, k: int, pop: Edge -> real)
    requires k > 0 && edges != []
    ensures var ds := DistrictsOf(edges, k);
      && Concat(ds) == SortBy(edges, CentroidKey)
      && multiset(Concat(ds)) == multiset(edges)
      && SortedBy(Concat(ds), CentroidKey)
      && (forall j :: 0 <= j < |ds| ==> 0 < |ds[j]| <= CeilDiv(|edges|, k))
      && SchoolEdges(edges, k, pop).Ok?
      && forall j :: 0 <= j < |ds| ==>
           var pick := SchoolEdges(edges, k, pop).value[j];
           && pick in ds[j]
           && forall x :: x in ds[j] ==> pop(x) <= pop(pick)
  {
    var sorted := SortBy(edges, CentroidKey);
    var d := CeilDiv(|edges|, k);
    DistrictCount(|edges|, k);
    DistrictsSizes(sorted, d);
    DistrictsConcat(sorted, d);
    SortByCorrect(edges, CentroidKey);
    var ds := DistrictsOf(edges, k);
    forall j | 0 <= j < |ds|
      ensures SchoolEdges(edges, k, pop).value[j] in ds[j]
      ensures forall x :: x in ds[j] ==> pop(x) <= pop(SchoolEdges(edges, k, pop).value[j])
    {
      PicksAt(ds, pop, j);
    }
  }

  /**
   * find_school_edges: sorts the edges, cuts them into districts and keeps
   * the last edge of each district once that is sorted by population number.
   */
  method FindSchoolEdges(net: Net, k: int, pop: Edge -> real) returns (r: Result<seq<Edge>>)
    requires k > 0
    ensures r == SchoolEdges(net.edges, k, pop)
  {
    var edges := SortBy(net.edges, CentroidKey);
    var size := CeilDiv(|edges|, k);
    if size == 0 {
      return Err(ZeroStep);
    }
    var districts := Districts(edges, size);
    DistrictsSizes(edges, size);
    var picks := [];
    for j := 0 to |districts|
      invariant picks == Picks(districts[..j], pop)
    {
      var district := SortBy(districts[j], pop);
      picks := picks + [district[|district| - 1]];
      assert districts[..j + 1][..j] == districts[..j] && districts[..j + 1][j] == districts[j];
      assert Picks(districts[..j + 1], pop) == Picks(districts[..j], pop) + [district[|district| - 1]];
    }
    assert districts[..|districts|] == districts;
    return Ok(picks);
  }
}
