/**
 * The noise helpers: a float range generator, the vertex-mean centroid of an
 * edge shape, the rescaling of raw noise into [0, 1], and the pass that
 * writes each edge's population weight onto its street record.
 */
module Perlin {
  import opened Common
  import opened Network
  import opened StatsTree

  /**
   * The start of a drange. An int or a Decimal start is exact and becomes a
   * Decimal at the first step; a float start cannot have a Decimal added to
   * it, so the first step raises a TypeError.
   */
  datatype Start = Exact(x: real) | Float(x: real)

  /**
   * drange(x, y, jump): yields x, x + jump, x + 2 * jump, ... while the value
   * is below y, the jump added as an exact Decimal. A float start yields
   * its first value and then raises. An exact start with a non-positive jump
   * and x < y never stops, so it is excluded.
   */
  method DRange(start: Start, y: real, jump: real) returns (xs: seq<real>, r: Outcome)
    requires jump > 0.0 || start.x >= y || start.Float?
    ensures start.Float? && start.x < y ==> xs == [start.x] && r == Fail(UnsupportedOperand)
    ensures start.Exact? || start.x >= y ==> r == Pass
    ensures r == Pass ==>
      && (forall i :: 0 <= i < |xs| ==> xs[i] == start.x + i as real * jump && xs[i] < y)
      && (forall i, j :: 0 <= i < j < |xs| ==> xs[i] < xs[j])
      && start.x + |xs| as real * jump >= y
    ensures start.x >= y <==> xs == []
  {
    var x := start.x;
    ghost var steps := StepsToReach(y - x, jump);
    xs := [];
    var cur := x;
    while cur < y
      invariant start.Float? ==> xs == []
      invariant jump > 0.0 || xs == []
      invariant cur == x + |xs| as real * jump
      invariant forall i :: 0 <= i < |xs| ==> xs[i] == x + i as real * jump && xs[i] < y
      invariant jump > 0.0 ==> y - x <= steps as real * jump
      decreases steps - |xs|
    {
      if start.Float? {
        xs := [cur];
        return xs, Fail(UnsupportedOperand);
      }
      FewerSteps(steps - |xs|, jump, y - cur);
      assert (|xs| + 1) as real * jump == |xs| as real * jump + jump;
      xs := xs + [cur];
      cur := cur + jump;
    }
    if xs != [] {
      assert xs[0] == x;
      GridIncreasing(xs, x, jump);
    }
    r := Pass;
  }

  /** Values on the grid x + i * jump grow with i when jump is positive. */
  lemma GridIncreasing(xs: seq<real>, x: real, jump: real)
    requires jump > 0.0
    requires forall i :: 0 <= i < |xs| ==> xs[i] == x + i as real * jump
    ensures forall i, j :: 0 <= i < j < |xs| ==> xs[i] < xs[j]
  {
    forall i, j | 0 <= i < j < |xs|
      ensures xs[i] < xs[j]
    {
      assert xs[j] - xs[i] == (j - i) as real * jump;
    }
  }

  /** A number of steps of size jump that covers the gap. */
  lemma StepsToReach(gap: real, jump: real) returns (n: nat)
    ensures jump > 0.0 ==> gap <= n as real * jump
  {
    n := 0;
    if jump > 0.0 && gap > 0.0 {
      n := Ceil(gap / jump);
      assert gap / jump <= n as real;
      assert (gap / jump) * jump == gap;
    }
  }

  /** While a gap remains, some of the counted steps remain. */
  lemma FewerSteps(left: int, jump: real, gap: real)
    requires jump > 0.0 && gap > 0.0 && gap <= left as real * jump
    ensures left > 0
  {
  }

  function Sum(xs: seq<real>): real {
    if xs == [] then 0.0 else Sum(xs[..|xs| - 1]) + xs[|xs| - 1]
  }

  lemma {:induction false} SumAbove(xs: seq<real>, m: real)
    requires |xs| > 0 && forall i :: 0 <= i < |xs| ==> m < xs[i]
    ensures |xs| as real * m < Sum(xs)
    decreases |xs|
  {
    if |xs| > 1 {
      SumAbove(xs[..|xs| - 1], m);
    }
  }

  lemma {:induction false} SumBelow(xs: seq<real>, m: real)
    requires |xs| > 0 && forall i :: 0 <= i < |xs| ==> xs[i] < m
    ensures Sum(xs) < |xs| as real * m
    decreases |xs|
  {
    if |xs| > 1 {
      SumBelow(xs[..|xs| - 1], m);
    }
  }

  lemma MeanBetween(xs: seq<real>, m: real)
    requires |xs| > 0 && |xs| as real * m == Sum(xs)
    ensures exists i :: 0 <= i < |xs| && xs[i] <= m
    ensures exists j :: 0 <= j < |xs| && m <= xs[j]
  {
    if forall i :: 0 <= i < |xs| ==> m < xs[i] {
      SumAbove(xs, m);
    }
    if forall i :: 0 <= i < |xs| ==> xs[i] < m {
      SumBelow(xs, m);
    }
  }

  /** np.mean: it lies between the smallest and the largest value. */
  function Mean(xs: seq<real>): (m: real)
    requires |xs| > 0
    ensures exists i :: 0 <= i < |xs| && xs[i] <= m
    ensures exists j :: 0 <= j < |xs| && m <= xs[j]
    ensures |xs| == 1 ==> m == xs[0]
  {
    var m := Sum(xs) / |xs| as real;
    MeanBetween(xs, m);
    assert |xs| == 1 ==> Sum(xs) == xs[0] by {
      if |xs| == 1 {
        assert xs[..0] == [];
      }
    }
    m
  }

  function Xs(ps: seq<Point>): seq<real>
  {
    seq(|ps|, i requires 0 <= i < |ps| => ps[i].x)
  }

  function Ys(ps: seq<Point>): seq<real>
  {
    seq(|ps|, i requires 0 <= i < |ps| => ps[i].y)
  }

  /**
   * get_edge_pair_centroid: the mean of the shape's x values and the mean of
   * its y values (not weighted by segment length).
   */
  function Centroid(shape: Shape): (c: Point)
    ensures exists i :: 0 <= i < |shape| && shape[i].x <= c.x
    ensures exists i :: 0 <= i < |shape| && c.x <= shape[i].x
    ensures exists i :: 0 <= i < |shape| && shape[i].y <= c.y
    ensures exists i :: 0 <= i < |shape| && c.y <= shape[i].y
    ensures |shape| == 1 ==> c == shape[0]
  {
    Point(Mean(Xs(shape)), Mean(Ys(shape)))
  }

  /** scale_noise: maps the noise library's [-1, 1] onto [0, 1]. */
  function ScaleNoise(n: real): (r: real)
    ensures 2.0 * r - 1.0 == n
    ensures -1.0 <= n <= 1.0 ==> 0.0 <= r <= 1.0
  {
    (n + 1.0) / 2.0
  }

  lemma ScaleNoiseMonotone(a: real, b: real)
    requires a <= b
    ensures ScaleNoise(a) <= ScaleNoise(b)
  {
  }

  lemma ScaleNoiseEnds()
    ensures ScaleNoise(-1.0) == 0.0 && ScaleNoise(0.0) == 0.5 && ScaleNoise(1.0) == 1.0
  {
  }

  /**
   * get_population_number: the rescaled noise at the edge's centroid; noise
   * stands for the foreign noise.pnoise2.
   */
  function PopulationNumber(e: Edge, noise: (real, real) -> real): (p: real)
    ensures var c := Centroid(e.shape); -1.0 <= noise(c.x, c.y) <= 1.0 ==> 0.0 <= p <= 1.0
  {
    var c := Centroid(e.shape);
    ScaleNoise(noise(c.x, c.y))
  }

  /** One step of the inner loop: a street record naming the edge id gets population v; any other record is left alone. */
  function MarkStreet(e: Element, id: string, v: real): Element {
    if e.tag == "street" && "edge" in e.attrib && e.attrib["edge"] == Text(id)
    then e.(attrib := e.attrib["population" := Num(v)])
    else e
  }

  function MarkStreets(cs: seq<Element>, id: string, v: real): seq<Element>
  {
    seq(|cs|, j requires 0 <= j < |cs| => MarkStreet(cs[j], id, v))
  }

  /** One record after the passes for every edge of es, in order. */
  function PopulateOne(e: Element, es: seq<Edge>, noise: (real, real) -> real): Element {
    if es == [] then e
    else
      var last := es[|es| - 1];
      MarkStreet(PopulateOne(e, es[..|es| - 1], noise), last.id, PopulationNumber(last, noise))
  }

  function PopulateStreets(cs: seq<Element>, es: seq<Edge>, noise: (real, real) -> real): seq<Element>
  {
    seq(|cs|, j requires 0 <= j < |cs| => PopulateOne(cs[j], es, noise))
  }

  /** A street record without an edge attribute, on which the lookup of that attribute raises. */
  predicate Unkeyed(e: Element) {
    e.tag == "street" && "edge" !in e.attrib
  }

  function FirstUnkeyed(cs: seq<Element>): (r: Option<nat>)
    ensures r.Some? ==> r.value < |cs| && Unkeyed(cs[r.value])
    ensures r.Some? ==> forall j :: 0 <= j < r.value ==> !Unkeyed(cs[j])
    ensures r.None? <==> forall j :: 0 <= j < |cs| ==> !Unkeyed(cs[j])
  {
    if cs == [] then None
    else if Unkeyed(cs[0]) then Some(0)
    else
      match FirstUnkeyed(cs[1..])
      case None =>
        assert forall j :: 1 <= j < |cs| ==> cs[j] == cs[1..][j - 1];
        None
      case Some(k) => Some(k + 1)
  }

  /**
   * calculate_network_population without its file write: the outcome and the
   * tree afterwards. With no edge nothing is read. Otherwise a missing
   * streets section raises at once, and a street without an edge attribute
   * raises during the first edge's pass, after the streets before it were
   * handled.
   */
  function NetworkPopulation(root: Element, es: seq<Edge>, noise: (real, real) -> real): (Outcome, Element) {
    if es == [] then (Pass, root)
    else
      match FindChild(root.children, "streets")
      case None => (Fail(MissingSection("streets")), root)
      case Some(s) =>
        var cs := root.children[s].children;
        match FirstUnkeyed(cs)
        case Some(b) =>
          var partial := MarkStreets(cs[..b], es[0].id, PopulationNumber(es[0], noise)) + cs[b..];
          (Fail(MissingAttribute("edge")), ReplaceSection(root, s, partial))
        case None => (Pass, ReplaceSection(root, s, PopulateStreets(cs, es, noise)))
  }

  /**
   * The inner loop of calculate_network_population for one edge: sets the
   * population of each street naming the edge, and raises at the first
   * street without an edge attribute.
   */
  method MarkStreetsPass(doc: Stats, s: nat, id: string, pop: real) returns (r: Outcome)
    requires s < |doc.root.children|
    modifies doc
    ensures FirstUnkeyed(old(doc.root).children[s].children).None? ==>
      r == Pass && doc.root == MarkedUpTo(old(doc.root), s, |old(doc.root).children[s].children|, id, pop)
    ensures FirstUnkeyed(old(doc.root).children[s].children).Some? ==>
      && r == Fail(MissingAttribute("edge"))
      && doc.root == MarkedUpTo(old(doc.root), s, FirstUnkeyed(old(doc.root).children[s].children).value, id, pop)
  {
    ghost var start := doc.root;
    ghost var cs := doc.root.children[s].children;
    MarkedNone(start, s, id, pop);
    var j := 0;
    while j < |doc.root.children[s].children|
      invariant j <= |cs|
      invariant doc.root == MarkedUpTo(start, s, j, id, pop)
      invariant forall i :: 0 <= i < j ==> !Unkeyed(cs[i])
    {
      var street := doc.root.children[s].children[j];
      MarkedAt(start, s, j, id, pop);
      if street.tag == "street" && "edge" !in street.attrib {
        FirstUnkeyedAt(cs, j);
        return Fail(MissingAttribute("edge"));
      }
      MarkRecord(doc, s, j, id, pop, start);
      j := j + 1;
    }
    assert FirstUnkeyed(cs).None?;
    return Pass;
  }

  /**
   * The root once the inner loop has handled the first j records of section
   * s: those records marked for the edge, the later ones as they were.
   */
  ghost function MarkedUpTo(start: Element, s: nat, j: nat, id: string, pop: real): (r: Element)
    requires s < |start.children| && j <= |start.children[s].children|
    ensures |r.children| == |start.children|
    ensures |r.children[s].children| == |start.children[s].children|
  {
    var cs := start.children[s].children;
    ReplaceSection(start, s, MarkStreets(cs[..j], id, pop) + cs[j..])
  }

  /** The record the loop is about to handle is still as it was. */
  lemma MarkedAt(start: Element, s: nat, j: nat, id: string, pop: real)
    requires s < |start.children| && j < |start.children[s].children|
    ensures MarkedUpTo(start, s, j, id, pop).children[s].children[j] == start.children[s].children[j]
  {
    MarkStreetsStep(start.children[s].children, j, id, pop);
  }

  lemma MarkedNone(start: Element, s: nat, id: string, pop: real)
    requires s < |start.children|
    ensures MarkedUpTo(start, s, 0, id, pop) == start
  {
    var cs := start.children[s].children;
    assert MarkStreets(cs[..0], id, pop) + cs[0..] == cs;
    ReplaceSectionSame(start, s);
  }

  lemma MarkedAll(start: Element, s: nat, id: string, pop: real)
    requires s < |start.children|
    ensures MarkedUpTo(start, s, |start.children[s].children|, id, pop)
         == ReplaceSection(start, s, MarkStreets(start.children[s].children, id, pop))
  {
    var cs := start.children[s].children;
    assert cs[..|cs|] == cs && cs[|cs|..] == [];
    assert MarkStreets(cs, id, pop) + [] == MarkStreets(cs, id, pop);
  }

  /** The first street without an edge attribute is where the pass raises. */
  lemma FirstUnkeyedAt(cs: seq<Element>, j: nat)
    requires j < |cs| && Unkeyed(cs[j])
    requires forall i :: 0 <= i < j ==> !Unkeyed(cs[i])
    ensures FirstUnkeyed(cs) == Some(j)
  {
  }

  /** One iteration of the inner loop on a record that has its edge attribute when it is a street. */
  method MarkRecord(doc: Stats, s: nat, j: nat, id: string, pop: real, ghost start: Element)
    requires s < |start.children| && j < |start.children[s].children| && !Unkeyed(start.children[s].children[j])
    requires doc.root == MarkedUpTo(start, s, j, id, pop)
    modifies doc
    ensures doc.root == MarkedUpTo(start, s, j + 1, id, pop)
  {
    ghost var cs := start.children[s].children;
    ghost var now := MarkStreets(cs[..j], id, pop) + cs[j..];
    ghost var next := MarkStreets(cs[..j + 1], id, pop) + cs[j + 1..];
    MarkStreetsStep(cs, j, id, pop);
    var street := doc.root.children[s].children[j];
    if street.tag == "street" && street.attrib["edge"] == Text(id) {
      doc.SetRecord(s, j, street.(attrib := street.attrib["population" := Num(pop)]));
      ReplaceSectionTwice(start, s, now, next);
    } else {
      assert now[j := now[j]] == now;
    }
  }

  /** One more record handled: the record at j is marked, everything else stays. */
  lemma MarkStreetsStep(cs: seq<Element>, j: nat, id: string, v: real)
    requires j < |cs|
    ensures var now := MarkStreets(cs[..j], id, v) + cs[j..];
      && now[j] == cs[j]
      && MarkStreets(cs[..j + 1], id, v) + cs[j + 1..] == now[j := MarkStreet(cs[j], id, v)]
  {
  }

  /** The nested loop of calculate_network_population over the edges and the street records. */
  method CalculateNetworkPopulation(net: Net, doc: Stats, noise: (real, real) -> real) returns (r: Outcome)
    modifies doc
    ensures (r, doc.root) == NetworkPopulation(old(doc.root), net.edges, noise)
  {
    ghost var start := doc.root;
    var es := net.edges;
    if es == [] {
      return Pass;
    }
    var found := FindChild(doc.root.children, "streets");
    if found.None? {
      return Fail(MissingSection("streets"));
    }
    var s := found.value;
    ghost var cs := start.children[s].children;
    assert PopulateStreets(cs, es[..0], noise) == cs;
    ReplaceSectionSame(start, s);
    for k := 0 to |es|
      invariant k > 0 ==> FirstUnkeyed(cs).None?
      invariant doc.root == ReplaceSection(start, s, PopulateStreets(cs, es[..k], noise))
    {
      // the streets are looked up again for every edge; the pass changes no tag, so it finds the same section
      found := FindChild(doc.root.children, "streets");
      FindChildByTags(start.children, doc.root.children, "streets");
      var edge := es[k];
      var pop := PopulationNumber(edge, noise);
      ghost var before := doc.root;
      ghost var done := PopulateStreets(cs, es[..k], noise);
      r := MarkStreetsPass(doc, s, edge.id, pop);
      MarkedAll(before, s, edge.id, pop);
      ReplaceSectionTwice(start, s, done, doc.root.children[s].children);
      if r.Fail? {
        if k > 0 {
          MarkedStaysKeyed(cs, es[..k], noise);
          assert false;
        }
        assert done == cs;
        return r;
      }
      PopulateStep(cs, es, k, noise);
    }
    assert es[..|es|] == es;
    return Pass;
  }

  /** The pass for edge k, applied after the passes for the edges before it. */
  lemma PopulateStep(cs: seq<Element>, es: seq<Edge>, k: nat, noise: (real, real) -> real)
    requires k < |es|
    ensures MarkStreets(PopulateStreets(cs, es[..k], noise), es[k].id, PopulationNumber(es[k], noise))
         == PopulateStreets(cs, es[..k + 1], noise)
  {
    assert es[..k + 1][..k] == es[..k];
  }

  /** The passes set attributes only, so streets that had an edge attribute keep it. */
  lemma MarkedStaysKeyed(cs: seq<Element>, es: seq<Edge>, noise: (real, real) -> real)
    requires FirstUnkeyed(cs).None?
    ensures FirstUnkeyed(PopulateStreets(cs, es, noise)).None?
  {
    forall j | 0 <= j < |cs|
      ensures !Unkeyed(PopulateOne(cs[j], es, noise))
    {
      PopulateOneKeyed(cs[j], es, noise);
    }
  }

  lemma {:induction false} PopulateOneKeyed(e: Element, es: seq<Edge>, noise: (real, real) -> real)
    requires !Unkeyed(e)
    ensures !Unkeyed(PopulateOne(e, es, noise))
    decreases |es|
  {
    if es != [] {
      PopulateOneKeyed(e, es[..|es| - 1], noise);
    }
  }

  /** Each street whose edge attribute names an edge carries that edge's population afterwards. */
  lemma {:induction false} PopulateOneMatch(e: Element, es: seq<Edge>, k: nat, noise: (real, real) -> real)
    requires k < |es| && forall a, b :: 0 <= a < b < |es| ==> es[a].id != es[b].id
    requires e.tag == "street" && "edge" in e.attrib && e.attrib["edge"] == Text(es[k].id)
    ensures PopulateOne(e, es, noise) == e.(attrib := e.attrib["population" := Num(PopulationNumber(es[k], noise))])
    decreases |es|
  {
    var front := es[..|es| - 1];
    if k == |es| - 1 {
      PopulateOneNoMatch(e, front, noise);
    } else {
      PopulateOneMatch(e, front, k, noise);
    }
  }

  /** A record that is not a street of any of the edges is left as it was. */
  lemma {:induction false} PopulateOneNoMatch(e: Element, es: seq<Edge>, noise: (real, real) -> real)
    requires !(e.tag == "street" && "edge" in e.attrib && exists k :: 0 <= k < |es| && e.attrib["edge"] == Text(es[k].id))
    ensures PopulateOne(e, es, noise) == e
    decreases |es|
  {
    if es != [] {
      var front := es[..|es| - 1];
      assert forall k :: 0 <= k < |front| ==> front[k] == es[k];
      PopulateOneNoMatch(e, front, noise);
    }
  }

  /**
   * After a successful pass, with edge ids unique as in a network, every
   * street record naming a network edge carries that edge's population and
   * nothing else of it changed; every other record is unchanged; no record
   * is added or removed, and no other section changes.
   */
  lemma NetworkPopulationWrites(root: Element, es: seq<Edge>, noise: (real, real) -> real, s: nat)
    requires forall a, b :: 0 <= a < b < |es| ==> es[a].id != es[b].id
    requires NetworkPopulation(root, es, noise).0 == Pass
    requires FindChild(root.children, "streets") == Some(s)
    ensures var after := NetworkPopulation(root, es, noise).1;
      && after.tag == root.tag && after.attrib == root.attrib
      && |after.children| == |root.children|
      && (forall i :: 0 <= i < |root.children| && i != s ==> after.children[i] == root.children[i])
      && after.children[s].tag == "streets" && after.children[s].attrib == root.children[s].attrib
      && |after.children[s].children| == |root.children[s].children|
      && forall j, k :: 0 <= j < |root.children[s].children| && 0 <= k < |es| ==>
           var st := root.children[s].children[j];
           st.tag == "street" && "edge" in st.attrib && st.attrib["edge"] == Text(es[k].id) ==>
             after.children[s].children[j] == st.(attrib := st.attrib["population" := Num(PopulationNumber(es[k], noise))])
  {
    var after := NetworkPopulation(root, es, noise).1;
    var cs := root.children[s].children;
    if es == [] {
    } else {
      forall j, k | 0 <= j < |cs| && 0 <= k < |es| && cs[j].tag == "street" && "edge" in cs[j].attrib && cs[j].attrib["edge"] == Text(es[k].id)
        ensures after.children[s].children[j] == cs[j].(attrib := cs[j].attrib["population" := Num(PopulationNumber(es[k], noise))])
      {
        PopulateOneMatch(cs[j], es, k, noise);
      }
    }
  }

  /** Records that are not streets of a network edge keep every attribute. */
  lemma NetworkPopulationKeeps(root: Element, es: seq<Edge>, noise: (real, real) -> real, s: nat, j: nat)
    requires NetworkPopulation(root, es, noise).0 == Pass
    requires FindChild(root.children, "streets") == Some(s)
    requires j < |root.children[s].children|
    requires var st := root.children[s].children[j];
      !(st.tag == "street" && "edge" in st.attrib && exists k :: 0 <= k < |es| && st.attrib["edge"] == Text(es[k].id))
    ensures NetworkPopulation(root, es, noise).1.children[s].children[j] == root.children[s].children[j]
  {
    if es != [] {
      PopulateOneNoMatch(root.children[s].children[j], es, noise);
    }
  }
}
