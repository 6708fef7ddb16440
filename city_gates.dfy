/**
 * setup_city_gates: tops the cityGates section up to the requested number of
 * entrance records. Each new entrance sits on the dead end reaching furthest
 * in one of n evenly spread directions, weighted by the private-vehicle lanes
 * of that dead end.
 */
module CityGates {
  import opened Common
  import opened Network
  import opened StatsTree
  import opened Random

  /** A dead end: one neighbouring node, and an incident edge with a lane allowing private vehicles. */
  predicate IsDeadEnd(n: Node) {
    |Neighbours(n)| == 1 && exists e :: e in n.incoming + n.outgoing && AllowsPrivate(e)
  }

  /** The dead ends of the network, in node order (the list comprehension over net.getNodes()). */
  function DeadEnds(nodes: seq<Node>): (r: seq<Node>)
    ensures |r| <= |nodes|
    ensures forall j :: 0 <= j < |r| ==> HasEdge(r[j])
  {
    if nodes == [] then []
    else
      var rest := DeadEnds(nodes[1..]);
      if IsDeadEnd(nodes[0]) then
        DeadEndHasEdge(nodes[0]);
        [nodes[0]] + rest
      else rest
  }

  /** A node is kept exactly when it is a dead end. */
  lemma {:induction false} DeadEndsMembers(nodes: seq<Node>)
    ensures forall n :: n in DeadEnds(nodes) <==> n in nodes && IsDeadEnd(n)
    decreases |nodes|
  {
    if nodes != [] {
      DeadEndsMembers(nodes[1..]);
      assert forall n :: n in nodes <==> n == nodes[0] || n in nodes[1..];
    }
  }

  lemma DeadEndAt(nodes: seq<Node>, m: nat)
    requires m < |DeadEnds(nodes)|
    ensures DeadEnds(nodes)[m] in nodes && IsDeadEnd(DeadEnds(nodes)[m])
  {
    DeadEndsMembers(nodes);
    assert DeadEnds(nodes)[m] in DeadEnds(nodes);
  }

  /** The filter keeps order: filtering a concatenation concatenates the filtered parts. */
  lemma {:induction false} DeadEndsAppend(a: seq<Node>, b: seq<Node>)
    ensures DeadEnds(a + b) == DeadEnds(a) + DeadEnds(b)
    decreases |a|
  {
    if a == [] {
      assert a + b == b;
    } else {
      assert (a + b)[1..] == a[1..] + b;
      DeadEndsAppend(a[1..], b);
    }
  }

  /** A node the entrance can be placed at: it has an incoming or an outgoing edge. */
  predicate HasEdge(n: Node) {
    |n.incoming| + |n.outgoing| > 0
  }

  predicate AllHaveEdges(ds: seq<Node>) {
    forall j :: 0 <= j < |ds| ==> HasEdge(ds[j])
  }

  /** A dead end has a neighbour, so it has a first outgoing or a first incoming edge. */
  lemma DeadEndHasEdge(n: Node)
    requires IsDeadEnd(n)
    ensures HasEdge(n)
  {
  }

  /**
   * The direction of gate i of n as a fraction of a full turn:
   * (base_rad + i * tau / n) % tau divided by tau, with u0 the draw behind
   * base_rad. The unit vector (cos, sin) of a turn is the heading parameter.
   */
  function Turn(u0: real, i: nat, n: nat): (t: real)
    requires 0.0 <= u0 < 1.0 && i < n
    ensures 0.0 <= t < 1.0
  {
    FractionBelowOne(i, n);
    var t := u0 + (i as real) / (n as real);
    if t >= 1.0 then t - 1.0 else t
  }

  lemma FractionBelowOne(i: nat, n: nat)
    requires i < n
    ensures 0.0 <= (i as real) / (n as real) < 1.0
  {
    assert (i as real) / (n as real) * (n as real) == i as real;
  }

  lemma FractionIncreasing(i: nat, j: nat, n: nat)
    requires i < j < n
    ensures (i as real) / (n as real) < (j as real) / (n as real)
  {
    assert (j as real) / (n as real) - (i as real) / (n as real) == ((j - i) as real) / (n as real);
  }

  /** Direction i is i / n of a turn past the base direction, wrapped into [0, 1). */
  lemma TurnOffset(u0: real, i: nat, n: nat)
    requires 0.0 <= u0 < 1.0 && i < n
    ensures var t := Turn(u0, i, n);
      t == u0 + (i as real) / (n as real) || t == u0 + (i as real) / (n as real) - 1.0
  {
  }

  /** The n directions are pairwise different. */
  lemma TurnsDistinct(u0: real, i: nat, j: nat, n: nat)
    requires 0.0 <= u0 < 1.0 && i < j < n
    ensures Turn(u0, i, n) != Turn(u0, j, n)
  {
    TurnOffset(u0, i, n);
    TurnOffset(u0, j, n);
    FractionBelowOne(i, n);
    FractionBelowOne(j, n);
    FractionIncreasing(i, j, n);
  }

  /** The index of the first dead end whose coordinate has the largest dot product with dir (numpy's argmax). */
  function GateFor(ds: seq<Node>, dir: Point): (m: nat)
    requires |ds| > 0
    ensures m < |ds|
    ensures forall j :: 0 <= j < |ds| ==> Dot(ds[j].coord, dir) <= Dot(ds[m].coord, dir)
    ensures forall j :: 0 <= j < m ==> Dot(ds[j].coord, dir) < Dot(ds[m].coord, dir)
  {
    if |ds| == 1 then 0
    else
      var k := GateFor(ds[..|ds| - 1], dir);
      assert forall j :: 0 <= j < |ds| - 1 ==> ds[..|ds| - 1][j] == ds[j];
      if Dot(ds[k].coord, dir) < Dot(ds[|ds| - 1].coord, dir) then |ds| - 1 else k
  }

  /** A weight (1 + u) * lanes with u in [0, 1): in [lanes, 2 * lanes), and zero without a lane. */
  predicate WeightWithin(w: real, lanes: nat) {
    && lanes as real <= w
    && (lanes > 0 ==> w < 2.0 * lanes as real)
    && (lanes == 0 ==> w == 0.0)
  }

  lemma Weight(u: real, lanes: nat)
    requires 0.0 <= u < 1.0
    ensures WeightWithin((1.0 + u) * lanes as real, lanes)
  {
    assert (1.0 + u) * lanes as real == lanes as real + u * lanes as real;
    if lanes > 0 {
      assert u * lanes as real < lanes as real by {
        assert lanes as real - u * lanes as real == (1.0 - u) * lanes as real;
      }
    }
  }

  /** What an entrance record says: its edge and its incoming and outgoing traffic weights. */
  datatype Entrance = Entrance(edge: string, incoming: real, outgoing: real)

  /**
   * The entrance for a gate: on its first outgoing edge, or its first
   * incoming edge when it has none; the incoming weight follows the private
   * lanes leaving the gate and the outgoing weight those entering it.
   */
  function GateEntrance(gate: Node, uIn: real, uOut: real): (g: Entrance)
    requires HasEdge(gate) && 0.0 <= uIn < 1.0 && 0.0 <= uOut < 1.0
    ensures |gate.outgoing| > 0 ==> g.edge == gate.outgoing[0].id
    ensures |gate.outgoing| == 0 ==> |gate.incoming| > 0 && g.edge == gate.incoming[0].id
    ensures WeightWithin(g.incoming, PrivateLaneSum(gate.outgoing))
    ensures WeightWithin(g.outgoing, PrivateLaneSum(gate.incoming))
  {
    var edge := if |gate.outgoing| > 0 then gate.outgoing[0] else gate.incoming[0];
    var incomingLanes, outgoingLanes := PrivateLaneSum(gate.incoming), PrivateLaneSum(gate.outgoing);
    Weight(uIn, outgoingLanes);
    Weight(uOut, incomingLanes);
    Entrance(edge.id, (1.0 + uIn) * outgoingLanes as real, (1.0 + uOut) * incomingLanes as real)
  }

  /** The entrance record appended to the cityGates section. */
  function EntranceRecord(g: Entrance): (r: Element)
    ensures r.tag == "entrance" && r.children == []
  {
    Element("entrance", map["edge" := Text(g.edge), "incoming" := Num(g.incoming), "outgoing" := Num(g.outgoing), "pos" := Int(0)], [])
  }

  /** The record carries exactly the four attributes, with pos "0". */
  lemma EntranceRecordAttributes(g: Entrance)
    ensures var r := EntranceRecord(g);
      && r.attrib.Keys == {"edge", "incoming", "outgoing", "pos"}
      && r.attrib["edge"] == Text(g.edge) && r.attrib["pos"] == Int(0)
      && r.attrib["incoming"] == Num(g.incoming) && r.attrib["outgoing"] == Num(g.outgoing)
  {
  }

  /** dirs: the unit vector of each of the n turns, computed before the gates are placed. */
  function Directions(u0: real, n: nat, heading: real -> Point): seq<Point>
    requires 0.0 <= u0 < 1.0
  {
    seq(n, i requires 0 <= i < n => heading(Turn(u0, i, n)))
  }

  /**
   * The entrance for direction j: the argmax gate, with the weights drawn
   * from the values at pos + 2j and pos + 1 + 2j.
   */
  function GateAt(ds: seq<Node>, dirs: seq<Point>, stream: UnitStream, pos: nat, j: nat): Entrance
    requires ds != [] && AllHaveEdges(ds) && j < |dirs|
  {
    GateEntrance(ds[GateFor(ds, dirs[j])], stream(pos + 2 * j), stream(pos + 1 + 2 * j))
  }

  /** The entrance for each direction of dirs, the draws for them starting at pos. */
  function Entrances(ds: seq<Node>, dirs: seq<Point>, stream: UnitStream, pos: nat): (gs: seq<Entrance>)
    requires ds != [] && AllHaveEdges(ds)
    ensures |gs| == |dirs|
  {
    if dirs == [] then []
    else Entrances(ds, dirs[..|dirs| - 1], stream, pos) + [GateAt(ds, dirs, stream, pos, |dirs| - 1)]
  }

  /** Entrance j is the one for direction j, whatever directions follow it. */
  lemma {:induction false} EntrancesAt(ds: seq<Node>, dirs: seq<Point>, stream: UnitStream, pos: nat, j: nat)
    requires ds != [] && AllHaveEdges(ds) && j < |dirs|
    ensures Entrances(ds, dirs, stream, pos)[j] == GateAt(ds, dirs, stream, pos, j)
    decreases |dirs|
  {
    var front := dirs[..|dirs| - 1];
    var gs := Entrances(ds, front, stream, pos);
    assert Entrances(ds, dirs, stream, pos) == gs + [GateAt(ds, dirs, stream, pos, |dirs| - 1)];
    if j < |front| {
      EntrancesAt(ds, front, stream, pos, j);
      assert front[j] == dirs[j];
      assert GateAt(ds, front, stream, pos, j) == GateAt(ds, dirs, stream, pos, j);
    }
  }

  /** The records for a list of entrances, in order. */
  function EntranceRecords(gs: seq<Entrance>): (r: seq<Element>)
    ensures |r| == |gs|
  {
    if gs == [] then [] else EntranceRecords(gs[..|gs| - 1]) + [EntranceRecord(gs[|gs| - 1])]
  }

  /** Every record is an entrance record. */
  lemma {:induction false} EntranceRecordsTags(gs: seq<Entrance>)
    ensures forall j :: 0 <= j < |gs| ==> EntranceRecords(gs)[j].tag == "entrance"
    decreases |gs|
  {
    if gs != [] {
      EntranceRecordsTags(gs[..|gs| - 1]);
    }
  }

  /** The root after appending the entrance record for each direction of dirs to section i. */
  function WithGates(e: Element, i: nat, ds: seq<Node>, dirs: seq<Point>, stream: UnitStream, pos: nat): (r: Element)
    requires i < |e.children| && ds != [] && AllHaveEdges(ds)
  {
    AppendRecords(e, i, EntranceRecords(Entrances(ds, dirs, stream, pos)))
  }

  /**
   * setup_city_gates as a whole: the outcome, the root afterwards and the
   * generator's position afterwards. A negative count fails before anything
   * happens; the section is created when missing; with nothing to add the
   * call ends there; otherwise one value is drawn for the base direction and
   * the argmax over no dead ends fails, or two values are drawn per gate.
   */
  function CityGatesRun(root: Element, nodes: seq<Node>, gateCount: int, heading: real -> Point, stream: UnitStream, pos: nat): Run {
    if gateCount < 0 then Run(Fail(NegativeGateCount), root, pos)
    else TopUp(EnsureSection(root, "cityGates").0, EnsureSection(root, "cityGates").1, nodes, gateCount, heading, stream, pos)
  }

  /** The rest of the call once the section is at index i of e. */
  function TopUp(e: Element, i: nat, nodes: seq<Node>, gateCount: int, heading: real -> Point, stream: UnitStream, pos: nat): Run
    requires i < |e.children|
  {
    var n := gateCount - CountTag(e.children[i].children, "entrance");
    if n <= 0 then Run(Pass, e, pos)
    else
      var ds := DeadEnds(nodes);
      if ds == [] then Run(Fail(EmptyArgMax), e, pos + 1)
      else Run(Pass, WithGates(e, i, ds, Directions(stream(pos), n, heading), stream, pos + 1), pos + 1 + 2 * n)
  }

  method SetupCityGates(net: Net, doc: Stats, rng: Rng, gateCount: int, heading: real -> Point) returns (r: Outcome)
    modifies doc, rng
    ensures Run(r, doc.root, rng.pos) == CityGatesRun(old(doc.root), net.nodes, gateCount, heading, rng.stream, old(rng.pos))
  {
    if gateCount < 0 {
      return Fail(NegativeGateCount);
    }
    var i := doc.FindOrCreate("cityGates");
    r := AddMissingGates(net, doc, rng, i, gateCount, heading);
  }

  /** The part after the lookup: nothing to do, the argmax over no dead ends, or the loop over dirs. */
  method AddMissingGates(net: Net, doc: Stats, rng: Rng, i: nat, gateCount: int, heading: real -> Point) returns (r: Outcome)
    requires i < |doc.root.children|
    modifies doc, rng
    ensures Run(r, doc.root, rng.pos) == TopUp(old(doc.root), i, net.nodes, gateCount, heading, rng.stream, old(rng.pos))
  {
    var n := gateCount - CountTag(doc.root.children[i].children, "entrance");
    if n <= 0 {
      return Pass;
    }
    var deadEnds := DeadEnds(net.nodes);
    var u0 := rng.Random();
    var dirs := Directions(u0, n, heading);
    // np.argmax raises on the first direction, which exists as n > 0
    if deadEnds == [] {
      return Fail(EmptyArgMax);
    }
    PlaceGates(doc, rng, i, deadEnds, dirs);
    return Pass;
  }

  /** The loop over dirs: one argmax gate, two weight draws and one appended entrance per direction. */
  method PlaceGates(doc: Stats, rng: Rng, i: nat, ds: seq<Node>, dirs: seq<Point>)
    requires i < |doc.root.children| && ds != [] && AllHaveEdges(ds)
    modifies doc, rng
    ensures doc.root == WithGates(old(doc.root), i, ds, dirs, rng.stream, old(rng.pos))
    ensures rng.pos == old(rng.pos) + 2 * |dirs|
  {
    ghost var e, p0, stream := doc.root, rng.pos, rng.stream;
    AppendRecordsNone(e, i);
    assert WithGates(e, i, ds, dirs[..0], stream, p0) == e;
    for k := 0 to |dirs|
      invariant rng.pos == p0 + 2 * k
      invariant doc.root == WithGates(e, i, ds, dirs[..k], stream, p0)
    {
      AddGate(doc, rng, i, ds, dirs, k, e, p0);
    }
    assert dirs[..|dirs|] == dirs;
  }

  /**
   * One pass of the loop, for direction k: the argmax gate, its two weight
   * draws and its appended entrance, after those for the first k directions.
   */
  method AddGate(doc: Stats, rng: Rng, i: nat, ds: seq<Node>, dirs: seq<Point>, k: nat, ghost e: Element, ghost p0: nat)
    requires i < |e.children| && ds != [] && AllHaveEdges(ds) && k < |dirs|
    requires doc.root == WithGates(e, i, ds, dirs[..k], rng.stream, p0) && rng.pos == p0 + 2 * k
    modifies doc, rng
    ensures doc.root == WithGates(e, i, ds, dirs[..k + 1], rng.stream, p0) && rng.pos == p0 + 2 * (k + 1)
  {
    var g := GateFor(ds, dirs[k]);
    var incoming := rng.Random();
    var outgoing := rng.Random();
    var entrance := GateEntrance(ds[g], incoming, outgoing);
    assert incoming == rng.stream(p0 + 2 * k) && outgoing == rng.stream(p0 + 1 + 2 * k);
    assert entrance == GateAt(ds, dirs, rng.stream, p0, k);
    AppendGate(e, i, ds, dirs, rng.stream, p0, k, entrance);
    doc.Append(i, EntranceRecord(entrance));
  }

  /** Appending the entrance for direction k after those for the first k directions gives those for the first k + 1. */
  lemma AppendGate(e: Element, i: nat, ds: seq<Node>, dirs: seq<Point>, stream: UnitStream, pos: nat, k: nat, entrance: Entrance)
    requires i < |e.children| && ds != [] && AllHaveEdges(ds) && k < |dirs|
    requires entrance == GateAt(ds, dirs, stream, pos, k)
    ensures AppendRecords(WithGates(e, i, ds, dirs[..k], stream, pos), i, [EntranceRecord(entrance)])
         == WithGates(e, i, ds, dirs[..k + 1], stream, pos)
  {
    var done, next := Entrances(ds, dirs[..k], stream, pos), Entrances(ds, dirs[..k + 1], stream, pos);
    AppendRecordsTwice(e, i, EntranceRecords(done), [EntranceRecord(entrance)]);
    assert dirs[..k + 1][..k] == dirs[..k];
    assert GateAt(ds, dirs[..k + 1], stream, pos, k) == entrance;
    assert next == done + [entrance];
    assert next[..k] == done;
  }

  /** Unless the count is negative, a cityGates section exists afterwards. */
  lemma CityGatesSection(root: Element, nodes: seq<Node>, gateCount: int, heading: real -> Point, stream: UnitStream, pos: nat)
    requires gateCount >= 0
    ensures FindChild(CityGatesRun(root, nodes, gateCount, heading, stream, pos).root.children, "cityGates").Some?
  {
    var e, i := EnsureSection(root, "cityGates").0, EnsureSection(root, "cityGates").1;
    EnsureSectionFinds(root, "cityGates");
    TopUpKeeps(e, i, nodes, gateCount, heading, stream, pos);
    FindChildByTags(e.children, TopUp(e, i, nodes, gateCount, heading, stream, pos).root.children, "cityGates");
  }

  /**
   * What the rest of the call keeps: the root's tag, attributes and
   * sections, every other section, and the section's own tag, attributes
   * and existing records, to which it only appends.
   */
  lemma TopUpKeeps(e: Element, i: nat, nodes: seq<Node>, gateCount: int, heading: real -> Point, stream: UnitStream, pos: nat)
    requires i < |e.children|
    ensures var after := TopUp(e, i, nodes, gateCount, heading, stream, pos).root;
      && after.tag == e.tag && after.attrib == e.attrib && |after.children| == |e.children|
      && (forall j :: 0 <= j < |e.children| ==> after.children[j].tag == e.children[j].tag)
      && (forall j :: 0 <= j < |e.children| && j != i ==> after.children[j] == e.children[j])
      && after.children[i].attrib == e.children[i].attrib
      && e.children[i].children <= after.children[i].children
  {
  }

  /**
   * The gate count after the lookup: with at least gateCount entrances
   * already nothing is appended; otherwise, on success, exactly the missing
   * ones are, so the section then holds gateCount entrances; the only
   * failure is the argmax over no dead ends, which leaves the root as it was.
   */
  lemma TopUpCount(e: Element, i: nat, nodes: seq<Node>, gateCount: int, heading: real -> Point, stream: UnitStream, pos: nat)
    requires i < |e.children|
    ensures var Run(out, after, _) := TopUp(e, i, nodes, gateCount, heading, stream, pos);
      var before := e.children[i].children;
      var existing := CountTag(before, "entrance");
      && (gateCount <= existing ==> out == Pass && after == e)
      && (gateCount > existing && out == Pass ==>
            && |after.children[i].children| == |before| + (gateCount - existing)
            && CountTag(after.children[i].children, "entrance") == gateCount)
      && (gateCount > existing && out.Fail? ==> out.error == EmptyArgMax && DeadEnds(nodes) == [] && after == e)
  {
    var before := e.children[i].children;
    var n := gateCount - CountTag(before, "entrance");
    var ds := DeadEnds(nodes);
    if n > 0 && ds != [] {
      var dirs := Directions(stream(pos), n, heading);
      assert |dirs| == n;
      var gs := Entrances(ds, dirs, stream, pos + 1);
      assert TopUp(e, i, nodes, gateCount, heading, stream, pos).root == AppendRecords(e, i, EntranceRecords(gs));
      CountTagAppend(before, EntranceRecords(gs), "entrance");
      EntranceRecordsTags(gs);
      CountTagAll(EntranceRecords(gs), "entrance");
    }
  }

  /**
   * The gate count for the whole call: with a non-negative count the
   * section holds at least its old records afterwards, exactly gateCount
   * entrances on success when it held fewer, and the root is untouched
   * apart from the lookup when nothing is added or the call fails.
   */
  lemma CityGatesCount(root: Element, nodes: seq<Node>, gateCount: int, heading: real -> Point, stream: UnitStream, pos: nat)
    requires gateCount >= 0
    ensures var e, i := EnsureSection(root, "cityGates").0, EnsureSection(root, "cityGates").1;
      var run := CityGatesRun(root, nodes, gateCount, heading, stream, pos);
      var before := e.children[i].children;
      var existing := CountTag(before, "entrance");
      && run.root.tag == root.tag && run.root.attrib == root.attrib
      && FindChild(run.root.children, "cityGates") == Some(i)
      && before <= run.root.children[i].children
      && (gateCount <= existing ==> run.outcome == Pass && run.root == e)
      && (gateCount > existing && run.outcome == Pass ==>
            CountTag(run.root.children[i].children, "entrance") == gateCount)
      && (gateCount > existing && run.outcome.Fail? ==>
            run.outcome.error == EmptyArgMax && DeadEnds(nodes) == [] && run.root == e)
  {
    var e, i := EnsureSection(root, "cityGates").0, EnsureSection(root, "cityGates").1;
    EnsureSectionFinds(root, "cityGates");
    TopUpKeeps(e, i, nodes, gateCount, heading, stream, pos);
    TopUpCount(e, i, nodes, gateCount, heading, stream, pos);
    FindChildByTags(e.children, TopUp(e, i, nodes, gateCount, heading, stream, pos).root.children, "cityGates");
  }

  /**
   * rec is the entrance for direction j of n: the first dead end whose dot
   * product with that direction is largest, so that no dead end reaches
   * further (GateFor), with the two weights drawn for gate j.
   */
  predicate ChosenEntrance(nodes: seq<Node>, dirs: seq<Point>, stream: UnitStream, pos: nat, j: nat, g: Entrance)
    requires DeadEnds(nodes) != [] && j < |dirs|
  {
    var ds := DeadEnds(nodes);
    var m := GateFor(ds, dirs[j]);
    && ds[m] in nodes && IsDeadEnd(ds[m])
    && g == GateEntrance(ds[m], stream(pos + 2 * j), stream(pos + 1 + 2 * j))
  }

  /** Entrance j is the one chosen for direction j. */
  lemma EntrancesChosen(nodes: seq<Node>, dirs: seq<Point>, stream: UnitStream, pos: nat)
    requires DeadEnds(nodes) != []
    ensures var gs := Entrances(DeadEnds(nodes), dirs, stream, pos);
      forall j :: 0 <= j < |dirs| ==> ChosenEntrance(nodes, dirs, stream, pos, j, gs[j])
  {
    var ds := DeadEnds(nodes);
    forall j | 0 <= j < |dirs|
      ensures ChosenEntrance(nodes, dirs, stream, pos, j, Entrances(ds, dirs, stream, pos)[j])
    {
      DeadEndAt(nodes, GateFor(ds, dirs[j]));
      EntrancesAt(ds, dirs, stream, pos, j);
    }
  }

  /**
   * On success with n > 0 gates missing after the lookup, the section holds
   * its old records followed by the entrances for the n directions of
   * Directions (chosen as EntrancesChosen states) drawn after the base value
   * at pos, and the generator has advanced by one value plus two per gate.
   */
  lemma TopUpAppends(e: Element, i: nat, nodes: seq<Node>, gateCount: int, heading: real -> Point, stream: UnitStream, pos: nat)
    requires i < |e.children|
    requires TopUp(e, i, nodes, gateCount, heading, stream, pos).outcome == Pass
    ensures var Run(_, after, last) := TopUp(e, i, nodes, gateCount, heading, stream, pos);
      var before := e.children[i].children;
      var n := gateCount - CountTag(before, "entrance");
      n > 0 ==>
        && DeadEnds(nodes) != []
        && last == pos + 1 + 2 * n
        && after.children[i].children == before + EntranceRecords(Entrances(DeadEnds(nodes), Directions(stream(pos), n, heading), stream, pos + 1))
  {
  }

  /** The same for the whole call: a non-negative count, then the section EnsureSection finds or creates. */
  lemma CityGatesAppends(root: Element, nodes: seq<Node>, gateCount: int, heading: real -> Point, stream: UnitStream, pos: nat)
    requires gateCount >= 0
    requires CityGatesRun(root, nodes, gateCount, heading, stream, pos).outcome == Pass
    ensures var e, i := EnsureSection(root, "cityGates").0, EnsureSection(root, "cityGates").1;
      var run := CityGatesRun(root, nodes, gateCount, heading, stream, pos);
      var before := e.children[i].children;
      var n := gateCount - CountTag(before, "entrance");
      n > 0 ==>
        && DeadEnds(nodes) != []
        && run.pos == pos + 1 + 2 * n
        && run.root.children[i].children == before + EntranceRecords(Entrances(DeadEnds(nodes), Directions(stream(pos), n, heading), stream, pos + 1))
  {
    TopUpAppends(EnsureSection(root, "cityGates").0, EnsureSection(root, "cityGates").1, nodes, gateCount, heading, stream, pos);
  }
}
