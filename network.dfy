/**
 * The road network as the generator reads it through sumolib: nodes with a
 * coordinate and their incoming and outgoing edges, edges with a shape and
 * lanes. The network is only ever read.
 */
module Network {

  datatype Point = Point(x: real, y: real)

  /** An edge shape: the network format gives every edge at least one point. */
  type Shape = s: seq<Point> | |s| > 0 witness [Point(0.0, 0.0)]

  /** A lane, reduced to the one capability the generator asks about: lane.allows("private"). */
  datatype Lane = Lane(allowsPrivate: bool)

  datatype Edge = Edge(id: string, fromNode: string, toNode: string, shape: Shape, lanes: seq<Lane>)

  datatype Node = Node(id: string, coord: Point, incoming: seq<Edge>, outgoing: seq<Edge>)

  datatype Net = Net(nodes: seq<Node>, edges: seq<Edge>)

  /** np.dot of two 2D vectors. */
  function Dot(p: Point, d: Point): real {
    p.x * d.x + p.y * d.y
  }

  /** Ids of the distinct other nodes joined to n by one of its edges (node.getNeighboringNodes()). */
  function Neighbours(n: Node): set<string> {
    (set e | e in n.incoming :: e.fromNode) + (set e | e in n.outgoing :: e.toNode) - {n.id}
  }

  /** Some lane of the edge allows private vehicles. */
  predicate AllowsPrivate(e: Edge) {
    exists i :: 0 <= i < |e.lanes| && e.lanes[i].allowsPrivate
  }

  /** The number of lanes that allow private vehicles. */
  function PrivateLanes(lanes: seq<Lane>): (c: nat)
    ensures c <= |lanes|
    ensures c > 0 <==> exists i :: 0 <= i < |lanes| && lanes[i].allowsPrivate
  {
    if lanes == [] then 0
    else
      var rest := PrivateLanes(lanes[1..]);
      assert forall i :: 1 <= i < |lanes| ==> lanes[i] == lanes[1..][i - 1];
      (if lanes[0].allowsPrivate then 1 else 0) + rest
  }

  /** The private lanes of a list of edges, summed: an edge without one contributes nothing. */
  function PrivateLaneSum(es: seq<Edge>): (c: nat)
    ensures c > 0 <==> exists i :: 0 <= i < |es| && AllowsPrivate(es[i])
  {
    if es == [] then 0
    else
      var rest := PrivateLaneSum(es[1..]);
      assert forall i :: 1 <= i < |es| ==> es[i] == es[1..][i - 1];
      PrivateLanes(es[0].lanes) + rest
  }
}
