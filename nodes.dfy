/**
 * The board graph (Node.cs and PortalNode.cs). A node is a value in a
 * sequence and is referred to by its index; its neighbours are indices, and
 * `validDirections[i]` is the unit vector from the node toward
 * `neighbours[i]` once the node has run its start-up step.
 */
module Nodes {
  import opened Optional
  import opened Geometry

  /** A PortalNode carries an optional receiver; a plain Node carries none. */
  datatype PortalLink = NotPortal | Portal(receiver: Option<nat>)

  datatype Node = Node(
    pos: Vec,
    neighbours: seq<nat>,
    validDirections: seq<Vec>,
    canPacmanMoveHere: bool,
    portal: PortalLink)

  type Graph = seq<Node>

  /** A node as placed in the scene: Pacman may enter it unless told otherwise. */
  function NewNode(pos: Vec, neighbours: seq<nat>): (n: Node)
    ensures n.canPacmanMoveHere
    ensures n.portal == NotPortal && n.validDirections == []
    ensures n.pos == pos && n.neighbours == neighbours
  {
    Node(pos, neighbours, [], true, NotPortal)
  }

  /** Every reference of node `n` points into the graph. */
  predicate LinksOk(g: Graph, n: nat)
    requires n < |g|
  {
    && (forall k :: 0 <= k < |g[n].neighbours| ==> g[n].neighbours[k] < |g|)
    && (g[n].portal.Portal? && g[n].portal.receiver.Some? ==> g[n].portal.receiver.value < |g|)
  }

  /**
   * The neighbour loops of the agents index `validDirections` below
   * `neighbours.Length`; a node without neighbours never indexes it.
   */
  predicate DirectionsOk(g: Graph, n: nat)
    requires n < |g|
  {
    |g[n].neighbours| == 0 || |g[n].validDirections| == |g[n].neighbours|
  }

  predicate WellFormed(g: Graph)
  {
    forall n :: 0 <= n < |g| ==> LinksOk(g, n) && DirectionsOk(g, n)
  }

  /** How many neighbours node `n` has. */
  function Degree(g: Graph, n: nat): nat
    requires n < |g|
  {
    |g[n].neighbours|
  }

  /** No node has more than four neighbours (the maze is a four-way grid). */
  predicate FourWay(g: Graph)
  {
    forall n :: 0 <= n < |g| ==> Degree(g, n) <= 4
  }

  /** Every neighbour lies on the same row or column as its node. */
  predicate Aligned(g: Graph, n: nat)
    requires n < |g| && LinksOk(g, n)
  {
    forall k :: 0 <= k < |g[n].neighbours| ==>
      var d := Sub(g[g[n].neighbours[k]].pos, g[n].pos);
      d.x == 0.0 || d.y == 0.0
  }

  predicate AllAligned(g: Graph)
    requires forall n :: 0 <= n < |g| ==> LinksOk(g, n)
  {
    forall n :: 0 <= n < |g| ==> Aligned(g, n)
  }

  function Sign(r: real): real { if r > 0.0 then 1.0 else if r < 0.0 then -1.0 else 0.0 }

  /**
   * Vector2.normalized of an axis-aligned offset: the zero vector stays
   * zero, any other offset becomes the unit vector pointing the same way.
   */
  function Normalize(v: Vec): (u: Vec)
    requires v.x == 0.0 || v.y == 0.0
    ensures v == Zero ==> u == Zero
    ensures v != Zero ==> SqLen(u) == 1.0 && Scale(u, Abs(v.x) + Abs(v.y)) == v
    ensures v != Zero ==> u == Left || u == Right || u == Up || u == Down
  {
    Vec(Sign(v.x), Sign(v.y))
  }

  /** The direction Node.FindValidDirections stores for neighbour `k` of `n`. */
  function DirectionTo(g: Graph, n: nat, k: nat): (u: Vec)
    requires n < |g| && LinksOk(g, n) && Aligned(g, n) && k < |g[n].neighbours|
    ensures u == Zero <==> g[g[n].neighbours[k]].pos == g[n].pos
    ensures u != Zero ==> u == Left || u == Right || u == Up || u == Down
  {
    Normalize(Sub(g[g[n].neighbours[k]].pos, g[n].pos))
  }

  /**
   * Node.FindValidDirections: with no neighbours the old directions are
   * kept; otherwise a fresh array of one direction per neighbour, in
   * neighbour order, is filled.
   */
  method FindValidDirections(g: Graph, n: nat) returns (dirs: seq<Vec>)
    requires n < |g| && LinksOk(g, n) && Aligned(g, n)
    ensures |g[n].neighbours| == 0 ==> dirs == g[n].validDirections
    ensures |g[n].neighbours| > 0 ==> |dirs| == |g[n].neighbours|
    ensures |g[n].neighbours| > 0 ==>
      forall k :: 0 <= k < |dirs| ==> dirs[k] == DirectionTo(g, n, k)
  {
    var neighbours := g[n].neighbours;
    if |neighbours| <= 0 {
      return g[n].validDirections;
    }
    var a := new Vec[|neighbours|];
    for i := 0 to |neighbours|
      invariant forall k :: 0 <= k < i ==> a[k] == DirectionTo(g, n, k)
    {
      var neighbour := neighbours[i];
      var offset := Sub(g[neighbour].pos, g[n].pos);
      a[i] := Normalize(offset);
    }
    dirs := a[..];
  }

  /**
   * Every Node's Start: run FindValidDirections on each node. Positions,
   * neighbours, flags and portal links are untouched, and the resulting
   * graph is well formed.
   */
  method StartAll(g: Graph) returns (r: Graph)
    requires forall n :: 0 <= n < |g| ==> LinksOk(g, n)
    requires AllAligned(g)
    ensures |r| == |g| && WellFormed(r)
    ensures forall n :: 0 <= n < |g| ==>
      r[n] == g[n].(validDirections := r[n].validDirections)
    ensures forall n :: 0 <= n < |g| && |g[n].neighbours| == 0 ==> r[n] == g[n]
    ensures forall n :: 0 <= n < |g| && |g[n].neighbours| > 0 ==>
      |r[n].validDirections| == |g[n].neighbours|
    ensures forall n, k :: 0 <= n < |g| && 0 <= k < |g[n].neighbours| ==>
      r[n].validDirections[k] == DirectionTo(g, n, k)
  {
    r := [];
    for n := 0 to |g|
      invariant |r| == n
      invariant forall m :: 0 <= m < n ==> r[m] == g[m].(validDirections := r[m].validDirections)
      invariant forall m :: 0 <= m < n && |g[m].neighbours| == 0 ==> r[m] == g[m]
      invariant forall m :: 0 <= m < n && |g[m].neighbours| > 0 ==>
        |r[m].validDirections| == |g[m].neighbours|
      invariant forall m, k :: 0 <= m < n && 0 <= k < |g[m].neighbours| ==>
        r[m].validDirections[k] == DirectionTo(g, m, k)
    {
      var dirs := FindValidDirections(g, n);
      r := r + [g[n].(validDirections := dirs)];
    }
    assert forall m :: 0 <= m < |g| ==> LinksOk(r, m) by {
      forall m | 0 <= m < |g| ensures LinksOk(r, m) {
        assert LinksOk(g, m);
      }
    }
  }
}
