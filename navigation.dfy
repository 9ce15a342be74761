/**
 * The value-level rules of Pacman's navigation (PacmanController.cs): which
 * neighbour a direction leads to, and when a node counts as passed.
 */
module Navigation {
  import opened Optional
  import opened Geometry
  import opened Nodes

  /** Neighbour `k` of `n` lies in direction `d` and Pacman may enter it. */
  predicate Open(g: Graph, n: nat, d: Vec, k: nat)
    requires n < |g| && WellFormed(g) && k < |g[n].neighbours|
  {
    assert LinksOk(g, n) && DirectionsOk(g, n);
    g[n].validDirections[k] == d && g[g[n].neighbours[k]].canPacmanMoveHere
  }

  /** The first neighbour index, from `from` on, that is open in direction `d`. */
  function FirstOpen(g: Graph, n: nat, d: Vec, from: nat): (k: Option<nat>)
    requires n < |g| && WellFormed(g) && from <= |g[n].neighbours|
    ensures k.Some? ==> from <= k.value < |g[n].neighbours| && Open(g, n, d, k.value)
    decreases |g[n].neighbours| - from
  {
    if from == |g[n].neighbours| then None
    else if Open(g, n, d, from) then Some(from)
    else FirstOpen(g, n, d, from + 1)
  }

  /**
   * FirstOpen is the earliest open neighbour, and it finds none exactly when
   * no neighbour from `from` on is open.
   */
  lemma {:induction false} FirstOpenIsFirst(g: Graph, n: nat, d: Vec, from: nat)
    requires n < |g| && WellFormed(g) && from <= |g[n].neighbours|
    ensures FirstOpen(g, n, d, from).Some? ==>
      forall j :: from <= j < FirstOpen(g, n, d, from).value ==> !Open(g, n, d, j)
    ensures FirstOpen(g, n, d, from).None? <==>
      forall j :: from <= j < |g[n].neighbours| ==> !Open(g, n, d, j)
    decreases |g[n].neighbours| - from
  {
    if from < |g[n].neighbours| {
      FirstOpenIsFirst(g, n, d, from + 1);
    }
  }

  /** The node CanMove returns from `n` for direction `d`. */
  function OpenStep(g: Graph, n: nat, d: Vec): (m: Option<nat>)
    requires n < |g| && WellFormed(g)
    ensures m.Some? ==> m.value < |g| && g[m.value].canPacmanMoveHere
  {
    match FirstOpen(g, n, d, 0)
    case None => None
    case Some(k) => assert LinksOk(g, n); Some(g[n].neighbours[k])
  }

  /**
   * What CanMove promises, stated without the search: the node returned is
   * the neighbour at the earliest index whose direction is `d` and which
   * Pacman may enter; nothing is returned only when no neighbour qualifies.
   */
  lemma OpenStepIsFirstOpenNeighbour(g: Graph, n: nat, d: Vec)
    requires n < |g| && WellFormed(g)
    ensures OpenStep(g, n, d).None? <==>
      forall j :: 0 <= j < |g[n].neighbours| ==> !Open(g, n, d, j)
    ensures OpenStep(g, n, d).Some? ==>
      exists k :: 0 <= k < |g[n].neighbours| && Open(g, n, d, k)
        && OpenStep(g, n, d).value == g[n].neighbours[k]
        && forall j :: 0 <= j < k ==> !Open(g, n, d, j)
  {
    FirstOpenIsFirst(g, n, d, 0);
    if FirstOpen(g, n, d, 0).Some? {
      var k := FirstOpen(g, n, d, 0).value;
      assert OpenStep(g, n, d).value == g[n].neighbours[k];
    }
  }

  /**
   * PassedNode with LengthFromNode: the agent is farther from the node it
   * left than the node it is heading to is.
   */
  predicate Passed(position: Vec, previous: Vec, target: Vec): (b: bool)
    ensures position == target ==> !b
    ensures b ==> position != previous
  {
    var z := 0.0;
    SquareAbove(target.x - previous.x, z);
    SquareAbove(target.y - previous.y, z);
    SqDist(position, previous) > SqDist(target, previous)
  }

  /** Moving `t` along a unit axis direction puts an agent at squared distance t * t. */
  lemma AxisStepSqDist(start: Vec, d: Vec, t: real)
    requires d == Left || d == Right || d == Up || d == Down
    ensures SqDist(Add(start, Scale(d, t)), start) == t * t
  {
    var v := Sub(Add(start, Scale(d, t)), start);
    if d == Left || d == Right {
      assert v.y == 0.0;
      assert v.x == t || v.x == -t;
    } else {
      assert v.x == 0.0;
      assert v.y == t || v.y == -t;
    }
  }

  /**
   * Along a corridor leaving `start` in any of the four directions, of
   * length `len`, the squared comparison says exactly that the distance
   * travelled exceeds the corridor's length: arriving exactly on the node
   * is not yet passing it.
   */
  lemma PassedIffTravelledBeyond(start: Vec, d: Vec, len: real, travelled: real)
    requires d == Left || d == Right || d == Up || d == Down
    requires len >= 0.0 && travelled >= 0.0
    ensures Passed(Add(start, Scale(d, travelled)), start, Add(start, Scale(d, len)))
      <==> travelled > len
  {
    AxisStepSqDist(start, d, travelled);
    AxisStepSqDist(start, d, len);
    SquaredOrderMatchesDistance(len, travelled);
  }
}
