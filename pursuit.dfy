/**
 * Where each ghost heads (BlinkyAI.cs, PinkyAI.cs, InkyAI.cs, ClydeAI.cs)
 * and how a ghost picks its next node toward that tile
 * (GhostAI.ChooseNextNode).
 */
module Pursuit {
  import opened Optional
  import opened Geometry
  import opened Nodes

  /** A point with integer coordinates. */
  predicate IsTile(v: Vec)
  {
    v.x == v.x.Floor as real && v.y == v.y.Floor as real
  }

  /** Blinky: Pacman's rounded tile, whatever Pacman's direction or Blinky's own position. */
  function BlinkyTarget(pacman: Vec): (t: Vec)
    ensures IsTile(t) && SqDist(t, pacman) <= 0.5
  {
    RoundVec(pacman)
  }

  /** Pinky: four tiles ahead of Pacman's rounded tile. */
  function PinkyTarget(pacman: Vec, pacmanDirection: Vec): (t: Vec)
    ensures Sub(t, BlinkyTarget(pacman)) == Scale(pacmanDirection, 4.0)
  {
    Add(RoundVec(pacman), Scale(pacmanDirection, 4.0))
  }

  /** For a unit direction, Pinky aims exactly four tiles from Pacman's tile, and at it when Pacman has no direction. */
  lemma PinkyAimsFourTilesAhead(pacman: Vec, d: Vec)
    ensures d == Left || d == Right || d == Up || d == Down ==>
      SqDist(PinkyTarget(pacman, d), BlinkyTarget(pacman)) == 16.0
    ensures d == Zero ==> PinkyTarget(pacman, d) == BlinkyTarget(pacman)
  {
    var t := BlinkyTarget(pacman);
    var p := PinkyTarget(pacman, d);
    assert Sub(p, t) == Scale(d, 4.0);
    assert SqDist(p, t) == SqLen(Scale(d, 4.0));
  }

  /** The tile two ahead of Pacman that Inky measures from Blinky. */
  function TwoAhead(pacman: Vec, pacmanDirection: Vec): Vec
  {
    Add(RoundVec(pacman), Scale(pacmanDirection, 2.0))
  }

  /**
   * Inky: from Blinky's rounded tile, move by twice the distance between that
   * tile and the two-ahead tile, along both axes at once. `distance` is that
   * distance; the square root is left to the caller.
   */
  function InkyTarget(pacman: Vec, pacmanDirection: Vec, blinky: Vec, distance: real): (t: Vec)
    requires distance >= 0.0
    requires distance * distance == SqDist(RoundVec(blinky), TwoAhead(pacman, pacmanDirection))
    ensures t.x - RoundVec(blinky).x == t.y - RoundVec(blinky).y >= 0.0
    ensures t.x - RoundVec(blinky).x == 2.0 * distance
  {
    var b := RoundVec(blinky);
    Vec(b.x + 2.0 * distance, b.y + 2.0 * distance)
  }

  /**
   * Inky stays on Blinky's tile exactly when Blinky stands on the two-ahead
   * tile; otherwise it lies strictly up and right of Blinky.
   */
  lemma InkyOnBlinkyIffTwoAhead(pacman: Vec, d: Vec, blinky: Vec, distance: real)
    requires distance >= 0.0
    requires distance * distance == SqDist(RoundVec(blinky), TwoAhead(pacman, d))
    ensures InkyTarget(pacman, d, blinky, distance) == RoundVec(blinky)
      <==> RoundVec(blinky) == TwoAhead(pacman, d)
  {
    var b := RoundVec(blinky);
    var a := TwoAhead(pacman, d);
    if distance == 0.0 {
      SumOfSquaresZero(b.x - a.x, b.y - a.y);
    }
    if b == a {
      var z := 0.0;
      SquareAbove(distance, z);
    }
  }

  /** The distance at which Clyde stops chasing, squared. */
  const ClydeRadiusSquared := 64.0

  /**
   * Clyde: Pacman's rounded tile while Pacman is farther than 8 from Clyde,
   * his home node's position otherwise.
   */
  function ClydeTarget(clyde: Vec, pacman: Vec, home: Vec): (t: Vec)
    ensures t == RoundVec(pacman) || t == home
  {
    if SqDist(clyde, pacman) > ClydeRadiusSquared then RoundVec(pacman) else home
  }

  /**
   * On true distances: Clyde chases exactly when the distance is strictly
   * greater than 8, and goes home at a distance of exactly 8.
   */
  lemma ClydeSwitchesAtEight(clyde: Vec, pacman: Vec, home: Vec, distance: real)
    requires distance >= 0.0 && distance * distance == SqDist(clyde, pacman)
    ensures distance > 8.0 ==> ClydeTarget(clyde, pacman, home) == RoundVec(pacman)
    ensures distance <= 8.0 ==> ClydeTarget(clyde, pacman, home) == home
  {
    SquaredOrderMatchesDistance(8.0, distance);
  }

  /** FindRandomPosition: an integer tile in [0, 28) x [0, 32). */
  predicate RandomTile(v: Vec)
  {
    IsTile(v) && 0.0 <= v.x < 28.0 && 0.0 <= v.y < 32.0
  }

  // ---- ChooseNextNode ----

  /** The candidate arrays have four slots, always. */
  const SlotCount := 4

  /** The starting least distance, 100000, squared. */
  const FarAway := 10000000000.0

  /** Neighbour `k` of node `n`. */
  function Nbr(g: Graph, n: nat, k: nat): (m: nat)
    requires n < |g| && WellFormed(g) && k < |g[n].neighbours|
    ensures m < |g|
  {
    assert LinksOk(g, n);
    g[n].neighbours[k]
  }

  /** The valid direction stored for neighbour `k` of node `n`. */
  function Dir(g: Graph, n: nat, k: nat): Vec
    requires n < |g| && WellFormed(g) && k < |g[n].neighbours|
  {
    assert DirectionsOk(g, n);
    g[n].validDirections[k]
  }

  /**
   * The first loop of ChooseNextNode over neighbours 0..i-1: every
   * neighbour whose valid direction is not `reverse`, with that direction,
   * in neighbour order.
   */
  function Found(g: Graph, n: nat, reverse: Vec, i: nat): (c: seq<(nat, Vec)>)
    requires n < |g| && WellFormed(g) && i <= |g[n].neighbours|
    ensures |c| <= i
    ensures forall j :: 0 <= j < |c| ==> c[j].0 < |g| && c[j].1 != reverse
    decreases i
  {
    if i == 0 then []
    else if Dir(g, n, i - 1) != reverse then
      Found(g, n, reverse, i - 1) + [(Nbr(g, n, i - 1), Dir(g, n, i - 1))]
    else Found(g, n, reverse, i - 1)
  }

  /** Every neighbour that is not the reverse has a slot, and every slot is such a neighbour. */
  lemma {:induction false} FoundIsTheNonReverseNeighbours(g: Graph, n: nat, reverse: Vec, i: nat)
    requires n < |g| && WellFormed(g) && i <= |g[n].neighbours|
    ensures forall k :: 0 <= k < i && Dir(g, n, k) != reverse ==>
      (Nbr(g, n, k), Dir(g, n, k)) in Found(g, n, reverse, i)
    ensures forall j :: 0 <= j < |Found(g, n, reverse, i)| ==>
      exists k :: 0 <= k < i && Found(g, n, reverse, i)[j] == (Nbr(g, n, k), Dir(g, n, k))
    decreases i
  {
    if i > 0 {
      FoundIsTheNonReverseNeighbours(g, n, reverse, i - 1);
      var prev := Found(g, n, reverse, i - 1);
      var c := Found(g, n, reverse, i);
      var last := (Nbr(g, n, i - 1), Dir(g, n, i - 1));
      assert c == prev + [last] || c == prev;
      forall j | 0 <= j < |c|
        ensures exists k :: 0 <= k < i && c[j] == (Nbr(g, n, k), Dir(g, n, k))
      {
        if j < |prev| {
          var k :| 0 <= k < i - 1 && prev[j] == (Nbr(g, n, k), Dir(g, n, k));
          assert c[j] == prev[j];
          assert 0 <= k < i && c[j] == (Nbr(g, n, k), Dir(g, n, k));
        } else {
          assert c[j] == last;
          assert 0 <= i - 1 < i && c[j] == (Nbr(g, n, i - 1), Dir(g, n, i - 1));
        }
      }
      forall k | 0 <= k < i && Dir(g, n, k) != reverse
        ensures (Nbr(g, n, k), Dir(g, n, k)) in c
      {
        if k < i - 1 {
          assert (Nbr(g, n, k), Dir(g, n, k)) in prev;
        } else {
          assert c == prev + [last];
          assert c[|prev|] == last;
        }
      }
    } else {
      assert Found(g, n, reverse, i) == [];
    }
  }

  /** The first loop's slot count only grows with the neighbours scanned. */
  lemma {:induction false} FoundGrows(g: Graph, n: nat, reverse: Vec, i: nat, m: nat)
    requires n < |g| && WellFormed(g) && i <= m <= |g[n].neighbours|
    ensures |Found(g, n, reverse, i)| <= |Found(g, n, reverse, m)|
    decreases m - i
  {
    if i < m {
      FoundGrows(g, n, reverse, i, m - 1);
    }
  }

  /** No node offers more candidates than the arrays have slots (the source would overrun them). */
  predicate FitsSlots(g: Graph, n: nat, direction: Vec)
    requires n < |g| && WellFormed(g)
  {
    |Found(g, n, Neg(direction), |g[n].neighbours|)| <= SlotCount
  }

  /** A node with at most four neighbours always fits. */
  lemma FourNeighboursFit(g: Graph, n: nat, direction: Vec)
    requires n < |g| && WellFormed(g) && |g[n].neighbours| <= SlotCount
    ensures FitsSlots(g, n, direction)
  {
  }

  /** The candidate arrays after the first loop: the found pairs, then empty slots (direction zero). */
  function Slots(g: Graph, n: nat, direction: Vec): (s: seq<(nat, Vec)>)
    requires n < |g| && WellFormed(g) && FitsSlots(g, n, direction)
    ensures |s| == SlotCount && SlotsInGraph(g, s)
  {
    var f := Found(g, n, Neg(direction), |g[n].neighbours|);
    f + seq(SlotCount - |f|, _ => (0, Zero))
  }

  /** The slots hold the found candidates first and empty slots after them. */
  lemma SlotsLayout(g: Graph, n: nat, direction: Vec)
    requires n < |g| && WellFormed(g) && FitsSlots(g, n, direction)
    ensures var f := Found(g, n, Neg(direction), |g[n].neighbours|);
      && (forall j :: 0 <= j < |f| ==> Slots(g, n, direction)[j] == f[j])
      && (forall j :: |f| <= j < SlotCount ==> Slots(g, n, direction)[j] == (0, Zero))
  {
  }

  predicate SlotsInGraph(g: Graph, s: seq<(nat, Vec)>)
  {
    forall j :: 0 <= j < |s| ==> s[j].0 < |g|
  }

  /** A slot the second loop considers: its direction is not zero. */
  predicate Live(s: seq<(nat, Vec)>, j: nat)
    requires j < |s|
  {
    s[j].1 != Zero
  }

  /** Squared distance from slot `j`'s node to the target tile. */
  function SlotDist(g: Graph, s: seq<(nat, Vec)>, j: nat, tile: Vec): real
    requires SlotsInGraph(g, s) && j < |s|
  {
    SqDist(g[s[j].0].pos, tile)
  }

  /**
   * The second loop of ChooseNextNode from slot `i`, given the best slot so
   * far and its distance: a live slot strictly nearer than the best so far
   * replaces it.
   */
  function Nearest(g: Graph, s: seq<(nat, Vec)>, tile: Vec, i: nat, best: Option<nat>, least: real): (r: Option<nat>)
    requires SlotsInGraph(g, s) && i <= |s|
    requires best.Some? ==> best.value < i
    ensures best.Some? ==> r.Some?
    ensures r.Some? ==> r.value < |s|
    ensures r != best ==> r.Some? && i <= r.value && Live(s, r.value) && SlotDist(g, s, r.value, tile) < least
    decreases |s| - i
  {
    if i == |s| then best
    else if Live(s, i) && SlotDist(g, s, i, tile) < least then
      Nearest(g, s, tile, i + 1, Some(i), SlotDist(g, s, i, tile))
    else Nearest(g, s, tile, i + 1, best, least)
  }

  /** The scan keeps what it had exactly when no live slot from `i` on is nearer than `least`. */
  lemma {:induction false} NearestKeepsBest(g: Graph, s: seq<(nat, Vec)>, tile: Vec, i: nat, best: Option<nat>, least: real)
    requires SlotsInGraph(g, s) && i <= |s|
    requires best.Some? ==> best.value < i
    ensures Nearest(g, s, tile, i, best, least) == best <==>
      forall j :: i <= j < |s| && Live(s, j) ==> SlotDist(g, s, j, tile) >= least
    decreases |s| - i
  {
    if i < |s| {
      if Live(s, i) && SlotDist(g, s, i, tile) < least {
        NearestKeepsBest(g, s, tile, i + 1, Some(i), SlotDist(g, s, i, tile));
      } else {
        NearestKeepsBest(g, s, tile, i + 1, best, least);
      }
    }
  }

  /** A slot the scan picks is no farther than any live slot from `i` on. */
  lemma {:induction false} NearestIsNearest(g: Graph, s: seq<(nat, Vec)>, tile: Vec, i: nat, best: Option<nat>, least: real)
    requires SlotsInGraph(g, s) && i <= |s|
    requires best.Some? ==> best.value < i
    ensures var r := Nearest(g, s, tile, i, best, least);
      r != best ==> forall j :: i <= j < |s| && Live(s, j) ==>
        SlotDist(g, s, j, tile) >= SlotDist(g, s, r.value, tile)
    decreases |s| - i
  {
    if i < |s| {
      if Live(s, i) && SlotDist(g, s, i, tile) < least {
        NearestIsNearest(g, s, tile, i + 1, Some(i), SlotDist(g, s, i, tile));
        NearestKeepsBest(g, s, tile, i + 1, Some(i), SlotDist(g, s, i, tile));
      } else {
        NearestIsNearest(g, s, tile, i + 1, best, least);
      }
    }
  }

  /** A slot the scan picks is strictly nearer than every live slot before it: ties go to the first. */
  lemma {:induction false} NearestIsFirst(g: Graph, s: seq<(nat, Vec)>, tile: Vec, i: nat, best: Option<nat>, least: real)
    requires SlotsInGraph(g, s) && i <= |s|
    requires best.Some? ==> best.value < i
    ensures var r := Nearest(g, s, tile, i, best, least);
      r != best ==> forall j :: i <= j < r.value && Live(s, j) ==>
        SlotDist(g, s, j, tile) > SlotDist(g, s, r.value, tile)
    decreases |s| - i
  {
    if i < |s| {
      if Live(s, i) && SlotDist(g, s, i, tile) < least {
        NearestIsFirst(g, s, tile, i + 1, Some(i), SlotDist(g, s, i, tile));
      } else {
        NearestIsFirst(g, s, tile, i + 1, best, least);
      }
    }
  }

  /**
   * ChooseNextNode's choice from node `n` moving in `direction` toward
   * `tile`: the chosen neighbour with its direction, or nothing.
   */
  function Choice(g: Graph, n: nat, direction: Vec, tile: Vec): (r: Option<(nat, Vec)>)
    requires n < |g| && WellFormed(g) && FitsSlots(g, n, direction)
    ensures r.Some? ==> r.value.0 < |g| && r.value.1 != Zero && r.value.1 != Neg(direction)
  {
    var s := Slots(g, n, direction);
    match Nearest(g, s, tile, 0, None, FarAway)
    case None => None
    case Some(j) => Some(s[j])
  }

  /** A neighbour the ghost may take: neither the reverse of its direction nor a zero direction. */
  predicate Allowed(g: Graph, n: nat, direction: Vec, k: nat)
    requires n < |g| && WellFormed(g) && k < |g[n].neighbours|
  {
    Dir(g, n, k) != Neg(direction) && Dir(g, n, k) != Zero
  }

  /** Every allowed neighbour sits in a live slot. */
  lemma AllowedHasSlot(g: Graph, n: nat, direction: Vec, k: nat) returns (j: nat)
    requires n < |g| && WellFormed(g) && FitsSlots(g, n, direction)
    requires k < |g[n].neighbours| && Allowed(g, n, direction, k)
    ensures j < SlotCount && Live(Slots(g, n, direction), j)
    ensures Slots(g, n, direction)[j] == (Nbr(g, n, k), Dir(g, n, k))
  {
    var f := Found(g, n, Neg(direction), |g[n].neighbours|);
    FoundIsTheNonReverseNeighbours(g, n, Neg(direction), |g[n].neighbours|);
    j :| 0 <= j < |f| && f[j] == (Nbr(g, n, k), Dir(g, n, k));
    assert Slots(g, n, direction)[j] == f[j];
  }

  /**
   * A choice is an allowed neighbour (never the reverse direction), nearer
   * than 100000, and as near the tile as every allowed neighbour.
   */
  lemma ChoiceIsNearestAllowed(g: Graph, n: nat, direction: Vec, tile: Vec)
    requires n < |g| && WellFormed(g) && FitsSlots(g, n, direction)
    requires Choice(g, n, direction, tile).Some?
    ensures var m := Choice(g, n, direction, tile).value;
      && (exists k :: 0 <= k < |g[n].neighbours| && Allowed(g, n, direction, k) && m == (Nbr(g, n, k), Dir(g, n, k)))
      && SqDist(g[m.0].pos, tile) < FarAway
      && forall k :: 0 <= k < |g[n].neighbours| && Allowed(g, n, direction, k) ==>
           SqDist(g[Nbr(g, n, k)].pos, tile) >= SqDist(g[m.0].pos, tile)
  {
    var s := Slots(g, n, direction);
    var f := Found(g, n, Neg(direction), |g[n].neighbours|);
    var r := Nearest(g, s, tile, 0, None, FarAway);
    var m := s[r.value];
    NearestIsNearest(g, s, tile, 0, None, FarAway);
    FoundIsTheNonReverseNeighbours(g, n, Neg(direction), |g[n].neighbours|);
    assert r.value < |f|;
    assert m == f[r.value];
    var k :| 0 <= k < |g[n].neighbours| && m == (Nbr(g, n, k), Dir(g, n, k));
    assert Allowed(g, n, direction, k);
    forall k' | 0 <= k' < |g[n].neighbours| && Allowed(g, n, direction, k')
      ensures SqDist(g[Nbr(g, n, k')].pos, tile) >= SqDist(g[m.0].pos, tile)
    {
      var j := AllowedHasSlot(g, n, direction, k');
      assert SlotDist(g, s, j, tile) >= SlotDist(g, s, r.value, tile);
    }
  }

  /**
   * There is no choice exactly when every allowed neighbour is at least
   * 100000 away, in particular when every neighbour is the reverse.
   */
  lemma NoChoiceIffNoneNear(g: Graph, n: nat, direction: Vec, tile: Vec)
    requires n < |g| && WellFormed(g) && FitsSlots(g, n, direction)
    ensures Choice(g, n, direction, tile).None? <==>
      forall k :: 0 <= k < |g[n].neighbours| && Allowed(g, n, direction, k) ==>
        SqDist(g[Nbr(g, n, k)].pos, tile) >= FarAway
  {
    var s := Slots(g, n, direction);
    var f := Found(g, n, Neg(direction), |g[n].neighbours|);
    NearestKeepsBest(g, s, tile, 0, None, FarAway);
    FoundIsTheNonReverseNeighbours(g, n, Neg(direction), |g[n].neighbours|);
    if Choice(g, n, direction, tile).None? {
      forall k | 0 <= k < |g[n].neighbours| && Allowed(g, n, direction, k)
        ensures SqDist(g[Nbr(g, n, k)].pos, tile) >= FarAway
      {
        var j := AllowedHasSlot(g, n, direction, k);
        assert SlotDist(g, s, j, tile) >= FarAway;
      }
    } else {
      ChoiceIsNearestAllowed(g, n, direction, tile);
    }
  }

  /**
   * Of two candidates at the same distance the one earlier in neighbour
   * order wins, since the scan replaces its choice only on a strictly
   * smaller distance.
   */
  lemma TieGoesToFirstSlot(g: Graph, n: nat, direction: Vec, tile: Vec)
    requires n < |g| && WellFormed(g) && FitsSlots(g, n, direction)
    ensures var s := Slots(g, n, direction);
      var r := Nearest(g, s, tile, 0, None, FarAway);
      r.Some? ==> forall j :: 0 <= j < r.value && Live(s, j) ==>
        SlotDist(g, s, j, tile) > SlotDist(g, s, r.value, tile)
  {
    NearestIsFirst(g, Slots(g, n, direction), tile, 0, None, FarAway);
  }

  /** ChooseNextNode's first loop: gather the non-reverse neighbours into four slots. */
  method GatherCandidates(g: Graph, n: nat, direction: Vec) returns (foundNodes: array<nat>, foundNodesDirection: array<Vec>)
    requires n < |g| && WellFormed(g) && FitsSlots(g, n, direction)
    ensures fresh(foundNodes) && fresh(foundNodesDirection)
    ensures foundNodes.Length == SlotCount && foundNodesDirection.Length == SlotCount
    ensures forall j :: 0 <= j < SlotCount ==>
      (foundNodes[j], foundNodesDirection[j]) == Slots(g, n, direction)[j]
  {
    var reverse := Neg(direction);
    foundNodes := new nat[SlotCount](_ => 0);
    foundNodesDirection := new Vec[SlotCount](_ => Zero);
    var nodeCounter := 0;
    ghost var found: seq<(nat, Vec)> := [];
    FoundGrows(g, n, reverse, 0, |g[n].neighbours|);
    for i := 0 to |g[n].neighbours|
      invariant found == Found(g, n, reverse, i)
      invariant nodeCounter == |found| <= SlotCount
      invariant forall j :: 0 <= j < nodeCounter ==> foundNodes[j] == found[j].0
      invariant forall j :: 0 <= j < nodeCounter ==> foundNodesDirection[j] == found[j].1
      invariant forall j :: nodeCounter <= j < SlotCount ==> foundNodes[j] == 0
      invariant forall j :: nodeCounter <= j < SlotCount ==> foundNodesDirection[j] == Zero
    {
      FoundGrows(g, n, reverse, i + 1, |g[n].neighbours|);
      if Dir(g, n, i) != reverse {
        foundNodes[nodeCounter] := Nbr(g, n, i);
        foundNodesDirection[nodeCounter] := Dir(g, n, i);
        found := found + [(Nbr(g, n, i), Dir(g, n, i))];
        nodeCounter := nodeCounter + 1;
      }
    }
    SlotsLayout(g, n, direction);
  }

  /**
   * ChooseNextNode's two loops: the neighbour chosen and the ghost's
   * direction afterwards (unchanged when nothing is chosen).
   */
  method SelectNeighbour(g: Graph, n: nat, direction: Vec, tile: Vec) returns (moveTo: Option<nat>, newDirection: Vec)
    requires n < |g| && WellFormed(g) && FitsSlots(g, n, direction)
    ensures Choice(g, n, direction, tile).Some? ==>
      moveTo == Some(Choice(g, n, direction, tile).value.0) && newDirection == Choice(g, n, direction, tile).value.1
    ensures Choice(g, n, direction, tile).None? ==> moveTo == None && newDirection == direction
  {
    var foundNodes, foundNodesDirection := GatherCandidates(g, n, direction);
    ghost var s := Slots(g, n, direction);
    moveTo := None;
    newDirection := direction;
    var leastDistance := FarAway;
    ghost var best: Option<nat> := None;
    for i := 0 to SlotCount
      invariant best.Some? ==> best.value < i
      invariant Nearest(g, s, tile, i, best, leastDistance) == Nearest(g, s, tile, 0, None, FarAway)
      invariant best.None? ==> moveTo == None && newDirection == direction
      invariant best.Some? ==> moveTo == Some(s[best.value].0) && newDirection == s[best.value].1
      invariant best.Some? ==> leastDistance == SlotDist(g, s, best.value, tile)
    {
      if foundNodesDirection[i] != Zero {
        var distance := SqDist(g[foundNodes[i]].pos, tile);
        if distance < leastDistance {
          leastDistance := distance;
          moveTo := Some(foundNodes[i]);
          newDirection := foundNodesDirection[i];
          best := Some(i);
        }
      }
    }
  }
}
