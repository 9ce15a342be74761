/**
 * The value-level rules behind GameBoard.cs: the 28 x 36 cell grid and its
 * portal lookup, the difficulty table, score and pellet accounting, the win
 * condition, the bonus-item thresholds and the layout of a saved pellet state.
 */
module BoardRules {
  import opened Optional
  import opened Geometry
  import opened Nodes
  import opened Levels

  const BoardWidth := 28
  const BoardHeight := 36

  /** Pellets eaten before the first and the second bonus item appear. */
  const FirstBonusAt := 70
  const SecondBonusAt := 170

  /** FindAllPacpoints adds four to the number of plain pellets. */
  const SuperPacpointAllowance := 4

  datatype GameState = NewGame | InGame | Restart | GameOver

  datatype Players = PlayerOne | PlayerTwo

  /** The player SwapCurrentPlayer switches to. */
  function Other(p: Players): (q: Players)
    ensures q != p
  {
    if p == PlayerOne then PlayerTwo else PlayerOne
  }

  /** Swapping twice gives the turn back: SwapCurrentPlayer is an involution. */
  lemma SwapIsInvolution(p: Players)
    ensures Other(Other(p)) == p
  {
  }

  // ---------------------------------------------------------------- grid

  /**
   * The grid cell of a position: the truncated absolute coordinates, as
   * both FindAllNodes and GetPortalNodeAtPosition compute them.
   */
  function Cell(v: Vec): (c: (int, int))
    ensures 0 <= c.0 && c.0 as real <= Abs(v.x) < c.0 as real + 1.0
    ensures 0 <= c.1 && c.1 as real <= Abs(v.y) < c.1 as real + 1.0
  {
    (Truncate(Abs(v.x)), Truncate(Abs(v.y)))
  }

  /** The position indexes the 28 x 36 array without going out of range. */
  predicate InBoard(v: Vec)
  {
    Cell(v).0 < BoardWidth && Cell(v).1 < BoardHeight
  }

  /** Node `n` stands on the board. */
  predicate NodeInBoard(g: Graph, n: nat)
    requires n < |g|
  {
    InBoard(g[n].pos)
  }

  /** A scene graph the board can hold: well formed, every node on the board. */
  predicate GraphOk(g: Graph)
  {
    WellFormed(g) && forall n :: 0 <= n < |g| ==> NodeInBoard(g, n)
  }

  /**
   * The node FindAllNodes leaves in cell (x, y) after storing nodes 0..n-1
   * in order: each store overwrites the previous occupant, so the last one
   * stays.
   */
  function LastInCell(g: Graph, x: int, y: int, n: nat): (r: Option<nat>)
    requires n <= |g|
    ensures r.Some? ==> r.value < n && Cell(g[r.value].pos) == (x, y)
  {
    if n == 0 then None
    else if Cell(g[n - 1].pos) == (x, y) then Some(n - 1)
    else LastInCell(g, x, y, n - 1)
  }

  /** LastInCell is exactly the last node of the cell, and None means an empty cell. */
  lemma {:induction false} LastInCellIsLast(g: Graph, x: int, y: int, n: nat)
    requires n <= |g|
    ensures LastInCell(g, x, y, n).Some? ==>
      forall j :: LastInCell(g, x, y, n).value < j < n ==> Cell(g[j].pos) != (x, y)
    ensures LastInCell(g, x, y, n).None? <==> forall j :: 0 <= j < n ==> Cell(g[j].pos) != (x, y)
  {
    if n > 0 {
      LastInCellIsLast(g, x, y, n - 1);
    }
  }

  /**
   * GetPortalNodeAtPosition once the cell's occupant is known: the occupant's
   * receiver if it is a portal that has one, otherwise nothing.
   */
  function PortalLookup(g: Graph, occupant: Option<nat>): (r: Option<nat>)
    requires occupant.Some? ==> occupant.value < |g|
    ensures r.Some? ==> occupant.Some? && g[occupant.value].portal == Portal(r)
  {
    match occupant
    case None => None
    case Some(k) => if g[k].portal.Portal? then g[k].portal.receiver else None
  }

  /**
   * FindAllNodes and the portal lookup agree on the cell: a node that no
   * later node shares its cell with is found again from its own position,
   * and the lookup yields its receiver exactly when it is a portal with one.
   */
  lemma PortalFoundFromOwnPosition(g: Graph, n: nat)
    requires n < |g|
    requires forall j :: n < j < |g| ==> Cell(g[j].pos) != Cell(g[n].pos)
    ensures LastInCell(g, Cell(g[n].pos).0, Cell(g[n].pos).1, |g|) == Some(n)
    ensures PortalLookup(g, LastInCell(g, Cell(g[n].pos).0, Cell(g[n].pos).1, |g|)) ==
      if g[n].portal.Portal? then g[n].portal.receiver else None
  {
    var c := Cell(g[n].pos);
    LastInCellIsLast(g, c.0, c.1, |g|);
  }

  /**
   * The lookup is one-way: a portal at (1, -14) leading to a node at
   * (26, -14) that is itself a portal without a receiver. From the first cell
   * the lookup reaches the second node; from the second it yields nothing.
   */
  lemma PortalLookupIsOneWay()
    ensures var g := [Node(Vec(1.0, -14.0), [], [], true, Portal(Some(1))),
                      Node(Vec(26.0, -14.0), [], [], true, Portal(None))];
      && PortalLookup(g, LastInCell(g, 1, 14, 2)) == Some(1)
      && PortalLookup(g, LastInCell(g, 26, 14, 2)) == None
  {
    var g := [Node(Vec(1.0, -14.0), [], [], true, Portal(Some(1))),
              Node(Vec(26.0, -14.0), [], [], true, Portal(None))];
    assert Cell(g[1].pos) == (26, 14);
    assert Cell(g[0].pos) == (1, 14);
  }

  // ---------------------------------------------------------- difficulty

  /**
   * ChangeLevelDifficulty over the table LoadLevelsData builds: profile `i`
   * of the load order is stored under key `i + 1`, so the table is the
   * sequence of profiles. A level beyond the table takes the last profile.
   * None stands for the lookups that throw in the source: an empty table, or
   * a level below 1.
   */
  function DifficultyFor(levels: seq<LevelDifficulty>, level: int): (r: Option<LevelDifficulty>)
    ensures r.Some? <==> |levels| > 0 && level >= 1
    ensures r.Some? ==> r.value in levels
  {
    if level > |levels| then
      (if |levels| == 0 then None else Some(levels[|levels| - 1]))
    else if level < 1 then None
    else Some(levels[level - 1])
  }

  function Min(a: int, b: int): int { if a < b then a else b }

  /**
   * The difficulty table is clamped: level `l` uses profile min(l, n), counted
   * from 1, and every level from n on uses the same last profile.
   */
  lemma DifficultyIsClamped(levels: seq<LevelDifficulty>, level: int, later: int)
    requires |levels| > 0 && level >= 1
    ensures DifficultyFor(levels, level) == Some(levels[Min(level, |levels|) - 1])
    ensures level >= |levels| && later >= level ==>
      DifficultyFor(levels, later) == DifficultyFor(levels, level)
  {
  }

  /**
   * The GameOver hand-over keeps the eliminated player's profile. It is not
   * the survivor's whenever their levels select different profiles: with two
   * distinct profiles, an eliminated player on level 2 leaves profile b in
   * force for a survivor on level 1, whose own profile is a.
   */
  lemma HandOverKeepsEliminatedProfile(a: LevelDifficulty, b: LevelDifficulty)
    requires a != b
    ensures DifficultyFor([a, b], 2) == Some(b)
    ensures DifficultyFor([a, b], 1) == Some(a)
    ensures DifficultyFor([a, b], 2) != DifficultyFor([a, b], 1)
  {
  }

  // ------------------------------------------------------------- scoring

  /** One UpdateScore call: the points and which kind of pickup gave them. */
  datatype ScoreEvent = ScoreEvent(value: int, isGhost: bool, isBonusItem: bool)

  /** Only plain and super pellets count toward the level, never ghosts or bonus items. */
  predicate IsPellet(e: ScoreEvent)
  {
    !e.isGhost && !e.isBonusItem
  }

  /** Pellet counter and score after one UpdateScore call. */
  function ScoreStep(consumed: int, score: int, e: ScoreEvent): (r: (int, int))
    ensures r.1 - score == e.value
    ensures r.0 - consumed == (if IsPellet(e) then 1 else 0)
  {
    (if IsPellet(e) then consumed + 1 else consumed, score + e.value)
  }

  /** Pellet counter and score after a run of UpdateScore calls, one at a time. */
  function ScoreRun(consumed: int, score: int, events: seq<ScoreEvent>): (int, int)
    decreases |events|
  {
    if |events| == 0 then (consumed, score)
    else
      var next := ScoreStep(consumed, score, events[0]);
      ScoreRun(next.0, next.1, events[1..])
  }

  /** How many of the events are pellets (counted from the back). */
  function PelletCount(events: seq<ScoreEvent>): nat
    decreases |events|
  {
    if |events| == 0 then 0
    else PelletCount(events[..|events| - 1]) + (if IsPellet(events[|events| - 1]) then 1 else 0)
  }

  /** Total of the points (counted from the back). */
  function PointsTotal(events: seq<ScoreEvent>): int
    decreases |events|
  {
    if |events| == 0 then 0 else PointsTotal(events[..|events| - 1]) + events[|events| - 1].value
  }

  lemma {:induction false} PelletCountCons(e: ScoreEvent, rest: seq<ScoreEvent>)
    ensures PelletCount([e] + rest) == (if IsPellet(e) then 1 else 0) + PelletCount(rest)
    ensures PointsTotal([e] + rest) == e.value + PointsTotal(rest)
    decreases |rest|
  {
    if |rest| > 0 {
      var last := |rest| - 1;
      assert ([e] + rest)[..|[e] + rest| - 1] == [e] + rest[..last];
      PelletCountCons(e, rest[..last]);
    } else {
      assert [e] + rest == [e];
    }
  }

  /**
   * Score and pellet accounting: after any sequence of UpdateScore calls the
   * score has grown by the sum of all values, and the pellet counter by the
   * number of calls that were neither a ghost nor a bonus item.
   */
  lemma {:induction false} ScoreRunAccounts(consumed: int, score: int, events: seq<ScoreEvent>)
    ensures ScoreRun(consumed, score, events) ==
      (consumed + PelletCount(events), score + PointsTotal(events))
    decreases |events|
  {
    if |events| > 0 {
      var next := ScoreStep(consumed, score, events[0]);
      ScoreRunAccounts(next.0, next.1, events[1..]);
      assert events == [events[0]] + events[1..];
      PelletCountCons(events[0], events[1..]);
    }
  }

  /** WinLevel: the current player has eaten at least the level's pellet total. */
  predicate LevelWon(consumed: int, totalPacpoints: int)
  {
    consumed >= totalPacpoints
  }

  /**
   * The win condition seen from the start of a level: with `pellets` plain
   * pellets on the board, the level is won exactly when the pellet events so
   * far number at least pellets + 4, whatever ghosts or bonus items were eaten.
   */
  lemma LevelWonExactlyAfterAllPellets(pellets: nat, score: int, events: seq<ScoreEvent>)
    ensures LevelWon(ScoreRun(0, score, events).0, pellets + SuperPacpointAllowance)
      <==> PelletCount(events) >= pellets + SuperPacpointAllowance
  {
    ScoreRunAccounts(0, score, events);
  }

  // ---------------------------------------------------------- bonus items

  /** The first bonus item, in array order, whose name is `name`. */
  function FirstNamed(names: seq<string>, name: string, from: nat): (r: Option<nat>)
    requires from <= |names|
    ensures r.Some? ==> from <= r.value < |names| && names[r.value] == name
    decreases |names| - from
  {
    if from == |names| then None
    else if names[from] == name then Some(from)
    else FirstNamed(names, name, from + 1)
  }

  /** FirstNamed finds the earliest match, and finds nothing only when none matches. */
  lemma {:induction false} FirstNamedIsFirst(names: seq<string>, name: string, from: nat)
    requires from <= |names|
    ensures FirstNamed(names, name, from).Some? ==>
      forall j :: from <= j < FirstNamed(names, name, from).value ==> names[j] != name
    ensures FirstNamed(names, name, from).None? <==>
      forall j :: from <= j < |names| ==> names[j] != name
    decreases |names| - from
  {
    if from < |names| {
      FirstNamedIsFirst(names, name, from + 1);
    }
  }

  // ------------------------------------------------------ saved pellet state

  /**
   * The slot of super pellet `i` as SaveBoardState and LoadBoardState
   * compute it: `lastIndex` starts at 0 and holds the last plain-pellet index
   * after the first loop, and the super pellet goes to lastIndex + i + 1.
   */
  function SuperSlotAsWritten(pellets: nat, i: nat): (slot: nat)
    ensures pellets <= slot && i < slot
  {
    var lastIndex := if pellets == 0 then 0 else pellets - 1;
    lastIndex + i + 1
  }

  /** The intended slot: super pellets follow the plain pellets. */
  function SuperSlot(pellets: nat, supers: nat, i: nat): (slot: nat)
    requires i < supers
    ensures pellets <= slot < pellets + supers
  {
    pellets + i
  }

  /** With at least one plain pellet the written slot is the intended one. */
  lemma SuperSlotAsWrittenAgrees(pellets: nat, supers: nat, i: nat)
    requires pellets >= 1 && i < supers
    ensures SuperSlotAsWritten(pellets, i) == SuperSlot(pellets, supers, i)
  {
  }

  /**
   * With no plain pellet the last super pellet is written one past the end
   * of the array of length 0 + supers.
   */
  lemma SuperSlotAsWrittenOverflows(supers: nat)
    requires supers >= 1
    ensures SuperSlotAsWritten(0, supers - 1) == 0 + supers
  {
  }
}
