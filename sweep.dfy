/**
 * The sweeps of `PlatformerGame::physics_process`
 * (extension/src/platformer/mod.rs): how one moving actor's candidate
 * velocity `next_vel` is clamped on one axis, first against the solid
 * tiles it would cross and then against the facing edges of every actor.
 *
 * The X pass (mod.rs:52-148) and the Y pass (mod.rs:172-268) are the same
 * code with the axes exchanged, apart from one extra guard in the Y pass
 * (mod.rs:253); both are modelled once, over an `Axis`.  "Forward" is
 * right on X and down on Y; "backward" is left on X and up on Y.
 *
 * For each sweep there is a specification function on values and a method
 * with the source's loops proved against it.
 */
module Sweeps {
  import opened Options
  import opened Int32
  import opened Actors

  // ---------------------------------------------------------------------
  // Tile coordinates

  const TILEMAP_SCALE_LOG2: nat := 16
  /** `1 << TILEMAP_SCALE_LOG2`: fixed-point units per tile. */
  const TILE_SIZE: int := 0x1_0000

  /** One component of `tile_pos`: `n >> 16`, which is floor division. */
  function TileCoord(n: int): (t: int)
    ensures t * TILE_SIZE <= n < t * TILE_SIZE + TILE_SIZE
  {
    n / TILE_SIZE
  }

  /** `PlatformerGame::tile_pos`: the tile that contains a point. */
  function TilePos(v: Vec): (r: Vec)
    ensures r.x * TILE_SIZE <= v.x < r.x * TILE_SIZE + TILE_SIZE
    ensures r.y * TILE_SIZE <= v.y < r.y * TILE_SIZE + TILE_SIZE
  {
    Vec(TileCoord(v.x), TileCoord(v.y))
  }

  /** `PlatformerGame::un_tile_pos`: `t << 16` on an i32, which wraps. */
  function UnTilePos(t: int): (r: int)
    ensures InRange(r)
    ensures -0x8000 <= t < 0x8000 ==> r == t * TILE_SIZE
  {
    Wrap(t * TILE_SIZE)
  }

  /** The tile boundary `un_tile_pos(t)` lies in tile `t` when it is representable. */
  lemma TilePosRoundTrip(t: int)
    requires -0x8000 <= t < 0x8000
    ensures TileCoord(UnTilePos(t)) == t
  {
    assert UnTilePos(t) == t * TILE_SIZE;
  }

  // ---------------------------------------------------------------------
  // Axes

  datatype Axis = X | Y

  function Along(v: Vec, axis: Axis): int {
    if axis == X then v.x else v.y
  }

  function Across(v: Vec, axis: Axis): int {
    if axis == X then v.y else v.x
  }

  function WithAlong(v: Vec, axis: Axis, n: int): (r: Vec)
    ensures Along(r, axis) == n && Across(r, axis) == Across(v, axis)
  {
    if axis == X then v.(x := n) else v.(y := n)
  }

  /** The collision bit for a stop while moving forward: RIGHT on X, DOWN on Y. */
  function Forward(axis: Axis): Directions {
    if axis == X then RIGHT else DOWN
  }

  /** The collision bit for a stop while moving backward: LEFT on X, UP on Y. */
  function Backward(axis: Axis): Directions {
    if axis == X then LEFT else UP
  }

  /** The sweeps change `next_vel` and `collided` and nothing else. */
  predicate SameBody(a: ActorData, b: ActorData) {
    a == b.(nextVel := a.nextVel, collided := a.collided)
  }

  // ---------------------------------------------------------------------
  // Tile sweep

  /** The tile layer: `get_cell_tile_data` and its "Solid" custom data. */
  type TileMap = (int, int) -> Option<bool>

  /** A cell counts as solid only when it has data whose "Solid" is true. */
  predicate Solid(tiles: TileMap, x: int, y: int) {
    tiles(x, y) == Some(true)
  }

  /** The cell at `along` on the axis and `across` on the other one. */
  predicate CellSolid(tiles: TileMap, axis: Axis, along: int, across: int) {
    if axis == X then Solid(tiles, along, across) else Solid(tiles, across, along)
  }

  /** Some cell `across` in `[lo, hi]` of the column (or row) at `c` is solid. */
  ghost predicate ColumnSolid(tiles: TileMap, axis: Axis, c: int, lo: int, hi: int) {
    exists k :: lo <= k <= hi && CellSolid(tiles, axis, c, k)
  }

  /** The least `c` in `[lo, hi]` whose column is solid. */
  ghost function FirstSolid(tiles: TileMap, axis: Axis, lo: int, hi: int, clo: int, chi: int): (r: Option<int>)
    ensures r.Some? ==> lo <= r.value <= hi && ColumnSolid(tiles, axis, r.value, clo, chi)
    ensures forall c :: lo <= c <= hi && ColumnSolid(tiles, axis, c, clo, chi) ==> r.Some? && r.value <= c
    decreases hi - lo
  {
    if lo > hi then None
    else if ColumnSolid(tiles, axis, lo, clo, chi) then Some(lo)
    else FirstSolid(tiles, axis, lo + 1, hi, clo, chi)
  }

  /** The greatest `c` in `[lo, hi]` whose column is solid. */
  ghost function LastSolid(tiles: TileMap, axis: Axis, lo: int, hi: int, clo: int, chi: int): (r: Option<int>)
    ensures r.Some? ==> lo <= r.value <= hi && ColumnSolid(tiles, axis, r.value, clo, chi)
    ensures forall c :: lo <= c <= hi && ColumnSolid(tiles, axis, c, clo, chi) ==> r.Some? && c <= r.value
    decreases hi - lo
  {
    if hi < lo then None
    else if ColumnSolid(tiles, axis, hi, clo, chi) then Some(hi)
    else LastSolid(tiles, axis, lo, hi - 1, clo, chi)
  }

  // The ranges scanned when moving forward (mod.rs:56-68, 176-188): the
  // columns past the leading edge up to the one the moved edge reaches, and
  // the rows the box covers.

  function ForwardFrom(axis: Axis, d: ActorData): int {
    TileCoord(Along(BottomRight(d), axis) - 1) + 1
  }

  function ForwardTo(axis: Axis, d: ActorData): int {
    TileCoord(Along(BottomRight(d), axis) + Along(d.vel, axis))
  }

  function ForwardCrossLo(axis: Axis, d: ActorData): int {
    TileCoord(Across(BottomRight(d), axis) - Across(d.areaSize, axis))
  }

  function ForwardCrossHi(axis: Axis, d: ActorData): int {
    TileCoord(Across(BottomRight(d), axis) - 1)
  }

  // The ranges scanned when moving backward (mod.rs:79-91, 199-211): from
  // the column the moved edge reaches up to, but excluding, the column of
  // the trailing edge.

  function BackwardFrom(axis: Axis, d: ActorData): int {
    TileCoord(Along(TopLeft(d), axis) + Along(d.vel, axis))
  }

  function BackwardUntil(axis: Axis, d: ActorData): int {
    TileCoord(Along(TopLeft(d), axis) + 1)
  }

  function BackwardCrossLo(axis: Axis, d: ActorData): int {
    TileCoord(Across(TopLeft(d), axis))
  }

  function BackwardCrossHi(axis: Axis, d: ActorData): int {
    TileCoord(Across(TopLeft(d), axis) + Across(d.areaSize, axis) - 1)
  }

  /** A forward stop at tile column `c`: the leading edge ends flush with the
      column's near boundary. */
  function StopForward(axis: Axis, d: ActorData, c: int): (r: ActorData)
    ensures SameBody(r, d)
    ensures Along(BottomRight(d), axis) + r.nextVel == UnTilePos(c)
    ensures r.collided == d.collided | Forward(axis)
  {
    d.(nextVel := UnTilePos(c) - Along(BottomRight(d), axis), collided := d.collided | Forward(axis))
  }

  /** A backward stop at tile column `c`: the trailing edge ends flush with the
      column's far boundary. */
  function StopBackward(axis: Axis, d: ActorData, c: int): (r: ActorData)
    ensures SameBody(r, d)
    ensures Along(TopLeft(d), axis) + r.nextVel == UnTilePos(c + 1)
    ensures r.collided == d.collided | Backward(axis)
  {
    d.(nextVel := UnTilePos(c + 1) - Along(TopLeft(d), axis), collided := d.collided | Backward(axis))
  }

  function ForwardResult(axis: Axis, d: ActorData, hit: Option<int>): (r: ActorData)
    ensures SameBody(r, d) && Contains(r.collided, d.collided)
  {
    match hit
    case Some(c) => StopForward(axis, d, c)
    case None => d
  }

  function BackwardResult(axis: Axis, d: ActorData, hit: Option<int>): (r: ActorData)
    ensures SameBody(r, d) && Contains(r.collided, d.collided)
  {
    match hit
    case Some(c) => StopBackward(axis, d, c)
    case None => d
  }

  /** The tile sweep of one mover: the nearest solid column in its path stops it. */
  ghost function TileSweepSpec(axis: Axis, tiles: TileMap, d: ActorData): (r: ActorData)
    ensures SameBody(r, d) && Contains(r.collided, d.collided)
  {
    var v := Along(d.vel, axis);
    if v > 0 then
      ForwardResult(axis, d, FirstSolid(tiles, axis, ForwardFrom(axis, d), ForwardTo(axis, d),
                                        ForwardCrossLo(axis, d), ForwardCrossHi(axis, d)))
    else if v < 0 then
      BackwardResult(axis, d, LastSolid(tiles, axis, BackwardFrom(axis, d), BackwardUntil(axis, d) - 1,
                                        BackwardCrossLo(axis, d), BackwardCrossHi(axis, d)))
    else
      d
  }

  /** Moving forward, the tile sweep stops the mover flush against the nearest
      solid column, and leaves it alone when no column in its path is solid. */
  lemma TileSweepForwardStopsAtNearest(axis: Axis, tiles: TileMap, d: ActorData)
    requires Along(d.vel, axis) > 0
    ensures var r := TileSweepSpec(axis, tiles, d);
            var lo, hi := ForwardFrom(axis, d), ForwardTo(axis, d);
            var clo, chi := ForwardCrossLo(axis, d), ForwardCrossHi(axis, d);
            (r == d && forall c :: lo <= c <= hi ==> !ColumnSolid(tiles, axis, c, clo, chi)) ||
            (exists c :: lo <= c <= hi && ColumnSolid(tiles, axis, c, clo, chi) &&
               (forall c' :: lo <= c' < c ==> !ColumnSolid(tiles, axis, c', clo, chi)) &&
               Along(BottomRight(d), axis) + r.nextVel == UnTilePos(c) &&
               r.collided == d.collided | Forward(axis))
  {
    var lo, hi := ForwardFrom(axis, d), ForwardTo(axis, d);
    var clo, chi := ForwardCrossLo(axis, d), ForwardCrossHi(axis, d);
    var hit := FirstSolid(tiles, axis, lo, hi, clo, chi);
    if hit.Some? {
      var c := hit.value;
      assert forall c' :: lo <= c' < c ==> !ColumnSolid(tiles, axis, c', clo, chi);
    }
  }

  /** Moving backward, every solid column overwrites the stop and the scan runs
      toward the mover, so the nearest solid column still decides. */
  lemma TileSweepBackwardStopsAtNearest(axis: Axis, tiles: TileMap, d: ActorData)
    requires Along(d.vel, axis) < 0
    ensures var r := TileSweepSpec(axis, tiles, d);
            var lo, hi := BackwardFrom(axis, d), BackwardUntil(axis, d) - 1;
            var clo, chi := BackwardCrossLo(axis, d), BackwardCrossHi(axis, d);
            (r == d && forall c :: lo <= c <= hi ==> !ColumnSolid(tiles, axis, c, clo, chi)) ||
            (exists c :: lo <= c <= hi && ColumnSolid(tiles, axis, c, clo, chi) &&
               (forall c' :: c < c' <= hi ==> !ColumnSolid(tiles, axis, c', clo, chi)) &&
               Along(TopLeft(d), axis) + r.nextVel == UnTilePos(c + 1) &&
               r.collided == d.collided | Backward(axis))
  {
    var lo, hi := BackwardFrom(axis, d), BackwardUntil(axis, d) - 1;
    var clo, chi := BackwardCrossLo(axis, d), BackwardCrossHi(axis, d);
    var hit := LastSolid(tiles, axis, lo, hi, clo, chi);
    if hit.Some? {
      var c := hit.value;
      assert forall c' :: c < c' <= hi ==> !ColumnSolid(tiles, axis, c', clo, chi);
    }
  }

  /** A mover at rest on the axis is never stopped by tiles. */
  lemma TileSweepAtRest(axis: Axis, tiles: TileMap, d: ActorData)
    requires Along(d.vel, axis) == 0
    ensures TileSweepSpec(axis, tiles, d) == d
  {
  }

  /** `get_cell_tile_data(..)` then `get_custom_data("Solid")` for one cell. */
  method IsSolidCell(tiles: TileMap, axis: Axis, along: int, across: int) returns (solid: bool)
    ensures solid == CellSolid(tiles, axis, along, across)
  {
    var data := if axis == X then tiles(along, across) else tiles(across, along);
    solid := false;
    if data.Some? {
      if data.value {
        solid := true;
      }
    }
  }

  /** The inner scan over one column (or row): stops at its first solid cell. */
  method ScanColumn(tiles: TileMap, axis: Axis, c: int, clo: int, chi: int) returns (solid: bool)
    ensures solid == ColumnSolid(tiles, axis, c, clo, chi)
  {
    var k := clo;
    while k <= chi
      invariant clo <= k
      invariant forall k' :: clo <= k' < k ==> !CellSolid(tiles, axis, c, k')
      decreases chi - k
    {
      solid := IsSolidCell(tiles, axis, c, k);
      if solid {
        return;
      }
      k := k + 1;
    }
    solid := false;
  }

  /** The tile half of a mover's sweep, with the source's nested scans. */
  method TileSweep(axis: Axis, tiles: TileMap, d: ActorData) returns (r: ActorData)
    ensures r == TileSweepSpec(axis, tiles, d)
  {
    if Along(d.vel, axis) > 0 {
      r := TileSweepForward(axis, tiles, d);
    } else if Along(d.vel, axis) < 0 {
      r := TileSweepBackward(axis, tiles, d);
    } else {
      r := d;
    }
  }

  /** Moving forward: columns are scanned away from the mover and the first
      solid one ends both loops. */
  method TileSweepForward(axis: Axis, tiles: TileMap, d: ActorData) returns (r: ActorData)
    ensures r == ForwardResult(axis, d, FirstSolid(tiles, axis, ForwardFrom(axis, d), ForwardTo(axis, d),
                                                   ForwardCrossLo(axis, d), ForwardCrossHi(axis, d)))
  {
    r := d;
    var lo, hi := ForwardFrom(axis, d), ForwardTo(axis, d);
    var clo, chi := ForwardCrossLo(axis, d), ForwardCrossHi(axis, d);
    var c := lo;
    while c <= hi
      invariant lo <= c
      invariant FirstSolid(tiles, axis, lo, hi, clo, chi) == FirstSolid(tiles, axis, c, hi, clo, chi)
      decreases hi - c
    {
      var solid := ScanColumn(tiles, axis, c, clo, chi);
      if solid {
        r := StopForward(axis, d, c);
        return;
      }
      c := c + 1;
    }
  }

  /** Moving backward: columns are scanned toward the mover and each solid
      one overwrites the stop, so the last one scanned decides. */
  method TileSweepBackward(axis: Axis, tiles: TileMap, d: ActorData) returns (r: ActorData)
    ensures r == BackwardResult(axis, d, LastSolid(tiles, axis, BackwardFrom(axis, d), BackwardUntil(axis, d) - 1,
                                                   BackwardCrossLo(axis, d), BackwardCrossHi(axis, d)))
  {
    r := d;
    var lo, until := BackwardFrom(axis, d), BackwardUntil(axis, d);
    var clo, chi := BackwardCrossLo(axis, d), BackwardCrossHi(axis, d);
    var c := lo;
    ghost var hit: Option<int> := None;
    while c < until
      invariant lo <= c && (c <= until || c == lo)
      invariant hit == LastSolid(tiles, axis, lo, c - 1, clo, chi)
      invariant r == BackwardResult(axis, d, hit)
      decreases until - c
    {
      var solid := ScanColumn(tiles, axis, c, clo, chi);
      LastSolidStep(tiles, axis, lo, c, clo, chi);
      if solid {
        r := StopBackward(axis, d, c);
        hit := Some(c);
      }
      c := c + 1;
    }
  }

  /** One more column scanned toward the mover: it decides when solid. */
  lemma LastSolidStep(tiles: TileMap, axis: Axis, lo: int, c: int, clo: int, chi: int)
    requires lo <= c
    ensures LastSolid(tiles, axis, lo, c, clo, chi) ==
            if ColumnSolid(tiles, axis, c, clo, chi) then Some(c) else LastSolid(tiles, axis, lo, c - 1, clo, chi)
  {
  }

  // ---------------------------------------------------------------------
  // Actor-edge sweep

  /** A `collide_notify` call: the owner of the NOTIFY edge (whose notify
      target receives it), the moving actor, and the side of the owner that
      was approached. */
  datatype Notification = Notification(owner: nat, mover: nat, side: Directions)

  /** The other actor's edge that faces a mover moving forward (its left or top
      edge) or backward (its right or bottom edge). */
  function FacingEdge(axis: Axis, d2: ActorData, forward: bool): Edge {
    if forward then (if axis == X then LeftEdge(d2) else TopEdge(d2))
    else (if axis == X then RightEdge(d2) else BottomEdge(d2))
  }

  /** The edge overlaps the mover's box on the other axis. */
  predicate OverlapsAcross(axis: Axis, d: ActorData, e: Edge) {
    Across(e.pos, axis) < Across(BottomRight(d), axis) &&
    Across(e.pos, axis) + e.length > Across(TopLeft(d), axis)
  }

  /** Moving forward at relative speed `rmov`, the leading edge reaches `e` this tick. */
  predicate ReachedForward(axis: Axis, d: ActorData, e: Edge, rmov: int) {
    Any(e.properties) && OverlapsAcross(axis, d, e) &&
    Along(e.pos, axis) >= Along(BottomRight(d), axis) &&
    Along(e.pos, axis) < Along(BottomRight(d), axis) + rmov
  }

  /** Moving backward at relative speed `rmov < 0`, the trailing edge reaches `e`. */
  predicate ReachedBackward(axis: Axis, d: ActorData, e: Edge, rmov: int) {
    Any(e.properties) && OverlapsAcross(axis, d, e) &&
    Along(e.pos, axis) <= Along(TopLeft(d), axis) &&
    Along(e.pos, axis) > Along(TopLeft(d), axis) + rmov
  }

  /** The Y pass only: a solid bottom edge stops a rising mover unless the
      mover's own top is not solid and it already collided both up and down. */
  predicate ClampsUp(axis: Axis, d: ActorData) {
    axis == X || Contains(d.top, SOLID) || !Contains(d.collided, UP | DOWN)
  }

  /** A stop against edge `e` of the other actor `d2` while moving forward:
      the leading edge ends where `e` will be after `d2` moves. */
  function EdgeStopForward(axis: Axis, d: ActorData, e: Edge, d2: ActorData): (r: ActorData)
    ensures SameBody(r, d)
    ensures Along(BottomRight(d), axis) + r.nextVel == Along(e.pos, axis) + Along(d2.vel, axis)
    ensures Contains(r.collided, Forward(axis)) && Contains(r.collided, d.collided)
  {
    d.(nextVel := Along(e.pos, axis) + Along(d2.vel, axis) - Along(BottomRight(d), axis),
       collided := d.collided | Forward(axis))
  }

  /** A stop against edge `e` of `d2` while moving backward: the trailing
      edge ends where `e` will be after `d2` moves. */
  function EdgeStopBackward(axis: Axis, d: ActorData, e: Edge, d2: ActorData): (r: ActorData)
    ensures SameBody(r, d)
    ensures Along(TopLeft(d), axis) + r.nextVel == Along(e.pos, axis) + Along(d2.vel, axis)
    ensures Contains(r.collided, Backward(axis)) && Contains(r.collided, d.collided)
  {
    d.(nextVel := Along(e.pos, axis) + Along(d2.vel, axis) - Along(TopLeft(d), axis),
       collided := d.collided | Backward(axis))
  }

  /** One iteration of the loop over `self.actors` for mover `mover`, whose
      current copy is `d`, against actor `owner` with record `d2`. */
  function EdgeStep(axis: Axis, mover: nat, d: ActorData, owner: nat, d2: ActorData): (r: (ActorData, seq<Notification>))
    ensures SameBody(r.0, d) && Contains(r.0.collided, d.collided)
  {
    var rmov := Along(d.vel, axis) - Along(d2.vel, axis);
    if rmov > 0 then
      var e := FacingEdge(axis, d2, true);
      if ReachedForward(axis, d, e, rmov) then
        var d' := if Contains(e.properties, SOLID) then EdgeStopForward(axis, d, e, d2) else d;
        (d', if Contains(e.properties, NOTIFY) then [Notification(owner, mover, Backward(axis))] else [])
      else
        (d, [])
    else if rmov < 0 then
      var e := FacingEdge(axis, d2, false);
      if ReachedBackward(axis, d, e, rmov) then
        var d' := if Contains(e.properties, SOLID) && ClampsUp(axis, d) then EdgeStopBackward(axis, d, e, d2) else d;
        (d', if Contains(e.properties, NOTIFY) then [Notification(owner, mover, Forward(axis))] else [])
      else
        (d, [])
    else
      (d, [])
  }

  /** A SOLID edge reached while moving forward stops the mover flush with
      where that edge will be after its own motion, and records the side. */
  lemma SolidEdgeStopsForward(axis: Axis, mover: nat, d: ActorData, owner: nat, d2: ActorData)
    requires Along(d.vel, axis) - Along(d2.vel, axis) > 0
    requires ReachedForward(axis, d, FacingEdge(axis, d2, true), Along(d.vel, axis) - Along(d2.vel, axis))
    requires Contains(FacingEdge(axis, d2, true).properties, SOLID)
    ensures Along(BottomRight(d), axis) + EdgeStep(axis, mover, d, owner, d2).0.nextVel ==
              Along(FacingEdge(axis, d2, true).pos, axis) + Along(d2.vel, axis)
    ensures EdgeStep(axis, mover, d, owner, d2).0.collided == d.collided | Forward(axis)
  {
    assert EdgeStep(axis, mover, d, owner, d2).0 == EdgeStopForward(axis, d, FacingEdge(axis, d2, true), d2);
  }

  /** The same moving backward, where on the Y axis `ClampsUp` must also hold. */
  lemma SolidEdgeStopsBackward(axis: Axis, mover: nat, d: ActorData, owner: nat, d2: ActorData)
    requires Along(d.vel, axis) - Along(d2.vel, axis) < 0
    requires ReachedBackward(axis, d, FacingEdge(axis, d2, false), Along(d.vel, axis) - Along(d2.vel, axis))
    requires Contains(FacingEdge(axis, d2, false).properties, SOLID) && ClampsUp(axis, d)
    ensures Along(TopLeft(d), axis) + EdgeStep(axis, mover, d, owner, d2).0.nextVel ==
              Along(FacingEdge(axis, d2, false).pos, axis) + Along(d2.vel, axis)
    ensures EdgeStep(axis, mover, d, owner, d2).0.collided == d.collided | Backward(axis)
  {
    assert EdgeStep(axis, mover, d, owner, d2).0 == EdgeStopBackward(axis, d, FacingEdge(axis, d2, false), d2);
  }

  /** An edge without SOLID never changes the mover; a reached NOTIFY edge
      produces exactly one notification naming the side opposite to the
      mover's motion, and any other edge produces none. */
  lemma NotifyEdgeOnlyNotifies(axis: Axis, mover: nat, d: ActorData, owner: nat, d2: ActorData)
    ensures var rmov := Along(d.vel, axis) - Along(d2.vel, axis);
            var r := EdgeStep(axis, mover, d, owner, d2);
            var e := FacingEdge(axis, d2, rmov > 0);
            (!Contains(e.properties, SOLID) ==> r.0 == d) &&
            (rmov > 0 && ReachedForward(axis, d, e, rmov) ==>
               r.1 == if Contains(e.properties, NOTIFY) then [Notification(owner, mover, Backward(axis))] else []) &&
            (rmov < 0 && ReachedBackward(axis, d, e, rmov) ==>
               r.1 == if Contains(e.properties, NOTIFY) then [Notification(owner, mover, Forward(axis))] else []) &&
            (r.1 != [] ==> Contains(e.properties, NOTIFY))
  {
  }

  /** An edge with no properties, one that does not overlap the mover across
      the axis, or an actor moving at the mover's own speed (the mover itself
      among them) is ignored. */
  lemma IgnoredEdges(axis: Axis, mover: nat, d: ActorData, owner: nat, d2: ActorData)
    ensures var rmov := Along(d.vel, axis) - Along(d2.vel, axis);
            var e := FacingEdge(axis, d2, rmov > 0);
            rmov == 0 || !Any(e.properties) || !OverlapsAcross(axis, d, e) ==>
              EdgeStep(axis, mover, d, owner, d2) == (d, [])
    ensures EdgeStep(axis, mover, d, mover, d) == (d, [])
  {
  }

  /** The up-clamp against a solid bottom edge is skipped exactly when the
      mover's top lacks SOLID and `collided` already holds both UP and DOWN. */
  lemma UpClampSuppression(mover: nat, d: ActorData, owner: nat, d2: ActorData)
    requires d.vel.y - d2.vel.y < 0
    requires ReachedBackward(Y, d, BottomEdge(d2), d.vel.y - d2.vel.y)
    requires Contains(d2.bottom, SOLID)
    ensures var r := EdgeStep(Y, mover, d, owner, d2).0;
            (r == d) <== (!Contains(d.top, SOLID) && Contains(d.collided, UP) && Contains(d.collided, DOWN))
    ensures var r := EdgeStep(Y, mover, d, owner, d2).0;
            (Contains(d.top, SOLID) || !Contains(d.collided, UP) || !Contains(d.collided, DOWN)) ==>
              TopLeft(d).y + r.nextVel == BottomEdge(d2).pos.y + d2.vel.y && Contains(r.collided, UP)
  {
  }

  /** The loop over `actors[..]` for one mover: each step sees the mover's copy
      as the previous steps left it; a later stop overwrites an earlier one. */
  function EdgeFold(axis: Axis, mover: nat, d: ActorData, s: seq<ActorData>, acts: seq<nat>): (r: (ActorData, seq<Notification>))
    requires Handles(|s|, acts)
    ensures SameBody(r.0, d) && Contains(r.0.collided, d.collided)
    decreases |acts|
  {
    if acts == [] then (d, [])
    else
      var prev := EdgeFold(axis, mover, d, s, acts[..|acts| - 1]);
      var last := acts[|acts| - 1];
      var step := EdgeStep(axis, mover, prev.0, last, s[last]);
      (step.0, prev.1 + step.1)
  }

  /** One step reads of the other record only the fields a sweep never writes. */
  lemma EdgeStepReadsBodyOnly(axis: Axis, mover: nat, d: ActorData, owner: nat, a: ActorData, b: ActorData)
    requires SameBody(a, b)
    ensures EdgeStep(axis, mover, d, owner, a) == EdgeStep(axis, mover, d, owner, b)
  {
    assert a.pos == b.pos && a.vel == b.vel && a.areaOffset == b.areaOffset && a.areaSize == b.areaSize;
    assert a.top == b.top && a.left == b.left && a.bottom == b.bottom && a.right == b.right;
    assert FacingEdge(axis, a, true) == FacingEdge(axis, b, true);
    assert FacingEdge(axis, a, false) == FacingEdge(axis, b, false);
  }

  /** The edge sweep reads of the other records only what a pass never
      writes (position, velocity, box, flags), so what other movers stored
      in `next_vel` and `collided` earlier in the same pass cannot matter. */
  lemma {:induction false} EdgeFoldReadsBodiesOnly(axis: Axis, mover: nat, d: ActorData, s: seq<ActorData>, t: seq<ActorData>, acts: seq<nat>)
    requires |s| == |t| && Handles(|s|, acts)
    requires forall i :: 0 <= i < |s| ==> SameBody(s[i], t[i])
    ensures EdgeFold(axis, mover, d, s, acts) == EdgeFold(axis, mover, d, t, acts)
    decreases |acts|
  {
    if acts != [] {
      EdgeFoldReadsBodiesOnly(axis, mover, d, s, t, acts[..|acts| - 1]);
      var last := acts[|acts| - 1];
      var prev := EdgeFold(axis, mover, d, s, acts[..|acts| - 1]);
      EdgeStepReadsBodyOnly(axis, mover, prev.0, last, s[last], t[last]);
    }
  }

  /** The full sweep of mover `h` against the records `s`: tiles first, then
      every registered actor in order. */
  ghost function Sweep(axis: Axis, tiles: TileMap, s: seq<ActorData>, actors: seq<nat>, h: nat): (r: (ActorData, seq<Notification>))
    requires h < |s| && Handles(|s|, actors)
    ensures SameBody(r.0, s[h]) && Contains(r.0.collided, s[h].collided)
  {
    EdgeFold(axis, h, TileSweepSpec(axis, tiles, s[h]), s, actors)
  }

  /** The body of the loop over `self.actors`: mover `mover`, whose current
      copy is `data`, against actor `owner`, whose record is `data2`. */
  method EdgeCheck(axis: Axis, mover: nat, data: ActorData, owner: nat, data2: ActorData)
    returns (r: ActorData, ghost notes: seq<Notification>)
    ensures (r, notes) == EdgeStep(axis, mover, data, owner, data2)
  {
    var rmov := Along(data.vel, axis) - Along(data2.vel, axis);
    if rmov > 0 {
      r, notes := EdgeCheckForward(axis, mover, data, owner, data2, rmov);
    } else if rmov < 0 {
      r, notes := EdgeCheckBackward(axis, mover, data, owner, data2, rmov);
    } else {
      r, notes := data, [];
    }
  }

  /** The `rmov > 0` branch: the other actor's left (X) or top (Y) edge. */
  method EdgeCheckForward(axis: Axis, mover: nat, data: ActorData, owner: nat, data2: ActorData, rmov: int)
    returns (r: ActorData, ghost notes: seq<Notification>)
    requires rmov == Along(data.vel, axis) - Along(data2.vel, axis) > 0
    ensures (r, notes) == EdgeStep(axis, mover, data, owner, data2)
  {
    r, notes := data, [];
    var edge := FacingEdge(axis, data2, true);
    if ReachedForward(axis, data, edge, rmov) {
      if Contains(edge.properties, SOLID) {
        r := EdgeStopForward(axis, data, edge, data2);
      }
      if Contains(edge.properties, NOTIFY) {
        notes := [Notification(owner, mover, Backward(axis))];
      }
    }
  }

  /** The `rmov < 0` branch: the other actor's right (X) or bottom (Y) edge,
      with the Y pass's extra guard on the clamp. */
  method EdgeCheckBackward(axis: Axis, mover: nat, data: ActorData, owner: nat, data2: ActorData, rmov: int)
    returns (r: ActorData, ghost notes: seq<Notification>)
    requires rmov == Along(data.vel, axis) - Along(data2.vel, axis) < 0
    ensures (r, notes) == EdgeStep(axis, mover, data, owner, data2)
  {
    r, notes := data, [];
    var edge := FacingEdge(axis, data2, false);
    if ReachedBackward(axis, data, edge, rmov) {
      if Contains(edge.properties, SOLID) && ClampsUp(axis, data) {
        r := EdgeStopBackward(axis, data, edge, data2);
      }
      if Contains(edge.properties, NOTIFY) {
        notes := [Notification(owner, mover, Forward(axis))];
      }
    }
  }

  /** The actor loop of one mover's sweep (mod.rs:103-145 and 223-265). */
  method EdgeSweep(axis: Axis, mover: nat, d: ActorData, arena: array<ActorData>, actors: seq<nat>)
    returns (r: ActorData, ghost notes: seq<Notification>)
    requires Handles(arena.Length, actors)
    ensures (r, notes) == EdgeFold(axis, mover, d, arena[..], actors)
  {
    r, notes := d, [];
    var j := 0;
    while j < |actors|
      invariant 0 <= j <= |actors|
      invariant (r, notes) == EdgeFold(axis, mover, d, arena[..], actors[..j])
    {
      var owner := actors[j];
      ghost var stepNotes;
      r, stepNotes := EdgeCheck(axis, mover, r, owner, arena[owner]);
      notes := notes + stepNotes;
      assert actors[..j + 1][..j] == actors[..j];
      j := j + 1;
    }
    assert actors[..j] == actors;
  }
}
