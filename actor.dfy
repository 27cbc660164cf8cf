/**
 * The record every physical thing in a level shares with the scripts
 * attached to it (extension/src/platformer/actor/mod.rs): a fixed-point
 * vector type, the direction and surface bit sets, the box edges, the
 * gravity integration `fall`, and the configuration step `Actor::ready`.
 *
 * All geometry is in fixed point, 65536 units to one tile.  The shared
 * `Rc<Cell<ActorData>>` of the game becomes an arena `array<ActorData>`
 * indexed by a `nat` handle; scripts hold handles.
 */
module Actors {
  import opened Options
  import opened Int32

  /** Gravity given to every actor configured with a terminal velocity. */
  const GRAVITY: int := 3000

  // ---------------------------------------------------------------------
  // Bit sets

  /** `Directions`: a u8 bit set of the sides an actor collided on. */
  type Directions = bv8

  const UP: Directions := 1
  const DOWN: Directions := 2
  const LEFT: Directions := 4
  const RIGHT: Directions := 8
  const ALL_DIRECTIONS: Directions := 15

  /** `SurfaceProperties`: a u8 bit set describing one edge of a box. */
  type SurfaceProperties = bv8

  const SOLID: SurfaceProperties := 1
  const NOTIFY: SurfaceProperties := 2

  /** bitflags' `contains`: every bit of `flags` is set in `bits`. */
  predicate Contains(bits: bv8, flags: bv8) {
    bits & flags == flags
  }

  /** `Directions::from_bits_truncate`: the defined direction bits only. */
  function FromBitsTruncate(bits: bv8): (r: Directions)
    ensures r & !ALL_DIRECTIONS == 0
    ensures forall f: bv8 :: f & !ALL_DIRECTIONS == 0 ==> (Contains(r, f) <==> Contains(bits, f))
  {
    bits & ALL_DIRECTIONS
  }

  /** `SurfaceProperties::any`: the set is not empty. */
  predicate Any(p: SurfaceProperties) {
    p != 0
  }

  /** A surface set built from the declared flags only. */
  predicate IsSurfaceSet(p: SurfaceProperties) {
    p & !(SOLID | NOTIFY) == 0
  }

  lemma AnyIffSolidOrNotify(p: SurfaceProperties)
    requires IsSurfaceSet(p)
    ensures Any(p) <==> Contains(p, SOLID) || Contains(p, NOTIFY)
  {
  }

  /** Each declared flag is one bit, and the flags of a set are pairwise disjoint. */
  lemma FlagsAreDistinctBits()
    ensures UP & (UP - 1) == 0 && DOWN & (DOWN - 1) == 0
    ensures LEFT & (LEFT - 1) == 0 && RIGHT & (RIGHT - 1) == 0
    ensures UP != 0 && DOWN != 0 && LEFT != 0 && RIGHT != 0
    ensures UP & DOWN == 0 && UP & LEFT == 0 && UP & RIGHT == 0
    ensures DOWN & LEFT == 0 && DOWN & RIGHT == 0 && LEFT & RIGHT == 0
    ensures UP | DOWN | LEFT | RIGHT == ALL_DIRECTIONS
    ensures SOLID != 0 && NOTIFY != 0 && SOLID & NOTIFY == 0
  {
  }

  // ---------------------------------------------------------------------
  // Fixed-point vectors

  datatype Vec = Vec(x: int, y: int)

  /** `impl Add for Vec`. */
  function Add(a: Vec, b: Vec): Vec {
    Vec(a.x + b.x, a.y + b.y)
  }

  lemma AddIsComponentwise(a: Vec, b: Vec, c: Vec)
    ensures Add(a, b).x == a.x + b.x && Add(a, b).y == a.y + b.y
    ensures Add(a, b) == Add(b, a)
    ensures Add(Add(a, b), c) == Add(a, Add(b, c))
    ensures Add(a, Vec(0, 0)) == a
  {
  }

  /** `Vec::half`: an arithmetic shift right by one of each component. */
  function Half(v: Vec): (r: Vec)
    ensures 2 * r.x <= v.x < 2 * r.x + 2
    ensures 2 * r.y <= v.y < 2 * r.y + 2
  {
    Vec(v.x / 2, v.y / 2)
  }

  // ---------------------------------------------------------------------
  // The actor record

  datatype ActorData = ActorData(
    moves: bool,
    pos: Vec,
    vel: Vec,
    nextVel: int,
    areaOffset: Vec,
    areaSize: Vec,
    collided: Directions,
    collidedOld: Directions,
    actor: Option<nat>,
    notifyTarget: Option<nat>,
    signal: bool,
    gravity: int,
    terminalVelocity: int,
    top: SurfaceProperties,
    left: SurfaceProperties,
    bottom: SurfaceProperties,
    right: SurfaceProperties)

  /** All handles of `hs` are distinct. */
  predicate Distinct(hs: seq<nat>) {
    forall i, j :: 0 <= i < j < |hs| ==> hs[i] != hs[j]
  }

  /** All handles of `hs` name one of `n` records. */
  predicate Handles(n: nat, hs: seq<nat>) {
    forall i :: 0 <= i < |hs| ==> hs[i] < n
  }

  /** `inputs.iter().all(|i| i.get().signal)`, as doors and beam emitters compute it. */
  function AllSignal(s: seq<ActorData>, inputs: seq<nat>): (r: bool)
    requires Handles(|s|, inputs)
    ensures r <==> forall i :: 0 <= i < |inputs| ==> s[inputs[i]].signal
  {
    if inputs == [] then true
    else s[inputs[0]].signal && AllSignal(s, inputs[1..])
  }

  // ---------------------------------------------------------------------
  // Edges

  datatype Edge = Edge(pos: Vec, length: int, properties: SurfaceProperties)

  /** The top-left corner of the collision box, `pos + area_offset`. */
  function TopLeft(d: ActorData): Vec {
    Add(d.pos, d.areaOffset)
  }

  /** The bottom-right corner, `pos + area_offset + area_size`. */
  function BottomRight(d: ActorData): Vec {
    Add(Add(d.pos, d.areaOffset), d.areaSize)
  }

  function TopEdge(d: ActorData): Edge {
    Edge(Add(d.pos, d.areaOffset), d.areaSize.x, d.top)
  }

  function LeftEdge(d: ActorData): Edge {
    Edge(Add(d.pos, d.areaOffset), d.areaSize.y, d.left)
  }

  function BottomEdge(d: ActorData): Edge {
    var pos := Add(d.pos, d.areaOffset);
    Edge(pos.(y := pos.y + d.areaSize.y), d.areaSize.x, d.bottom)
  }

  function RightEdge(d: ActorData): Edge {
    var pos := Add(d.pos, d.areaOffset);
    Edge(pos.(x := pos.x + d.areaSize.x), d.areaSize.y, d.right)
  }

  /** The four edges outline the collision box: each starts at a corner, runs
      along one side to the next corner, and carries its own side's flags. */
  lemma EdgesOutlineBox(d: ActorData)
    ensures TopEdge(d).pos == LeftEdge(d).pos == TopLeft(d)
    ensures RightEdge(d).pos == Vec(BottomRight(d).x, TopLeft(d).y)
    ensures BottomEdge(d).pos == Vec(TopLeft(d).x, BottomRight(d).y)
    ensures TopEdge(d).pos.x + TopEdge(d).length == RightEdge(d).pos.x
    ensures LeftEdge(d).pos.y + LeftEdge(d).length == BottomEdge(d).pos.y
    ensures TopEdge(d).length == BottomEdge(d).length == d.areaSize.x
    ensures LeftEdge(d).length == RightEdge(d).length == d.areaSize.y
    ensures TopEdge(d).properties == d.top && LeftEdge(d).properties == d.left
    ensures BottomEdge(d).properties == d.bottom && RightEdge(d).properties == d.right
  {
  }

  // ---------------------------------------------------------------------
  // Gravity

  function Min(a: int, b: int): int {
    if a <= b then a else b
  }

  /** `ActorData::fall`: below the terminal velocity gravity is added and the
      result capped at the terminal velocity; above it, the overshoot decays
      to three quarters (rounded toward zero) each tick. */
  function Fall(d: ActorData): (r: ActorData)
    ensures r == d.(vel := Vec(d.vel.x, r.vel.y))
    ensures d.gravity == 0 ==> r == d
    ensures d.gravity != 0 && d.vel.y <= d.terminalVelocity ==>
              r.vel.y <= d.terminalVelocity && r.vel.y <= d.vel.y + d.gravity &&
              (r.vel.y == d.terminalVelocity || r.vel.y == d.vel.y + d.gravity)
    ensures d.gravity != 0 && d.vel.y > d.terminalVelocity ==>
              d.terminalVelocity <= r.vel.y < d.vel.y &&
              4 * (r.vel.y - d.terminalVelocity) <= 3 * (d.vel.y - d.terminalVelocity) <
                4 * (r.vel.y - d.terminalVelocity) + 4
  {
    if d.gravity != 0 then
      if d.vel.y <= d.terminalVelocity then
        d.(vel := d.vel.(y := Min(d.terminalVelocity, d.vel.y + d.gravity)))
      else
        d.(vel := d.vel.(y := d.terminalVelocity + TruncDiv((d.vel.y - d.terminalVelocity) * 3, 4)))
    else
      d
  }

  /** How far the vertical velocity is from the terminal velocity. */
  function Distance(d: ActorData): nat {
    if d.vel.y <= d.terminalVelocity then d.terminalVelocity - d.vel.y
    else d.vel.y - d.terminalVelocity
  }

  /** `n` ticks of free fall. */
  function FallTimes(d: ActorData, n: nat): (r: ActorData)
    ensures r.gravity == d.gravity && r.terminalVelocity == d.terminalVelocity
    decreases n
  {
    if n == 0 then d else FallTimes(Fall(d), n - 1)
  }

  /** With positive gravity one tick of free fall never moves the vertical
      velocity away from the terminal velocity, and strictly closer unless it
      is already there. */
  lemma FallApproachesTerminal(d: ActorData)
    requires d.gravity > 0
    ensures Distance(Fall(d)) <= Distance(d)
    ensures Distance(d) > 0 ==> Distance(Fall(d)) < Distance(d)
    ensures Distance(d) == 0 ==> Fall(d) == d
  {
  }

  /** In free fall with positive gravity the vertical velocity reaches the
      terminal velocity within `Distance(d)` ticks and then stays there. */
  lemma {:induction false} FallSettles(d: ActorData, n: nat)
    requires d.gravity > 0
    ensures Distance(FallTimes(d, n)) <= if n < Distance(d) then Distance(d) - n else 0
    ensures n >= Distance(d) ==> FallTimes(d, n).vel.y == d.terminalVelocity
    decreases n
  {
    if n > 0 {
      FallApproachesTerminal(d);
      FallSettles(Fall(d), n - 1);
    }
  }

  // ---------------------------------------------------------------------
  // Configuration

  /** The box found on the actor's first rectangle collision shape, already
      in fixed point: its offset from the actor's position and its size. */
  datatype Box = Box(offset: Vec, size: Vec)

  /** The flags an edge gets from its two exported booleans. */
  function EdgeFlags(solid: bool, notify: bool): (p: SurfaceProperties)
    ensures IsSurfaceSet(p)
    ensures Contains(p, SOLID) <==> solid
    ensures Contains(p, NOTIFY) <==> notify
  {
    (if solid then SOLID else 0) | (if notify then NOTIFY else 0)
  }

  /** `after` is `before` with SOLID added if `solid` and NOTIFY added if
      `notify`, and no other bit changed. */
  predicate FlagsAdded(before: SurfaceProperties, after: SurfaceProperties, solid: bool, notify: bool) {
    (Contains(after, SOLID) <==> solid || Contains(before, SOLID)) &&
    (Contains(after, NOTIFY) <==> notify || Contains(before, NOTIFY)) &&
    after & !(SOLID | NOTIFY) == before & !(SOLID | NOTIFY)
  }

  /** An edge's flags after `Actor::ready` adds the configured ones. */
  function AddFlags(p: SurfaceProperties, solid: bool, notify: bool): SurfaceProperties {
    p | EdgeFlags(solid, notify)
  }

  /** Adding flags sets exactly the requested bits and keeps a valid set valid. */
  lemma AddFlagsAdds(p: SurfaceProperties, solid: bool, notify: bool)
    ensures FlagsAdded(p, AddFlags(p, solid, notify), solid, notify)
    ensures IsSurfaceSet(p) ==> IsSurfaceSet(AddFlags(p, solid, notify))
  {
  }

  /** One edge's share of `Actor::ready`: `|= SOLID` if `solid`, then `|= NOTIFY` if `notify`. */
  method WithFlags(p: SurfaceProperties, solid: bool, notify: bool) returns (r: SurfaceProperties)
    ensures r == AddFlags(p, solid, notify)
  {
    r := p;
    if solid { r := r | SOLID; }
    if notify { r := r | NOTIFY; }
  }

  /** The solid and notify switches the node exports for one edge. */
  datatype EdgeConfig = EdgeConfig(solid: bool, notify: bool)

  /** Everything `Actor` exports to the editor. */
  datatype ActorConfig = ActorConfig(isStatic: bool, terminalVelocity: nat,
                                     top: EdgeConfig, bottom: EdgeConfig,
                                     left: EdgeConfig, right: EdgeConfig)

  /** The record `Actor::ready` leaves behind, given the node's
      configuration `c`, the record `d` it found, the node's global
      position, its instance id and the box of its first rectangle
      collision shape, if it has one. */
  function Configured(c: ActorConfig, d: ActorData, globalPos: Vec, instanceId: nat, shape: Option<Box>): ActorData
    requires c.terminalVelocity < MODULUS
  {
    Shaped(Falling(Flagged(c, d, globalPos, instanceId), c.terminalVelocity), shape)
  }

  /** The first stage of `Actor::ready`: motion, position, owner and edge flags. */
  function Flagged(c: ActorConfig, d: ActorData, globalPos: Vec, instanceId: nat): ActorData {
    d.(moves := !c.isStatic, pos := globalPos, actor := Some(instanceId),
       top := AddFlags(d.top, c.top.solid, c.top.notify),
       left := AddFlags(d.left, c.left.solid, c.left.notify),
       bottom := AddFlags(d.bottom, c.bottom.solid, c.bottom.notify),
       right := AddFlags(d.right, c.right.solid, c.right.notify))
  }

  /** The second stage: gravity, when a terminal velocity is configured. */
  function Falling(d: ActorData, terminalVelocity: nat): ActorData
    requires terminalVelocity < MODULUS
  {
    if terminalVelocity > 0
    then d.(gravity := GRAVITY, terminalVelocity := FromU32(terminalVelocity))
    else d
  }

  /** The last stage: the area of the collision shape, if there is one. */
  function Shaped(d: ActorData, shape: Option<Box>): ActorData {
    match shape
    case Some(b) => d.(areaSize := b.size, areaOffset := b.offset)
    case None => d
  }

  /** A non-static node's record moves; the record takes the node's
      position and instance id. */
  lemma ConfiguredIdentity(c: ActorConfig, d: ActorData, globalPos: Vec, instanceId: nat, shape: Option<Box>)
    requires c.terminalVelocity < MODULUS
    ensures var r := Configured(c, d, globalPos, instanceId, shape);
            (r.moves <==> !c.isStatic) && r.pos == globalPos && r.actor == Some(instanceId)
  {
  }

  /** The four sides of a box. */
  datatype Side = Top | Bottom | Left | Right

  /** The surface flags a record holds for one side. */
  function EdgeOf(d: ActorData, side: Side): SurfaceProperties {
    match side
    case Top => d.top
    case Bottom => d.bottom
    case Left => d.left
    case Right => d.right
  }

  /** The switches a configuration holds for one side. */
  function SideConfig(c: ActorConfig, side: Side): EdgeConfig {
    match side
    case Top => c.top
    case Bottom => c.bottom
    case Left => c.left
    case Right => c.right
  }

  /** Each edge gains exactly the flags switched on for it, keeping those
      it already had. */
  lemma ConfiguredFlags(c: ActorConfig, d: ActorData, globalPos: Vec, instanceId: nat, shape: Option<Box>, side: Side)
    requires c.terminalVelocity < MODULUS
    ensures FlagsAdded(EdgeOf(d, side), EdgeOf(Configured(c, d, globalPos, instanceId, shape), side),
                       SideConfig(c, side).solid, SideConfig(c, side).notify)
  {
    var r := Configured(c, d, globalPos, instanceId, shape);
    var e := SideConfig(c, side);
    assert EdgeOf(r, side) == AddFlags(EdgeOf(d, side), e.solid, e.notify);
    AddFlagsAdds(EdgeOf(d, side), e.solid, e.notify);
  }

  /** A positive terminal velocity turns gravity on and is stored as an
      `i32`; zero leaves both untouched. */
  lemma ConfiguredGravity(c: ActorConfig, d: ActorData, globalPos: Vec, instanceId: nat, shape: Option<Box>)
    requires c.terminalVelocity < MODULUS
    ensures var r := Configured(c, d, globalPos, instanceId, shape);
            if c.terminalVelocity > 0
            then r.gravity == GRAVITY && r.terminalVelocity == FromU32(c.terminalVelocity)
            else r.gravity == d.gravity && r.terminalVelocity == d.terminalVelocity
  {
  }

  /** A collision shape sets the area; without one the area is untouched. */
  lemma ConfiguredShape(c: ActorConfig, d: ActorData, globalPos: Vec, instanceId: nat, shape: Option<Box>)
    requires c.terminalVelocity < MODULUS
    ensures var r := Configured(c, d, globalPos, instanceId, shape);
            match shape
            case Some(b) => r.areaOffset == b.offset && r.areaSize == b.size
            case None => r.areaOffset == d.areaOffset && r.areaSize == d.areaSize
  {
  }

  /** Nothing else of the record changes. */
  lemma ConfiguredFrame(c: ActorConfig, d: ActorData, globalPos: Vec, instanceId: nat, shape: Option<Box>)
    requires c.terminalVelocity < MODULUS
    ensures var r := Configured(c, d, globalPos, instanceId, shape);
            r == d.(moves := r.moves, pos := r.pos, actor := r.actor,
                    top := r.top, left := r.left, bottom := r.bottom, right := r.right,
                    gravity := r.gravity, terminalVelocity := r.terminalVelocity,
                    areaOffset := r.areaOffset, areaSize := r.areaSize)
  {
  }

  /** The scene node `Actor`: its exported configuration and the handle of
      the record it owns. */
  class Actor {
    const data: nat
    var isStatic: bool
    var terminalVelocity: nat
    var topSolid: bool
    var topNotify: bool
    var bottomSolid: bool
    var bottomNotify: bool
    var leftSolid: bool
    var leftNotify: bool
    var rightSolid: bool
    var rightNotify: bool

    /** `Actor::init`: a static actor with no flags and no gravity. */
    constructor (data: nat)
      ensures this.data == data && isStatic && terminalVelocity == 0
      ensures !topSolid && !topNotify && !bottomSolid && !bottomNotify
      ensures !leftSolid && !leftNotify && !rightSolid && !rightNotify
    {
      this.data := data;
      isStatic := true;
      terminalVelocity := 0;
      topSolid, topNotify, bottomSolid, bottomNotify := false, false, false, false;
      leftSolid, leftNotify, rightSolid, rightNotify := false, false, false, false;
    }

    /** The node's exported configuration as one value. */
    function Config(): (c: ActorConfig)
      reads this
      ensures c.isStatic == isStatic && c.terminalVelocity == terminalVelocity
      ensures c.top == EdgeConfig(topSolid, topNotify) && c.bottom == EdgeConfig(bottomSolid, bottomNotify)
      ensures c.left == EdgeConfig(leftSolid, leftNotify) && c.right == EdgeConfig(rightSolid, rightNotify)
    {
      ActorConfig(isStatic, terminalVelocity,
                  EdgeConfig(topSolid, topNotify), EdgeConfig(bottomSolid, bottomNotify),
                  EdgeConfig(leftSolid, leftNotify), EdgeConfig(rightSolid, rightNotify))
    }

    /** The first half of `Actor::ready`: motion, position, owner and the
        edge flags. */
    method ConfigureEdges(d: ActorData, globalPos: Vec, instanceId: nat) returns (r: ActorData)
      ensures r == Flagged(Config(), d, globalPos, instanceId)
    {
      r := d.(moves := !isStatic);
      r := r.(pos := globalPos);
      r := r.(actor := Some(instanceId));
      var top := WithFlags(r.top, topSolid, topNotify);
      var left := WithFlags(r.left, leftSolid, leftNotify);
      var bottom := WithFlags(r.bottom, bottomSolid, bottomNotify);
      var right := WithFlags(r.right, rightSolid, rightNotify);
      r := r.(top := top, left := left, bottom := bottom, right := right);
    }

    /** The gravity step of `Actor::ready`. */
    method ConfigureGravity(d: ActorData) returns (r: ActorData)
      requires terminalVelocity < MODULUS
      ensures r == Falling(d, terminalVelocity)
    {
      r := d;
      if terminalVelocity > 0 {
        r := r.(gravity := GRAVITY);
        r := r.(terminalVelocity := FromU32(terminalVelocity));
      }
    }

    /** The collision-shape step of `Actor::ready`. */
    method ConfigureShape(d: ActorData, shape: Option<Box>) returns (r: ActorData)
      ensures r == Shaped(d, shape)
    {
      r := d;
      if shape.Some? {
        r := r.(areaSize := shape.value.size);
        r := r.(areaOffset := shape.value.offset);
      }
    }

    /** `Actor::ready`: copies the configuration into the record. */
    method Ready(arena: array<ActorData>, globalPos: Vec, instanceId: nat, shape: Option<Box>)
      requires data < arena.Length
      requires terminalVelocity < MODULUS
      modifies arena
      ensures arena[..] == old(arena[..])[data := Configured(Config(), old(arena[data]), globalPos, instanceId, shape)]
    {
      var d := arena[data];
      d := ConfigureEdges(d, globalPos, instanceId);
      d := ConfigureGravity(d);
      d := ConfigureShape(d, shape);
      arena[data] := d;
    }
  }
}
