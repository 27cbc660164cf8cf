/**
 * Beam emitters (extension/src/platformer/lazer.rs): the reflection tables
 * of the four beam directions, and the rule that a beam is active exactly
 * when every one of the emitter's input actors signals.
 */
module Lazers {
  import A = Actors

  /** The direction a beam travels. */
  datatype Direction = Up | Down | Left | Right

  predicate Horizontal(d: Direction) {
    d == Left || d == Right
  }

  /** The direction facing the other way, defined independently of the
      reflection tables. */
  function Opposite(d: Direction): (r: Direction)
    ensures r != d && (Horizontal(r) <==> Horizontal(d))
  {
    match d
    case Up => Down
    case Down => Up
    case Left => Right
    case Right => Left
  }

  /** `Direction::reflect_main`: off a mirror running from top left to
      bottom right. */
  function ReflectMain(d: Direction): (r: Direction)
    ensures Horizontal(r) <==> !Horizontal(d)
  {
    match d
    case Up => Left
    case Left => Up
    case Down => Right
    case Right => Down
  }

  /** `Direction::reflect_inv`: off a mirror running from bottom left to
      top right. */
  function ReflectInv(d: Direction): (r: Direction)
    ensures Horizontal(r) <==> !Horizontal(d)
  {
    match d
    case Up => Right
    case Left => Down
    case Down => Left
    case Right => Up
  }

  /** Reflecting twice off the same mirror restores the direction. */
  lemma ReflectionsAreInvolutions(d: Direction)
    ensures ReflectMain(ReflectMain(d)) == d
    ensures ReflectInv(ReflectInv(d)) == d
  {
  }

  /** Neither mirror leaves any direction unchanged. */
  lemma ReflectionsHaveNoFixedPoint(d: Direction)
    ensures ReflectMain(d) != d && ReflectInv(d) != d
  {
  }

  /** The two mirrors send every direction to opposite directions. */
  lemma ReflectInvIsOppositeOfMain(d: Direction)
    ensures ReflectInv(d) == Opposite(ReflectMain(d))
    ensures ReflectInv(d) == ReflectMain(Opposite(d))
  {
  }

  /** The start direction chosen in `Lazer::ready` from the node's rotation:
      the match has a wildcard arm only, so every rotation gives Left. */
  function StartDirection(rotationDegrees: int): Direction {
    match rotationDegrees % 360
    case _ => Left
  }

  /** The rotation has no effect on the start direction. */
  lemma StartDirectionIgnoresRotation(a: int, b: int)
    ensures StartDirection(a) == StartDirection(b) == Left
  {
  }

  /** `Beam`: its activation and where it starts.  The rendering fields
      (`scene`, `segments`, the bounding box) are not modelled. */
  class Beam {
    var active: bool
    var startDirection: Direction
    var startPos: A.Vec

    constructor (active: bool, startDirection: Direction, startPos: A.Vec)
      ensures this.active == active && this.startDirection == startDirection && this.startPos == startPos
    {
      this.active := active;
      this.startDirection := startDirection;
      this.startPos := startPos;
    }
  }

  /** The emitter node `Lazer`. */
  class Lazer {
    var inputActors: seq<nat>
    var beam: Beam?

    /** `Lazer::init`: no inputs and no beam yet. */
    constructor ()
      ensures inputActors == [] && beam == null
    {
      inputActors := [];
      beam := null;
    }

    /** `Lazer::ready`: the inputs' records are collected and the beam is
        created, active exactly when there are no inputs. */
    method Ready(inputs: seq<nat>, rotationDegrees: int, startPos: A.Vec)
      modifies this
      ensures inputActors == inputs
      ensures beam != null && fresh(beam)
      ensures beam.active <==> inputs == []
      ensures beam.startDirection == Left && beam.startPos == startPos
    {
      inputActors := inputs;
      beam := new Beam(|inputActors| == 0, StartDirection(rotationDegrees), startPos);
    }

    /** `Lazer::physics_process`: the beam is active exactly when every
        input actor signals. */
    method PhysicsProcess(arena: array<A.ActorData>)
      requires beam != null && A.Handles(arena.Length, inputActors)
      modifies beam`active
      ensures beam.active == A.AllSignal(arena[..], inputActors)
    {
      var open := A.AllSignal(arena[..], inputActors);
      beam.active := open;
    }
  }
}
