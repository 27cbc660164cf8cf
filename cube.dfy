/**
 * Crates (extension/src/platformer/actor/cube.rs): a player standing on the
 * ground who walks into a crate's NOTIFY edge pushes it; the crate gathers
 * the pushed sides during a tick and turns them into a horizontal velocity
 * on the next one.
 */
module Crates {
  import opened Options
  import opened Actors

  /** The horizontal velocity a push gives: `push_speed` when pushed on its
      left side only, `-push_speed` when pushed on its right side only, and
      nothing otherwise. */
  function PushVelocity(push: Directions, speed: int): (r: int)
    ensures push == LEFT ==> r == speed
    ensures push == RIGHT ==> r == -speed
    ensures push != LEFT && push != RIGHT ==> r == 0
  {
    if push == LEFT then speed
    else if push == RIGHT then -speed
    else 0
  }

  /** `collide_notify`'s update of the gathered sides: the notified
      direction, truncated to the defined bits, is added when the pusher is
      a player whose collisions on the previous tick included DOWN.  The
      defined bits of the result are then those of the old sides and the
      direction together, and the undefined bits are always kept. */
  function Pushed(push: Directions, isPlayer: bool, pusherCollidedOld: Directions, direction: bv8): (r: Directions)
    ensures Contains(r, push)
    ensures r & !ALL_DIRECTIONS == push & !ALL_DIRECTIONS
    ensures !isPlayer || !Contains(pusherCollidedOld, DOWN) ==> r == push
    ensures isPlayer && Contains(pusherCollidedOld, DOWN) ==>
              r & ALL_DIRECTIONS == (push | direction) & ALL_DIRECTIONS
  {
    if isPlayer && Contains(pusherCollidedOld, DOWN) then push | FromBitsTruncate(direction) else push
  }

  /** The same notification twice has the effect of one. */
  lemma PushedIdempotent(push: Directions, isPlayer: bool, pusherCollidedOld: Directions, direction: bv8)
    ensures var once := Pushed(push, isPlayer, pusherCollidedOld, direction);
            Pushed(once, isPlayer, pusherCollidedOld, direction) == once
  {
  }

  /** The order of two notifications does not matter. */
  lemma PushedCommutes(push: Directions, isPlayer1: bool, old1: Directions, d1: bv8,
                       isPlayer2: bool, old2: Directions, d2: bv8)
    ensures Pushed(Pushed(push, isPlayer1, old1, d1), isPlayer2, old2, d2) ==
            Pushed(Pushed(push, isPlayer2, old2, d2), isPlayer1, old1, d1)
  {
  }

  /** A crate at rest, notified once by a player standing on the ground,
      moves away from the notified side on the next tick: right when
      approached on its left side, left when approached on its right side,
      and not at all for any other set of sides. */
  lemma OnePushDecidesVelocity(pusherCollidedOld: Directions, direction: bv8, speed: int)
    requires Contains(pusherCollidedOld, DOWN)
    ensures var v := PushVelocity(Pushed(0, true, pusherCollidedOld, direction), speed);
            (direction & ALL_DIRECTIONS == LEFT ==> v == speed) &&
            (direction & ALL_DIRECTIONS == RIGHT ==> v == -speed) &&
            (direction & ALL_DIRECTIONS != LEFT && direction & ALL_DIRECTIONS != RIGHT ==> v == 0)
  {
  }

  /** Pushes on both sides within one tick, in either order and whatever
      was gathered before, leave the crate without horizontal velocity. */
  lemma OpposingPushesCancel(push: Directions, old1: Directions, old2: Directions, speed: int)
    requires Contains(old1, DOWN) && Contains(old2, DOWN)
    ensures PushVelocity(Pushed(Pushed(push, true, old1, LEFT), true, old2, RIGHT), speed) == 0
    ensures PushVelocity(Pushed(Pushed(push, true, old1, RIGHT), true, old2, LEFT), speed) == 0
  {
  }

  /** The crate node: the handle of its parent actor's record, the sides
      pushed this tick, and its exported settings. */
  class Crate {
    const actor: nat
    var push: Directions
    var pushSpeed: int
    var carryable: bool

    /** `Crate::init`, with the parent actor's record found by `ready`. */
    constructor (actor: nat)
      ensures this.actor == actor && push == 0 && pushSpeed == 0 && !carryable
    {
      this.actor := actor;
      push := 0;
      pushSpeed := 0;
      carryable := false;
    }

    /** `Crate::ready`: the crate becomes the notify target of its actor. */
    method Ready(arena: array<ActorData>, instanceId: nat)
      requires actor < arena.Length
      modifies arena
      ensures arena[..] == old(arena[..])[actor := old(arena[actor]).(notifyTarget := Some(instanceId))]
    {
      var data := arena[actor];
      data := data.(notifyTarget := Some(instanceId));
      arena[actor] := data;
    }

    /** `Crate::physics_process`: the gathered sides set the horizontal
        velocity and are then forgotten. */
    method PhysicsProcess(arena: array<ActorData>)
      requires actor < arena.Length
      modifies arena, this`push
      ensures push == 0
      ensures arena[..] == old(arena[..])[actor := old(arena[actor]).(vel := old(arena[actor]).vel.(x := PushVelocity(old(push), pushSpeed)))]
    {
      var data := arena[actor];
      var vx;
      if push == LEFT {
        vx := pushSpeed;
      } else if push == RIGHT {
        vx := -pushSpeed;
      } else {
        vx := 0;
      }
      data := data.(vel := data.vel.(x := vx));
      arena[actor] := data;
      push := 0;
    }

    /** `Crate::collide_notify`: whether the pusher is a player is the
        engine's answer, passed in; the pusher's record is read from the arena. */
    method CollideNotify(arena: array<ActorData>, pusher: nat, isPlayer: bool, direction: bv8)
      requires pusher < arena.Length
      modifies this`push
      ensures push == Pushed(old(push), isPlayer, arena[pusher].collidedOld, direction)
    {
      if isPlayer && Contains(arena[pusher].collidedOld, DOWN) {
        push := push | FromBitsTruncate(direction);
      }
    }
  }
}
