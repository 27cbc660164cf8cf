/**
 * Doors (extension/src/platformer/actor/door.rs): a door is solid on all
 * four sides unless every one of its inputs signals, and its sprite steps
 * one frame at a time toward open (frame 8) or closed (frame 0), waiting
 * `TICKS_PER_FRAME` ticks between frames.
 */
module Doors {
  import opened Actors

  const TICKS_PER_FRAME: nat := 2

  /** The last frame of the opening animation. */
  const OPEN_FRAME: int := 8

  /** The flags every edge of the door gets: none when open, SOLID when closed. */
  function DoorFlags(open: bool): (p: SurfaceProperties)
    ensures IsSurfaceSet(p)
    ensures Any(p) <==> !open
    ensures Contains(p, SOLID) <==> !open
    ensures !Contains(p, NOTIFY)
    ensures !open ==> p == SOLID
  {
    if open then 0 else SOLID
  }

  /** The door's record with all four edges set to `p` and nothing else changed. */
  function WithDoorEdges(d: ActorData, p: SurfaceProperties): (r: ActorData)
    ensures r.top == p && r.bottom == p && r.left == p && r.right == p
    ensures r.(top := d.top, bottom := d.bottom, left := d.left, right := d.right) == d
  {
    d.(top := p, bottom := p, left := p, right := p)
  }

  /** The animation state: ticks to the next frame and the sprite's frame. */
  datatype DoorAnim = DoorAnim(ttnf: nat, frame: int)

  /** One tick of the animation, given whether the door is open and whether
      its flags changed on this tick. */
  function Animated(s: DoorAnim, open: bool, change: bool): DoorAnim {
    if s.ttnf > 0 then DoorAnim(s.ttnf - 1, s.frame)
    else if change then s
    else if open && s.frame < OPEN_FRAME then DoorAnim(TICKS_PER_FRAME, s.frame + 1)
    else if !open && s.frame > 0 then DoorAnim(TICKS_PER_FRAME, s.frame - 1)
    else s
  }

  /** A tick never moves the frame by more than one, only toward the side
      the door is heading, keeps it within the animation, and bounds the
      countdown by `TICKS_PER_FRAME`. */
  lemma AnimatedStaysInRange(s: DoorAnim, open: bool, change: bool)
    requires 0 <= s.frame <= OPEN_FRAME && s.ttnf <= TICKS_PER_FRAME
    ensures var r := Animated(s, open, change);
            0 <= r.frame <= OPEN_FRAME && r.ttnf <= TICKS_PER_FRAME &&
            (open ==> s.frame <= r.frame <= s.frame + 1) &&
            (!open ==> s.frame - 1 <= r.frame <= s.frame)
  {
  }

  /** The frame moves only on a tick with no countdown left and no change
      of flags, and then the countdown restarts. */
  lemma AnimatedFrameMovesOnlyWhenIdle(s: DoorAnim, open: bool, change: bool)
    ensures var r := Animated(s, open, change);
            r.frame != s.frame ==> s.ttnf == 0 && !change && r.ttnf == TICKS_PER_FRAME
    ensures s.ttnf > 0 ==> Animated(s, open, change) == DoorAnim(s.ttnf - 1, s.frame)
  {
  }

  /** `n` ticks with the door steadily open or closed. */
  function Run(s: DoorAnim, open: bool, n: nat): DoorAnim
    decreases n
  {
    if n == 0 then s else Run(Animated(s, open, false), open, n - 1)
  }

  /** Ticks left until a steadily opening door shows its last frame. */
  function TicksToOpen(s: DoorAnim): int {
    s.ttnf + (TICKS_PER_FRAME + 1) * (OPEN_FRAME - s.frame)
  }

  /** Ticks left until a steadily closing door shows its first frame. */
  function TicksToClose(s: DoorAnim): int {
    s.ttnf + (TICKS_PER_FRAME + 1) * s.frame
  }

  /** A door that stays open reaches frame 8 within `TicksToOpen` ticks and
      stays there. */
  lemma {:induction false} DoorOpensFully(s: DoorAnim, n: nat)
    requires 0 <= s.frame <= OPEN_FRAME && s.ttnf <= TICKS_PER_FRAME
    ensures 0 <= Run(s, true, n).frame <= OPEN_FRAME
    ensures n >= TicksToOpen(s) ==> Run(s, true, n).frame == OPEN_FRAME
    decreases n
  {
    if n > 0 {
      var next := Animated(s, true, false);
      AnimatedStaysInRange(s, true, false);
      if TicksToOpen(s) > 0 {
        assert TicksToOpen(next) == TicksToOpen(s) - 1;
      } else {
        assert next == s;
      }
      DoorOpensFully(next, n - 1);
    }
  }

  /** A door that stays closed reaches frame 0 within `TicksToClose` ticks
      and stays there. */
  lemma {:induction false} DoorClosesFully(s: DoorAnim, n: nat)
    requires 0 <= s.frame <= OPEN_FRAME && s.ttnf <= TICKS_PER_FRAME
    ensures 0 <= Run(s, false, n).frame <= OPEN_FRAME
    ensures n >= TicksToClose(s) ==> Run(s, false, n).frame == 0
    decreases n
  {
    if n > 0 {
      var next := Animated(s, false, false);
      AnimatedStaysInRange(s, false, false);
      if TicksToClose(s) > 0 {
        assert TicksToClose(next) == TicksToClose(s) - 1;
      } else {
        assert next == s;
      }
      DoorClosesFully(next, n - 1);
    }
  }

  /** The door node: the handle of its actor's record, its inputs, the
      countdown and the sprite's frame. */
  class Door {
    const actor: nat
    var inputActors: seq<nat>
    var ttnf: nat
    var frame: int

    /** `Door::init` followed by `Door::ready`: the record of its first
        child, the inputs' records, and the sprite's current frame. */
    constructor (actor: nat, inputs: seq<nat>, frame: int)
      ensures this.actor == actor && inputActors == inputs && ttnf == 0 && this.frame == frame
    {
      this.actor := actor;
      inputActors := inputs;
      ttnf := 0;
      this.frame := frame;
    }

    /** `Door::physics_process`. */
    method PhysicsProcess(arena: array<ActorData>)
      requires actor < arena.Length && Handles(arena.Length, inputActors)
      modifies arena, this`ttnf, this`frame
      ensures var open := AllSignal(old(arena[..]), inputActors);
              arena[..] == old(arena[..])[actor := WithDoorEdges(old(arena[actor]), DoorFlags(open))] &&
              DoorAnim(ttnf, frame) ==
                Animated(DoorAnim(old(ttnf), old(frame)), open, old(arena[actor]).top != DoorFlags(open))
    {
      var open := AllSignal(arena[..], inputActors);
      var data := arena[actor];
      var property: SurfaceProperties := if open then 0 else SOLID;
      var change := data.top != property;
      data := data.(top := property);
      data := data.(bottom := property);
      data := data.(left := property);
      data := data.(right := property);
      arena[actor] := data;

      if ttnf > 0 {
        ttnf := ttnf - 1;
        return;
      }
      if change {
        return;
      }
      if open && frame < OPEN_FRAME {
        frame := frame + 1;
        ttnf := TICKS_PER_FRAME;
      } else if !open && frame > 0 {
        frame := frame - 1;
        ttnf := TICKS_PER_FRAME;
      }
    }
  }
}
