# Shiori platformer physics, in Dafny

This project models the integer physics core of a small Godot platformer written in
Rust (`extension/src/platformer`), and proves properties of it.

- **Actors** (`actor.dfy`). An `ActorData` record is shared between the collision
  resolver and the scripts attached to an actor. It holds a fixed-point position
  and velocity (65536 units to a tile), a collision box, a bit set of sides
  collided on this tick and on the previous one, gravity with a terminal velocity,
  and per-edge surface flags (SOLID, NOTIFY). `Actor::ready` copies the node's
  exported configuration into its record. The game shares each record through
  `Rc<Cell<ActorData>>`; here the records are the cells of an arena
  `array<ActorData>`, and every holder keeps a `nat` handle into it.
- **The resolver** (`sweep.dfy`, `platformer.dfy`). `PlatformerGame` registers
  every actor below it and remembers which ones move. Each physics tick it runs a
  pre-pass: old collisions are kept, gravity is applied and a candidate velocity
  `next_vel` is set. Then, for X and then for Y, it repeats sweep passes until no
  mover's velocity changes, and integrates the positions. A sweep first clamps the
  candidate against the solid tiles in the mover's path, then against the facing
  edges of every registered actor, and calls `collide_notify` on NOTIFY edges. The
  X and Y code is symmetric except for one extra guard in Y, so both axes are
  modelled once, over an `Axis`. Each sweep has a specification function on
  values, and a method with the source's nested loops proved equal to it.
- **Scripts.** Beam emitters (`lazer.dfy`) hold mirror reflection tables and a
  beam that is active when all inputs signal. Doors (`door.dfy`) are solid unless
  all inputs signal, with a frame animation. Pressure plates (`plate.dfy`) keep a
  list of pushers and a signal. Crates (`cube.dfy`) are pushed by a player who
  stood on the ground. The player (`player.dfy`) walks, jumps with a weaker
  gravity while the key is held, and can bounce off the book in mid-air.

Two facts about the source, as written, shape the model:

- `mod.rs:6-7` declares only the modules `actor` and `camera`, and
  `actor/mod.rs:6-8` declares only `player`, `cube` and `plate`. So `lazer.rs` and
  `door.rs` are not reachable from the module declarations shown; they are
  modelled as written all the same.
- `register_actors` (`mod.rs:291-304`) registers only `Actor` nodes. Beam emitters
  are never registered with the game, and there is no beam ray trace in the code,
  so none is modelled.

## Model

| member | source | states |
|---|---|---|
| Int32.Wrap | extension/src/platformer/mod.rs:313-315 | the i32 result of `<<` is in range, congruent to the exact value modulo 2^32, and equal to it when it fits |
| Int32.FromU32 | extension/src/platformer/actor/mod.rs:173-176 | `u32 as i32` keeps values up to `i32::MAX` and subtracts 2^32 from larger ones |
| Int32.TruncDiv | extension/src/platformer/actor/player.rs:71-74 | Rust's `/` rounds toward zero: the quotient times the divisor lies between zero and the dividend, within one divisor of it |
| Actors.FromBitsTruncate | extension/src/platformer/actor/cube.rs:56 | `from_bits_truncate` keeps exactly the defined direction bits of the argument and no undefined bit |
| Actors.AnyIffSolidOrNotify | extension/src/platformer/actor/mod.rs:33-37 | `any()` of a surface set holds exactly when SOLID or NOTIFY is in it |
| Actors.FlagsAreDistinctBits | extension/src/platformer/actor/mod.rs:15-31 | every direction and surface flag is a single bit, the flags are pairwise disjoint, and the four directions together make up all defined bits |
| Actors.AddIsComponentwise | extension/src/platformer/actor/mod.rs:63-72 | vector addition adds component by component, is commutative and associative, and has the zero vector as its unit |
| Actors.Half | extension/src/platformer/actor/mod.rs:74-81 | `>> 1` halves each component rounding toward minus infinity |
| Actors.AllSignal | extension/src/platformer/lazer.rs:106 | `iter().all(signal)` holds exactly when every input's record signals, and so also when there are no inputs |
| Actors.EdgesOutlineBox | extension/src/platformer/actor/mod.rs:201-235 | the four edges start at the box's corners, run along its sides with its width or height as length, and carry their side's flags |
| Actors.Fall | extension/src/platformer/actor/mod.rs:237-245 | `fall` changes only `vel.y`: not at all without gravity; up to the terminal velocity, gravity is added and capped at it; above it, the excess shrinks to three quarters |
| Actors.FallTimes | extension/src/platformer/actor/mod.rs:237-245 | repeated falling keeps gravity and terminal velocity |
| Actors.FallApproachesTerminal | extension/src/platformer/actor/mod.rs:237-245 | with positive gravity one tick never increases the distance to the terminal velocity, decreases it when it is positive, and changes nothing once it is reached |
| Actors.FallSettles | extension/src/platformer/actor/mod.rs:237-245 | in free fall with positive gravity, `vel.y` equals the terminal velocity after at most as many ticks as it is away from it |
| Actors.EdgeFlags | extension/src/platformer/actor/mod.rs:164-171 | an edge configured from scratch has SOLID exactly when its solid switch is on and NOTIFY exactly when its notify switch is on |
| Actors.AddFlagsAdds | extension/src/platformer/actor/mod.rs:164-171 | or-assigning the switched-on flags adds exactly those bits, keeps the others, and keeps a surface set a surface set |
| Actors.WithFlags | extension/src/platformer/actor/mod.rs:164-165 | the two conditional or-assignments of one edge compute `AddFlags` |
| Actors.ConfiguredIdentity | extension/src/platformer/actor/mod.rs:161-163 | after `ready`, the record moves exactly when the node is not static, and takes the node's position and instance id |
| Actors.ConfiguredFlags | extension/src/platformer/actor/mod.rs:164-171 | after `ready`, each of the four edges has gained exactly its switched-on flags |
| Actors.ConfiguredGravity | extension/src/platformer/actor/mod.rs:173-176 | a positive terminal velocity sets gravity to 3000 and stores the velocity cast to i32; zero leaves both alone |
| Actors.ConfiguredShape | extension/src/platformer/actor/mod.rs:178-189 | a rectangle collision shape sets the area size and offset; without one they are kept |
| Actors.ConfiguredFrame | extension/src/platformer/actor/mod.rs:158-192 | `ready` changes no other field of the record |
| Actors.Actor.constructor | extension/src/platformer/actor/mod.rs:141-156 | `init` makes a static node with no terminal velocity and no edge switches |
| Actors.Actor.Config | extension/src/platformer/actor/mod.rs:115-134 | the node's exported settings, gathered in one value |
| Actors.Actor.ConfigureEdges | extension/src/platformer/actor/mod.rs:159-171 | the first statements of `ready` compute the motion, position, owner and edge-flag stage |
| Actors.Actor.ConfigureGravity | extension/src/platformer/actor/mod.rs:173-176 | the terminal-velocity branch computes the gravity stage |
| Actors.Actor.ConfigureShape | extension/src/platformer/actor/mod.rs:178-189 | the collision-shape loop computes the area stage |
| Actors.Actor.Ready | extension/src/platformer/actor/mod.rs:158-192 | `ready` replaces the node's record with the configured one and changes no other record |
| Sweeps.TileCoord | extension/src/platformer/mod.rs:306-311 | `>> 16` gives the tile whose span contains the coordinate, negative ones included |
| Sweeps.TilePos | extension/src/platformer/mod.rs:306-311 | `tile_pos` gives the tile that contains the point, on both axes |
| Sweeps.UnTilePos | extension/src/platformer/mod.rs:313-315 | `un_tile_pos` gives an i32, equal to the tile's first coordinate when that fits |
| Sweeps.TilePosRoundTrip | extension/src/platformer/mod.rs:306-315 | the first coordinate of a representable tile lies in that tile |
| Sweeps.WithAlong | extension/src/platformer/mod.rs:152-154 | writing one axis' component of a vector leaves the other component |
| Sweeps.FirstSolid | extension/src/platformer/mod.rs:67-77 | the nearest solid column scanned forward: solid, in range, and at or before every solid column in range |
| Sweeps.LastSolid | extension/src/platformer/mod.rs:90-100 | the last solid column scanned backward: solid, in range, and at or after every solid column in range |
| Sweeps.StopForward | extension/src/platformer/mod.rs:71-72 | a forward tile stop makes the leading edge end exactly on the column boundary; `collided` gains exactly RIGHT or DOWN, and nothing else changes |
| Sweeps.StopBackward | extension/src/platformer/mod.rs:94-95 | a backward tile stop makes the trailing edge end exactly on the boundary after the column; `collided` gains exactly LEFT or UP, and nothing else changes |
| Sweeps.ForwardResult | extension/src/platformer/mod.rs:55-77 | the forward tile sweep changes at most `next_vel` and `collided`, and only adds collisions |
| Sweeps.BackwardResult | extension/src/platformer/mod.rs:78-101 | the same for the backward tile sweep |
| Sweeps.TileSweepSpec | extension/src/platformer/mod.rs:55-101 | a mover's tile sweep changes at most `next_vel` and `collided`, and only adds collisions |
| Sweeps.TileSweepForwardStopsAtNearest | extension/src/platformer/mod.rs:55-77 | moving forward, either no column in the path is solid and nothing changes, or the mover stops flush against the nearest solid column and `collided` gains exactly the forward bit |
| Sweeps.TileSweepBackwardStopsAtNearest | extension/src/platformer/mod.rs:78-101 | moving backward, each solid column overwrites the stop and the scan runs toward the mover, so the nearest solid column still decides: either nothing is solid and nothing changes, or the mover stops flush against it and `collided` gains exactly the backward bit |
| Sweeps.TileSweepAtRest | extension/src/platformer/mod.rs:55-101 | a mover at rest on the axis is not touched by tiles |
| Sweeps.IsSolidCell | extension/src/platformer/mod.rs:69-70 | a cell is solid exactly when it has tile data whose "Solid" is true |
| Sweeps.ScanColumn | extension/src/platformer/mod.rs:68-76 | the inner loop finds a solid cell in a column exactly when one exists in its range |
| Sweeps.TileSweep | extension/src/platformer/mod.rs:55-101 | the source's nested tile loops compute `TileSweepSpec` |
| Sweeps.TileSweepForward | extension/src/platformer/mod.rs:55-77 | the forward loops, leaving both loops at the first solid column, stop at `FirstSolid` |
| Sweeps.TileSweepBackward | extension/src/platformer/mod.rs:78-101 | the backward loops, which leave only the inner loop, stop at `LastSolid` |
| Sweeps.LastSolidStep | extension/src/platformer/mod.rs:90-100 | one more column scanned toward the mover decides the result when it is solid |
| Sweeps.EdgeStopForward | extension/src/platformer/mod.rs:114-117 | a stop at a solid facing edge makes the leading edge end where that edge will be after its owner moves, and sets the forward bit |
| Sweeps.EdgeStopBackward | extension/src/platformer/mod.rs:133-136 | the same for the trailing edge, setting the backward bit |
| Sweeps.EdgeStep | extension/src/platformer/mod.rs:103-145 | one step of the actor loop changes at most `next_vel` and `collided`, and only adds collisions |
| Sweeps.SolidEdgeStopsForward | extension/src/platformer/mod.rs:106-117 | a reached SOLID edge, approached forward, stops the mover flush with where the edge will be and adds exactly the forward bit |
| Sweeps.SolidEdgeStopsBackward | extension/src/platformer/mod.rs:125-136 | the same backward, where on Y the up-clamp guard must also hold |
| Sweeps.NotifyEdgeOnlyNotifies | extension/src/platformer/mod.rs:118-123 | an edge without SOLID never changes the mover; a reached NOTIFY edge makes exactly one notification naming the side opposite to the motion; nothing else notifies |
| Sweeps.IgnoredEdges | extension/src/platformer/mod.rs:105-112 | equal speeds, an edge with no flags, or no overlap across the axis leave the mover alone, and a mover never collides with itself |
| Sweeps.UpClampSuppression | extension/src/platformer/mod.rs:253-256 | a solid bottom edge fails to stop a rising mover exactly when the mover's top lacks SOLID and it already collided both UP and DOWN |
| Sweeps.EdgeFold | extension/src/platformer/mod.rs:103-145 | the whole actor loop changes at most `next_vel` and `collided`, and only adds collisions |
| Sweeps.EdgeStepReadsBodyOnly | extension/src/platformer/mod.rs:104-112 | a step reads only the other record's position, velocity, box and flags |
| Sweeps.EdgeFoldReadsBodiesOnly | extension/src/platformer/mod.rs:103-145 | so what earlier movers of the same pass stored in `next_vel` and `collided` cannot change a later mover's sweep |
| Sweeps.Sweep | extension/src/platformer/mod.rs:53-147 | a mover's full sweep, tiles and then actors, changes at most `next_vel` and `collided`, and only adds collisions |
| Sweeps.EdgeCheck | extension/src/platformer/mod.rs:104-144 | the body of the actor loop computes `EdgeStep`, notifications included |
| Sweeps.EdgeCheckForward | extension/src/platformer/mod.rs:106-124 | the `rmov > 0` branch computes `EdgeStep` |
| Sweeps.EdgeCheckBackward | extension/src/platformer/mod.rs:125-144 | the `rmov < 0` branch computes `EdgeStep` |
| Sweeps.EdgeSweep | extension/src/platformer/mod.rs:103-145 | the actor loop computes `EdgeFold` over every registered actor in order |
| Platformer.ActorsOf | extension/src/platformer/mod.rs:291-304 | an actor node registers itself and nothing below it |
| Platformer.Moving | extension/src/platformer/mod.rs:295-297 | the moving list is never longer than the list it filters |
| Platformer.MovingHandles | extension/src/platformer/mod.rs:295-297 | the moving list holds only handles of records |
| Platformer.MovingMembers | extension/src/platformer/mod.rs:295-298 | a handle is in the moving list exactly when it is registered and its record moves |
| Platformer.MovingAppend | extension/src/platformer/mod.rs:300-302 | filtering the movers distributes over registering subtrees one after another |
| Platformer.MovingKeepsDistinct | extension/src/platformer/mod.rs:295-297 | distinct registrations give distinct movers |
| Platformer.PrePassed | extension/src/platformer/mod.rs:38-45 | the pre-pass keeps the old collisions, clears the new ones, applies `fall` and seeds the X candidate with `vel.x` |
| Platformer.Committed | extension/src/platformer/mod.rs:150-157 | after a commit the record is settled on the axis, a settled record is unchanged, the axis' velocity component becomes `next_vel`, the other component is kept, and nothing but `vel` changes |
| Platformer.CommitChangesUnsettledOnly | extension/src/platformer/mod.rs:152-156 | a commit changes a record exactly when it is unsettled, and committing twice is committing once |
| Platformer.IntegratedX | extension/src/platformer/mod.rs:160-165 | X integration moves by `vel.x` and seeds the Y candidate with `vel.y` |
| Platformer.IntegratedY | extension/src/platformer/mod.rs:280-284 | Y integration moves by `vel.y` and changes nothing else |
| Platformer.Updated | extension/src/platformer/mod.rs:38-45 | a per-mover pass keeps the arena's size and leaves every non-mover alone |
| Platformer.SweptAll | extension/src/platformer/mod.rs:52-148 | a sweep pass leaves non-movers alone, and changes movers only in `next_vel` and by adding collisions |
| Platformer.SweptAllMover | extension/src/platformer/mod.rs:52-148 | with distinct movers, each mover ends a sweep pass with its own sweep against the records from the start of the pass |
| Platformer.AnyUnsettled | extension/src/platformer/mod.rs:150-157 | `dirty` after a commit holds exactly when some mover was unsettled |
| Platformer.CommitSettledIsIdentity | extension/src/platformer/mod.rs:150-157 | when no mover is unsettled, the commit loop changes nothing |
| Platformer.UpdatedStep | extension/src/platformer/mod.rs:38-45 | a per-mover pass over one more mover updates only that mover's record |
| Platformer.CommitStep | extension/src/platformer/mod.rs:150-157 | one commit iteration sees the mover's record from the start of the loop and extends both the updated records and `dirty` by that mover |
| Platformer.SweptAllStep | extension/src/platformer/mod.rs:52-148 | a sweep pass over one more mover updates only that mover's record |
| Platformer.SweepMotion | extension/src/platformer/mod.rs:52-148 | a sweep changes a record only as the resolution of its axis may |
| Platformer.CommitMotion | extension/src/platformer/mod.rs:150-157 | so does a commit: only the axis' velocity component, the candidate, and added collisions |
| Platformer.AxisMotionOnlyTrans | extension/src/platformer/mod.rs:49-158 | such changes compose across the passes of the `while dirty` loop |
| Platformer.AxisMotionOnlyAllTrans | extension/src/platformer/mod.rs:49-158 | the same for the whole arena |
| Platformer.PassMotion | extension/src/platformer/mod.rs:49-158 | a sweep pass followed by a commit changes the arena only as the axis' resolution may |
| Platformer.TickMovesByFinalVelocity | extension/src/platformer/mod.rs:35-285 | over a tick, a mover's position moves by exactly its final velocity, its old collisions become the previous tick's, and nothing but velocity, candidate and collisions changes otherwise |
| Platformer.TickComposition | extension/src/platformer/mod.rs:35-285 | the pre-pass, the X resolution and integration, and the Y resolution and integration compose to `Ticked` |
| Platformer.SweepReadsBodiesOnly | extension/src/platformer/mod.rs:53-147 | a mover's sweep does not depend on what the pass stored in the other records' `next_vel` and `collided` |
| Platformer.SweepPassStep | extension/src/platformer/mod.rs:52-148 | midway through a pass, sweeping the next mover against the current records gives its sweep against the records from the start of the pass |
| Platformer.PassNotesStep | extension/src/platformer/mod.rs:118-123 | the notifications of a pass grow by exactly the next mover's notifications |
| Platformer.HandlesPrefix | extension/src/platformer/mod.rs:52 | a prefix of a handle list holds handles only |
| Platformer.HandlesAppend | extension/src/platformer/mod.rs:296-298 | a concatenation holds handles only exactly when both parts do |
| Platformer.ChildrenPrefix | extension/src/platformer/mod.rs:300-302 | the actors under the first children are registered before those under later ones |
| Platformer.ChildStep | extension/src/platformer/mod.rs:300-302 | registering child `k` files its actors, and its movers, right after those of the earlier children |
| Platformer.DistinctMovingAppend | extension/src/platformer/mod.rs:295-297 | appending the movers of new, distinct actors keeps the moving list free of repeats |
| Platformer.PlatformerGame.constructor | extension/src/platformer/mod.rs:22-29 | `init` starts with no actors and no movers |
| Platformer.PlatformerGame.RegisterActors | extension/src/platformer/mod.rs:291-304 | `register_actors` appends the actors of the subtree in visiting order, and exactly their moving ones to the movers |
| Platformer.PlatformerGame.RegisterChildren | extension/src/platformer/mod.rs:300-302 | the `Err` arm registers every child's subtree in order |
| Platformer.PlatformerGame.Ready | extension/src/platformer/mod.rs:31-33 | `ready` registers the whole scene; a handle is a mover exactly when it was one already or is a newly registered actor whose record moves |
| Platformer.PlatformerGame.ForEachMover | extension/src/platformer/mod.rs:38-45 | a loop over the movers that changes each record by itself computes `Updated` |
| Platformer.PlatformerGame.SweepPass | extension/src/platformer/mod.rs:52-148 | a sweep pass computes `SweptAll` and records exactly the pass' notifications, in order |
| Platformer.PlatformerGame.StoreSweep | extension/src/platformer/mod.rs:53-147 | one iteration of the pass stores the mover's sweep and its notifications |
| Platformer.PlatformerGame.SweepMover | extension/src/platformer/mod.rs:53-145 | a mover's copy after the tile and actor loops is its `Sweep` |
| Platformer.PlatformerGame.Commit | extension/src/platformer/mod.rs:150-157 | the commit loop computes the committed records, and `dirty` holds exactly when some mover was unsettled |
| Platformer.PlatformerGame.CommitMover | extension/src/platformer/mod.rs:151-156 | an unsettled mover takes its candidate as its velocity and reports a change; a settled one is untouched |
| Platformer.After | extension/src/platformer/mod.rs:49-158 | a run preceded by `n` more passes counts them and logs their notifications first, and is otherwise the same run |
| Platformer.Resolved | extension/src/platformer/mod.rs:47-158 | the `while dirty` loop from given records makes at most its bound of passes and keeps the number of records |
| Platformer.Passed | extension/src/platformer/mod.rs:49-158 | one pass of the loop body, then the loop again unless the commit left `dirty` false; it makes at least one pass |
| Platformer.ResolvedSettles | extension/src/platformer/mod.rs:47-158 | a run that settles made at least one pass and its last pass left its start records a fixed point; a run that does not settle used all its passes |
| Platformer.PassedSettles | extension/src/platformer/mod.rs:49-158 | the same for a run that begins with a pass |
| Platformer.CleanPassSettles | extension/src/platformer/mod.rs:150-157 | a pass whose commit finds no unsettled mover ends at a fixed point from its start records |
| Platformer.ResolvedStep | extension/src/platformer/mod.rs:49-158 | one iteration of the loop: a dirty pass leaves the rest of the run to the loop from the new records, a clean one ends it with those records |
| Platformer.RunOutOfFuel | extension/src/platformer/mod.rs:49 | a run whose bound is used up ends unsettled with the records it has |
| Platformer.ResolvedUnfolds | extension/src/platformer/mod.rs:49-158 | with passes left, the loop is a pass followed by the loop |
| Platformer.AfterAfter | extension/src/platformer/mod.rs:49-158 | prefixing passes twice adds their counts and concatenates their notifications in order |
| Platformer.ResolvedMotion | extension/src/platformer/mod.rs:47-158 | the whole loop changes the records only as the axis' resolution may |
| Platformer.ResolvedMotionStep | extension/src/platformer/mod.rs:49-158 | the same, for a loop with passes left, by one pass and the rest of the loop |
| Platformer.PlatformerGame.ResolvePass | extension/src/platformer/mod.rs:52-157 | one pass stores the committed sweep of the records, returns `dirty`, and logs the pass' notifications |
| Platformer.PlatformerGame.ResolveIteration | extension/src/platformer/mod.rs:49-158 | one iteration of the loop advances the run exactly as `ResolvedStep` says |
| Platformer.PlatformerGame.ResolveLoop | extension/src/platformer/mod.rs:49-158 | the loop ends with the records, verdict and notifications of `Resolved` from the records at entry |
| Platformer.PlatformerGame.Resolve | extension/src/platformer/mod.rs:47-158 | the run is `Resolved` from the records at the call: the records, the verdict and the notifications are those of the loop; when it settles the records are a fixed point of a pass; it changes the records only as the axis' resolution may |
| Platformer.PlatformerGame.PhysicsProcess | extension/src/platformer/mod.rs:35-285 | a tick runs the pre-pass on every mover; `runX` is `Resolved` on X from the pre-pass' records (a fixed point of an X pass when `settledX`, changing only what X resolution may); X is integrated; `runY` is `Resolved` on Y from the integrated records, likewise; Y is integrated; non-movers are untouched and each mover moves by its final velocity with its previous collisions saved (`Ticked`); the notifications are exactly those of `runX` then `runY` |
| Lazers.Opposite | extension/src/platformer/lazer.rs:7-10 | a reference helper on the source's direction enum, not a function of the source, against which the reflection tables are checked: the reverse of a direction differs from it and is horizontal exactly when it is |
| Lazers.ReflectMain | extension/src/platformer/lazer.rs:13-20 | the main mirror turns horizontal beams vertical and vertical ones horizontal |
| Lazers.ReflectInv | extension/src/platformer/lazer.rs:22-29 | so does the other mirror |
| Lazers.ReflectionsAreInvolutions | extension/src/platformer/lazer.rs:13-29 | reflecting twice off the same mirror restores the direction |
| Lazers.ReflectionsHaveNoFixedPoint | extension/src/platformer/lazer.rs:13-29 | no mirror leaves a direction unchanged |
| Lazers.ReflectInvIsOppositeOfMain | extension/src/platformer/lazer.rs:13-29 | the two mirrors send every direction to opposite directions, and reflecting the reverse direction off the main mirror gives the other mirror's result |
| Lazers.StartDirectionIgnoresRotation | extension/src/platformer/lazer.rs:91-93 | the match on the rotation has only a wildcard arm, so every rotation starts the beam Left |
| Lazers.Beam.constructor | extension/src/platformer/lazer.rs:89-102 | a beam holds its activation, start direction and start position |
| Lazers.Lazer.constructor | extension/src/platformer/lazer.rs:77-85 | `init` starts with no inputs and no beam |
| Lazers.Lazer.Ready | extension/src/platformer/lazer.rs:87-103 | `ready` collects the inputs and creates a fresh beam, active exactly when there are no inputs, starting Left |
| Lazers.Lazer.PhysicsProcess | extension/src/platformer/lazer.rs:105-108 | the beam is active exactly when every input actor signals |
| Doors.DoorFlags | extension/src/platformer/actor/door.rs:45-48 | an open door's edges have no flags; a closed door's are exactly SOLID, never NOTIFY |
| Doors.WithDoorEdges | extension/src/platformer/actor/door.rs:49-54 | all four edges get the same flags, and every other field of the record is kept |
| Doors.AnimatedStaysInRange | extension/src/platformer/actor/door.rs:56-73 | a tick keeps the frame within 0..8 and the countdown within `TICKS_PER_FRAME`, and moves the frame by at most one toward open or closed |
| Doors.AnimatedFrameMovesOnlyWhenIdle | extension/src/platformer/actor/door.rs:56-73 | the frame moves only on a tick with no countdown left and unchanged flags, and then the countdown restarts; a running countdown only counts down |
| Doors.DoorOpensFully | extension/src/platformer/actor/door.rs:56-73 | a door that stays open reaches frame 8 within `ttnf + 3 * (8 - frame)` ticks and never leaves 0..8 |
| Doors.DoorClosesFully | extension/src/platformer/actor/door.rs:56-73 | a door that stays closed reaches frame 0 within `ttnf + 3 * frame` ticks and never leaves 0..8 |
| Doors.Door.constructor | extension/src/platformer/actor/door.rs:24-39 | `init` then `ready`: no countdown, the inputs, and the sprite's frame |
| Doors.Door.PhysicsProcess | extension/src/platformer/actor/door.rs:41-74 | the door's edges become those of an open or closed door, and the animation takes one `Animated` step |
| Plates.Pressing | extension/src/platformer/actor/plate.rs:41-46 | `retain` never lengthens the list |
| Plates.SubsequenceMembers | extension/src/platformer/actor/plate.rs:41-46 | every entry kept was an entry before |
| Plates.PressingMembers | extension/src/platformer/actor/plate.rs:41-46 | a pusher is kept exactly when it was listed and its box still presses the plate |
| Plates.PressingIsSubsequence | extension/src/platformer/actor/plate.rs:41-46 | the kept pushers keep their order and nothing is added |
| Plates.PressingKeepsDistinct | extension/src/platformer/actor/plate.rs:41-46 | a list without repeats stays without repeats |
| Plates.Inserted | extension/src/platformer/actor/plate.rs:63-68 | the notifying actor is listed afterwards, nothing else is added, the old list is a prefix, and the list stays without repeats |
| Plates.InsertedIdempotent | extension/src/platformer/actor/plate.rs:63-68 | notifying twice with the same actor lists it once |
| Plates.Plate.constructor | extension/src/platformer/actor/plate.rs:20-27 | `init` starts with no pushers |
| Plates.Plate.Ready | extension/src/platformer/actor/plate.rs:29-34 | the plate becomes the notify target of its actor's record, and nothing else changes |
| Plates.Plate.PhysicsProcess | extension/src/platformer/actor/plate.rs:36-57 | the pushers become the pressing ones, and the signal holds afterwards exactly when some remain |
| Plates.Plate.Retain | extension/src/platformer/actor/plate.rs:41-46 | the retain loop computes `Pressing` |
| Plates.Plate.CollideNotify | extension/src/platformer/actor/plate.rs:63-68 | the notifying actor is appended unless already listed, and the list stays without repeats |
| Crates.PushVelocity | extension/src/platformer/actor/cube.rs:41-45 | a push from exactly the left gives `push_speed`, one from exactly the right gives `-push_speed`, and any other set of sides gives 0 |
| Crates.OnePushDecidesVelocity | extension/src/platformer/actor/cube.rs:41-58 | a crate at rest notified once by a grounded player moves right when pushed on its left side, left when pushed on its right side, and not at all otherwise |
| Crates.OpposingPushesCancel | extension/src/platformer/actor/cube.rs:41-58 | pushes by grounded players on both sides within one tick, in either order, leave the crate without horizontal velocity |
| Crates.Pushed | extension/src/platformer/actor/cube.rs:54-58 | a notification only adds sides; when the pusher is a player that was on the ground the defined bits become exactly those of the old sides and the direction together, and otherwise nothing changes |
| Crates.PushedIdempotent | extension/src/platformer/actor/cube.rs:54-58 | the same notification twice has the effect of one |
| Crates.PushedCommutes | extension/src/platformer/actor/cube.rs:54-58 | the order of two notifications within a tick does not matter |
| Crates.Crate.constructor | extension/src/platformer/actor/cube.rs:21-29 | `init`: no push, no push speed, not carryable |
| Crates.Crate.Ready | extension/src/platformer/actor/cube.rs:32-37 | the crate becomes the notify target of its actor's record, and nothing else changes |
| Crates.Crate.PhysicsProcess | extension/src/platformer/actor/cube.rs:39-48 | the gathered sides set `vel.x` by `PushVelocity` and are then cleared |
| Crates.Crate.CollideNotify | extension/src/platformer/actor/cube.rs:54-58 | the gathered sides become `Pushed` of the old ones |
| Players.WalkVelocityCases | extension/src/platformer/actor/player.rs:53-55 | both keys or neither stand still, and one key walks at `speed` that way |
| Players.BookLanding | extension/src/platformer/actor/player.rs:71-74 | the thrown book lands at the height of the player's bottom edge, within its width, in the middle with the half width rounded toward zero |
| Players.Walked | extension/src/platformer/actor/player.rs:53-55 | walking sets only `vel.x`, to the arrow keys' velocity |
| Players.GravityChecked | extension/src/platformer/actor/player.rs:57-63 | the gravity check changes only gravity, resetting it to 3000 exactly when the weak jump gravity ends |
| Players.Jumped | extension/src/platformer/actor/player.rs:65-78 | the jump key changes only `vel.y` and gravity |
| Players.SteeredChangesVelocityAndGravityOnly | extension/src/platformer/actor/player.rs:49-83 | a tick of control changes only velocity and gravity, and `vel.x` is the walking velocity |
| Players.SteeredWithoutPress | extension/src/platformer/actor/player.rs:57-65 | without a fresh press, `vel.y` is kept, the book is not thrown, and gravity is reset exactly when the weak jump gravity ends |
| Players.SteeredGroundJump | extension/src/platformer/actor/player.rs:65-68 | a fresh press on the ground subtracts the jump power from `vel.y`, switches to the jump gravity, and throws no book |
| Players.SteeredInAir | extension/src/platformer/actor/player.rs:65-77 | a fresh press in the air throws the book exactly when the player has it, and then sets `vel.y` to `-book_bounce`; otherwise `vel.y` is kept |
| Players.Player.constructor | extension/src/platformer/actor/player.rs:31-47 | `init` sets the default speed 16000, jump power 50000, jump gravity 1500, cutoff 10000 and book bounce 0 |
| Players.Player.Config | extension/src/platformer/actor/player.rs:17-26 | the exported settings, gathered in one value |
| Players.Player.PhysicsProcess | extension/src/platformer/actor/player.rs:49-83 | the player's record becomes `Steered`, and the book's position moves to `BookLanding` exactly when the book is thrown; no other record changes |
| Players.Player.Walk | extension/src/platformer/actor/player.rs:53-55 | the three walking statements compute `Walked` |
| Players.Player.CheckGravity | extension/src/platformer/actor/player.rs:57-63 | the gravity test computes `GravityChecked` |
| Players.Player.ThrowBook | extension/src/platformer/actor/player.rs:70-75 | the book's record takes the landing position, and nothing else changes |
| Players.Player.Jump | extension/src/platformer/actor/player.rs:65-78 | the jump branch computes `Jumped` |

## Left out

- Engine calls are parameters or are not modelled. The tile layer is a function from cells to "Solid". The scene tree is a `SceneNode` value. The node's global position, instance id and collision shape are arguments of `Actor.Ready`. Input polling is an `Input` value. `HAS_BOOK` and "is the pusher a Player" are booleans.
- Floating point is not modelled: the `Vec`/`Vector2` conversions, `SCENE_SCALE`, `Direction::rot`, the beam emitter's rotation (an `int` of degrees here) and `Actor::process`, which copies the position back to the node.
- Sprites are not modelled. The door's frame is an `int` field, and the plate's animation names are left out.
- The sprite `unwrap` panics are dropped. The door unwraps `self.sprite` (`door.rs:65`, `68`, `71`), which is `None` when the door has no "Sprite" child (`door.rs:37`). The plate unwraps `self.sprite` whenever its signal flips (`plate.rs:49`, `53`), and nothing sets it after `init` (`plate.rs:25`). Doors.Door.PhysicsProcess and Plates.Plate.PhysicsProcess complete normally in those cases.
- The beam's rendering fields (`scene`, `segments`, the bounding box, `hit_actor`) are not modelled.
- `camera.rs`, `detector.rs` and `unlock_book_zone.rs` are not part of this model.
- `collide_notify` calls are recorded in a ghost log of `Notification`s. The scripts' `CollideNotify` methods model what a call does, but the resolver does not call them, and the model does not capture the effect on this tick's sweep.
- i32 overflow is not modelled: integers are unbounded, except for `un_tile_pos` (`Wrap`), the `u32 as i32` cast (`FromU32`) and Rust's truncating `/` (`TruncDiv`).
- Platformer.PlatformerGame.Resolve: the `while dirty` loop is cut off after `fuel` passes. Up to that bound the run is exact: records, verdict and notifications are those of `Resolved` from the records at the call. Termination of the unbounded loop is not claimed.
- Platformer.PlatformerGame.PhysicsProcess: it inherits the fuel bound of `Resolve`. Each axis' run is exact up to that bound, and reaching the fixed point within it is not proved.
- Platformer.PlatformerGame.Ready: it requires the scene's actors to be distinct from each other and from earlier registrations. Each `Actor` node owns one record, so this is how the scene is built, not a check the source makes.
- Panics on `unwrap` of a missing tile layer (`mod.rs:36`) or beam, and of a missing parent in the handle lookup, are preconditions instead: `tilemap.Some?`, handles in range, `beam != null`.
- The sweep's `notify_target.unwrap()` and `actor.unwrap()` (`mod.rs:119-120`, `138-139`, `239-240`, `258-259`) panic when a NOTIFY edge's owner has no notify target or the mover no actor. The model does not capture these panics: it logs `Notification(owner, mover, side)` whether or not a target is set.
- Constructors combine `init` with the handle lookup that `ready` makes through the scene tree (`get_parent`, `find_child`, `get_child(0)`).
- Lazers.Lazer.Ready: the start position comes from the first child's global position, which is a parameter here.
- Doors.Door.constructor: the door's sprite frame is read once at `ready`, and kept in a field from then on. The source reads it from the sprite each tick; nothing else sets it.
- Godot instance ids are `nat`.
