/**
 * `PlatformerGame` (extension/src/platformer/mod.rs): the registry of actor
 * records and the per-tick collision resolver.
 *
 * The records are the cells of an arena, `arena`, addressed by handle; the
 * game keeps two lists of handles, every registered actor and the moving
 * ones.  A tick is: a pre-pass over the movers (gravity, `next_vel`), then
 * for X and then for Y a loop of sweep passes and commits until no mover's
 * velocity changes, each followed by integration of the position.
 */
module Platformer {
  import opened Options
  import opened Actors
  import opened Sweeps

  // ---------------------------------------------------------------------
  // The scene tree seen by registration

  /** A node of the scene tree: an `Actor` (whose own children registration
      does not visit) or any other node. */
  datatype SceneNode =
    | ActorNode(handle: nat, children: seq<SceneNode>)
    | OtherNode(children: seq<SceneNode>)

  /** The actors found by `register_actors`, in visiting order. */
  function ActorsOf(n: SceneNode): (r: seq<nat>)
    ensures n.ActorNode? ==> r == [n.handle]
    decreases n, 1
  {
    match n
    case ActorNode(h, _) => [h]
    case OtherNode(cs) => ActorsOfChildren(n, |cs|)
  }

  /** The actors found under the first `k` children of `parent`. */
  function ActorsOfChildren(parent: SceneNode, k: nat): seq<nat>
    requires k <= |parent.children|
    decreases parent, 0, k
  {
    if k == 0 then []
    else
      assert parent.children[k - 1] in parent.children;
      ActorsOfChildren(parent, k - 1) + ActorsOf(parent.children[k - 1])
  }

  /** The handles of `hs` whose record moves, in order. */
  function Moving(s: seq<ActorData>, hs: seq<nat>): (r: seq<nat>)
    ensures |r| <= |hs|
    decreases |hs|
  {
    if hs == [] then []
    else
      var last := hs[|hs| - 1];
      Moving(s, hs[..|hs| - 1]) + (if last < |s| && s[last].moves then [last] else [])
  }

  /** `Moving` keeps only handles that name a record. */
  lemma {:induction false} MovingHandles(s: seq<ActorData>, hs: seq<nat>)
    ensures Handles(|s|, Moving(s, hs))
    decreases |hs|
  {
    if hs != [] {
      MovingHandles(s, hs[..|hs| - 1]);
    }
  }

  /** A handle is kept by `Moving` exactly when it is listed and its record moves. */
  lemma {:induction false} MovingMembers(s: seq<ActorData>, hs: seq<nat>, h: nat)
    requires Handles(|s|, hs)
    ensures h in Moving(s, hs) <==> h in hs && s[h].moves
    decreases |hs|
  {
    if hs != [] {
      var init := hs[..|hs| - 1];
      MovingMembers(s, init, h);
      assert hs == init + [hs[|hs| - 1]];
    }
  }

  /** `Moving` distributes over concatenation, so registering subtrees one
      after another files the movers in the same order. */
  lemma {:induction false} MovingAppend(s: seq<ActorData>, a: seq<nat>, b: seq<nat>)
    requires Handles(|s|, a) && Handles(|s|, b)
    ensures Handles(|s|, a + b)
    ensures Moving(s, a + b) == Moving(s, a) + Moving(s, b)
    decreases |b|
  {
    HandlesAppend(|s|, a, b);
    if b == [] {
      assert a + b == a;
    } else {
      var init := b[..|b| - 1];
      var last := b[|b| - 1];
      var ab := a + b;
      assert ab[..|ab| - 1] == a + init;
      assert ab[|ab| - 1] == last;
      HandlesAppend(|s|, a, init);
      MovingAppend(s, a, init);
      var tail := if s[last].moves then [last] else [];
      assert Moving(s, ab) == Moving(s, a + init) + tail;
      assert Moving(s, b) == Moving(s, init) + tail;
    }
  }

  /** A list of distinct handles keeps its moving ones distinct. */
  lemma {:induction false} MovingKeepsDistinct(s: seq<ActorData>, hs: seq<nat>)
    requires Handles(|s|, hs) && Distinct(hs)
    ensures Distinct(Moving(s, hs))
    decreases |hs|
  {
    if hs != [] {
      var init := hs[..|hs| - 1];
      var last := hs[|hs| - 1];
      MovingKeepsDistinct(s, init);
      MovingMembers(s, init, last);
      assert last !in init;
    }
  }

  // ---------------------------------------------------------------------
  // The passes of a tick, one record at a time

  /** The pre-pass (mod.rs:38-45): the old collisions are kept, the new ones
      cleared, gravity applied and the X candidate seeded. */
  function PrePassed(d: ActorData): (r: ActorData)
    ensures r.collidedOld == d.collided && r.collided == 0
    ensures r.vel == Fall(d).vel && r.nextVel == r.vel.x
    ensures r == d.(collidedOld := r.collidedOld, collided := r.collided,
                    vel := r.vel, nextVel := r.nextVel)
  {
    var f := Fall(d.(collidedOld := d.collided, collided := 0));
    f.(nextVel := f.vel.x)
  }

  /** A mover whose candidate differs from its velocity on the axis. */
  predicate Unsettled(axis: Axis, d: ActorData) {
    d.nextVel != Along(d.vel, axis)
  }

  /** The commit loop's step (mod.rs:150-157 and 270-277): the candidate
      becomes the velocity on the axis. */
  function Committed(axis: Axis, d: ActorData): (r: ActorData)
    ensures !Unsettled(axis, r)
    ensures !Unsettled(axis, d) ==> r == d
    ensures Along(r.vel, axis) == d.nextVel && Across(r.vel, axis) == Across(d.vel, axis)
    ensures r == d.(vel := r.vel)
  {
    if d.nextVel != Along(d.vel, axis) then d.(vel := WithAlong(d.vel, axis, d.nextVel)) else d
  }

  /** A commit changes a record exactly when it was unsettled, and a second
      commit changes nothing. */
  lemma CommitChangesUnsettledOnly(axis: Axis, d: ActorData)
    ensures Committed(axis, d) != d <==> Unsettled(axis, d)
    ensures Committed(axis, Committed(axis, d)) == Committed(axis, d)
  {
    if Unsettled(axis, d) {
      assert Along(Committed(axis, d).vel, axis) != Along(d.vel, axis);
    }
  }

  /** Integration on X (mod.rs:160-165) also seeds the Y candidate. */
  function IntegratedX(d: ActorData): (r: ActorData)
    ensures r.pos == Vec(d.pos.x + d.vel.x, d.pos.y) && r.nextVel == d.vel.y
    ensures r == d.(pos := r.pos, nextVel := r.nextVel)
  {
    d.(pos := d.pos.(x := d.pos.x + d.vel.x), nextVel := d.vel.y)
  }

  /** Integration on Y (mod.rs:280-284). */
  function IntegratedY(d: ActorData): (r: ActorData)
    ensures r.pos == Vec(d.pos.x, d.pos.y + d.vel.y)
    ensures r == d.(pos := r.pos)
  {
    d.(pos := d.pos.(y := d.pos.y + d.vel.y))
  }

  /** The per-mover passes that need no other record. */
  datatype Pass = PrePass | CommitPass(axis: Axis) | IntegrateX | IntegrateY

  function Apply(p: Pass, d: ActorData): ActorData {
    match p
    case PrePass => PrePassed(d)
    case CommitPass(axis) => Committed(axis, d)
    case IntegrateX => IntegratedX(d)
    case IntegrateY => IntegratedY(d)
  }

  /** The records after pass `p` over the movers. */
  function Updated(p: Pass, s: seq<ActorData>, movers: seq<nat>): (r: seq<ActorData>)
    ensures |r| == |s|
    ensures forall i :: 0 <= i < |s| && i !in movers ==> r[i] == s[i]
  {
    seq(|s|, i requires 0 <= i < |s| => if i in movers then Apply(p, s[i]) else s[i])
  }

  /** The records after one sweep pass over the movers: each mover's copy as
      its own sweep against the records at the start of the pass leaves it. */
  ghost function SweptAll(axis: Axis, tiles: TileMap, s: seq<ActorData>, actors: seq<nat>, movers: seq<nat>): (r: seq<ActorData>)
    requires Handles(|s|, actors) && Handles(|s|, movers)
    ensures |r| == |s|
    ensures forall i :: 0 <= i < |s| && i !in movers ==> r[i] == s[i]
    ensures forall i :: 0 <= i < |s| ==> SameBody(r[i], s[i]) && Contains(r[i].collided, s[i].collided)
    decreases |movers|
  {
    if movers == [] then s
    else
      var m := movers[|movers| - 1];
      SweptAll(axis, tiles, s, actors, movers[..|movers| - 1])[m := Sweep(axis, tiles, s, actors, m).0]
  }

  /** With distinct movers, each mover's record after the pass is its own
      sweep against the records at the start of the pass. */
  lemma {:induction false} SweptAllMover(axis: Axis, tiles: TileMap, s: seq<ActorData>, actors: seq<nat>, movers: seq<nat>, k: nat)
    requires Handles(|s|, actors) && Handles(|s|, movers) && Distinct(movers) && k < |movers|
    ensures SweptAll(axis, tiles, s, actors, movers)[movers[k]] == Sweep(axis, tiles, s, actors, movers[k]).0
    decreases |movers|
  {
    var init := movers[..|movers| - 1];
    if k < |movers| - 1 {
      assert movers[k] == init[k];
      SweptAllMover(axis, tiles, s, actors, init, k);
    }
  }

  /** The notifications of one sweep pass, mover by mover. */
  ghost function PassNotes(axis: Axis, tiles: TileMap, s: seq<ActorData>, actors: seq<nat>, movers: seq<nat>): seq<Notification>
    requires Handles(|s|, actors) && Handles(|s|, movers)
    decreases |movers|
  {
    if movers == [] then []
    else
      PassNotes(axis, tiles, s, actors, movers[..|movers| - 1]) +
      Sweep(axis, tiles, s, actors, movers[|movers| - 1]).1
  }

  /** Some mover's candidate differs from its velocity on the axis. */
  function AnyUnsettled(axis: Axis, s: seq<ActorData>, movers: seq<nat>): (r: bool)
    requires Handles(|s|, movers)
    ensures r <==> exists k :: 0 <= k < |movers| && Unsettled(axis, s[movers[k]])
    decreases |movers|
  {
    if movers == [] then false
    else AnyUnsettled(axis, s, movers[..|movers| - 1]) || Unsettled(axis, s[movers[|movers| - 1]])
  }

  /** The fixed point the `while dirty` loop stops at: `s` is what a sweep
      pass from `start` produced, and it left every mover's candidate equal
      to its velocity, so the commit changed nothing. */
  ghost predicate SettledFrom(axis: Axis, tiles: TileMap, start: seq<ActorData>, s: seq<ActorData>, actors: seq<nat>, movers: seq<nat>)
    requires Handles(|start|, actors) && Handles(|start|, movers)
  {
    s == SweptAll(axis, tiles, start, actors, movers) &&
    !AnyUnsettled(axis, s, movers)
  }

  /** The run of a `while dirty` loop: whether it ended clean, how many
      passes it made, the records at the start of its last pass and at its
      end, and the notifications it logged. */
  datatype Run = Run(settled: bool, passes: nat, lastStart: seq<ActorData>, records: seq<ActorData>, notes: seq<Notification>)

  /** A run preceded by `n` passes that logged `notes`. */
  function After(r: Run, n: nat, notes: seq<Notification>): (a: Run)
    ensures a.passes == n + r.passes && a.notes == notes + r.notes
    ensures a == r.(passes := a.passes, notes := a.notes)
  {
    r.(passes := n + r.passes, notes := notes + r.notes)
  }

  /** The `while dirty` loop of one axis from records `s` with `fuel`
      passes left, `last` being the start of the latest pass so far: it
      ends unsettled when the fuel is spent and goes on with `Passed`
      otherwise. */
  ghost function Resolved(axis: Axis, tiles: TileMap, s: seq<ActorData>, actors: seq<nat>, movers: seq<nat>,
                          fuel: nat, last: seq<ActorData>): (r: Run)
    requires Handles(|s|, actors) && Handles(|s|, movers) && |last| == |s|
    ensures r.passes <= fuel && |r.records| == |s| && |r.lastStart| == |s|
    decreases fuel, 0
  {
    if fuel == 0 then Run(false, 0, last, s, [])
    else Passed(axis, tiles, s, actors, movers, fuel - 1)
  }

  /** One iteration of the loop from records `s`: a sweep pass and a
      commit, then the loop again, with `fuel` passes left, when the sweep
      left some mover unsettled. */
  ghost function Passed(axis: Axis, tiles: TileMap, s: seq<ActorData>, actors: seq<nat>, movers: seq<nat>,
                        fuel: nat): (r: Run)
    requires Handles(|s|, actors) && Handles(|s|, movers)
    ensures 0 < r.passes <= fuel + 1 && |r.records| == |s| && |r.lastStart| == |s|
    decreases fuel, 1
  {
    var swept := SweptAll(axis, tiles, s, actors, movers);
    var next := Updated(CommitPass(axis), swept, movers);
    var notes := PassNotes(axis, tiles, s, actors, movers);
    if !AnyUnsettled(axis, swept, movers) then Run(true, 1, s, next, notes)
    else After(Resolved(axis, tiles, next, actors, movers, fuel, s), 1, notes)
  }

  /** A run with no fuel left ends where it stands, unsettled. */
  lemma RunOutOfFuel(axis: Axis, tiles: TileMap, target: Run, s: seq<ActorData>, actors: seq<nat>, movers: seq<nat>,
                     left: nat, last: seq<ActorData>, n: nat, done: seq<Notification>)
    requires Handles(|s|, actors) && Handles(|s|, movers) && |last| == |s| && left == 0
    requires target == After(Resolved(axis, tiles, s, actors, movers, left, last), n, done)
    ensures target == Run(false, n, last, s, done)
  {
    assert done + [] == done;
  }

  /** No delay changes nothing. */
  lemma AfterNothing(r: Run)
    ensures After(r, 0, []) == r
  {
    assert [] + r.notes == r.notes;
  }

  /** Logging `notes` after `log0 + done` extends `done` by `notes`. */
  lemma LogGrows(log0: seq<Notification>, done: seq<Notification>, notes: seq<Notification>)
    ensures log0 + done + notes == log0 + (done + notes)
  {
  }

  /** Two delays compose. */
  lemma AfterAfter(r: Run, n: nat, m: nat, a: seq<Notification>, b: seq<Notification>)
    ensures After(After(r, m, b), n, a) == After(r, n + m, a + b)
  {
    assert a + (b + r.notes) == (a + b) + r.notes;
  }

  /** Run `r`, allowed `fuel` passes, ends clean exactly when its last
      pass left every mover settled, and then its records are the fixed
      point reached from the start of that pass; a run that does not end
      clean used all its fuel. */
  ghost predicate EndsAsRun(axis: Axis, tiles: TileMap, r: Run, actors: seq<nat>, movers: seq<nat>, fuel: nat)
    requires Handles(|r.lastStart|, actors) && Handles(|r.lastStart|, movers)
  {
    (r.settled ==> 0 < r.passes && SettledFrom(axis, tiles, r.lastStart, r.records, actors, movers)) &&
    (!r.settled ==> r.passes == fuel)
  }

  /** Every run of the loop ends as `EndsAsRun` says. */
  lemma {:induction false} ResolvedSettles(axis: Axis, tiles: TileMap, s: seq<ActorData>, actors: seq<nat>, movers: seq<nat>,
                                           fuel: nat, last: seq<ActorData>)
    requires Handles(|s|, actors) && Handles(|s|, movers) && |last| == |s|
    ensures EndsAsRun(axis, tiles, Resolved(axis, tiles, s, actors, movers, fuel, last), actors, movers, fuel)
    decreases fuel, 0
  {
    if fuel > 0 {
      PassedSettles(axis, tiles, s, actors, movers, fuel - 1);
    }
  }

  /** `ResolvedSettles` for the run from a pass with `fuel` passes left after it. */
  lemma {:induction false} PassedSettles(axis: Axis, tiles: TileMap, s: seq<ActorData>, actors: seq<nat>, movers: seq<nat>,
                                         fuel: nat)
    requires Handles(|s|, actors) && Handles(|s|, movers)
    ensures EndsAsRun(axis, tiles, Passed(axis, tiles, s, actors, movers, fuel), actors, movers, fuel + 1)
    decreases fuel, 1
  {
    var swept := SweptAll(axis, tiles, s, actors, movers);
    if !AnyUnsettled(axis, swept, movers) {
      CleanPassSettles(axis, tiles, s, actors, movers);
    } else {
      ResolvedSettles(axis, tiles, Updated(CommitPass(axis), swept, movers), actors, movers, fuel, s);
    }
  }

  /** Records left as they are changed only as any axis' resolution may. */
  lemma NoMotion(axis: Axis, s: seq<ActorData>, movers: seq<nat>)
    ensures AxisMotionOnlyAll(axis, s, s, movers)
  {
    forall i | 0 <= i < |s|
      ensures AxisMotionOnly(axis, s[i], s[i])
    {
      SweepMotion(axis, s[i], s[i]);
    }
  }

  /** With fuel left, the loop goes on with one more pass. */
  lemma ResolvedUnfolds(axis: Axis, tiles: TileMap, s: seq<ActorData>, actors: seq<nat>, movers: seq<nat>,
                        fuel: nat, last: seq<ActorData>)
    requires Handles(|s|, actors) && Handles(|s|, movers) && |last| == |s|
    ensures Resolved(axis, tiles, s, actors, movers, fuel + 1, last) == Passed(axis, tiles, s, actors, movers, fuel)
  {
  }

  /** Runs from the same records with the same fuel are the same run. */
  lemma ResolvedSameFuel(axis: Axis, tiles: TileMap, s: seq<ActorData>, actors: seq<nat>, movers: seq<nat>,
                         fuel: nat, fuel': nat, last: seq<ActorData>)
    requires Handles(|s|, actors) && Handles(|s|, movers) && |last| == |s| && fuel == fuel'
    ensures Resolved(axis, tiles, s, actors, movers, fuel, last) == Resolved(axis, tiles, s, actors, movers, fuel', last)
  {
  }

  /** One iteration of the loop: if the run `target` is the run from `cur`
      with `left` passes of fuel, after `n` passes that logged `done`, and
      one more pass from `cur` commits `next`, finds `dirty` and logs
      `notes`, then `target` is the run from `next` with one pass of fuel
      less after `n + 1` passes, or, when that pass was clean, it ended
      there. */
  lemma ResolvedStep(axis: Axis, tiles: TileMap, target: Run, actors: seq<nat>, movers: seq<nat>,
                     left: nat, n: nat, prev: seq<ActorData>, cur: seq<ActorData>, done: seq<Notification>,
                     next: seq<ActorData>, dirty: bool, notes: seq<Notification>)
    requires Handles(|cur|, actors) && Handles(|cur|, movers) && |prev| == |cur| && 0 < left
    requires target == After(Resolved(axis, tiles, cur, actors, movers, left, prev), n, done)
    requires next == Updated(CommitPass(axis), SweptAll(axis, tiles, cur, actors, movers), movers)
    requires dirty == AnyUnsettled(axis, SweptAll(axis, tiles, cur, actors, movers), movers)
    requires notes == PassNotes(axis, tiles, cur, actors, movers)
    ensures |next| == |cur|
    ensures dirty ==> target == After(Resolved(axis, tiles, next, actors, movers, left - 1, cur), n + 1, done + notes)
    ensures !dirty ==> target == Run(true, n + 1, cur, next, done + notes)
  {
    ResolvedUnfolds(axis, tiles, cur, actors, movers, left - 1, prev);
    if dirty {
      AfterAfter(Resolved(axis, tiles, next, actors, movers, left - 1, cur), n, 1, done, notes);
    }
  }

  /** A whole run changes the records only as the axis' resolution may. */
  lemma {:induction false} ResolvedMotion(axis: Axis, tiles: TileMap, s: seq<ActorData>, actors: seq<nat>, movers: seq<nat>,
                                          fuel: nat, last: seq<ActorData>)
    requires Handles(|s|, actors) && Handles(|s|, movers) && |last| == |s|
    ensures AxisMotionOnlyAll(axis, s, Resolved(axis, tiles, s, actors, movers, fuel, last).records, movers)
    decreases fuel, 1
  {
    if fuel == 0 {
      NoMotion(axis, s, movers);
    } else {
      ResolvedMotionStep(axis, tiles, s, actors, movers, fuel, fuel - 1, last);
    }
  }

  /** `ResolvedMotion` for a run with fuel left: one pass, then the rest of
      the run with the `fuel'` passes left after it. */
  lemma {:induction false} ResolvedMotionStep(axis: Axis, tiles: TileMap, s: seq<ActorData>, actors: seq<nat>, movers: seq<nat>,
                                              fuel: nat, fuel': nat, last: seq<ActorData>)
    requires Handles(|s|, actors) && Handles(|s|, movers) && |last| == |s| && fuel == fuel' + 1
    ensures AxisMotionOnlyAll(axis, s, Resolved(axis, tiles, s, actors, movers, fuel, last).records, movers)
    decreases fuel, 0
  {
    var swept := SweptAll(axis, tiles, s, actors, movers);
    var next := Updated(CommitPass(axis), swept, movers);
    ResolvedSameFuel(axis, tiles, s, actors, movers, fuel, fuel' + 1, last);
    ResolvedUnfolds(axis, tiles, s, actors, movers, fuel', last);
    PassMotion(axis, tiles, s, actors, movers);
    if AnyUnsettled(axis, swept, movers) {
      ResolvedMotion(axis, tiles, next, actors, movers, fuel', s);
      AxisMotionOnlyAllTrans(axis, s, next, Resolved(axis, tiles, next, actors, movers, fuel', s).records, movers);
    }
  }

  /** A pass that leaves every mover settled commits the fixed point it swept to. */
  lemma CleanPassSettles(axis: Axis, tiles: TileMap, s: seq<ActorData>, actors: seq<nat>, movers: seq<nat>)
    requires Handles(|s|, actors) && Handles(|s|, movers)
    requires !AnyUnsettled(axis, SweptAll(axis, tiles, s, actors, movers), movers)
    ensures SettledFrom(axis, tiles, s, Updated(CommitPass(axis), SweptAll(axis, tiles, s, actors, movers), movers), actors, movers)
  {
    CommitSettledIsIdentity(axis, SweptAll(axis, tiles, s, actors, movers), movers);
  }

  /** A commit over movers that are all settled changes nothing. */
  lemma CommitSettledIsIdentity(axis: Axis, s: seq<ActorData>, movers: seq<nat>)
    requires Handles(|s|, movers) && !AnyUnsettled(axis, s, movers)
    ensures Updated(CommitPass(axis), s, movers) == s
  {
    var r := Updated(CommitPass(axis), s, movers);
    forall i | 0 <= i < |s|
      ensures r[i] == s[i]
    {
      if i in movers {
        var k :| 0 <= k < |movers| && movers[k] == i;
        assert !Unsettled(axis, s[movers[k]]);
      }
    }
  }

  /** Pass `p` over one more mover updates that mover's record alone. */
  lemma UpdatedStep(p: Pass, s: seq<ActorData>, done: seq<nat>, m: nat)
    requires m < |s| && m !in done
    ensures Updated(p, s, done + [m]) == Updated(p, s, done)[m := Apply(p, s[m])]
  {
  }

  /** One iteration of the commit loop: mover `j`'s record is still the one
      the loop started from, committing it extends the pass by one mover,
      and `dirty` picks up whether it was unsettled. */
  lemma CommitStep(axis: Axis, s0: seq<ActorData>, s: seq<ActorData>, movers: seq<nat>, j: nat)
    requires Handles(|s0|, movers) && Distinct(movers) && j < |movers|
    requires s == Updated(CommitPass(axis), s0, movers[..j])
    ensures s[movers[j]] == s0[movers[j]]
    ensures Handles(|s0|, movers[..j]) && Handles(|s0|, movers[..j + 1])
    ensures Updated(CommitPass(axis), s0, movers[..j + 1]) ==
              if Unsettled(axis, s[movers[j]]) then s[movers[j] := Committed(axis, s[movers[j]])] else s
    ensures AnyUnsettled(axis, s0, movers[..j + 1]) ==
              (AnyUnsettled(axis, s0, movers[..j]) || Unsettled(axis, s[movers[j]]))
  {
    var m := movers[j];
    assert m !in movers[..j];
    assert movers[..j + 1] == movers[..j] + [m];
    assert movers[..j + 1][..j] == movers[..j];
    UpdatedStep(CommitPass(axis), s0, movers[..j], m);
    if !Unsettled(axis, s[m]) {
      assert s[m := Committed(axis, s[m])] == s;
    }
  }

  /** A sweep pass over one more mover updates that mover's record alone. */
  lemma SweptAllStep(axis: Axis, tiles: TileMap, s: seq<ActorData>, actors: seq<nat>, done: seq<nat>, m: nat)
    requires Handles(|s|, actors) && Handles(|s|, done) && m < |s|
    ensures Handles(|s|, done + [m])
    ensures SweptAll(axis, tiles, s, actors, done + [m]) ==
              SweptAll(axis, tiles, s, actors, done)[m := Sweep(axis, tiles, s, actors, m).0]
  {
    assert (done + [m])[..|done|] == done;
  }

  /** What the resolution of one axis may change in a mover's record: the
      velocity on that axis, the candidate and (only by adding bits) the
      collision set. */
  predicate AxisMotionOnly(axis: Axis, a: ActorData, b: ActorData) {
    b == a.(vel := WithAlong(a.vel, axis, Along(b.vel, axis)), nextVel := b.nextVel, collided := b.collided) &&
    Contains(b.collided, a.collided)
  }

  /** `AxisMotionOnly` record by record, and no change outside the movers. */
  predicate AxisMotionOnlyAll(axis: Axis, a: seq<ActorData>, b: seq<ActorData>, movers: seq<nat>) {
    |a| == |b| &&
    (forall i :: 0 <= i < |a| ==> AxisMotionOnly(axis, a[i], b[i])) &&
    (forall i :: 0 <= i < |a| && i !in movers ==> b[i] == a[i])
  }

  /** A sweep changes a record only the way an axis' resolution may. */
  lemma SweepMotion(axis: Axis, a: ActorData, b: ActorData)
    requires SameBody(b, a) && Contains(b.collided, a.collided)
    ensures AxisMotionOnly(axis, a, b)
  {
    assert WithAlong(a.vel, axis, Along(b.vel, axis)) == a.vel;
  }

  /** So does a commit. */
  lemma CommitMotion(axis: Axis, a: ActorData)
    ensures AxisMotionOnly(axis, a, Committed(axis, a))
  {
    var b := Committed(axis, a);
    if Unsettled(axis, a) {
      assert b == a.(vel := WithAlong(a.vel, axis, a.nextVel));
      assert Along(b.vel, axis) == a.nextVel;
    } else {
      assert b == a;
      assert WithAlong(a.vel, axis, Along(a.vel, axis)) == a.vel;
    }
  }

  lemma AxisMotionOnlyTrans(axis: Axis, a: ActorData, b: ActorData, c: ActorData)
    requires AxisMotionOnly(axis, a, b) && AxisMotionOnly(axis, b, c)
    ensures AxisMotionOnly(axis, a, c)
  {
    assert c.vel == WithAlong(a.vel, axis, Along(c.vel, axis));
  }

  lemma AxisMotionOnlyAllTrans(axis: Axis, a: seq<ActorData>, b: seq<ActorData>, c: seq<ActorData>, movers: seq<nat>)
    requires AxisMotionOnlyAll(axis, a, b, movers) && AxisMotionOnlyAll(axis, b, c, movers)
    ensures AxisMotionOnlyAll(axis, a, c, movers)
  {
    forall i | 0 <= i < |a|
      ensures AxisMotionOnly(axis, a[i], c[i])
    {
      AxisMotionOnlyTrans(axis, a[i], b[i], c[i]);
    }
  }

  /** One sweep pass followed by one commit changes the records only as
      the resolution of that axis may. */
  lemma PassMotion(axis: Axis, tiles: TileMap, start: seq<ActorData>, actors: seq<nat>, movers: seq<nat>)
    requires Handles(|start|, actors) && Handles(|start|, movers)
    ensures AxisMotionOnlyAll(axis, start, Updated(CommitPass(axis), SweptAll(axis, tiles, start, actors, movers), movers), movers)
  {
    var swept := SweptAll(axis, tiles, start, actors, movers);
    var committed := Updated(CommitPass(axis), swept, movers);
    forall i | 0 <= i < |start|
      ensures AxisMotionOnly(axis, start[i], committed[i])
    {
      SweepMotion(axis, start[i], swept[i]);
      if i in movers {
        CommitMotion(axis, swept[i]);
      } else {
        SweepMotion(axis, swept[i], swept[i]);
      }
      AxisMotionOnlyTrans(axis, start[i], swept[i], committed[i]);
    }
  }

  /** Over a whole tick a mover's record ends up moved by its final
      velocity: the position is the old one plus that velocity, the old
      collisions are kept as `collided_old`, and nothing else of the record
      changes besides the velocity, the candidate and the new collisions. */
  lemma TickMovesByFinalVelocity(a: ActorData, b: ActorData, c: ActorData, d: ActorData, e: ActorData, f: ActorData)
    requires b == PrePassed(a) && AxisMotionOnly(X, b, c) && d == IntegratedX(c)
    requires AxisMotionOnly(Y, d, e) && f == IntegratedY(e)
    ensures f == a.(pos := Add(a.pos, f.vel), vel := f.vel, nextVel := f.nextVel,
                    collided := f.collided, collidedOld := a.collided)
  {
    assert c.vel.y == b.vel.y && e.vel.x == d.vel.x && d.vel == c.vel;
    assert f.pos == Vec(a.pos.x + f.vel.x, a.pos.y + f.vel.y);
  }

  /** What one tick does to the records: non-movers keep theirs, and each
      mover's record is moved by its final velocity, with the old
      collisions kept as `collided_old`. */
  predicate Ticked(before: seq<ActorData>, after: seq<ActorData>, movers: seq<nat>) {
    |after| == |before| &&
    (forall i :: 0 <= i < |before| && i !in movers ==> after[i] == before[i]) &&
    (forall i :: 0 <= i < |before| && i in movers ==>
       after[i] == before[i].(pos := Add(before[i].pos, after[i].vel), vel := after[i].vel,
                              nextVel := after[i].nextVel, collided := after[i].collided,
                              collidedOld := before[i].collided))
  }

  /** The pre-pass, the resolution of X, its integration, the resolution of
      Y and its integration together make a tick. */
  lemma TickComposition(s0: seq<ActorData>, s1: seq<ActorData>, s2: seq<ActorData>,
                        s3: seq<ActorData>, s4: seq<ActorData>, s5: seq<ActorData>, movers: seq<nat>)
    requires s1 == Updated(PrePass, s0, movers) && AxisMotionOnlyAll(X, s1, s2, movers)
    requires s3 == Updated(IntegrateX, s2, movers) && AxisMotionOnlyAll(Y, s3, s4, movers)
    requires s5 == Updated(IntegrateY, s4, movers)
    ensures Ticked(s0, s5, movers)
  {
    forall i | 0 <= i < |s0| && i in movers
      ensures s5[i] == s0[i].(pos := Add(s0[i].pos, s5[i].vel), vel := s5[i].vel,
                              nextVel := s5[i].nextVel, collided := s5[i].collided,
                              collidedOld := s0[i].collided)
    {
      TickMovesByFinalVelocity(s0[i], s1[i], s2[i], s3[i], s4[i], s5[i]);
    }
  }

  /** A mover's sweep reads of the other records only their bodies. */
  lemma SweepReadsBodiesOnly(axis: Axis, tiles: TileMap, s: seq<ActorData>, t: seq<ActorData>, actors: seq<nat>, m: nat)
    requires |s| == |t| && m < |s| && Handles(|s|, actors) && s[m] == t[m]
    requires forall i :: 0 <= i < |s| ==> SameBody(s[i], t[i])
    ensures Sweep(axis, tiles, s, actors, m) == Sweep(axis, tiles, t, actors, m)
  {
    EdgeFoldReadsBodiesOnly(axis, m, TileSweepSpec(axis, tiles, s[m]), s, t, actors);
  }

  /** Midway through a sweep pass, sweeping the next mover against the
      records as they stand is sweeping it against those at the start. */
  lemma SweepPassStep(axis: Axis, tiles: TileMap, s0: seq<ActorData>, s: seq<ActorData>, actors: seq<nat>, movers: seq<nat>, j: nat)
    requires Handles(|s0|, actors) && Handles(|s0|, movers) && Distinct(movers) && j < |movers|
    requires s == SweptAll(axis, tiles, s0, actors, movers[..j])
    ensures s[movers[j] := Sweep(axis, tiles, s, actors, movers[j]).0] == SweptAll(axis, tiles, s0, actors, movers[..j + 1])
    ensures Sweep(axis, tiles, s, actors, movers[j]) == Sweep(axis, tiles, s0, actors, movers[j])
  {
    var m := movers[j];
    assert m !in movers[..j];
    assert movers[..j + 1] == movers[..j] + [m];
    assert movers[..j + 1][..j] == movers[..j];
    SweptAllStep(axis, tiles, s0, actors, movers[..j], m);
    SweepReadsBodiesOnly(axis, tiles, s, s0, actors, m);
  }

  /** The notifications of the first `j + 1` movers' sweeps are those of
      the first `j` followed by mover `j`'s: a log `n` holding the former
      after `n0` holds the latter once mover `j`'s are appended. */
  lemma PassNotesStep(axis: Axis, tiles: TileMap, s0: seq<ActorData>, actors: seq<nat>, movers: seq<nat>, j: nat,
                      n0: seq<Notification>, n: seq<Notification>)
    requires Handles(|s0|, actors) && Handles(|s0|, movers) && j < |movers|
    requires Handles(|s0|, movers[..j]) && n == n0 + PassNotes(axis, tiles, s0, actors, movers[..j])
    ensures Handles(|s0|, movers[..j + 1])
    ensures n + Sweep(axis, tiles, s0, actors, movers[j]).1 == n0 + PassNotes(axis, tiles, s0, actors, movers[..j + 1])
  {
    assert movers[..j + 1][..j] == movers[..j];
  }

  lemma HandlesPrefix(s: seq<ActorData>, hs: seq<nat>, j: nat)
    requires Handles(|s|, hs) && j <= |hs|
    ensures Handles(|s|, hs[..j])
  {
  }

  /** Handles of a concatenation are the handles of both parts. */
  lemma HandlesAppend(n: nat, a: seq<nat>, b: seq<nat>)
    ensures Handles(n, a + b) <==> Handles(n, a) && Handles(n, b)
  {
    if Handles(n, a + b) {
      forall i | 0 <= i < |a|
        ensures a[i] < n
      {
        assert a[i] == (a + b)[i];
      }
      forall i | 0 <= i < |b|
        ensures b[i] < n
      {
        assert b[i] == (a + b)[|a| + i];
      }
    }
    if Handles(n, a) && Handles(n, b) {
      forall i | 0 <= i < |a + b|
        ensures (a + b)[i] < n
      {
        if i < |a| {
          assert (a + b)[i] == a[i];
        } else {
          assert (a + b)[i] == b[i - |a|];
        }
      }
    }
  }

  /** The actors under a prefix of the children come first among those under
      all of them. */
  lemma {:induction false} ChildrenPrefix(parent: SceneNode, k: nat, n: nat)
    requires k <= n <= |parent.children|
    ensures ActorsOfChildren(parent, k) <= ActorsOfChildren(parent, n)
    decreases n - k
  {
    if k < n {
      ChildrenPrefix(parent, k + 1, n);
    }
  }

  /** Registering child `k` of `parent` files the actors under it after
      those under the children before it: lists `a` and `m` that hold the
      actors and movers of the first `k` children, extended by those of
      child `k`, hold those of the first `k + 1`. */
  lemma ChildStep(s: seq<ActorData>, parent: SceneNode, k: nat,
                  a0: seq<nat>, m0: seq<nat>, a: seq<nat>, m: seq<nat>)
    requires parent.OtherNode? && k < |parent.children| && Handles(|s|, ActorsOf(parent))
    requires a == a0 + ActorsOfChildren(parent, k)
    requires m == m0 + Moving(s, ActorsOfChildren(parent, k))
    ensures Handles(|s|, ActorsOf(parent.children[k]))
    ensures a + ActorsOf(parent.children[k]) == a0 + ActorsOfChildren(parent, k + 1)
    ensures m + Moving(s, ActorsOf(parent.children[k])) == m0 + Moving(s, ActorsOfChildren(parent, k + 1))
  {
    var len := |s|;
    ChildrenPrefix(parent, k + 1, |parent.children|);
    var all := ActorsOfChildren(parent, |parent.children|);
    var pre := ActorsOfChildren(parent, k + 1);
    forall i | 0 <= i < |pre|
      ensures pre[i] < len
    {
      assert pre[i] == all[i];
    }
    var done := ActorsOfChildren(parent, k);
    var child := ActorsOf(parent.children[k]);
    assert pre == done + child;
    HandlesAppend(len, done, child);
    MovingAppend(s, done, child);
  }

  /** Appending the movers of distinct new actors keeps the movers distinct. */
  lemma DistinctMovingAppend(s: seq<ActorData>, old_: seq<nat>, hs: seq<nat>)
    requires Handles(|s|, hs) && Distinct(old_ + hs)
    ensures Distinct(old_ + Moving(s, hs))
  {
    var m := Moving(s, hs);
    assert Distinct(hs) by {
      forall i, j | 0 <= i < j < |hs|
        ensures hs[i] != hs[j]
      {
        assert hs[i] == (old_ + hs)[|old_| + i] && hs[j] == (old_ + hs)[|old_| + j];
      }
    }
    MovingKeepsDistinct(s, hs);
    forall i, j | 0 <= i < j < |old_ + m|
      ensures (old_ + m)[i] != (old_ + m)[j]
    {
      if i < |old_| && j >= |old_| {
        var h := m[j - |old_|];
        assert h in m;
        MovingMembers(s, hs, h);
        var k :| 0 <= k < |hs| && hs[k] == h;
        assert (old_ + hs)[i] == old_[i] && (old_ + hs)[|old_| + k] == h;
      } else if i < |old_| {
        assert old_[i] == (old_ + hs)[i] && old_[j] == (old_ + hs)[j];
      }
    }
  }

  // ---------------------------------------------------------------------
  // The game

  class PlatformerGame {
    /** The actor records, addressed by handle. */
    const arena: array<ActorData>
    /** The exported tile layer, if one was set. */
    const tilemap: Option<TileMap>
    var actors: seq<nat>
    var actorsThatMove: seq<nat>
    /** The `collide_notify` calls made so far, in order. */
    ghost var notifications: seq<Notification>

    ghost predicate Valid()
      reads this`actors, this`actorsThatMove
    {
      Handles(arena.Length, actors) && Handles(arena.Length, actorsThatMove) && Distinct(actorsThatMove)
    }

    /** `PlatformerGame::init`: nothing registered yet. */
    constructor (arena: array<ActorData>, tilemap: Option<TileMap>)
      ensures this.arena == arena && this.tilemap == tilemap
      ensures actors == [] && actorsThatMove == [] && notifications == []
      ensures Valid()
    {
      this.arena := arena;
      this.tilemap := tilemap;
      actors, actorsThatMove := [], [];
      notifications := [];
    }

    /** `register_actors`: an actor is filed (and, when its record moves,
        also filed as a mover); any other node is searched child by child. */
    method RegisterActors(from: SceneNode, ghost records: seq<ActorData>)
      requires records == arena[..] && Handles(arena.Length, ActorsOf(from))
      modifies this`actors, this`actorsThatMove
      ensures actors == old(actors) + ActorsOf(from)
      ensures actorsThatMove == old(actorsThatMove) + Moving(records, ActorsOf(from))
      decreases from, 1
    {
      match from
      case ActorNode(h, _) =>
        assert ActorsOf(from) == [h] && ActorsOf(from)[0] == h;
        assert Moving(records, [h]) == Moving(records, []) + (if arena[h].moves then [h] else []);
        if arena[h].moves {
          actorsThatMove := actorsThatMove + [h];
        }
        actors := actors + [h];
      case OtherNode(children) =>
        RegisterChildren(from, records);
    }

    /** The `Err` arm of `register_actors`: each child in order. */
    method RegisterChildren(from: SceneNode, ghost records: seq<ActorData>)
      requires records == arena[..] && from.OtherNode? && Handles(arena.Length, ActorsOf(from))
      modifies this`actors, this`actorsThatMove
      ensures actors == old(actors) + ActorsOf(from)
      ensures actorsThatMove == old(actorsThatMove) + Moving(records, ActorsOf(from))
      decreases from, 0
    {
      var children := from.children;
      var k := 0;
      while k < |children|
        invariant 0 <= k <= |children|
        invariant records == arena[..]
        invariant actors == old(actors) + ActorsOfChildren(from, k)
        invariant actorsThatMove == old(actorsThatMove) + Moving(records, ActorsOfChildren(from, k))
      {
        ChildStep(records, from, k, old(actors), old(actorsThatMove), actors, actorsThatMove);
        assert children[k] in from.children;
        RegisterActors(children[k], records);
        k := k + 1;
      }
    }

    /** `ready`: registration of the whole scene below the game. */
    method Ready(root: SceneNode)
      requires Valid()
      requires Handles(arena.Length, ActorsOf(root))
      requires Distinct(actorsThatMove + ActorsOf(root))
      modifies this`actors, this`actorsThatMove
      ensures actors == old(actors) + ActorsOf(root)
      ensures actorsThatMove == old(actorsThatMove) + Moving(arena[..], ActorsOf(root))
      ensures forall h: nat :: h in actorsThatMove <==> h in old(actorsThatMove) || (h in ActorsOf(root) && arena[h].moves)
      ensures Valid()
    {
      RegisterActors(root, arena[..]);
      forall h: nat
        ensures h in actorsThatMove <==> h in old(actorsThatMove) || (h in ActorsOf(root) && arena[h].moves)
      {
        MovingMembers(arena[..], ActorsOf(root), h);
      }
      HandlesAppend(arena.Length, old(actors), ActorsOf(root));
      MovingHandles(arena[..], ActorsOf(root));
      HandlesAppend(arena.Length, old(actorsThatMove), Moving(arena[..], ActorsOf(root)));
      DistinctMovingAppend(arena[..], old(actorsThatMove), ActorsOf(root));
    }

    /** One loop over the movers that changes each record by itself: the
        pre-pass, a commit without its `dirty` flag, the two integrations. */
    method ForEachMover(p: Pass)
      requires Valid()
      modifies arena
      ensures arena[..] == Updated(p, old(arena[..]), actorsThatMove)
    {
      var movers := actorsThatMove;
      ghost var s0 := arena[..];
      var j := 0;
      while j < |movers|
        invariant 0 <= j <= |movers|
        invariant arena[..] == Updated(p, s0, movers[..j])
      {
        var m := movers[j];
        assert m !in movers[..j];
        UpdatedStep(p, s0, movers[..j], m);
        var data := arena[m];
        match p {
          case PrePass => data := PrePassed(data);
          case CommitPass(axis) => data := Committed(axis, data);
          case IntegrateX => data := IntegratedX(data);
          case IntegrateY => data := IntegratedY(data);
        }
        arena[m] := data;
        assert movers[..j + 1] == movers[..j] + [m];
        j := j + 1;
      }
      assert movers[..j] == movers;
    }

    /** One sweep pass (mod.rs:52-148 or 172-268): every mover in turn is
        swept against the tiles and then every actor, and its copy stored. */
    method SweepPass(axis: Axis, tiles: TileMap)
      requires Valid()
      modifies arena, this`notifications
      ensures arena[..] == SweptAll(axis, tiles, old(arena[..]), actors, actorsThatMove)
      ensures notifications == old(notifications) + PassNotes(axis, tiles, old(arena[..]), actors, actorsThatMove)
    {
      var movers := actorsThatMove;
      ghost var s0 := arena[..];
      var j := 0;
      while j < |movers|
        invariant 0 <= j <= |movers|
        invariant movers == actorsThatMove
        invariant Handles(|s0|, movers[..j])
        invariant arena[..] == SweptAll(axis, tiles, s0, actors, movers[..j])
        invariant notifications == old(notifications) + PassNotes(axis, tiles, s0, actors, movers[..j])
      {
        PassNotesStep(axis, tiles, s0, actors, movers, j, old(notifications), notifications);
        StoreSweep(axis, tiles, s0, movers, j);
        j := j + 1;
      }
      assert movers[..j] == movers;
    }

    /** One iteration of a sweep pass: mover `m` is swept against the
        records as they stand and its copy stored. */
    method StoreSweep(axis: Axis, tiles: TileMap, ghost s0: seq<ActorData>, movers: seq<nat>, j: nat)
      requires Valid() && movers == actorsThatMove && j < |movers| && |s0| == arena.Length
      requires Handles(|s0|, movers[..j])
      requires arena[..] == SweptAll(axis, tiles, s0, actors, movers[..j])
      modifies arena, this`notifications
      ensures Handles(|s0|, movers[..j + 1])
      ensures arena[..] == SweptAll(axis, tiles, s0, actors, movers[..j + 1])
      ensures notifications == old(notifications) + Sweep(axis, tiles, s0, actors, movers[j]).1
    {
      var m := movers[j];
      SweepPassStep(axis, tiles, s0, arena[..], actors, movers, j);
      HandlesPrefix(s0, movers, j + 1);
      var data;
      ghost var notes;
      data, notes := SweepMover(axis, tiles, m);
      arena[m] := data;
      notifications := notifications + notes;
    }

    /** The sweep of mover `m` against the records as they stand. */
    method SweepMover(axis: Axis, tiles: TileMap, m: nat) returns (data: ActorData, ghost notes: seq<Notification>)
      requires Valid() && m < arena.Length
      ensures (data, notes) == Sweep(axis, tiles, arena[..], actors, m)
    {
      data := arena[m];
      data := TileSweep(axis, tiles, data);
      data, notes := EdgeSweep(axis, m, data, arena, actors);
    }

    /** The commit loop (mod.rs:150-157 or 270-277): `dirty` is set exactly
        when some mover's velocity changed. */
    method Commit(axis: Axis) returns (dirty: bool)
      requires Valid()
      modifies arena
      ensures arena[..] == Updated(CommitPass(axis), old(arena[..]), actorsThatMove)
      ensures dirty == AnyUnsettled(axis, old(arena[..]), actorsThatMove)
    {
      var movers := actorsThatMove;
      ghost var s0 := arena[..];
      dirty := false;
      var j := 0;
      while j < |movers|
        invariant 0 <= j <= |movers|
        invariant Handles(|s0|, movers[..j])
        invariant arena[..] == Updated(CommitPass(axis), s0, movers[..j])
        invariant dirty == AnyUnsettled(axis, s0, movers[..j])
      {
        CommitStep(axis, s0, arena[..], movers, j);
        var changed := CommitMover(axis, movers[j]);
        dirty := dirty || changed;
        j := j + 1;
      }
      assert movers[..j] == movers;
    }

    /** The body of the commit loop for mover `m`: an unsettled record takes
        its candidate as the velocity on the axis. */
    method CommitMover(axis: Axis, m: nat) returns (changed: bool)
      requires m < arena.Length
      modifies arena
      ensures changed == Unsettled(axis, old(arena[m]))
      ensures arena[..] == if changed then old(arena[..])[m := Committed(axis, old(arena[m]))] else old(arena[..])
    {
      var data := arena[m];
      changed := false;
      if data.nextVel != Along(data.vel, axis) {
        data := data.(vel := WithAlong(data.vel, axis, data.nextVel));
        arena[m] := data;
        changed := true;
      }
    }

    /** The `while dirty` loop of one axis, cut off after `fuel` passes:
        its run is `Resolved` from the records at the call. When it ends
        `settled`, the records are the fixed point reached from the start
        of the final pass. */
    method Resolve(axis: Axis, tiles: TileMap, fuel: nat) returns (settled: bool, ghost run: Run)
      requires Valid()
      modifies arena, this`notifications
      ensures run == Resolved(axis, tiles, old(arena[..]), actors, actorsThatMove, fuel, old(arena[..]))
      ensures settled == run.settled && arena[..] == run.records
      ensures notifications == old(notifications) + run.notes
      ensures settled ==> SettledFrom(axis, tiles, run.lastStart, arena[..], actors, actorsThatMove)
      ensures AxisMotionOnlyAll(axis, old(arena[..]), arena[..], actorsThatMove)
    {
      ghost var s0 := arena[..];
      run := Resolved(axis, tiles, s0, actors, actorsThatMove, fuel, s0);
      settled := ResolveLoop(axis, tiles, fuel, run);
      ResolvedSettles(axis, tiles, s0, actors, actorsThatMove, fuel, s0);
      ResolvedMotion(axis, tiles, s0, actors, actorsThatMove, fuel, s0);
    }

    /** The loop of `Resolve`: it ends with the records, the verdict and
        the notifications of the run `run` it was started on. */
    method ResolveLoop(axis: Axis, tiles: TileMap, fuel: nat, ghost run: Run) returns (settled: bool)
      requires Valid()
      requires run == Resolved(axis, tiles, arena[..], actors, actorsThatMove, fuel, arena[..])
      modifies arena, this`notifications
      ensures settled == run.settled && arena[..] == run.records
      ensures notifications == old(notifications) + run.notes
    {
      ghost var lastStart, done, left := arena[..], [], fuel;
      var dirty := true;
      var n: nat := 0;
      AfterNothing(run);
      while dirty && n < fuel
        invariant n + left == fuel && |lastStart| == arena.Length
        invariant notifications == old(notifications) + done
        invariant dirty ==> run == After(Resolved(axis, tiles, arena[..], actors, actorsThatMove, left, lastStart), n, done)
        invariant !dirty ==> run == Run(true, n, lastStart, arena[..], done)
        decreases fuel - n
      {
        dirty, n, left, lastStart, done := ResolveIteration(axis, tiles, run, left, n, lastStart, old(notifications), done);
      }
      if dirty {
        RunOutOfFuel(axis, tiles, run, arena[..], actors, actorsThatMove, left, lastStart, n, done);
      }
      settled := !dirty;
    }

    /** Iteration `n` of the `while dirty` loop of the run `target`, with
        `left` passes of fuel still to go: one
        pass from the records as they stand, which become the start of the
        last pass, and its notifications logged. */
    method ResolveIteration(axis: Axis, tiles: TileMap, ghost target: Run, ghost left: nat, n: nat,
                            ghost lastStart: seq<ActorData>, ghost log0: seq<Notification>, ghost done: seq<Notification>)
      returns (dirty: bool, n': nat, ghost left': nat, ghost cur: seq<ActorData>, ghost done': seq<Notification>)
      requires Valid() && |lastStart| == arena.Length && 0 < left
      requires notifications == log0 + done
      requires target == After(Resolved(axis, tiles, arena[..], actors, actorsThatMove, left, lastStart), n, done)
      modifies arena, this`notifications
      ensures n' == n + 1 && left' == left - 1
      ensures |cur| == arena.Length && notifications == log0 + done'
      ensures dirty ==> target == After(Resolved(axis, tiles, arena[..], actors, actorsThatMove, left', cur), n', done')
      ensures !dirty ==> target == Run(true, n', cur, arena[..], done')
    {
      cur := arena[..];
      dirty := ResolvePass(axis, tiles);
      ghost var notes := PassNotes(axis, tiles, cur, actors, actorsThatMove);
      ResolvedStep(axis, tiles, target, actors, actorsThatMove, left, n, lastStart, cur, done, arena[..], dirty, notes);
      LogGrows(log0, done, notes);
      n', left', done' := n + 1, left - 1, done + notes;
      ResolvedSameFuel(axis, tiles, arena[..], actors, actorsThatMove, left', left - 1, cur);
    }

    /** One pass of the `while dirty` loop: a sweep pass and a commit, with
        `dirty` set exactly when the sweep left some mover unsettled. */
    method ResolvePass(axis: Axis, tiles: TileMap) returns (dirty: bool)
      requires Valid()
      modifies arena, this`notifications
      ensures arena[..] == Updated(CommitPass(axis), SweptAll(axis, tiles, old(arena[..]), actors, actorsThatMove), actorsThatMove)
      ensures dirty == AnyUnsettled(axis, SweptAll(axis, tiles, old(arena[..]), actors, actorsThatMove), actorsThatMove)
      ensures notifications == old(notifications) + PassNotes(axis, tiles, old(arena[..]), actors, actorsThatMove)
    {
      SweepPass(axis, tiles);
      dirty := Commit(axis);
    }

    /** `physics_process`, with at most `fuel` passes per axis. The ghost
        results are the records after the pre-pass and the run of each
        axis' `while dirty` loop: the pre-pass is applied to every mover, X
        is resolved from the pre-pass' records and Y from the X
        integration's, an axis reported settled ends at the fixed point of
        its loop, the log gains exactly the runs' notifications, and each
        mover ends moved by exactly its final velocity, with last tick's
        collisions kept, and no other record changes. */
    method PhysicsProcess(fuel: nat)
      returns (settledX: bool, settledY: bool,
               ghost prePassed: seq<ActorData>, ghost runX: Run, ghost runY: Run)
      requires Valid() && tilemap.Some?
      modifies arena, this`notifications
      ensures prePassed == Updated(PrePass, old(arena[..]), actorsThatMove)
      ensures runX == Resolved(X, tilemap.value, prePassed, actors, actorsThatMove, fuel, prePassed)
      ensures settledX == runX.settled
      ensures settledX ==> SettledFrom(X, tilemap.value, runX.lastStart, runX.records, actors, actorsThatMove)
      ensures AxisMotionOnlyAll(X, prePassed, runX.records, actorsThatMove)
      ensures var integrated := Updated(IntegrateX, runX.records, actorsThatMove);
              runY == Resolved(Y, tilemap.value, integrated, actors, actorsThatMove, fuel, integrated)
      ensures settledY == runY.settled
      ensures settledY ==> SettledFrom(Y, tilemap.value, runY.lastStart, runY.records, actors, actorsThatMove)
      ensures AxisMotionOnlyAll(Y, Updated(IntegrateX, runX.records, actorsThatMove), runY.records, actorsThatMove)
      ensures arena[..] == Updated(IntegrateY, runY.records, actorsThatMove)
      ensures Ticked(old(arena[..]), arena[..], actorsThatMove)
      ensures notifications == old(notifications) + runX.notes + runY.notes
    {
      var tm := tilemap.value;
      ghost var s0 := arena[..];
      ForEachMover(PrePass);
      prePassed := arena[..];
      settledX, runX := Resolve(X, tm, fuel);
      ghost var resolvedX := arena[..];
      ForEachMover(IntegrateX);
      ghost var s3 := arena[..];
      settledY, runY := Resolve(Y, tm, fuel);
      ghost var resolvedY := arena[..];
      ForEachMover(IntegrateY);
      TickComposition(s0, prePassed, resolvedX, s3, resolvedY, arena[..], actorsThatMove);
    }
  }
}
