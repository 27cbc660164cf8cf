/**
 * Pressure plates (extension/src/platformer/actor/plate.rs): actors that
 * touch the plate's NOTIFY edge are remembered as pushers; each tick the
 * pushers no longer standing on the plate are dropped, and the plate's
 * signal says whether any remain.
 */
module Plates {
  import opened Options
  import opened Actors

  /** The `retain` test: weight `w`'s box overlaps the plate horizontally
      and its bottom is below the plate's top. */
  predicate Presses(plate: ActorData, w: ActorData) {
    BottomRight(w).x > TopLeft(plate).x &&
    TopLeft(w).x < TopLeft(plate).x + plate.areaSize.x &&
    BottomRight(w).y > TopLeft(plate).y
  }

  /** The pushers of `ps` that still press the plate, in their order. */
  function Pressing(s: seq<ActorData>, plate: ActorData, ps: seq<nat>): (r: seq<nat>)
    requires Handles(|s|, ps)
    ensures |r| <= |ps|
    decreases |ps|
  {
    if ps == [] then []
    else
      var last := ps[|ps| - 1];
      Pressing(s, plate, ps[..|ps| - 1]) + (if Presses(plate, s[last]) then [last] else [])
  }

  /** `r` is `ps` with some entries left out and the rest in their order. */
  predicate SubsequenceOf(r: seq<nat>, ps: seq<nat>)
    decreases |ps|
  {
    r == [] ||
    (ps != [] &&
     ((r[|r| - 1] == ps[|ps| - 1] && SubsequenceOf(r[..|r| - 1], ps[..|ps| - 1])) ||
      SubsequenceOf(r, ps[..|ps| - 1])))
  }

  /** Every entry of a subsequence is an entry of the sequence. */
  lemma {:induction false} SubsequenceMembers(r: seq<nat>, ps: seq<nat>, x: nat)
    requires SubsequenceOf(r, ps) && x in r
    ensures x in ps
    decreases |ps|
  {
    var init := ps[..|ps| - 1];
    assert ps == init + [ps[|ps| - 1]];
    if r[|r| - 1] == ps[|ps| - 1] && SubsequenceOf(r[..|r| - 1], init) {
      if x != r[|r| - 1] {
        assert r == r[..|r| - 1] + [r[|r| - 1]];
        SubsequenceMembers(r[..|r| - 1], init, x);
      }
    } else {
      SubsequenceMembers(r, init, x);
    }
  }

  /** A pusher is kept exactly when it was listed and still presses. */
  lemma {:induction false} PressingMembers(s: seq<ActorData>, plate: ActorData, ps: seq<nat>, x: nat)
    requires Handles(|s|, ps)
    ensures x in Pressing(s, plate, ps) <==> x in ps && Presses(plate, s[x])
    decreases |ps|
  {
    if ps != [] {
      var init := ps[..|ps| - 1];
      PressingMembers(s, plate, init, x);
      assert ps == init + [ps[|ps| - 1]];
    }
  }

  /** The kept pushers keep their relative order and nothing is added. */
  lemma {:induction false} PressingIsSubsequence(s: seq<ActorData>, plate: ActorData, ps: seq<nat>)
    requires Handles(|s|, ps)
    ensures SubsequenceOf(Pressing(s, plate, ps), ps)
    decreases |ps|
  {
    if ps != [] {
      var init := ps[..|ps| - 1];
      var last := ps[|ps| - 1];
      var kept := Pressing(s, plate, init);
      PressingIsSubsequence(s, plate, init);
      if Presses(plate, s[last]) {
        var r := kept + [last];
        assert Pressing(s, plate, ps) == r;
        assert r[..|r| - 1] == kept && r[|r| - 1] == last;
      } else {
        assert Pressing(s, plate, ps) == kept;
      }
    }
  }

  /** Keeping some pushers of a list without repeats gives a list without
      repeats. */
  lemma {:induction false} PressingKeepsDistinct(s: seq<ActorData>, plate: ActorData, ps: seq<nat>)
    requires Handles(|s|, ps) && Distinct(ps)
    ensures Distinct(Pressing(s, plate, ps))
    decreases |ps|
  {
    if ps != [] {
      var init := ps[..|ps| - 1];
      var last := ps[|ps| - 1];
      PressingKeepsDistinct(s, plate, init);
      PressingMembers(s, plate, init, last);
      assert last !in init;
    }
  }

  /** `collide_notify`'s insertion: `a` is appended unless already listed. */
  function Inserted(ps: seq<nat>, a: nat): (r: seq<nat>)
    ensures forall x :: x in r <==> x in ps || x == a
    ensures ps <= r && |r| <= |ps| + 1
    ensures Distinct(ps) ==> Distinct(r)
  {
    if a in ps then ps else ps + [a]
  }

  /** Notifying the plate twice of the same actor lists it once. */
  lemma InsertedIdempotent(ps: seq<nat>, a: nat)
    ensures Inserted(Inserted(ps, a), a) == Inserted(ps, a)
  {
  }

  /** The plate node: the handle of its parent actor's record and the
      handles of the actors pushing it. */
  class Plate {
    const actor: nat
    var pushing: seq<nat>

    /** The pushers are listed once each. */
    ghost predicate Valid()
      reads this`pushing
    {
      Distinct(pushing)
    }

    /** `Plate::init`, with the parent actor's record found by `ready`. */
    constructor (actor: nat)
      ensures this.actor == actor && pushing == [] && Valid()
    {
      this.actor := actor;
      pushing := [];
    }

    /** `Plate::ready`: the plate becomes the notify target of its actor. */
    method Ready(arena: array<ActorData>, instanceId: nat)
      requires actor < arena.Length
      modifies arena
      ensures arena[..] == old(arena[..])[actor := old(arena[actor]).(notifyTarget := Some(instanceId))]
    {
      var data := arena[actor];
      data := data.(notifyTarget := Some(instanceId));
      arena[actor] := data;
    }

    /** `Plate::physics_process`: the pushers are filtered in place, then
        the signal is set when the first pusher arrives and cleared when
        the last one leaves. */
    method PhysicsProcess(arena: array<ActorData>)
      requires Valid() && actor < arena.Length && Handles(arena.Length, pushing)
      modifies arena, this`pushing
      ensures Valid()
      ensures pushing == Pressing(old(arena[..]), old(arena[actor]), old(pushing))
      ensures arena[..] == old(arena[..])[actor := old(arena[actor]).(signal := pushing != [])]
    {
      var data := arena[actor];
      var kept := Retain(arena, data, pushing);
      PressingKeepsDistinct(arena[..], data, pushing);
      pushing := kept;

      if data.signal && |pushing| == 0 {
        data := data.(signal := false);
        arena[actor] := data;
      } else if !data.signal && |pushing| != 0 {
        data := data.(signal := true);
        arena[actor] := data;
      }
    }

    /** The `retain` loop over the pushers. */
    method Retain(arena: array<ActorData>, data: ActorData, ps: seq<nat>) returns (kept: seq<nat>)
      requires Handles(arena.Length, ps)
      ensures kept == Pressing(arena[..], data, ps)
    {
      kept := [];
      var i := 0;
      while i < |ps|
        invariant 0 <= i <= |ps|
        invariant kept == Pressing(arena[..], data, ps[..i])
      {
        assert ps[..i + 1][..i] == ps[..i];
        var weight := arena[ps[i]];
        if BottomRight(weight).x > TopLeft(data).x &&
           TopLeft(weight).x < TopLeft(data).x + data.areaSize.x &&
           BottomRight(weight).y > TopLeft(data).y {
          kept := kept + [ps[i]];
        }
        i := i + 1;
      }
      assert ps[..i] == ps;
    }

    /** `Plate::collide_notify`: the notifying actor is listed unless it
        already is. */
    method CollideNotify(a: nat)
      requires Valid()
      modifies this`pushing
      ensures Valid()
      ensures pushing == Inserted(old(pushing), a)
    {
      if a !in pushing {
        pushing := pushing + [a];
      }
    }
  }
}
