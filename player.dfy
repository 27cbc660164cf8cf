/**
 * The player (extension/src/platformer/actor/player.rs): walking, the
 * variable-height jump and, once the book has been picked up, the book
 * bounce in mid-air.  The engine's input polling and the `HAS_BOOK` flag
 * are parameters.
 */
module Players {
  import opened Int32
  import opened Actors

  /** The input actions read on one tick: `ui_left`, `ui_right` and
      `ui_accept` held, and `ui_accept` pressed on this very tick. */
  datatype Input = Input(left: bool, right: bool, accept: bool, acceptJustPressed: bool)

  /** The player's exported settings. */
  datatype PlayerConfig = PlayerConfig(speed: int, jumpPower: int, jumpGravity: int,
                                       jumpGravityCutoff: int, bookBounce: int)

  /** `vel.x` from the arrow keys: set to 0, less `speed` for left, plus
      `speed` for right. */
  function WalkVelocity(input: Input, speed: int): int {
    var vx := if input.left then 0 - speed else 0;
    if input.right then vx + speed else vx
  }

  /** Holding both keys or neither stands still; one key walks that way. */
  lemma WalkVelocityCases(input: Input, speed: int)
    ensures input.left == input.right ==> WalkVelocity(input, speed) == 0
    ensures input.left && !input.right ==> WalkVelocity(input, speed) == -speed
    ensures input.right && !input.left ==> WalkVelocity(input, speed) == speed
  {
  }

  /** The weak jump gravity ends once the player rises slower than the
      cutoff, lands, or lets go of the jump key. */
  predicate RevertsGravity(cfg: PlayerConfig, d: ActorData, input: Input) {
    d.gravity == cfg.jumpGravity &&
    (d.vel.y > cfg.jumpGravityCutoff || Contains(d.collided, DOWN) || !input.accept)
  }

  /** A fresh jump press in the air, with the book, throws the book. */
  predicate BookThrown(d: ActorData, input: Input, hasBook: bool) {
    input.acceptJustPressed && !Contains(d.collided, DOWN) && hasBook
  }

  /** Where a thrown book is put: the middle of the player's bottom edge,
      with the half width rounded toward zero. */
  function BookLanding(d: ActorData): (r: Vec)
    ensures r.y == BottomRight(d).y
    ensures d.areaSize.x >= 0 ==> TopLeft(d).x <= r.x <= BottomRight(d).x
    ensures d.areaSize.x >= 0 ==>
              r.x - TopLeft(d).x <= BottomRight(d).x - r.x <= r.x - TopLeft(d).x + 1
  {
    Add(Add(d.pos, d.areaOffset), Vec(TruncDiv(d.areaSize.x, 2), d.areaSize.y))
  }

  /** The walking step: `vel.x` from the arrow keys. */
  function Walked(d: ActorData, input: Input, speed: int): (r: ActorData)
    ensures r == d.(vel := r.vel) && r.vel == Vec(WalkVelocity(input, speed), d.vel.y)
  {
    d.(vel := d.vel.(x := WalkVelocity(input, speed)))
  }

  /** The gravity step: the weak jump gravity may end. */
  function GravityChecked(cfg: PlayerConfig, d: ActorData, input: Input): (r: ActorData)
    ensures r == d.(gravity := r.gravity)
    ensures r.gravity == if RevertsGravity(cfg, d, input) then GRAVITY else d.gravity
  {
    if RevertsGravity(cfg, d, input) then d.(gravity := GRAVITY) else d
  }

  /** The jump step: on a fresh press, a jump from the ground or a bounce
      off the book in the air. */
  function Jumped(cfg: PlayerConfig, d: ActorData, input: Input, hasBook: bool): (r: ActorData)
    ensures r == d.(vel := r.vel, gravity := r.gravity) && r.vel.x == d.vel.x
  {
    if input.acceptJustPressed then
      if Contains(d.collided, DOWN) then
        d.(vel := d.vel.(y := d.vel.y - cfg.jumpPower), gravity := cfg.jumpGravity)
      else if hasBook then
        d.(vel := d.vel.(y := -cfg.bookBounce))
      else
        d
    else
      d
  }

  /** The player's record after `Player::physics_process`. */
  function Steered(cfg: PlayerConfig, d: ActorData, input: Input, hasBook: bool): ActorData {
    Jumped(cfg, GravityChecked(cfg, Walked(d, input, cfg.speed), input), input, hasBook)
  }

  /** A tick of player control changes only the velocity and the gravity:
      never the position, the collisions or the box. */
  lemma SteeredChangesVelocityAndGravityOnly(cfg: PlayerConfig, d: ActorData, input: Input, hasBook: bool)
    ensures var r := Steered(cfg, d, input, hasBook);
            r == d.(vel := r.vel, gravity := r.gravity) &&
            r.vel.x == WalkVelocity(input, cfg.speed)
  {
  }

  /** Without a fresh press of the jump key the vertical velocity is kept,
      and the gravity is reset to `GRAVITY` exactly when the weak jump
      gravity ends. */
  lemma SteeredWithoutPress(cfg: PlayerConfig, d: ActorData, input: Input, hasBook: bool)
    requires !input.acceptJustPressed
    ensures var r := Steered(cfg, d, input, hasBook);
            r.vel.y == d.vel.y &&
            r.gravity == (if RevertsGravity(cfg, d, input) then GRAVITY else d.gravity) &&
            !BookThrown(d, input, hasBook)
  {
  }

  /** A fresh press on the ground jumps: the vertical velocity drops by the
      jump power and the weak jump gravity takes over. */
  lemma SteeredGroundJump(cfg: PlayerConfig, d: ActorData, input: Input, hasBook: bool)
    requires input.acceptJustPressed && Contains(d.collided, DOWN)
    ensures var r := Steered(cfg, d, input, hasBook);
            r.vel.y == d.vel.y - cfg.jumpPower && r.gravity == cfg.jumpGravity &&
            !BookThrown(d, input, hasBook)
  {
  }

  /** A fresh press in the air bounces off the book when the player has it,
      and otherwise does nothing to the vertical velocity. */
  lemma SteeredInAir(cfg: PlayerConfig, d: ActorData, input: Input, hasBook: bool)
    requires input.acceptJustPressed && !Contains(d.collided, DOWN)
    ensures var r := Steered(cfg, d, input, hasBook);
            (hasBook <==> BookThrown(d, input, hasBook)) &&
            r.vel.y == (if hasBook then -cfg.bookBounce else d.vel.y) &&
            r.gravity == (if RevertsGravity(cfg, d, input) then GRAVITY else d.gravity)
  {
  }

  /** The player node: the handles of its parent actor's record and of the
      book's record, and its exported settings. */
  class Player {
    const actor: nat
    const book: nat
    var speed: int
    var jumpPower: int
    var jumpGravity: int
    var jumpGravityCutoff: int
    var bookBounce: int

    /** `Player::init`, with the records found by `ready`. */
    constructor (actor: nat, book: nat)
      ensures this.actor == actor && this.book == book
      ensures speed == 16000 && jumpPower == 50000 && jumpGravity == 1500
      ensures jumpGravityCutoff == 10000 && bookBounce == 0
    {
      this.actor := actor;
      this.book := book;
      speed := 16000;
      jumpPower := 50000;
      jumpGravity := 1500;
      jumpGravityCutoff := 10000;
      bookBounce := 0;
    }

    function Config(): (c: PlayerConfig)
      reads this
      ensures c.speed == speed && c.jumpPower == jumpPower && c.jumpGravity == jumpGravity
      ensures c.jumpGravityCutoff == jumpGravityCutoff && c.bookBounce == bookBounce
    {
      PlayerConfig(speed, jumpPower, jumpGravity, jumpGravityCutoff, bookBounce)
    }

    /** `Player::physics_process`: the book is moved first, then the
        player's own record is written back. */
    method PhysicsProcess(arena: array<ActorData>, input: Input, hasBook: bool)
      requires actor < arena.Length && book < arena.Length
      modifies arena
      ensures var d := old(arena[actor]);
              var withBook := if BookThrown(d, input, hasBook)
                              then old(arena[..])[book := old(arena[book]).(pos := BookLanding(d))]
                              else old(arena[..]);
              arena[..] == withBook[actor := Steered(Config(), d, input, hasBook)]
    {
      var data := arena[actor];
      data := Walk(data, input);
      data := CheckGravity(data, input);
      if input.acceptJustPressed && !Contains(data.collided, DOWN) && hasBook {
        ThrowBook(arena, data);
      }
      data := Jump(data, input, hasBook);
      arena[actor] := data;
    }

    /** `vel.x` is cleared, then the arrow keys add to it. */
    method Walk(d: ActorData, input: Input) returns (r: ActorData)
      ensures r == Walked(d, input, speed)
    {
      var vx := 0;
      if input.left {
        vx := vx - speed;
      }
      if input.right {
        vx := vx + speed;
      }
      r := d.(vel := d.vel.(x := vx));
    }

    method CheckGravity(d: ActorData, input: Input) returns (r: ActorData)
      ensures r == GravityChecked(Config(), d, input)
    {
      r := d;
      if r.gravity == jumpGravity &&
         (r.vel.y > jumpGravityCutoff || Contains(r.collided, DOWN) || !input.accept) {
        r := r.(gravity := GRAVITY);
      }
    }

    /** The book is put at the middle of the player's bottom edge. */
    method ThrowBook(arena: array<ActorData>, d: ActorData)
      requires book < arena.Length
      modifies arena
      ensures arena[..] == old(arena[..])[book := old(arena[book]).(pos := BookLanding(d))]
    {
      var bookData := arena[book];
      bookData := bookData.(pos := Add(Add(d.pos, d.areaOffset),
                                       Vec(TruncDiv(d.areaSize.x, 2), d.areaSize.y)));
      arena[book] := bookData;
    }

    /** The jump key: a jump from the ground, or a bounce off the book. */
    method Jump(d: ActorData, input: Input, hasBook: bool) returns (r: ActorData)
      ensures r == Jumped(Config(), d, input, hasBook)
    {
      r := d;
      if input.acceptJustPressed {
        if Contains(r.collided, DOWN) {
          r := r.(vel := r.vel.(y := r.vel.y - jumpPower));
          r := r.(gravity := jumpGravity);
        } else if hasBook {
          r := r.(vel := r.vel.(y := -bookBounce));
        }
      }
    }
  }
}
