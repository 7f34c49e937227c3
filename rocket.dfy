/**
 * The rocket enemy: a small state machine driven once per tick by its panel.
 * It rises and drifts left while moving, freezes its vertical speed once hit,
 * and starts exploding when it reaches the top of the play field.
 */
module Enemy {
  import opened Wrappers
  import opened CommonApi

  /** Number of flight sprites the rocket cycles through. */
  const SPRITES := 5
  /** Number of explosion sprites the rocket cycles through. */
  const EXP_SPRITES := 4
  /** Value the explosion counter is set to when the rocket reaches the top. */
  const EXPLOSION_DURATION := 15
  /** A fresh rocket's vertical speed, 1.5 pixels per tick, counted in half pixels. */
  const INITIAL_SPEED_Y_HALVES := 3

  const INT_MIN := -0x8000_0000
  const INT_MAX := 0x7fff_ffff

  /** The values of a Java `int`. */
  predicate IsInt(n: int) {
    INT_MIN <= n <= INT_MAX
  }

  /** Java's `n + 1` on an `int`: it wraps from the largest value to the smallest. */
  function IntIncrement(n: int): (r: int)
    requires IsInt(n)
    ensures IsInt(r)
    ensures r == n + 1 || (n == INT_MAX && r == INT_MIN)
  {
    if n == INT_MAX then INT_MIN else n + 1
  }

  /**
   * Java's `(int)` cast applied to the float `h / 2`, where `h` counts half pixels:
   * the cast truncates toward zero, unlike Dafny's `/`.
   */
  function TruncateHalves(h: int): (r: int)
    ensures 2 * r == h || 2 * r == h - 1 || 2 * r == h + 1
    ensures h >= 0 ==> 0 <= 2 * r <= h
    ensures h <= 0 ==> h <= 2 * r <= 0
  {
    if h >= 0 then h / 2 else -((-h) / 2)
  }

  /** An animation cursor advanced by one frame, wrapping at `count` frames. */
  function NextFrame(cursor: int, count: int): (r: int)
    requires cursor >= 0 && count > 0
    ensures 0 <= r < count
    ensures cursor + 1 < count ==> r == cursor + 1
    ensures cursor + 1 == count ==> r == 0
  {
    (cursor + 1) % count
  }

  /** An axis-aligned rectangle, as `java.awt.Rectangle`. */
  datatype Rect = Rect(x: int, y: int, width: int, height: int)

  /**
   * `java.awt.Rectangle.intersects` on coordinates that do not overflow: both
   * rectangles are non-empty and their interiors overlap on both axes.
   */
  predicate Intersects(a: Rect, b: Rect) {
    && a.width > 0 && a.height > 0 && b.width > 0 && b.height > 0
    && a.x < b.x + b.width && b.x < a.x + a.width
    && a.y < b.y + b.height && b.y < a.y + a.height
  }

  /** A bullet, seen only through its position and size. */
  datatype Bullet = Bullet(x: int, y: int, width: int, height: int) {
    function Hitbox(): Rect {
      Rect(x, y, width, height)
    }
  }

  /** Whether the bullet `b` collides with the hit box `box`. */
  predicate Collides(box: Rect, b: Bullet) {
    Intersects(box, b.Hitbox())
  }

  /** The index of the first bullet, in iteration order, that collides with `box`. */
  function FirstCollision(box: Rect, bullets: seq<Bullet>): (r: Option<nat>)
    ensures r.None? <==> forall j :: 0 <= j < |bullets| ==> !Collides(box, bullets[j])
    ensures r.Some? ==> r.value < |bullets| && Collides(box, bullets[r.value])
    ensures r.Some? ==> forall j :: 0 <= j < r.value ==> !Collides(box, bullets[j])
  {
    if bullets == [] then None
    else if Collides(box, bullets[0]) then Some(0)
    else
      match FirstCollision(box, bullets[1..])
      case None => None
      case Some(k) => Some(k + 1)
  }

  /** `s` with the element at index `k` taken out, the others kept in order. */
  function RemoveAt<T>(s: seq<T>, k: nat): (r: seq<T>)
    requires k < |s|
    ensures |r| == |s| - 1
    ensures forall j :: 0 <= j < k ==> r[j] == s[j]
    ensures forall j :: k <= j < |r| ==> r[j] == s[j + 1]
    ensures multiset(r) + multiset{s[k]} == multiset(s)
  {
    assert s == s[..k] + [s[k]] + s[k + 1..];
    s[..k] + s[k + 1..]
  }

  /** The bullet collection a rocket scans; iteration order is sequence order. */
  class BulletSet {
    var elems: seq<Bullet>

    constructor (initial: seq<Bullet>)
      ensures elems == initial
    {
      elems := initial;
    }
  }

  /** Every field of a rocket, as one value. */
  datatype RocketState = RocketState(
    x: int, y: int, width: int, height: int,
    speedYHalves: int,
    hit: bool, moving: bool, exploded: bool,
    counterForExplosion: int,
    currentSprite: int, currentExpSprite: int)

  /** The state of a rocket just built at (x, y). */
  function InitialState(x: int, y: int, width: int, height: int): RocketState {
    RocketState(x, y, width, height, INITIAL_SPEED_Y_HALVES, false, false, false, 0, 0, 0)
  }

  /**
   * The state after one tick of movement with landscape speed `speedX`: a hit
   * rocket loses its vertical speed; a moving rocket drifts left by `speedX`
   * and up by its speed, the new y truncated toward zero; a rocket at or
   * above the top (y <= 0) is marked exploded and its counter set to the
   * explosion duration.
   */
  function Moved(s: RocketState, speedX: int): RocketState {
    var speed := if s.hit then 0 else s.speedYHalves;
    var x := if s.moving then s.x - speedX else s.x;
    var y := if s.moving then TruncateHalves(2 * s.y - speed) else s.y;
    var top := y <= 0;
    s.(x := x, y := y, speedYHalves := speed,
       exploded := if top then true else s.exploded,
       counterForExplosion := if top then EXPLOSION_DURATION else s.counterForExplosion)
  }

  /** The state after `n` consecutive ticks of movement. */
  function MovedTimes(s: RocketState, speedX: int, n: nat): RocketState {
    if n == 0 then s else Moved(MovedTimes(s, speedX, n - 1), speedX)
  }

  /** A cursor over `count` frames advanced `n` times. */
  function AdvancedTimes(cursor: int, count: int, n: nat): (r: int)
    requires 0 <= cursor < count
    ensures 0 <= r < count
  {
    if n == 0 then cursor else NextFrame(AdvancedTimes(cursor, count, n - 1), count)
  }

  /** The rocket enemy. */
  class Rocket {
    var position: Pair<int, int>
    const width: int
    const height: int
    var currentSprite: int
    var currentExpSprite: int
    /** Vertical speed in half pixels per tick: 3 (that is, 1.5) or 0. */
    var speedYHalves: int
    var hit: bool
    var moving: bool
    var exploded: bool
    var counterForExplosion: int

    /** The cursors stay within their sprite lists and the counter is a Java `int`. */
    ghost predicate Valid()
      reads this
    {
      && 0 <= currentSprite < SPRITES
      && 0 <= currentExpSprite < EXP_SPRITES
      && (speedYHalves == INITIAL_SPEED_Y_HALVES || speedYHalves == 0)
      && IsInt(counterForExplosion)
    }

    ghost function State(): RocketState
      reads this, position
    {
      RocketState(position.first, position.second, width, height, speedYHalves,
                  hit, moving, exploded, counterForExplosion, currentSprite, currentExpSprite)
    }

    /** The hit box, recomputed from the current position on every read. */
    function Hitbox(): Rect
      reads this, position
    {
      Rect(position.first, position.second, width, height)
    }

    constructor (x: int, y: int, width: int, height: int)
      ensures Valid() && fresh(position)
      ensures State() == InitialState(x, y, width, height)
    {
      position := new Pair(x, y);
      this.width := width;
      this.height := height;
      currentSprite := 0;
      currentExpSprite := 0;
      hit := false;
      speedYHalves := INITIAL_SPEED_Y_HALVES;
      moving := false;
      exploded := false;
      counterForExplosion := 0;
    }

    /** One tick of movement; `speedX` is the landscape's horizontal speed. */
    method Move(speedX: int)
      requires Valid()
      modifies this, position
      ensures Valid() && position == old(position)
      ensures State() == Moved(old(State()), speedX)
    {
      if hit {
        speedYHalves := 0;
      }
      if moving {
        var x := position.GetFirstElement();
        var y := position.GetSecondElement();
        position.SetPair(x - speedX, TruncateHalves(2 * y - speedYHalves));
      }
      var y := position.GetSecondElement();
      if y <= 0 {
        SetExploded(true);
        counterForExplosion := EXPLOSION_DURATION;
      }
    }

    /** Advances the flight animation and returns the index of the sprite to draw. */
    method GetSprite() returns (frame: int)
      requires Valid()
      modifies this`currentSprite
      ensures Valid()
      ensures currentSprite == NextFrame(old(currentSprite), SPRITES)
      ensures frame == currentSprite
    {
      currentSprite := currentSprite + 1;
      currentSprite := currentSprite % SPRITES;
      frame := currentSprite;
    }

    /** Advances the explosion animation and returns the index of the sprite to draw. */
    method GetExplosionSprite() returns (frame: int)
      requires Valid()
      modifies this`currentExpSprite
      ensures Valid()
      ensures currentExpSprite == NextFrame(old(currentExpSprite), EXP_SPRITES)
      ensures frame == currentExpSprite
    {
      currentExpSprite := currentExpSprite + 1;
      currentExpSprite := currentExpSprite % EXP_SPRITES;
      frame := currentExpSprite;
    }

    /**
     * Scans the bullets in iteration order; the first one that collides with
     * the rocket is removed and the rocket is marked hit.
     */
    method CheckCollisionBullet(bullets: BulletSet) returns (collided: bool)
      requires Valid()
      modifies this`hit, bullets
      ensures Valid()
      ensures collided <==> exists j :: 0 <= j < |old(bullets.elems)| && Collides(Hitbox(), old(bullets.elems)[j])
      ensures FirstCollision(Hitbox(), old(bullets.elems)).None? ==> bullets.elems == old(bullets.elems)
      ensures FirstCollision(Hitbox(), old(bullets.elems)).Some? ==>
                bullets.elems == RemoveAt(old(bullets.elems), FirstCollision(Hitbox(), old(bullets.elems)).value)
      ensures hit == (old(hit) || collided)
    {
      var i := 0;
      while i < |bullets.elems|
        invariant 0 <= i <= |bullets.elems|
        invariant bullets.elems == old(bullets.elems) && hit == old(hit)
        invariant forall j :: 0 <= j < i ==> !Collides(Hitbox(), bullets.elems[j])
      {
        if Collides(Hitbox(), bullets.elems[i]) {
          hit := true;
          bullets.elems := RemoveAt(bullets.elems, i);
          return true;
        }
        i := i + 1;
      }
      return false;
    }

    method IsHit() returns (b: bool)
      ensures b == hit
    {
      b := hit;
    }

    method SetHit(h: bool)
      modifies this`hit
      ensures hit == h
    {
      hit := h;
    }

    /** Starts the rocket's flight; calling it again changes nothing more. */
    method TurnOnMove()
      modifies this`moving
      ensures moving
    {
      moving := true;
    }

    method IsExploded() returns (b: bool)
      ensures b == exploded
    {
      b := exploded;
    }

    method SetExploded(e: bool)
      modifies this`exploded
      ensures exploded == e
    {
      exploded := e;
    }

    method GetCounterForExplosion() returns (c: int)
      ensures c == counterForExplosion
    {
      c := counterForExplosion;
    }

    /** Post-increment of the explosion counter: returns the value before the increment. */
    method IncrementCounterForExplosion() returns (previous: int)
      requires Valid()
      modifies this`counterForExplosion
      ensures Valid()
      ensures previous == old(counterForExplosion)
      ensures counterForExplosion == IntIncrement(previous)
      ensures previous < INT_MAX ==> counterForExplosion == previous + 1
    {
      previous := counterForExplosion;
      counterForExplosion := IntIncrement(counterForExplosion);
    }

    static method GetExplosionDuration() returns (d: int)
      ensures d == EXPLOSION_DURATION
    {
      d := EXPLOSION_DURATION;
    }
  }
}
