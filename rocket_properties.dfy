/** Properties of the rocket's movement and animation rules over one or many ticks. */
module EnemyProperties {
  import opened Enemy

  /** A rocket that has not been turned on keeps its position. */
  lemma IdleRocketStaysPut(s: RocketState, speedX: int)
    requires !s.moving
    ensures Moved(s, speedX).x == s.x && Moved(s, speedX).y == s.y
  {
  }

  /** Moving never restores a vertical speed: once hit, or once the speed is zero, it is zero afterwards. */
  lemma HitFreezesSpeed(s: RocketState, speedX: int)
    requires s.hit || s.speedYHalves == 0
    ensures Moved(s, speedX).speedYHalves == 0
    ensures Moved(s, speedX).hit == s.hit && Moved(s, speedX).moving == s.moving
  {
  }

  /**
   * A hit, moving rocket keeps its height for any number of ticks while it
   * still drifts left by the landscape speed on each one.
   */
  lemma {:induction false} HitRocketDriftsLevel(s: RocketState, speedX: int, n: nat)
    requires s.hit && s.moving
    ensures MovedTimes(s, speedX, n).y == s.y
    ensures MovedTimes(s, speedX, n).x == s.x - n * speedX
    ensures MovedTimes(s, speedX, n).hit && MovedTimes(s, speedX, n).moving
    ensures n > 0 ==> MovedTimes(s, speedX, n).speedYHalves == 0
  {
    if n > 0 {
      HitRocketDriftsLevel(s, speedX, n - 1);
      assert s.x - (n - 1) * speedX - speedX == s.x - n * speedX;
    }
  }

  /**
   * The explosion trigger: after a tick that ends at or above the top, the
   * rocket is exploded with a full counter (however often this happens);
   * after a tick that ends below it, neither flag nor counter changed.
   */
  lemma ExplodesExactlyAtTop(s: RocketState, speedX: int)
    ensures Moved(s, speedX).y <= 0 ==>
              Moved(s, speedX).exploded && Moved(s, speedX).counterForExplosion == EXPLOSION_DURATION
    ensures Moved(s, speedX).y > 0 ==>
              Moved(s, speedX).exploded == s.exploded
              && Moved(s, speedX).counterForExplosion == s.counterForExplosion
  {
  }

  /**
   * The float speed 1.5 combined with truncation toward zero: an unhit moving
   * rocket climbs two pixels per tick, and one pixel from y = 1 or at and
   * above the top. (The Java float subtraction agrees with this only while
   * |y - 1.5| < 2^23.)
   */
  lemma UnhitRocketClimb(s: RocketState, speedX: int)
    requires !s.hit && s.moving && s.speedYHalves == INITIAL_SPEED_Y_HALVES
    ensures s.y >= 2 ==> Moved(s, speedX).y == s.y - 2
    ensures s.y == 1 ==> Moved(s, speedX).y == 0
    ensures s.y <= 0 ==> Moved(s, speedX).y == s.y - 1
  {
  }

  /** Before it reaches the top, an unhit moving rocket climbs two pixels per tick and does not explode. */
  lemma {:induction false} RisingRocket(s: RocketState, speedX: int, k: nat)
    requires !s.hit && s.moving && s.speedYHalves == INITIAL_SPEED_Y_HALVES
    requires 2 * k < s.y
    ensures MovedTimes(s, speedX, k).y == s.y - 2 * k
    ensures MovedTimes(s, speedX, k).x == s.x - k * speedX
    ensures MovedTimes(s, speedX, k).exploded == s.exploded
    ensures MovedTimes(s, speedX, k).counterForExplosion == s.counterForExplosion
    ensures !MovedTimes(s, speedX, k).hit && MovedTimes(s, speedX, k).moving
    ensures MovedTimes(s, speedX, k).speedYHalves == INITIAL_SPEED_Y_HALVES
  {
    if k > 0 {
      RisingRocket(s, speedX, k - 1);
      assert s.x - (k - 1) * speedX - speedX == s.x - k * speedX;
    }
  }

  /**
   * An unhit moving rocket launched at height y > 0 reaches exactly y = 0 on
   * tick (y + 1) / 2, and is then exploded with a full counter; by
   * RisingRocket it has not exploded on any earlier tick.
   */
  lemma ExplodesAtTop(s: RocketState, speedX: int)
    requires !s.hit && s.moving && s.speedYHalves == INITIAL_SPEED_Y_HALVES
    requires s.y > 0
    ensures MovedTimes(s, speedX, (s.y + 1) / 2).y == 0
    ensures MovedTimes(s, speedX, (s.y + 1) / 2).exploded
    ensures MovedTimes(s, speedX, (s.y + 1) / 2).counterForExplosion == EXPLOSION_DURATION
  {
    var k := (s.y + 1) / 2 - 1;
    RisingRocket(s, speedX, k);
    assert MovedTimes(s, speedX, k + 1) == Moved(MovedTimes(s, speedX, k), speedX);
  }

  /** Advancing `a + b` times is advancing `a` times and then `b` times. */
  lemma {:induction false} AdvancedTimesSplit(cursor: int, count: int, a: nat, b: nat)
    requires 0 <= cursor < count
    ensures AdvancedTimes(cursor, count, a + b) == AdvancedTimes(AdvancedTimes(cursor, count, a), count, b)
  {
    if b > 0 {
      AdvancedTimesSplit(cursor, count, a, b - 1);
    }
  }

  /** Until it reaches the frame count a cursor simply counts up, and then it wraps to 0. */
  lemma {:induction false} AdvancedWithoutWrap(cursor: int, count: int, k: nat)
    requires 0 <= cursor < count && cursor + k <= count
    ensures cursor + k < count ==> AdvancedTimes(cursor, count, k) == cursor + k
    ensures cursor + k == count ==> AdvancedTimes(cursor, count, k) == 0
  {
    if k > 0 {
      AdvancedWithoutWrap(cursor, count, k - 1);
    }
  }

  /**
   * The animation cursor is cyclic with period `count`: after `count` calls
   * (5 for the flight sprites, 4 for the explosion sprites) it is back where
   * it started, and not after fewer calls.
   */
  lemma CursorPeriod(cursor: int, count: int)
    requires 0 <= cursor < count
    ensures AdvancedTimes(cursor, count, count) == cursor
    ensures forall n :: 0 < n < count ==> AdvancedTimes(cursor, count, n) != cursor
  {
    AdvancedWithoutWrap(cursor, count, count - cursor);
    AdvancedTimesSplit(cursor, count, count - cursor, cursor);
    AdvancedWithoutWrap(0, count, cursor);
    forall n | 0 < n < count
      ensures AdvancedTimes(cursor, count, n) != cursor
    {
      if cursor + n <= count {
        AdvancedWithoutWrap(cursor, count, n);
      } else {
        AdvancedTimesSplit(cursor, count, count - cursor, n - (count - cursor));
        AdvancedWithoutWrap(0, count, n - (count - cursor));
      }
    }
  }

  /**
   * One collision check consumes at most one bullet: if some bullet collides,
   * exactly the first colliding one is removed and every other bullet stays.
   */
  lemma CollisionConsumesOneBullet(box: Rect, bullets: seq<Bullet>)
    requires FirstCollision(box, bullets).Some?
    ensures var k := FirstCollision(box, bullets).value;
            |RemoveAt(bullets, k)| == |bullets| - 1
            && multiset(bullets) - multiset(RemoveAt(bullets, k)) == multiset{bullets[k]}
            && forall b :: b in bullets && b != bullets[k] ==> b in RemoveAt(bullets, k)
  {
  }
}
