/** The free functions of the game loop: stepping bullets and bubbles, the
    bullet/bubble and bubble/shooter collision tests, and the per-level spawn
    table. A `vector` the source passes by reference becomes a sequence the
    method takes and returns; one passed by value becomes a plain parameter. */
module PlayField {
  import opened Options
  import opened Bubbles
  import opened Shooters

  /** The simulated duration of one frame. */
  const STEP_TIME: real := 0.02

  // ---------------------------------------------------------------------
  // Stepping bullets

  /** What one pass of `MoveBullets` does to each bullet it started with. */
  datatype Fate =
    | Stepped  // stepped, and still alive: kept in its moved form
    | Erased   // stepped, reported dead, and erased
    | Skipped  // slid into the index of an erased bullet: neither stepped nor examined

  /** The fate of every bullet, index by index: a dead bullet is erased and its
      successor, which slides into its index, is skipped. */
  function Fates(bs: seq<Bullet>, step: (Bullet, real) -> BulletMove): (f: seq<Fate>)
    ensures |f| == |bs|
    decreases |bs|
  {
    if bs == [] then []
    else if step(bs[0], STEP_TIME).alive then [Stepped] + Fates(bs[1..], step)
    else if |bs| == 1 then [Erased]
    else [Erased, Skipped] + Fates(bs[2..], step)
  }

  /** The form in which a bullet that is not erased is left. */
  function Image(b: Bullet, f: Fate, step: (Bullet, real) -> BulletMove): Bullet
  {
    if f == Stepped then step(b, STEP_TIME).bullet else b
  }

  /** What a bullet with fate `f` leaves behind after the pass. */
  function Remains(b: Bullet, f: Fate, step: (Bullet, real) -> BulletMove): seq<Bullet>
  {
    if f == Erased then [] else [Image(b, f, step)]
  }

  /** The bullets left by a pass in which bullet `bs[j]` has fate `f[j]`, in order. */
  function Survivors(bs: seq<Bullet>, f: seq<Fate>, step: (Bullet, real) -> BulletMove): seq<Bullet>
    requires |f| == |bs|
  {
    if bs == [] then [] else Remains(bs[0], f[0], step) + Survivors(bs[1..], f[1..], step)
  }

  /** The bullets after one pass of `MoveBullets`. */
  function MovedBullets(bs: seq<Bullet>, step: (Bullet, real) -> BulletMove): seq<Bullet>
  {
    Survivors(bs, Fates(bs, step), step)
  }

  /** The loop of `MoveBullets` from index `i` of the vector `v` on. */
  ghost function PassFrom(v: seq<Bullet>, i: nat, step: (Bullet, real) -> BulletMove): seq<Bullet>
    decreases |v| - i + 1
  {
    if i >= |v| then v
    else if step(v[i], STEP_TIME).alive then PassFrom(v[i := step(v[i], STEP_TIME).bullet], i + 1, step)
    else PassFrom(v[..i] + v[i + 1..], i + 1, step)
  }

  /** The pass over a non-empty vector, read off its first bullet. */
  lemma MovedBulletsFront(rest: seq<Bullet>, step: (Bullet, real) -> BulletMove)
    requires rest != []
    ensures var m := step(rest[0], STEP_TIME);
      MovedBullets(rest, step)
        == if m.alive then [m.bullet] + MovedBullets(rest[1..], step)
           else if |rest| == 1 then []
           else [rest[1]] + MovedBullets(rest[2..], step)
  {
    var f := Fates(rest, step);
    if step(rest[0], STEP_TIME).alive {
      assert f[1..] == Fates(rest[1..], step);
    } else if |rest| > 1 {
      assert f[1..][0] == Skipped;
      assert f[1..][1..] == Fates(rest[2..], step);
      assert rest[1..][1..] == rest[2..];
      assert Survivors(rest, f, step) == Survivors(rest[1..], f[1..], step);
    }
  }

  /** Once the first |done| entries have been passed, the loop leaves them and
      treats the rest by the fate table. */
  lemma {:induction false} PassFromFates(done: seq<Bullet>, rest: seq<Bullet>, step: (Bullet, real) -> BulletMove)
    ensures PassFrom(done + rest, |done|, step) == done + MovedBullets(rest, step)
    decreases |rest|, 1
  {
    if rest == [] {
      assert done + rest == done;
    } else if step(rest[0], STEP_TIME).alive {
      PassFromAlive(done, rest, step);
    } else {
      PassFromDead(done, rest, step);
    }
  }

  /** The case of `PassFromFates` where the first bullet left is alive. */
  lemma {:induction false} PassFromAlive(done: seq<Bullet>, rest: seq<Bullet>, step: (Bullet, real) -> BulletMove)
    requires rest != [] && step(rest[0], STEP_TIME).alive
    ensures PassFrom(done + rest, |done|, step) == done + MovedBullets(rest, step)
    decreases |rest|, 0
  {
    var v := done + rest;
    var m := step(rest[0], STEP_TIME);
    var done' := done + [m.bullet];
    assert v[|done|] == rest[0];
    assert v[|done| := m.bullet] == done' + rest[1..];
    calc {
      PassFrom(v, |done|, step);
      PassFrom(done' + rest[1..], |done'|, step);
      { PassFromFates(done', rest[1..], step); }
      done' + MovedBullets(rest[1..], step);
      done + ([m.bullet] + MovedBullets(rest[1..], step));
      { MovedBulletsFront(rest, step); }
      done + MovedBullets(rest, step);
    }
  }

  /** The case of `PassFromFates` where the first bullet left is dead. */
  lemma {:induction false} PassFromDead(done: seq<Bullet>, rest: seq<Bullet>, step: (Bullet, real) -> BulletMove)
    requires rest != [] && !step(rest[0], STEP_TIME).alive
    ensures PassFrom(done + rest, |done|, step) == done + MovedBullets(rest, step)
    decreases |rest|, 0
  {
    var v := done + rest;
    var i := |done|;
    assert v[i] == rest[0];
    if |rest| == 1 {
      assert v[..i] + v[i + 1..] == done;
      MovedBulletsFront(rest, step);
    } else {
      var done' := done + [rest[1]];
      assert v[..i] + v[i + 1..] == done' + rest[2..];
      calc {
        PassFrom(v, i, step);
        PassFrom(done' + rest[2..], |done'|, step);
        { PassFromFates(done', rest[2..], step); }
        done' + MovedBullets(rest[2..], step);
        done + ([rest[1]] + MovedBullets(rest[2..], step));
        { MovedBulletsFront(rest, step); }
        done + MovedBullets(rest, step);
      }
    }
  }

  /** Steps every bullet by STEP_TIME and erases each one that reports itself
      dead; the index moves on after an erase, so the bullet that slides into
      the erased one's place is not stepped in this pass. */
  method MoveBullets(bullets: seq<Bullet>, step: (Bullet, real) -> BulletMove)
    returns (out: seq<Bullet>)
    ensures out == MovedBullets(bullets, step)
  {
    out := bullets;
    var i := 0;
    while i < |out|
      invariant PassFrom(out, i, step) == PassFrom(bullets, 0, step)
      decreases |out| - i
    {
      var m := step(out[i], STEP_TIME);
      out := out[i := m.bullet];
      if !m.alive {
        out := out[..i] + out[i + 1..];
      }
      i := i + 1;
    }
    PassFromFates([], bullets, step);
    assert [] + bullets == bullets;
  }

  /** The indices, counted from `base`, of the bullets a pass keeps, ascending. */
  function KeptFrom(f: seq<Fate>, base: nat): (ks: seq<nat>)
    decreases |f|
  {
    if f == [] then []
    else (if f[0] != Erased then [base] else []) + KeptFrom(f[1..], base + 1)
  }

  lemma {:induction false} KeptFromBounds(f: seq<Fate>, base: nat)
    ensures |KeptFrom(f, base)| <= |f|
    ensures forall k :: 0 <= k < |KeptFrom(f, base)| ==> base <= KeptFrom(f, base)[k] < base + |f|
    ensures forall k, l :: 0 <= k < l < |KeptFrom(f, base)| ==> KeptFrom(f, base)[k] < KeptFrom(f, base)[l]
    decreases |f|
  {
    if f != [] {
      KeptFromBounds(f[1..], base + 1);
    }
  }

  lemma {:induction false} SurvivorsLength(bs: seq<Bullet>, f: seq<Fate>, step: (Bullet, real) -> BulletMove, base: nat)
    requires |f| == |bs|
    ensures |Survivors(bs, f, step)| == |KeptFrom(f, base)|
    decreases |bs|
  {
    if bs != [] {
      SurvivorsLength(bs[1..], f[1..], step, base + 1);
    }
  }

  lemma {:induction false} SurvivorsAt(bs: seq<Bullet>, f: seq<Fate>, step: (Bullet, real) -> BulletMove, base: nat, k: nat)
    requires |f| == |bs|
    requires k < |KeptFrom(f, base)|
    ensures KeptFrom(f, base)[k] - base < |bs| == |f|
    ensures base <= KeptFrom(f, base)[k]
    ensures k < |Survivors(bs, f, step)|
    ensures var j := KeptFrom(f, base)[k] - base;
      f[j] != Erased && Survivors(bs, f, step)[k] == Image(bs[j], f[j], step)
    decreases |bs|
  {
    SurvivorsLength(bs, f, step, base);
    KeptFromBounds(f, base);
    var tail := KeptFrom(f[1..], base + 1);
    if f[0] == Erased {
      SurvivorsAt(bs[1..], f[1..], step, base + 1, k);
      assert KeptFrom(f, base)[k] == tail[k];
    } else if k > 0 {
      SurvivorsAt(bs[1..], f[1..], step, base + 1, k - 1);
      assert KeptFrom(f, base)[k] == tail[k - 1];
    }
  }

  /** The count never grows, and the bullets left are, in their original
      order, the images of the bullets not erased: `KeptFrom(_, 0)` lists the
      original index of every bullet that is left. */
  lemma MoveBulletsKeepsOrder(bs: seq<Bullet>, step: (Bullet, real) -> BulletMove)
    ensures var ks := KeptFrom(Fates(bs, step), 0);
      && |MovedBullets(bs, step)| == |ks| <= |bs|
      && (forall k, l :: 0 <= k < l < |ks| ==> ks[k] < ks[l])
      && (forall k :: 0 <= k < |ks| ==>
            (ks[k] < |bs| && Fates(bs, step)[ks[k]] != Erased &&
             MovedBullets(bs, step)[k] == Image(bs[ks[k]], Fates(bs, step)[ks[k]], step)))
  {
    var f := Fates(bs, step);
    SurvivorsLength(bs, f, step, 0);
    KeptFromBounds(f, 0);
    forall k | 0 <= k < |KeptFrom(f, 0)|
      ensures KeptFrom(f, 0)[k] < |bs| && f[KeptFrom(f, 0)[k]] != Erased
      ensures MovedBullets(bs, step)[k] == Image(bs[KeptFrom(f, 0)[k]], f[KeptFrom(f, 0)[k]], step)
    {
      SurvivorsAt(bs, f, step, 0, k);
    }
  }

  /** A bullet is erased only when its step reported it dead, a kept and
      stepped bullet reported itself alive, and a bullet is skipped exactly
      when its predecessor was erased. */
  lemma {:induction false} FatesFollowSteps(bs: seq<Bullet>, step: (Bullet, real) -> BulletMove, j: nat)
    requires j < |bs|
    ensures Fates(bs, step)[j] == Erased ==> !step(bs[j], STEP_TIME).alive
    ensures Fates(bs, step)[j] == Stepped ==> step(bs[j], STEP_TIME).alive
    ensures Fates(bs, step)[j] == Skipped <==> j > 0 && Fates(bs, step)[j - 1] == Erased
    decreases |bs|
  {
    var f := Fates(bs, step);
    if !step(bs[0], STEP_TIME).alive && |bs| > 1 {
      if j >= 2 {
        FatesFollowSteps(bs[2..], step, j - 2);
        assert f[j] == Fates(bs[2..], step)[j - 2];
        if j >= 3 {
          assert f[j - 1] == Fates(bs[2..], step)[j - 3];
        } else {
          assert f[j - 1] == Skipped;
          assert Fates(bs[2..], step)[0] != Skipped by { FatesStart(bs[2..], step); }
        }
      }
    } else if step(bs[0], STEP_TIME).alive && j >= 1 {
      FatesFollowSteps(bs[1..], step, j - 1);
      assert f[j] == Fates(bs[1..], step)[j - 1];
      if j >= 2 {
        assert f[j - 1] == Fates(bs[1..], step)[j - 2];
      } else {
        assert Fates(bs[1..], step)[0] != Skipped by { FatesStart(bs[1..], step); }
      }
    }
  }

  lemma FatesStart(bs: seq<Bullet>, step: (Bullet, real) -> BulletMove)
    requires bs != []
    ensures Fates(bs, step)[0] != Skipped
  {
  }

  // ---------------------------------------------------------------------
  // Stepping bubbles

  /** Every bubble after one step by STEP_TIME under the current gravity. */
  function StepAll(bubbles: seq<BubbleState>, gravity: real, windowX: real): seq<BubbleState>
  {
    seq(|bubbles|, k requires 0 <= k < |bubbles| => Step(bubbles[k], STEP_TIME, gravity, windowX))
  }

  /** Steps every bubble by STEP_TIME under the current gravity, in place. */
  method MoveBubbles(bubbles: seq<BubbleState>, gravity: real, windowX: real)
    returns (out: seq<BubbleState>)
    ensures out == StepAll(bubbles, gravity, windowX)
  {
    out := bubbles;
    for i := 0 to |out|
      invariant |out| == |bubbles|
      invariant forall k :: 0 <= k < i ==> out[k] == Step(bubbles[k], STEP_TIME, gravity, windowX)
      invariant forall k :: i <= k < |out| ==> out[k] == bubbles[k]
    {
      var s := out[i];
      var b := new Bubble(s.x, s.y, s.r, s.vx, s.vy, s.color);
      b.NextStep(STEP_TIME, gravity, windowX);
      out := out[i := b.State()];
    }
  }

  // ---------------------------------------------------------------------
  // Bullets against a bubble

  /** A bullet overlaps a bubble when its centre is nearer the bubble's centre
      than the bubble's radius plus half the bullet's width (squared distances). */
  predicate Hits(b: BubbleState, u: Bullet)
  {
    var dx := b.x - u.x;
    var dy := b.y - u.y;
    var maxDist := b.r + u.width / 2.0;
    dx * dx + dy * dy < maxDist * maxDist
  }

  /** The first index at or after `j` of a bullet that hits `b`. */
  function FirstHitFrom(bullets: seq<Bullet>, b: BubbleState, j: nat): (r: Option<nat>)
    requires j <= |bullets|
    ensures r.Some? ==> j <= r.value < |bullets|
    decreases |bullets| - j
  {
    if j == |bullets| then None
    else if Hits(b, bullets[j]) then Some(j)
    else FirstHitFrom(bullets, b, j + 1)
  }

  /** `FirstHitFrom` finds the lowest index from `j` on of a bullet that hits,
      and finds none exactly when no bullet from `j` on hits. */
  lemma {:induction false} FirstHitFromSpec(bullets: seq<Bullet>, b: BubbleState, j: nat)
    requires j <= |bullets|
    ensures var r := FirstHitFrom(bullets, b, j);
      && (r.Some? ==>
            && j <= r.value < |bullets| && Hits(b, bullets[r.value])
            && forall k :: j <= k < r.value ==> !Hits(b, bullets[k]))
      && (r.None? ==> forall k :: j <= k < |bullets| ==> !Hits(b, bullets[k]))
    decreases |bullets| - j
  {
    if j < |bullets| && !Hits(b, bullets[j]) {
      FirstHitFromSpec(bullets, b, j + 1);
    }
  }

  /** Whether a bullet was consumed, and the bullets left. */
  datatype Consumed = Consumed(hit: bool, rest: seq<Bullet>)

  /** The outcome of testing bubble `b` against the bullets: the first
      bullet that hits it is consumed. */
  function Collide(bullets: seq<Bullet>, b: BubbleState): Consumed
  {
    match FirstHitFrom(bullets, b, 0)
    case None => Consumed(false, bullets)
    case Some(j) => Consumed(true, bullets[..j] + bullets[j + 1..])
  }

  /** A bubble is hit exactly when some bullet overlaps it. Without a hit the
      bullets are unchanged; with one, exactly the lowest-indexed overlapping
      bullet is removed. */
  lemma CollideSpec(bullets: seq<Bullet>, b: BubbleState)
    ensures var c := Collide(bullets, b);
      && (c.hit <==> exists k :: 0 <= k < |bullets| && Hits(b, bullets[k]))
      && (!c.hit ==> c.rest == bullets)
      && (c.hit ==>
            exists j ::
              && 0 <= j < |bullets| && Hits(b, bullets[j])
              && (forall k :: 0 <= k < j ==> !Hits(b, bullets[k]))
              && c.rest == bullets[..j] + bullets[j + 1..])
  {
    FirstHitFromSpec(bullets, b, 0);
  }

  /** A hit uses up exactly one of the bullets and brings in none. */
  lemma CollideConsumes(bullets: seq<Bullet>, b: BubbleState)
    ensures var c := Collide(bullets, b);
      && |c.rest| == |bullets| - (if c.hit then 1 else 0)
      && forall u :: u in c.rest ==> u in bullets
  {
    var c := Collide(bullets, b);
    CollideSpec(bullets, b);
    if c.hit {
      var j :| 0 <= j < |bullets| && c.rest == bullets[..j] + bullets[j + 1..];
      forall u | u in c.rest ensures u in bullets {
        if u in bullets[..j] {
          var k :| 0 <= k < j && bullets[..j][k] == u;
          assert bullets[k] == u;
        } else {
          var k :| 0 <= k < |bullets[j + 1..]| && bullets[j + 1..][k] == u;
          assert bullets[j + 1 + k] == u;
        }
      }
    }
  }

  /** Scans the bullets in order and erases the first one that hits the bubble. */
  method BubbleBulletCollision(bullets: seq<Bullet>, bubble: BubbleState)
    returns (hit: bool, rest: seq<Bullet>)
    ensures Consumed(hit, rest) == Collide(bullets, bubble)
  {
    rest := bullets;
    var j := 0;
    while j < |rest|
      invariant j <= |rest| && rest == bullets
      invariant FirstHitFrom(bullets, bubble, j) == FirstHitFrom(bullets, bubble, 0)
    {
      if Hits(bubble, rest[j]) {
        rest := rest[..j] + rest[j + 1..];
        return true, rest;
      }
      j := j + 1;
    }
    return false, rest;
  }

  // ---------------------------------------------------------------------
  // Bubbles against the shooter

  /** The head test, with coordinate differences taken as absolute values. */
  predicate HitsHead(b: BubbleState, s: Shooter)
  {
    var dx := Abs(b.x - s.headX);
    var dy := Abs(b.y - s.headY);
    var maxDr := b.r + s.headRadius;
    dx * dx + dy * dy < maxDr * maxDr
  }

  /** The body test: the bubble's bounding square against the body rectangle. */
  predicate HitsBody(b: BubbleState, s: Shooter)
  {
    var bodyYMax := s.bodyY + s.bodyHeight / 2.0;
    var bodyYMin := s.bodyY - s.bodyHeight / 2.0;
    var dx := Abs(b.x - s.bodyX);
    var maxDx := b.r + s.bodyWidth / 2.0;
    dx < maxDx && b.y - b.r < bodyYMax && b.y + b.r > bodyYMin
  }

  /** Whether any bubble from index `i` on touches the shooter's head or body. */
  function ShooterCollisionFrom(bubbles: seq<BubbleState>, s: Shooter, i: nat): (r: bool)
    requires i <= |bubbles|
    ensures r <==> exists k :: i <= k < |bubbles| && (HitsHead(bubbles[k], s) || HitsBody(bubbles[k], s))
    decreases |bubbles| - i
  {
    if i == |bubbles| then false
    else if HitsHead(bubbles[i], s) then true
    else if HitsBody(bubbles[i], s) then true
    else ShooterCollisionFrom(bubbles, s, i + 1)
  }

  /** Whether any bubble touches the shooter. */
  function ShooterCollision(bubbles: seq<BubbleState>, s: Shooter): (r: bool)
    ensures r <==> exists k :: 0 <= k < |bubbles| && (HitsHead(bubbles[k], s) || HitsBody(bubbles[k], s))
  {
    ShooterCollisionFrom(bubbles, s, 0)
  }

  /** The head test is the strict circle-circle test on squared distances. */
  lemma HeadTestIsCircleOverlap(b: BubbleState, s: Shooter)
    ensures HitsHead(b, s) <==>
      (b.x - s.headX) * (b.x - s.headX) + (b.y - s.headY) * (b.y - s.headY)
        < (b.r + s.headRadius) * (b.r + s.headRadius)
  {
  }

  /** The body test holds exactly when the open bounding square of the bubble
      and the open body rectangle overlap on both axes. */
  lemma BodyTestIsSquareOverlap(b: BubbleState, s: Shooter)
    ensures HitsBody(b, s) <==>
      && b.x - b.r < s.bodyX + s.bodyWidth / 2.0
      && b.x + b.r > s.bodyX - s.bodyWidth / 2.0
      && b.y - b.r < s.bodyY + s.bodyHeight / 2.0
      && b.y + b.r > s.bodyY - s.bodyHeight / 2.0
  {
  }

  // ---------------------------------------------------------------------
  // The spawn table

  const LEVEL1_COLOR: Color := Rgb(255, 105, 180)
  const LEVEL2_COLOR: Color := Rgb(255, 139, 139)
  const LEVEL3_COLOR: Color := Rgb(214, 163, 84)

  /** The bubbles a level starts with; a level outside 1..3 has none. */
  function LevelLayout(level: int, windowX: real): (bubbles: seq<BubbleState>)
    ensures |bubbles| == (if level == 1 then 2 else if level == 2 || level == 3 then 3 else 0)
    ensures forall b :: b in bubbles ==> b.y == BUBBLE_START_Y && b.vy == 0.0
    ensures forall b :: b in bubbles ==>
      b.r == (if level == 1 then 10.0 else if level == 2 then 20.0 else 40.0)
    ensures forall b :: b in bubbles ==>
      b.color == (if level == 1 then LEVEL1_COLOR else if level == 2 then LEVEL2_COLOR else LEVEL3_COLOR)
    ensures level == 1 ==>
      && bubbles[0].x == windowX / 2.0 && bubbles[0].vx == -150.0
      && bubbles[1].x == windowX / 4.0 && bubbles[1].vx == 150.0
    // the middle bubble of levels 2 and 3 moves left, the others right
    ensures level == 2 || level == 3 ==> bubbles[0].vx > 0.0 && bubbles[1].vx < 0.0 && bubbles[2].vx > 0.0
  {
    if level == 1 then
      [BubbleState(windowX / 2.0, BUBBLE_START_Y, 10.0, -150.0, 0.0, LEVEL1_COLOR),
       BubbleState(windowX / 4.0, BUBBLE_START_Y, 10.0, 150.0, 0.0, LEVEL1_COLOR)]
    else if level == 2 then
      [BubbleState(windowX / 4.0, BUBBLE_START_Y, 20.0, 240.0, 0.0, LEVEL2_COLOR),
       BubbleState(2.0 * windowX / 4.0, BUBBLE_START_Y, 20.0, -270.0, 0.0, LEVEL2_COLOR),
       BubbleState(3.0 * windowX / 4.0, BUBBLE_START_Y, 20.0, 315.0, 0.0, LEVEL2_COLOR)]
    else if level == 3 then
      [BubbleState(windowX / 4.0, BUBBLE_START_Y, 40.0, 435.0, 0.0, LEVEL3_COLOR),
       BubbleState(2.0 * windowX / 4.0, BUBBLE_START_Y, 40.0, -375.0, 0.0, LEVEL3_COLOR),
       BubbleState(3.0 * windowX / 4.0, BUBBLE_START_Y, 40.0, 360.0, 0.0, LEVEL3_COLOR)]
    else []
  }

  /** Builds the bubbles of a level by pushing freshly constructed bubbles. */
  method CreateBubbles(level: int, windowX: real) returns (bubbles: seq<BubbleState>)
    ensures bubbles == LevelLayout(level, windowX)
  {
    bubbles := [];
    if level == 1 {
      var b := new Bubble(windowX / 2.0, BUBBLE_START_Y, BUBBLE_DEFAULT_RADIUS, -BUBBLE_DEFAULT_VX, 0.0, LEVEL1_COLOR);
      bubbles := bubbles + [b.State()];
      b := new Bubble(windowX / 4.0, BUBBLE_START_Y, BUBBLE_DEFAULT_RADIUS, BUBBLE_DEFAULT_VX, 0.0, LEVEL1_COLOR);
      bubbles := bubbles + [b.State()];
    } else if level == 2 {
      var b := new Bubble(1.0 * windowX / 4.0, BUBBLE_START_Y, BUBBLE_DEFAULT_RADIUS * 2.0, BUBBLE_DEFAULT_VX * 1.6, 0.0, LEVEL2_COLOR);
      bubbles := bubbles + [b.State()];
      b := new Bubble(2.0 * windowX / 4.0, BUBBLE_START_Y, BUBBLE_DEFAULT_RADIUS * 2.0, -BUBBLE_DEFAULT_VX * 1.8, 0.0, LEVEL2_COLOR);
      bubbles := bubbles + [b.State()];
      b := new Bubble(3.0 * windowX / 4.0, BUBBLE_START_Y, BUBBLE_DEFAULT_RADIUS * 2.0, BUBBLE_DEFAULT_VX * 2.1, 0.0, LEVEL2_COLOR);
      bubbles := bubbles + [b.State()];
    } else if level == 3 {
      var b := new Bubble(1.0 * windowX / 4.0, BUBBLE_START_Y, BUBBLE_DEFAULT_RADIUS * 4.0, BUBBLE_DEFAULT_VX * 2.9, 0.0, LEVEL3_COLOR);
      bubbles := bubbles + [b.State()];
      b := new Bubble(2.0 * windowX / 4.0, BUBBLE_START_Y, BUBBLE_DEFAULT_RADIUS * 4.0, -BUBBLE_DEFAULT_VX * 2.5, 0.0, LEVEL3_COLOR);
      bubbles := bubbles + [b.State()];
      b := new Bubble(3.0 * windowX / 4.0, BUBBLE_START_Y, BUBBLE_DEFAULT_RADIUS * 4.0, BUBBLE_DEFAULT_VX * 2.4, 0.0, LEVEL3_COLOR);
      bubbles := bubbles + [b.State()];
    }
  }
}
