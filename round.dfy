/** The game driver: the round state the main loop updates, each phase of a
    frame as a pure function of that state, the object whose methods perform
    the phases in place, and the level loop around them. */
module Round {
  import opened Options
  import opened Bubbles
  import opened Shooters
  import opened PlayField
  import opened Sweeps

  /** The seconds a level lasts. */
  const TIME_LIMIT: real := 45.0
  /** The seconds the timer loses per frame (the step plus an allowance for computation). */
  const TIME_WAIT: real := 0.06
  const START_HEALTH: int := 3
  /** The level that, once passed, wins the game. */
  const LAST_LEVEL: int := 3

  /** How a frame, a level or the game ends. */
  datatype Status = Playing | Won | Lost | Quit

  /** Everything the main loop updates. */
  datatype RoundState = RoundState(
    level: int, gravity: real, health: int, score: int, counted: bool, time: real,
    shooter: Shooter, bubbles: seq<BubbleState>, bullets: seq<Bullet>)

  // ---------------------------------------------------------------------
  // The phases of a frame

  /** The effect of a pressed key other than 'q' (which ends the program). */
  function ApplyKey(s: RoundState, c: char, kit: ShooterKit): RoundState
  {
    if c == 'a' || c == 'K' then s.(shooter := kit.move(s.shooter, STEP_TIME, true))
    else if c == 'd' || c == 'M' then s.(shooter := kit.move(s.shooter, STEP_TIME, false))
    else if c == 'w' || c == 'H' then s.(bullets := s.bullets + [kit.shoot(s.shooter)])
    else s
  }

  /** The bullet sweep, one point per bubble hit. */
  function Swept(s: RoundState): RoundState
  {
    var r := SweepAll(s.bubbles, s.bullets);
    s.(bubbles := r.kept + r.spawned, bullets := r.bullets, score := s.score + CountTrue(r.hit))
  }

  /** The health update for one frame in which the shooter is or is not
      touched: a touch costs a point only if one is not already being counted,
      and the count is re-armed only by a frame without a touch. */
  function HealthStep(health: int, counted: bool, overlap: bool): (r: (int, bool))
    ensures r.1 == overlap
    ensures r.0 == (if overlap && !counted then health - 1 else health)
  {
    var (h, c) := if overlap && !counted then (health - 1, true) else (health, counted);
    if !overlap then (h, false) else (h, c)
  }

  /** The health update against the bubbles of the state. */
  function Guarded(s: RoundState): RoundState
  {
    var r := HealthStep(s.health, s.counted, ShooterCollision(s.bubbles, s.shooter));
    s.(health := r.0, counted := r.1)
  }

  /** The end-of-frame verdict: a loss is decided before a win. */
  function Verdict(health: int, time: real, bubbleCount: nat): (v: Status)
    ensures v == Lost <==> health == 0 || time <= 0.0
    ensures v == Won <==> health != 0 && time > 0.0 && bubbleCount == 0
    ensures v != Quit
  {
    if health == 0 || time <= 0.0 then Lost
    else if bubbleCount == 0 then Won
    else Playing
  }

  /** The motion phase: bubbles and bullets move, and the timer runs down. */
  function Moved(s: RoundState, kit: ShooterKit, windowX: real): RoundState
  {
    s.(bubbles := StepAll(s.bubbles, s.gravity, windowX),
       bullets := MovedBullets(s.bullets, kit.bulletStep),
       time := s.time - TIME_WAIT)
  }

  /** One frame: the key (if any), the sweep, the health update, the verdict,
      and, while the level goes on, the motion. */
  function FrameSpec(s: RoundState, key: Option<char>, kit: ShooterKit, windowX: real): (Status, RoundState)
  {
    if key == Some('q') then (Quit, s)
    else
      var s1 := if key.Some? then ApplyKey(s, key.value, kit) else s;
      var s2 := Guarded(Swept(s1));
      var v := Verdict(s2.health, s2.time, |s2.bubbles|);
      if v != Playing then (v, s2) else (Playing, Moved(s2, kit, windowX))
  }

  // ---------------------------------------------------------------------
  // Properties of the phases

  /** 'a'/'K' and 'd'/'M' move the shooter left and right, 'w'/'H' appends
      exactly one bullet, and every other key changes nothing. */
  lemma KeyDispatch(s: RoundState, c: char, kit: ShooterKit)
    ensures var t := ApplyKey(s, c, kit);
      && t.(shooter := s.shooter, bullets := s.bullets) == s
      && ((c == 'a' || c == 'K') ==> t.shooter == kit.move(s.shooter, STEP_TIME, true) && t.bullets == s.bullets)
      && ((c == 'd' || c == 'M') ==> t.shooter == kit.move(s.shooter, STEP_TIME, false) && t.bullets == s.bullets)
      && ((c == 'w' || c == 'H') ==>
            t.shooter == s.shooter && |t.bullets| == |s.bullets| + 1
            && t.bullets[..|s.bullets|] == s.bullets && t.bullets[|s.bullets|] == kit.shoot(s.shooter))
      && (c !in "aKdMwH" ==> t == s)
  {
  }

  /** The sweep phase scores one point per bubble hit, uses up one bullet per
      hit, replaces each hit bubble by its children, and changes nothing else. */
  lemma SweptScoresHits(s: RoundState)
    ensures var r := SweepAll(s.bubbles, s.bullets);
      var t := Swept(s);
      && |r.hit| == |s.bubbles|
      && t.score - s.score == CountTrue(r.hit) == |s.bullets| - |t.bullets|
      && |t.bubbles| == |s.bubbles| - CountTrue(r.hit) + 2 * CountSplits(s.bubbles, r.hit)
      && t.(bubbles := s.bubbles, bullets := s.bullets, score := s.score) == s
  {
    SweepAllShape(s.bubbles, s.bullets);
    SweepCount(s.bubbles, s.bullets);
  }

  /** The health a run of frames ends with, from the touch seen in each frame. */
  function HealthTrace(health: int, counted: bool, overlaps: seq<bool>): int
    decreases |overlaps|
  {
    if overlaps == [] then health
    else
      var r := HealthStep(health, counted, overlaps[0]);
      HealthTrace(r.0, r.1, overlaps[1..])
  }

  /** The frames at which a touch begins: a touching frame after a frame
      without one (before the first frame, `counted` tells). */
  function TouchStarts(counted: bool, overlaps: seq<bool>): nat
    decreases |overlaps|
  {
    if overlaps == [] then 0
    else
      var prior := if |overlaps| == 1 then counted else overlaps[|overlaps| - 2];
      TouchStarts(counted, overlaps[..|overlaps| - 1]) + (if overlaps[|overlaps| - 1] && !prior then 1 else 0)
  }

  /** Health loss is edge-triggered: over any run of frames it loses exactly
      one point per touch that begins, however long each touch lasts. */
  lemma {:induction false} HealthCountsTouches(health: int, counted: bool, overlaps: seq<bool>)
    ensures HealthTrace(health, counted, overlaps) == health - TouchStarts(counted, overlaps)
    decreases |overlaps|
  {
    if overlaps != [] {
      var r := HealthStep(health, counted, overlaps[0]);
      HealthCountsTouches(r.0, r.1, overlaps[1..]);
      TouchStartsFront(counted, overlaps);
    }
  }

  /** `TouchStarts`, read off the front. */
  lemma {:induction false} TouchStartsFront(counted: bool, overlaps: seq<bool>)
    requires overlaps != []
    ensures TouchStarts(counted, overlaps)
      == (if overlaps[0] && !counted then 1 else 0) + TouchStarts(overlaps[0], overlaps[1..])
    decreases |overlaps|
  {
    var n := |overlaps|;
    if n > 1 {
      var front := overlaps[..n - 1];
      TouchStartsFront(counted, front);
      assert front[1..] == overlaps[1..][..n - 2];
      assert front[0] == overlaps[0];
      if n > 2 {
        assert overlaps[1..][|overlaps[1..]| - 2] == overlaps[n - 2];
      }
    }
  }

  /** One touch lasting many frames costs one point. */
  lemma OneTouchOnePoint(health: int, overlaps: seq<bool>)
    requires overlaps != [] && forall k :: 0 <= k < |overlaps| ==> overlaps[k]
    ensures HealthTrace(health, false, overlaps) == health - 1
  {
    HealthCountsTouches(health, false, overlaps);
    OneTouchStartsOnce(overlaps);
  }

  lemma {:induction false} OneTouchStartsOnce(overlaps: seq<bool>)
    requires overlaps != [] && forall k :: 0 <= k < |overlaps| ==> overlaps[k]
    ensures TouchStarts(false, overlaps) == 1
    decreases |overlaps|
  {
    if |overlaps| > 1 {
      OneTouchStartsOnce(overlaps[..|overlaps| - 1]);
    }
  }

  /** What every frame keeps: level and gravity; a score that never falls;
      a health that drops by one at most; the shooter, when no key is
      pressed; and the verdict rules of the loop. */
  lemma FrameFacts(s: RoundState, key: Option<char>, kit: ShooterKit, windowX: real)
    ensures var (st, t) := FrameSpec(s, key, kit, windowX);
      && (st == Quit <==> key == Some('q'))
      && t.level == s.level && t.gravity == s.gravity
      && t.score >= s.score
      && s.health - 1 <= t.health <= s.health
      && (key.None? ==> t.shooter == s.shooter)
      && (st == Lost ==> t.health == 0 || t.time <= 0.0)
      && (st == Won ==> t.bubbles == [] && t.health != 0 && t.time > 0.0)
      && (st == Playing ==> t.health != 0 && s.time > 0.0 && t.time == s.time - TIME_WAIT)
  {
    if key != Some('q') {
      var s1 := if key.Some? then ApplyKey(s, key.value, kit) else s;
      assert s1.(shooter := s.shooter, bullets := s.bullets) == s;
      var s2 := Guarded(Swept(s1));
      assert s2.level == s.level && s2.gravity == s.gravity && s2.time == s.time;
      assert s2.shooter == s1.shooter && s2.score >= s.score;
      assert s.health - 1 <= s2.health <= s.health;
      var v := Verdict(s2.health, s2.time, |s2.bubbles|);
      assert FrameSpec(s, key, kit, windowX) == if v != Playing then (v, s2) else (Playing, Moved(s2, kit, windowX));
    }
  }

  /** A frame that does not quit scores exactly the hits of its sweep. */
  lemma FrameScore(s: RoundState, c: Option<char>, kit: ShooterKit, windowX: real)
    requires c != Some('q')
    ensures var s1 := if c.Some? then ApplyKey(s, c.value, kit) else s;
      FrameSpec(s, c, kit, windowX).1.score == s.score + CountTrue(SweepAll(s1.bubbles, s1.bullets).hit)
  {
  }

  /** A frame adds at most one bullet, and only when the key is a shot. */
  lemma FrameBullets(s: RoundState, key: Option<char>, kit: ShooterKit, windowX: real)
    ensures var t := FrameSpec(s, key, kit, windowX).1;
      |t.bullets| <= |s.bullets| + (if key == Some('w') || key == Some('H') then 1 else 0)
  {
    if key != Some('q') {
      var s1 := if key.Some? then ApplyKey(s, key.value, kit) else s;
      if key.Some? {
        KeyDispatch(s, key.value, kit);
      }
      SweepAllShape(s1.bubbles, s1.bullets);
      var s2 := Guarded(Swept(s1));
      MoveBulletsKeepsOrder(s2.bullets, kit.bulletStep);
    }
  }

  /** Bubbles keep a positive radius through a frame. */
  lemma FrameKeepsRadiiPositive(s: RoundState, key: Option<char>, kit: ShooterKit, windowX: real)
    requires forall b :: b in s.bubbles ==> b.r > 0.0
    ensures forall b :: b in FrameSpec(s, key, kit, windowX).1.bubbles ==> b.r > 0.0
  {
    if key != Some('q') {
      var s1 := if key.Some? then ApplyKey(s, key.value, kit) else s;
      SweepKeepsRadiiPositive(s1.bubbles, s1.bullets);
      var s2 := Guarded(Swept(s1));
      forall b | b in StepAll(s2.bubbles, s2.gravity, windowX) ensures b.r > 0.0 {
        var k :| 0 <= k < |s2.bubbles| && StepAll(s2.bubbles, s2.gravity, windowX)[k] == b;
        assert s2.bubbles[k] in s2.bubbles;
      }
    }
  }

  // ---------------------------------------------------------------------
  // A level and the whole game, frame by frame

  /** The frames a level can still go on for with the timer at `time`: the
      number of positive values among `time`, `time - TIME_WAIT`, ... */
  function FramesLeft(time: real): (n: nat)
    ensures n == 0 <==> time <= 0.0
  {
    if time <= 0.0 then 0 else -((-time / TIME_WAIT).Floor)
  }

  /** A frame that goes on costs exactly one of the frames left. */
  lemma FramesLeftStep(time: real)
    requires time > 0.0
    ensures FramesLeft(time - TIME_WAIT) == FramesLeft(time) - 1
  {
    assert -(time - TIME_WAIT) / TIME_WAIT == -time / TIME_WAIT + 1.0;
  }

  /** A full timer allows 750 frames that go on. */
  lemma FullTimerFrames()
    ensures FramesLeft(TIME_LIMIT) == 750
  {
    assert -TIME_LIMIT / TIME_WAIT == -750.0;
  }

  /** A frame after which the level goes on uses up one of the frames left
      and keeps the level. */
  lemma FrameCountsDown(s: RoundState, key: Option<char>, kit: ShooterKit, windowX: real)
    ensures var (st, t) := FrameSpec(s, key, kit, windowX);
      && t.level == s.level
      && (st == Playing ==> FramesLeft(t.time) + 1 == FramesLeft(s.time))
      && (st != Playing ==> t.time == s.time)
  {
    FrameFacts(s, key, kit, windowX);
    if FrameSpec(s, key, kit, windowX).0 == Playing {
      FramesLeftStep(s.time);
    }
  }

  /** A frame is quit exactly when its key is 'q'. */
  lemma FrameQuit(s: RoundState, key: Option<char>, kit: ShooterKit, windowX: real)
    ensures FrameSpec(s, key, kit, windowX).0 == Quit <==> key == Some('q')
  {
  }

  /** The key pending in the frame that reads entry `next` of `keys`. */
  function KeyAt(keys: seq<Option<char>>, next: nat): Option<char>
  {
    if next < |keys| then keys[next] else None
  }

  /** No key from entry `lo` up to, not including, entry `hi` is 'q'. */
  predicate NoQuitKey(keys: seq<Option<char>>, lo: nat, hi: int)
  {
    forall k :: lo <= k < hi ==> KeyAt(keys, k) != Some('q')
  }

  /** Two ranges without 'q', joined by an entry that is not 'q'. */
  lemma NoQuitKeyJoin(keys: seq<Option<char>>, lo: nat, mid: nat, hi: int)
    requires lo < mid
    requires NoQuitKey(keys, lo, mid - 1) && KeyAt(keys, mid - 1) != Some('q') && NoQuitKey(keys, mid, hi)
    ensures NoQuitKey(keys, lo, hi)
  {
  }

  /** A range of keys without 'q' is empty or one entry longer than another. */
  lemma NoQuitKeyFront(keys: seq<Option<char>>, lo: nat, hi: int)
    ensures hi <= lo ==> NoQuitKey(keys, lo, hi)
    ensures KeyAt(keys, lo) != Some('q') && NoQuitKey(keys, lo + 1, hi) ==> NoQuitKey(keys, lo, hi)
  {
  }

  /** The frames of one level from state `s`, the frame at entry `next` of
      `keys` first, until one of them does not end in `Playing`: the status
      it ends in, the state, and the entry after the last one read. */
  function LevelSpec(s: RoundState, keys: seq<Option<char>>, next: nat, kit: ShooterKit, windowX: real)
    : (r: (Status, RoundState, nat))
    ensures r.1.level == s.level
    decreases FramesLeft(s.time), 1
  {
    LevelFrame(s, KeyAt(keys, next), keys, next + 1, kit, windowX)
  }

  /** The level from a frame in state `s` with `key` pending, the frame after
      it reading entry `next`: it ends with that frame unless the frame ends
      in `Playing`. */
  function LevelFrame(s: RoundState, key: Option<char>, keys: seq<Option<char>>, next: nat, kit: ShooterKit, windowX: real)
    : (r: (Status, RoundState, nat))
    ensures r.1.level == s.level
    decreases FramesLeft(s.time), 0
  {
    FrameCountsDown(s, key, kit, windowX);
    var (st, t) := FrameSpec(s, key, kit, windowX);
    if st != Playing then (st, t, next) else LevelSpec(t, keys, next, kit, windowX)
  }

  /** How a level that started in state `s` and read the keys from entry
      `next` on can end as `r` = (status, state, entry after the last key
      read): never `Playing`, after one key per frame and at most one more
      than the frames the timer allows; quit exactly when the last key read
      is 'q', and no earlier key of the level is; lost only with no health
      or no time, won only with no bubbles left while there is health and
      time; the level and gravity kept, the score never lower, the health
      never higher and, from a positive start, never negative. */
  predicate LevelEnds(s: RoundState, keys: seq<Option<char>>, next: nat, r: (Status, RoundState, nat))
  {
    var (st, t, n) := r;
    && st != Playing
    && next < n <= next + FramesLeft(s.time) + 1
    && (st == Quit <==> KeyAt(keys, n - 1) == Some('q'))
    && NoQuitKey(keys, next, n - 1)
    && (st == Lost ==> t.health == 0 || t.time <= 0.0)
    && (st == Won ==> t.bubbles == [] && t.health != 0 && t.time > 0.0)
    && t.level == s.level && t.gravity == s.gravity
    && t.score >= s.score && t.health <= s.health
    && (s.health >= 1 ==> t.health >= 0)
  }

  /** What a level ends in: never `Playing`, after one key read per frame
      and at most one more than the frames the timer allows; lost only with
      no health or no time, won only with no bubbles left while there is
      health and time. */
  lemma {:induction false} LevelSpecEnds(s: RoundState, keys: seq<Option<char>>, next: nat, kit: ShooterKit, windowX: real)
    ensures var (st, t, n) := LevelSpec(s, keys, next, kit, windowX);
      && st != Playing
      && next < n <= next + FramesLeft(s.time) + 1
      && (st == Lost ==> t.health == 0 || t.time <= 0.0)
      && (st == Won ==> t.bubbles == [] && t.health != 0 && t.time > 0.0)
    decreases FramesLeft(s.time)
  {
    var key := KeyAt(keys, next);
    FrameFacts(s, key, kit, windowX);
    FrameCountsDown(s, key, kit, windowX);
    var (st, t) := FrameSpec(s, key, kit, windowX);
    if st == Playing {
      LevelSpecEnds(t, keys, next + 1, kit, windowX);
      assert LevelSpec(s, keys, next, kit, windowX) == LevelSpec(t, keys, next + 1, kit, windowX);
    } else {
      assert LevelSpec(s, keys, next, kit, windowX) == (st, t, next + 1);
    }
  }

  /** A level or a game that ends as `r` = (status, state, next entry), its
      keys read from entry `next`, reads at least one key; it is quit exactly when the
      last key it reads is 'q', and no key it reads before that one is. */
  predicate QuitsAtEnd(keys: seq<Option<char>>, next: nat, r: (Status, RoundState, nat))
  {
    && next < r.2
    && (r.0 == Quit <==> KeyAt(keys, r.2 - 1) == Some('q'))
    && NoQuitKey(keys, next, r.2 - 1)
  }

  /** Every level is quit as `QuitsAtEnd` says. */
  lemma {:induction false} LevelSpecQuits(s: RoundState, keys: seq<Option<char>>, next: nat, kit: ShooterKit, windowX: real)
    ensures QuitsAtEnd(keys, next, LevelSpec(s, keys, next, kit, windowX))
    decreases FramesLeft(s.time)
  {
    var key := KeyAt(keys, next);
    FrameQuit(s, key, kit, windowX);
    var (st, t) := FrameSpec(s, key, kit, windowX);
    if st == Playing {
      FrameCountsDown(s, key, kit, windowX);
      var r := LevelSpec(t, keys, next + 1, kit, windowX);
      LevelSpecQuits(t, keys, next + 1, kit, windowX);
      assert LevelSpec(s, keys, next, kit, windowX) == r;
      NoQuitKeyFront(keys, next, r.2 - 1);
    } else {
      assert LevelSpec(s, keys, next, kit, windowX) == (st, t, next + 1);
      NoQuitKeyFront(keys, next, next);
    }
  }

  /** A level keeps the level number and the gravity, never lowers the score
      and never raises the health, and leaves it non-negative. */
  lemma {:induction false} LevelSpecKeeps(s: RoundState, keys: seq<Option<char>>, next: nat, kit: ShooterKit, windowX: real)
    ensures var (st, t, n) := LevelSpec(s, keys, next, kit, windowX);
      && t.level == s.level && t.gravity == s.gravity
      && t.score >= s.score && t.health <= s.health
      && (s.health >= 1 ==> t.health >= 0)
    decreases FramesLeft(s.time)
  {
    var key := KeyAt(keys, next);
    FrameFacts(s, key, kit, windowX);
    FrameCountsDown(s, key, kit, windowX);
    var (st, t) := FrameSpec(s, key, kit, windowX);
    if st == Playing {
      LevelSpecKeeps(t, keys, next + 1, kit, windowX);
      assert LevelSpec(s, keys, next, kit, windowX) == LevelSpec(t, keys, next + 1, kit, windowX);
    } else {
      assert LevelSpec(s, keys, next, kit, windowX) == (st, t, next + 1);
    }
  }

  /** Every level ends as `LevelEnds` says. */
  lemma LevelSpecFacts(s: RoundState, keys: seq<Option<char>>, next: nat, kit: ShooterKit, windowX: real)
    ensures LevelEnds(s, keys, next, LevelSpec(s, keys, next, kit, windowX))
  {
    LevelSpecEnds(s, keys, next, kit, windowX);
    LevelSpecQuits(s, keys, next, kit, windowX);
    LevelSpecKeeps(s, keys, next, kit, windowX);
  }

  /** The state a level starts from: the timer full, a new shooter, the
      level's bubbles, no bullets; everything else carried over. */
  function LevelStart(s: RoundState, kit: ShooterKit, windowX: real): RoundState
  {
    s.(time := TIME_LIMIT, shooter := kit.start, bubbles := LevelLayout(s.level, windowX), bullets := [])
  }

  /** One pass of the level loop from state `s`, the keys read from entry
      `next`: the level is started and played and, if it is won, the level
      and the gravity go up by one. The result is the status the level
      ended with, the state after the pass and the next key entry. */
  function RoundSpec(s: RoundState, keys: seq<Option<char>>, next: nat, kit: ShooterKit, windowX: real)
    : (r: (Status, RoundState, nat))
    ensures r.1.level == if r.0 == Won then s.level + 1 else s.level
  {
    var (st, t, n) := LevelSpec(LevelStart(s, kit, windowX), keys, next, kit, windowX);
    if st == Won then (st, t.(level := t.level + 1, gravity := t.gravity + 1.0), n) else (st, t, n)
  }

  /** The game from level `s.level` on, the keys read from entry `next`:
      passes of the level loop until a level is lost or quit, or the last
      level is won. */
  function GameSpec(s: RoundState, keys: seq<Option<char>>, next: nat, kit: ShooterKit, windowX: real)
    : (Status, RoundState, nat)
    requires 1 <= s.level <= LAST_LEVEL
    decreases LAST_LEVEL + 1 - s.level
  {
    var (st, t, n) := RoundSpec(s, keys, next, kit, windowX);
    if st != Won || t.level == LAST_LEVEL + 1 then (st, t, n) else GameSpec(t, keys, n, kit, windowX)
  }

  /** `GameSpec`, one pass unfolded. */
  lemma GameSpecUnfold(s: RoundState, keys: seq<Option<char>>, next: nat, kit: ShooterKit, windowX: real)
    requires 1 <= s.level <= LAST_LEVEL
    ensures var r := RoundSpec(s, keys, next, kit, windowX);
      GameSpec(s, keys, next, kit, windowX) ==
        if r.0 != Won || r.1.level == LAST_LEVEL + 1 then r else GameSpec(r.1, keys, r.2, kit, windowX)
  {
  }

  /** How a game played from state `s`, the keys read from entry `next`
      on, can end as `r` = (status, state, next entry): never `Playing`; won
      only past the last level, with the gravity raised once per level
      passed; otherwise at a level from the first one played up to the
      last, with the gravity raised once per level passed before it; quit
      exactly when the last key read is 'q', and no key read before it is;
      lost only with no health or no time; the score never lower, the
      health never higher and, from a positive start, never negative. */
  predicate GameEnds(s: RoundState, keys: seq<Option<char>>, next: nat, r: (Status, RoundState, nat))
  {
    var (st, t, n) := r;
    && st != Playing
    && (st == Won ==> t.level == LAST_LEVEL + 1 && t.gravity == s.gravity + (LAST_LEVEL + 1 - s.level) as real)
    && (st != Won ==> s.level <= t.level <= LAST_LEVEL && t.gravity == s.gravity + (t.level - s.level) as real)
    && QuitsAtEnd(keys, next, r)
    && (st == Lost ==> t.health == 0 || t.time <= 0.0)
    && t.score >= s.score && t.health <= s.health
    && (s.health >= 1 ==> t.health >= 0)
  }

  /** Every game ends as `GameEnds` says. */
  lemma {:induction false} GameSpecFacts(s: RoundState, keys: seq<Option<char>>, next: nat, kit: ShooterKit, windowX: real)
    requires 1 <= s.level <= LAST_LEVEL
    ensures GameEnds(s, keys, next, GameSpec(s, keys, next, kit, windowX))
    decreases LAST_LEVEL + 1 - s.level
  {
    LevelSpecFacts(LevelStart(s, kit, windowX), keys, next, kit, windowX);
    var r := RoundSpec(s, keys, next, kit, windowX);
    if r.0 == Won && r.1.level <= LAST_LEVEL {
      var g := GameSpec(r.1, keys, r.2, kit, windowX);
      GameSpecFacts(r.1, keys, r.2, kit, windowX);
      NoQuitKeyJoin(keys, next, r.2, g.2 - 1);
      assert GameSpec(s, keys, next, kit, windowX) == g;
    } else {
      assert GameSpec(s, keys, next, kit, windowX) == r;
    }
  }

  // ---------------------------------------------------------------------
  // The game object

  class Game {
    /** The width of the window; `WINDOW_X` is defined in neither modelled file, so it is a parameter. */
    const windowX: real
    /** The shooter's behaviour. */
    const kit: ShooterKit

    var level: int
    var gravity: real
    var health: int
    var score: int
    var collisionCounted: bool
    var time: real
    var shooter: Shooter
    var bubbles: seq<BubbleState>
    var bullets: seq<Bullet>

    function State(): RoundState
      reads this
    {
      RoundState(level, gravity, health, score, collisionCounted, time, shooter, bubbles, bullets)
    }

    /** The state before the first level: level 1, full health, no score. */
    constructor (windowX: real, kit: ShooterKit)
      ensures this.windowX == windowX && this.kit == kit
      ensures State() == RoundState(1, INITIAL_GRAVITY, START_HEALTH, 0, false, TIME_LIMIT, kit.start, [], [])
    {
      this.windowX := windowX;
      this.kit := kit;
      level := 1;
      gravity := INITIAL_GRAVITY;
      health := START_HEALTH;
      score := 0;
      collisionCounted := false;
      time := TIME_LIMIT;
      shooter := kit.start;
      bubbles := [];
      bullets := [];
    }

    /** A level begins: the timer is reset, a new shooter and the level's
      bubbles are created and there are no bullets; health, score and the
      touch flag carry over. */
    method StartLevel()
      modifies this`time, this`shooter, this`bubbles, this`bullets
      ensures State() == LevelStart(old(State()), kit, windowX)
    {
      time := TIME_LIMIT;
      shooter := kit.start;
      bubbles := CreateBubbles(level, windowX);
      bullets := [];
    }

    /** Dispatches a pressed key; reports whether it asks to quit. */
    method HandleKey(c: char) returns (quit: bool)
      modifies this`shooter, this`bullets
      ensures quit <==> c == 'q'
      ensures State() == ApplyKey(old(State()), c, kit)
    {
      quit := false;
      if c == 'a' || c == 'K' {
        shooter := kit.move(shooter, STEP_TIME, true);
      } else if c == 'd' || c == 'M' {
        shooter := kit.move(shooter, STEP_TIME, false);
      } else if c == 'w' || c == 'H' {
        bullets := bullets + [kit.shoot(shooter)];
      } else if c == 'q' {
        quit := true;
      }
    }

    /** Tests the bubbles against the bullets from the last index down; a hit
      bubble is replaced by its children at the end of the vector, which the
      loop does not reach, and scores a point. */
    method ResolveHits()
      modifies this`bubbles, this`bullets, this`score
      ensures State() == Swept(old(State()))
    {
      var hits;
      bubbles, bullets, hits := SweepBubbles(bubbles, bullets);
      score := score + hits;
    }

    /** Loses a health point when a touch begins and keeps the touch flag. */
    method UpdateHealth()
      modifies this`health, this`collisionCounted
      ensures State() == Guarded(old(State()))
    {
      if ShooterCollision(bubbles, shooter) && !collisionCounted {
        health := health - 1;
        collisionCounted := true;
      }
      if !ShooterCollision(bubbles, shooter) {
        collisionCounted := false;
      }
    }

    /** Moves the bubbles, then the bullets, and runs the timer down. */
    method MoveAll()
      modifies this`bubbles, this`bullets, this`time
      ensures State() == Moved(old(State()), kit, windowX)
    {
      bubbles := MoveBubbles(bubbles, gravity, windowX);
      bullets := MoveBullets(bullets, kit.bulletStep);
      time := time - TIME_WAIT;
    }

    /** One iteration of the main loop, with the key pending in it (if any). */
    method Frame(key: Option<char>) returns (status: Status)
      modifies this`shooter, this`bullets, this`bubbles, this`score, this`health,
               this`collisionCounted, this`time
      ensures (status, State()) == FrameSpec(old(State()), key, kit, windowX)
    {
      if key.Some? {
        var quit := HandleKey(key.value);
        if quit {
          return Quit;
        }
      }
      ResolveHits();
      UpdateHealth();
      if health == 0 || time <= 0.0 {
        return Lost;
      }
      if |bubbles| == 0 {
        return Won;
      }
      MoveAll();
      status := Playing;
    }

    /** Runs the frames of one level until it is won, lost or quit, taking one
      entry of `keys` per frame from index `next` on (none once they run out). */
    method PlayLevel(keys: seq<Option<char>>, next: nat) returns (status: Status, next': nat)
      modifies this`shooter, this`bullets, this`bubbles, this`score, this`health,
               this`collisionCounted, this`time
      ensures (status, State(), next') == LevelSpec(old(State()), keys, next, kit, windowX)
      ensures LevelEnds(old(State()), keys, next, (status, State(), next'))
      ensures old(time) == TIME_LIMIT ==> next' - next <= 751
    {
      ghost var start := State();
      next' := next;
      status := Playing;
      while status == Playing
        invariant (if status == Playing then LevelSpec(State(), keys, next', kit, windowX) else (status, State(), next'))
                  == LevelSpec(start, keys, next, kit, windowX)
        decreases FramesLeft(time), if status == Playing then 1 else 0
      {
        var key := if next' < |keys| then keys[next'] else None;
        ghost var before := State();
        assert LevelSpec(before, keys, next', kit, windowX)
            == LevelFrame(before, key, keys, next' + 1, kit, windowX);
        FrameCountsDown(before, key, kit, windowX);
        next' := next' + 1;
        status := Frame(key);
      }
      LevelSpecFacts(start, keys, next, kit, windowX);
      FullTimerFrames();
    }

    /** One pass of the level loop: the level is started and played and, if
      it is won, the level and the gravity go up by one. */
    method PlayRound(keys: seq<Option<char>>, next: nat) returns (status: Status, next': nat)
      modifies this
      ensures (status, State(), next') == RoundSpec(old(State()), keys, next, kit, windowX)
    {
      StartLevel();
      status, next' := PlayLevel(keys, next);
      if status == Won {
        Advance();
      }
    }

    /** After a level won: the level and the gravity go up by one. */
    method Advance()
      modifies this`level, this`gravity
      ensures State() == old(State()).(level := old(level) + 1, gravity := old(gravity) + 1.0)
    {
      level := level + 1;
      gravity := gravity + 1.0;
    }

    /** The whole game from the current level on: each level is started and
      played in turn; passing a level raises the level and the gravity by
      one; passing level 3 wins the game, and losing or quitting any level
      ends it. `read` is the number of key entries the game reads. */
    method Run(keys: seq<Option<char>>) returns (outcome: Status, ghost read: nat)
      requires 1 <= level <= LAST_LEVEL
      modifies this
      ensures (outcome, State(), read) == GameSpec(old(State()), keys, 0, kit, windowX)
      ensures GameEnds(old(State()), keys, 0, (outcome, State(), read))
    {
      ghost var start := State();
      var next := 0;
      while true
        invariant 1 <= level <= LAST_LEVEL
        invariant GameSpec(State(), keys, next, kit, windowX) == GameSpec(start, keys, 0, kit, windowX)
        decreases LAST_LEVEL + 1 - level
      {
        GameSpecUnfold(State(), keys, next, kit, windowX);
        var status;
        status, next := PlayRound(keys, next);
        if status != Won || level == LAST_LEVEL + 1 {
          GameSpecFacts(start, keys, 0, kit, windowX);
          return status, next;
        }
      }
    }
  }

  /** `CountTrue`, read off the front. */
  lemma {:induction false} CountTrueCons(x: bool, H: seq<bool>)
    ensures CountTrue([x] + H) == CountTrue(H) + (if x then 1 else 0)
    decreases |H|
  {
    if H != [] {
      var n := |H|;
      assert ([x] + H)[..n] == [x] + H[..n - 1];
      CountTrueCons(x, H[..n - 1]);
    }
  }
  /** The loop of the sweep: the bubbles are tested from the last index down;
    a hit bubble has its children pushed at the end, which the loop does not
    reach, and is then erased. Returns the bubbles and bullets left and the
    number of hits. */
  method SweepBubbles(bubbles: seq<BubbleState>, bullets: seq<Bullet>)
    returns (bs: seq<BubbleState>, bl: seq<Bullet>, hits: nat)
    ensures var r := SweepAll(bubbles, bullets);
      bs == r.kept + r.spawned && bl == r.bullets && hits == CountTrue(r.hit)
  {
    ghost var target := SweepAll(bubbles, bullets);
    ghost var acc := Sweep([], [], bullets, []);
    bs, bl, hits := bubbles, bullets, 0;
    var i := |bs| - 1;
    while i >= 0
      invariant -1 <= i < |bubbles|
      invariant acc.bullets == bl
      invariant bs == bubbles[..i + 1] + acc.kept + acc.spawned
      invariant SweepFrom(bubbles, i + 1, acc) == target
      invariant hits == CountTrue(acc.hit)
      decreases i + 1
    {
      var parent := bs[i];
      assert parent == bubbles[i];
      var hit, rest := BubbleBulletCollision(bl, parent);
      ghost var next := SweepStep(bubbles, i, acc, hit, rest);
      bl := rest;
      if hit {
        var children := SplitBubble(parent);
        EraseAfterPush(bubbles, i, acc.kept, acc.spawned, children);
        bs := bs + children;
        bs := bs[..i] + bs[i + 1..];
        hits := hits + 1;
      } else {
        KeepInPlace(bubbles, i, acc.kept);
      }
      CountTrueCons(hit, acc.hit);
      acc := next;
      i := i - 1;
    }
  }

  /** The two children of a bubble large enough to split, built the way the
    main loop builds them. */
  method SplitBubble(parent: BubbleState) returns (children: seq<BubbleState>)
    ensures children == Children(parent)
  {
    children := [];
    if parent.r / 2.0 >= BUBBLE_RADIUS_THRESHOLD {
      var child := new Bubble(parent.x, parent.y, parent.r / 2.0, parent.vx, 0.0, parent.color);
      children := children + [child.State()];
      child := new Bubble(parent.x, parent.y, parent.r / 2.0, -parent.vx, 0.0, parent.color);
      children := children + [child.State()];
    }
  }

  /** Pushing the children and then erasing the parent at its index leaves the
    bubbles before it, those kept after it, and the spawned ones. */
  lemma EraseAfterPush(B: seq<BubbleState>, i: nat, kept: seq<BubbleState>,
                       spawned: seq<BubbleState>, children: seq<BubbleState>)
    requires i < |B|
    ensures var v := B[..i + 1] + kept + spawned + children;
      v[..i] + v[i + 1..] == B[..i] + kept + (spawned + children)
  {
    var v := B[..i + 1] + kept + spawned + children;
    assert v[..i] == B[..i];
    assert v[i + 1..] == kept + (spawned + children);
  }

  /** A bubble that is not hit stays in its place in front of the kept ones. */
  lemma KeepInPlace(B: seq<BubbleState>, i: nat, kept: seq<BubbleState>)
    requires i < |B|
    ensures B[..i + 1] + kept == B[..i] + ([B[i]] + kept)
  {
    assert B[..i + 1] == B[..i] + [B[i]];
  }

  /** `SweepOne` at bubble `i`, written in the terms of the outcome `hit`,
      `rest` the loop got from testing it. */
  lemma SweepStep(B: seq<BubbleState>, i: nat, acc: Sweep, hit: bool, rest: seq<Bullet>)
      returns (next: Sweep)
    requires i < |B|
    requires Consumed(hit, rest) == Collide(acc.bullets, B[i])
    ensures next == if hit then Sweep(acc.kept, acc.spawned + Children(B[i]), rest, [true] + acc.hit)
                    else Sweep([B[i]] + acc.kept, acc.spawned, acc.bullets, [false] + acc.hit)
    ensures SweepFrom(B, i + 1, acc) == SweepFrom(B, i, next)
  {
    SweepFromUnfold(B, i + 1, acc);
    SweepOneParts(B, i + 1, acc);
    next := SweepOne(B, i + 1, acc);
  }
}
