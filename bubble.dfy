/** A bubble of the game: its constants, its value as a record and the
    object whose `NextStep` does one Euler step of its motion.
    Coordinates grow to the right (x) and downwards (y); the ground line is
    at y == PLAY_Y_HEIGHT. Every quantity is an exact `real`. */
module Bubbles {

  const BUBBLE_START_X: real := 250.0
  const BUBBLE_START_Y: real := 50.0
  const BUBBLE_DEFAULT_RADIUS: real := 10.0
  const BUBBLE_RADIUS_THRESHOLD: real := 10.0
  const BUBBLE_DEFAULT_VX: real := 150.0
  const BUBBLE_DEFAULT_VY: real := 0.0
  /** The starting value of the process-wide gravity; the game passes the
      current value to every step explicitly. */
  const INITIAL_GRAVITY: real := 2.0
  /** The y coordinate of the ground line. */
  const PLAY_Y_HEIGHT: real := 450.0

  /** A drawing colour, as its red, green and blue components. */
  datatype Color = Rgb(red: int, green: int, blue: int)

  const DEFAULT_COLOR: Color := Rgb(0, 0, 255)

  /** The value of a bubble: the centre and radius of its circle, its
      velocity and its colour. */
  datatype BubbleState = BubbleState(x: real, y: real, r: real, vx: real, vy: real, color: Color)

  function Abs(a: real): real { if a < 0.0 then -a else a }

  /** The horizontal wall test: moving left past the left wall, or right past
      the right wall `windowX`, both measured against the centre `x` would reach. */
  predicate BouncesX(b: BubbleState, t: real, windowX: real)
  {
    var newX := b.x + b.vx * t;
    (b.vx < 0.0 && newX < 0.0 + b.r) || (b.vx > 0.0 && newX > windowX - b.r)
  }

  /** The ground test, made on the position BEFORE the step. */
  predicate BouncesY(b: BubbleState)
  {
    b.r + b.y > PLAY_Y_HEIGHT
  }

  /** One Euler step of duration `t` under the given gravity. */
  function Step(b: BubbleState, t: real, gravity: real, windowX: real): (s: BubbleState)
    // only the centre and the velocity change
    ensures s.r == b.r && s.color == b.color
    // the speed along x is kept, and vx flips exactly when a wall is hit
    ensures Abs(s.vx) == Abs(b.vx)
    ensures s.vx != b.vx <==> BouncesX(b, t, windowX)
    // the x displacement always uses the velocity after the reflection
    ensures s.x == b.x + s.vx * t
    // a ground bounce negates the velocity after gravity and moves with it ...
    ensures BouncesY(b) ==> s.vy == -(b.vy + gravity) && s.y == b.y + s.vy * t
    // ... otherwise gravity is added and y moves with the old vy, unbounded above
    ensures !BouncesY(b) ==> s.vy == b.vy + gravity && s.y == b.y + b.vy * t
  {
    var vx' := if BouncesX(b, t, windowX) then -b.vx else b.vx;
    var vy' := if BouncesY(b) then -(b.vy + gravity) else b.vy + gravity;
    var x' := b.x + vx' * t;
    var y' := if BouncesY(b) then b.y + vy' * t else b.y + b.vy * t;
    BubbleState(x', y', b.r, vx', vy', b.color)
  }

  /** The bubble object: its circle (centre and radius), velocity and colour. */
  class Bubble {
    var cx: real
    var cy: real
    var radius: real
    var vx: real
    var vy: real
    var color: Color

    /** The value this object currently holds. */
    function State(): (s: BubbleState)
      reads this
      ensures s.x == cx && s.y == cy && s.r == radius && s.vx == vx && s.vy == vy && s.color == color
    {
      BubbleState(cx, cy, radius, vx, vy, color)
    }

    constructor (cx: real, cy: real, r: real, vx: real := BUBBLE_DEFAULT_VX,
                 vy: real := BUBBLE_DEFAULT_VY, color: Color := DEFAULT_COLOR)
      ensures State() == BubbleState(cx, cy, r, vx, vy, color)
    {
      this.color := color;
      this.cx, this.cy, this.radius := cx, cy, r;
      this.vx := vx;
      this.vy := vy;
    }

    /** Moves the bubble by one step of duration `t`, in place. */
    method NextStep(t: real, gravity: real, windowX: real)
      modifies this
      ensures State() == Step(old(State()), t, gravity, windowX)
    {
      var newX := cx + vx * t;
      var newY := cy + vy * t;
      vy := vy + gravity;
      if (vx < 0.0 && newX < 0.0 + radius) || (vx > 0.0 && newX > windowX - radius) {
        vx := -vx;
        newX := cx + vx * t;
      }
      if radius + cy > PLAY_Y_HEIGHT {
        vy := -vy;
        newY := cy + vy * t;
      }
      cx, cy := newX, newY;
    }

    function GetRadius(): (r: real)
      reads this
      ensures r == State().r
    {
      radius
    }

    function GetCenterX(): (x: real)
      reads this
      ensures x == State().x
    {
      cx
    }

    function GetCenterY(): (y: real)
      reads this
      ensures y == State().y
    {
      cy
    }

    function GetVx(): (v: real)
      reads this
      ensures v == State().vx
    {
      vx
    }

    function GetVy(): (v: real)
      reads this
      ensures v == State().vy
    {
      vy
    }

    function GetColor(): (c: Color)
      reads this
      ensures c == State().color
    {
      color
    }
  }

  /** A freshly constructed bubble reports through its getters exactly what
      it was built from. */
  method ConstructThenGet(cx: real, cy: real, r: real, vx: real, vy: real, color: Color)
    returns (gx: real, gy: real, gr: real, gvx: real, gvy: real, gc: Color)
    ensures gx == cx && gy == cy && gr == r && gvx == vx && gvy == vy && gc == color
  {
    var b := new Bubble(cx, cy, r, vx, vy, color);
    gx, gy, gr := b.GetCenterX(), b.GetCenterY(), b.GetRadius();
    gvx, gvy, gc := b.GetVx(), b.GetVy(), b.GetColor();
  }

  /** The defaults of the constructor: speed BUBBLE_DEFAULT_VX to the right,
      at rest vertically, blue. */
  method ConstructWithDefaults(cx: real, cy: real, r: real) returns (s: BubbleState)
    ensures s == BubbleState(cx, cy, r, 150.0, 0.0, Rgb(0, 0, 255))
  {
    var b := new Bubble(cx, cy, r);
    s := b.State();
  }
}
