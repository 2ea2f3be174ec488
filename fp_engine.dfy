/**
 * fp.py, the bird and the pipes: dt-based physics in screen pixels. The
 * playfield starts at x = CAMERA_WIDTH (the camera panel is to its left), y
 * grows downwards, and every position is a pygame.Rect, so it is an integer.
 *
 * Python floats are reals. Where the source stores a float into a Rect, or
 * calls int() on one, the model truncates toward zero (Trunc). Two results
 * rest on that truncation: CeilingHoldsTheBird (a move of less than a pixel
 * is dropped) and the lower bound PIPE_GAP on the opening of CreatePipes
 * (both heights are rounded down).
 */
module FpEngine {

  const CameraWidth := 320
  const GameWidth := 640
  const GameHeight := 480

  const Gravity: real := 1700.0
  const FlapStrength: real := -550.0
  const PipeSpeed: real := 240.0
  const MaxFallSpeed: real := 800.0

  const PipeGap := 180
  const PipeWidth := 80
  const MinPipeHeight := 55
  /** A new pair is placed at GAME_WIDTH + 50 in playfield coordinates. */
  const PipeSpawnX := CameraWidth + GameWidth + 50

  /** The bird is a 40x40 rectangle whose left edge never moves. */
  const BirdSize := 40
  const BirdX := CameraWidth + 100
  const BirdStartY := GameHeight / 2

  /** A real in [0, 1]: the draw of random.uniform(0, 1). */
  type Unit = r: real | 0.0 <= r <= 1.0

  /** int() of a float, and what pygame keeps when a float is stored in a Rect. */
  function Trunc(r: real): (n: int)
    ensures n as real <= r < n as real + 1.0 || n as real - 1.0 < r <= n as real
    ensures r >= 0.0 ==> 0 <= n && n as real <= r
    ensures r <= 0.0 ==> n <= 0 && r <= n as real
  {
    if r >= 0.0 then r.Floor else -((-r).Floor)
  }

  function Min(a: real, b: real): real {
    if a <= b then a else b
  }

  datatype BirdState = BirdState(y: int, velocity: real)

  const BirdStart := BirdState(BirdStartY, 0.0)

  /** Bird.flap: the velocity becomes the flap impulse, whatever it was. */
  function BirdFlap(b: BirdState): (r: BirdState)
    ensures r.y == b.y && r.velocity == FlapStrength
  {
    b.(velocity := FlapStrength)
  }

  datatype BirdStep = BirdStep(bird: BirdState, alive: bool)

  /** The velocity after one step of gravity, capped at MAX_FALL_SPEED. */
  function Fallen(b: BirdState, dt: real): real {
    Min(b.velocity + Gravity * dt, MaxFallSpeed)
  }

  /** The rect's y once it has moved by the new velocity times dt, before the wall tests. */
  function MovedY(b: BirdState, dt: real): int {
    Trunc(b.y as real + Fallen(b, dt) * dt)
  }

  /**
   * Bird.update: the bird moves by the capped velocity times dt, then the
   * wall tests run on the moved rect. A rect at or above the ceiling is put
   * on it with zero velocity; the bird is alive exactly when the rect (after
   * the ceiling test) ends above the floor, and a floor contact leaves it
   * resting on the floor. Everywhere in between the bird is at the moved
   * position with the new velocity.
   */
  function BirdUpdate(b: BirdState, dt: real): (r: BirdStep)
    ensures r.bird.velocity <= MaxFallSpeed
    ensures 0 <= r.bird.y && r.bird.y + BirdSize <= GameHeight
    ensures r.alive <==> (if MovedY(b, dt) <= 0 then 0 else MovedY(b, dt)) + BirdSize < GameHeight
    ensures r.alive <==> r.bird.y + BirdSize < GameHeight
    ensures MovedY(b, dt) <= 0 ==> r.bird == BirdState(0, 0.0)
    ensures 0 < MovedY(b, dt) && r.alive ==> r.bird == BirdState(MovedY(b, dt), Fallen(b, dt))
    ensures !r.alive ==> r.bird == BirdState(GameHeight - BirdSize, Fallen(b, dt))
  {
    var v := Fallen(b, dt);
    var y := MovedY(b, dt);
    var atCeiling := y <= 0;
    var y' := if atCeiling then 0 else y;
    var v' := if atCeiling then 0.0 else v;
    if y' + BirdSize >= GameHeight then BirdStep(BirdState(GameHeight - BirdSize, v'), false)
    else BirdStep(BirdState(y', v'), true)
  }

  /**
   * The ceiling test is `top <= 0`, and it zeroes the velocity: a bird
   * resting on the ceiling moves less than a pixel in a frame shorter than
   * about 24 ms, so it is put back with zero velocity and stays there.
   */
  lemma CeilingHoldsTheBird(dt: real)
    requires 0.0 <= dt <= 0.05 && Gravity * dt * dt < 1.0
    ensures BirdUpdate(BirdState(0, 0.0), dt) == BirdStep(BirdState(0, 0.0), true)
  {
    var v := Min(0.0 + Gravity * dt, MaxFallSpeed);
    assert v == Gravity * dt;
    var r := (0 as real) + v * dt;
    assert r == Gravity * dt * dt;
    assert 0.0 <= r < 1.0;
    assert Trunc(r) == 0;
  }

  /** A pipe's rectangle, and whether it has already given its point. */
  datatype PipeState = PipeState(x: int, y: int, height: int, scored: bool)

  function Right(p: PipeState): int {
    p.x + PipeWidth
  }

  /** The Pipe constructor: top pipes hang from y = 0, bottom pipes stand on the floor. */
  function NewPipe(x: int, height: int, isBottom: bool): (p: PipeState)
    ensures p.x == CameraWidth + x && p.height == height && !p.scored
    ensures isBottom ==> p.y + p.height == GameHeight
    ensures !isBottom ==> p.y == 0
  {
    PipeState(CameraWidth + x, if isBottom then GameHeight - height else 0, height, false)
  }

  /**
   * Pipe.update: the pipe moves left by PIPE_SPEED * dt, rounded to a whole
   * pixel; nothing else about it changes.
   */
  function PipeUpdate(p: PipeState, dt: real): (q: PipeState)
    ensures q.y == p.y && q.height == p.height && q.scored == p.scored
    ensures 0.0 <= dt ==> q.x <= p.x
    ensures q.x as real - 1.0 < p.x as real - PipeSpeed * dt < q.x as real + 1.0
  {
    p.(x := Trunc(p.x as real - PipeSpeed * dt))
  }

  /** Rect.colliderect of a pipe and the bird: the two rectangles overlap. */
  predicate Collides(p: PipeState, b: BirdState) {
    p.x < BirdX + BirdSize && BirdX < p.x + PipeWidth && p.y < b.y + BirdSize && b.y < p.y + p.height
  }

  /** The scoring test: a top pipe whose right edge is left of the bird's left edge. */
  predicate Passed(p: PipeState) {
    p.y == 0 && Right(p) < BirdX
  }

  /** The top pipe's height before truncation: MIN_H plus the draw's share of the height left over. */
  function TopHeight(u: Unit): (t: real)
    ensures MinPipeHeight as real <= t <= (GameHeight - PipeGap - MinPipeHeight) as real
  {
    var availH := GameHeight - PipeGap - 2 * MinPipeHeight;
    assert u * availH as real <= availH as real;
    MinPipeHeight as real + u * availH as real
  }

  /**
   * create_pipes: a top pipe from y = 0 and a bottom pipe down to the floor,
   * both at least MIN_H tall and new, with an opening between them of
   * PIPE_GAP pixels, or one more when the two truncations both round down.
   */
  function CreatePipes(u: Unit): (pair: seq<PipeState>)
    ensures |pair| == 2 && pair[0].x == PipeSpawnX && pair[1].x == PipeSpawnX
    ensures pair[0] == NewPipe(GameWidth + 50, pair[0].height, false)
    ensures pair[1] == NewPipe(GameWidth + 50, pair[1].height, true)
    ensures pair[0].height >= MinPipeHeight && pair[1].height >= MinPipeHeight
    ensures PipeGap <= pair[1].y - (pair[0].y + pair[0].height) <= PipeGap + 1
  {
    var top := TopHeight(u);
    [NewPipe(GameWidth + 50, Trunc(top), false),
     NewPipe(GameWidth + 50, Trunc((GameHeight - PipeGap) as real - top), true)]
  }

  class Bird {
    var y: int
    var velocity: real

    function Value(): BirdState
      reads this
    {
      BirdState(y, velocity)
    }

    constructor ()
      ensures Value() == BirdStart
    {
      y := BirdStartY;
      velocity := 0.0;
    }

    method Flap()
      modifies this
      ensures Value() == BirdFlap(old(Value()))
    {
      velocity := FlapStrength;
    }

    /** Returns false when the bird has reached the floor. */
    method Update(dt: real) returns (alive: bool)
      modifies this
      ensures BirdStep(Value(), alive) == BirdUpdate(old(Value()), dt)
    {
      ghost var b := Value();
      velocity := velocity + Gravity * dt;
      if velocity > MaxFallSpeed {
        velocity := MaxFallSpeed;
      }
      assert velocity == Fallen(b, dt);
      y := Trunc(y as real + velocity * dt);
      assert y == MovedY(b, dt);
      if y <= 0 {
        y := 0;
        velocity := 0.0;
      }
      if y + BirdSize >= GameHeight {
        y := GameHeight - BirdSize;
        return false;
      }
      return true;
    }
  }

  class Pipe {
    var x: int
    const y: int
    const height: int
    /** Absent until the pipe scores (getattr(p, 'scored', False)). */
    var scored: bool

    function Value(): PipeState
      reads this
    {
      PipeState(x, y, height, scored)
    }

    constructor (x0: int, height0: int, isBottom: bool)
      ensures Value() == NewPipe(x0, height0, isBottom)
    {
      x := CameraWidth + x0;
      height := height0;
      y := if isBottom then GameHeight - height0 else 0;
      scored := false;
    }

    /**
     * Moves the pipe. The kill() that follows for a pipe off the field only
     * leaves sprite groups, and this pipe belongs to none, so it has no effect.
     */
    method Update(dt: real)
      modifies this
      ensures Value() == PipeUpdate(old(Value()), dt)
    {
      x := Trunc(x as real - PipeSpeed * dt);
    }
  }

  /** create_pipes as the source runs it: two new Pipe objects. */
  method NewPipePair(u: Unit) returns (top: Pipe, bottom: Pipe)
    ensures fresh(top) && fresh(bottom)
    ensures [top.Value(), bottom.Value()] == CreatePipes(u)
  {
    var t := TopHeight(u);
    var topHeight := Trunc(t);
    var bottomHeight := Trunc((GameHeight - PipeGap) as real - t);
    top := new Pipe(GameWidth + 50, topHeight, false);
    bottom := new Pipe(GameWidth + 50, bottomHeight, true);
  }
}
