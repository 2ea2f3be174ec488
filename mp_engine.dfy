/**
 * game_multiplayer.py, the bird and the pipes: a frame-stepped engine in
 * whole pixels. The playfield starts at x = CAMERA_WIDTH, y grows downwards,
 * the ceiling is at y = 50 and the floor at GAME_HEIGHT.
 *
 * GRAVITY (0.25) and BIRD_FLAP (-6.5) are whole multiples of a quarter, and
 * so is every velocity the bird can have, so a velocity is an integer count
 * of quarter pixels per frame and the arithmetic is exact. int() of a float
 * truncates toward zero.
 */
module MpEngine {

  const CameraWidth := 640
  const GameWidth := 800
  const GameHeight := 600
  const Ceiling := 50

  /** GRAVITY and BIRD_FLAP in quarter pixels per frame. */
  const GravityQ := 1
  const FlapQ := -26

  const PipeSpeed := 4
  const PipeGap := 220
  const PipeWidth := 80
  const MinPipeHeight := 150
  const MaxPipeHeight := 400
  const MinGapY := 250
  const MaxGapY := GameHeight - 250
  /** Pipes are created at GAME_WIDTH + 50 in playfield coordinates. */
  const PipeSpawnX := CameraWidth + GameWidth + 50

  /** The bird is a 40x40 rectangle centred on (CAMERA_WIDTH + 150, GAME_HEIGHT // 2). */
  const BirdSize := 40
  const BirdLeft := CameraWidth + 150 - BirdSize / 2
  const BirdStartTop := GameHeight / 2 - BirdSize / 2

  const PinchThreshold := 30

  /** int(q / 4): a quarter count as whole pixels, truncated toward zero. */
  function QuartersToPixels(q: int): (n: int)
    ensures 0 <= q ==> 0 <= 4 * n <= q < 4 * n + 4
    ensures q <= 0 ==> 4 * n - 4 < q <= 4 * n <= 0
  {
    if q >= 0 then q / 4 else -((-q) / 4)
  }

  /** The bird's rect.top and its velocity in quarters. */
  datatype BirdState = BirdState(top: int, quarters: int)

  const BirdStart := BirdState(BirdStartTop, 0)

  /** Bird.flap: the velocity becomes -6.5, whatever it was. */
  function BirdFlap(b: BirdState): (r: BirdState)
    ensures r.top == b.top && r.quarters == FlapQ
  {
    b.(quarters := FlapQ)
  }

  datatype BirdStep = BirdStep(bird: BirdState, alive: bool)

  /** The rect's top once it has moved by int(velocity), before the wall tests. */
  function MovedTop(b: BirdState): int {
    b.top + QuartersToPixels(b.quarters + GravityQ)
  }

  /**
   * Bird.update: the bird gains a quarter of velocity and moves by its
   * whole-pixel part, then the wall tests run on the moved rect. A rect at
   * or above the ceiling is put on it with zero velocity; the bird is alive
   * exactly when the rect (after the ceiling test) ends above the floor, and
   * a floor contact leaves it resting on the floor with zero velocity.
   * Everywhere in between the bird is at the moved position.
   */
  function BirdUpdate(b: BirdState): (r: BirdStep)
    ensures Ceiling <= r.bird.top && r.bird.top + BirdSize <= GameHeight
    ensures r.alive <==> (if MovedTop(b) <= Ceiling then Ceiling else MovedTop(b)) + BirdSize < GameHeight
    ensures r.alive <==> r.bird.top + BirdSize < GameHeight
    ensures !r.alive ==> r.bird == BirdState(GameHeight - BirdSize, 0)
    ensures MovedTop(b) <= Ceiling ==> r.bird == BirdState(Ceiling, 0)
    ensures Ceiling < MovedTop(b) && r.alive ==> r.bird == BirdState(MovedTop(b), b.quarters + GravityQ)
    ensures r.bird.top == Ceiling ==> r.bird.quarters == 0
  {
    var v := b.quarters + GravityQ;
    var top := MovedTop(b);
    var atCeiling := top <= Ceiling;
    var top' := if atCeiling then Ceiling else top;
    var v' := if atCeiling then 0 else v;
    if top' + BirdSize >= GameHeight then BirdStep(BirdState(GameHeight - BirdSize, 0), false)
    else BirdStep(BirdState(top', v'), true)
  }

  /**
   * The ceiling test is `top <= 50` and it zeroes the velocity; a quarter
   * of gravity moves the bird by int(0.25) = 0 pixels, so a bird that has
   * reached the ceiling stays there for as long as it does not flap, and a
   * flap only pushes it back up against the ceiling.
   */
  lemma {:induction false} CeilingHoldsTheBird(b: BirdState, n: nat)
    requires b.top <= Ceiling && b.quarters <= 2
    ensures Fall(b, n + 1) == BirdState(Ceiling, 0)
    decreases n
  {
    if n > 0 {
      CeilingHoldsTheBird(b, n - 1);
      assert BirdUpdate(BirdState(Ceiling, 0)).bird == BirdState(Ceiling, 0);
    } else {
      assert QuartersToPixels(b.quarters + GravityQ) <= 0;
    }
  }

  /** n + 1 frames of Bird.update without a flap, from b. */
  function Fall(b: BirdState, n: nat): BirdState
    decreases n
  {
    if n == 0 then b else BirdUpdate(Fall(b, n - 1)).bird
  }

  /** A pipe's rect: left edge, top edge and height. */
  datatype PipeState = PipeState(x: int, top: int, height: int)

  function Right(p: PipeState): int {
    p.x + PipeWidth
  }

  function Bottom(p: PipeState): int {
    p.top + p.height
  }

  /**
   * The Pipe constructor: a bottom pipe stands on the floor, a top pipe
   * hangs from the ceiling; create_pipes moves both afterwards.
   */
  function NewPipe(x: int, height: int, isBottom: bool): (p: PipeState)
    ensures p.x == CameraWidth + x && p.height == height
    ensures isBottom ==> Bottom(p) == GameHeight
    ensures !isBottom ==> p.top == Ceiling
  {
    PipeState(CameraWidth + x, if isBottom then GameHeight - height else Ceiling, height)
  }

  /** The rect.x -= PIPE_SPEED of Pipe.update. */
  function Move(p: PipeState): (q: PipeState)
    ensures q.x == p.x - PipeSpeed && q.top == p.top && q.height == p.height
  {
    p.(x := p.x - PipeSpeed)
  }

  /** What Pipe.update keeps in the group: pipes whose right edge is not left of the playfield. */
  predicate OnField(p: PipeState) {
    Right(p) >= CameraWidth
  }

  /**
   * pipe_group.update(): every pipe moves left by PIPE_SPEED, and those that
   * leave the playfield are killed; the survivors keep their order.
   */
  function GroupUpdate(ps: seq<PipeState>): (r: seq<PipeState>)
    ensures |r| <= |ps|
    ensures forall q :: q in r ==> OnField(q)
  {
    if ps == [] then []
    else
      var rest := GroupUpdate(ps[..|ps| - 1]);
      var q := Move(ps[|ps| - 1]);
      if OnField(q) then rest + [q] else rest
  }

  /** The survivors are exactly the moved pipes that are still on the field. */
  lemma {:induction false} GroupUpdateMembers(ps: seq<PipeState>)
    ensures forall q :: q in GroupUpdate(ps) ==> exists i :: 0 <= i < |ps| && q == Move(ps[i])
    ensures forall i :: 0 <= i < |ps| && OnField(Move(ps[i])) ==> Move(ps[i]) in GroupUpdate(ps)
  {
    if ps != [] {
      var front := ps[..|ps| - 1];
      GroupUpdateMembers(front);
      assert forall i :: 0 <= i < |front| ==> front[i] == ps[i];
    }
  }

  /**
   * Each sprite is updated on its own and the group keeps its order: the
   * survivors of a + b are the survivors of a followed by those of b.
   */
  lemma {:induction false} GroupUpdateAppend(a: seq<PipeState>, b: seq<PipeState>)
    ensures GroupUpdate(a + b) == GroupUpdate(a) + GroupUpdate(b)
    decreases |b|
  {
    if b == [] {
      assert a + b == a;
    } else {
      var front := b[..|b| - 1];
      assert (a + b)[..|a + b| - 1] == a + front;
      assert (a + b)[|a + b| - 1] == b[|b| - 1];
      GroupUpdateAppend(a, front);
    }
  }

  /** One random draw of create_pipes: gap_y and the two Pipe heights, in call order. */
  datatype PipeDraw = PipeDraw(gapY: int, bottomHeight: int, topHeight: int)

  /** The ranges of random.randint(250, GAME_HEIGHT - 250) and random.randint(150, 400). */
  predicate ValidDraw(d: PipeDraw) {
    && MinGapY <= d.gapY <= MaxGapY
    && MinPipeHeight <= d.bottomHeight <= MaxPipeHeight
    && MinPipeHeight <= d.topHeight <= MaxPipeHeight
  }

  /**
   * create_pipes: the bottom pipe, then the top pipe, both at the spawn
   * column, with an opening of exactly PIPE_GAP centred on gap_y. The pieces
   * keep their random heights, so they need not reach the floor or the
   * ceiling.
   */
  function CreatePipes(d: PipeDraw): (pair: seq<PipeState>)
    ensures |pair| == 2 && pair[0].x == PipeSpawnX && pair[1].x == PipeSpawnX
    ensures pair[0].height == d.bottomHeight && pair[1].height == d.topHeight
    ensures pair[0].top - Bottom(pair[1]) == PipeGap
    ensures pair[0].top + Bottom(pair[1]) == 2 * d.gapY
    ensures ValidDraw(d) ==> Ceiling < Bottom(pair[1]) && pair[0].top < GameHeight - BirdSize
  {
    var bottom := NewPipe(GameWidth + 50, d.bottomHeight, true);
    var top := NewPipe(GameWidth + 50, d.topHeight, false);
    [bottom.(top := d.gapY + PipeGap / 2), top.(top := d.gapY - PipeGap / 2 - d.topHeight)]
  }

  /**
   * The pieces do not always close the column: with gap_y = 250 and a
   * bottom height of 150 the bottom pipe ends 90 pixels above the floor,
   * room for the 40-pixel bird to fly underneath.
   */
  lemma BottomPipeCanFloat()
    ensures var pair := CreatePipes(PipeDraw(250, 150, 150));
      ValidDraw(PipeDraw(250, 150, 150)) && GameHeight - Bottom(pair[0]) == 90
  {
  }

  /** spritecollide's test for one pipe: the pipe's rect overlaps the bird's. */
  predicate Collides(p: PipeState, b: BirdState) {
    p.x < BirdLeft + BirdSize && BirdLeft < Right(p) && p.top < b.top + BirdSize && b.top < Bottom(p)
  }

  predicate AnyCollides(ps: seq<PipeState>, b: BirdState) {
    exists i :: 0 <= i < |ps| && Collides(ps[i], b)
  }

  /** The pinch test on the integer thumb-tip and index-tip positions: distance < 30. */
  predicate IsPinch(thumbX: int, thumbY: int, indexX: int, indexY: int) {
    var dx := thumbX - indexX;
    var dy := thumbY - indexY;
    dx * dx + dy * dy < PinchThreshold * PinchThreshold
  }

  /** math.hypot(dx, dy) < 30 says the same as IsPinch, for the distance d that hypot returns. */
  lemma HypotBelowThreshold(thumbX: int, thumbY: int, indexX: int, indexY: int, d: real)
    requires 0.0 <= d
    requires d * d == ((thumbX - indexX) * (thumbX - indexX) + (thumbY - indexY) * (thumbY - indexY)) as real
    ensures d < PinchThreshold as real <==> IsPinch(thumbX, thumbY, indexX, indexY)
  {
    var dx := thumbX - indexX;
    var dy := thumbY - indexY;
    var n := dx * dx + dy * dy;
    assert d * d == n as real;
    var t := PinchThreshold as real;
    assert t == 30.0 && t * t == 900.0;
    if d < t {
      assert d * d <= d * t;
      assert d * t < t * t;
      assert (n as real) < 900.0;
      assert n < 900;
    } else {
      assert d * d >= d * t;
      assert d * t >= t * t;
      assert (n as real) >= 900.0;
      assert n >= 900;
    }
  }

  class Bird {
    var top: int
    var quarters: int

    function Value(): BirdState
      reads this
    {
      BirdState(top, quarters)
    }

    constructor ()
      ensures Value() == BirdStart
    {
      top := BirdStartTop;
      quarters := 0;
    }

    method Flap()
      modifies this
      ensures Value() == BirdFlap(old(Value()))
    {
      quarters := FlapQ;
    }

    /** Returns false when the bird has reached the floor. */
    method Update() returns (alive: bool)
      modifies this
      ensures BirdStep(Value(), alive) == BirdUpdate(old(Value()))
    {
      quarters := quarters + GravityQ;
      top := top + QuartersToPixels(quarters);
      if top <= Ceiling {
        top := Ceiling;
        quarters := 0;
      }
      if top + BirdSize >= GameHeight {
        top := GameHeight - BirdSize;
        quarters := 0;
        return false;
      }
      return true;
    }
  }

  class Pipe {
    var x: int
    var top: int
    const height: int

    function Value(): PipeState
      reads this
    {
      PipeState(x, top, height)
    }

    constructor (x0: int, height0: int, isBottom: bool)
      ensures Value() == NewPipe(x0, height0, isBottom)
    {
      x := CameraWidth + x0;
      height := height0;
      top := if isBottom then GameHeight - height0 else Ceiling;
    }

    /** Moves the pipe; killed tells the group to drop it. */
    method Update() returns (killed: bool)
      modifies this
      ensures Value() == Move(old(Value()))
      ensures killed <==> !OnField(Value())
    {
      x := x - PipeSpeed;
      killed := x + PipeWidth < CameraWidth;
    }
  }

  /** create_pipes as the source runs it: two new Pipe objects, bottom first. */
  method NewPipePair(d: PipeDraw) returns (bottom: Pipe, top: Pipe)
    ensures fresh(bottom) && fresh(top) && bottom != top
    ensures [bottom.Value(), top.Value()] == CreatePipes(d)
  {
    bottom := new Pipe(GameWidth + 50, d.bottomHeight, true);
    top := new Pipe(GameWidth + 50, d.topHeight, false);
    bottom.top := d.gapY + PipeGap / 2;
    top.top := d.gapY - PipeGap / 2 - top.height;
  }

  /** The values of a list of Pipe sprites, in order. */
  function PipeValues(ps: seq<Pipe>): (vs: seq<PipeState>)
    reads ps
    ensures |vs| == |ps| && forall i :: 0 <= i < |ps| ==> vs[i] == ps[i].Value()
  {
    seq(|ps|, i requires 0 <= i < |ps| reads ps => ps[i].Value())
  }

  /** A sprite is in a group at most once. */
  predicate Distinct(ps: seq<Pipe>) {
    forall i, j :: 0 <= i < j < |ps| ==> ps[i] != ps[j]
  }

  /** GroupUpdate walks the group front to back: one more pipe adds at most its own moved value. */
  lemma GroupUpdateSnoc(ps: seq<PipeState>, q: PipeState)
    ensures GroupUpdate(ps + [q]) == GroupUpdate(ps) + (if OnField(Move(q)) then [Move(q)] else [])
  {
    assert (ps + [q])[..|ps|] == ps;
  }

  /** One sprite's turn in pipe_group.update(): it moves, and it stays in the group unless it killed itself. */
  method UpdateMember(p: Pipe, kept: seq<Pipe>) returns (kept': seq<Pipe>)
    requires p !in kept && Distinct(kept)
    modifies p
    ensures p.Value() == Move(old(p.Value()))
    ensures Distinct(kept') && forall q :: q in kept' ==> q in kept || q == p
    ensures PipeValues(kept') == old(PipeValues(kept)) + if OnField(p.Value()) then [p.Value()] else []
  {
    ghost var before := PipeValues(kept);
    var killed := p.Update();
    kept' := kept;
    if !killed {
      kept' := kept + [p];
      assert PipeValues(kept') == before + [p.Value()];
    }
  }

  /** pipe_group.update() on the sprites themselves: each one moves, and the ones that kill themselves leave the group. */
  method UpdateGroup(group: seq<Pipe>) returns (kept: seq<Pipe>)
    requires Distinct(group)
    modifies group
    ensures Distinct(kept) && forall p :: p in kept ==> p in group
    ensures PipeValues(kept) == GroupUpdate(old(PipeValues(group)))
  {
    ghost var vs := PipeValues(group);
    kept := [];
    var i := 0;
    while i < |group|
      invariant 0 <= i <= |group|
      invariant Distinct(kept) && forall p :: p in kept ==> p in group[..i]
      invariant forall j :: i <= j < |group| ==> group[j].Value() == vs[j]
      invariant PipeValues(kept) == GroupUpdate(vs[..i])
    {
      assert group[i] !in group[..i];
      kept := UpdateMember(group[i], kept);
      assert vs[..i + 1] == vs[..i] + [vs[i]];
      GroupUpdateSnoc(vs[..i], vs[i]);
      i := i + 1;
    }
    assert vs[..|group|] == vs;
  }
}
