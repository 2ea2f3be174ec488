/**
 * fp.py, the gesture controller: the capture thread turns each camera frame
 * into a relative pinch distance, smooths it with an exponential moving
 * average and runs a two-threshold hysteresis that raises a one-shot flap
 * flag; the game loop reads and clears that flag once per frame.
 *
 * Landmark extraction is outside the model: a frame arrives as the two
 * distances the thread computes with math.hypot. Python floats are reals.
 */
module FpGesture {

  const EmaAlpha: real := 0.3
  /** Below this smoothed distance a released hand counts as a pinch. */
  const Trigger: real := 45.0
  /** Above this smoothed distance a pinching hand counts as released. */
  const Release: real := 65.0

  type Length = r: real | r >= 0.0

  /**
   * One pass of the capture thread: cap.read() failed, no hand was found, or a
   * hand with the thumb-tip to index-tip distance and the wrist to index-base
   * distance (the hand size), both in pixels.
   */
  datatype CameraRead = ReadFailed | NoHand | Hand(tipDistance: Length, handSize: Length)

  datatype GestureState = GestureState(smoothDist: real, isPinching: bool)

  /** The state before the first camera frame. */
  const Initial := GestureState(0.0, false)

  function Abs(x: real): real {
    if x < 0.0 then -x else x
  }

  predicate Between(x: real, a: real, b: real) {
    (a <= x <= b) || (b <= x <= a)
  }

  /** The pinch as a percentage of the hand size; a zero hand size counts as 1 pixel. */
  function RelativeDistance(tipDistance: Length, handSize: Length): (r: Length)
    ensures handSize == 0.0 ==> r == 100.0 * tipDistance
    ensures handSize > 0.0 ==> r * handSize == 100.0 * tipDistance
  {
    (tipDistance / (if handSize == 0.0 then 1.0 else handSize)) * 100.0
  }

  /**
   * The moving average. A zero previous value (the initial one) is first
   * replaced by the sample, so the first sample is taken as it is; otherwise
   * the new value lies between the old one and the sample and is 0.7 times as
   * far from the sample as the old one was.
   */
  function Smooth(prev: real, sample: real): (s: real)
    ensures prev == 0.0 ==> s == sample
    ensures Between(s, prev, sample)
    ensures Abs(s - sample) == (if prev == 0.0 then 0.0 else 0.7 * Abs(prev - sample))
  {
    var base := if prev == 0.0 then sample else prev;
    EmaAlpha * sample + (1.0 - EmaAlpha) * base
  }

  datatype Step = Step(next: GestureState, fired: bool)

  /**
   * What one camera frame does to the controller: nothing unless a hand was
   * seen; then the smoothed distance moves, a released hand below Trigger
   * fires and becomes pinching, a hand above Release becomes released, and a
   * hand in between keeps its state.
   */
  function ProcessRead(st: GestureState, read: CameraRead): (r: Step)
    ensures !read.Hand? ==> r.next == st && !r.fired
    ensures read.Hand? ==>
      r.next.smoothDist == Smooth(st.smoothDist, RelativeDistance(read.tipDistance, read.handSize))
    ensures r.fired <==> read.Hand? && r.next.smoothDist < Trigger && !st.isPinching
    ensures read.Hand? && r.next.smoothDist < Trigger ==> r.next.isPinching
    ensures read.Hand? && r.next.smoothDist > Release ==> !r.next.isPinching
    ensures Trigger <= r.next.smoothDist <= Release ==> r.next.isPinching == st.isPinching
  {
    match read
    case ReadFailed => Step(st, false)
    case NoHand => Step(st, false)
    case Hand(d, h) =>
      var s := Smooth(st.smoothDist, RelativeDistance(d, h));
      if s < Trigger then Step(GestureState(s, true), !st.isPinching)
      else if s > Release then Step(GestureState(s, false), false)
      else Step(GestureState(s, st.isPinching), false)
  }

  /** The state after a run of camera frames. */
  function Run(st: GestureState, frames: seq<CameraRead>): GestureState
    decreases |frames|
  {
    if frames == [] then st else ProcessRead(Run(st, frames[..|frames| - 1]), frames[|frames| - 1]).next
  }

  /** How many of those frames fired a flap. */
  function Fired(st: GestureState, frames: seq<CameraRead>): nat
    decreases |frames|
  {
    if frames == [] then 0
    else
      var prefix := frames[..|frames| - 1];
      Fired(st, prefix) + (if ProcessRead(Run(st, prefix), frames[|frames| - 1]).fired then 1 else 0)
  }

  /** How many of those frames turned a pinching hand into a released one. */
  function Released(st: GestureState, frames: seq<CameraRead>): nat
    decreases |frames|
  {
    if frames == [] then 0
    else
      var prefix := frames[..|frames| - 1];
      var before := Run(st, prefix);
      var after := ProcessRead(before, frames[|frames| - 1]).next;
      Released(st, prefix) + (if before.isPinching && !after.isPinching then 1 else 0)
  }

  function Bit(b: bool): nat {
    if b then 1 else 0
  }

  /**
   * Flaps and releases alternate: over any run of frames, the flaps fired and
   * the releases seen differ exactly by the change of isPinching.
   */
  lemma {:induction false} FlapsAlternateWithReleases(st: GestureState, frames: seq<CameraRead>)
    ensures Fired(st, frames) + Bit(st.isPinching) == Released(st, frames) + Bit(Run(st, frames).isPinching)
    decreases |frames|
  {
    if frames != [] {
      FlapsAlternateWithReleases(st, frames[..|frames| - 1]);
    }
  }

  /**
   * The hysteresis: without a release in between, a run of frames fires at
   * most one flap, and none at all when the hand was already pinching.
   */
  lemma NoSecondFlapWithoutRelease(st: GestureState, frames: seq<CameraRead>)
    ensures Fired(st, frames) <= Released(st, frames) + (if st.isPinching then 0 else 1)
  {
    FlapsAlternateWithReleases(st, frames);
  }

  /** Frames without a hand change nothing and fire nothing. */
  lemma {:induction false} HandlessFramesChangeNothing(st: GestureState, frames: seq<CameraRead>)
    requires forall i :: 0 <= i < |frames| ==> !frames[i].Hand?
    ensures Run(st, frames) == st && Fired(st, frames) == 0
    decreases |frames|
  {
    if frames != [] {
      HandlessFramesChangeNothing(st, frames[..|frames| - 1]);
    }
  }

  /**
   * The controller object shared by the capture thread and the game loop
   * (the lock only keeps the two from interleaving inside a method, so the
   * methods are modelled as sequential steps).
   */
  class GestureController {
    var smoothDist: real
    var isPinching: bool
    /** Set by the capture thread, read and cleared by the game loop. */
    var gestureFlap: bool

    function State(): GestureState
      reads this
    {
      GestureState(smoothDist, isPinching)
    }

    constructor ()
      ensures State() == Initial && !gestureFlap
    {
      smoothDist := 0.0;
      isPinching := false;
      gestureFlap := false;
    }

    /** One pass of the capture thread's loop. */
    method Capture(read: CameraRead)
      modifies this
      ensures State() == ProcessRead(old(State()), read).next
      ensures gestureFlap == (old(gestureFlap) || ProcessRead(old(State()), read).fired)
    {
      match read {
        case ReadFailed =>
        case NoHand =>
        case Hand(d, h) =>
          var relDist := RelativeDistance(d, h);
          if smoothDist == 0.0 {
            smoothDist := relDist;
          }
          smoothDist := EmaAlpha * relDist + (1.0 - EmaAlpha) * smoothDist;
          var flapTrigger := false;
          if smoothDist < Trigger {
            if !isPinching {
              flapTrigger := true;
              isPinching := true;
            }
          } else if smoothDist > Release {
            isPinching := false;
          }
          if flapTrigger {
            gestureFlap := true;
          }
      }
    }

    /** The capture thread's loop over the frames it reads between two game frames. */
    method CaptureAll(frames: seq<CameraRead>)
      modifies this
      ensures State() == Run(old(State()), frames)
      ensures gestureFlap == (old(gestureFlap) || Fired(old(State()), frames) > 0)
    {
      var i := 0;
      while i < |frames|
        invariant 0 <= i <= |frames|
        invariant State() == Run(old(State()), frames[..i])
        invariant gestureFlap == (old(gestureFlap) || Fired(old(State()), frames[..i]) > 0)
      {
        Capture(frames[i]);
        i := i + 1;
        assert frames[..i][..i - 1] == frames[..i - 1];
      }
      assert frames[..|frames|] == frames;
    }

    /** get_state: hand the pending flap to the game loop and clear it. */
    method GetState() returns (flap: bool)
      modifies this
      ensures flap == old(gestureFlap)
      ensures !gestureFlap && State() == old(State())
    {
      flap := gestureFlap;
      gestureFlap := false;
    }
  }

  /**
   * Two reads by the game loop with camera frames in between: the second
   * sees a flap exactly when one of those frames fired one, so a flap is
   * never delivered twice.
   */
  method ReadTwice(g: GestureController, between: seq<CameraRead>) returns (first: bool, second: bool)
    modifies g
    ensures first == old(g.gestureFlap)
    ensures second <==> Fired(old(g.State()), between) > 0
    ensures g.State() == Run(old(g.State()), between) && !g.gestureFlap
  {
    first := g.GetState();
    g.CaptureAll(between);
    second := g.GetState();
  }
}
