/** Vestige.Engine.Core.AnimatedObject: a sprite-sheet animation whose frame counter advances when enough
    game time has accumulated. Game time is counted in TimeSpan ticks of 100 ns. */
module Animation {
  import opened Wrappers
  import opened Graphics
  import opened Numerics

  /** animationMsec = 1000 / 4 ms, in ticks. */
  const AnimationTicks: int := 2_500_000

  /** The whole state of an AnimatedObject: the private counters, then the settable properties. */
  datatype Animator = Animator(
    currentFrame: int, frameWidth: int, frameHeight: int, sinceLastFrame: int,
    spriteSheet: Option<Texture>, frameOffset: int, framesPerAnimation: int,
    horizontalFrames: int, verticalFrames: int, position: Vec)

  /** A new object: frame 0, no time accumulated, no sheet, four frames in a 4 x 4 sheet. */
  const Initial: Animator := Animator(0, 0, 0, 0, Option.None, 0, 4, 4, 4, Vec(0.0, 0.0))

  /** Whether the frame size is still to be measured from the sheet. */
  predicate NeedsFrameSize(a: Animator)
  {
    a.spriteSheet.Some? && a.frameWidth == 0 && a.frameHeight == 0
  }

  /** Update divides only by what it uses: the frame counts when it measures the frame size, the frames
      per animation when it advances. */
  predicate CanUpdate(a: Animator, elapsed: int)
  {
    (NeedsFrameSize(a) ==> a.horizontalFrames != 0 && a.verticalFrames != 0) &&
    (a.sinceLastFrame + elapsed > AnimationTicks ==> a.framesPerAnimation != 0)
  }

  /** Update: measure the frame size once, add the elapsed time, and advance one frame (dropping any excess
      time) once more than 250 ms has built up. */
  function Updated(a: Animator, elapsed: int): (b: Animator)
    requires CanUpdate(a, elapsed)
    ensures b.spriteSheet == a.spriteSheet && b.frameOffset == a.frameOffset && b.position == a.position
    ensures b.framesPerAnimation == a.framesPerAnimation
    ensures b.horizontalFrames == a.horizontalFrames && b.verticalFrames == a.verticalFrames
    ensures NeedsFrameSize(b) ==> NeedsFrameSize(a)
  {
    var sized :=
      if NeedsFrameSize(a) then
        a.(frameWidth := TruncDiv(a.spriteSheet.value.width, a.horizontalFrames),
           frameHeight := TruncDiv(a.spriteSheet.value.height, a.verticalFrames))
      else a;
    var timed := sized.(sinceLastFrame := sized.sinceLastFrame + elapsed);
    if timed.sinceLastFrame > AnimationTicks then
      timed.(currentFrame := TruncRem(timed.currentFrame + 1, timed.framesPerAnimation), sinceLastFrame := 0)
    else timed
  }

  /** The frame counter moves by at most one frame per Update: it advances, and the time resets, exactly
      when the accumulated time passes 250 ms; otherwise the time just accumulates. */
  lemma AtMostOneAdvance(a: Animator, elapsed: int)
    requires CanUpdate(a, elapsed)
    ensures var b := Updated(a, elapsed);
      if a.sinceLastFrame + elapsed > AnimationTicks
      then b.currentFrame == TruncRem(a.currentFrame + 1, a.framesPerAnimation) && b.sinceLastFrame == 0
      else b.currentFrame == a.currentFrame && b.sinceLastFrame == a.sinceLastFrame + elapsed
  {
  }

  /** With a positive frame count, the frame stays within the animation. */
  lemma FrameStaysInAnimation(a: Animator, elapsed: int)
    requires CanUpdate(a, elapsed) && a.framesPerAnimation > 0
    requires 0 <= a.currentFrame < a.framesPerAnimation
    ensures 0 <= Updated(a, elapsed).currentFrame < a.framesPerAnimation
  {
  }

  /** The frame size is measured, as the sheet's size over the frame counts, on every Update that has a sheet
      while both sides are still 0, and never changes once either side is non-zero. */
  lemma FrameSizeMeasuredOnce(a: Animator, elapsed: int)
    requires CanUpdate(a, elapsed)
    ensures var b := Updated(a, elapsed);
      if NeedsFrameSize(a)
      then b.frameWidth == TruncDiv(a.spriteSheet.value.width, a.horizontalFrames)
        && b.frameHeight == TruncDiv(a.spriteSheet.value.height, a.verticalFrames)
      else b.frameWidth == a.frameWidth && b.frameHeight == a.frameHeight
  {
  }

  /** `n` Updates of `elapsed` ticks each. */
  function UpdateMany(a: Animator, elapsed: int, n: nat): (b: Animator)
    requires a.framesPerAnimation != 0
    requires NeedsFrameSize(a) ==> a.horizontalFrames != 0 && a.verticalFrames != 0
    ensures b.framesPerAnimation == a.framesPerAnimation
    ensures b.horizontalFrames == a.horizontalFrames && b.verticalFrames == a.verticalFrames
    ensures NeedsFrameSize(b) ==> NeedsFrameSize(a)
    decreases n
  {
    if n == 0 then a else UpdateMany(Updated(a, elapsed), elapsed, n - 1)
  }

  /** The updates a frame lasts at a steady `elapsed` ticks per Update: the first count whose total time
      exceeds 250 ms. */
  function FrameLength(elapsed: int): nat
    requires elapsed > 0
  {
    AnimationTicks / elapsed + 1
  }

  /** Fewer steady Updates than a frame lasts stay within 250 ms; one more passes it. */
  lemma FrameLengthBounds(elapsed: int, k: nat)
    requires elapsed > 0
    ensures k < FrameLength(elapsed) ==> k * elapsed <= AnimationTicks
    ensures (FrameLength(elapsed) - 1) * elapsed + elapsed > AnimationTicks
  {
    var q := AnimationTicks / elapsed;
    assert q * elapsed + AnimationTicks % elapsed == AnimationTicks;
    if k < FrameLength(elapsed) {
      MulMonotone(k, q, elapsed);
    }
  }

  lemma OneMoreStep(k: nat, elapsed: int)
    ensures k * elapsed + elapsed == (k + 1) * elapsed
  {
  }

  /** Before the frame ends, k steady Updates keep the frame and accumulate k * elapsed ticks. */
  lemma {:induction false} FrameHolds(a: Animator, elapsed: int, k: nat)
    requires a.framesPerAnimation != 0 && !NeedsFrameSize(a)
    requires elapsed > 0 && a.sinceLastFrame == 0 && k * elapsed <= AnimationTicks
    ensures UpdateMany(a, elapsed, k).currentFrame == a.currentFrame
    ensures UpdateMany(a, elapsed, k).sinceLastFrame == k * elapsed
    ensures !NeedsFrameSize(UpdateMany(a, elapsed, k))
  {
    if k > 0 {
      FrameHolds(a, elapsed, k - 1);
      var b := UpdateMany(a, elapsed, k - 1);
      UpdateManyLast(a, elapsed, k);
      OneMoreStep(k - 1, elapsed);
      FrameSizeMeasuredOnce(b, elapsed);
    }
  }

  /** The last of n Updates is one Update after the first n - 1. */
  lemma {:induction false} UpdateManyLast(a: Animator, elapsed: int, n: nat)
    requires a.framesPerAnimation != 0
    requires NeedsFrameSize(a) ==> a.horizontalFrames != 0 && a.verticalFrames != 0
    requires n > 0
    ensures UpdateMany(a, elapsed, n) == Updated(UpdateMany(a, elapsed, n - 1), elapsed)
    decreases n
  {
    if n > 1 {
      UpdateManyLast(Updated(a, elapsed), elapsed, n - 1);
    }
  }

  /** The Update that ends a frame: once m steady Updates are within 250 ms and one more is not, the
      (m + 1)-th Update moves the frame on by one and resets the time. */
  lemma FrameEndsAfter(a: Animator, elapsed: int, m: nat)
    requires a.framesPerAnimation != 0 && !NeedsFrameSize(a)
    requires elapsed > 0 && a.sinceLastFrame == 0
    requires m * elapsed <= AnimationTicks < m * elapsed + elapsed
    ensures var b := UpdateMany(a, elapsed, m + 1);
      b.currentFrame == TruncRem(a.currentFrame + 1, a.framesPerAnimation) && b.sinceLastFrame == 0
  {
    FrameHolds(a, elapsed, m);
    UpdateManyLast(a, elapsed, m + 1);
    AtMostOneAdvance(UpdateMany(a, elapsed, m), elapsed);
  }

  /** At a steady positive frame time, starting just after a frame change, the animation shows each frame
      for exactly FrameLength(elapsed) Updates and then moves on to the next, with the time reset. */
  lemma SteadyFrameRate(a: Animator, elapsed: int)
    requires a.framesPerAnimation != 0 && !NeedsFrameSize(a)
    requires elapsed > 0 && a.sinceLastFrame == 0
    ensures forall k: nat :: k < FrameLength(elapsed) ==> UpdateMany(a, elapsed, k).currentFrame == a.currentFrame
    ensures var b := UpdateMany(a, elapsed, FrameLength(elapsed));
      b.currentFrame == TruncRem(a.currentFrame + 1, a.framesPerAnimation) && b.sinceLastFrame == 0
  {
    forall k: nat | k < FrameLength(elapsed)
      ensures UpdateMany(a, elapsed, k).currentFrame == a.currentFrame
    {
      FrameLengthBounds(elapsed, k);
      FrameHolds(a, elapsed, k);
    }
    var n := FrameLength(elapsed);
    FrameLengthBounds(elapsed, n - 1);
    FrameEndsAfter(a, elapsed, n - 1);
  }

  // ---------------------------------------------------------------------------------------------
  // The source rectangle

  /** The sheet region of the current frame. Frame a = currentFrame + FrameOffset sits in column
      a % VerticalFrames and row floor(a / VerticalFrames), with the column scaled by the frame height and
      the row by the frame width. */
  function FrameSource(a: Animator): Rect
    requires a.verticalFrames != 0
  {
    var actualFrame := a.currentFrame + a.frameOffset;
    var frameX := TruncRem(actualFrame, a.verticalFrames) * a.frameHeight;
    var frameY := (actualFrame as real / a.verticalFrames as real).Floor * a.frameWidth;
    Rect(frameX, frameY, a.frameWidth, a.frameHeight)
  }

  lemma FloorOfQuotient(n: nat, d: int)
    requires d > 0
    ensures (n as real / d as real).Floor == n / d
  {
    var q, r := n / d, n % d;
    assert n as real == q as real * d as real + r as real;
    assert n as real / d as real == q as real + r as real / d as real;
    assert 0.0 <= r as real / d as real < 1.0;
  }

  /** A multiple of d divided by d gives back the multiplier. */
  lemma MultipleQuotient(k: int, d: int)
    requires d > 0
    ensures (k * d) / d == k
  {
    var q, r := (k * d) / d, (k * d) % d;
    assert (k - q) * d == r;
    if k - q >= 1 {
      assert false;
    } else if k - q <= -1 {
      assert false;
    }
  }

  /** For a non-negative frame on a sheet with positive frame counts and size, the region is the frame's
      cell: column frame % VerticalFrames, row frame / VerticalFrames, and the frame is recovered from it. */
  lemma FrameSourceCell(a: Animator)
    requires a.verticalFrames > 0 && a.frameWidth > 0 && a.frameHeight > 0
    requires a.currentFrame + a.frameOffset >= 0
    ensures var r := FrameSource(a);
      var actualFrame := a.currentFrame + a.frameOffset;
      r.x == (actualFrame % a.verticalFrames) * a.frameHeight &&
      r.y == (actualFrame / a.verticalFrames) * a.frameWidth &&
      r.width == a.frameWidth && r.height == a.frameHeight &&
      (r.y / a.frameWidth) * a.verticalFrames + r.x / a.frameHeight == actualFrame
  {
    var actualFrame := a.currentFrame + a.frameOffset;
    FloorOfQuotient(actualFrame, a.verticalFrames);
    var column, row := actualFrame % a.verticalFrames, actualFrame / a.verticalFrames;
    MultipleQuotient(column, a.frameHeight);
    MultipleQuotient(row, a.frameWidth);
  }

  /** Hence two different non-negative frames of the same object are drawn from different regions. */
  lemma FramesHaveDistinctSources(a: Animator, frame: int)
    requires a.verticalFrames > 0 && a.frameWidth > 0 && a.frameHeight > 0
    requires a.currentFrame + a.frameOffset >= 0 && frame + a.frameOffset >= 0 && frame != a.currentFrame
    ensures FrameSource(a) != FrameSource(a.(currentFrame := frame))
  {
    FrameSourceCell(a);
    FrameSourceCell(a.(currentFrame := frame));
  }

  // ---------------------------------------------------------------------------------------------
  // The object

  class AnimatedObject {
    var currentFrame: int
    var frameWidth: int
    var frameHeight: int
    var timeSinceLastFrame: int
    var spriteSheet: Option<Texture>
    var frameOffset: int
    var framesPerAnimation: int
    var horizontalFrames: int
    var verticalFrames: int
    var position: Vec

    function Snapshot(): Animator
      reads this
    {
      Animator(currentFrame, frameWidth, frameHeight, timeSinceLastFrame, spriteSheet, frameOffset,
               framesPerAnimation, horizontalFrames, verticalFrames, position)
    }

    constructor ()
      ensures Snapshot() == Initial
    {
      currentFrame := 0;
      frameWidth := 0;
      frameHeight := 0;
      timeSinceLastFrame := 0;
      spriteSheet := Option.None;
      frameOffset := 0;
      framesPerAnimation := 4;
      horizontalFrames := 4;
      verticalFrames := 4;
      position := Vec(0.0, 0.0);
    }

    /** Update(gameTime), with the frame's ElapsedGameTime in ticks. */
    method Update(elapsed: int)
      requires CanUpdate(Snapshot(), elapsed)
      modifies this
      ensures Snapshot() == Updated(old(Snapshot()), elapsed)
    {
      if spriteSheet.Some? && frameWidth == 0 && frameHeight == 0 {
        frameWidth := TruncDiv(spriteSheet.value.width, horizontalFrames);
        frameHeight := TruncDiv(spriteSheet.value.height, verticalFrames);
      }
      timeSinceLastFrame := timeSinceLastFrame + elapsed;
      if timeSinceLastFrame > AnimationTicks {
        currentFrame := TruncRem(currentFrame + 1, framesPerAnimation);
        timeSinceLastFrame := 0;
      }
    }

    /** Draw: the current frame's region of the sheet at the object's position (SpriteBatch.Draw rejects a
        null texture, so a sheet is required). */
    method Draw() returns (cmd: DrawCommand)
      requires spriteSheet.Some? && verticalFrames != 0
      ensures cmd == Sprite(spriteSheet.value, position, Option.Some(FrameSource(Snapshot())), White, false)
    {
      var actualFrame := currentFrame + frameOffset;
      var frameX := TruncRem(actualFrame, verticalFrames) * frameHeight;
      var frameY := (actualFrame as real / verticalFrames as real).Floor * frameWidth;
      var frameSource := Rect(frameX, frameY, frameWidth, frameHeight);
      cmd := Sprite(spriteSheet.value, position, Option.Some(frameSource), White, false);
    }
  }
}
