/** A processed root motion and its playback sampler (Motion.h).
    The curve holds one (x, y, z, yaw) sample per frame at FRAME_PER_SEC. */
module Motions {
  import opened Vectors
  import opened Constants
  import opened Util
  import opened AssetProcess

  // ---------------------------------------------------------------- sampling

  /** The frame a time falls in: `unsigned(t * FRAME_PER_SEC)`, which for a
      non-negative time is the floor, clamped to the last key. */
  function FrameIndex(keys: seq<Vec4>, t: real): (i: nat)
    requires t >= 0.0 && |keys| > 0
    ensures i < |keys|
    ensures i as real <= t * FRAME_PER_SEC
    ensures i < |keys| - 1 ==> t * FRAME_PER_SEC < i as real + 1.0
  {
    var frame := (t * FRAME_PER_SEC).Floor;
    if frame >= |keys| then |keys| - 1 else frame
  }

  /** Motion::GetKey: the curve at time `t`, interpolated linearly between the
      frame `t` falls in and the next one, or the last key once past it. */
  function GetKey(keys: seq<Vec4>, t: real): (r: Vec4)
    requires t >= 0.0
  {
    if |keys| == 0 then Zero4
    else
      var i := FrameIndex(keys, t);
      var next := if i + 1 >= |keys| then |keys| - 1 else i + 1;
      if i == next then keys[i]
      else Lerp4(keys[i], keys[next], t * FRAME_PER_SEC - i as real)
  }

  /** An empty curve samples to the zero vector. */
  lemma GetKeyEmpty(t: real)
    requires t >= 0.0
    ensures GetKey([], t) == Zero4
  {
  }

  /** A curve of at most one key is flat: every time samples the same value. */
  lemma GetKeyFlat(keys: seq<Vec4>, t: real)
    requires t >= 0.0
    ensures |keys| == 0 ==> GetKey(keys, t) == Zero4
    ensures |keys| == 1 ==> GetKey(keys, t) == keys[0]
  {
  }

  /** At or past the last frame the sample is the last key, exactly. */
  lemma GetKeyPastLastFrame(keys: seq<Vec4>, t: real)
    requires t >= 0.0 && |keys| > 0
    requires t * FRAME_PER_SEC >= (|keys| - 1) as real
    ensures GetKey(keys, t) == keys[|keys| - 1]
  {
  }

  /** At the exact time of frame `k` the sample is key `k` (the last key for a
      frame beyond the curve). */
  lemma {:induction false} GetKeyAtFrame(keys: seq<Vec4>, k: nat)
    requires |keys| > 0
    ensures GetKey(keys, k as real * SEC_PER_FRAME) == keys[if k < |keys| then k else |keys| - 1]
  {
    var t := k as real * SEC_PER_FRAME;
    assert t * FRAME_PER_SEC == k as real;
    assert (t * FRAME_PER_SEC).Floor == k;
    var i := FrameIndex(keys, t);
    if i + 1 < |keys| {
      var a, b := keys[i], keys[i + 1];
      assert t * FRAME_PER_SEC - i as real == 0.0;
      assert Lerp4(a, b, 0.0) == Add4(Scale4(a, 1.0), Scale4(b, 0.0));
      assert Scale4(b, 0.0) == Zero4 && Scale4(a, 1.0) == a;
    }
  }

  /** Between two keys the sample is their blend by the fractional frame,
      which lies in [0, 1), so every component lies between the two keys. */
  lemma {:induction false} GetKeyInterpolates(keys: seq<Vec4>, t: real)
    requires t >= 0.0
    requires (t * FRAME_PER_SEC).Floor + 1 < |keys|
    ensures var i := (t * FRAME_PER_SEC).Floor;
      var a := t * FRAME_PER_SEC - i as real;
      && 0.0 <= a < 1.0
      && GetKey(keys, t) == Lerp4(keys[i], keys[i + 1], a)
      && Between4(GetKey(keys, t), keys[i], keys[i + 1])
  {
    var i := (t * FRAME_PER_SEC).Floor;
    var a := t * FRAME_PER_SEC - i as real;
    assert FrameIndex(keys, t) == i;
    Lerp4Between(keys[i], keys[i + 1], a);
  }

  // ---------------------------------------------------------------- motion over a step

  /** A step of a looping motion that runs past the clip end. */
  predicate Wraps(length: real, t: real, dt: real, loop: bool)
  {
    t + dt > length && loop
  }

  /** What Motion::GetMotion produces for a non-empty curve: the change of the
      sample over [t, t + dt]; a looping step past the end is the rest of this
      cycle plus the start of the next one. */
  function MotionDelta(keys: seq<Vec4>, length: real, t: real, dt: real, loop: bool): (r: Vec4)
    requires t >= 0.0 && t + dt >= 0.0 && length >= 0.0
  {
    if Wraps(length, t, dt, loop) then
      Add4(Sub4(GetKey(keys, length), GetKey(keys, t)), Sub4(GetKey(keys, t + dt - length), GetKey(keys, 0.0)))
    else
      Sub4(GetKey(keys, t + dt), GetKey(keys, t))
  }

  /** A curve of at most one key never moves, wrapping or not. */
  lemma {:induction false} FlatCurveNeverMoves(keys: seq<Vec4>, length: real, t: real, dt: real, loop: bool)
    requires t >= 0.0 && t + dt >= 0.0 && length >= 0.0
    requires |keys| <= 1
    ensures MotionDelta(keys, length, t, dt, loop) == Zero4
  {
    var k := if |keys| == 0 then Zero4 else keys[0];
    var k0 := GetKey(keys, t);
    assert k0 == k by { GetKeyFlat(keys, t); }
    if Wraps(length, t, dt, loop) {
      var k1, k2, k3 := GetKey(keys, length), GetKey(keys, t + dt - length), GetKey(keys, 0.0);
      assert k1 == k by { GetKeyFlat(keys, length); }
      assert k2 == k by { GetKeyFlat(keys, t + dt - length); }
      assert k3 == k by { GetKeyFlat(keys, 0.0); }
      assert MotionDelta(keys, length, t, dt, loop) == Add4(Sub4(k1, k0), Sub4(k2, k3));
      FlatSteps(k, k0, k1, k2, k3);
    } else {
      var k1 := GetKey(keys, t + dt);
      assert k1 == k by { GetKeyFlat(keys, t + dt); }
      assert MotionDelta(keys, length, t, dt, loop) == Sub4(k1, k0);
      FlatSteps(k, k0, k1, k1, k1);
    }
  }

  lemma FlatSteps(k: Vec4, k0: Vec4, k1: Vec4, k2: Vec4, k3: Vec4)
    requires k0 == k && k1 == k && k2 == k && k3 == k
    ensures Sub4(k1, k0) == Zero4 && Add4(Sub4(k1, k0), Sub4(k2, k3)) == Zero4
  {
  }

  /** A wrapping step is the sum of two non-looping steps: the tail of the clip
      from `t`, and the head of the clip up to the time left over. */
  lemma MotionDeltaWrapSplit(keys: seq<Vec4>, length: real, t: real, dt: real)
    requires t >= 0.0 && t + dt >= 0.0 && length >= 0.0
    requires Wraps(length, t, dt, true)
    ensures MotionDelta(keys, length, t, dt, true)
      == Add4(MotionDelta(keys, length, t, length - t, false),
              MotionDelta(keys, length, 0.0, t + dt - length, false))
  {
  }

  /** A step that does not wrap moves by the difference of the two samples;
      an empty step does not move. */
  lemma MotionDeltaNoWrap(keys: seq<Vec4>, length: real, t: real, dt: real, loop: bool)
    requires t >= 0.0 && t + dt >= 0.0 && length >= 0.0
    requires !Wraps(length, t, dt, loop)
    ensures MotionDelta(keys, length, t, dt, loop) == Sub4(GetKey(keys, t + dt), GetKey(keys, t))
    ensures dt == 0.0 ==> MotionDelta(keys, length, t, dt, loop) == Zero4
  {
  }

  /** Two consecutive non-wrapping steps move as far as the single step that
      covers both. */
  lemma MotionDeltaAdditive(keys: seq<Vec4>, length: real, t: real, dt1: real, dt2: real, loop: bool)
    requires t >= 0.0 && t + dt1 >= 0.0 && t + dt1 + dt2 >= 0.0 && length >= 0.0
    requires !Wraps(length, t, dt1, loop) && !Wraps(length, t + dt1, dt2, loop)
    ensures Add4(MotionDelta(keys, length, t, dt1, loop), MotionDelta(keys, length, t + dt1, dt2, loop))
      == MotionDelta(keys, length, t, dt1 + dt2, loop)
  {
    var k1, k2, k3 := GetKey(keys, t), GetKey(keys, t + dt1), GetKey(keys, t + (dt1 + dt2));
    assert t + dt1 + dt2 == t + (dt1 + dt2);
    assert MotionDelta(keys, length, t, dt1, loop) == Sub4(k2, k1);
    assert MotionDelta(keys, length, t + dt1, dt2, loop) == Sub4(k3, k2);
    assert MotionDelta(keys, length, t, dt1 + dt2, loop) == Sub4(k3, k1);
    SubTelescopes(k1, k2, k3);
  }

  lemma SubTelescopes(a: Vec4, b: Vec4, c: Vec4)
    ensures Add4(Sub4(b, a), Sub4(c, b)) == Sub4(c, a)
  {
  }

  /** The sum of the durations of a run of simulation steps. */
  function Elapsed(steps: seq<real>): real
  {
    if steps == [] then 0.0 else steps[0] + Elapsed(steps[1..])
  }

  /** Each step of the run starts and ends at a non-negative time and none wraps. */
  predicate SteadySteps(length: real, t: real, steps: seq<real>, loop: bool)
    decreases |steps|
  {
    t >= 0.0 && (steps != [] ==>
      t + steps[0] >= 0.0 && !Wraps(length, t, steps[0], loop)
      && SteadySteps(length, t + steps[0], steps[1..], loop))
  }

  /** The motion a controller accumulates by applying one step after another. */
  function Accumulated(keys: seq<Vec4>, length: real, t: real, steps: seq<real>, loop: bool): Vec4
    requires length >= 0.0 && SteadySteps(length, t, steps, loop)
    decreases |steps|
  {
    if steps == [] then Zero4
    else Add4(MotionDelta(keys, length, t, steps[0], loop),
              Accumulated(keys, length, t + steps[0], steps[1..], loop))
  }

  /** Accumulating non-wrapping steps telescopes: the total is the change of
      the sample from the first time to the last. */
  lemma {:induction false} AccumulatedTelescopes(keys: seq<Vec4>, length: real, t: real, steps: seq<real>, loop: bool)
    requires length >= 0.0 && SteadySteps(length, t, steps, loop)
    ensures t + Elapsed(steps) >= 0.0
    ensures Accumulated(keys, length, t, steps, loop) == Sub4(GetKey(keys, t + Elapsed(steps)), GetKey(keys, t))
    decreases |steps|
  {
    if steps != [] {
      var t', rest := t + steps[0], steps[1..];
      AccumulatedTelescopes(keys, length, t', rest, loop);
      var t'' := t + Elapsed(steps);
      assert t' + Elapsed(rest) == t'';
      var k0, k1, k2 := GetKey(keys, t), GetKey(keys, t'), GetKey(keys, t'');
      var d, acc := MotionDelta(keys, length, t, steps[0], loop), Accumulated(keys, length, t', rest, loop);
      assert acc == Sub4(k2, k1);
      assert d == Sub4(k1, k0) by {
        MotionDeltaNoWrap(keys, length, t, steps[0], loop);
      }
      assert Accumulated(keys, length, t, steps, loop) == Add4(d, acc);
      TelescopeStep(Add4(d, acc), d, acc, k0, k1, k2);
    } else {
      assert Elapsed(steps) == 0.0;
      SubSelf(GetKey(keys, t));
    }
  }

  lemma TelescopeStep(total: Vec4, d: Vec4, acc: Vec4, k0: Vec4, k1: Vec4, k2: Vec4)
    requires total == Add4(d, acc) && d == Sub4(k1, k0) && acc == Sub4(k2, k1)
    ensures total == Sub4(k2, k0)
  {
    SubTelescopes(k0, k1, k2);
  }

  lemma SubSelf(a: Vec4)
    ensures Sub4(a, a) == Zero4
  {
  }

  // ---------------------------------------------------------------- a constant-velocity clip

  /** A curve that moves by `velocity` every frame, starting at zero. */
  function Ramp(velocity: Vec4, frames: nat): seq<Vec4>
  {
    seq(frames, k requires 0 <= k < frames => Scale4(velocity, k as real))
  }

  lemma RampBlend(x: real, i: real, a: real)
    ensures x * i * (1.0 - a) + x * (i + 1.0) * a == x * (i + a)
  {
  }

  lemma ScaleDifference(v: Vec4, p: real, q: real)
    ensures Sub4(Scale4(v, p), Scale4(v, q)) == Scale4(v, p - q)
  {
    assert v.x * p - v.x * q == v.x * (p - q);
    assert v.y * p - v.y * q == v.y * (p - q);
    assert v.z * p - v.z * q == v.z * (p - q);
    assert v.w * p - v.w * q == v.w * (p - q);
  }

  lemma ScaleSum(v: Vec4, p: real, q: real)
    ensures Add4(Scale4(v, p), Scale4(v, q)) == Scale4(v, p + q)
  {
    assert v.x * p + v.x * q == v.x * (p + q);
    assert v.y * p + v.y * q == v.y * (p + q);
    assert v.z * p + v.z * q == v.z * (p + q);
    assert v.w * p + v.w * q == v.w * (p + q);
  }

  lemma RampLerp(v: Vec4, i: real, a: real, k1: Vec4, k2: Vec4)
    requires k1 == Scale4(v, i) && k2 == Scale4(v, i + 1.0)
    ensures Lerp4(k1, k2, a) == Scale4(v, i + a)
  {
    RampBlend(v.x, i, a);
    RampBlend(v.y, i, a);
    RampBlend(v.z, i, a);
    RampBlend(v.w, i, a);
  }

  /** On a constant-velocity curve the sample at any time up to the last frame
      is the velocity times the elapsed frames. */
  lemma {:induction false} RampKey(velocity: Vec4, frames: nat, t: real)
    requires frames > 0 && t >= 0.0
    requires t * FRAME_PER_SEC <= (frames - 1) as real
    ensures GetKey(Ramp(velocity, frames), t) == Scale4(velocity, t * FRAME_PER_SEC)
  {
    var keys := Ramp(velocity, frames);
    var f := t * FRAME_PER_SEC;
    var i := FrameIndex(keys, t);
    assert i == f.Floor;
    if i + 1 < frames {
      var a := f - i as real;
      var k1, k2 := keys[i], keys[i + 1];
      assert k1 == Scale4(velocity, i as real) && k2 == Scale4(velocity, i as real + 1.0);
      assert i as real + a == f;
      RampLerp(velocity, i as real, a, k1, k2);
    } else {
      assert f == i as real;
    }
  }

  lemma TailAlgebra(v: Vec4, a: Vec4, b: Vec4, c: Vec4, d: Vec4, length: real, t: real, dt: real)
    requires a == Scale4(v, length * FRAME_PER_SEC) && b == Scale4(v, t * FRAME_PER_SEC)
    requires c == Scale4(v, (t + dt - length) * FRAME_PER_SEC) && d == Scale4(v, 0.0 * FRAME_PER_SEC)
    ensures Add4(Sub4(a, b), Sub4(c, d)) == Scale4(v, dt * FRAME_PER_SEC)
  {
    var f, rest := FRAME_PER_SEC, t + dt - length;
    ScaleDifference(v, length * f, t * f);
    ScaleDifference(v, rest * f, 0.0 * f);
    ScaleSum(v, length * f - t * f, rest * f - 0.0 * f);
    assert (length * f - t * f) + (rest * f - 0.0 * f) == dt * f;
  }

  lemma {:induction false} RampTail(velocity: Vec4, frames: nat, length: real, t: real, dt: real)
    requires frames > 0 && (frames - 1) as real == length * FRAME_PER_SEC
    requires 0.0 <= t <= length && length < t + dt <= 2.0 * length
    ensures MotionDelta(Ramp(velocity, frames), length, t, dt, true) == Scale4(velocity, dt * FRAME_PER_SEC)
  {
    var keys := Ramp(velocity, frames);
    RampKey(velocity, frames, length);
    RampKey(velocity, frames, t);
    RampKey(velocity, frames, t + dt - length);
    RampKey(velocity, frames, 0.0);
    TailAlgebra(velocity, GetKey(keys, length), GetKey(keys, t), GetKey(keys, t + dt - length), GetKey(keys, 0.0), length, t, dt);
  }

  lemma {:induction false} RampSteady(velocity: Vec4, frames: nat, length: real, t: real, dt: real, loop: bool)
    requires frames > 0 && (frames - 1) as real == length * FRAME_PER_SEC
    requires 0.0 <= t <= length && 0.0 <= t + dt <= length
    ensures MotionDelta(Ramp(velocity, frames), length, t, dt, loop) == Scale4(velocity, dt * FRAME_PER_SEC)
  {
    var keys, f := Ramp(velocity, frames), FRAME_PER_SEC;
    var a, b := GetKey(keys, t + dt), GetKey(keys, t);
    assert a == Scale4(velocity, (t + dt) * f) by { RampKey(velocity, frames, t + dt); }
    assert b == Scale4(velocity, t * f) by { RampKey(velocity, frames, t); }
    assert Sub4(a, b) == Scale4(velocity, dt * f) by {
      ScaleDifference(velocity, (t + dt) * f, t * f);
      assert (t + dt) * f - t * f == dt * f;
    }
  }

  /** Looping a clip whose length spans its frames exactly loses nothing at
      the seam: every step of at most one lap, wrapping or not, moves by the
      velocity times the frames stepped. */
  lemma {:induction false} RampStep(velocity: Vec4, frames: nat, length: real, t: real, dt: real, loop: bool)
    requires frames > 0 && (frames - 1) as real == length * FRAME_PER_SEC
    requires 0.0 <= t <= length && t + dt >= 0.0
    requires t + dt <= (if loop then 2.0 * length else length)
    ensures MotionDelta(Ramp(velocity, frames), length, t, dt, loop) == Scale4(velocity, dt * FRAME_PER_SEC)
  {
    if Wraps(length, t, dt, loop) {
      RampTail(velocity, frames, length, t, dt);
    } else {
      RampSteady(velocity, frames, length, t, dt, loop);
    }
  }

  // ---------------------------------------------------------------- the motion object

  /** What the root-motion extraction hands back: the per-frame curve, the
      offset of the clip's start from the rig origin, and the pre-rotation it applied. */
  datatype Extraction = Extraction(keys: seq<Vec4>, startFromOrigin: Vec4, rotateAngle: real)

  function EndFrameFor(frame: int, keyCount: nat): int
  {
    if frame < 0 then keyCount - 1 else frame
  }

  class Motion {
    var name: string
    var animationName: string
    var animation: Animation?
    var motionKeys: seq<Vec4>
    var endTime: real
    var looped: bool
    var startFromOrigin: Vec4
    var endFrame: int
    var motionFlag: bv32
    var allowMotion: bv32
    var rotateAngle: real
    var processed: bool

    /** A configured, not yet processed motion. */
    constructor (name: string, endFrame: int, motionFlag: bv32, allowMotion: bv32, looped: bool, rotateAngle: real)
      ensures this.name == name && this.endFrame == endFrame && this.looped == looped
      ensures this.motionFlag == motionFlag && this.allowMotion == allowMotion && this.rotateAngle == rotateAngle
      ensures !processed && animation == null && motionKeys == []
    {
      this.name := name;
      this.animationName := "";
      this.animation := null;
      this.motionKeys := [];
      this.endTime := 0.0;
      this.looped := looped;
      this.startFromOrigin := Zero4;
      this.endFrame := endFrame;
      this.motionFlag := motionFlag;
      this.allowMotion := allowMotion;
      this.rotateAngle := rotateAngle;
      this.processed := false;
    }

    /** A negative frame means the whole clip: the last key and the clip's
        length; otherwise the frame and its time. */
    method SetEndFrame(frame: int)
      requires frame < 0 ==> animation != null
      modifies this`endFrame, this`endTime
      ensures endFrame == EndFrameFor(frame, |motionKeys|)
      ensures frame < 0 ==> endTime == animation.length
      ensures frame >= 0 ==> endTime == frame as real * SEC_PER_FRAME
    {
      endFrame := frame;
      if endFrame < 0 {
        endFrame := |motionKeys| - 1;
        endTime := animation.length;
      } else {
        endTime := endFrame as real * SEC_PER_FRAME;
      }
    }

    /** The motion over [t, t + dt]; an empty curve leaves `outMotion` as it was. */
    method GetMotion(t: real, dt: real, loop: bool, outMotion: Vec4) returns (r: Vec4)
      requires t >= 0.0 && t + dt >= 0.0
      requires motionKeys != [] ==> animation != null && animation.length >= 0.0
      ensures motionKeys == [] ==> r == outMotion
      ensures motionKeys != [] ==> r == MotionDelta(motionKeys, animation.length, t, dt, loop)
      decreases loop
    {
      if motionKeys == [] {
        return outMotion;
      }
      var futureTime := t + dt;
      if futureTime > animation.length && loop {
        var t1 := GetMotion(t, animation.length - t, false, Zero4);
        var t2 := GetMotion(0.0, t + dt - animation.length, false, Zero4);
        r := Add4(t1, t2);
      } else {
        var k1 := GetKey(motionKeys, t);
        var k2 := GetKey(motionKeys, futureTime);
        r := Sub4(k2, k1);
      }
    }

    /** The translation part of the start offset; with its yaw it is the whole offset. */
    function GetStartPos(): (r: Vec3)
      reads this
      ensures Vec4(r.x, r.y, r.z, startFromOrigin.w) == startFromOrigin
    {
      Vec3(startFromOrigin.x, startFromOrigin.y, startFromOrigin.z)
    }

    /** The start yaw undoes the pre-rotation applied during processing. */
    function GetStartRot(): (r: real)
      reads this
      ensures r + rotateAngle == 0.0
    {
      -rotateAngle
    }

    /** Loads the animation and extracts the curve, once. `cache` stands for the
        resource cache; `processAnimation` for the rig's extraction, which
        takes the animation name, the extract and allow masks and the requested
        pre-rotation. */
    method Process(cache: map<string, Animation>, processAnimation: (string, bv32, bv32, real) -> Extraction)
      requires forall a | a in cache.Values :: a.length >= 0.0
      modifies this
      ensures old(processed) ==> unchanged(this)
      ensures name == old(name) && looped == old(looped)
      ensures motionFlag == old(motionFlag) && allowMotion == old(allowMotion)
      ensures !old(processed) ==> animationName == GetAnimationName(name)
      ensures !old(processed) && animationName !in cache ==>
        && !processed && animation == null
        && motionKeys == old(motionKeys) && startFromOrigin == old(startFromOrigin)
        && rotateAngle == old(rotateAngle) && endFrame == old(endFrame) && endTime == old(endTime)
      ensures !old(processed) && animationName in cache ==>
        var extraction := processAnimation(animationName, motionFlag, allowMotion, old(rotateAngle));
        && processed && animation == cache[animationName]
        && motionKeys == extraction.keys && startFromOrigin == extraction.startFromOrigin
        && rotateAngle == extraction.rotateAngle
        && endFrame == EndFrameFor(old(endFrame), |motionKeys|)
        && (old(endFrame) < 0 ==> endTime == animation.length)
        && (old(endFrame) >= 0 ==> endTime == old(endFrame) as real * SEC_PER_FRAME)
      ensures !old(processed) && processed ==> animation != null && animation.length >= 0.0
    {
      if processed {
        return;
      }
      animationName := GetAnimationName(name);
      if animationName !in cache {
        animation := null;
        return;
      }
      animation := cache[animationName];
      var extraction := processAnimation(animationName, motionFlag, allowMotion, rotateAngle);
      motionKeys := extraction.keys;
      startFromOrigin := extraction.startFromOrigin;
      rotateAngle := extraction.rotateAngle;
      SetEndFrame(endFrame);
      processed := true;
    }
  }
}
