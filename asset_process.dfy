/** Root-motion flags and the in-place key-frame track edits of the asset
    processor (AssetProcess.h). */
module AssetProcess {
  import opened Vectors
  import opened Constants

  // ---------------------------------------------------------------- RootMotionFlag

  const MOTION_NONE: bv32 := 0
  const MOTION_X: bv32 := 1 << 0
  const MOTION_Y: bv32 := 1 << 1
  const MOTION_Z: bv32 := 1 << 2
  const MOTION_R: bv32 := 1 << 3

  const MOTION_EXT_ROTATE_FROM_START: bv32 := 1 << 4
  const MOTION_EXT_DEBUG_DUMP: bv32 := 1 << 5
  const MOTION_EXT_ADJUST_Y: bv32 := 1 << 6
  const MOTION_EXT_FOOT_BASED_HEIGHT: bv32 := 1 << 7

  const MOTION_XZR: bv32 := MOTION_X | MOTION_Z | MOTION_R
  const MOTION_YZR: bv32 := MOTION_Y | MOTION_Z | MOTION_R
  const MOTION_XYR: bv32 := MOTION_X | MOTION_Y | MOTION_R
  const MOTION_XZ: bv32 := MOTION_X | MOTION_Z
  const MOTION_XR: bv32 := MOTION_X | MOTION_R
  const MOTION_ZR: bv32 := MOTION_Z | MOTION_R
  const MOTION_XY: bv32 := MOTION_X | MOTION_Y
  const MOTION_YZ: bv32 := MOTION_Y | MOTION_Z
  const MOTION_XYZ: bv32 := MOTION_XZ | MOTION_Y
  const MOTION_ALL: bv32 := MOTION_XZR | MOTION_Y

  /** The eight elementary flags: four axes, then four extensions. */
  const ELEMENTARY_FLAGS: seq<bv32> := [MOTION_X, MOTION_Y, MOTION_Z, MOTION_R,
    MOTION_EXT_ROTATE_FROM_START, MOTION_EXT_DEBUG_DUMP, MOTION_EXT_ADJUST_Y, MOTION_EXT_FOOT_BASED_HEIGHT]

  const EXTENSION_FLAGS: bv32 := MOTION_EXT_ROTATE_FROM_START | MOTION_EXT_DEBUG_DUMP
    | MOTION_EXT_ADJUST_Y | MOTION_EXT_FOOT_BASED_HEIGHT

  predicate SingleBit(f: bv32)
  {
    f != 0 && f & (f - 1) == 0
  }

  /** Each elementary flag is one bit, and no two share it. */
  lemma ElementaryFlagsAreDistinctBits()
    ensures |ELEMENTARY_FLAGS| == 8
    ensures forall i :: 0 <= i < 8 ==> SingleBit(ELEMENTARY_FLAGS[i])
    ensures forall i, j :: 0 <= i < j < 8 ==> ELEMENTARY_FLAGS[i] & ELEMENTARY_FLAGS[j] == 0
  {
  }

  /** The composite masks are the unions of the axes they name; ALL holds the
      four axes and no extension. */
  lemma CompositeMasks()
    ensures MOTION_XZR == MOTION_X | MOTION_Z | MOTION_R
    ensures MOTION_XYZ == MOTION_X | MOTION_Y | MOTION_Z
    ensures MOTION_ALL == MOTION_X | MOTION_Y | MOTION_Z | MOTION_R
    ensures MOTION_ALL & EXTENSION_FLAGS == 0
    ensures MOTION_ALL == 15 && EXTENSION_FLAGS == 240
    ensures MOTION_XZR & MOTION_Y == 0 && MOTION_YZR & MOTION_X == 0 && MOTION_XYR & MOTION_Z == 0
  {
  }

  // ---------------------------------------------------------------- key-frame tracks

  /** One sample of a bone's local transform; the scale channel is not modelled. */
  datatype KeyFrame = KeyFrame(time: real, position: Vec3, rotation: Quat)

  /** A bone's track; the engine stores its key-frames in a buffer that the
      processor rewrites in place. */
  class AnimationTrack {
    var keyFrames: array<KeyFrame>

    constructor (frames: seq<KeyFrame>)
      ensures fresh(keyFrames) && keyFrames[..] == frames
    {
      keyFrames := new KeyFrame[|frames|](i requires 0 <= i < |frames| => frames[i]);
    }
  }

  /** An animation resource: its length in seconds and its tracks by bone name. */
  class Animation {
    var length: real
    var tracks: map<string, AnimationTrack>

    /** Lengths are never negative, and the two root-motion tracks are separate buffers. */
    ghost predicate Valid()
      reads this, tracks.Values
    {
      && length >= 0.0
      && (TRANSLATE_BONE_NAME in tracks && ROTATE_BONE_NAME in tracks ==>
            tracks[TRANSLATE_BONE_NAME].keyFrames != tracks[ROTATE_BONE_NAME].keyFrames)
    }

    constructor (length: real, tracks: map<string, AnimationTrack>)
      ensures this.length == length && this.tracks == tracks
    {
      this.length := length;
      this.tracks := tracks;
    }
  }

  /** The key-frame buffer of the named track, or nothing when the track is absent. */
  function TrackBuffer(anim: Animation, name: string): set<object>
    reads anim, anim.tracks.Values
  {
    if name in anim.tracks then {anim.tracks[name].keyFrames} else {}
  }

  /** A key-frame moved by `diff`. */
  function Shifted(kf: KeyFrame, diff: Vec3): KeyFrame
  {
    kf.(position := Add3(kf.position, diff))
  }

  /** Every key-frame moved by `diff`. */
  function Translated(frames: seq<KeyFrame>, diff: Vec3): seq<KeyFrame>
  {
    seq(|frames|, i requires 0 <= i < |frames| => Shifted(frames[i], diff))
  }

  /** Translating keeps the number, order, times and rotations of the
      key-frames and moves each position by `diff`. */
  lemma TranslatedFrames(frames: seq<KeyFrame>, diff: Vec3)
    ensures |Translated(frames, diff)| == |frames|
    ensures forall i :: 0 <= i < |frames| ==>
      && Translated(frames, diff)[i].time == frames[i].time
      && Translated(frames, diff)[i].rotation == frames[i].rotation
      && Translated(frames, diff)[i].position == Add3(frames[i].position, diff)
  {
  }

  /** Two translations are one translation by the summed offset. */
  lemma {:induction false} TranslatedTwice(frames: seq<KeyFrame>, a: Vec3, b: Vec3)
    ensures Translated(Translated(frames, a), b) == Translated(frames, Add3(a, b))
  {
    var lhs, rhs := Translated(Translated(frames, a), b), Translated(frames, Add3(a, b));
    assert |lhs| == |rhs|;
    forall i | 0 <= i < |lhs| ensures lhs[i] == rhs[i] {
    }
  }

  /** Translating by `diff` and then by `-diff` restores the key-frames. */
  lemma {:induction false} TranslateRoundTrip(frames: seq<KeyFrame>, diff: Vec3)
    ensures Translated(Translated(frames, diff), Neg3(diff)) == frames
  {
    TranslatedTwice(frames, diff, Neg3(diff));
    var back := Translated(frames, Add3(diff, Neg3(diff)));
    assert |back| == |frames|;
    forall i | 0 <= i < |frames| ensures back[i] == frames[i] {
    }
  }

  /** The loop of TranslateAnimation over one key-frame buffer. */
  method TranslateKeyFrames(keyFrames: array<KeyFrame>, diff: Vec3)
    modifies keyFrames
    ensures keyFrames[..] == Translated(old(keyFrames[..]), diff)
  {
    var i := 0;
    while i < keyFrames.Length
      invariant 0 <= i <= keyFrames.Length
      invariant forall j :: 0 <= j < i ==> keyFrames[j] == Shifted(old(keyFrames[j]), diff)
      invariant forall j :: i <= j < keyFrames.Length ==> keyFrames[j] == old(keyFrames[j])
    {
      var kf := keyFrames[i];
      kf := kf.(position := Add3(kf.position, diff));
      keyFrames[i] := kf;
      i := i + 1;
    }
  }

  /** Adds `diff` to every key-frame position of the translate track, in place;
      an animation without that track is left alone. */
  method TranslateAnimation(anim: Animation, diff: Vec3)
    modifies TrackBuffer(anim, TRANSLATE_BONE_NAME)
    ensures TRANSLATE_BONE_NAME in anim.tracks ==>
      anim.tracks[TRANSLATE_BONE_NAME].keyFrames[..]
        == Translated(old(anim.tracks[TRANSLATE_BONE_NAME].keyFrames[..]), diff)
  {
    if TRANSLATE_BONE_NAME in anim.tracks {
      TranslateKeyFrames(anim.tracks[TRANSLATE_BONE_NAME].keyFrames, diff);
    }
  }

  // ---------------------------------------------------------------- re-orientation

  /** Every key-frame rotation replaced by its turned counterpart. */
  function TurnedRotations(frames: seq<KeyFrame>, turnRotation: Quat -> Quat): seq<KeyFrame>
  {
    seq(|frames|, i requires 0 <= i < |frames| => frames[i].(rotation := turnRotation(frames[i].rotation)))
  }

  /** Every key-frame position replaced by its turned counterpart. */
  function TurnedPositions(frames: seq<KeyFrame>, turnVector: Vec3 -> Vec3): seq<KeyFrame>
  {
    seq(|frames|, i requires 0 <= i < |frames| => frames[i].(position := turnVector(frames[i].position)))
  }

  /** Turning a track touches one channel only: key-frame count, order and
      times stay, and so does the other channel. */
  lemma TurnedFrames(frames: seq<KeyFrame>, turnRotation: Quat -> Quat, turnVector: Vec3 -> Vec3)
    ensures |TurnedRotations(frames, turnRotation)| == |TurnedPositions(frames, turnVector)| == |frames|
    ensures forall i :: 0 <= i < |frames| ==>
      && TurnedRotations(frames, turnRotation)[i].time == frames[i].time
      && TurnedRotations(frames, turnRotation)[i].position == frames[i].position
      && TurnedPositions(frames, turnVector)[i].time == frames[i].time
      && TurnedPositions(frames, turnVector)[i].rotation == frames[i].rotation
  {
  }

  /** The rotate-track loop of RotateAnimation over one key-frame buffer. */
  method TurnKeyFrameRotations(keyFrames: array<KeyFrame>, turnRotation: Quat -> Quat)
    modifies keyFrames
    ensures keyFrames[..] == TurnedRotations(old(keyFrames[..]), turnRotation)
  {
    var i := 0;
    while i < keyFrames.Length
      invariant 0 <= i <= keyFrames.Length
      invariant forall j :: 0 <= j < i ==>
        keyFrames[j] == old(keyFrames[j]).(rotation := turnRotation(old(keyFrames[j]).rotation))
      invariant forall j :: i <= j < keyFrames.Length ==> keyFrames[j] == old(keyFrames[j])
    {
      var kf := keyFrames[i];
      kf := kf.(rotation := turnRotation(kf.rotation));
      keyFrames[i] := kf;
      i := i + 1;
    }
  }

  /** The translate-track loop of RotateAnimation over one key-frame buffer. */
  method TurnKeyFramePositions(keyFrames: array<KeyFrame>, turnVector: Vec3 -> Vec3)
    modifies keyFrames
    ensures keyFrames[..] == TurnedPositions(old(keyFrames[..]), turnVector)
  {
    var i := 0;
    while i < keyFrames.Length
      invariant 0 <= i <= keyFrames.Length
      invariant forall j :: 0 <= j < i ==>
        keyFrames[j] == old(keyFrames[j]).(position := turnVector(old(keyFrames[j]).position))
      invariant forall j :: i <= j < keyFrames.Length ==> keyFrames[j] == old(keyFrames[j])
    {
      var kf := keyFrames[i];
      kf := kf.(position := turnVector(kf.position));
      keyFrames[i] := kf;
      i := i + 1;
    }
  }

  /** Re-orients a clip in place by a fixed yaw. The yaw quaternion and the
      probe-node round trip (local -> world, pre-multiply, world -> local) are
      engine math: `turnRotation` is that round trip for one rotate-track
      rotation, `turnVector` the yaw applied to one translate-track position. */
  method RotateAnimation(anim: Animation, turnRotation: Quat -> Quat, turnVector: Vec3 -> Vec3)
    requires anim.Valid()
    modifies TrackBuffer(anim, ROTATE_BONE_NAME), TrackBuffer(anim, TRANSLATE_BONE_NAME)
    ensures ROTATE_BONE_NAME in anim.tracks ==>
      anim.tracks[ROTATE_BONE_NAME].keyFrames[..]
        == TurnedRotations(old(anim.tracks[ROTATE_BONE_NAME].keyFrames[..]), turnRotation)
    ensures TRANSLATE_BONE_NAME in anim.tracks ==>
      anim.tracks[TRANSLATE_BONE_NAME].keyFrames[..]
        == TurnedPositions(old(anim.tracks[TRANSLATE_BONE_NAME].keyFrames[..]), turnVector)
  {
    if ROTATE_BONE_NAME in anim.tracks {
      TurnKeyFrameRotations(anim.tracks[ROTATE_BONE_NAME].keyFrames, turnRotation);
    }
    if TRANSLATE_BONE_NAME in anim.tracks {
      TurnKeyFramePositions(anim.tracks[TRANSLATE_BONE_NAME].keyFrames, turnVector);
    }
  }
}
