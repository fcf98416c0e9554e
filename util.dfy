/** Free helper functions of the game tools (Util.h): position filtering,
    resource names, angle normalisation and flag bits. */
module Util {
  import opened Vectors
  import opened Constants

  // ---------------------------------------------------------------- positions

  /** The engine's Clamp: below the range gives `lo`, above it `hi`. */
  function Clamp(v: real, lo: real, hi: real): real
  {
    if v < lo then lo else if v > hi then hi else v
  }

  /** Distance between two points of a line. */
  function Dist(a: real, b: real): real { if a < b then b - a else a - b }

  /** Clearance kept from the world border. */
  const BORDER: real := COLLISION_RADIUS + 1.0
  const MIN_X: real := BORDER - WORLD_HALF_SIZE_X
  const MAX_X: real := WORLD_HALF_SIZE_X - BORDER
  const MIN_Z: real := BORDER - WORLD_HALF_SIZE_Z
  const MAX_Z: real := WORLD_HALF_SIZE_Z - BORDER

  /** On the ground plane, inside the world box shrunk by the border. */
  predicate InWorld(p: Vec3)
  {
    MIN_X <= p.x <= MAX_X && MIN_Z <= p.z <= MAX_Z
  }

  /** `r` is the point of [lo, hi] closest to `v`. */
  ghost predicate Nearest(r: real, v: real, lo: real, hi: real)
  {
    lo <= r <= hi && forall u :: lo <= u <= hi ==> Dist(r, v) <= Dist(u, v)
  }

  /** Keeps a character inside the world: X and Z are moved to the nearest
      point of the box, the height is kept. */
  function FilterPosition(position: Vec3): (r: Vec3)
    ensures r.y == position.y
    ensures InWorld(r)
    ensures Nearest(r.x, position.x, MIN_X, MAX_X) && Nearest(r.z, position.z, MIN_Z, MAX_Z)
    ensures InWorld(position) ==> r == position
  {
    Vec3(Clamp(position.x, MIN_X, MAX_X), position.y, Clamp(position.z, MIN_Z, MAX_Z))
  }

  /** The box is [-997.5, 997.5] on both ground axes. */
  lemma WorldBox()
    ensures MIN_X == MIN_Z == -997.5 && MAX_X == MAX_Z == 997.5
  {
  }

  lemma FilterPositionIdempotent(p: Vec3)
    ensures FilterPosition(FilterPosition(p)) == FilterPosition(p)
  {
  }

  // ---------------------------------------------------------------- names

  const ANIMATION_FOLDER: string := "Animations/"
  const TAKE_SUFFIX: string := "_Take 001.ani"

  /** The resource name of a motion's animation: folder, motion name, take suffix. */
  function GetAnimationName(name: string): (r: string)
    ensures |r| == |ANIMATION_FOLDER| + |name| + |TAKE_SUFFIX|
    ensures r[..|ANIMATION_FOLDER|] == ANIMATION_FOLDER
    ensures r[|ANIMATION_FOLDER|..|r| - |TAKE_SUFFIX|] == name
    ensures r[|r| - |TAKE_SUFFIX|..] == TAKE_SUFFIX
  {
    ANIMATION_FOLDER + name + TAKE_SUFFIX
  }

  /** A file name with its last 13 characters (the take suffix) dropped. */
  function FileNameToMotionName(name: string): (r: string)
    requires |name| >= 13
    ensures |r| == |name| - 13
    ensures r + name[|r|..] == name
  {
    name[..|name| - 13]
  }

  /** Stripping a motion's own file suffix gives back the motion name. */
  lemma {:induction false} MotionNameOfFileName(name: string)
    ensures |TAKE_SUFFIX| == 13
    ensures FileNameToMotionName(name + TAKE_SUFFIX) == name
  {
    var file := name + TAKE_SUFFIX;
    assert file[..|name|] == name;
  }

  // ---------------------------------------------------------------- angles

  /** One correction of at most a full turn towards [-180, 180]. */
  function ClampAngle(angle: real): (r: real)
    ensures -180.0 <= angle <= 180.0 ==> r == angle
    ensures r == angle || r == angle - 360.0 || r == angle + 360.0
    ensures -540.0 <= angle <= 540.0 ==> -180.0 <= r <= 180.0
    ensures angle > 180.0 ==> r == angle - 360.0
    ensures angle < -180.0 ==> r == angle + 360.0
  {
    var a := if angle > 180.0 then angle - 360.0 else angle;
    if a < -180.0 then a + 360.0 else a
  }

  lemma ClampAngleIdempotent(angle: real)
    requires -540.0 <= angle <= 540.0
    ensures ClampAngle(ClampAngle(angle)) == ClampAngle(angle)
  {
  }

  // ---------------------------------------------------------------- flags

  /** Whether the word shares a bit with `flag`. */
  function HasFlag(flags: bv32, flag: bv32): (r: bool)
    ensures r ==> flags != 0 && flag != 0
    ensures flag != 0 && flags & flag == flag ==> r
  {
    flags & flag != 0
  }

  /** `r` agrees with `flags` on every bit outside `flag`. */
  predicate SameOutside(r: bv32, flags: bv32, flag: bv32)
  {
    r & !flag == flags & !flag
  }

  /** The flag word with the bits of `flag` set and every other bit kept. */
  function SetFlag(flags: bv32, flag: bv32): (r: bv32)
    ensures r & flag == flag
    ensures SameOutside(r, flags, flag)
  {
    flags | flag
  }

  /** The flag word with the bits of `flag` cleared and every other bit kept. */
  function ClearFlag(flags: bv32, flag: bv32): (r: bv32)
    ensures r & flag == 0
    ensures SameOutside(r, flags, flag)
  {
    flags & !flag
  }

  /** The conditions of SetFlag pin the word down: no other word meets them. */
  lemma {:induction false} SetFlagUnique(flags: bv32, flag: bv32, r: bv32)
    requires r & flag == flag && SameOutside(r, flags, flag)
    ensures r == SetFlag(flags, flag)
  {
  }

  /** Likewise for ClearFlag. */
  lemma {:induction false} ClearFlagUnique(flags: bv32, flag: bv32, r: bv32)
    requires r & flag == 0 && SameOutside(r, flags, flag)
    ensures r == ClearFlag(flags, flag)
  {
  }

  /** For a non-empty flag, setting it makes `HasFlag` true, clearing it false. */
  lemma {:induction false} SetClearThenHas(flags: bv32, flag: bv32)
    requires flag != 0
    ensures HasFlag(SetFlag(flags, flag), flag)
    ensures !HasFlag(ClearFlag(flags, flag), flag)
  {
  }

  /** For a one-bit flag, `HasFlag` reads exactly that bit. */
  lemma {:induction false} HasSingleBit(flags: bv32, i: bv5)
    ensures HasFlag(flags, 1 << i) <==> (flags >> i) & 1 == 1
  {
  }

  /** Util.h's AddFlag as written: `flags` is taken by value, so `|=` updates
      the callee's copy. The result is what the caller's word holds afterwards. */
  function AddFlag(flags: bv32, flag: bv32): (callerFlags: bv32)
    ensures callerFlags == flags
  {
    var copy := SetFlag(flags, flag);
    flags
  }

  /** Util.h's RemoveFlag as written; like AddFlag it changes only its copy. */
  function RemoveFlag(flags: bv32, flag: bv32): (callerFlags: bv32)
    ensures callerFlags == flags
  {
    var copy := ClearFlag(flags, flag);
    flags
  }

  /** Whenever `flag` brings a new bit, AddFlag loses it: the caller's word
      differs from the intended SetFlag result and still lacks the flag. */
  lemma {:induction false} AddFlagLosesNewBits(flags: bv32, flag: bv32)
    requires flag & !flags != 0
    ensures AddFlag(flags, flag) != SetFlag(flags, flag)
    ensures AddFlag(flags, flag) & flag != flag
  {
  }

  /** Whenever `flag` shares a bit with the word, RemoveFlag keeps it. */
  lemma {:induction false} RemoveFlagKeepsBits(flags: bv32, flag: bv32)
    requires HasFlag(flags, flag)
    ensures RemoveFlag(flags, flag) != ClearFlag(flags, flag)
    ensures HasFlag(RemoveFlag(flags, flag), flag)
  {
  }

  /** The call a character state makes on enter: adding FLAGS_ATTACK to a
      clear word leaves it clear. */
  lemma AddFlagOnEnterExample()
    ensures !HasFlag(AddFlag(0, FLAGS_ATTACK), FLAGS_ATTACK)
    ensures HasFlag(SetFlag(0, FLAGS_ATTACK), FLAGS_ATTACK)
  {
  }
}
