/** Fixed tuning values of the game tools (Constants.h). */
module Constants {

  /** Sampling rate of every processed motion curve. */
  const FRAME_PER_SEC: real := 30.0
  const SEC_PER_FRAME: real := 1.0 / FRAME_PER_SEC

  const COLLISION_RADIUS: real := 1.5

  /** Half extents of the playable world box; the vertical extent is unused. */
  const WORLD_HALF_SIZE_X: real := 1000.0
  const WORLD_HALF_SIZE_Z: real := 1000.0

  /** Gameplay flags of a character (bits of GameObject's flag set). */
  const FLAGS_ATTACK: bv32 := 1 << 0
  const FLAGS_COUNTER: bv32 := 1 << 1
  const FLAGS_REDIRECTED: bv32 := 1 << 2
  const FLAGS_NO_MOVE: bv32 := 1 << 3
  const FLAGS_MOVING: bv32 := 1 << 4
  const FLAGS_INVINCIBLE: bv32 := 1 << 5
  const FLAGS_STUN: bv32 := 1 << 6

  /** Names of the proxy bones that carry the root motion of an animation. */
  const TRANSLATE_BONE_NAME: string := "Bip01_$AssimpFbx$_Translation"
  const ROTATE_BONE_NAME: string := "Bip01_$AssimpFbx$_Rotation"
}
