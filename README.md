# Root-motion sampling and game helpers of the Urho3D game tools

This project models the root-motion part of the Urho3D game tools in Dafny and
proves properties of the model.

- **Motion** (`Motion.h`). A processed motion is a curve of `(x, y, z, yaw)`
  samples, one per frame at 30 frames per second.
  - `GetKey` samples the curve at a time. It takes the frame the time falls
    in, clamps it to the last key, and blends linearly towards the next key.
  - `GetMotion` gives the motion over a time step. When a looping step runs
    past the clip end, it is split into the rest of this cycle plus the start
    of the next one.
  - `SetEndFrame` and `Process` keep the motion's bookkeeping. `Process`
    loads the animation once and hands the key extraction to the rig.
- **Asset processing** (`AssetProcess.h`).
  - The `RootMotionFlag` masks.
  - The in-place edits of key-frame tracks: `TranslateAnimation` and the two
    loops of `RotateAnimation`.
- **Helpers** (`Util.h`): world-box position filtering, resource names,
  angle normalisation, and flag bits.
- **Finite-state machine** (`FSM.h`): states with a time-in-state counter,
  and a machine with enter/exit hooks on a change of state.
- **GameObject** (`GameObject.h`): a flag word and a lifetime countdown.

Types:
- Every `float` is a `real`, so rounding is not modelled.
- Every flag word is a `bv32`.
- Engine vectors are the `Vec3`, `Vec4` and `Quat` datatypes.
- Engine resources are small classes. An `Animation` has its length and a
  map of tracks, and each `AnimationTrack` has an array of key-frames that
  the processor rewrites in place.

Things from the engine that the model takes as parameters:
- The resource cache is a `map<string, Animation>`.
- The rig's root-motion extraction (`ProcessAnimation`) is a function
  parameter. It returns an `Extraction`: the key curve, the start offset and
  the pre-rotation angle.
- The quaternion math of `RotateAnimation` is two function parameters.

Where the source is not well-formed C++, the model follows its evident intent:
- `AssetProcess.h` and `FSM.h` use AngelScript syntax (`@`, `!is null`, `is`).
- `FSM.h` calls `CanReEntered`, which no shown file defines. It is modelled
  as the `RE_ENTER_FLAG` bit of the state's flag word.
- `FSM::ChangeState` uses `currentState` while the field is `currentState_`.
  They are taken to be the same field.
- `Motion::Process` tests `processed` while the field is `processed_`.
  They are taken to be the same field.

The statements proved about the sampler:
- Exact frame times sample their key exactly.
- The interpolation reads a fraction in [0, 1), and the sample lies between
  the two keys.
- Consecutive non-wrapping steps telescope (`AccumulatedTelescopes`).
- On a constant-velocity clip whose length spans its frames, every step of
  at most one lap moves by velocity × frames stepped, whether it wraps or
  not (`RampStep`). So the loop seam loses nothing.

## Model

| member | source | states |
|---|---|---|
| Vectors.Lerp4Between | Source/Tools/Game/Motion.h:71-72 | For a fraction in [0, 1], each component of the blend `k1.Lerp(k2, a)` lies between the components of the two keys. |
| Util.FilterPosition | Source/Tools/Game/Util.h:13-21 | The height is kept. The result lies in the world box shrunk by `COLLISION_RADIUS + 1`. X and Z are each the point of their range nearest to the input. A position already inside the box is returned unchanged. |
| Util.WorldBox | Source/Tools/Game/Util.h:17-19 | With radius 1.5 + 1 and half size 1000, the box is [-997.5, 997.5] on X and on Z. |
| Util.FilterPositionIdempotent | Source/Tools/Game/Util.h:13-21 | Filtering a filtered position changes nothing. |
| Util.GetAnimationName | Source/Tools/Game/Util.h:23-26 | The name is "Animations/", then the motion name, then "_Take 001.ani", and nothing else. |
| Util.FileNameToMotionName | Source/Tools/Game/Util.h:28-31 | The result is the input without its last 13 characters: it is 13 shorter and is a prefix of the input. |
| Util.MotionNameOfFileName | Source/Tools/Game/Util.h:23-31 | The take suffix is 13 characters long, so stripping the file name of a motion gives back the motion name. |
| Util.ClampAngle | Source/Tools/Game/Util.h:34-41 | Angles in [-180, 180] are unchanged. The result differs from the input by 0 or ±360. Above 180 it is the input − 360, and below −180 it is the input + 360. Inputs in [-540, 540] land in [-180, 180]. |
| Util.ClampAngleIdempotent | Source/Tools/Game/Util.h:34-41 | On [-540, 540], clamping twice is clamping once. |
| Util.HasFlag | Source/Tools/Game/Util.h:53-56 | True only for a non-zero word and a non-zero flag. True whenever every bit of a non-zero `flag` is set in the word. |
| Util.HasSingleBit | Source/Tools/Game/Util.h:53-56 | For a one-bit flag, `HasFlag` is true exactly when that bit of the word is set. |
| Util.SetFlag | Source/Tools/Game/GameObject.h:32-35 | `flags \| flag` has every bit of `flag` set and agrees with the old word on all other bits. |
| Util.ClearFlag | Source/Tools/Game/GameObject.h:37-40 | `flags & ~flag` has every bit of `flag` clear and agrees with the old word on all other bits. |
| Util.SetFlagUnique | Source/Tools/Game/GameObject.h:32-35 | No other word has the bits of `flag` set while keeping every other bit, so SetFlag's contract pins the word down. |
| Util.ClearFlagUnique | Source/Tools/Game/GameObject.h:37-40 | Likewise for clearing the bits of `flag`. |
| Util.SetClearThenHas | Source/Tools/Game/GameObject.h:32-45 | For a non-zero flag, `HasFlag` is true after setting it and false after clearing it. |
| Util.AddFlag | Source/Tools/Game/Util.h:43-46 | As written: the word is passed by value, so the caller's flags are unchanged. |
| Util.RemoveFlag | Source/Tools/Game/Util.h:48-51 | As written: the caller's flags are unchanged. |
| Util.AddFlagLosesNewBits | Source/Tools/Game/Util.h:43-46 | Whenever `flag` has a bit the word lacks, the caller's word after AddFlag differs from the intended result and still lacks that bit. |
| Util.RemoveFlagKeepsBits | Source/Tools/Game/Util.h:48-51 | Whenever the word shares a bit with `flag`, RemoveFlag leaves `HasFlag` true and differs from the intended result. |
| Util.AddFlagOnEnterExample | Source/Tools/Game/CharacterState.h:36-40 | A character state entering with `FLAGS_ATTACK` on a clear word leaves it without the flag, while the intended update would set it. |
| AssetProcess.ElementaryFlagsAreDistinctBits | Source/Tools/Game/AssetProcess.h:13-22 | X, Y, Z, R and the four extension flags are each a single bit, and no two share a bit. |
| AssetProcess.CompositeMasks | Source/Tools/Game/AssetProcess.h:24-34 | Each composite is the union of the axes it names. `kMotion_ALL` is X\|Y\|Z\|R (15) and holds no extension bit. The three-axis masks lack the axis they leave out. |
| AssetProcess.TranslatedFrames | Source/Tools/Game/AssetProcess.h:156-161 | Translating keeps the key-frame count, order, times and rotations, and adds `diff` to each position. |
| AssetProcess.TranslatedTwice | Source/Tools/Game/AssetProcess.h:159 | Translating by `a` and then by `b` is one translation by `a + b`. |
| AssetProcess.TranslateRoundTrip | Source/Tools/Game/AssetProcess.h:159 | Translating by `diff` and then by `-diff` restores the key-frames. |
| AssetProcess.TranslateKeyFrames | Source/Tools/Game/AssetProcess.h:156-161 | The in-place loop leaves the buffer holding exactly the translated key-frames. |
| AssetProcess.TranslateAnimation | Source/Tools/Game/AssetProcess.h:151-163 | With a translate track present, its buffer ends up translated by `diff`. The frame lets nothing else change, so an animation without that track is left alone. |
| AssetProcess.TurnedFrames | Source/Tools/Game/AssetProcess.h:108-129 | Re-orientation rewrites one channel per track. Key-frame counts, order and times stay, and so does the other channel. |
| AssetProcess.TurnKeyFrameRotations | Source/Tools/Game/AssetProcess.h:110-119 | The rotate-track loop replaces every rotation by its turned counterpart, in place. |
| AssetProcess.TurnKeyFramePositions | Source/Tools/Game/AssetProcess.h:123-128 | The translate-track loop replaces every position by its turned counterpart, in place. |
| AssetProcess.RotateAnimation | Source/Tools/Game/AssetProcess.h:98-130 | Each present root track is rewritten: rotations on the rotate track, positions on the translate track. Nothing else changes. |
| Motions.FrameIndex | Source/Tools/Game/Motion.h:61-63 | The index is a valid key and lies at or below `t*30`. Below the last key it is the floor of `t*30`. |
| Motions.GetKey | Source/Tools/Game/Motion.h:56-73 | The sample of the curve at `t`: zero for an empty curve, the key of the clamped frame `unsigned(t*30)` when it is the last one, and otherwise the blend towards the next key by `t*30 − i`. Its properties are the lemmas in the rows below. |
| Motions.GetKeyEmpty | Source/Tools/Game/Motion.h:58-59 | An empty curve samples to the zero vector. |
| Motions.GetKeyFlat | Source/Tools/Game/Motion.h:58-69 | With no key every time samples to zero. With one key every time samples to that key. |
| Motions.GetKeyPastLastFrame | Source/Tools/Game/Motion.h:61-69 | At or past the last frame time, the sample is the last key exactly. |
| Motions.GetKeyAtFrame | Source/Tools/Game/Motion.h:61-72 | At time `k/30` the sample is key `k`, or the last key when `k` is beyond the curve. |
| Motions.GetKeyInterpolates | Source/Tools/Game/Motion.h:65-72 | Between two keys, the fraction `t*30 − i` lies in [0, 1), the sample is their blend by it, and each component lies between the two keys. |
| Motions.MotionDelta | Source/Tools/Game/Motion.h:35-54 | The motion `GetMotion` writes for a non-empty curve: `GetKey(t+dt) − GetKey(t)`, or for a looping step past the end the sum of the step to the end and the step from 0 over the time left over. Its properties are the lemmas in the rows below. |
| Motions.FlatCurveNeverMoves | Source/Tools/Game/Motion.h:35-73 | On a curve of at most one key, every step moves by zero, wrapping or not. |
| Motions.MotionDeltaWrapSplit | Source/Tools/Game/Motion.h:40-47 | A looping step past the clip end is the non-looping step from `t` to the end, plus the non-looping step from 0 over the time left over. |
| Motions.MotionDeltaNoWrap | Source/Tools/Game/Motion.h:48-53 | A step that does not wrap moves by `GetKey(t+dt) − GetKey(t)`, so an empty step does not move. |
| Motions.MotionDeltaAdditive | Source/Tools/Game/Motion.h:48-53 | Two consecutive non-wrapping steps sum to the single step that covers both. |
| Motions.AccumulatedTelescopes | Source/Tools/Game/Motion.h:35-54 | Any run of non-wrapping steps accumulates to the change of the sample between the first and the last time. |
| Motions.RampKey | Source/Tools/Game/Motion.h:56-73 | On a constant-velocity curve, the sample at any time up to the last frame is velocity × `t*30`. |
| Motions.RampTail | Source/Tools/Game/Motion.h:40-47 | On such a curve, a wrapping step of at most one lap moves by velocity × `dt*30`. |
| Motions.RampSteady | Source/Tools/Game/Motion.h:48-53 | On such a curve, a non-wrapping step moves by velocity × `dt*30`. |
| Motions.RampStep | Source/Tools/Game/Motion.h:35-54 | Every step of at most one lap, in either branch, moves by velocity × frames stepped. So splitting at the seam loses no motion. |
| Motions.Motion.constructor | Source/Tools/Game/Motion.h:16-19 | A configured motion starts unprocessed, with no animation and an empty curve. |
| Motions.Motion.SetEndFrame | Source/Tools/Game/Motion.h:21-33 | A negative frame gives the last key index and the clip length. Otherwise the frame is kept and the end time is `frame × SEC_PER_FRAME`, that is frame/30. |
| Motions.Motion.GetMotion | Source/Tools/Game/Motion.h:35-54 | On an empty curve the out value is left as it was. Otherwise the result is the motion over the step, wrap split included. The recursion is one level deep. |
| Motions.Motion.GetStartPos | Source/Tools/Game/Motion.h:93-96 | The result is the xyz of the start offset, which with the offset's yaw gives the whole offset. |
| Motions.Motion.GetStartRot | Source/Tools/Game/Motion.h:98-101 | The start yaw cancels the pre-rotation angle. |
| Motions.Motion.Process | Source/Tools/Game/Motion.h:103-132 | Once processed it is a no-op. Every cached animation has a non-negative length. A missing animation leaves it unprocessed, with the curve, angle and end frame and time unchanged. Otherwise the curve, start offset and angle come from the extraction, the end frame and time are derived as SetEndFrame derives them, and the motion is processed. A motion it processes holds an animation of non-negative length, which is what GetMotion needs. |
| StateMachine.State.constructor | Source/Tools/Game/FSM.h:15-19 | A new state has spent no time and has no flags. |
| StateMachine.State.SetName | Source/Tools/Game/FSM.h:23-27 | The name is set together with its hash, and nothing else changes. |
| StateMachine.State.Enter | Source/Tools/Game/FSM.h:29-32 | Entering resets the time in state to 0 and keeps the rest. |
| StateMachine.State.Exit | Source/Tools/Game/FSM.h:34-37 | Exiting resets the time in state to 0 and keeps the rest. |
| StateMachine.State.Update | Source/Tools/Game/FSM.h:39-42 | An update adds `dt` to the time in state and keeps the rest. |
| StateMachine.State.CanReEntered | Source/Tools/Game/FSM.h:97 | True exactly when the state's flag word has its lowest bit, `RE_ENTER_FLAG`, set. |
| StateMachine.TransitionHooks | Source/Tools/Game/FSM.h:95-108 | A change ends by entering the new state, with the old state as argument. Just before that the old state, if any, is exited towards the new one. Re-entry runs four hooks: the state's own Exit and Enter, then the common Exit and Enter. A change from no state runs one hook, and any other change two. |
| StateMachine.FSM.constructor | Source/Tools/Game/FSM.h:131-132 | A new machine has no states and no current state. |
| StateMachine.FSM.AddState | Source/Tools/Game/FSM.h:68-71 | Afterwards the state is found under its hash, replacing any earlier one, and every other hash finds what it found before. |
| StateMachine.FSM.FindState | Source/Tools/Game/FSM.h:78-83 | The result is null exactly when no state has the hash, and otherwise it is the registered state. |
| StateMachine.FSM.FindStateByName | Source/Tools/Game/FSM.h:73-76 | The same lookup under the name's hash. |
| StateMachine.FSM.ChangeState | Source/Tools/Game/FSM.h:85-124 | The result is true exactly when the hash is known and is either a different state or a state that allows re-entry. On false, nothing changes. On true, the new state is current with time 0 and the old state's time is 0. The hooks appended are `TransitionHooks(old, new)`. Other states keep their time, and no state's name, hash or flag changes. |
| StateMachine.FSM.ChangeStateByName | Source/Tools/Game/FSM.h:126-129 | The same promises as ChangeState, stated for the hash of the name: the result is true exactly when the name's hash is known and names a different state or one that allows re-entry. On false nothing changes. On true the state is current with time 0, the old state's time is 0, the hooks are `TransitionHooks(old, new)`, and nothing else changes. |
| GameObjects.GameObject.constructor | Source/Tools/Game/GameObject.h:13-19 | A new object has no flags, duration −1, and is not removed. |
| GameObjects.GameObject.Update | Source/Tools/Game/GameObject.h:21-30 | A positive duration goes down by exactly the time step. The node is removed exactly when that brings it to 0 or below. A non-positive duration is never changed and never removes the node. The flags stay. |
| GameObjects.GameObject.AddFlag | Source/Tools/Game/GameObject.h:32-35 | The bits of `flag` are set and all other bits kept. `HasFlag(flag)` then holds exactly when `flag` is non-zero. |
| GameObjects.GameObject.RemoveFlag | Source/Tools/Game/GameObject.h:37-40 | The bits of `flag` are cleared and all other bits kept. `HasFlag(flag)` is then false. |
| GameObjects.GameObject.HasFlag | Source/Tools/Game/GameObject.h:42-45 | True exactly when the flag word shares a bit with `flag`. |

## Left out

- The root-motion extraction `MotionRig::ProcessAnimation` is not defined in any file of this model. It is a function parameter of `Motion.Process`.
- The `MotionRig` constructor, `GetProjectedAxis` and `GetRotationInXZPlane` work on live scene nodes and quaternion products, which are engine code.
- AssetProcess.RotateAnimation: the yaw quaternion and the probe-node round trip are abstract functions. It requires the two root tracks to be separate buffers, which engine animations always are.
- The key-frame scale channel is not modelled.
- `Motion::endDistance_` is a square root of the end-frame offset and is not modelled. The index `endFrame_ - 1` at Motion.h:121 needs `1 <= endFrame_ <= |motionKeys_|`, which the source does not check. With the default end frame −1, SetEndFrame sets `endFrame_` to `|motionKeys_| − 1`, so a one-key curve reads index −1.
- `AttackMotion` has no behaviour beyond its fields, and `Motion::DebugDraw` is debug rendering.
- `Character.h`, `CharacterState.h` and `GameState.h` are engine-bound playback, UI and scene glue. They are not part of this model, except the two by-value flag calls at CharacterState.h:38,44.
- `Fader`, `TimeLogger` and `DebugDrawDirection` from `Util.h` (UI, system clock and debug drawing), all logging, and `ScriptCompiler.cpp`, `Facer.cpp` and `Urho2DIsometricDemo.h` are not part of this model.
- Motions.GetKey requires `t >= 0`, because `unsigned(t * FRAME_PER_SEC)` is undefined for negative times. Unsigned overflow for times beyond 2^32 frames is not modelled.
- Motions.Motion.GetMotion requires `t >= 0`, `t + dt >= 0` and a non-negative animation length.
- Motions.RampStep: a looping step longer than one lap is modelled as the source computes it. Its head part clamps at the last key. `RampStep` is stated only for steps of at most one lap.
- Motions.Motion.Process requires every cached animation to have a non-negative length. Engine animation lengths are never negative, and GetMotion needs it.
- Motions.GetKey and Motions.MotionDelta carry no `ensures` of their own. Their properties are stated in the lemmas beside them.
- Motions.Motion.SetEndFrame requires an animation when the frame is negative, because the source dereferences `animation_` there.
- Motions.Motion.constructor: the source constructor initialises nothing. The model takes the motion's configuration as arguments and starts unprocessed.
- Util.FileNameToMotionName requires at least 13 characters. Shorter names depend on how the engine's `Substring` treats a negative length.
- Util.FileNameToMotionName: the engine's `String` counts UTF-8 bytes, and the model counts characters. The two agree when the last 13 characters are ASCII, which holds for every name `GetAnimationName` builds. They differ for a name with a non-ASCII tail.
- StateMachine.StringHash is a stand-in: the engine's `StringHash` is not part of this model. It is a 32-bit SDBM hash of the ASCII lower-cased characters, and no proof depends on it.
- StateMachine.State.Update: `FixedUpdate`, `DebugDraw` and `GetDebugText` do nothing or only format text, and are not modelled.
- Flag words: the source mixes `int` and `unsigned`. Every flag word is a 32-bit vector, so the conversions are the identity on bits.
- GameObjects.GameObject.Update: removing the node is a boolean, and the engine's scene graph is not modelled.

## Findings

| source | as written | input that shows it | evidently intended | confidence | as-written member | corrected member |
|---|---|---|---|---|---|---|
| Source/Tools/Game/Util.h:43-51 | `AddFlag` and `RemoveFlag` take `unsigned flags` by value, so `\|=` and `&= ~` update a copy. Their callers at CharacterState.h:38,44 never change the character's flags. | `flags = 0`, `flag = FLAGS_ATTACK`: after `AddFlag` the word is still 0 and `HasFlag` is false. | Take the word by reference, so the caller's flags get the bits set or cleared, as `GameObject::AddFlag`/`RemoveFlag` do. | not executed | Util.AddFlag, Util.RemoveFlag (shown by Util.AddFlagLosesNewBits, Util.RemoveFlagKeepsBits, Util.AddFlagOnEnterExample) | Util.SetFlag, Util.ClearFlag (proved by Util.SetClearThenHas, used by GameObjects.GameObject.AddFlag/RemoveFlag) |
