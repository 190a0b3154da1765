# Player movement pipeline of mira-turn, in Dafny

This project models how the game turns keyboard input into character motion
each frame. The model covers two systems and one record:

- `detect_input` reads the pressed keys (W, S, A, D, ShiftLeft) and the
  player camera's basis vectors. It sends this frame's `PlayerActionEvent`s:
  exactly one `Idle` or `Move(normalized direction)`, then a
  `Sprinting(normalized direction)` when ShiftLeft is held.
- `update_system` applies every event, in the order it was sent, to every
  kinematic character controller. It sets the controller's requested
  `translation` from the speeds in that player's `WorldPlayer` record and
  the frame's elapsed time.
- `WorldPlayer` is the speed record. `WorldPlayer::default()` gives 3 action
  points, walk speed 3.0 and sprinting speed 4.5.

Files and modules:

- `vectors.dfy` (`Vectors`): `Vec3` as a triple of reals. A `Direction` is
  either a finite vector or `NotANumber`, the result of normalizing the zero
  vector. This file also holds the `length_squared() > 0.0` guard and what
  the model assumes about `normalize` (`IsNormalize`).
- `stats.dfy` (`Stats`): the `WorldPlayer` record and its default.
- `events.dfy` (`Events`): the `PlayerActionEvent` variants.
- `input.dfy` (`Input`): `detect_input`. `DetectInput` appends to the
  event buffer and is proved against the specification `FrameEvents`.
  `AccumulateDirection` is its chain of `+=` updates and is proved against
  the closed form `Accumulate`.
- `resolver.dfy` (`Resolver`): `update_system`. `UpdateSystem` loops over
  the events and over an array of controller translations. `ApplyAll`, a
  fold, is its specification.
- `frame.dfy` (`Frame`): one whole frame, with sampling followed by
  resolution.

`normalize` has no closed form over the reals here, so it is a
function-valued parameter. `IsNormalize` states the assumptions the proofs
use: the zero vector maps to NaN, and any other vector maps to a finite
unit vector that is parallel to it and points the same way.

The model follows the code in three places where a reader might expect
otherwise:

- With ShiftLeft held and no direction, the code still sends
  `Sprinting(direction.normalize())` of the zero vector, which is NaN. The
  resolver's length guard then ignores it
  (`SprintWithoutDirectionIsInvalid`, `FrameOutcome`).
- The resolver copies the direction's vertical component into the
  translation unscaled. It does not preserve an existing vertical
  component.
- Only kinematic character controllers are moved. The code has no dynamic
  rigid-body path (see "Left out").

## Model

| member | source | states |
|---|---|---|
| `Vectors.Neg` | src/entities/player/input.rs:34-38 | the negated vector cancels the original under addition, on both sides |
| `Vectors.PositiveLengthIffNonZero` | src/entities/player/input.rs:44 | `length_squared() > 0.0` holds exactly for non-zero vectors |
| `Vectors.NormalizeGuard` | src/entities/player/input.rs:57 | a normalized vector passes the resolver's length guard iff the vector given to `normalize` was non-zero |
| `Vectors.NormalizeKeepsHorizontal` | src/entities/player/input.rs:45 | normalizing a non-zero horizontal vector gives a horizontal direction |
| `Input.CameraTransform.Back` | src/entities/player/input.rs:34 | the camera's back vector cancels its forward vector |
| `Input.CameraTransform.Left` | src/entities/player/input.rs:38 | the camera's left vector cancels its right vector |
| `Stats.DefaultWorldPlayer` | src/entities/mod.rs:34-42 | the default record has both speeds positive, sprinting faster than walking, and sprint speed exactly 1.5 times walk speed |
| `Stats.DefaultValues` | src/entities/mod.rs:37-39 | the default record has `actions_points` 3, `walk_speed` 3.0 and `sprinting_speed` 4.5 |
| `Input.AccumulateDirection` | src/entities/player/input.rs:28-42 | the chain of `+=` updates (W/S adding the flattened forward/back vector with the `direction.y` read-back, A/D adding the left/right vector) equals the closed-form signed sum `Accumulate` |
| `Input.FrameEvents` | src/entities/player/input.rs:20-58 | without exactly one camera nothing is sent; with one, one or two events are sent (two iff ShiftLeft is held); the first is `Idle` or `Move`; a `Sprinting` appears only in second, last position |
| `Input.DetectInput` | src/entities/player/input.rs:16-60 | the buffer afterwards is the earlier events followed by exactly `FrameEvents` of the keys and the camera query, with the source's inner `Idle` branch proved dead |
| `Input.NonZeroNeedsDirectionalKey` | src/entities/player/input.rs:44-51 | a non-zero accumulator implies some directional key is held, so the inner `Idle` branch cannot be taken |
| `Input.VerticalFromRightOnly` | src/entities/player/input.rs:29-42 | forward/back contribute nothing vertical: the accumulator is horizontal when the right vector is, or when A and D are both held or both released |
| `Input.OppositeKeysCancel` | src/entities/player/input.rs:29-53 | W+S without A/D, A+D without W/S, and all four keys give the zero accumulator, and the frame's first event is `Idle` |
| `Input.MoveIffNonZero` | src/entities/player/input.rs:44-58 | the first event is `Move` iff the accumulator is non-zero, and it carries the normalized accumulator; `Sprinting` carries the normalized accumulator, the same direction as `Move` when both are sent |
| `Input.SprintWithoutDirectionIsInvalid` | src/entities/player/input.rs:52-58 | with ShiftLeft held and a zero accumulator the frame sends `[Idle, Sprinting(NaN)]`, and that direction fails the length guard |
| `Input.SentDirectionsAreUnit` | src/entities/player/input.rs:44-58 | with a non-zero accumulator every sent event carries a finite unit-length direction |
| `Input.SingleKeyMovesAtUnitLength` | src/entities/player/input.rs:28-48 | exactly one directional key held (with a camera axis that does not vanish for it) sends `Move` of a unit-length direction |
| `Input.LevelCameraSendsHorizontal` | src/entities/player/input.rs:29-57 | with a camera whose right vector is horizontal, every sent direction that passes the length guard is horizontal |
| `Resolver.Effect` | src/entities/player/input.rs:68-82 | a decisive event (an `Idle`, or a `Move`/`Sprinting` whose direction passes the length guard) clears the translation iff it is `Idle`, and otherwise sets it |
| `Resolver.ApplyAllAppend` | src/entities/player/input.rs:65 | applying two batches of events in turn equals applying their concatenation |
| `Resolver.NonDecisiveKeep` | src/entities/player/input.rs:68-79 | `Move`/`Sprinting` events whose direction fails the length guard leave the translation unchanged |
| `Resolver.LastDecisiveWins` | src/entities/player/input.rs:65-84 | after a frame, a controller's translation is set by the last decisive event alone, whatever the earlier events and the old translation were |
| `Resolver.UpdateSystem` | src/entities/player/input.rs:62-86 | each controller's translation afterwards is the fold of all events, in order, over its old translation using its own player record |
| `Resolver.SprintAfterMoveWins` | src/entities/player/input.rs:65-79 | `Move(d)` followed by a valid `Sprinting(d)` leaves the sprint translation |
| `Resolver.WalkWorkedCase` | src/entities/player/input.rs:68-72 | walk speed 3.0, dt 0.1 and direction (0, 0, -1) give `Some((0, 0, -0.3))` |
| `Resolver.DefaultSprintIsOneAndAHalfWalk` | src/entities/player/input.rs:68-79 | for the default record and any valid direction and dt, the sprint translation is 1.5 times the walk translation in x and z, and the same in y |
| `Resolver.SprintCoversMoreGround` | src/entities/player/input.rs:70-77 | when walk speed is non-negative, sprint speed exceeds walk speed and dt > 0, sprinting moves strictly further than walking along every horizontal axis the direction has a component on, its horizontal squared length is strictly larger, and the vertical component is the same |
| `Frame.FrameOutcome` | src/entities/player/input.rs:16-86 | after one frame the translation is unchanged without exactly one camera; it is cleared when the accumulator is zero, even with ShiftLeft; otherwise it is one step along the normalized accumulator, at sprint speed iff ShiftLeft is held |
| `Frame.FrameMovesIffDirection` | src/entities/player/input.rs:44-82 | starting from no translation, a frame produces one iff there is exactly one camera and the accumulator is non-zero |
| `Frame.RunFrame` | src/entities/player/input.rs:12 | sampling followed by resolution leaves every controller at its `FrameTranslation` |

Definitions without a contract of their own, which the contracts above are
stated over, model these source lines directly:

- `Input.Accumulate` (src/entities/player/input.rs:28-42): the accumulated
  direction as a closed-form signed sum of the camera's flattened forward
  vector and its right vector.
- `Vectors.HasPositiveLength` (src/entities/player/input.rs:44, 69, 75):
  the `length_squared() > 0.0` guard on a direction that may be NaN.
- `Resolver.Step` (src/entities/player/input.rs:70-71, 76-77): the
  translation `(x * speed * dt, y, z * speed * dt)`.
- `Resolver.Apply` (src/entities/player/input.rs:67-83): the `match` on one
  event for one controller.
- `Resolver.ApplyAll` (src/entities/player/input.rs:65-84): all events of
  the frame applied to one controller, in the order they were sent.

## Left out

- Floating point: vectors, speeds and `dt` are reals. f32 rounding,
  underflow of `length_squared` for tiny vectors, signed zeros and the
  exact value `normalize` returns are not modelled. All NaN vectors are one
  value, `NotANumber`.
- `normalize`: a parameter that satisfies `IsNormalize`, not a computed
  square root.
- Bevy scheduling: `Query`, `EventWriter`/`EventReader`, `Res<Time>` and
  `run_if(in_state(GameState::InGame))` are not modelled. The keys, the
  camera query, `dt` and the event buffer are plain parameters.
- System order: the source registers the two systems as an unchained
  tuple. `RunFrame` assumes sampling runs before resolution in the same
  frame.
- Controller pairing: `UpdateSystem` takes the translations and the
  `WorldPlayer` records as two parallel collections of equal length. This
  mirrors the query's pairs.
- Rapier: what the physics engine does with the requested translation is
  not part of this model.
- Dynamic rigid bodies, the `SCALE` unit constant and orientation blending:
  the source has none of these.
- Spawning, the camera rig, fog and bloom, floor creation, window setup and
  plugin wiring: these are scene and engine configuration.
- `AccountPlayer` and `Character`: the pipeline never reads these records.
