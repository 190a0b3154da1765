/** Input sampling (`detect_input`): the pressed-key set and the player
    camera's basis become this frame's movement events. */
module Input {
  import opened Vectors
  import opened Events

  /** The keys the sampler looks at; every other key is `Other`. */
  datatype KeyCode = KeyW | KeyS | KeyA | KeyD | ShiftLeft | Other(code: nat)

  /** The camera transform's basis. As in the engine, `back` is the
      negated `forward` and `left` the negated `right`. */
  datatype CameraTransform = CameraTransform(forward: Vec3, right: Vec3)
  {
    function Back(): (b: Vec3)
      ensures Add(forward, b) == Zero()
    {
      Neg(forward)
    }

    function Left(): (l: Vec3)
      ensures Add(right, l) == Zero()
    {
      Neg(right)
    }
  }

  predicate AnyDirectionalKey(keyboard: set<KeyCode>)
  {
    KeyW in keyboard || KeyS in keyboard || KeyA in keyboard || KeyD in keyboard
  }

  /** The signed contribution of one axis of a key pair: `v` when only
      `plus` is held, `-v` when only `minus` is held, zero when both or
      neither are held. */
  function Signed(keyboard: set<KeyCode>, plus: KeyCode, minus: KeyCode, v: real): real
  {
    (if plus in keyboard then v else 0.0) - (if minus in keyboard then v else 0.0)
  }

  /** The accumulated direction in closed form: the W/S pair contributes
      the camera's forward vector flattened to the horizontal plane, the
      D/A pair the full right vector. */
  function Accumulate(keyboard: set<KeyCode>, cam: CameraTransform): Vec3
  {
    Vec3(Signed(keyboard, KeyW, KeyS, cam.forward.x) + Signed(keyboard, KeyD, KeyA, cam.right.x),
         Signed(keyboard, KeyD, KeyA, cam.right.y),
         Signed(keyboard, KeyW, KeyS, cam.forward.z) + Signed(keyboard, KeyD, KeyA, cam.right.z))
  }

  /** The events one frame sends: nothing unless the camera query yields
      exactly one camera; otherwise `Move` of the normalized accumulator
      (or `Idle` when it is zero), then `Sprinting` of the normalized
      accumulator when ShiftLeft is held. */
  function FrameEvents(keyboard: set<KeyCode>, cameras: seq<CameraTransform>,
                       normalize: Vec3 -> Direction): (events: seq<PlayerActionEvent>)
    ensures |cameras| != 1 ==> events == []
    ensures |cameras| == 1 ==> |events| == if ShiftLeft in keyboard then 2 else 1
    ensures |cameras| == 1 ==> events[0].Idle? || events[0].Move?
    ensures forall k :: 0 <= k < |events| ==> (events[k].Sprinting? <==> k == 1)
  {
    if |cameras| != 1 then []
    else
      var acc := Accumulate(keyboard, cameras[0]);
      var first := if acc == Zero() then Idle else Move(normalize(acc));
      if ShiftLeft in keyboard then [first, Sprinting(normalize(acc))] else [first]
  }

  /** The accumulator of `detect_input`, built by the same chain of
      additions as the source, including the read-back of `direction.y`
      when adding the flattened forward and back vectors. */
  method AccumulateDirection(keyboard: set<KeyCode>, cam: CameraTransform) returns (direction: Vec3)
    ensures direction == Accumulate(keyboard, cam)
  {
    direction := Zero();
    if KeyW in keyboard {
      direction := Add(direction, Vec3(cam.forward.x, direction.y, cam.forward.z));
    }
    if KeyS in keyboard {
      direction := Add(direction, Vec3(cam.Back().x, direction.y, cam.Back().z));
    }
    assert direction == Vec3(Signed(keyboard, KeyW, KeyS, cam.forward.x), 0.0,
                             Signed(keyboard, KeyW, KeyS, cam.forward.z));
    if KeyA in keyboard {
      direction := Add(direction, cam.Left());
    }
    if KeyD in keyboard {
      direction := Add(direction, cam.right);
    }
  }

  /** `detect_input`: appends this frame's events to those already
      written, keeping the source's inner `Idle` branch, which a non-zero
      accumulator makes dead. */
  method DetectInput(written: seq<PlayerActionEvent>, keyboard: set<KeyCode>,
                     cameras: seq<CameraTransform>, normalize: Vec3 -> Direction)
    returns (sent: seq<PlayerActionEvent>)
    ensures sent == written + FrameEvents(keyboard, cameras, normalize)
  {
    sent := written;
    if |cameras| == 1 {
      var cam := cameras[0];
      var direction := AccumulateDirection(keyboard, cam);
      PositiveLengthIffNonZero(direction);
      if LengthSquared(direction) > 0.0 {
        var normalizedDirection := normalize(direction);
        if KeyA in keyboard || KeyD in keyboard || KeyS in keyboard || KeyW in keyboard {
          sent := sent + [Move(normalizedDirection)];
        } else {
          assert false;
          sent := sent + [Idle];
        }
      } else {
        sent := sent + [Idle];
      }
      if ShiftLeft in keyboard {
        sent := sent + [Sprinting(normalize(direction))];
      }
    }
  }

  /** A non-zero accumulator needs some directional key: the inner `Idle`
      branch of the source cannot be taken. */
  lemma NonZeroNeedsDirectionalKey(keyboard: set<KeyCode>, cam: CameraTransform)
    ensures Accumulate(keyboard, cam) != Zero() ==> AnyDirectionalKey(keyboard)
  {
  }

  /** Forward and back contribute nothing vertical; the accumulator's
      vertical part comes from the right vector alone. */
  lemma VerticalFromRightOnly(keyboard: set<KeyCode>, cam: CameraTransform)
    ensures cam.right.y == 0.0 ==> Accumulate(keyboard, cam).y == 0.0
    ensures (KeyA in keyboard <==> KeyD in keyboard) ==> Accumulate(keyboard, cam).y == 0.0
  {
  }

  /** Opposite keys cancel: W+S without A/D, A+D without W/S, and all four
      keys together give the zero accumulator, so the frame starts with
      `Idle`. */
  lemma OppositeKeysCancel(keyboard: set<KeyCode>, cameras: seq<CameraTransform>,
                           normalize: Vec3 -> Direction)
    requires |cameras| == 1
    requires || (KeyW in keyboard && KeyS in keyboard && KeyA !in keyboard && KeyD !in keyboard)
             || (KeyA in keyboard && KeyD in keyboard && KeyW !in keyboard && KeyS !in keyboard)
             || (KeyW in keyboard && KeyS in keyboard && KeyA in keyboard && KeyD in keyboard)
    ensures Accumulate(keyboard, cameras[0]) == Zero()
    ensures FrameEvents(keyboard, cameras, normalize)[0] == Idle
  {
  }

  /** `Move` is sent exactly when the accumulator is non-zero, and carries
      the normalized accumulator; a `Sprinting` sent beside it carries the
      same direction. */
  lemma MoveIffNonZero(keyboard: set<KeyCode>, cameras: seq<CameraTransform>,
                       normalize: Vec3 -> Direction)
    requires |cameras| == 1
    ensures var acc := Accumulate(keyboard, cameras[0]);
            var events := FrameEvents(keyboard, cameras, normalize);
            && (events[0].Move? <==> acc != Zero())
            && (events[0].Move? ==> events[0].direction == normalize(acc))
            && (ShiftLeft in keyboard ==> events[1] == Sprinting(normalize(acc)))
            && (events[0].Move? && ShiftLeft in keyboard ==> events[1].direction == events[0].direction)
  {
  }

  /** With no direction, a held ShiftLeft still sends `Sprinting`, but of
      the normalized zero vector, which fails the resolver's length guard. */
  lemma SprintWithoutDirectionIsInvalid(keyboard: set<KeyCode>, cameras: seq<CameraTransform>,
                                        normalize: Vec3 -> Direction)
    requires IsNormalize(normalize)
    requires |cameras| == 1 && ShiftLeft in keyboard
    requires Accumulate(keyboard, cameras[0]) == Zero()
    ensures FrameEvents(keyboard, cameras, normalize) == [Idle, Sprinting(NotANumber)]
    ensures !HasPositiveLength(FrameEvents(keyboard, cameras, normalize)[1].direction)
  {
  }

  /** Every direction the frame sends with `Move`, and every `Sprinting`
      direction when the accumulator is non-zero, has unit length. */
  lemma SentDirectionsAreUnit(keyboard: set<KeyCode>, cameras: seq<CameraTransform>,
                              normalize: Vec3 -> Direction, k: nat)
    requires IsNormalize(normalize)
    requires |cameras| == 1 && Accumulate(keyboard, cameras[0]) != Zero()
    requires k < |FrameEvents(keyboard, cameras, normalize)|
    ensures var e := FrameEvents(keyboard, cameras, normalize)[k];
            && !e.Idle?
            && e.direction.Finite?
            && LengthSquared(e.direction.vec) == 1.0
  {
  }

  /** Exactly one directional key held, with a camera whose contribution
      for that key is non-zero, sends `Move` of a unit direction. */
  lemma SingleKeyMovesAtUnitLength(keyboard: set<KeyCode>, cameras: seq<CameraTransform>,
                                   normalize: Vec3 -> Direction, key: KeyCode)
    requires IsNormalize(normalize)
    requires |cameras| == 1
    requires key in {KeyW, KeyS, KeyA, KeyD} && key in keyboard
    requires forall other :: other in {KeyW, KeyS, KeyA, KeyD} && other != key ==> other !in keyboard
    requires key == KeyW || key == KeyS ==> cameras[0].forward.x != 0.0 || cameras[0].forward.z != 0.0
    requires key == KeyA || key == KeyD ==> cameras[0].right != Zero()
    ensures FrameEvents(keyboard, cameras, normalize)[0].Move?
    ensures FrameEvents(keyboard, cameras, normalize)[0].direction.Finite?
    ensures LengthSquared(FrameEvents(keyboard, cameras, normalize)[0].direction.vec) == 1.0
  {
  }

  /** With a camera whose right vector is horizontal (no roll), every
      direction a frame sends that passes the length guard is horizontal. */
  lemma LevelCameraSendsHorizontal(keyboard: set<KeyCode>, cameras: seq<CameraTransform>,
                                   normalize: Vec3 -> Direction, k: nat)
    requires IsNormalize(normalize)
    requires |cameras| == 1 && cameras[0].right.y == 0.0
    requires k < |FrameEvents(keyboard, cameras, normalize)|
    requires !FrameEvents(keyboard, cameras, normalize)[k].Idle?
    requires HasPositiveLength(FrameEvents(keyboard, cameras, normalize)[k].direction)
    ensures FrameEvents(keyboard, cameras, normalize)[k].direction.vec.y == 0.0
  {
  }
}
