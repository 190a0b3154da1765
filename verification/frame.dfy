/** One frame of the movement pipeline: the events `detect_input` sends
    are the events `update_system` applies, to every controller. */
module Frame {
  import opened Vectors
  import opened Stats
  import opened Events
  import opened Input
  import opened Resolver

  /** The translation a controller is left with after one frame. */
  function FrameTranslation(keyboard: set<KeyCode>, cameras: seq<CameraTransform>,
                            normalize: Vec3 -> Direction,
                            t: Option<Vec3>, p: WorldPlayer, dt: real): Option<Vec3>
  {
    ApplyAll(t, FrameEvents(keyboard, cameras, normalize), p, dt)
  }

  /** The outcome of a frame: without exactly one camera nothing changes;
      with no direction the translation is cleared (even with ShiftLeft,
      whose `Sprinting` fails the length guard); otherwise it is one step
      along the normalized accumulator, at sprinting speed when ShiftLeft
      is held and at walking speed when it is not. */
  lemma FrameOutcome(keyboard: set<KeyCode>, cameras: seq<CameraTransform>,
                     normalize: Vec3 -> Direction, t: Option<Vec3>, p: WorldPlayer, dt: real)
    requires IsNormalize(normalize)
    ensures var r := FrameTranslation(keyboard, cameras, normalize, t, p, dt);
            if |cameras| != 1 then r == t
            else
              var acc := Accumulate(keyboard, cameras[0]);
              if acc == Zero() then r == None
              else
                var speed := if ShiftLeft in keyboard then p.sprintingSpeed else p.walkSpeed;
                r == Some(Step(normalize(acc).vec, speed, dt))
  {
    var events := FrameEvents(keyboard, cameras, normalize);
    if |cameras| == 1 {
      var acc := Accumulate(keyboard, cameras[0]);
      NormalizeGuard(normalize, acc);
      if acc == Zero() {
        LastDecisiveWins(t, events, 0, p, dt);
      } else {
        LastDecisiveWins(t, events, |events| - 1, p, dt);
      }
    }
  }

  /** A frame moves the player (the translation ends as `Some`) exactly
      when the camera query yields exactly one camera and some directional
      key is held whose contributions do not cancel. */
  lemma FrameMovesIffDirection(keyboard: set<KeyCode>, cameras: seq<CameraTransform>,
                               normalize: Vec3 -> Direction, p: WorldPlayer, dt: real)
    requires IsNormalize(normalize)
    ensures (FrameTranslation(keyboard, cameras, normalize, None, p, dt).Some?
             <==> |cameras| == 1 && Accumulate(keyboard, cameras[0]) != Zero())
  {
    FrameOutcome(keyboard, cameras, normalize, None, p, dt);
  }

  /** One whole frame over a set of controllers: sample input, then resolve
      the sent events against every controller. */
  method RunFrame(keyboard: set<KeyCode>, cameras: seq<CameraTransform>,
                  normalize: Vec3 -> Direction, dt: real,
                  translations: array<Option<Vec3>>, players: seq<WorldPlayer>)
    requires translations.Length == |players|
    modifies translations
    ensures forall i :: 0 <= i < translations.Length ==>
              translations[i] == FrameTranslation(keyboard, cameras, normalize, old(translations[i]), players[i], dt)
  {
    var events := DetectInput([], keyboard, cameras, normalize);
    assert events == FrameEvents(keyboard, cameras, normalize);
    UpdateSystem(dt, translations, players, events);
  }
}
