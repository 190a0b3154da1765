/** Motion resolution (`update_system`): every event of the frame, in
    order, is applied to every kinematic controller's requested
    translation, scaled by that controller's player speeds. */
module Resolver {
  import opened Vectors
  import opened Stats
  import opened Events

  /** An event that sets the translation whatever it was before: `Idle`,
      or a movement whose direction passes the length guard. Any other
      event leaves the translation alone. */
  predicate Decisive(e: PlayerActionEvent)
  {
    e.Idle? || HasPositiveLength(e.direction)
  }

  /** The translation for one frame of travel along `d` at `speed` units per
      second over `dt` seconds: the horizontal components are scaled, the
      vertical one is copied unscaled. */
  function Step(d: Vec3, speed: real, dt: real): Vec3
  {
    var movementSpeed := speed * dt;
    Vec3(d.x * movementSpeed, d.y, d.z * movementSpeed)
  }

  /** The translation a decisive event sets. */
  function Effect(e: PlayerActionEvent, p: WorldPlayer, dt: real): (t: Option<Vec3>)
    requires Decisive(e)
    ensures t.None? <==> e.Idle?
  {
    match e
    case Idle => None
    case Move(d) => Some(Step(d.vec, p.walkSpeed, dt))
    case Sprinting(d) => Some(Step(d.vec, p.sprintingSpeed, dt))
  }

  datatype Option<T> = None | Some(value: T)

  /** One event applied to one controller's translation. */
  function Apply(t: Option<Vec3>, e: PlayerActionEvent, p: WorldPlayer, dt: real): Option<Vec3>
  {
    if Decisive(e) then Effect(e, p, dt) else t
  }

  /** The events applied one after another, first to last. */
  function ApplyAll(t: Option<Vec3>, events: seq<PlayerActionEvent>, p: WorldPlayer, dt: real): Option<Vec3>
    decreases |events|
  {
    if events == [] then t else ApplyAll(Apply(t, events[0], p, dt), events[1..], p, dt)
  }

  /** Applying two batches one after the other is applying their
      concatenation. */
  lemma {:induction false} ApplyAllAppend(t: Option<Vec3>, a: seq<PlayerActionEvent>,
                                          b: seq<PlayerActionEvent>, p: WorldPlayer, dt: real)
    ensures ApplyAll(t, a + b, p, dt) == ApplyAll(ApplyAll(t, a, p, dt), b, p, dt)
    decreases |a|
  {
    if a == [] {
      assert a + b == b;
    } else {
      assert (a + b)[0] == a[0];
      assert (a + b)[1..] == a[1..] + b;
      ApplyAllAppend(Apply(t, a[0], p, dt), a[1..], b, p, dt);
    }
  }

  /** Events that are not decisive leave the translation as it was. */
  lemma {:induction false} NonDecisiveKeep(t: Option<Vec3>, events: seq<PlayerActionEvent>,
                                           p: WorldPlayer, dt: real)
    requires forall k :: 0 <= k < |events| ==> !Decisive(events[k])
    ensures ApplyAll(t, events, p, dt) == t
    decreases |events|
  {
    if events != [] {
      assert !Decisive(events[0]);
      NonDecisiveKeep(t, events[1..], p, dt);
    }
  }

  /** Last writer wins: the last decisive event of the frame alone decides
      the translation, whatever came before it. */
  lemma LastDecisiveWins(t: Option<Vec3>, events: seq<PlayerActionEvent>, j: nat,
                         p: WorldPlayer, dt: real)
    requires j < |events| && Decisive(events[j])
    requires forall k :: j < k < |events| ==> !Decisive(events[k])
    ensures ApplyAll(t, events, p, dt) == Effect(events[j], p, dt)
  {
    var before, tail := events[..j + 1], events[j + 1..];
    assert events == before + tail;
    ApplyAllAppend(t, before, tail, p, dt);
    assert before == events[..j] + [events[j]];
    ApplyAllAppend(t, events[..j], [events[j]], p, dt);
    NonDecisiveKeep(ApplyAll(t, before, p, dt), tail, p, dt);
  }

  /** `update_system`: for each event in order, for each controller, apply
      the event to that controller's translation using that controller's
      player record. `players[i]` is the record paired with the controller
      whose translation is `translations[i]`. */
  method UpdateSystem(dt: real, translations: array<Option<Vec3>>, players: seq<WorldPlayer>,
                      events: seq<PlayerActionEvent>)
    requires translations.Length == |players|
    modifies translations
    ensures forall i :: 0 <= i < translations.Length ==>
              translations[i] == ApplyAll(old(translations[i]), events, players[i], dt)
  {
    for n := 0 to |events|
      invariant forall i :: 0 <= i < translations.Length ==>
                  translations[i] == ApplyAll(old(translations[i]), events[..n], players[i], dt)
    {
      var event := events[n];
      for c := 0 to translations.Length
        invariant forall i :: 0 <= i < c ==>
                    translations[i] == ApplyAll(old(translations[i]), events[..n + 1], players[i], dt)
        invariant forall i :: c <= i < translations.Length ==>
                    translations[i] == ApplyAll(old(translations[i]), events[..n], players[i], dt)
      {
        ghost var before := translations[c];
        var worldPlayer := players[c];
        match event {
          case Move(direction) =>
            if direction.Finite? && LengthSquared(direction.vec) > 0.0 {
              translations[c] := Some(Step(direction.vec, worldPlayer.walkSpeed, dt));
            }
          case Sprinting(direction) =>
            if direction.Finite? && LengthSquared(direction.vec) > 0.0 {
              translations[c] := Some(Step(direction.vec, worldPlayer.sprintingSpeed, dt));
            }
          case Idle =>
            translations[c] := None;
        }
        assert translations[c] == Apply(before, event, worldPlayer, dt);
        assert events[..n + 1] == events[..n] + [event];
        ApplyAllAppend(old(translations[c]), events[..n], [event], players[c], dt);
      }
    }
    assert events[..|events|] == events;
  }

  /** `Move(d)` followed by a valid `Sprinting(d)` leaves the sprint
      translation, whatever the translation was. */
  lemma SprintAfterMoveWins(t: Option<Vec3>, d: Vec3, p: WorldPlayer, dt: real)
    requires d != Zero()
    ensures ApplyAll(t, [Move(Finite(d)), Sprinting(Finite(d))], p, dt)
              == Some(Step(d, p.sprintingSpeed, dt))
  {
    PositiveLengthIffNonZero(d);
    LastDecisiveWins(t, [Move(Finite(d)), Sprinting(Finite(d))], 1, p, dt);
  }

  /** Worked case: walking speed 3.0, dt 0.1 and direction (0, 0, -1) give
      the translation (0, 0, -0.3). */
  lemma WalkWorkedCase(t: Option<Vec3>)
    ensures Apply(t, Move(Finite(Vec3(0.0, 0.0, -1.0))), DefaultWorldPlayer(), 0.1)
              == Some(Vec3(0.0, 0.0, -0.3))
  {
  }

  /** For the default record the sprint translation is exactly 1.5 times
      the walk translation horizontally, for any valid direction and dt. */
  lemma DefaultSprintIsOneAndAHalfWalk(d: Vec3, dt: real)
    requires d != Zero()
    ensures var walk := Apply(None, Move(Finite(d)), DefaultWorldPlayer(), dt);
            var sprint := Apply(None, Sprinting(Finite(d)), DefaultWorldPlayer(), dt);
            && walk.Some? && sprint.Some?
            && sprint.value.x == 1.5 * walk.value.x
            && sprint.value.z == 1.5 * walk.value.z
            && sprint.value.y == walk.value.y
  {
    PositiveLengthIffNonZero(d);
  }

  function Abs(r: real): real
  {
    if r < 0.0 then -r else r
  }

  /** Squaring is strictly increasing on the non-negative reals. */
  lemma SquareMonotonic(n: real, m: real)
    requires 0.0 <= n < m
    ensures n * n < m * m
  {
    calc {
      n * n;
      <= { assert n * (m - n) >= 0.0; }
      n * m;
      < { assert (m - n) * m > 0.0; }
      m * m;
    }
  }

  /** Squares preserve the order of magnitudes. */
  lemma SquareOrdersMagnitude(a: real, b: real)
    requires Abs(a) > Abs(b)
    ensures a * a > b * b
  {
    var m, n := Abs(a), Abs(b);
    calc {
      a * a;
      == m * m;
      > { SquareMonotonic(n, m); }
      n * n;
      == b * b;
    }
  }

  /** Sprinting covers strictly more ground than walking along the same
      direction whenever the record's sprint speed exceeds its walk speed
      and the time step is positive: further along each horizontal axis the
      direction has a component on, and further in the horizontal plane;
      the vertical component is the same. */
  lemma SprintCoversMoreGround(d: Vec3, p: WorldPlayer, dt: real)
    requires 0.0 <= p.walkSpeed < p.sprintingSpeed && dt > 0.0
    ensures var walk := Step(d, p.walkSpeed, dt);
            var sprint := Step(d, p.sprintingSpeed, dt);
            && (d.x != 0.0 ==> Abs(sprint.x) > Abs(walk.x))
            && (d.z != 0.0 ==> Abs(sprint.z) > Abs(walk.z))
            && sprint.y == walk.y
            && ((d.x != 0.0 || d.z != 0.0) ==>
                  sprint.x * sprint.x + sprint.z * sprint.z > walk.x * walk.x + walk.z * walk.z)
  {
    var walk := Step(d, p.walkSpeed, dt);
    var sprint := Step(d, p.sprintingSpeed, dt);
    if d.x != 0.0 {
      SquareOrdersMagnitude(sprint.x, walk.x);
    }
    if d.z != 0.0 {
      SquareOrdersMagnitude(sprint.z, walk.z);
    }
  }
}
