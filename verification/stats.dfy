/** The per-player statistics record that the movement resolver reads
    (`WorldPlayer` in the game's entity module). */
module Stats {

  /** `actions_points` is a usize (never read by the movement pipeline);
      the two speeds are f32 values, modelled as reals. */
  datatype WorldPlayer = WorldPlayer(actionsPoints: nat, walkSpeed: real, sprintingSpeed: real)

  /** The convention the movement pipeline expects of a record: both
      speeds positive, sprinting no slower than walking. */
  predicate SpeedsOrdered(p: WorldPlayer)
  {
    0.0 < p.walkSpeed <= p.sprintingSpeed
  }

  /** `WorldPlayer::default()`, the record every spawned player starts with. */
  function DefaultWorldPlayer(): (p: WorldPlayer)
    ensures SpeedsOrdered(p) && p.sprintingSpeed > p.walkSpeed
    ensures p.sprintingSpeed == 1.5 * p.walkSpeed
  {
    WorldPlayer(3, 3.0, 4.5)
  }

  /** The default field values. */
  lemma DefaultValues()
    ensures DefaultWorldPlayer().actionsPoints == 3
    ensures DefaultWorldPlayer().walkSpeed == 3.0
    ensures DefaultWorldPlayer().sprintingSpeed == 4.5
  {
  }
}
