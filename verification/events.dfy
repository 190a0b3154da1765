/** The movement intents broadcast from input sampling to the resolver
    (`PlayerActionEvent`). */
module Events {
  import opened Vectors

  datatype PlayerActionEvent =
    | Idle
    | Move(direction: Direction)
    | Sprinting(direction: Direction)
}
