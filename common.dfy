/** Types shared by the weapon, locomotion and inventory models. */
module Common {

  /** An optional value: a missing table entry, a probe without a hit, a missing animation asset. */
  datatype Option<+T> = None | Some(value: T)

  /**
    The last instruction given to one engine timer handle: cleared, or armed with a delay in seconds
    and a looping flag. The scheduler that later fires the callback is not part of this model; the
    callbacks themselves are methods that the environment calls.
  */
  datatype Timer = Cleared | Armed(delay: real, looping: bool)

  /** What a timer handle holds after SetTimer: a non-positive delay clears the timer instead of arming it. */
  function SetTimer(delay: real, looping: bool): Timer
  {
    if delay > 0.0 then Armed(delay, looping) else Cleared
  }

  /** EMovementState: exactly one locomotion state is active at a time. */
  datatype MovementState = Walk | Crouch | Sprint | Slide | Vault
}
