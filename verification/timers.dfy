/**
 * The restartable one-shot `Timer` (main.js:176-194). Each instance owns a
 * single slot for its pending callback; the callback itself is fixed per
 * timer by its owner, so the slot records only the argument captured by
 * `set` and the requested delay. Wall-clock time is not modelled: the
 * environment decides when a pending callback fires by calling `Fire`.
 */
module Timers {
  import opened Wrappers

  /** A scheduled callback: the argument bound at `set` time and the delay in milliseconds. */
  datatype Pending = Pending(arg: string, delay: int)

  class Timer {
    /** `null` or the handle of the one scheduled callback. */
    var slot: Option<Pending>

    constructor ()
      ensures slot == None
    {
      slot := None;
    }

    /** `set`: cancel whatever is pending, then schedule one callback with `arg`. */
    method Set(arg: string, delay: int)
      modifies this
      ensures slot == Some(Pending(arg, delay))
    {
      if slot.Some? {
        slot := None;
      }
      slot := Some(Pending(arg, delay));
    }

    /** `clear`: cancel whatever is pending; a no-op on an empty slot. */
    method Clear()
      modifies this
      ensures slot == None
    {
      if slot.Some? {
        slot := None;
      }
    }

    /**
     * The scheduled callback starts: the slot is emptied first and the
     * argument captured by the last `Set` is handed to the callback.
     */
    method Fire() returns (arg: string)
      requires slot.Some?
      modifies this
      ensures slot == None
      ensures arg == old(slot).value.arg
    {
      arg := slot.value.arg;
      slot := None;
    }
  }
}
