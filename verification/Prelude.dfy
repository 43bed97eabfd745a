/** What several components share: optional values, and the choice to stop. */
module Prelude {
  datatype Option<+T> = None | Some(value: T)

  /** Whether a run stops here: an interrupt, a lost connection or a lost reply, possible
      wherever faults are. */
  method Stops(faults: bool) returns (stop: bool)
    ensures !faults ==> !stop
  {
    if faults {
      stop := *;
    } else {
      stop := false;
    }
  }
}
