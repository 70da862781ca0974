/** The optional value used where the component either does something or
    silently skips it (a scroll target for an anchor that is not on the page). */
module Wrappers {

  datatype Option<+T> = None | Some(value: T)

}
