/** The optional value used wherever the controller may have "nothing yet":
    a queue read that found the queue empty, a task that has not received
    a sample, the pressure task's previous mode before its first cycle. */
module Wrappers {

  datatype Option<+T> = None | Some(value: T)

}
