/** The Some/None wrapper used for values the analysis may lack: a missing
    landmark, a frame with no detected pose, no previous frame yet. */
module Wrappers {

  datatype Option<+T> = None | Some(value: T)
}
