/** The optional-value datatype shared by every module of the survey model:
    a JSON `null`, a missing dictionary key or a failed regular-expression
    search is `None`. */
module Wrappers {

  datatype Option<+T> = None | Some(value: T)
}
