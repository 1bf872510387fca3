/** Optional values and success/failure results shared by every component model.
    `None` stands for the JavaScript `null`/`undefined` of an absent field. */
module Wrappers {

  datatype Option<+T> = None | Some(value: T)

  datatype Result<+R, +E> = Success(value: R) | Failure(error: E)
}

/** The colour class a notice (a notistack snackbar) is shown with. The
    snackbar itself is not modelled: an operation returns the notice it would
    enqueue. */
module Notices {

  datatype Variant = Info | Success | Warning | Error
}
