/** Option type shared by the modules of this model. */
module Wrappers {

  /** `None` stands for a JavaScript `null`/`undefined` or for a search that found nothing. */
  datatype Option<+T> = None | Some(value: T)
}
