/** The optional-value type used throughout the model, for JavaScript's `null`
    results and for optional inputs. */
module Wrappers {

  datatype Option<+T> = None | Some(value: T)
}
