/** The optional-value datatype the classifier returns: `None` stands for the
    source's `None` ("could not classify"), `Some` for a result dictionary. */
module Wrappers {

  datatype Option<+T> = None | Some(value: T)
}
