/** The optional value used for JavaScript's null/undefined: `None` stands for
    both, just as the generator's `== null` tests do not tell them apart. */
module Wrappers {

  datatype Option<+T> = None | Some(value: T)
}
