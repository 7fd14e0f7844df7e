/** The optional value that every external call of the updater returns: `None` stands for
    Python's `None`, which the program uses for "absent" and for "the call failed". */
module Wrappers {

  datatype Option<+T> = None | Some(value: T)
}
