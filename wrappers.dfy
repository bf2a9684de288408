/** The optional value returned by the ledger's `find`-style lookups
    (`undefined` in the original) and used for the fields of a partial record. */
module Wrappers {

  datatype Option<+T> = None | Some(value: T)
}
