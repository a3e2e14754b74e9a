/** The optional value used for the scraper's fallible calls: `None` stands for
    a request that raised, returned a non-success status or a malformed body. */
module Wrappers {

  datatype Option<+T> = None | Some(value: T)

}
