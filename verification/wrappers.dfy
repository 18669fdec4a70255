/** The optional-value wrapper used by the model: `None` stands for PHP's `false`
    returned by a cache miss, or for a key that an array does not hold. */
module Wrappers {

  datatype Option<+T> = None | Some(value: T)

}
