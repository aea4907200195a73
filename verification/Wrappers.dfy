/** Optional values and success/failure results shared by every module.

    `Option.None` stands for a JavaScript value that is `undefined` (an absent
    property, an absent header, an out-of-range array index).  `Result.Failure`
    stands for a thrown exception or a rejected promise, carrying its message.
 */
module Wrappers {

  datatype Option<+T> = None | Some(value: T)

  datatype Result<+R, +E> = Success(value: R) | Failure(error: E)
}
