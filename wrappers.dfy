/** Small value types shared by every module of the model. */
module Wrappers {

  /** A value that may be missing: JavaScript's `undefined`/`null` on one side, a present value on the other. */
  datatype Option<+T> = None | Some(value: T)

  /**
   * How a callback returned. The callbacks of the annotation manager dereference
   * the converted record without a null check, so for an editor the converter
   * does not recognise they end in a TypeError instead of returning normally.
   */
  datatype Completion = Normal | TypeError
}
