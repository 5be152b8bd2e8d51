/** Small value types shared by the configuration components. */
module Util {

  /** A Java reference that may be null: `None` stands for null. */
  datatype Option<+T> = None | Some(value: T)

  /** The outcome of a void Java method that may throw: `Fail` carries the exception. */
  datatype Outcome<+E> = Pass | Fail(error: E)

  /** org.dbmaintain.util.DbMaintainException, reduced to its message. */
  datatype DbMaintainException = DbMaintainException(message: string)
}
