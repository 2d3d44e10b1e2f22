/** Stand-ins for Java's null and for the exceptions the core can raise. */
module Wrappers {

  /** A value that Java may hold as null (None). */
  datatype Option<+T> = None | Some(value: T) {
    function GetOr(default: T): T {
      match this
      case Some(v) => v
      case None => default
    }
  }

  /** The unchecked Java exceptions that the modelled code can raise. */
  datatype Exception =
    | IndexOutOfBounds        // ArrayIndexOutOfBoundsException, IndexOutOfBoundsException
    | NullPointer             // NullPointerException
    | NoSuchElement           // NoSuchElementException (Collections.max of an empty list)
    | ConcurrentModification  // ConcurrentModificationException (ArrayList.forEach)

  /** The outcome of a Java call that returns a value or throws. */
  datatype Result<+T> = Ok(value: T) | Throws(exception: Exception)

  /** The outcome of a Java call that returns nothing or throws. */
  datatype Outcome = Completed | Threw(exception: Exception)
}
