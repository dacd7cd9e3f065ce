/** Values shared by every part of the model. */
module Common {

  /** The `T | null` of the source: a value that may be absent. */
  datatype Option<+T> = None | Some(value: T)

  /**
    Row ids. Every id reaching the handlers is a UUID, so it is never the empty
    string; JavaScript's truthiness test on an id is then the same as "present".
   */
  type Id = s: string | s != "" witness "0"
}
