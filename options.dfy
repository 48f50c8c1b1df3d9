/** A value that may be absent: the model's counterpart of a TypeScript `T | null` (or `undefined`). */
module Options {

  datatype Option<+T> = None | Some(value: T)
}
