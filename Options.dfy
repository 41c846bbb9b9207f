/** A value that may be absent: stands for a C# reference that may be null. */
module Options {

  datatype Option<+T> = None | Some(value: T)

}
