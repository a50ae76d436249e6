/** An optional value: stands for a C# reference argument that may be null. */
module Optional {

  datatype Option<+T> = None | Some(value: T)

}
