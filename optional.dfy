/** The explicit "present or absent" value used where the library overloads a
    null pointer: an unset kernel, a memory object without a buffer. */
module Optional {

  datatype Option<+T> = None | Some(value: T)

}
