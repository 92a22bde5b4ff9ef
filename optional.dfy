/** An optional value: `None` stands for a missing JavaScript field, an invalid
    `Date`, or a call into a library that raised instead of returning. */
module Optional {

  datatype Option<T> = None | Some(value: T)

}
