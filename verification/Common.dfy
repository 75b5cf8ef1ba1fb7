/** Result and option types shared by the whole model. */
module Common {

  datatype Option<+T> = None | Some(value: T)

  /** `Err` stands for the exception the program raises. */
  datatype Result<+T, +E> = Ok(value: T) | Err(error: E)
}
