/** The optional value used throughout the model for nullable columns,
    absent JSON members and absent request headers. */
module Options {

  datatype Option<+T> = None | Some(value: T)
}
